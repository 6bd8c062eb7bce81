/** The reader of OpenVPN's status file, in its machine-readable and its legacy layout. */
module StatusFile {
  import opened Text
  import opened Decimal

  datatype Session = Session(
    commonName: string, realIP: string, virtualIP: string, bytesIn: int, bytesOut: int,
    connectedAt: Option<int>, cipher: string, peerID: string)

  datatype Section = Outside | Clients | Routes

  datatype Parser = Parser(sessions: seq<Session>, legacy: map<string, Session>, section: Section)

  /** How the legacy layout's date and time is read; the layout itself is not modelled. */
  type Stamp = string -> Option<int>

  const START := Parser([], map[], Outside)

  // ---------------------------------------------------------------- one line

  predicate IsClientRow(line: string) {
    "CLIENT_LIST," <= line && |Split(line, ',')| >= 9
  }

  function ClientRow(line: string): Session
    requires IsClientRow(line)
  {
    var parts := Split(line, ',');
    var since := ParseInt(parts[8]);
    Session(parts[1], parts[2], parts[3], ParseInt(parts[5]).0, ParseInt(parts[6]).0,
            if since.1 then Some(since.0) else None,
            if |parts| > 12 then parts[12] else "", if |parts| > 11 then parts[11] else "")
  }

  predicate IsHeader(line: string) {
    || "Updated," <= line || "Common Name," <= line
    || "Virtual Address," <= line || "Max bcast/mcast queue length," <= line
  }

  function LegacyClient(parts: seq<string>, stamp: Stamp): Session
    requires |parts| >= 5
  {
    Session(parts[0], parts[1], "", ParseInt(parts[2]).0, ParseInt(parts[3]).0, stamp(parts[4]), "", "")
  }

  /** The state after one line, trimmed. */
  function Feed(p: Parser, line: string, stamp: Stamp): Parser {
    if line == "" then p
    else if "CLIENT_LIST," <= line then
      if IsClientRow(line) then p.(sessions := p.sessions + [ClientRow(line)]) else p
    else if line == "OpenVPN CLIENT LIST" then p.(section := Clients)
    else if line == "ROUTING TABLE" then p.(section := Routes)
    else if line == "GLOBAL STATS" || line == "END" then p.(section := Outside)
    else if IsHeader(line) then p
    else
      var parts := Split(line, ',');
      match p.section
      case Clients =>
        if |parts| < 5 then p else p.(legacy := p.legacy[parts[0] := LegacyClient(parts, stamp)])
      case Routes =>
        if |parts| < 2 || parts[1] !in p.legacy then p
        else p.(legacy := p.legacy[parts[1] := p.legacy[parts[1]].(virtualIP := parts[0])])
      case Outside => p
  }

  function FeedAll(p: Parser, lines: seq<string>, stamp: Stamp): Parser
    decreases |lines|
  {
    if lines == [] then p else FeedAll(Feed(p, TrimSpace(lines[0]), stamp), lines[1..], stamp)
  }

  lemma {:induction false} FeedSnoc(p: Parser, lines: seq<string>, line: string, stamp: Stamp)
    ensures FeedAll(p, lines + [line], stamp) == Feed(FeedAll(p, lines, stamp), TrimSpace(line), stamp)
    decreases |lines|
  {
    if lines == [] {
      assert ([] + [line])[1..] == [];
    } else {
      assert (lines + [line])[1..] == lines[1..] + [line];
      FeedSnoc(Feed(p, TrimSpace(lines[0]), stamp), lines[1..], line, stamp);
    }
  }

  lemma {:induction false} FeedConcat(p: Parser, front: seq<string>, back: seq<string>, stamp: Stamp)
    ensures FeedAll(p, front + back, stamp) == FeedAll(FeedAll(p, front, stamp), back, stamp)
    decreases |front|
  {
    if front == [] {
      assert [] + back == back;
    } else {
      assert (front + back)[1..] == front[1..] + back;
      FeedConcat(Feed(p, TrimSpace(front[0]), stamp), front[1..], back, stamp);
    }
  }

  // ---------------------------------------------------------------- the reader

  datatype Read = Sessions(list: seq<Session>) | Unreadable

  /** The list holds the map's values, each once, in some order. */
  ghost predicate Lists(list: seq<Session>, m: map<string, Session>) {
    && |list| == |m|
    && (forall i, j :: 0 <= i < j < |list| ==> list[i].commonName != list[j].commonName)
    && (forall i :: 0 <= i < |list| ==> list[i].commonName in m && m[list[i].commonName] == list[i])
  }

  ghost predicate KeyedByName(m: map<string, Session>) {
    forall cn :: cn in m ==> m[cn].commonName == cn
  }

  /** What reading a file may answer; the order of legacy sessions is not determined. */
  ghost predicate Reads(file: Option<string>, stamp: Stamp, r: Read) {
    match file
    case None => r.Unreadable?
    case Some(text) =>
      var scanned := Scan(text, MAX_LINE);
      var p := FeedAll(START, scanned.lines, stamp);
      if scanned.tooLong then r.Unreadable?
      else if p.sessions != [] || p.legacy == map[] then r == Sessions(p.sessions)
      else r.Sessions? && Lists(r.list, p.legacy)
  }

  /** The loop over the lines. */
  method ReadLines(lines: seq<string>, stamp: Stamp) returns (sessions: seq<Session>, legacyByCN: map<string, Session>)
    ensures sessions == FeedAll(START, lines, stamp).sessions && legacyByCN == FeedAll(START, lines, stamp).legacy
    ensures KeyedByName(legacyByCN)
  {
    var section;
    sessions, legacyByCN, section := [], map[], Outside;
    var i := 0;
    while i < |lines|
      invariant 0 <= i <= |lines|
      invariant Parser(sessions, legacyByCN, section) == FeedAll(START, lines[..i], stamp)
      invariant KeyedByName(legacyByCN)
    {
      var raw := lines[i];
      assert lines[..i + 1] == lines[..i] + [raw];
      FeedSnoc(START, lines[..i], raw, stamp);
      i := i + 1;
      var line := TrimSpace(raw);
      if line == "" {
        continue;
      }
      var parts := Split(line, ',');
      if "CLIENT_LIST," <= line {
        if |parts| < 9 {
          continue;
        }
        sessions := sessions + [ClientRow(line)];
        continue;
      }
      match line {
        case "OpenVPN CLIENT LIST" =>
          section := Clients;
          continue;
        case "ROUTING TABLE" =>
          section := Routes;
          continue;
        case "GLOBAL STATS" =>
          section := Outside;
          continue;
        case "END" =>
          section := Outside;
          continue;
        case _ =>
      }
      if IsHeader(line) {
        continue;
      }
      match section {
        case Clients =>
          if |parts| >= 5 {
            legacyByCN := legacyByCN[parts[0] := LegacyClient(parts, stamp)];
          }
        case Routes =>
          if |parts| >= 2 && parts[1] in legacyByCN {
            legacyByCN := legacyByCN[parts[1] := legacyByCN[parts[1]].(virtualIP := parts[0])];
          }
        case Outside =>
      }
    }
    assert lines[..i] == lines;
  }

  method ReadSessions(file: Option<string>, stamp: Stamp) returns (r: Read)
    ensures Reads(file, stamp, r)
    ensures r.Unreadable? <==>
            file.None? || exists i :: 0 <= i < |RawLines(file.value)| && |RawLines(file.value)[i]| >= 1_048_576
  {
    if file.None? {
      return Unreadable;
    }
    var scanned := Scan(file.value, MAX_LINE);
    ScanIs(file.value, MAX_LINE);
    var sessions, legacyByCN := ReadLines(scanned.lines, stamp);
    if scanned.tooLong {
      return Unreadable;
    }
    if |sessions| == 0 && |legacyByCN| > 0 {
      sessions := ListOf(legacyByCN);
    }
    return Sessions(sessions);
  }

  /** The values of a map in whatever order the map is traversed. */
  method ListOf(m: map<string, Session>) returns (list: seq<Session>)
    requires KeyedByName(m)
    ensures Lists(list, m)
  {
    list := [];
    var left := m.Keys;
    while left != {}
      invariant left <= m.Keys && |list| + |left| == |m|
      invariant forall i, j :: 0 <= i < j < |list| ==> list[i].commonName != list[j].commonName
      invariant forall i :: 0 <= i < |list| ==>
                  list[i].commonName in m && list[i].commonName !in left && m[list[i].commonName] == list[i]
      decreases left
    {
      var cn :| cn in left;
      list := list + [m[cn]];
      left := left - {cn};
    }
  }
}
