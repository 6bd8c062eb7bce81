/** The human-readable status layout: client rows, then routing rows that fill in the virtual addresses. */
module LegacyRoundTrip {
  import opened Sequences
  import opened Text
  import opened Decimal
  import opened StatusFile
  import opened StatusRoundTrip

  /** A connected client as the legacy layout shows it; `since` is its connection time as text. */
  datatype Client = Client(name: string, realIP: string, bytesIn: int, bytesOut: int, since: string)

  datatype Route = Route(virtualIP: string, name: string, realIP: string, lastRef: string)

  function ClientLine(c: Client): string {
    Join([c.name, c.realIP, PrintInt(c.bytesIn), PrintInt(c.bytesOut), c.since], ',')
  }

  function RouteLine(r: Route): string {
    Join([r.virtualIP, r.name, r.realIP, r.lastRef], ',')
  }

  /** A first column that does not look like another kind of row. */
  ghost predicate RowStart(s: string) {
    && Field(s) && (s != "" ==> !IsSpace(s[0]))
    && s !in {"CLIENT_LIST", "Updated", "Common Name", "Virtual Address", "Max bcast/mcast queue length"}
  }

  ghost predicate RowEnd(s: string) {
    Field(s) && VisibleEnd(s)
  }

  ghost predicate ClientOk(c: Client) {
    && RowStart(c.name) && Field(c.realIP) && Int64(c.bytesIn) && Int64(c.bytesOut) && RowEnd(c.since)
    && |ClientLine(c)| < MAX_LINE
  }

  ghost predicate RouteOk(r: Route) {
    && RowStart(r.virtualIP) && Field(r.name) && Field(r.realIP) && RowEnd(r.lastRef)
    && |RouteLine(r)| < MAX_LINE
  }

  /** A line that is no machine-readable row, no section word and no heading. */
  ghost predicate OnlyRow(line: string) {
    && line != "" && !("CLIENT_LIST," <= line) && !IsHeader(line)
    && line != "OpenVPN CLIENT LIST" && line != "ROUTING TABLE" && line != "GLOBAL STATS" && line != "END"
  }

  // ---------------------------------------------------------------- one row

  /** A row whose first column is not the word does not begin with the word and a comma. */
  lemma NotPrefix(parts: seq<string>, word: string, prefix: string)
    requires |parts| >= 2 && Without(parts[0], ',') && Without(word, ',') && prefix == word + ","
    requires parts[0] != word
    ensures !(prefix <= Join(parts, ','))
  {
    FirstField(parts, word);
  }

  lemma NotClientList(parts: seq<string>)
    requires |parts| >= 2 && Without(parts[0], ',') && parts[0] != "CLIENT_LIST"
    ensures !("CLIENT_LIST," <= Join(parts, ','))
  {
    NotPrefix(parts, "CLIENT_LIST", "CLIENT_LIST,");
  }

  lemma NotUpdated(parts: seq<string>)
    requires |parts| >= 2 && Without(parts[0], ',') && parts[0] != "Updated"
    ensures !("Updated," <= Join(parts, ','))
  {
    NotPrefix(parts, "Updated", "Updated,");
  }

  lemma NotCommonName(parts: seq<string>)
    requires |parts| >= 2 && Without(parts[0], ',') && parts[0] != "Common Name"
    ensures !("Common Name," <= Join(parts, ','))
  {
    NotPrefix(parts, "Common Name", "Common Name,");
  }

  lemma NotVirtualAddress(parts: seq<string>)
    requires |parts| >= 2 && Without(parts[0], ',') && parts[0] != "Virtual Address"
    ensures !("Virtual Address," <= Join(parts, ','))
  {
    NotPrefix(parts, "Virtual Address", "Virtual Address,");
  }

  lemma NotQueueLength(parts: seq<string>)
    requires |parts| >= 2 && Without(parts[0], ',') && parts[0] != "Max bcast/mcast queue length"
    ensures !("Max bcast/mcast queue length," <= Join(parts, ','))
  {
    NotPrefix(parts, "Max bcast/mcast queue length", "Max bcast/mcast queue length,");
  }

  lemma NotSectionWord(line: string)
    requires ',' in line
    ensures line != "OpenVPN CLIENT LIST" && line != "ROUTING TABLE" && line != "GLOBAL STATS" && line != "END"
  {
  }

  /** A row of columns is none of the other kinds of line. */
  lemma OnlyColumns(parts: seq<string>)
    requires |parts| >= 2 && RowStart(parts[0])
    ensures OnlyRow(Join(parts, ','))
  {
    NotClientList(parts);
    NotUpdated(parts);
    NotCommonName(parts);
    NotVirtualAddress(parts);
    NotQueueLength(parts);
    JoinEnds(parts, ',');
    NotSectionWord(Join(parts, ','));
  }

  /**
   A row of five columns or more shows a client, among the routes one of two or more gives a known client its
   address; every other row, and every row outside the two sections, is skipped.
   */
  lemma FeedRow(p: Parser, line: string, parts: seq<string>, stamp: Stamp)
    requires OnlyRow(line) && Split(line, ',') == parts
    ensures p.section.Clients? && |parts| >= 5 ==>
              Feed(p, line, stamp) == p.(legacy := p.legacy[parts[0] := LegacyClient(parts, stamp)])
    ensures p.section.Clients? && |parts| < 5 ==> Feed(p, line, stamp) == p
    ensures p.section.Routes? && |parts| >= 2 && parts[1] in p.legacy ==>
              Feed(p, line, stamp) == p.(legacy := p.legacy[parts[1] := p.legacy[parts[1]].(virtualIP := parts[0])])
    ensures p.section.Routes? && (|parts| < 2 || parts[1] !in p.legacy) ==> Feed(p, line, stamp) == p
    ensures p.section.Outside? ==> Feed(p, line, stamp) == p
  {
  }

  /** What makes a list of columns a row of its section. */
  ghost predicate Columns(parts: seq<string>) {
    && |parts| >= 2 && (forall i :: 0 <= i < |parts| ==> Field(parts[i]))
    && RowStart(parts[0]) && RowEnd(parts[|parts| - 1])
  }

  lemma ColumnsReadBack(parts: seq<string>)
    requires Columns(parts)
    ensures var line := Join(parts, ',');
            && TrimSpace(line) == line && Split(line, ',') == parts
            && '\n' !in line && line != "" && line[|line| - 1] != '\r'
  {
    assert forall i :: 0 <= i < |parts| ==> Field(parts[i]) && Without(parts[i], ',') && '\n' !in parts[i];
    RowReadsBack(parts);
    JoinWithout(parts, ',', '\n');
    JoinEnds(parts, ',');
    assert IsSpace('\r');
  }

  function Seen(c: Client, stamp: Stamp): Session {
    Session(c.name, c.realIP, "", c.bytesIn, c.bytesOut, stamp(c.since), "", "")
  }

  lemma ClientFed(p: Parser, c: Client, stamp: Stamp)
    requires ClientOk(c) && p.section.Clients?
    ensures Feed(p, TrimSpace(ClientLine(c)), stamp) == p.(legacy := p.legacy[c.name := Seen(c, stamp)])
    ensures PlainLine(ClientLine(c), MAX_LINE)
  {
    var parts := [c.name, c.realIP, PrintInt(c.bytesIn), PrintInt(c.bytesOut), c.since];
    PrintIntIsField(c.bytesIn);
    PrintIntIsField(c.bytesOut);
    ParsePrint(c.bytesIn);
    ParsePrint(c.bytesOut);
    ColumnsReadBack(parts);
    OnlyColumns(parts);
    FeedRow(p, ClientLine(c), parts, stamp);
  }

  function Routed(m: map<string, Session>, r: Route): map<string, Session> {
    if r.name in m then m[r.name := m[r.name].(virtualIP := r.virtualIP)] else m
  }

  lemma RouteFed(p: Parser, r: Route, stamp: Stamp)
    requires RouteOk(r) && p.section.Routes?
    ensures Feed(p, TrimSpace(RouteLine(r)), stamp) == p.(legacy := Routed(p.legacy, r))
    ensures PlainLine(RouteLine(r), MAX_LINE)
  {
    var parts := [r.virtualIP, r.name, r.realIP, r.lastRef];
    ColumnsReadBack(parts);
    OnlyColumns(parts);
    FeedRow(p, RouteLine(r), parts, stamp);
  }

  // ---------------------------------------------------------------- lists of rows

  function ClientLines(cs: seq<Client>): seq<string> {
    if cs == [] then [] else [ClientLine(cs[0])] + ClientLines(cs[1..])
  }

  function RouteLines(rs: seq<Route>): seq<string> {
    if rs == [] then [] else [RouteLine(rs[0])] + RouteLines(rs[1..])
  }

  function AllSeen(m: map<string, Session>, cs: seq<Client>, stamp: Stamp): map<string, Session>
    decreases |cs|
  {
    if cs == [] then m else AllSeen(m[cs[0].name := Seen(cs[0], stamp)], cs[1..], stamp)
  }

  function AllRouted(m: map<string, Session>, rs: seq<Route>): map<string, Session>
    decreases |rs|
  {
    if rs == [] then m else AllRouted(Routed(m, rs[0]), rs[1..])
  }

  lemma {:induction false} ClientsFed(p: Parser, cs: seq<Client>, stamp: Stamp)
    requires p.section.Clients? && forall i :: 0 <= i < |cs| ==> ClientOk(cs[i])
    ensures FeedAll(p, ClientLines(cs), stamp) == p.(legacy := AllSeen(p.legacy, cs, stamp))
    ensures forall i :: 0 <= i < |ClientLines(cs)| ==> PlainLine(ClientLines(cs)[i], MAX_LINE)
    decreases |cs|
  {
    if cs != [] {
      assert ClientOk(cs[0]);
      ClientFed(p, cs[0], stamp);
      var next := p.(legacy := p.legacy[cs[0].name := Seen(cs[0], stamp)]);
      ClientsFed(next, cs[1..], stamp);
      assert ClientLines(cs)[0] == ClientLine(cs[0]) && ClientLines(cs)[1..] == ClientLines(cs[1..]);
    }
  }

  lemma {:induction false} RoutesFed(p: Parser, rs: seq<Route>, stamp: Stamp)
    requires p.section.Routes? && forall i :: 0 <= i < |rs| ==> RouteOk(rs[i])
    ensures FeedAll(p, RouteLines(rs), stamp) == p.(legacy := AllRouted(p.legacy, rs))
    ensures forall i :: 0 <= i < |RouteLines(rs)| ==> PlainLine(RouteLines(rs)[i], MAX_LINE)
    decreases |rs|
  {
    if rs != [] {
      assert RouteOk(rs[0]);
      RouteFed(p, rs[0], stamp);
      var next := p.(legacy := Routed(p.legacy, rs[0]));
      RoutesFed(next, rs[1..], stamp);
      assert RouteLines(rs)[0] == RouteLine(rs[0]) && RouteLines(rs)[1..] == RouteLines(rs[1..]);
    }
  }

  // ---------------------------------------------------------------- what the rows mean

  /** The virtual address of the name's last route, or `otherwise` if it has none. */
  function LastRoute(rs: seq<Route>, name: string, otherwise: string): string {
    if rs == [] then otherwise
    else if rs[|rs| - 1].name == name then rs[|rs| - 1].virtualIP
    else LastRoute(rs[..|rs| - 1], name, otherwise)
  }

  lemma {:induction false} LastRouteHead(rs: seq<Route>, name: string, otherwise: string)
    requires rs != []
    ensures LastRoute(rs, name, otherwise) ==
            LastRoute(rs[1..], name, if rs[0].name == name then rs[0].virtualIP else otherwise)
    decreases |rs|
  {
    if |rs| > 1 {
      assert rs[1..][..|rs| - 2] == rs[..|rs| - 1][1..];
      LastRouteHead(rs[..|rs| - 1], name, otherwise);
    }
  }

  lemma {:induction false} AllRoutedIs(m: map<string, Session>, rs: seq<Route>, name: string)
    ensures AllRouted(m, rs).Keys == m.Keys
    ensures name in m ==>
              AllRouted(m, rs)[name] == m[name].(virtualIP := LastRoute(rs, name, m[name].virtualIP))
    decreases |rs|
  {
    if rs != [] {
      AllRoutedIs(Routed(m, rs[0]), rs[1..], name);
      if name in m { LastRouteHead(rs, name, m[name].virtualIP); }
    }
  }

  /** The session a client row and the routing rows describe together. */
  function Restored(c: Client, rs: seq<Route>, stamp: Stamp): Session {
    Seen(c, stamp).(virtualIP := LastRoute(rs, c.name, ""))
  }

  ghost predicate NamesDistinct(cs: seq<Client>) {
    forall i, j :: 0 <= i < j < |cs| ==> cs[i].name != cs[j].name
  }

  function Names(cs: seq<Client>): seq<string> {
    if cs == [] then [] else [cs[0].name] + Names(cs[1..])
  }

  lemma {:induction false} NameAt(cs: seq<Client>, i: nat)
    requires i < |cs|
    ensures |Names(cs)| == |cs| && Names(cs)[i] == cs[i].name
  {
    if i > 0 { NameAt(cs[1..], i - 1); } else if |cs| > 1 { NameAt(cs[1..], 0); }
  }

  /** Names that no row mentions keep their session. */
  lemma {:induction false} NamesSeen(m: map<string, Session>, cs: seq<Client>, stamp: Stamp, name: string)
    ensures name in AllSeen(m, cs, stamp) <==> name in m || name in Names(cs)
    ensures name in m && name !in Names(cs) ==> AllSeen(m, cs, stamp)[name] == m[name]
    decreases |cs|
  {
    if cs != [] { NamesSeen(m[cs[0].name := Seen(cs[0], stamp)], cs[1..], stamp, name); }
  }

  lemma NameNotInTail(cs: seq<Client>)
    requires NamesDistinct(cs) && cs != []
    ensures cs[0].name !in Names(cs[1..])
  {
    var rest := cs[1..];
    if cs[0].name in Names(rest) {
      var i :| 0 <= i < |Names(rest)| && Names(rest)[i] == cs[0].name;
      if |rest| > 0 { NameAt(rest, 0); }
      NameAt(rest, i);
    }
  }

  lemma {:induction false} ClientSeen(m: map<string, Session>, cs: seq<Client>, stamp: Stamp, i: nat)
    requires NamesDistinct(cs) && i < |cs|
    ensures cs[i].name in AllSeen(m, cs, stamp) && AllSeen(m, cs, stamp)[cs[i].name] == Seen(cs[i], stamp)
    decreases |cs|
  {
    var next := m[cs[0].name := Seen(cs[0], stamp)];
    if i == 0 {
      NameNotInTail(cs);
      NamesSeen(next, cs[1..], stamp, cs[0].name);
    } else {
      ClientSeen(next, cs[1..], stamp, i - 1);
    }
  }

  // ---------------------------------------------------------------- the file

  /** The parts of the file that no row depends on. */
  datatype Frame = Frame(updated: string, columns: string, routeColumns: string, queue: string)

  ghost predicate FrameOk(f: Frame) {
    Tail(f.updated) && Tail(f.columns) && Tail(f.routeColumns) && Tail(f.queue)
  }

  /** The free part of a heading line. */
  ghost predicate Tail(s: string) {
    '\n' !in s && VisibleEnd(s) && |s| < 1000
  }

  function Top(f: Frame): seq<string> {
    ["OpenVPN CLIENT LIST", "Updated," + f.updated, "Common Name," + f.columns]
  }

  function Middle(f: Frame): seq<string> {
    ["ROUTING TABLE", "Virtual Address," + f.routeColumns]
  }

  function Bottom(f: Frame): seq<string> {
    ["GLOBAL STATS", "Max bcast/mcast queue length," + f.queue, "END"]
  }

  function LegacyLines(f: Frame, cs: seq<Client>, rs: seq<Route>): seq<string> {
    Top(f) + ClientLines(cs) + Middle(f) + RouteLines(rs) + Bottom(f)
  }

  lemma FeedOne(p: Parser, line: string, stamp: Stamp)
    requires Trimmed(line)
    ensures FeedAll(p, [line], stamp) == Feed(p, line, stamp)
  {
    TrimmedStays(line);
    assert [line][1..] == [];
  }

  lemma FeedTwo(p: Parser, first: string, second: string, stamp: Stamp)
    requires Trimmed(first) && Trimmed(second)
    ensures FeedAll(p, [first, second], stamp) == Feed(Feed(p, first, stamp), second, stamp)
  {
    FeedOne(p, first, stamp);
    FeedOne(Feed(p, first, stamp), second, stamp);
    FeedConcat(p, [first], [second], stamp);
    assert [first] + [second] == [first, second];
  }

  lemma FeedThree(p: Parser, first: string, second: string, third: string, stamp: Stamp)
    requires Trimmed(first) && Trimmed(second) && Trimmed(third)
    ensures FeedAll(p, [first, second, third], stamp) == Feed(Feed(Feed(p, first, stamp), second, stamp), third, stamp)
  {
    FeedTwo(p, first, second, stamp);
    FeedOne(Feed(Feed(p, first, stamp), second, stamp), third, stamp);
    FeedConcat(p, [first, second], [third], stamp);
    assert [first, second] + [third] == [first, second, third];
  }

  /** A section word is trimmed, plain and changes the section only. */
  lemma WordFed(p: Parser, stamp: Stamp)
    ensures Feed(p, "OpenVPN CLIENT LIST", stamp) == p.(section := Clients)
    ensures Feed(p, "ROUTING TABLE", stamp) == p.(section := Routes)
    ensures Feed(p, "END", stamp) == p.(section := Outside)
    ensures Feed(p, "GLOBAL STATS", stamp) == p.(section := Outside)
  {
  }

  /** A heading line: some words, a comma and a tail. */
  ghost predicate Heading(line: string) {
    IsHeader(line) && ',' in line && |line| >= 2 && line[1] != 'L' && Trimmed(line) && PlainLine(line, MAX_LINE)
  }

  lemma HeadingFed(p: Parser, line: string, stamp: Stamp)
    requires Heading(line)
    ensures Feed(p, line, stamp) == p
  {
    assert "CLIENT_LIST,"[1] == 'L';
    NotSectionWord(line);
  }

  lemma TailPlain(prefix: string, tail: string)
    requires Tail(tail) && 2 <= |prefix| < 1000 && !IsSpace(prefix[0]) && prefix[|prefix| - 1] == ',' && '\n' !in prefix
    ensures var line := prefix + tail; Trimmed(line) && PlainLine(line, MAX_LINE) && ',' in line && prefix <= line
  {
    var line := prefix + tail;
    SepNotSpace();
    assert IsSpace('\r');
    assert line[|prefix| - 1] == ',';
    assert line[|line| - 1] == if tail == "" then ',' else tail[|tail| - 1];
  }

  lemma UpdatedHeading(tail: string)
    requires Tail(tail)
    ensures Heading("Updated," + tail)
  {
    TailPlain("Updated,", tail);
  }

  lemma ColumnsHeading(tail: string)
    requires Tail(tail)
    ensures Heading("Common Name," + tail)
  {
    TailPlain("Common Name,", tail);
  }

  lemma RouteHeading(tail: string)
    requires Tail(tail)
    ensures Heading("Virtual Address," + tail)
  {
    TailPlain("Virtual Address,", tail);
  }

  lemma QueueHeading(tail: string)
    requires Tail(tail)
    ensures Heading("Max bcast/mcast queue length," + tail)
  {
    TailPlain("Max bcast/mcast queue length,", tail);
  }

  lemma WordsPlain()
    ensures Trimmed("OpenVPN CLIENT LIST") && PlainLine("OpenVPN CLIENT LIST", MAX_LINE)
    ensures Trimmed("ROUTING TABLE") && PlainLine("ROUTING TABLE", MAX_LINE)
    ensures Trimmed("GLOBAL STATS") && PlainLine("GLOBAL STATS", MAX_LINE)
    ensures Trimmed("END") && PlainLine("END", MAX_LINE)
  {
  }

  lemma TopFed(p: Parser, f: Frame, stamp: Stamp)
    requires FrameOk(f)
    ensures FeedAll(p, Top(f), stamp) == p.(section := Clients) && AllPlain(Top(f))
  {
    var q := p.(section := Clients);
    var second, third := "Updated," + f.updated, "Common Name," + f.columns;
    WordsPlain();
    WordFed(p, stamp);
    UpdatedHeading(f.updated);
    ColumnsHeading(f.columns);
    HeadingFed(q, second, stamp);
    HeadingFed(q, third, stamp);
    FeedThree(p, "OpenVPN CLIENT LIST", second, third, stamp);
  }

  lemma MiddleFed(p: Parser, f: Frame, stamp: Stamp)
    requires FrameOk(f)
    ensures FeedAll(p, Middle(f), stamp) == p.(section := Routes) && AllPlain(Middle(f))
  {
    var second := "Virtual Address," + f.routeColumns;
    WordsPlain();
    WordFed(p, stamp);
    RouteHeading(f.routeColumns);
    HeadingFed(p.(section := Routes), second, stamp);
    FeedTwo(p, "ROUTING TABLE", second, stamp);
  }

  lemma BottomFed(p: Parser, f: Frame, stamp: Stamp)
    requires FrameOk(f)
    ensures FeedAll(p, Bottom(f), stamp) == p.(section := Outside) && AllPlain(Bottom(f))
  {
    var q := p.(section := Outside);
    var second := "Max bcast/mcast queue length," + f.queue;
    WordsPlain();
    WordFed(p, stamp);
    WordFed(q, stamp);
    QueueHeading(f.queue);
    HeadingFed(q, second, stamp);
    FeedThree(p, "GLOBAL STATS", second, "END", stamp);
  }

  ghost predicate AllPlain(lines: seq<string>) {
    forall i :: 0 <= i < |lines| ==> PlainLine(lines[i], MAX_LINE)
  }

  lemma PlainConcat(front: seq<string>, back: seq<string>)
    requires AllPlain(front) && AllPlain(back)
    ensures AllPlain(front + back)
  {
  }

  /** A whole printed file, fed line by line. */
  lemma FileFed(f: Frame, cs: seq<Client>, rs: seq<Route>, stamp: Stamp)
    requires FrameOk(f)
    requires forall i :: 0 <= i < |cs| ==> ClientOk(cs[i])
    requires forall i :: 0 <= i < |rs| ==> RouteOk(rs[i])
    ensures FeedAll(START, LegacyLines(f, cs, rs), stamp) ==
            Parser([], AllRouted(AllSeen(map[], cs, stamp), rs), Outside)
    ensures AllPlain(LegacyLines(f, cs, rs))
  {
    var seen := AllSeen(map[], cs, stamp);
    var l1, l2, l3, l4, l5 := Top(f), ClientLines(cs), Middle(f), RouteLines(rs), Bottom(f);
    var p1 := Parser([], map[], Clients);
    var p2 := Parser([], seen, Clients);
    var p3 := Parser([], seen, Routes);
    var p4 := Parser([], AllRouted(seen, rs), Routes);
    TopFed(START, f, stamp);
    ClientsFed(p1, cs, stamp);
    MiddleFed(p2, f, stamp);
    RoutesFed(p3, rs, stamp);
    BottomFed(p4, f, stamp);
    FeedConcat(START, l1, l2, stamp);
    FeedConcat(START, l1 + l2, l3, stamp);
    FeedConcat(START, l1 + l2 + l3, l4, stamp);
    FeedConcat(START, l1 + l2 + l3 + l4, l5, stamp);
    PlainConcat(l1, l2);
    PlainConcat(l1 + l2, l3);
    PlainConcat(l1 + l2 + l3, l4);
    PlainConcat(l1 + l2 + l3 + l4, l5);
  }

  lemma NamesAreDistinct(cs: seq<Client>)
    requires NamesDistinct(cs)
    ensures |Names(cs)| == |cs| && forall i, j :: 0 <= i < j < |cs| ==> Names(cs)[i] != Names(cs)[j]
  {
    if cs != [] { NameAt(cs, 0); }
    forall i, j | 0 <= i < j < |cs| ensures Names(cs)[i] != Names(cs)[j] {
      NameAt(cs, i);
      NameAt(cs, j);
    }
  }

  /** The map after all rows holds exactly the restored sessions. */
  lemma MapIs(cs: seq<Client>, rs: seq<Route>, stamp: Stamp)
    requires NamesDistinct(cs)
    ensures var m := AllRouted(AllSeen(map[], cs, stamp), rs);
            && m.Keys == (set n | n in Names(cs)) && |m| == |cs|
            && forall i :: 0 <= i < |cs| ==> cs[i].name in m && m[cs[i].name] == Restored(cs[i], rs, stamp)
  {
    var seen := AllSeen(map[], cs, stamp);
    AllRoutedIs(seen, rs, "");
    forall n ensures n in seen <==> n in Names(cs) { NamesSeen(map[], cs, stamp, n); }
    assert seen.Keys == set n | n in Names(cs);
    NamesAreDistinct(cs);
    DistinctCount(Names(cs));
    var m := AllRouted(seen, rs);
    forall i | 0 <= i < |cs| ensures cs[i].name in m && m[cs[i].name] == Restored(cs[i], rs, stamp) {
      ClientSeen(map[], cs, stamp, i);
      AllRoutedIs(seen, rs, cs[i].name);
    }
  }

  function SessionNames(list: seq<Session>): seq<string> {
    seq(|list|, i requires 0 <= i < |list| => list[i].commonName)
  }

  /** Distinct names make a set of as many. */
  lemma {:induction false} DistinctCount(names: seq<string>)
    requires forall i, j :: 0 <= i < j < |names| ==> names[i] != names[j]
    ensures |set n | n in names| == |names|
  {
    if names != [] {
      var last, front := names[|names| - 1], names[..|names| - 1];
      DistinctCount(front);
      assert names == front + [last];
      assert (set n | n in names) == (set n | n in front) + {last};
    } else {
      assert (set n | n in names) == {};
    }
  }

  /**
   A printed legacy file reads back as one session for each client, in some order, each with the
   virtual address of its last route.
   */
  lemma LegacyRoundTrip(f: Frame, cs: seq<Client>, rs: seq<Route>, stamp: Stamp, r: Read)
    requires FrameOk(f)
    requires NamesDistinct(cs) && (forall i :: 0 <= i < |cs| ==> ClientOk(cs[i]))
    requires forall i :: 0 <= i < |rs| ==> RouteOk(rs[i])
    requires Reads(Some(Print(LegacyLines(f, cs, rs))), stamp, r)
    ensures r.Sessions? && |r.list| == |cs|
    ensures forall i :: 0 <= i < |cs| ==> Restored(cs[i], rs, stamp) in r.list
    ensures forall s :: s in r.list ==> exists i :: 0 <= i < |cs| && s == Restored(cs[i], rs, stamp)
  {
    var m := AllRouted(AllSeen(map[], cs, stamp), rs);
    FileFed(f, cs, rs, stamp);
    ScanPrint(LegacyLines(f, cs, rs), MAX_LINE);
    MapIs(cs, rs, stamp);
    ListingIs(cs, rs, stamp, r.list);
  }

  /** Whatever lists the map lists the clients. */
  lemma ListingIs(cs: seq<Client>, rs: seq<Route>, stamp: Stamp, list: seq<Session>)
    requires NamesDistinct(cs)
    requires var m := AllRouted(AllSeen(map[], cs, stamp), rs); if m == map[] then list == [] else Lists(list, m)
    ensures |list| == |cs|
    ensures forall i :: 0 <= i < |cs| ==> Restored(cs[i], rs, stamp) in list
    ensures forall s :: s in list ==> exists i :: 0 <= i < |cs| && s == Restored(cs[i], rs, stamp)
  {
    var m := AllRouted(AllSeen(map[], cs, stamp), rs);
    MapIs(cs, rs, stamp);
    if m != map[] { ListedOnce(list, m); }
    forall i | 0 <= i < |cs| ensures Restored(cs[i], rs, stamp) in list {
      assert cs[i].name in m.Keys;
    }
    forall s | s in list ensures exists i :: 0 <= i < |cs| && s == Restored(cs[i], rs, stamp) {
      assert s.commonName in m.Keys;
      NamesAreDistinct(cs);
      var i :| 0 <= i < |Names(cs)| && Names(cs)[i] == s.commonName;
      NameAt(cs, i);
      assert s == Restored(cs[i], rs, stamp);
    }
  }

  /** A listing of a map holds every value of the map. */
  lemma ListedOnce(list: seq<Session>, m: map<string, Session>)
    requires Lists(list, m)
    ensures forall n :: n in m ==> m[n] in list
  {
    var listed := SessionNames(list);
    var names := set n | n in listed;
    DistinctCount(listed);
    assert names <= m.Keys;
    SubsetOfSameSize(names, m.Keys);
    forall n | n in m ensures m[n] in list {
      assert n in names;
      var i :| 0 <= i < |listed| && listed[i] == n;
      assert m[n] == list[i];
    }
  }
}
