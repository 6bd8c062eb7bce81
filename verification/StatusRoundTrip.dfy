/** Printed status files read back, and machine-readable rows overrule the legacy layout. */
module StatusRoundTrip {
  import opened Sequences
  import opened Text
  import opened Decimal
  import opened StatusFile

  // ---------------------------------------------------------------- machine-readable rows decide

  /** The sessions of the accepted CLIENT_LIST rows, in order. */
  function RowSessions(lines: seq<string>): seq<Session> {
    if lines == [] then [] else SessionOf(lines[0]) + RowSessions(lines[1..])
  }

  function SessionOf(line: string): seq<Session> {
    var trimmed := TrimSpace(line);
    if "CLIENT_LIST," <= trimmed && |Split(trimmed, ',')| >= 9 then [ClientRow(trimmed)] else []
  }

  lemma FeedSessions(p: Parser, line: string, stamp: Stamp)
    ensures Feed(p, TrimSpace(line), stamp).sessions == p.sessions + SessionOf(line)
    ensures "CLIENT_LIST," <= TrimSpace(line) || TrimSpace(line) == "" ==>
              Feed(p, TrimSpace(line), stamp) == p.(sessions := p.sessions + SessionOf(line))
  {
  }

  lemma {:induction false} SessionsAreRows(p: Parser, lines: seq<string>, stamp: Stamp)
    ensures FeedAll(p, lines, stamp).sessions == p.sessions + RowSessions(lines)
    decreases |lines|
  {
    if lines != [] {
      FeedSessions(p, lines[0], stamp);
      SessionsAreRows(Feed(p, TrimSpace(lines[0]), stamp), lines[1..], stamp);
      Regroup(p.sessions, SessionOf(lines[0]), RowSessions(lines[1..]));
    }
  }

  /** One accepted CLIENT_LIST row anywhere makes every other kind of line irrelevant. */
  lemma RowsOverruleLegacy(text: string, stamp: Stamp, r: Read)
    ensures var scanned := Scan(text, MAX_LINE);
            Reads(Some(text), stamp, r) && !scanned.tooLong && RowSessions(scanned.lines) != [] ==>
              r == Sessions(RowSessions(scanned.lines))
  {
    SessionsAreRows(START, Scan(text, MAX_LINE).lines, stamp);
  }

  // ---------------------------------------------------------------- fields

  /** A field that no separator or line end can break. */
  ghost predicate Field(s: string) {
    ',' !in s && '\n' !in s
  }

  /** Trimming leaves the end alone. */
  ghost predicate VisibleEnd(s: string) {
    s != "" ==> !IsSpace(s[|s| - 1])
  }

  lemma {:induction false} JoinWithout(parts: seq<string>, sep: char, c: char)
    requires c != sep && forall i :: 0 <= i < |parts| ==> c !in parts[i]
    ensures c !in Join(parts, sep)
  {
    if |parts| > 1 { JoinWithout(parts[1..], sep, c); }
  }

  lemma {:induction false} JoinEnds(parts: seq<string>, sep: char)
    requires |parts| >= 2
    ensures var s := Join(parts, sep);
            && sep in s && |s| > |parts[0]| && s[..|parts[0]|] == parts[0] && s[|parts[0]|] == sep
            && s[|s| - 1] == if parts[|parts| - 1] == "" then sep else parts[|parts| - 1][|parts[|parts| - 1]| - 1]
  {
    if |parts| > 2 { JoinEnds(parts[1..], sep); }
  }

  lemma SepNotSpace()
    ensures !IsSpace(',')
  {
  }

  /** The first comma of a text that begins with a comma-free word and a comma. */
  lemma FirstComma(s: string, word: string)
    requires Without(word, ',') && word + "," <= s
    ensures |word| < |s| && s[|word|] == ',' && s[..|word|] == word
    ensures forall i :: 0 <= i < |word| ==> s[i] != ','
  {
    assert s[..|word| + 1] == word + ",";
    forall i | 0 <= i < |word| ensures s[i] != ',' { assert s[i] == word[i]; }
  }

  /** A row begins with a word and a comma just if the word is its first field. */
  lemma FirstField(parts: seq<string>, word: string)
    requires |parts| >= 2 && Without(parts[0], ',') && Without(word, ',')
    ensures word + "," <= Join(parts, ',') <==> parts[0] == word
  {
    var s := Join(parts, ',');
    JoinEnds(parts, ',');
    assert parts[0] + "," <= s;
    FirstComma(s, parts[0]);
    if word + "," <= s {
      FirstComma(s, word);
      assert |word| == |parts[0]|;
    }
  }

  /** A row of fields whose ends are no white space is trimmed. */
  lemma RowTrimmed(parts: seq<string>)
    requires |parts| >= 2 && (parts[0] != "" ==> !IsSpace(parts[0][0])) && VisibleEnd(parts[|parts| - 1])
    ensures var s := Join(parts, ','); s != "" && Trimmed(s) && ',' in s
  {
    var s := Join(parts, ',');
    JoinEnds(parts, ',');
    SepNotSpace();
    assert s[0] == if parts[0] == "" then ',' else parts[0][0];
  }

  /** And splits back after trimming. */
  lemma RowReadsBack(parts: seq<string>)
    requires |parts| >= 2 && forall i :: 0 <= i < |parts| ==> Without(parts[i], ',')
    requires (parts[0] != "" ==> !IsSpace(parts[0][0])) && VisibleEnd(parts[|parts| - 1])
    ensures var s := Join(parts, ',');
            && TrimSpace(s) == s && s != "" && Split(s, ',') == parts && ',' in s
  {
    RowTrimmed(parts);
    TrimmedStays(Join(parts, ','));
    SplitJoin(parts, ',');
  }

  ghost predicate Int64(v: int) {
    -INT_LIMIT <= v < INT_LIMIT
  }

  lemma PrintIntIsField(v: int)
    ensures Field(PrintInt(v)) && PrintInt(v) != "" && !IsSpace(PrintInt(v)[0]) && VisibleEnd(PrintInt(v))
  {
    var n := if v < 0 then -v else v;
    NumeralReadsBack(n);
    assert forall c :: IsDigit(c) ==> c != ',' && c != '\n' && !IsSpace(c);
    assert forall i :: 0 <= i < |Numeral(n)| ==> IsDigit(Numeral(n)[i]);
    assert PrintInt(v)[|PrintInt(v)| - 1] == Numeral(n)[|Numeral(n)| - 1];
  }

  // ---------------------------------------------------------------- the machine-readable layout

  /**
   A client row's columns; `connectedAt` is None for a row whose ninth column is the text `unread`, and `rest`
   are the columns from the tenth on, as many as there are.
   */
  datatype Row = Row(
    commonName: string, realIP: string, virtualIP: string, ipv6: string, bytesIn: int, bytesOut: int, since: string,
    connectedAt: Option<int>, unread: string, rest: seq<string>)

  function RowFields(r: Row): seq<string> {
    ["CLIENT_LIST", r.commonName, r.realIP, r.virtualIP, r.ipv6, PrintInt(r.bytesIn), PrintInt(r.bytesOut), r.since,
     if r.connectedAt.Some? then PrintInt(r.connectedAt.value) else r.unread] + r.rest
  }

  /** The session a row shows; the peer is in the twelfth column and the cipher in the thirteenth, if there. */
  function Shown(r: Row): Session {
    Session(r.commonName, r.realIP, r.virtualIP, r.bytesIn, r.bytesOut, r.connectedAt,
            if |r.rest| >= 4 then r.rest[3] else "", if |r.rest| >= 3 then r.rest[2] else "")
  }

  ghost predicate PrintableRow(r: Row) {
    && Field(r.commonName) && Field(r.realIP) && Field(r.virtualIP) && Field(r.ipv6) && Field(r.since)
    && Int64(r.bytesIn) && Int64(r.bytesOut)
    && (if r.connectedAt.Some? then Int64(r.connectedAt.value) else Field(r.unread) && !ParseInt(r.unread).1)
    && (forall i :: 0 <= i < |r.rest| ==> Field(r.rest[i]))
    && (if r.rest != [] then VisibleEnd(r.rest[|r.rest| - 1]) else r.connectedAt.None? ==> VisibleEnd(r.unread))
    && |Join(RowFields(r), ',')| < MAX_LINE
  }

  lemma NumbersReadBack(r: Row)
    requires PrintableRow(r)
    ensures var fields := RowFields(r);
            && ParseInt(fields[5]) == (r.bytesIn, true) && ParseInt(fields[6]) == (r.bytesOut, true)
            && (if r.connectedAt.Some? then ParseInt(fields[8]) == (r.connectedAt.value, true)
                else !ParseInt(fields[8]).1)
  {
    ParsePrint(r.bytesIn);
    ParsePrint(r.bytesOut);
    if r.connectedAt.Some? { ParsePrint(r.connectedAt.value); }
  }

  lemma FieldsAreFields(r: Row)
    requires PrintableRow(r)
    ensures forall i :: 0 <= i < |RowFields(r)| ==> Field(RowFields(r)[i])
    ensures |RowFields(r)| >= 2 && VisibleEnd(RowFields(r)[|RowFields(r)| - 1])
  {
    var fields := RowFields(r);
    PrintIntIsField(r.bytesIn);
    PrintIntIsField(r.bytesOut);
    if r.connectedAt.Some? { PrintIntIsField(r.connectedAt.value); }
    forall i | 0 <= i < |fields| ensures Field(fields[i]) {
      if i >= 9 { assert fields[i] == r.rest[i - 9]; }
    }
    assert fields[|fields| - 1] == if r.rest == [] then fields[8] else r.rest[|r.rest| - 1];
  }

  /** A row that splits into these columns and begins with the word is read as its session. */
  lemma ColumnsAreRow(line: string, r: Row)
    requires PrintableRow(r) && Split(line, ',') == RowFields(r) && "CLIENT_LIST," <= line
    ensures IsClientRow(line) && ClientRow(line) == Shown(r)
  {
    var fields := RowFields(r);
    NumbersReadBack(r);
    assert |fields| == 9 + |r.rest|;
    assert |r.rest| >= 3 ==> fields[11] == r.rest[2];
    assert |r.rest| >= 4 ==> fields[12] == r.rest[3];
  }

  /** Every row of nine columns or more is read. */
  lemma SessionIsRead(r: Row)
    requires PrintableRow(r)
    ensures var line := Join(RowFields(r), ',');
            PlainLine(line, MAX_LINE) && SessionOf(line) == [Shown(r)]
  {
    var fields := RowFields(r);
    FieldsAreFields(r);
    RowJoins(fields);
    ColumnsAreRow(Join(fields, ','), r);
  }

  /** A row of fewer than nine columns is skipped. */
  lemma ShortRowSkipped(columns: seq<string>)
    requires 1 <= |columns| < 8 && forall i :: 0 <= i < |columns| ==> Field(columns[i])
    requires VisibleEnd(columns[|columns| - 1])
    ensures SessionOf(Join(["CLIENT_LIST"] + columns, ',')) == []
  {
    var fields := ["CLIENT_LIST"] + columns;
    ShortRowFields(columns);
    RowJoins(fields);
    NoSession(Join(fields, ','));
  }

  lemma ShortRowFields(columns: seq<string>)
    requires columns != [] && forall i :: 0 <= i < |columns| ==> Field(columns[i])
    ensures var fields := ["CLIENT_LIST"] + columns;
            && (forall i :: 0 <= i < |fields| ==> Field(fields[i])) && fields[0] == "CLIENT_LIST"
            && fields[|fields| - 1] == columns[|columns| - 1]
  {
  }

  lemma NoSession(line: string)
    requires TrimSpace(line) == line && |Split(line, ',')| < 9
    ensures SessionOf(line) == []
  {
  }

  /** What printing and splitting a client row's columns needs of them. */
  lemma RowJoins(fields: seq<string>)
    requires |fields| >= 2 && forall i :: 0 <= i < |fields| ==> Field(fields[i])
    requires fields[0] == "CLIENT_LIST" && VisibleEnd(fields[|fields| - 1])
    ensures var line := Join(fields, ',');
            && '\n' !in line && line != "" && line[|line| - 1] != '\r' && TrimSpace(line) == line
            && Split(line, ',') == fields && "CLIENT_LIST," <= line
  {
    assert forall i :: 0 <= i < |fields| ==> Without(fields[i], ',') && '\n' !in fields[i];
    RowReadsBack(fields);
    FirstField(fields, "CLIENT_LIST");
    JoinWithout(fields, ',', '\n');
    JoinEnds(fields, ',');
    assert IsSpace('\r');
  }

  function RowLines(rows: seq<Row>): seq<string> {
    if rows == [] then [] else [Join(RowFields(rows[0]), ',')] + RowLines(rows[1..])
  }

  function SessionsOf(rows: seq<Row>): seq<Session> {
    if rows == [] then [] else [Shown(rows[0])] + SessionsOf(rows[1..])
  }

  lemma {:induction false} RowLinesReadBack(rows: seq<Row>)
    requires forall i :: 0 <= i < |rows| ==> PrintableRow(rows[i])
    ensures RowSessions(RowLines(rows)) == SessionsOf(rows)
    ensures forall i :: 0 <= i < |RowLines(rows)| ==> PlainLine(RowLines(rows)[i], MAX_LINE)
  {
    if rows != [] {
      assert PrintableRow(rows[0]);
      SessionIsRead(rows[0]);
      RowLinesReadBack(rows[1..]);
    }
  }

  lemma {:induction false} RowSessionsConcat(front: seq<string>, back: seq<string>)
    ensures RowSessions(front + back) == RowSessions(front) + RowSessions(back)
  {
    if front == [] {
      assert [] + back == back;
    } else {
      assert (front + back)[0] == front[0] && (front + back)[1..] == front[1..] + back;
      RowSessionsConcat(front[1..], back);
      Regroup(SessionOf(front[0]), RowSessions(front[1..]), RowSessions(back));
    }
  }

  /** A line that is no client row, or one of fewer than nine columns. */
  ghost predicate OtherLine(line: string) {
    PlainLine(line, MAX_LINE) && (!("CLIENT_LIST," <= TrimSpace(line)) || |Split(TrimSpace(line), ',')| < 9)
  }

  /**
   Sessions printed in the machine-readable layout, with any other lines before and after,
   read back as they were, in order.
   */
  lemma RowsRoundTrip(before: seq<string>, rows: seq<Row>, after: seq<string>, stamp: Stamp, r: Read)
    requires rows != [] && forall i :: 0 <= i < |rows| ==> PrintableRow(rows[i])
    requires forall i :: 0 <= i < |before| ==> OtherLine(before[i])
    requires forall i :: 0 <= i < |after| ==> OtherLine(after[i])
    requires Reads(Some(Print(before + RowLines(rows) + after)), stamp, r)
    ensures r == Sessions(SessionsOf(rows))
  {
    SurroundedRows(before, rows, after);
    LinesRead(before + RowLines(rows) + after, stamp, r);
  }

  /** The client rows among these lines are the printed ones. */
  lemma SurroundedRows(before: seq<string>, rows: seq<Row>, after: seq<string>)
    requires rows != [] && forall i :: 0 <= i < |rows| ==> PrintableRow(rows[i])
    requires forall i :: 0 <= i < |before| ==> OtherLine(before[i])
    requires forall i :: 0 <= i < |after| ==> OtherLine(after[i])
    ensures var lines := before + RowLines(rows) + after;
            && (forall i :: 0 <= i < |lines| ==> PlainLine(lines[i], MAX_LINE))
            && RowSessions(lines) == SessionsOf(rows) && SessionsOf(rows) != []
  {
    RowLinesReadBack(rows);
    PlainBetween(before, RowLines(rows), after);
    RowSessionsBetween(before, RowLines(rows), after);
  }

  /** Printed lines with some client row among them are read as their client rows. */
  lemma LinesRead(lines: seq<string>, stamp: Stamp, r: Read)
    requires forall i :: 0 <= i < |lines| ==> PlainLine(lines[i], MAX_LINE)
    requires RowSessions(lines) != [] && Reads(Some(Print(lines)), stamp, r)
    ensures r == Sessions(RowSessions(lines))
  {
    ScanPrint(lines, MAX_LINE);
    RowsOverruleLegacy(Print(lines), stamp, r);
  }

  lemma PlainBetween(before: seq<string>, rows: seq<string>, after: seq<string>)
    requires forall i :: 0 <= i < |before| ==> OtherLine(before[i])
    requires forall i :: 0 <= i < |after| ==> OtherLine(after[i])
    requires forall i :: 0 <= i < |rows| ==> PlainLine(rows[i], MAX_LINE)
    ensures forall i :: 0 <= i < |before + rows + after| ==> PlainLine((before + rows + after)[i], MAX_LINE)
  {
    forall i | 0 <= i < |before + rows + after| ensures PlainLine((before + rows + after)[i], MAX_LINE) {
      if i < |before| {
        assert OtherLine(before[i]);
      } else if i >= |before| + |rows| {
        assert OtherLine(after[i - |before| - |rows|]);
      }
    }
  }

  lemma RowSessionsBetween(before: seq<string>, rows: seq<string>, after: seq<string>)
    requires forall i :: 0 <= i < |before| ==> OtherLine(before[i])
    requires forall i :: 0 <= i < |after| ==> OtherLine(after[i])
    ensures RowSessions(before + rows + after) == RowSessions(rows)
  {
    RowSessionsConcat(before + rows, after);
    RowSessionsConcat(before, rows);
    NoRows(before);
    NoRows(after);
  }

  lemma {:induction false} NoRows(lines: seq<string>)
    requires forall i :: 0 <= i < |lines| ==> OtherLine(lines[i])
    ensures RowSessions(lines) == []
  {
    if lines != [] {
      assert OtherLine(lines[0]);
      NoRows(lines[1..]);
    }
  }
}
