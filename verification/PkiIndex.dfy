/** The reader of the certificate authority's index file. */
module PkiIndex {
  import opened Text

  datatype Status = Valid | Revoked | Expired

  /** One certificate; the zero time is -1 so that a missing stamp is never a real one. */
  datatype Cert = Cert(commonName: string, serial: string, status: Status, notAfter: int, revokedAt: int)

  const NO_TIME := -1

  /** The certificates read before the end or an unreadable line, and whether the reader failed. */
  datatype Index = Index(certs: seq<Cert>, failed: bool)

  /** How the index writes a time; the layout itself is not modelled, only that reading undoes writing. */
  datatype Clock = Clock(read: string -> Option<int>, write: int -> string)

  function PkiTime(s: string, clock: Clock): int {
    var t := TrimSpace(s);
    if t == "" then NO_TIME else match clock.read(t) case None => NO_TIME case Some(at) => at
  }

  function StatusOf(flag: string): Option<Status> {
    if flag == "V" then Some(Valid)
    else if flag == "R" then Some(Revoked)
    else if flag == "E" then Some(Expired)
    else None
  }

  /** The first CN attribute of a distinguished name, or "" if it has none. */
  function FirstCN(parts: seq<string>): string {
    if parts == [] then ""
    else if "CN=" <= parts[0] then parts[0][3..]
    else FirstCN(parts[1..])
  }

  /** The certificate of one line, unless the line is skipped. */
  function Row(line: string, clock: Clock): Option<Cert> {
    var fields := Split(line, '\t');
    if |fields| < 6 then None
    else
      match StatusOf(fields[0])
      case None => None
      case Some(status) =>
        var name := FirstCN(Split(fields[5], '/'));
        if name == "" then None
        else Some(Cert(name, TrimSpace(fields[3]), status, PkiTime(fields[1], clock),
                       if status.Revoked? then PkiTime(fields[2], clock) else NO_TIME))
  }

  function Rows(lines: seq<string>, clock: Clock): seq<Cert> {
    if lines == [] then []
    else (match Row(lines[0], clock) case None => [] case Some(c) => [c]) + Rows(lines[1..], clock)
  }

  lemma {:induction false} RowsConcat(front: seq<string>, back: seq<string>, clock: Clock)
    ensures Rows(front + back, clock) == Rows(front, clock) + Rows(back, clock)
  {
    if front == [] {
      assert [] + back == back;
    } else {
      assert (front + back)[1..] == front[1..] + back;
      RowsConcat(front[1..], back, clock);
    }
  }

  lemma {:induction false} FirstCNSkips(parts: seq<string>, k: nat)
    requires k <= |parts| && forall i :: 0 <= i < k ==> !("CN=" <= parts[i])
    ensures FirstCN(parts) == FirstCN(parts[k..])
  {
    if k > 0 {
      FirstCNSkips(parts[1..], k - 1);
      assert parts[1..][k - 1..] == parts[k..];
    }
  }

  /** What reading the index answers; a missing file and an overlong line are failures. */
  function IndexOf(file: Option<string>, clock: Clock): Index {
    match file
    case None => Index([], true)
    case Some(text) => var scanned := Scan(text, MAX_LINE); Index(Rows(scanned.lines, clock), scanned.tooLong)
  }

  method ReadIndex(file: Option<string>, clock: Clock) returns (index: Index)
    ensures index == IndexOf(file, clock)
    ensures index.failed <==>
            file.None? || exists i :: 0 <= i < |RawLines(file.value)| && |RawLines(file.value)[i]| >= 1_048_576
    ensures file.None? ==> index.certs == []
  {
    if file.None? {
      return Index([], true);
    }
    var scanned := Scan(file.value, MAX_LINE);
    ScanIs(file.value, MAX_LINE);
    var certs := [];
    var i := 0;
    while i < |scanned.lines|
      invariant 0 <= i <= |scanned.lines|
      invariant certs == Rows(scanned.lines[..i], clock)
    {
      ghost var before := scanned.lines[..i];
      var line := scanned.lines[i];
      assert scanned.lines[..i + 1] == before + [line];
      RowsConcat(before, [line], clock);
      i := i + 1;
      if line == "" {
        continue;
      }
      var fields := Split(line, '\t');
      if |fields| < 6 {
        continue;
      }
      var serial := TrimSpace(fields[3]);
      var known := StatusOf(fields[0]);
      if known.None? {
        continue;
      }
      var status := known.value;
      var notAfter, revokedAt := PkiTime(fields[1], clock), NO_TIME;
      if status == Revoked {
        revokedAt := PkiTime(fields[2], clock);
      }
      var name := NameIn(Split(fields[5], '/'));
      if name == "" {
        continue;
      }
      certs := certs + [Cert(name, serial, status, notAfter, revokedAt)];
    }
    assert scanned.lines[..i] == scanned.lines;
    return Index(certs, scanned.tooLong);
  }

  method NameIn(parts: seq<string>) returns (name: string)
    ensures name == FirstCN(parts)
  {
    name := "";
    for i := 0 to |parts|
      invariant forall j :: 0 <= j < i ==> !("CN=" <= parts[j])
      invariant name == ""
    {
      if "CN=" <= parts[i] {
        FirstCNSkips(parts, i);
        return parts[i][3..];
      }
    }
    FirstCNSkips(parts, |parts|);
  }

  // ---------------------------------------------------------------- round trip

  function Flag(s: Status): string {
    match s case Valid => "V" case Revoked => "R" case Expired => "E"
  }

  /**
   How a row is laid out around its certificate: the file column, attributes before and after the name, white space
   around times and serial number, what stands for no time, the third column of a row that is not revoked, and
   columns after the sixth.
   */
  datatype Layout = Layout(
    file: string, before: string, after: string, lead: string, trail: string, noTime: string, unused: string,
    more: seq<string>)

  function Padded(s: string, l: Layout): string {
    l.lead + s + l.trail
  }

  function WriteTime(at: int, l: Layout, clock: Clock): string {
    if at == NO_TIME then l.noTime else Padded(clock.write(at), l)
  }

  function NameColumn(c: Cert, l: Layout): string {
    l.before + "/CN=" + c.commonName + l.after
  }

  function RowColumns(c: Cert, l: Layout, clock: Clock): seq<string> {
    [Flag(c.status), WriteTime(c.notAfter, l, clock),
     if c.status.Revoked? then WriteTime(c.revokedAt, l, clock) else l.unused, Padded(c.serial, l), l.file,
     NameColumn(c, l)] + l.more
  }

  /** A row as the certificate authority writes it. */
  function PrintRow(c: Cert, l: Layout, clock: Clock): string {
    Join(RowColumns(c, l, clock), '\t')
  }

  /** Text that stays inside its column and line. */
  ghost predicate Cell(s: string) {
    '\t' !in s && '\n' !in s
  }

  ghost predicate ClockOk(at: int, clock: Clock) {
    at == NO_TIME ||
    var s := clock.write(at); s != "" && Trimmed(s) && Cell(s) && clock.read(s) == Some(at)
  }

  /** Attributes before the name: none of them is itself a name. */
  ghost predicate NoName(before: string) {
    Cell(before) && forall i :: 0 <= i < |Split(before, '/')| ==> !("CN=" <= Split(before, '/')[i])
  }

  /** What follows the name: nothing, or further attributes. */
  ghost predicate Attributes(after: string) {
    Cell(after) && (after != "" ==> after[0] == '/' && after[|after| - 1] != '\r')
  }

  /** White space that stays inside its column. */
  ghost predicate Padding(s: string) {
    Cell(s) && forall i :: 0 <= i < |s| ==> IsSpace(s[i])
  }

  /** Blank, or something the clock does not read. */
  ghost predicate NotATime(s: string, clock: Clock) {
    Cell(s) && (TrimSpace(s) == "" || clock.read(TrimSpace(s)).None?)
  }

  ghost predicate LayoutOk(l: Layout, clock: Clock) {
    && Cell(l.file) && NoName(l.before) && Attributes(l.after) && Padding(l.lead) && Padding(l.trail)
    && NotATime(l.noTime, clock) && Cell(l.unused)
    && (forall i :: 0 <= i < |l.more| ==> Cell(l.more[i]))
    && (l.more != [] ==> VisiblyEnds(l.more[|l.more| - 1]))
  }

  ghost predicate VisiblyEnds(s: string) {
    s != "" && s[|s| - 1] != '\r'
  }

  ghost predicate Printable(c: Cert, l: Layout, clock: Clock) {
    && Cell(c.commonName) && '/' !in c.commonName && VisiblyEnds(c.commonName)
    && Cell(c.serial) && Trimmed(c.serial) && LayoutOk(l, clock)
    && ClockOk(c.notAfter, clock) && ClockOk(c.revokedAt, clock) && (!c.status.Revoked? ==> c.revokedAt == NO_TIME)
    && |PrintRow(c, l, clock)| < MAX_LINE
  }

  lemma {:induction false} SplitAppend(front: string, back: string, sep: char)
    ensures Split(front + [sep] + back, sep) == Split(front, sep) + Split(back, sep)
  {
    if sep in front {
      var i := FirstIndex(front, sep);
      var head, tail := front[..i], front[i + 1..];
      SplitAppend(tail, back, sep);
      SplitHead(head, tail, sep);
      SplitHead(head, tail + [sep] + back, sep);
      assert front == head + [sep] + tail;
      assert front + [sep] + back == head + [sep] + (tail + [sep] + back);
    } else {
      SplitHead(front, back, sep);
      SplitPlain(front, sep);
    }
  }

  function FirstIndex(s: string, c: char): (i: nat)
    requires c in s
    ensures i < |s| && s[i] == c && c !in s[..i]
  {
    if s[0] == c then 0 else FirstIndex(s[1..], c) + 1
  }

  lemma FirstAttribute(attribute: string, after: string)
    requires '/' !in attribute && Attributes(after)
    ensures Split(attribute + after, '/')[0] == attribute
  {
    if after == "" {
      assert attribute + after == attribute;
      SplitPlain(attribute, '/');
    } else {
      SplitHead(attribute, after[1..], '/');
      assert attribute + after == attribute + ['/'] + after[1..];
    }
  }

  lemma FirstCNIs(parts: seq<string>, name: string)
    requires parts != [] && parts[0] == "CN=" + name
    ensures FirstCN(parts) == name
  {
    assert parts[0][3..] == name;
  }

  /** The name is found between the attributes before and after it. */
  lemma NameFound(name: string, before: string, after: string)
    requires '/' !in name && NoName(before) && Attributes(after)
    ensures FirstCN(Split(before + "/CN=" + name + after, '/')) == name
  {
    var attribute := "CN=" + name;
    var tail := attribute + after;
    var parts, rest := Split(before, '/'), Split(tail, '/');
    FirstAttribute(attribute, after);
    SplitAppend(before, tail, '/');
    assert before + "/CN=" + name + after == before + ['/'] + tail;
    FirstCNSkips(parts + rest, |parts|);
    assert (parts + rest)[|parts|..] == rest;
    FirstCNIs(rest, name);
  }

  lemma TimeReadsBack(at: int, l: Layout, clock: Clock)
    requires ClockOk(at, clock) && LayoutOk(l, clock)
    ensures PkiTime(WriteTime(at, l, clock), clock) == at && Cell(WriteTime(at, l, clock))
  {
    if at != NO_TIME { PaddingTaken(l.lead, clock.write(at), l.trail); }
  }

  lemma FlagReadsBack(s: Status)
    ensures StatusOf(Flag(s)) == Some(s) && Cell(Flag(s))
  {
  }

  lemma ColumnsAreCells(c: Cert, l: Layout, clock: Clock)
    requires Printable(c, l, clock)
    ensures forall i :: 0 <= i < |RowColumns(c, l, clock)| ==> Cell(RowColumns(c, l, clock)[i])
  {
    var columns := RowColumns(c, l, clock);
    FlagReadsBack(c.status);
    TimeReadsBack(c.notAfter, l, clock);
    TimeReadsBack(c.revokedAt, l, clock);
    CellsJoin(c, l.before, l.after);
    forall i | 0 <= i < |columns| ensures Cell(columns[i]) {
      if i >= 6 { assert columns[i] == l.more[i - 6]; }
    }
  }

  /** A line that splits into a certificate's columns is read as the certificate. */
  lemma ColumnsAreRead(line: string, c: Cert, l: Layout, clock: Clock)
    requires Printable(c, l, clock) && Split(line, '\t') == RowColumns(c, l, clock)
    ensures Row(line, clock) == Some(c)
  {
    var columns := RowColumns(c, l, clock);
    assert |columns| == 6 + |l.more|;
    FlagReadsBack(c.status);
    TimeReadsBack(c.notAfter, l, clock);
    TimeReadsBack(c.revokedAt, l, clock);
    PaddingTaken(l.lead, c.serial, l.trail);
    NameFound(c.commonName, l.before, l.after);
  }

  lemma RowIsRead(c: Cert, l: Layout, clock: Clock)
    requires Printable(c, l, clock)
    ensures Row(PrintRow(c, l, clock), clock) == Some(c)
  {
    var columns := RowColumns(c, l, clock);
    ColumnsAreCells(c, l, clock);
    forall i | 0 <= i < |columns| ensures Without(columns[i], '\t') { assert Cell(columns[i]); }
    SplitJoin(columns, '\t');
    ColumnsAreRead(PrintRow(c, l, clock), c, l, clock);
  }

  lemma CellsJoin(c: Cert, before: string, after: string)
    requires Cell(before) && Cell(after) && Cell(c.commonName)
    ensures Cell(before + "/CN=" + c.commonName + after)
  {
    assert Cell("/CN=");
  }

  /** A line of an index file: a certificate's row, or text the reader skips. */
  datatype Line = Entry(cert: Cert, layout: Layout) | Other(text: string)

  /** No attribute of the distinguished name is a name, or the first that is one is empty. */
  ghost predicate Nameless(dn: string) {
    exists k :: 0 <= k <= |Split(dn, '/')| && NamelessTo(Split(dn, '/'), k)
  }

  ghost predicate NamelessTo(parts: seq<string>, k: int)
    requires 0 <= k <= |parts|
  {
    (forall i :: 0 <= i < k ==> !("CN=" <= parts[i])) && (k == |parts| || parts[k] == "CN=")
  }

  /** Too few columns, an unknown flag, or no name. */
  ghost predicate Junk(line: string) {
    var fields := Split(line, '\t');
    || |fields| < 6
    || fields[0] !in {"V", "R", "E"}
    || Nameless(fields[5])
  }

  lemma JunkIsSkipped(line: string, clock: Clock)
    requires Junk(line)
    ensures Row(line, clock) == None
  {
    var fields := Split(line, '\t');
    if |fields| >= 6 && Nameless(fields[5]) {
      var parts := Split(fields[5], '/');
      var k :| 0 <= k <= |parts| && NamelessTo(parts, k);
      FirstCNSkips(parts, k);
      if k < |parts| { assert parts[k..][0][3..] == ""; }
    }
  }

  function LineText(line: Line, clock: Clock): string {
    match line
    case Entry(c, layout) => PrintRow(c, layout, clock)
    case Other(text) => text
  }

  function Texts(lines: seq<Line>, clock: Clock): seq<string> {
    if lines == [] then [] else [LineText(lines[0], clock)] + Texts(lines[1..], clock)
  }

  function Certs(lines: seq<Line>): seq<Cert> {
    if lines == [] then [] else (if lines[0].Entry? then [lines[0].cert] else []) + Certs(lines[1..])
  }

  ghost predicate LineOk(line: Line, clock: Clock) {
    match line
    case Entry(c, layout) => Printable(c, layout, clock)
    case Other(text) => Junk(text) && PlainLine(text, MAX_LINE)
  }

  lemma {:induction false} JoinCells(parts: seq<string>, c: char)
    requires c != '\t' && forall i :: 0 <= i < |parts| ==> c !in parts[i]
    ensures c !in Join(parts, '\t')
  {
    if |parts| > 1 { JoinCells(parts[1..], c); }
  }

  lemma {:induction false} JoinLast(parts: seq<string>)
    requires parts != [] && parts[|parts| - 1] != ""
    ensures var s, last := Join(parts, '\t'), parts[|parts| - 1]; s != "" && s[|s| - 1] == last[|last| - 1]
  {
    if |parts| > 1 { JoinLast(parts[1..]); }
  }

  lemma RowIsPlain(c: Cert, l: Layout, clock: Clock)
    requires Printable(c, l, clock)
    ensures PlainLine(PrintRow(c, l, clock), MAX_LINE)
  {
    var columns, dn := RowColumns(c, l, clock), NameColumn(c, l);
    ColumnsAreCells(c, l, clock);
    assert forall i :: 0 <= i < |columns| ==> Cell(columns[i]) && '\n' !in columns[i];
    JoinCells(columns, '\n');
    assert dn[|dn| - 1] == if l.after == "" then c.commonName[|c.commonName| - 1] else l.after[|l.after| - 1];
    assert columns[|columns| - 1] == if l.more == [] then dn else l.more[|l.more| - 1];
    JoinLast(columns);
  }

  lemma {:induction false} TextsReadBack(lines: seq<Line>, clock: Clock)
    requires forall i :: 0 <= i < |lines| ==> LineOk(lines[i], clock)
    ensures Rows(Texts(lines, clock), clock) == Certs(lines)
    ensures forall i :: 0 <= i < |Texts(lines, clock)| ==> PlainLine(Texts(lines, clock)[i], MAX_LINE)
  {
    if lines != [] {
      TextsReadBack(lines[1..], clock);
      assert LineOk(lines[0], clock);
      match lines[0] {
        case Entry(c, layout) =>
          RowIsRead(c, layout, clock);
          RowIsPlain(c, layout, clock);
        case Other(text) => JunkIsSkipped(text, clock);
      }
    }
  }

  /** Certificates printed with any skippable lines between them read back in order, without error. */
  lemma IndexRoundTrip(lines: seq<Line>, clock: Clock)
    requires forall i :: 0 <= i < |lines| ==> LineOk(lines[i], clock)
    ensures IndexOf(Some(Print(Texts(lines, clock))), clock) == Index(Certs(lines), false)
  {
    TextsReadBack(lines, clock);
    ScanPrint(Texts(lines, clock), MAX_LINE);
  }
}
