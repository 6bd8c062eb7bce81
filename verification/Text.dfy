/** The string operations the parsers are made of. */
module Text {
  import opened Sequences

  datatype Option<T> = None | Some(value: T)

  /** White space as the trimming function sees it. */
  predicate IsSpace(c: char) {
    || c in {' ', '\t', '\n', '\U{0B}', '\U{0C}', '\r', '\U{85}', '\U{A0}', '\U{1680}'}
    || '\U{2000}' <= c <= '\U{200A}'
    || c in {'\U{2028}', '\U{2029}', '\U{202F}', '\U{205F}', '\U{3000}'}
  }

  function TrimLeft(s: string): string {
    if s != "" && IsSpace(s[0]) then TrimLeft(s[1..]) else s
  }

  function TrimRight(s: string): string {
    if s != "" && IsSpace(s[|s| - 1]) then TrimRight(s[..|s| - 1]) else s
  }

  function TrimSpace(s: string): string {
    TrimRight(TrimLeft(s))
  }

  /** No white space at either end. */
  predicate Trimmed(s: string) {
    s == "" || (!IsSpace(s[0]) && !IsSpace(s[|s| - 1]))
  }

  lemma TrimmedStays(s: string)
    requires Trimmed(s)
    ensures TrimSpace(s) == s
  {
  }

  /** What trimming takes away: the white space of the Unicode standard's White_Space property. */
  const SPACES := " \t\n\r\U{0B}\U{0C}\U{85}\U{A0}\U{1680}\U{2000}\U{2001}\U{2002}\U{2003}\U{2004}\U{2005}\U{2006}"
                  + "\U{2007}\U{2008}\U{2009}\U{200A}\U{2028}\U{2029}\U{202F}\U{205F}\U{3000}"

  lemma {:induction false} TrimLeftTakes(front: string, rest: string)
    requires (forall i :: 0 <= i < |front| ==> IsSpace(front[i])) && (rest != "" ==> !IsSpace(rest[0]))
    ensures TrimLeft(front + rest) == rest
  {
    if front == "" {
      assert front + rest == rest;
    } else {
      assert (front + rest)[1..] == front[1..] + rest;
      TrimLeftTakes(front[1..], rest);
    }
  }

  lemma {:induction false} TrimRightTakes(rest: string, back: string)
    requires (forall i :: 0 <= i < |back| ==> IsSpace(back[i])) && (rest != "" ==> !IsSpace(rest[|rest| - 1]))
    ensures TrimRight(rest + back) == rest
  {
    if back == "" {
      assert rest + back == rest;
    } else {
      assert (rest + back)[..|rest + back| - 1] == rest + back[..|back| - 1];
      TrimRightTakes(rest, back[..|back| - 1]);
    }
  }

  /** White space around a trimmed text is taken away. */
  lemma PaddingTaken(front: string, text: string, back: string)
    requires Trimmed(text) && forall i :: 0 <= i < |front| ==> IsSpace(front[i])
    requires forall i :: 0 <= i < |back| ==> IsSpace(back[i])
    ensures TrimSpace(front + text + back) == text
  {
    if text == "" {
      TrimLeftTakes(front + back, "");
      assert front + text + back == (front + back) + "";
    } else {
      TrimLeftTakes(front, text + back);
      TrimRightTakes(text, back);
      assert front + text + back == front + (text + back);
    }
  }

  /** Exactly the white space around a text whose ends are visible is taken away, and nothing within it. */
  lemma TrimSpaceTakes(front: string, text: string, back: string)
    requires forall i :: 0 <= i < |front| ==> front[i] in SPACES
    requires forall i :: 0 <= i < |back| ==> back[i] in SPACES
    requires text != "" && '!' <= text[0] <= '~' && '!' <= text[|text| - 1] <= '~'
    ensures TrimSpace(front + text + back) == text
  {
    forall c | c in SPACES ensures IsSpace(c) { SpaceListed(c); }
    PaddingTaken(front, text, back);
  }

  lemma SpaceListed(c: char)
    requires c in SPACES
    ensures IsSpace(c)
  {
  }

  // ---------------------------------------------------------------- splitting

  function Split(s: string, sep: char): (parts: seq<string>)
    ensures parts != []
  {
    if s == "" then [""]
    else
      var rest := Split(s[1..], sep);
      if s[0] == sep then [""] + rest else [[s[0]] + rest[0]] + rest[1..]
  }

  function Join(parts: seq<string>, sep: char): string {
    if parts == [] then "" else if |parts| == 1 then parts[0] else parts[0] + [sep] + Join(parts[1..], sep)
  }

  ghost predicate Without(s: string, sep: char) {
    sep !in s
  }

  /** Splitting takes apart exactly what joining put together. */
  lemma {:induction false} SplitJoin(parts: seq<string>, sep: char)
    requires parts != [] && forall i :: 0 <= i < |parts| ==> Without(parts[i], sep)
    ensures Split(Join(parts, sep), sep) == parts
    decreases |parts|, |parts[0]|
  {
    var s := Join(parts, sep);
    if |parts| == 1 {
      SplitPlain(s, sep);
    } else {
      var rest := parts[1..];
      SplitJoin(rest, sep);
      SplitHead(parts[0], Join(rest, sep), sep);
      assert s == parts[0] + [sep] + Join(rest, sep);
      assert parts == [parts[0]] + rest;
    }
  }

  lemma {:induction false} SplitPlain(s: string, sep: char)
    requires Without(s, sep)
    ensures Split(s, sep) == [s]
  {
    if s != "" {
      SplitPlain(s[1..], sep);
      assert s == [s[0]] + s[1..];
    }
  }

  lemma {:induction false} SplitHead(head: string, tail: string, sep: char)
    requires Without(head, sep)
    ensures Split(head + [sep] + tail, sep) == [head] + Split(tail, sep)
  {
    var s := head + [sep] + tail;
    if head == "" {
      assert s[1..] == tail;
    } else {
      SplitHead(head[1..], tail, sep);
      assert s[1..] == head[1..] + [sep] + tail;
      assert head == [head[0]] + head[1..];
    }
  }

  // ---------------------------------------------------------------- lines

  /** What a line scanner delivers, and whether it gave up on a line longer than its buffer. */
  datatype Scanned = Scanned(lines: seq<string>, tooLong: bool)

  function DropCR(line: string): string {
    if line != "" && line[|line| - 1] == '\r' then line[..|line| - 1] else line
  }

  /** The line-feed-terminated pieces of a text; an unterminated last piece counts unless it is empty. */
  function RawLines(text: string): seq<string> {
    var parts := Split(text, '\n');
    if parts[|parts| - 1] == "" then parts[..|parts| - 1] else parts
  }

  function ScanRaw(raw: seq<string>, limit: nat): Scanned {
    if raw == [] then Scanned([], false)
    else if |raw[0]| >= limit then Scanned([], true)
    else
      var rest := ScanRaw(raw[1..], limit);
      Scanned([DropCR(raw[0])] + rest.lines, rest.tooLong)
  }

  /** The buffer the readers of the status file and of the index give their scanner. */
  const MAX_LINE := 1024 * 1024

  /** The scanner over a text, with a token limit of `limit` bytes. */
  function Scan(text: string, limit: nat): Scanned {
    ScanRaw(RawLines(text), limit)
  }

  function Print(lines: seq<string>): string {
    if lines == [] then "" else lines[0] + "\n" + Print(lines[1..])
  }

  /** A line that survives printing and scanning. */
  ghost predicate PlainLine(line: string, limit: nat) {
    '\n' !in line && (line != "" ==> line[|line| - 1] != '\r') && |line| < limit
  }

  lemma {:induction false} SplitPrint(lines: seq<string>)
    requires forall i :: 0 <= i < |lines| ==> '\n' !in lines[i]
    ensures Split(Print(lines), '\n') == lines + [""]
  {
    if lines != [] {
      SplitPrint(lines[1..]);
      SplitHead(lines[0], Print(lines[1..]), '\n');
      assert Print(lines) == lines[0] + ['\n'] + Print(lines[1..]);
      assert lines == [lines[0]] + lines[1..];
    }
  }

  lemma {:induction false} ScanPlain(raw: seq<string>, limit: nat)
    requires forall i :: 0 <= i < |raw| ==> PlainLine(raw[i], limit)
    ensures ScanRaw(raw, limit) == Scanned(raw, false)
  {
    if raw != [] {
      assert PlainLine(raw[0], limit);
      ScanPlain(raw[1..], limit);
    }
  }

  /** Printed plain lines scan back. */
  lemma ScanPrint(lines: seq<string>, limit: nat)
    requires forall i :: 0 <= i < |lines| ==> PlainLine(lines[i], limit)
    ensures Scan(Print(lines), limit) == Scanned(lines, false)
  {
    assert forall i :: 0 <= i < |lines| ==> PlainLine(lines[i], limit) && '\n' !in lines[i];
    SplitPrint(lines);
    assert (lines + [""])[..|lines|] == lines;
    ScanPlain(lines, limit);
  }

  // ---------------------------------------------------------------- what the scanner delivers

  lemma {:induction false} ScanRawIs(raw: seq<string>, limit: nat)
    ensures var scanned := ScanRaw(raw, limit);
            && (scanned.tooLong <==> exists i :: 0 <= i < |raw| && |raw[i]| >= limit)
            && |scanned.lines| <= |raw|
            && (forall i :: 0 <= i < |scanned.lines| ==> |raw[i]| < limit && scanned.lines[i] == DropCR(raw[i]))
            && (if scanned.tooLong then |scanned.lines| < |raw| && |raw[|scanned.lines|]| >= limit
                else |scanned.lines| == |raw|)
  {
    if raw != [] && |raw[0]| < limit {
      var rest := ScanRaw(raw[1..], limit);
      ScanRawIs(raw[1..], limit);
      forall i | 0 <= i < |rest.lines| + 1
        ensures |raw[i]| < limit && ScanRaw(raw, limit).lines[i] == DropCR(raw[i])
      {
        if i > 0 { assert raw[1..][i - 1] == raw[i]; }
      }
      if i :| 0 <= i < |raw| && |raw[i]| >= limit { assert raw[1..][i - 1] == raw[i]; }
      if rest.tooLong { assert raw[1..][|rest.lines|] == raw[|rest.lines| + 1]; }
    }
  }

  /** The lines before the first overlong one, each without one carriage return at its end. */
  lemma ScanIs(text: string, limit: nat)
    ensures var raw, scanned := RawLines(text), Scan(text, limit);
            && (scanned.tooLong <==> exists i :: 0 <= i < |raw| && |raw[i]| >= limit)
            && |scanned.lines| <= |raw|
            && (forall i :: 0 <= i < |scanned.lines| ==> |raw[i]| < limit)
            && (forall i :: 0 <= i < |scanned.lines| ==>
                  || (scanned.lines[i] == raw[i] && (raw[i] != "" ==> raw[i][|raw[i]| - 1] != '\r'))
                  || scanned.lines[i] + "\r" == raw[i])
            && (if scanned.tooLong then |scanned.lines| < |raw| && |raw[|scanned.lines|]| >= limit
                else |scanned.lines| == |raw|)
  {
    var raw, scanned := RawLines(text), Scan(text, limit);
    ScanRawIs(raw, limit);
    forall i | 0 <= i < |scanned.lines|
      ensures || (scanned.lines[i] == raw[i] && (raw[i] != "" ==> raw[i][|raw[i]| - 1] != '\r'))
              || scanned.lines[i] + "\r" == raw[i]
    {
      assert scanned.lines[i] == DropCR(raw[i]);
    }
  }

  /** Split text that begins with printed lines. */
  lemma {:induction false} SplitLines(lines: seq<string>, rest: string)
    requires forall i :: 0 <= i < |lines| ==> '\n' !in lines[i]
    ensures Split(Print(lines) + rest, '\n') == lines + Split(rest, '\n')
  {
    if lines == [] {
      assert Print(lines) + rest == rest;
    } else {
      SplitLines(lines[1..], rest);
      SplitHead(lines[0], Print(lines[1..]) + rest, '\n');
      Regroup(lines[0] + ['\n'], Print(lines[1..]), rest);
      Regroup([lines[0]], lines[1..], Split(rest, '\n'));
      assert lines == [lines[0]] + lines[1..];
    }
  }

  /** The pieces of a text between line feeds: of terminated lines these lines, and what comes after the last. */
  lemma RawLinesOf(lines: seq<string>, last: string)
    requires (forall i :: 0 <= i < |lines| ==> '\n' !in lines[i]) && '\n' !in last
    ensures RawLines(Print(lines) + last) == lines + if last == "" then [] else [last]
  {
    SplitLines(lines, last);
    SplitPlain(last, '\n');
    assert (lines + [last])[..|lines|] == lines;
  }
}
