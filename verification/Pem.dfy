/** The two extractors of a PEM certificate: one finds the markers by position, one reads line by line. */
module Pem {
  import opened Sequences
  import opened Text

  const BEGIN_WORDS := "BEGIN CERTIFICATE"
  const END_WORDS := "END CERTIFICATE"
  const BEGIN := "-----BEGIN CERTIFICATE-----"
  const END := "-----END CERTIFICATE-----"

  /** The longest line a scanner with its default buffer delivers is shorter than this. */
  const SCANNER_LIMIT := 64 * 1024

  predicate Occurs(s: string, pat: string, i: int) {
    0 <= i <= |s| - |pat| && s[i..i + |pat|] == pat
  }

  ghost predicate Contains(s: string, pat: string) {
    exists i :: Occurs(s, pat, i)
  }

  /** The position of the first occurrence, or -1. */
  function Find(s: string, pat: string): (k: int)
    ensures k == -1 || Occurs(s, pat, k)
    ensures forall i :: Occurs(s, pat, i) ==> 0 <= k <= i
  {
    FindFrom(s, pat, 0)
  }

  function FindFrom(s: string, pat: string, from: nat): (k: int)
    ensures k == -1 || (Occurs(s, pat, k) && from <= k)
    ensures forall i :: from <= i && Occurs(s, pat, i) ==> 0 <= k <= i
    decreases |s| - from
  {
    if Occurs(s, pat, from) then from
    else if from >= |s| then -1
    else FindFrom(s, pat, from + 1)
  }

  // ---------------------------------------------------------------- the extractors

  datatype Extract = Found(text: string) | Panic

  /** By position; slicing with the ends in the wrong order is a run-time failure. */
  function ExtractByIndex(s: string): Extract {
    var i, j := Find(s, BEGIN), Find(s, END);
    if i < 0 || j < 0 then Found(s)
    else if i > j + |END| then Panic
    else Found(s[i..j + |END|] + "\n")
  }

  predicate Has(line: string, words: string) {
    Find(line, words) >= 0
  }

  /** By line: from the first line with the begin words to the first line with the end words. */
  function Block(lines: seq<string>, inBlock: bool): string
    decreases |lines|
  {
    if lines == [] then ""
    else
      var now := inBlock || Has(lines[0], BEGIN_WORDS);
      (if now then lines[0] + "\n" else "") + if Has(lines[0], END_WORDS) then "" else Block(lines[1..], now)
  }

  lemma BlockUnfolds(lines: seq<string>, i: nat, inBlock: bool)
    requires i < |lines|
    ensures var now := inBlock || Has(lines[i], BEGIN_WORDS);
            Block(lines[i..], inBlock) ==
            (if now then lines[i] + "\n" else "") + if Has(lines[i], END_WORDS) then "" else Block(lines[i + 1..], now)
  {
    var rest := lines[i..];
    assert rest[0] == lines[i] && rest[1..] == lines[i + 1..];
  }

  /** One line copied, or not, and what is still to come. */
  lemma CopiedOne(before: string, piece: string, rest: string, all: string)
    requires before + (piece + rest) == all
    ensures (before + piece) + rest == all && (rest == "" ==> before + piece == all)
  {
    Regroup(before, piece, rest);
  }

  function Copied(output: string, line: string, inBlock: bool): (s: string)
    ensures s == output + if inBlock then line + "\n" else ""
  {
    if inBlock then output + line + "\n" else output
  }

  /** The loop over the lines. */
  method CopyBlock(lines: seq<string>) returns (output: string)
    ensures output == Block(lines, false)
  {
    output := "";
    var inBlock := false;
    var i := 0;
    assert lines[0..] == lines;
    while i < |lines|
      invariant 0 <= i <= |lines|
      invariant output + Block(lines[i..], inBlock) == Block(lines, false)
    {
      var line := lines[i];
      var begins, ends := Has(line, BEGIN_WORDS), Has(line, END_WORDS);
      BlockUnfolds(lines, i, inBlock);
      ghost var piece := if inBlock || begins then line + "\n" else "";
      ghost var rest := if ends then "" else Block(lines[i + 1..], inBlock || begins);
      CopiedOne(output, piece, rest, Block(lines, false));
      if begins {
        inBlock := true;
      }
      output := Copied(output, line, inBlock);
      if ends {
        return;
      }
      i := i + 1;
    }
    assert lines[i..] == [];
    CopiedOne(output, "", "", Block(lines, false));
  }

  method ExtractByLine(s: string) returns (output: string)
    ensures output == Block(Scan(s, 65_536).lines, false)
  {
    output := CopyBlock(Scan(s, SCANNER_LIMIT).lines);
  }

  // ---------------------------------------------------------------- what they return

  /** The first occurrence is here. */
  ghost predicate FirstAt(s: string, pat: string, i: int) {
    Occurs(s, pat, i) && forall k :: Occurs(s, pat, k) ==> i <= k
  }

  /**
   By position: the text itself unless both markers occur; then everything from the first begin marker to the end
   of the first end marker, which fails if that end comes first.
   */
  lemma IndexIs(s: string)
    ensures !Contains(s, "-----BEGIN CERTIFICATE-----") || !Contains(s, "-----END CERTIFICATE-----") ==>
              ExtractByIndex(s) == Found(s)
    ensures forall i, j ::
              FirstAt(s, "-----BEGIN CERTIFICATE-----", i) && FirstAt(s, "-----END CERTIFICATE-----", j) ==>
              ExtractByIndex(s) == if i > j + 25 then Panic else Found(s[i..j + 25] + "\n")
  {
    forall i, j | FirstAt(s, BEGIN, i) && FirstAt(s, END, j) ensures i == Find(s, BEGIN) && j == Find(s, END) { }
  }

  /** The first line that contains the words. */
  ghost predicate FirstLine(lines: seq<string>, words: string, k: int) {
    0 <= k < |lines| && Contains(lines[k], words) && forall m :: 0 <= m < k ==> !Contains(lines[m], words)
  }

  ghost predicate NoLine(lines: seq<string>, words: string) {
    forall k :: 0 <= k < |lines| ==> !Contains(lines[k], words)
  }

  lemma LaterLine(lines: seq<string>, words: string, k: int)
    requires lines != [] && FirstLine(lines, words, k) && k > 0
    ensures FirstLine(lines[1..], words, k - 1)
  {
  }

  lemma NoneBefore(lines: seq<string>, words: string, k: nat, i: nat)
    requires i <= k && i <= |lines| && (FirstLine(lines, words, k) || NoLine(lines, words))
    ensures NoLine(lines[..i], words)
  {
  }

  lemma FirstFrom(lines: seq<string>, words: string, j: nat, i: nat)
    requires i <= j && FirstLine(lines, words, j)
    ensures FirstLine(lines[i..], words, j - i)
  {
    assert lines[i..][j - i] == lines[j];
    forall m | 0 <= m < j - i ensures !Contains(lines[i..][m], words) { assert lines[i..][m] == lines[i + m]; }
  }

  lemma NoneFrom(lines: seq<string>, words: string, i: nat)
    requires i <= |lines| && NoLine(lines, words)
    ensures NoLine(lines[i..], words)
  {
    forall m | 0 <= m < |lines[i..]| ensures !Contains(lines[i..][m], words) { assert lines[i..][m] == lines[i + m]; }
  }

  /** Inside the block everything up to the first line with the end words is copied. */
  lemma {:induction false} InsideTo(lines: seq<string>, j: nat)
    requires FirstLine(lines, END_WORDS, j)
    ensures Block(lines, true) == Print(lines[..j + 1])
  {
    HasIsContains(lines[0], END_WORDS);
    assert lines[..j + 1][1..] == lines[1..][..j];
    if j > 0 {
      LaterLine(lines, END_WORDS, j);
      InsideTo(lines[1..], j - 1);
    }
  }

  lemma {:induction false} InsideOpen(lines: seq<string>)
    requires NoLine(lines, END_WORDS)
    ensures Block(lines, true) == Print(lines)
  {
    if lines != [] {
      HasIsContains(lines[0], END_WORDS);
      InsideOpen(lines[1..]);
    }
  }

  /** Lines without either words copy nothing. */
  lemma {:induction false} BeforeBlock(lines: seq<string>, i: nat)
    requires i <= |lines| && NoLine(lines[..i], BEGIN_WORDS) && NoLine(lines[..i], END_WORDS)
    ensures Block(lines, false) == Block(lines[i..], false)
  {
    if i > 0 {
      assert lines[0] == lines[..i][0];
      HasIsContains(lines[0], BEGIN_WORDS);
      HasIsContains(lines[0], END_WORDS);
      assert lines[1..][..i - 1] == lines[..i][1..] && lines[1..][i - 1..] == lines[i..];
      BeforeBlock(lines[1..], i - 1);
    }
  }

  /** A block from its first line on. */
  lemma BlockOpens(lines: seq<string>)
    requires lines != [] && Contains(lines[0], BEGIN_WORDS)
    ensures Block(lines, false) == Block(lines, true)
  {
    HasIsContains(lines[0], BEGIN_WORDS);
  }

  lemma BlockCloses(lines: seq<string>)
    requires lines != [] && Contains(lines[0], END_WORDS) && !Contains(lines[0], BEGIN_WORDS)
    ensures Block(lines, false) == ""
  {
    HasIsContains(lines[0], BEGIN_WORDS);
    HasIsContains(lines[0], END_WORDS);
  }

  /** By line: from the first line with the begin words to the first with the end words. */
  lemma BlockIsStretch(lines: seq<string>, i: nat, j: nat)
    requires FirstLine(lines, "BEGIN CERTIFICATE", i) && FirstLine(lines, "END CERTIFICATE", j) && i <= j
    ensures Block(lines, false) == Print(lines[i..j + 1])
  {
    NoneBefore(lines, BEGIN_WORDS, i, i);
    NoneBefore(lines, END_WORDS, j, i);
    BeforeBlock(lines, i);
    BlockOpens(lines[i..]);
    FirstFrom(lines, END_WORDS, j, i);
    InsideTo(lines[i..], j - i);
    SliceOfRest(lines, i, j + 1);
  }

  lemma SliceOfRest(lines: seq<string>, i: nat, j: nat)
    requires i <= j <= |lines|
    ensures lines[i..][..j - i] == lines[i..j]
  {
  }

  /** Without a line with the end words, to the end of the text. */
  lemma BlockIsRest(lines: seq<string>, i: nat)
    requires FirstLine(lines, "BEGIN CERTIFICATE", i) && NoLine(lines, "END CERTIFICATE")
    ensures Block(lines, false) == Print(lines[i..])
  {
    NoneBefore(lines, BEGIN_WORDS, i, i);
    NoneBefore(lines, END_WORDS, i, i);
    BeforeBlock(lines, i);
    BlockOpens(lines[i..]);
    NoneFrom(lines, END_WORDS, i);
    InsideOpen(lines[i..]);
  }

  /** Nothing, if no line has the begin words before a line with the end words is over. */
  lemma BlockIsEmpty(lines: seq<string>)
    requires || NoLine(lines, "BEGIN CERTIFICATE")
             || exists j :: FirstLine(lines, "END CERTIFICATE", j) && NoLine(lines[..j + 1], "BEGIN CERTIFICATE")
    ensures Block(lines, false) == ""
  {
    if j: nat :| FirstLine(lines, END_WORDS, j) && NoLine(lines[..j + 1], BEGIN_WORDS) {
      NoneBefore(lines, END_WORDS, j, j);
      assert lines[..j + 1][..j] == lines[..j] && lines[..j + 1][j] == lines[j];
      NoneBefore(lines[..j + 1], BEGIN_WORDS, j, j);
      BeforeBlock(lines, j);
      BlockCloses(lines[j..]);
    } else {
      NeverBegun(lines);
    }
  }

  lemma {:induction false} NeverBegun(lines: seq<string>)
    requires NoLine(lines, BEGIN_WORDS)
    ensures Block(lines, false) == ""
  {
    if lines != [] {
      HasIsContains(lines[0], BEGIN_WORDS);
      NeverBegun(lines[1..]);
    }
  }

  // ---------------------------------------------------------------- markers and lines

  /** A line that neither extractor takes for a marker. */
  ghost predicate Unmarked(line: string) {
    PlainLine(line, SCANNER_LIMIT) && !Contains(line, BEGIN_WORDS) && !Contains(line, END_WORDS)
  }

  ghost predicate AllUnmarked(lines: seq<string>) {
    forall i :: 0 <= i < |lines| ==> Unmarked(lines[i])
  }

  ghost predicate Free(lines: seq<string>, pat: string) {
    forall i :: 0 <= i < |lines| ==> '\n' !in lines[i] && !Contains(lines[i], pat)
  }

  /** A longer pattern is no easier to find. */
  lemma ContainsPart(line: string, whole: string, part: string, k: nat)
    requires Occurs(whole, part, k) && Contains(line, whole)
    ensures Contains(line, part)
  {
    var i :| Occurs(line, whole, i);
    forall j | 0 <= j < |part| ensures line[i + k + j] == part[j] {
      OccursAt(line, whole, i, k + j);
      OccursAt(whole, part, k, j);
    }
    assert Occurs(line, part, i + k);
  }

  lemma WordsInMarkers()
    ensures Occurs(BEGIN, BEGIN_WORDS, 5) && Occurs(END, END_WORDS, 5)
  {
    assert forall k :: 0 <= k < 17 ==> BEGIN[5 + k] == BEGIN_WORDS[k];
    assert forall k :: 0 <= k < 15 ==> END[5 + k] == END_WORDS[k];
    assert BEGIN[5..22] == BEGIN_WORDS && END[5..20] == END_WORDS;
  }

  lemma UnmarkedFree(lines: seq<string>)
    requires AllUnmarked(lines)
    ensures Free(lines, BEGIN) && Free(lines, END)
  {
    WordsInMarkers();
    forall i | 0 <= i < |lines| ensures '\n' !in lines[i] && !Contains(lines[i], BEGIN) && !Contains(lines[i], END) {
      assert Unmarked(lines[i]);
      if Contains(lines[i], BEGIN) { ContainsPart(lines[i], BEGIN, BEGIN_WORDS, 5); }
      if Contains(lines[i], END) { ContainsPart(lines[i], END, END_WORDS, 5); }
    }
  }

  lemma OccursAt(s: string, pat: string, i: int, k: nat)
    requires Occurs(s, pat, i) && k < |pat|
    ensures s[i + k] == pat[k]
  {
    assert s[i..i + |pat|][k] == s[i + k];
  }

  lemma OccursInLine(line: string, tail: string, pat: string, k: nat)
    requires '\n' !in pat && pat != "" && k <= |line| && Occurs(line + ['\n'] + tail, pat, k)
    ensures Occurs(line, pat, k)
  {
    var s := line + ['\n'] + tail;
    if k + |pat| > |line| {
      OccursAt(s, pat, k, |line| - k);
    } else {
      assert s[k..k + |pat|] == line[k..k + |pat|];
    }
  }

  /** A pattern without a line feed occurs in printed lines only within a line. */
  lemma {:induction false} NotWithinLines(lines: seq<string>, rest: string, pat: string, k: int)
    requires pat != "" && '\n' !in pat && Free(lines, pat) && 0 <= k < |Print(lines)|
    ensures !Occurs(Print(lines) + rest, pat, k)
  {
    var line := lines[0];
    var tail := Print(lines[1..]) + rest;
    var s := Print(lines) + rest;
    assert s == line + ['\n'] + tail;
    if Occurs(s, pat, k) {
      if k <= |line| {
        OccursInLine(line, tail, pat, k);
      } else {
        assert s[k..k + |pat|] == tail[k - |line| - 1..k - |line| - 1 + |pat|];
        NotWithinLines(lines[1..], rest, pat, k - |line| - 1);
      }
    }
  }

  /** A pattern that no line contains is first found right after the lines. */
  lemma FoundAfter(lines: seq<string>, pat: string, rest: string)
    requires pat != "" && '\n' !in pat && Free(lines, pat)
    ensures Find(Print(lines) + (pat + rest), pat) == |Print(lines)|
  {
    var s := Print(lines) + (pat + rest);
    var n := |Print(lines)|;
    assert s[n..n + |pat|] == pat;
    assert Occurs(s, pat, n);
    var k := Find(s, pat);
    if k < n { NotWithinLines(lines, pat + rest, pat, k); }
  }

  lemma {:induction false} PrintConcat(front: seq<string>, back: seq<string>)
    ensures Print(front + back) == Print(front) + Print(back)
  {
    if front == [] {
      assert [] + back == back;
    } else {
      assert (front + back)[1..] == front[1..] + back;
      PrintConcat(front[1..], back);
    }
  }

  /** The marker lines themselves. */
  lemma MarkerLines()
    ensures PlainLine(BEGIN, SCANNER_LIMIT) && PlainLine(END, SCANNER_LIMIT)
    ensures !Contains(BEGIN, END_WORDS) && !Contains(BEGIN, END) && !Contains(END, BEGIN_WORDS) && !Contains(END, BEGIN)
  {
    WordsInMarkers();
    assert 'D' !in BEGIN && END_WORDS[2] == 'D';
    assert 'B' !in END && BEGIN_WORDS[0] == 'B';
    forall i | Occurs(BEGIN, END_WORDS, i) ensures false { OccursAt(BEGIN, END_WORDS, i, 2); }
    forall i | Occurs(END, BEGIN_WORDS, i) ensures false { OccursAt(END, BEGIN_WORDS, i, 0); }
    if Contains(BEGIN, END) { ContainsPart(BEGIN, END, END_WORDS, 5); }
    if Contains(END, BEGIN) { ContainsPart(END, BEGIN, BEGIN_WORDS, 5); }
  }

  // ---------------------------------------------------------------- agreement

  /** The certificate proper: its marker lines and what is between them. */
  function Certificate(body: seq<string>): string {
    Print([BEGIN] + body + [END])
  }

  /** What may follow the end marker: nothing, or further lines of any kind. */
  predicate Follows(tail: string) {
    tail == "" || tail[0] == '\n'
  }

  /** A text with a certificate between marker-free lines and anything. */
  function Wrapped(preamble: seq<string>, body: seq<string>, tail: string): string {
    Print(preamble + [BEGIN] + body) + (END + tail)
  }

  lemma FreeConcat(front: seq<string>, back: seq<string>, pat: string)
    requires Free(front, pat) && Free(back, pat)
    ensures Free(front + back, pat)
  {
  }

  lemma PrintAround(front: seq<string>, line: string, back: seq<string>)
    ensures Print(front + [line] + back) == Print(front) + (line + ("\n" + Print(back)))
  {
    PrintConcat(front, [line] + back);
    assert front + [line] + back == front + ([line] + back);
    assert ([line] + back)[1..] == back;
    Regroup(line, "\n", Print(back));
  }

  lemma PrintEnclosed(b: string, body: seq<string>, e: string)
    ensures Print([b] + body + [e]) == ((b + ("\n" + Print(body))) + e) + "\n"
  {
    PrintAround([b] + body, e, []);
    PrintAround([], b, body);
    assert [] + [b] + body == [b] + body;
    assert ([b] + body) + [e] + [] == [b] + body + [e];
    Regroup(b + ("\n" + Print(body)), e, "\n");
  }

  lemma SliceIs(a: string, b: string, c: string, d: string)
    ensures ((a + b) + (c + d))[|a|..|a| + |b| + |c|] == b + c
  {
  }

  /** Where the markers are first found, and what is between them. */
  lemma Positions(preamble: seq<string>, b: string, body: seq<string>, e: string, tail: string)
    requires b != "" && e != "" && '\n' !in b && '\n' !in e
    requires Free(preamble, b) && Free(preamble + [b] + body, e)
    ensures var s := Print(preamble + [b] + body) + (e + tail);
            var i, j := Find(s, b), Find(s, e);
            0 <= i <= j && s[i..j + |e|] == (b + ("\n" + Print(body))) + e
  {
    var a, m := Print(preamble), b + ("\n" + Print(body));
    var lines := preamble + [b] + body;
    var s := Print(lines) + (e + tail);
    PrintAround(preamble, b, body);
    FoundAfter(lines, e, tail);
    Regroup(a, m, e + tail);
    Regroup(b, "\n" + Print(body), e + tail);
    FoundAfter(preamble, b, ("\n" + Print(body)) + (e + tail));
    SliceIs(a, m, e, tail);
  }

  lemma ByIndex(preamble: seq<string>, body: seq<string>, tail: string)
    requires AllUnmarked(preamble) && AllUnmarked(body)
    ensures ExtractByIndex(Wrapped(preamble, body, tail)) == Found(Certificate(body))
  {
    UnmarkedFree(preamble);
    UnmarkedFree(body);
    MarkerLines();
    FreeConcat(preamble, [BEGIN], END);
    FreeConcat(preamble + [BEGIN], body, END);
    Positions(preamble, BEGIN, body, END, tail);
    PrintEnclosed(BEGIN, body, END);
  }

  // ---------------------------------------------------------------- by line

  lemma HasIsContains(line: string, words: string)
    ensures Has(line, words) <==> Contains(line, words)
  {
  }

  /** The scanner delivers a text's plain leading lines first. */
  lemma {:induction false} ScanFront(front: seq<string>, back: seq<string>, limit: nat)
    requires forall i :: 0 <= i < |front| ==> PlainLine(front[i], limit)
    ensures ScanRaw(front + back, limit).lines == front + ScanRaw(back, limit).lines
  {
    if front == [] {
      assert [] + back == back;
    } else {
      assert PlainLine(front[0], limit);
      assert (front + back)[1..] == front[1..] + back;
      ScanFront(front[1..], back, limit);
    }
  }

  /** The first line of what follows, when nothing or a line feed comes after it. */
  lemma SplitLast(last: string, tail: string)
    requires '\n' !in last && Follows(tail)
    ensures exists rest :: Split(last + tail, '\n') == [last] + rest
  {
    if tail == "" {
      assert last + tail == last;
      SplitPlain(last, '\n');
      assert [last] == [last] + [];
    } else {
      SplitHead(last, tail[1..], '\n');
      assert last + tail == last + ['\n'] + tail[1..];
    }
  }

  lemma RawFront(lines: seq<string>, last: string, tail: string)
    requires forall i :: 0 <= i < |lines| ==> '\n' !in lines[i]
    requires '\n' !in last && last != "" && Follows(tail)
    ensures exists back :: RawLines(Print(lines) + (last + tail)) == (lines + [last]) + back
  {
    SplitLines(lines, last + tail);
    SplitLast(last, tail);
    var rest :| Split(last + tail, '\n') == [last] + rest;
    Regroup(lines, [last], rest);
    RawParts(Print(lines) + (last + tail), lines + [last], rest);
  }

  lemma RawParts(text: string, front: seq<string>, rest: seq<string>)
    requires Split(text, '\n') == front + rest && front != [] && front[|front| - 1] != ""
    ensures exists back :: RawLines(text) == front + back
  {
    if rest != [] && rest[|rest| - 1] == "" {
      assert (front + rest)[..|front + rest| - 1] == front + rest[..|rest| - 1];
    } else {
      assert RawLines(text) == front + rest;
    }
  }

  lemma {:induction false} BlockSkips(lines: seq<string>, rest: seq<string>)
    requires AllUnmarked(lines)
    ensures Block(lines + rest, false) == Block(rest, false)
  {
    if lines == [] {
      assert [] + rest == rest;
    } else {
      assert Unmarked(lines[0]);
      HasIsContains(lines[0], BEGIN_WORDS);
      HasIsContains(lines[0], END_WORDS);
      assert (lines + rest)[1..] == lines[1..] + rest;
      BlockSkips(lines[1..], rest);
    }
  }

  lemma {:induction false} BlockCopies(lines: seq<string>, rest: seq<string>)
    requires AllUnmarked(lines)
    ensures Block(lines + rest, true) == Print(lines) + Block(rest, true)
  {
    if lines == [] {
      assert [] + rest == rest;
    } else {
      assert Unmarked(lines[0]);
      HasIsContains(lines[0], END_WORDS);
      assert (lines + rest)[1..] == lines[1..] + rest;
      BlockCopies(lines[1..], rest);
    }
  }

  lemma MarkersSeen()
    ensures Has(BEGIN, BEGIN_WORDS) && !Has(BEGIN, END_WORDS) && Has(END, END_WORDS) && !Has(END, BEGIN_WORDS)
  {
    WordsInMarkers();
    MarkerLines();
    HasIsContains(BEGIN, BEGIN_WORDS);
    HasIsContains(BEGIN, END_WORDS);
    HasIsContains(END, END_WORDS);
    HasIsContains(END, BEGIN_WORDS);
  }

  lemma BlockBegins(line: string, rest: seq<string>)
    requires Has(line, BEGIN_WORDS) && !Has(line, END_WORDS)
    ensures Block([line] + rest, false) == (line + "\n") + Block(rest, true)
  {
    assert ([line] + rest)[1..] == rest;
  }

  lemma BlockEnds(line: string, rest: seq<string>, inBlock: bool)
    requires Has(line, END_WORDS) && !Has(line, BEGIN_WORDS)
    ensures Block([line] + rest, inBlock) == if inBlock then line + "\n" else ""
  {
  }

  lemma BlockIsCertificate(preamble: seq<string>, body: seq<string>, rest: seq<string>)
    requires AllUnmarked(preamble) && AllUnmarked(body)
    ensures Block(preamble + ([BEGIN] + (body + ([END] + rest))), false) == Certificate(body)
  {
    MarkersSeen();
    BlockSkips(preamble, [BEGIN] + (body + ([END] + rest)));
    BlockBegins(BEGIN, body + ([END] + rest));
    BlockCopies(body, [END] + rest);
    BlockEnds(END, rest, true);
    PrintEnclosed(BEGIN, body, END);
    RegroupLines(BEGIN, Print(body), END);
  }

  lemma RegroupLines(a: string, b: string, c: string)
    ensures (a + "\n") + (b + (c + "\n")) == ((a + ("\n" + b)) + c) + "\n"
  {
  }

  /** What the scanner delivers when a text begins with plain lines up to a last one. */
  lemma ScannedFront(lines: seq<string>, last: string, tail: string)
    requires forall i :: 0 <= i < |lines| ==> PlainLine(lines[i], SCANNER_LIMIT)
    requires PlainLine(last, SCANNER_LIMIT) && last != "" && Follows(tail)
    ensures exists rest :: Scan(Print(lines) + (last + tail), SCANNER_LIMIT).lines == (lines + [last]) + rest
  {
    RawFront(lines, last, tail);
    var back :| RawLines(Print(lines) + (last + tail)) == (lines + [last]) + back;
    ScanFront(lines + [last], back, SCANNER_LIMIT);
  }

  lemma PlainAround(front: seq<string>, line: string, back: seq<string>)
    requires AllUnmarked(front) && AllUnmarked(back) && PlainLine(line, SCANNER_LIMIT)
    ensures forall i :: 0 <= i < |front + [line] + back| ==> PlainLine((front + [line] + back)[i], SCANNER_LIMIT)
  {
    forall i | 0 <= i < |front + [line] + back| ensures PlainLine((front + [line] + back)[i], SCANNER_LIMIT) {
      if i < |front| {
        assert Unmarked(front[i]);
      } else if i > |front| {
        assert Unmarked(back[i - |front| - 1]);
      }
    }
  }

  lemma ByLine(preamble: seq<string>, body: seq<string>, tail: string)
    requires AllUnmarked(preamble) && AllUnmarked(body) && Follows(tail)
    ensures Block(Scan(Wrapped(preamble, body, tail), SCANNER_LIMIT).lines, false) == Certificate(body)
  {
    var lines := preamble + [BEGIN] + body;
    MarkerLines();
    PlainAround(preamble, BEGIN, body);
    ScannedFront(lines, END, tail);
    var rest :| Scan(Wrapped(preamble, body, tail), SCANNER_LIMIT).lines == (lines + [END]) + rest;
    RegroupSeqs(preamble, BEGIN, body, END, rest);
    BlockIsCertificate(preamble, body, rest);
  }

  lemma RegroupSeqs(a: seq<string>, b: string, c: seq<string>, d: string, e: seq<string>)
    ensures ((a + [b] + c) + [d]) + e == a + ([b] + (c + ([d] + e)))
  {
  }

  /**
   On every text with line feeds only, marker-free lines before and inside the certificate and anything
   after it, the two extractors return the same certificate.
   */
  lemma ExtractorsAgree(preamble: seq<string>, body: seq<string>, tail: string)
    requires AllUnmarked(preamble) && AllUnmarked(body) && Follows(tail)
    ensures var s := Wrapped(preamble, body, tail);
            ExtractByIndex(s) == Found(Block(Scan(s, SCANNER_LIMIT).lines, false)) == Found(Certificate(body))
  {
    ByIndex(preamble, body, tail);
    ByLine(preamble, body, tail);
  }

  /** Extracting from what was extracted changes nothing, by either extractor. */
  lemma ExtractionIsIdempotent(body: seq<string>)
    requires AllUnmarked(body)
    ensures ExtractByIndex(Certificate(body)) == Found(Certificate(body))
    ensures Block(Scan(Certificate(body), SCANNER_LIMIT).lines, false) == Certificate(body)
  {
    PrintConcat([BEGIN] + body, [END]);
    assert [] + [BEGIN] + body == [BEGIN] + body;
    assert Print([END]) == END + "\n";
    assert Certificate(body) == Wrapped([], body, "\n");
    ExtractorsAgree([], body, "\n");
  }

  // ---------------------------------------------------------------- where they differ

  lemma IndexOrder(before: seq<string>, e: string, between: seq<string>, b: string, rest: string)
    requires b != "" && e != "" && '\n' !in b && '\n' !in e
    requires Free(before, e) && Free(before + [e] + between, b)
    ensures var s := Print(before + [e] + between) + (b + rest);
            && 0 <= Find(s, e) && Find(s, e) + |e| < Find(s, b)
            && s == Print(before) + (e + (("\n" + Print(between)) + (b + rest)))
  {
    FoundAfter(before + [e] + between, b, rest);
    PrintAround(before, e, between);
    Regroup(Print(before), e + ("\n" + Print(between)), b + rest);
    Regroup(e, "\n" + Print(between), b + rest);
    FoundAfter(before, e, ("\n" + Print(between)) + (b + rest));
  }

  /** Nothing is copied when the end marker's line comes first. */
  lemma NothingCopied(before: seq<string>, tail: string)
    requires AllUnmarked(before) && Follows(tail)
    ensures Block(Scan(Print(before) + (END + tail), SCANNER_LIMIT).lines, false) == ""
  {
    MarkerLines();
    MarkersSeen();
    assert forall i :: 0 <= i < |before| ==> Unmarked(before[i]);
    ScannedFront(before, END, tail);
    var after :| Scan(Print(before) + (END + tail), SCANNER_LIMIT).lines == (before + [END]) + after;
    Regroup(before, [END], after);
    BlockSkips(before, [END] + after);
    BlockEnds(END, after, false);
  }

  /** Slicing by position fails exactly when both markers occur and some end marker stops before every begin marker. */
  lemma PanicsIff(s: string)
    ensures ExtractByIndex(s).Panic? <==>
            && Contains(s, "-----BEGIN CERTIFICATE-----")
            && exists j :: Occurs(s, "-----END CERTIFICATE-----", j)
                           && forall i :: Occurs(s, "-----BEGIN CERTIFICATE-----", i) ==> j + 25 < i
  {
    var i, j := Find(s, BEGIN), Find(s, END);
    if ExtractByIndex(s).Panic? { assert Occurs(s, END, j) && Occurs(s, BEGIN, i); }
  }

  /** With an end marker's line before the first begin marker, one fails at run time and the other finds nothing. */
  lemma EndLineFirst(before: seq<string>, between: seq<string>, rest: string)
    requires AllUnmarked(before) && AllUnmarked(between)
    ensures var s := Print(before + [END] + between) + (BEGIN + rest);
            ExtractByIndex(s) == Panic && Block(Scan(s, SCANNER_LIMIT).lines, false) == ""
  {
    UnmarkedFree(before);
    UnmarkedFree(between);
    MarkerLines();
    FreeConcat(before, [END], BEGIN);
    FreeConcat(before + [END], between, BEGIN);
    IndexOrder(before, END, between, BEGIN, rest);
    NothingCopied(before, ("\n" + Print(between)) + (BEGIN + rest));
  }
}
