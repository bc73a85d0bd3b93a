/** The SubRip text both serialisers build (lib/json-2-srt-deegram.ts
    lines 56-59 and lib/json-2-srt-openai.ts lines 35-38): for each cue a
    block of its 1-based index, the `start --> end` timing line and the
    text, each block closed by an empty line, the whole document trimmed at
    the end (line 78 and line 41). The partner is a parser of such a
    document, which recovers the cues exactly. */
module Srt {
  import opened Wrappers
  import opened Text

  /** One subtitle: the two formatted timestamps and the cleaned text. */
  datatype Cue = Cue(start: string, end: string, text: string)

  function TimingLine(c: Cue): string {
    c.start + " --> " + c.end
  }

  /** The three template strings appended for the cue numbered `index`. */
  function Block(index: nat, c: Cue): string {
    NatToString(index) + "\n" + TimingLine(c) + "\n" + c.text + "\n\n"
  }

  /** The blocks of `cues`, numbered from `first`. */
  function Blocks(cues: seq<Cue>, first: nat): string
    decreases |cues|
  {
    if cues == [] then "" else Block(first, cues[0]) + Blocks(cues[1..], first + 1)
  }

  /** The value returned by both serialisers: the blocks numbered from 1,
      trimmed. */
  function Document(cues: seq<Cue>): string {
    Trim(Blocks(cues, 1))
  }

  /** Appending one more block is what each loop iteration does. */
  lemma {:induction false} BlocksSnoc(cues: seq<Cue>, c: Cue, first: nat)
    ensures Blocks(cues + [c], first) == Blocks(cues, first) + Block(first + |cues|, c)
    decreases |cues|
  {
    if cues == [] {
      assert [c][1..] == [];
    } else {
      assert (cues + [c])[1..] == cues[1..] + [c];
      BlocksSnoc(cues[1..], c, first + 1);
    }
  }

  /** The three template strings one iteration appends make one block. */
  lemma AppendBlock(srt: string, index: nat, c: Cue)
    ensures srt + (NatToString(index) + "\n") + (c.start + " --> " + c.end + "\n") + (c.text + "\n\n")
      == srt + Block(index, c)
  {
  }

  // ---------------------------------------------------------------------
  // The partner: a parser

  /** A cue the serialisers can write unambiguously: timestamps without
      spaces or line feeds whose end timestamp ends in a visible character,
      and a trimmed single-line text. Both formatters and both text
      cleanings produce such cues. */
  predicate WellFormedCue(c: Cue) {
    && ' ' !in c.start && '\n' !in c.start
    && ' ' !in c.end && '\n' !in c.end
    && c.end != [] && !IsJsWhitespace(c.end[|c.end| - 1])
    && '\n' !in c.text && IsTrimmed(c.text)
  }

  predicate WellFormed(cues: seq<Cue>) {
    forall i :: 0 <= i < |cues| ==> WellFormedCue(cues[i])
  }

  /** Reads `start --> end`. */
  function ParseTiming(line: string): Option<(string, string)> {
    var parts := Split(line, ' ');
    if |parts| == 3 && parts[1] == "-->" then Some((parts[0], parts[2])) else None
  }

  /** Reads the lines of a document whose first cue is numbered `k`: an
      index line, a timing line and a text line, with an empty line before
      the next cue; the text line of the last cue is missing when its text
      is empty, because the final trim removes it. */
  function ParseLines(lines: seq<string>, k: nat): Option<seq<Cue>>
    decreases |lines|
  {
    if |lines| < 2 || ParseNat(lines[0]) != Some(k) then None
    else match ParseTiming(lines[1])
      case None => None
      case Some(timing) =>
        var cue := Cue(timing.0, timing.1, if |lines| == 2 then "" else lines[2]);
        if |lines| <= 3 then Some([cue])
        else if lines[3] != "" then None
        else match ParseLines(lines[4..], k + 1)
          case None => None
          case Some(rest) => Some([cue] + rest)
  }

  function ParseSrt(doc: string): Option<seq<Cue>> {
    if doc == [] then Some([]) else ParseLines(Split(doc, '\n'), 1)
  }

  // ---------------------------------------------------------------------
  // The document as lines

  function CueLines(c: Cue, k: nat): seq<string> {
    [NatToString(k), TimingLine(c), c.text]
  }

  /** The lines of the untrimmed blocks, without the final empty line. */
  function BlockLines(cues: seq<Cue>, k: nat): seq<string>
    requires |cues| >= 1
    decreases |cues|
  {
    if |cues| == 1 then CueLines(cues[0], k)
    else CueLines(cues[0], k) + [""] + BlockLines(cues[1..], k + 1)
  }

  /** The lines of the trimmed document. */
  function DocLines(cues: seq<Cue>, k: nat): seq<string>
    requires |cues| >= 1
    decreases |cues|
  {
    if |cues| == 1 then
      if cues[0].text == [] then [NatToString(k), TimingLine(cues[0])] else CueLines(cues[0], k)
    else CueLines(cues[0], k) + [""] + DocLines(cues[1..], k + 1)
  }

  /** A block is its three lines joined, then an empty line. */
  lemma BlockAsLines(idx: string, t: string, text: string)
    ensures idx + "\n" + t + "\n" + text + "\n\n" == Join([idx, t, text], '\n') + "\n\n"
  {
    JoinThree(idx, t, text, '\n');
  }

  /** Joining around an empty line puts two separators together. */
  lemma JoinAroundBlank(xs: seq<string>, ys: seq<string>, c: char)
    requires |xs| >= 1 && |ys| >= 1
    ensures Join(xs + [""] + ys, c) == Join(xs, c) + [c] + [c] + Join(ys, c)
  {
    assert Join([""], c) == "";
    JoinAppend(xs, [""], c);
    assert Join(xs + [""], c) == Join(xs, c) + [c];
    JoinAppend(xs + [""], ys, c);
  }

  lemma ConcatBlocks(a: string, b: string, jh: string, jr: string, j: string)
    requires a == jh + "\n\n" && b == jr + "\n\n" && j == jh + ['\n'] + ['\n'] + jr
    ensures a + b == j + "\n\n"
  {
  }

  lemma {:induction false} BlocksAsLines(cues: seq<Cue>, k: nat)
    requires |cues| >= 1
    ensures Blocks(cues, k) == Join(BlockLines(cues, k), '\n') + "\n\n"
    decreases |cues|
  {
    var c := cues[0];
    var head := CueLines(c, k);
    BlockAsLines(NatToString(k), TimingLine(c), c.text);
    JoinThree(NatToString(k), TimingLine(c), c.text, '\n');
    if |cues| == 1 {
      assert Blocks(cues[1..], k + 1) == "";
    } else {
      var rest := BlockLines(cues[1..], k + 1);
      BlocksAsLines(cues[1..], k + 1);
      JoinAroundBlank(head, rest, '\n');
      ConcatBlocks(Block(k, c), Blocks(cues[1..], k + 1), Join(head, '\n'), Join(rest, '\n'),
                   Join(head + [""] + rest, '\n'));
    }
  }

  /** The block lines are the document lines, plus one empty line when the
      last text is empty. */
  lemma {:induction false} BlockLinesOfDoc(cues: seq<Cue>, k: nat)
    requires |cues| >= 1
    ensures cues[|cues| - 1].text == [] ==> BlockLines(cues, k) == DocLines(cues, k) + [""]
    ensures cues[|cues| - 1].text != [] ==> BlockLines(cues, k) == DocLines(cues, k)
    decreases |cues|
  {
    if |cues| > 1 {
      BlockLinesOfDoc(cues[1..], k + 1);
    }
  }

  lemma JoinFirst(parts: seq<string>, c: char)
    requires |parts| >= 1 && parts[0] != []
    ensures Join(parts, c) != [] && Join(parts, c)[0] == parts[0][0]
  {
  }

  lemma {:induction false} JoinLast(parts: seq<string>, c: char)
    requires |parts| >= 1 && parts[|parts| - 1] != []
    ensures Join(parts, c) != []
    ensures Join(parts, c)[|Join(parts, c)| - 1] == parts[|parts| - 1][|parts[|parts| - 1]| - 1]
    decreases |parts|
  {
    if |parts| > 1 {
      JoinLast(parts[1..], c);
    }
  }

  /** The last document line ends in a visible character. */
  lemma {:induction false} DocLinesLast(cues: seq<Cue>, k: nat)
    requires |cues| >= 1 && WellFormedCue(cues[|cues| - 1])
    ensures var lines := DocLines(cues, k);
      lines[|lines| - 1] != [] && !IsJsWhitespace(lines[|lines| - 1][|lines[|lines| - 1]| - 1])
    decreases |cues|
  {
    var lines := DocLines(cues, k);
    if |cues| == 1 {
      var c := cues[0];
      if c.text == [] {
        var t := TimingLine(c);
        assert lines == [NatToString(k), t];
        assert t[|t| - 1] == c.end[|c.end| - 1];
      } else {
        assert lines == [NatToString(k), TimingLine(c), c.text];
      }
    } else {
      var rest := DocLines(cues[1..], k + 1);
      assert cues[1..][|cues[1..]| - 1] == cues[|cues| - 1];
      DocLinesLast(cues[1..], k + 1);
      assert lines == CueLines(cues[0], k) + [""] + rest;
      assert lines[|lines| - 1] == rest[|rest| - 1];
    }
  }

  predicate NoLineFeeds(lines: seq<string>) {
    forall i :: 0 <= i < |lines| ==> '\n' !in lines[i]
  }

  lemma NoLineFeedsConcat(xs: seq<string>, ys: seq<string>)
    requires NoLineFeeds(xs) && NoLineFeeds(ys)
    ensures NoLineFeeds(xs + ys)
  {
    forall i | 0 <= i < |xs + ys|
      ensures '\n' !in (xs + ys)[i]
    {
      if i >= |xs| {
        assert (xs + ys)[i] == ys[i - |xs|];
      }
    }
  }

  lemma IndexHasNoLineFeed(k: nat)
    ensures '\n' !in NatToString(k)
  {
    assert !IsDigit('\n');
  }

  /** No document line holds a line feed. */
  lemma {:induction false} DocLinesNoNewline(cues: seq<Cue>, k: nat)
    requires |cues| >= 1 && WellFormed(cues)
    ensures NoLineFeeds(DocLines(cues, k))
    decreases |cues|
  {
    var c := cues[0];
    assert WellFormedCue(c);
    IndexHasNoLineFeed(k);
    assert '\n' !in TimingLine(c);
    var head := CueLines(c, k);
    assert NoLineFeeds(head);
    assert NoLineFeeds([NatToString(k), TimingLine(c)]);
    if |cues| > 1 {
      DocLinesNoNewline(cues[1..], k + 1);
      assert NoLineFeeds([""]);
      NoLineFeedsConcat(head, [""]);
      NoLineFeedsConcat(head + [""], DocLines(cues[1..], k + 1));
    }
  }

  lemma JoinBlankLast(xs: seq<string>, c: char)
    requires |xs| >= 1
    ensures Join(xs + [""], c) + [c, c] == Join(xs, c) + [c, c, c]
  {
    assert Join([""], c) == "";
    JoinAppend(xs, [""], c);
  }

  /** The untrimmed blocks are the document lines joined, then two line
      feeds, or three when the last text is empty. */
  lemma BlocksAsDocLines(cues: seq<Cue>)
    requires |cues| >= 1
    ensures Blocks(cues, 1)
      == Join(DocLines(cues, 1), '\n') + (if cues[|cues| - 1].text == [] then "\n\n\n" else "\n\n")
  {
    BlocksAsLines(cues, 1);
    BlockLinesOfDoc(cues, 1);
    if cues[|cues| - 1].text == [] {
      JoinBlankLast(DocLines(cues, 1), '\n');
    }
  }

  lemma JoinTrimmed(lines: seq<string>, c: char)
    requires |lines| >= 1 && lines[0] != [] && !IsJsWhitespace(lines[0][0])
    requires lines[|lines| - 1] != [] && !IsJsWhitespace(lines[|lines| - 1][|lines[|lines| - 1]| - 1])
    ensures Join(lines, c) != [] && IsTrimmed(Join(lines, c))
  {
    JoinFirst(lines, c);
    JoinLast(lines, c);
  }

  lemma FirstDocLine(cues: seq<Cue>, k: nat)
    requires |cues| >= 1
    ensures DocLines(cues, k)[0] == NatToString(k)
  {
  }

  lemma DigitNotWhitespace(ch: char)
    requires IsDigit(ch)
    ensures !IsJsWhitespace(ch)
  {
  }

  /** The joined document lines start with the index and end in a visible
      character. */
  lemma DocLinesTrimmed(cues: seq<Cue>, k: nat)
    requires |cues| >= 1 && WellFormedCue(cues[|cues| - 1])
    ensures Join(DocLines(cues, k), '\n') != [] && IsTrimmed(Join(DocLines(cues, k), '\n'))
  {
    var lines := DocLines(cues, k);
    FirstDocLine(cues, k);
    DigitNotWhitespace(NatToString(k)[0]);
    DocLinesLast(cues, k);
    JoinTrimmed(lines, '\n');
  }

  lemma TrimBeforeLineFeeds(b: string, x: string, w: string)
    requires x != [] && IsTrimmed(x)
    requires w == "\n\n" || w == "\n\n\n"
    requires b == x + w
    ensures Trim(b) == x
  {
    assert IsJsWhitespace('\n');
    TrimDropsTrailingWhitespace(x, w);
  }

  /** The trimmed document is the document lines joined by line feeds. */
  lemma DocumentAsLines(cues: seq<Cue>)
    requires |cues| >= 1 && WellFormed(cues)
    ensures Document(cues) == Join(DocLines(cues, 1), '\n')
  {
    BlocksAsDocLines(cues);
    assert WellFormedCue(cues[|cues| - 1]);
    DocLinesTrimmed(cues, 1);
    TrimBeforeLineFeeds(Blocks(cues, 1), Join(DocLines(cues, 1), '\n'),
      if cues[|cues| - 1].text == [] then "\n\n\n" else "\n\n");
  }

  lemma TimingParses(c: Cue)
    requires ' ' !in c.start && ' ' !in c.end
    ensures ParseTiming(TimingLine(c)) == Some((c.start, c.end))
  {
    JoinThree(c.start, "-->", c.end, ' ');
    assert TimingLine(c) == Join([c.start, "-->", c.end], ' ');
    SplitJoin([c.start, "-->", c.end], ' ');
  }

  /** The lines of one final cue parse as that cue. */
  lemma ParseLastCue(lines: seq<string>, k: nat, c: Cue)
    requires ParseNat(NatToString(k)) == Some(k)
    requires ParseTiming(TimingLine(c)) == Some((c.start, c.end))
    requires (lines == [NatToString(k), TimingLine(c)] && c.text == [])
      || lines == [NatToString(k), TimingLine(c), c.text]
    ensures ParseLines(lines, k) == Some([c])
  {
  }

  /** A cue followed by an empty line and the lines of more cues parses as
      that cue followed by those cues. */
  lemma ParseNextCue(lines: seq<string>, k: nat, c: Cue, more: seq<string>, rest: seq<Cue>)
    requires ParseNat(NatToString(k)) == Some(k)
    requires ParseTiming(TimingLine(c)) == Some((c.start, c.end))
    requires lines == CueLines(c, k) + [""] + more
    requires ParseLines(more, k + 1) == Some(rest)
    ensures ParseLines(lines, k) == Some([c] + rest)
  {
    assert lines[4..] == more;
  }

  lemma ParseIndex(k: nat)
    ensures ParseNat(NatToString(k)) == Some(k)
  {
    NatToStringValue(k);
  }

  lemma {:induction false} LinesParse(cues: seq<Cue>, k: nat)
    requires |cues| >= 1 && WellFormed(cues)
    ensures ParseLines(DocLines(cues, k), k) == Some(cues)
    decreases |cues|
  {
    var c := cues[0];
    assert WellFormedCue(c);
    ParseIndex(k);
    TimingParses(c);
    if |cues| == 1 {
      ParseLastCue(DocLines(cues, k), k, c);
      assert cues == [c];
    } else {
      var more := DocLines(cues[1..], k + 1);
      LinesParse(cues[1..], k + 1);
      ParseNextCue(DocLines(cues, k), k, c, more, cues[1..]);
      assert cues == [c] + cues[1..];
    }
  }

  /** Parsing the document of well-formed cues gives back exactly those
      cues: their number, order, timestamps and texts. */
  lemma RoundTrip(cues: seq<Cue>)
    requires WellFormed(cues)
    ensures ParseSrt(Document(cues)) == Some(cues)
  {
    if cues == [] {
      assert Blocks(cues, 1) == "";
    } else {
      var lines := DocLines(cues, 1);
      DocumentAsLines(cues);
      assert WellFormedCue(cues[|cues| - 1]);
      DocLinesTrimmed(cues, 1);
      DocLinesNoNewline(cues, 1);
      SplitJoin(lines, '\n');
      LinesParse(cues, 1);
      ParseJoined(Document(cues), lines, cues);
    }
  }

  lemma ParseJoined(doc: string, lines: seq<string>, cues: seq<Cue>)
    requires doc != [] && Split(doc, '\n') == lines && ParseLines(lines, 1) == Some(cues)
    ensures ParseSrt(doc) == Some(cues)
  {
  }

  /** The document is empty exactly when there are no cues. */
  lemma DocumentEmpty(cues: seq<Cue>)
    requires WellFormed(cues)
    ensures Document(cues) == [] <==> cues == []
  {
    RoundTrip(cues);
  }
}
