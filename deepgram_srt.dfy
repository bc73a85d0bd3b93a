/** `jsonToSrt` of lib/json-2-srt-deegram.ts: a Deepgram response becomes
    a SubRip document with one cue per sentence, walking channels,
    alternatives, paragraphs and sentences in order. The response is
    untyped (`any`); a property the code reads that is absent (`undefined`)
    is `None` here, and reading through it throws the `TypeError` whose
    message the catch block of lines 65-72 wraps. */
module DeepgramSrt {
  import opened Wrappers
  import opened Sequences
  import opened Text
  import opened Timecode
  import opened Srt

  datatype Sentence = Sentence(start: real, end: real, text: Option<string>)
  datatype Paragraph = Paragraph(sentences: Option<seq<Sentence>>)
  /** `alternative.paragraphs`, the object holding the paragraph list. */
  datatype ParagraphBlock = ParagraphBlock(paragraphs: Option<seq<Paragraph>>)
  datatype Alternative = Alternative(paragraphs: Option<ParagraphBlock>)
  datatype Channel = Channel(alternatives: Option<seq<Alternative>>)
  datatype Results = Results(channels: Option<seq<Channel>>)
  datatype Response = Response(results: Option<Results>)

  /** The prefix the catch block puts before the message it rethrows. */
  const ConvertError := "Error converting JSON to SRT: "

  /** `sentence.text.replace(/\n+/g, " ").trim()` (line 48). */
  function CleanSentenceText(text: string): (r: string)
    ensures '\n' !in r && IsTrimmed(r)
  {
    TrimKeepsAbsent(CollapseNewlines(text), '\n');
    Trim(CollapseNewlines(text))
  }

  // ---------------------------------------------------------------------
  // The specification: the cues of a response, in loop order, or the
  // first read that throws. `formatTime` is the closure of lines 5-23,
  // `FormatTimeCarrySeconds`.

  /** Lines 46-48: the cue of one sentence, or the read of `replace` on a
      missing text. */
  function CuesOfSentence(formatTime: real -> string, s: Sentence): Result<seq<Cue>> {
    if s.text.None? then Failure(ReadError("replace"))
    else Success([Cue(formatTime(s.start), formatTime(s.end), CleanSentenceText(s.text.value))])
  }

  /** Lines 42-45: `paragraph.sentences.length` is read before the loop. */
  function CuesOfParagraph(formatTime: real -> string, p: Paragraph): Result<seq<Cue>> {
    if p.sentences.None? then Failure(ReadError("length"))
    else ConcatMap(CuesOfSentence, formatTime, p.sentences.value)
  }

  /** Lines 38-41: `alternative.paragraphs.paragraphs.length`. */
  function CuesOfAlternative(formatTime: real -> string, a: Alternative): Result<seq<Cue>> {
    if a.paragraphs.None? then Failure(ReadError("paragraphs"))
    else if a.paragraphs.value.paragraphs.None? then Failure(ReadError("length"))
    else ConcatMap(CuesOfParagraph, formatTime, a.paragraphs.value.paragraphs.value)
  }

  /** Lines 34-37: `channel.alternatives.length`. */
  function CuesOfChannel(formatTime: real -> string, c: Channel): Result<seq<Cue>> {
    if c.alternatives.None? then Failure(ReadError("length"))
    else ConcatMap(CuesOfAlternative, formatTime, c.alternatives.value)
  }

  /** Lines 30-33: `json.results.channels.length`. */
  function CuesOfResponse(formatTime: real -> string, json: Response): Result<seq<Cue>> {
    if json.results.None? then Failure(ReadError("channels"))
    else if json.results.value.channels.None? then Failure(ReadError("length"))
    else ConcatMap(CuesOfChannel, formatTime, json.results.value.channels.value)
  }

  /** The cues `jsonToSrt` writes. */
  function DeepgramCues(json: Response): Result<seq<Cue>> {
    CuesOfResponse(FormatTimeCarrySeconds, json)
  }

  /** What `jsonToSrt` returns or throws. */
  function DeepgramDocument(json: Response): Result<string> {
    match DeepgramCues(json)
    case Failure(e) => Failure(ConvertError + e)
    case Success(cues) => Success(Document(cues))
  }

  // ---------------------------------------------------------------------
  // The nested loops of lines 33-64, one method per level. Each appends
  // the blocks of its part of the response to `srtContent` and advances
  // `index`, or stops at the first read that throws.

  /** The two variables the loops update. */
  datatype Progress = Progress(content: string, index: nat)

  /** The variables with the blocks of `done` appended. */
  function Before(done: seq<Cue>): Progress {
    Progress(Blocks(done, 1), |done| + 1)
  }

  /** The variables after the blocks of `cues` have been appended, the
      cues before them being `done`. */
  function After(done: seq<Cue>, cues: Result<seq<Cue>>): Result<Progress> {
    match cues
    case Failure(e) => Failure(e)
    case Success(cs) => Success(Before(done + cs))
  }

  lemma PrefixAll<A>(xs: seq<A>, i: nat)
    requires i == |xs|
    ensures xs[..i] == xs
  {
  }

  lemma RightUnit(done: seq<Cue>)
    ensures done + [] == done
  {
  }

  lemma Associative(done: seq<Cue>, acc: seq<Cue>, cs: seq<Cue>)
    ensures done + acc + cs == done + (acc + cs)
  {
  }

  /** The three appends of lines 57-59 and `index++` add the block of one
      more cue. */
  lemma Advance(srtContent: string, index: nat, done: seq<Cue>, cue: Cue)
    requires Progress(srtContent, index) == Before(done)
    ensures Progress(srtContent + (NatToString(index) + "\n") + (cue.start + " --> " + cue.end + "\n")
      + (cue.text + "\n\n"), index + 1) == Before(done + [cue])
  {
    AppendBlock(srtContent, index, cue);
    BlocksSnoc(done, cue, 1);
  }

  /** The variables after one more sentence. */
  lemma NextSentence(formatTime: real -> string, sentences: seq<Sentence>, i: nat, done: seq<Cue>,
                     acc: seq<Cue>, srtContent: string, index: nat, cue: Cue)
    requires i < |sentences| && ConcatMap(CuesOfSentence, formatTime, sentences[..i]) == Success(acc)
    requires CuesOfSentence(formatTime, sentences[i]) == Success([cue])
    requires Progress(srtContent, index) == Before(done + acc)
    ensures ConcatMap(CuesOfSentence, formatTime, sentences[..i + 1]) == Success(acc + [cue])
    ensures Progress(srtContent + (NatToString(index) + "\n") + (cue.start + " --> " + cue.end + "\n")
      + (cue.text + "\n\n"), index + 1) == Before(done + (acc + [cue]))
  {
    ConcatMapNext(CuesOfSentence, formatTime, sentences, i, acc, [cue]);
    Advance(srtContent, index, done + acc, cue);
    Associative(done, acc, [cue]);
  }

  /** The variables after one more part of the response: the part's cues
      join those of the parts before it. */
  lemma NextPart<A>(f: (real -> string, A) -> Result<seq<Cue>>, formatTime: real -> string, xs: seq<A>,
                    i: nat, done: seq<Cue>, acc: seq<Cue>, cs: seq<Cue>, q: Result<Progress>)
    requires i < |xs| && ConcatMap(f, formatTime, xs[..i]) == Success(acc)
    requires f(formatTime, xs[i]) == Success(cs)
    requires q == After(done + acc, Success(cs))
    ensures ConcatMap(f, formatTime, xs[..i + 1]) == Success(acc + cs)
    ensures q == Success(Before(done + (acc + cs)))
  {
    ConcatMapNext(f, formatTime, xs, i, acc, cs);
    Associative(done, acc, cs);
  }

  /** The innermost loop, lines 45-61. */
  method AppendSentences(formatTime: real -> string, sentences: seq<Sentence>, p: Progress,
                         ghost done: seq<Cue>)
    returns (r: Result<Progress>)
    requires p == Before(done)
    ensures r == After(done, ConcatMap(CuesOfSentence, formatTime, sentences))
  {
    var srtContent, index := p.content, p.index;
    ghost var acc: seq<Cue> := [];
    RightUnit(done);
    var i := 0;
    while i < |sentences|
      invariant 0 <= i <= |sentences|
      invariant ConcatMap(CuesOfSentence, formatTime, sentences[..i]) == Success(acc)
      invariant Progress(srtContent, index) == Before(done + acc)
    {
      var sentence := sentences[i];
      var startTime := formatTime(sentence.start);
      var endTime := formatTime(sentence.end);
      if sentence.text.None? {
        ConcatMapStops(CuesOfSentence, formatTime, sentences, i, acc, ReadError("replace"));
        return Failure(ReadError("replace"));
      }
      var text := CleanSentenceText(sentence.text.value);
      ghost var cue := Cue(startTime, endTime, text);
      NextSentence(formatTime, sentences, i, done, acc, srtContent, index, cue);
      srtContent := srtContent + (NatToString(index) + "\n");
      srtContent := srtContent + (startTime + " --> " + endTime + "\n");
      srtContent := srtContent + (text + "\n\n");
      index := index + 1;
      acc := acc + [cue];
      i := i + 1;
    }
    PrefixAll(sentences, i);
    return Success(Progress(srtContent, index));
  }

  /** The loop over paragraphs, lines 41-62. */
  method AppendParagraphs(formatTime: real -> string, paragraphs: seq<Paragraph>, p: Progress, ghost done: seq<Cue>)
    returns (r: Result<Progress>)
    requires p == Before(done)
    ensures r == After(done, ConcatMap(CuesOfParagraph, formatTime, paragraphs))
  {
    var q := p;
    ghost var acc: seq<Cue> := [];
    RightUnit(done);
    var i := 0;
    while i < |paragraphs|
      invariant 0 <= i <= |paragraphs|
      invariant ConcatMap(CuesOfParagraph, formatTime, paragraphs[..i]) == Success(acc)
      invariant q == Before(done + acc)
    {
      var paragraph := paragraphs[i];
      if paragraph.sentences.None? {
        ConcatMapStops(CuesOfParagraph, formatTime, paragraphs, i, acc, ReadError("length"));
        return Failure(ReadError("length"));
      }
      var res := AppendSentences(formatTime, paragraph.sentences.value, q, done + acc);
      if res.Failure? {
        ConcatMapStops(CuesOfParagraph, formatTime, paragraphs, i, acc, res.error);
        return Failure(res.error);
      }
      ghost var cs := CuesOfParagraph(formatTime, paragraph).value;
      NextPart(CuesOfParagraph, formatTime, paragraphs, i, done, acc, cs, res);
      q := res.value;
      acc := acc + cs;
      i := i + 1;
    }
    PrefixAll(paragraphs, i);
    return Success(q);
  }

  /** The loop over alternatives, lines 37-63. */
  method AppendAlternatives(formatTime: real -> string, alternatives: seq<Alternative>, p: Progress, ghost done: seq<Cue>)
    returns (r: Result<Progress>)
    requires p == Before(done)
    ensures r == After(done, ConcatMap(CuesOfAlternative, formatTime, alternatives))
  {
    var q := p;
    ghost var acc: seq<Cue> := [];
    RightUnit(done);
    var i := 0;
    while i < |alternatives|
      invariant 0 <= i <= |alternatives|
      invariant ConcatMap(CuesOfAlternative, formatTime, alternatives[..i]) == Success(acc)
      invariant q == Before(done + acc)
    {
      var alternative := alternatives[i];
      if alternative.paragraphs.None? {
        ConcatMapStops(CuesOfAlternative, formatTime, alternatives, i, acc, ReadError("paragraphs"));
        return Failure(ReadError("paragraphs"));
      }
      if alternative.paragraphs.value.paragraphs.None? {
        ConcatMapStops(CuesOfAlternative, formatTime, alternatives, i, acc, ReadError("length"));
        return Failure(ReadError("length"));
      }
      var res := AppendParagraphs(formatTime, alternative.paragraphs.value.paragraphs.value, q, done + acc);
      if res.Failure? {
        ConcatMapStops(CuesOfAlternative, formatTime, alternatives, i, acc, res.error);
        return Failure(res.error);
      }
      ghost var cs := CuesOfAlternative(formatTime, alternative).value;
      NextPart(CuesOfAlternative, formatTime, alternatives, i, done, acc, cs, res);
      q := res.value;
      acc := acc + cs;
      i := i + 1;
    }
    PrefixAll(alternatives, i);
    return Success(q);
  }

  /** The loop over channels, lines 33-64. */
  method AppendChannels(formatTime: real -> string, channels: seq<Channel>, p: Progress, ghost done: seq<Cue>)
    returns (r: Result<Progress>)
    requires p == Before(done)
    ensures r == After(done, ConcatMap(CuesOfChannel, formatTime, channels))
  {
    var q := p;
    ghost var acc: seq<Cue> := [];
    RightUnit(done);
    var i := 0;
    while i < |channels|
      invariant 0 <= i <= |channels|
      invariant ConcatMap(CuesOfChannel, formatTime, channels[..i]) == Success(acc)
      invariant q == Before(done + acc)
    {
      var channel := channels[i];
      if channel.alternatives.None? {
        ConcatMapStops(CuesOfChannel, formatTime, channels, i, acc, ReadError("length"));
        return Failure(ReadError("length"));
      }
      var res := AppendAlternatives(formatTime, channel.alternatives.value, q, done + acc);
      if res.Failure? {
        ConcatMapStops(CuesOfChannel, formatTime, channels, i, acc, res.error);
        return Failure(res.error);
      }
      ghost var cs := CuesOfChannel(formatTime, channel).value;
      NextPart(CuesOfChannel, formatTime, channels, i, done, acc, cs, res);
      q := res.value;
      acc := acc + cs;
      i := i + 1;
    }
    PrefixAll(channels, i);
    return Success(q);
  }

  /** `jsonToSrt`: the blocks of every sentence, trimmed, or the wrapped
      message of the first read that throws. */
  method JsonToSrt(json: Response) returns (r: Result<string>)
    ensures r == DeepgramDocument(json)
  {
    var formatTime := FormatTimeCarrySeconds;
    var start := Progress("", 1);
    assert start == Before([]);
    if json.results.None? {
      return Failure(ConvertError + ReadError("channels"));
    }
    if json.results.value.channels.None? {
      return Failure(ConvertError + ReadError("length"));
    }
    var res := AppendChannels(formatTime, json.results.value.channels.value, start, []);
    if res.Failure? {
      return Failure(ConvertError + res.error);
    }
    assert [] + DeepgramCues(json).value == DeepgramCues(json).value;
    return Success(Trim(res.value.content));
  }

  // ---------------------------------------------------------------------
  // Properties

  /** The cleaned text is a fixed point of the cleaning. */
  lemma CleanSentenceTextIdempotent(text: string)
    ensures CleanSentenceText(CleanSentenceText(text)) == CleanSentenceText(text)
  {
    var r := CleanSentenceText(text);
    CollapseWithoutNewlines(r);
    TrimOfTrimmed(r);
  }

  /** A run of line feeds inside the text becomes one space. */
  lemma CleanSentenceTextJoinsLines(a: string, k: nat, b: string)
    requires '\n' !in a && k >= 1 && (b == [] || b[0] != '\n')
    ensures CleanSentenceText(a + Repeat('\n', k) + b) == Trim(a + " " + CollapseNewlines(b))
  {
    CollapseRun(a, k, b);
  }

  /** Every property the loops read is present. */
  predicate ParagraphComplete(p: Paragraph) {
    p.sentences.Some? && forall i :: 0 <= i < |p.sentences.value| ==> p.sentences.value[i].text.Some?
  }

  predicate AlternativeComplete(a: Alternative) {
    && a.paragraphs.Some? && a.paragraphs.value.paragraphs.Some?
    && forall i :: 0 <= i < |a.paragraphs.value.paragraphs.value| ==>
         ParagraphComplete(a.paragraphs.value.paragraphs.value[i])
  }

  predicate ChannelComplete(c: Channel) {
    c.alternatives.Some? && forall i :: 0 <= i < |c.alternatives.value| ==> AlternativeComplete(c.alternatives.value[i])
  }

  predicate Complete(json: Response) {
    && json.results.Some? && json.results.value.channels.Some?
    && forall i :: 0 <= i < |json.results.value.channels.value| ==>
         ChannelComplete(json.results.value.channels.value[i])
  }

  lemma ParagraphSucceeds(formatTime: real -> string, p: Paragraph)
    ensures CuesOfParagraph(formatTime, p).Success? <==> ParagraphComplete(p)
  {
    if p.sentences.Some? {
      ConcatMapSucceeds(CuesOfSentence, formatTime, p.sentences.value);
    }
  }

  lemma AlternativeSucceeds(formatTime: real -> string, a: Alternative)
    ensures CuesOfAlternative(formatTime, a).Success? <==> AlternativeComplete(a)
  {
    if a.paragraphs.Some? && a.paragraphs.value.paragraphs.Some? {
      var ps := a.paragraphs.value.paragraphs.value;
      ConcatMapSucceeds(CuesOfParagraph, formatTime, ps);
      forall i | 0 <= i < |ps| {
        ParagraphSucceeds(formatTime, ps[i]);
      }
    }
  }

  lemma ChannelSucceeds(formatTime: real -> string, c: Channel)
    ensures CuesOfChannel(formatTime, c).Success? <==> ChannelComplete(c)
  {
    if c.alternatives.Some? {
      var alts := c.alternatives.value;
      ConcatMapSucceeds(CuesOfAlternative, formatTime, alts);
      forall i | 0 <= i < |alts| {
        AlternativeSucceeds(formatTime, alts[i]);
      }
    }
  }

  /** `jsonToSrt` returns a document exactly when every property it reads
      is present; otherwise it throws. */
  lemma DeepgramSucceedsIff(json: Response)
    ensures DeepgramDocument(json).Success? <==> Complete(json)
  {
    if json.results.Some? && json.results.value.channels.Some? {
      var chs := json.results.value.channels.value;
      ConcatMapSucceeds(CuesOfChannel, FormatTimeCarrySeconds, chs);
      forall i | 0 <= i < |chs| {
        ChannelSucceeds(FormatTimeCarrySeconds, chs[i]);
      }
    }
  }

  /** The messages the loops can throw. */
  predicate IsReadError(e: string) {
    e == ReadError("channels") || e == ReadError("length") || e == ReadError("paragraphs")
      || e == ReadError("replace")
  }

  lemma ParagraphErrors(formatTime: real -> string, p: Paragraph)
    ensures CuesOfParagraph(formatTime, p).Failure? ==> IsReadError(CuesOfParagraph(formatTime, p).error)
  {
    if p.sentences.Some? && CuesOfParagraph(formatTime, p).Failure? {
      ConcatMapFailureFrom(CuesOfSentence, formatTime, p.sentences.value);
    }
  }

  lemma AlternativeErrors(formatTime: real -> string, a: Alternative)
    ensures CuesOfAlternative(formatTime, a).Failure? ==> IsReadError(CuesOfAlternative(formatTime, a).error)
  {
    if a.paragraphs.Some? && a.paragraphs.value.paragraphs.Some? && CuesOfAlternative(formatTime, a).Failure? {
      var ps := a.paragraphs.value.paragraphs.value;
      ConcatMapFailureFrom(CuesOfParagraph, formatTime, ps);
      var i :| 0 <= i < |ps| && CuesOfParagraph(formatTime, ps[i]) == Failure(CuesOfAlternative(formatTime, a).error);
      ParagraphErrors(formatTime, ps[i]);
    }
  }

  lemma ChannelErrors(formatTime: real -> string, c: Channel)
    ensures CuesOfChannel(formatTime, c).Failure? ==> IsReadError(CuesOfChannel(formatTime, c).error)
  {
    if c.alternatives.Some? && CuesOfChannel(formatTime, c).Failure? {
      var alts := c.alternatives.value;
      ConcatMapFailureFrom(CuesOfAlternative, formatTime, alts);
      var i :| 0 <= i < |alts| && CuesOfAlternative(formatTime, alts[i]) == Failure(CuesOfChannel(formatTime, c).error);
      AlternativeErrors(formatTime, alts[i]);
    }
  }

  /** What `jsonToSrt` throws is the wrapped message of reading a property
      of `undefined`. */
  lemma DeepgramErrors(json: Response)
    ensures DeepgramDocument(json).Failure? ==>
      exists e :: IsReadError(e) && DeepgramDocument(json).error == ConvertError + e
  {
    var r := DeepgramCues(json);
    if json.results.Some? && json.results.value.channels.Some? && r.Failure? {
      var chs := json.results.value.channels.value;
      ConcatMapFailureFrom(CuesOfChannel, FormatTimeCarrySeconds, chs);
      var i :| 0 <= i < |chs| && CuesOfChannel(FormatTimeCarrySeconds, chs[i]) == Failure(r.error);
      ChannelErrors(FormatTimeCarrySeconds, chs[i]);
    }
    if r.Failure? {
      assert IsReadError(r.error);
    }
  }

  /** A timestamp the parser can read back out of a timing line: no space
      or line feed, and a visible last character. */
  predicate StampOk(t: string) {
    ' ' !in t && '\n' !in t && t != [] && !IsJsWhitespace(t[|t| - 1])
  }

  lemma CarryStampOk(x: real)
    ensures StampOk(FormatTimeCarrySeconds(x))
  {
    StampHasNoBlank(CarriedFields(x));
  }

  lemma CueWellFormed(c: Cue)
    requires StampOk(c.start) && StampOk(c.end) && '\n' !in c.text && IsTrimmed(c.text)
    ensures WellFormedCue(c)
  {
  }

  lemma SentenceWellFormed(formatTime: real -> string, s: Sentence)
    requires forall x :: StampOk(formatTime(x))
    ensures CuesOfSentence(formatTime, s).Success? ==> All(WellFormedCue, CuesOfSentence(formatTime, s).value)
  {
    if s.text.Some? {
      var c := CuesOfSentence(formatTime, s).value[0];
      CueWellFormed(c);
      AllSingleton(WellFormedCue, c);
    }
  }

  lemma ParagraphWellFormed(formatTime: real -> string, p: Paragraph)
    requires forall x :: StampOk(formatTime(x))
    ensures CuesOfParagraph(formatTime, p).Success? ==> All(WellFormedCue, CuesOfParagraph(formatTime, p).value)
  {
    if p.sentences.Some? {
      var xs := p.sentences.value;
      forall i | 0 <= i < |xs| {
        SentenceWellFormed(formatTime, xs[i]);
      }
      ConcatMapAll(CuesOfSentence, formatTime, WellFormedCue, xs);
    }
  }

  lemma AlternativeWellFormed(formatTime: real -> string, a: Alternative)
    requires forall x :: StampOk(formatTime(x))
    ensures CuesOfAlternative(formatTime, a).Success? ==> All(WellFormedCue, CuesOfAlternative(formatTime, a).value)
  {
    if a.paragraphs.Some? && a.paragraphs.value.paragraphs.Some? {
      var xs := a.paragraphs.value.paragraphs.value;
      forall i | 0 <= i < |xs| {
        ParagraphWellFormed(formatTime, xs[i]);
      }
      ConcatMapAll(CuesOfParagraph, formatTime, WellFormedCue, xs);
    }
  }

  lemma ChannelWellFormed(formatTime: real -> string, c: Channel)
    requires forall x :: StampOk(formatTime(x))
    ensures CuesOfChannel(formatTime, c).Success? ==> All(WellFormedCue, CuesOfChannel(formatTime, c).value)
  {
    if c.alternatives.Some? {
      var xs := c.alternatives.value;
      forall i | 0 <= i < |xs| {
        AlternativeWellFormed(formatTime, xs[i]);
      }
      ConcatMapAll(CuesOfAlternative, formatTime, WellFormedCue, xs);
    }
  }

  /** Every cue `jsonToSrt` writes is one the parser reads back unambiguously. */
  lemma DeepgramCuesWellFormed(json: Response)
    ensures DeepgramCues(json).Success? ==> WellFormed(DeepgramCues(json).value)
  {
    forall x {
      CarryStampOk(x);
    }
    if json.results.Some? && json.results.value.channels.Some? {
      var chs := json.results.value.channels.value;
      forall i | 0 <= i < |chs| {
        ChannelWellFormed(FormatTimeCarrySeconds, chs[i]);
      }
      ConcatMapAll(CuesOfChannel, FormatTimeCarrySeconds, WellFormedCue, chs);
    }
  }

  /** Reading back the document of a complete response gives one cue per
      sentence, in loop order, with the formatted times and cleaned text. */
  lemma DeepgramRoundTrip(json: Response)
    requires Complete(json)
    ensures DeepgramDocument(json).Success?
    ensures ParseSrt(DeepgramDocument(json).value) == Some(DeepgramCues(json).value)
  {
    DeepgramSucceedsIff(json);
    DeepgramCuesWellFormed(json);
    RoundTrip(DeepgramCues(json).value);
  }

  /** The cue of a sentence with non-negative times reads back within half
      a millisecond of the sentence's times. */
  lemma SentenceTimesMatch(s: Sentence)
    requires s.text.Some? && s.start >= 0.0 && s.end >= 0.0
    ensures var c := CuesOfSentence(FormatTimeCarrySeconds, s).value[0];
      && ParseTimestamp(c.start).Some? && -0.0005 < ParseTimestamp(c.start).value - s.start <= 0.0005
      && ParseTimestamp(c.end).Some? && -0.0005 < ParseTimestamp(c.end).value - s.end <= 0.0005
  {
    CarrySecondsRoundTrip(s.start);
    CarrySecondsRoundTrip(s.end);
  }
}
