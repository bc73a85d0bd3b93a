/** `jsonToSrtOpenai` of lib/json-2-srt-openai.ts: the verbose JSON of a
    Whisper transcription becomes a SubRip document with one cue per
    segment. */
module OpenaiSrt {
  import opened Wrappers
  import opened Sequences
  import opened Text
  import opened Timecode
  import opened Srt

  /** One timed segment of the transcription (lines 1-5). The reply is
      cast to this type unchecked (lib/processing.ts:85), so its text may
      be absent (`undefined`), which is `None` here. */
  datatype Segment = Segment(end: real, start: real, text: Option<string>)

  /** The response, `TranscriptJSON` (lines 7-11), whose segment list may
      be absent in the same way. */
  datatype Transcript = Transcript(language: string, segments: Option<seq<Segment>>, text: string)

  /** The message of the `TypeError` that `for (const segment of
      json.segments)` (line 30) throws when the list is absent. */
  const NotIterable := "json.segments is not iterable"

  /** `segment.text.trim().replace(/\n/g, ' ')` (line 33). */
  function CleanText(text: string): (r: string)
    ensures '\n' !in r && IsTrimmed(r)
  {
    ReplaceNewlinesOfTrimmed(Trim(text));
    ReplaceNewlines(Trim(text))
  }

  /** The cue written for one segment that has a text (lines 31-33). */
  function SegmentCue(s: Segment): Cue
    requires s.text.Some?
  {
    Cue(FormatTimeNoCarry(s.start), FormatTimeNoCarry(s.end), CleanText(s.text.value))
  }

  /** Every segment has a text. */
  predicate AllTexts(segments: seq<Segment>) {
    forall i :: 0 <= i < |segments| ==> segments[i].text.Some?
  }

  /** Every property the loop reads is present. */
  predicate Readable(json: Transcript) {
    json.segments.Some? && AllTexts(json.segments.value)
  }

  /** The cues of the segments, one each, in order. */
  function SegmentCues(segments: seq<Segment>): (r: seq<Cue>)
    requires AllTexts(segments)
    ensures |r| == |segments|
    ensures forall i :: 0 <= i < |segments| ==> r[i] == SegmentCue(segments[i])
  {
    seq(|segments|, i requires 0 <= i < |segments| && AllTexts(segments) => SegmentCue(segments[i]))
  }

  /** What `jsonToSrtOpenai` returns or throws: the document of a
      readable reply; the iteration error without a segment list; the
      read of `trim` on a missing text otherwise. */
  function OpenaiDocument(json: Transcript): Result<string> {
    if json.segments.None? then Failure(NotIterable)
    else if AllTexts(json.segments.value) then Success(Document(SegmentCues(json.segments.value)))
    else Failure(ReadError("trim"))
  }

  /** The segments before `i` all have a text. */
  lemma TextsBefore(segments: seq<Segment>, i: nat)
    requires i <= |segments| && forall k :: 0 <= k < i ==> segments[k].text.Some?
    ensures AllTexts(segments[..i])
  {
    forall k | 0 <= k < i
      ensures segments[..i][k].text.Some?
    {
      assert segments[..i][k] == segments[k];
    }
  }

  /** One iteration of the loop: appending the block of the next segment
      to the blocks of the segments before it. */
  lemma NextBlock(segments: seq<Segment>, i: nat, content: string)
    requires i < |segments| && forall k :: 0 <= k <= i ==> segments[k].text.Some?
    requires AllTexts(segments[..i]) && content == Blocks(SegmentCues(segments[..i]), 1)
    ensures AllTexts(segments[..i + 1])
    ensures content + Block(i + 1, SegmentCue(segments[i])) == Blocks(SegmentCues(segments[..i + 1]), 1)
  {
    TextsBefore(segments, i + 1);
    var before := SegmentCues(segments[..i]);
    var after := SegmentCues(segments[..i + 1]);
    assert after == before + [SegmentCue(segments[i])] by {
      forall k | 0 <= k < |after|
        ensures after[k] == (before + [SegmentCue(segments[i])])[k]
      {
        assert segments[..i + 1][k] == segments[k];
        if k < i { assert segments[..i][k] == segments[k]; }
      }
    }
    BlocksSnoc(before, SegmentCue(segments[i]), 1);
  }

  /** `jsonToSrtOpenai`: the loop of lines 30-39 appends one block per
      segment, numbered from 1, and the result is trimmed; a missing list
      or text throws. */
  method JsonToSrtOpenai(json: Transcript) returns (r: Result<string>)
    ensures r == OpenaiDocument(json)
  {
    if json.segments.None? {
      return Failure(NotIterable);
    }
    var segments := json.segments.value;
    var content := "";
    var index := 1;
    var i := 0;
    while i < |segments|
      invariant 0 <= i <= |segments|
      invariant index == i + 1
      invariant forall k :: 0 <= k < i ==> segments[k].text.Some?
      invariant AllTexts(segments[..i])
      invariant content == Blocks(SegmentCues(segments[..i]), 1)
    {
      var segment := segments[i];
      var startTime := FormatTimeNoCarry(segment.start);
      var endTime := FormatTimeNoCarry(segment.end);
      if segment.text.None? {
        assert !AllTexts(segments);
        return Failure(ReadError("trim"));
      }
      var text := CleanText(segment.text.value);
      NextBlock(segments, i, content);
      AppendBlock(content, index, SegmentCue(segment));
      content := content + (NatToString(index) + "\n");
      content := content + (startTime + " --> " + endTime + "\n");
      content := content + (text + "\n\n");
      index := index + 1;
      i := i + 1;
    }
    assert segments[..i] == segments;
    r := Success(Trim(content));
  }

  // ---------------------------------------------------------------------
  // Properties

  /** The cleaned text is a fixed point of the cleaning. */
  lemma CleanTextIdempotent(text: string)
    ensures CleanText(CleanText(text)) == CleanText(text)
  {
    var r := CleanText(text);
    TrimOfTrimmed(r);
    ReplaceNewlinesWithout(r);
  }

  /** The text keeps its characters apart from the line feeds, which become
      spaces, and loses only its surrounding whitespace. */
  lemma CleanTextKeepsCharacters(text: string)
    ensures |CleanText(text)| == |Trim(text)|
    ensures forall i :: 0 <= i < |Trim(text)| ==>
      CleanText(text)[i] == (if Trim(text)[i] == '\n' then ' ' else Trim(text)[i])
  {
  }

  /** The conversion succeeds exactly when every property it reads is
      present; otherwise it throws one of its two `TypeError`s, the
      iteration error exactly when the segment list is missing. */
  lemma OpenaiSucceedsIff(json: Transcript)
    ensures OpenaiDocument(json).Success? <==> Readable(json)
    ensures OpenaiDocument(json) == Failure(NotIterable) <==> json.segments.None?
    ensures OpenaiDocument(json) == Failure(ReadError("trim")) <==>
      json.segments.Some? && exists i :: 0 <= i < |json.segments.value| && json.segments.value[i].text.None?
  {
    assert ReadError("trim") == "Cannot read properties of undefined (reading 'trim')";
  }

  /** The cue of a segment is well formed: the no-carry timestamps hold
      no space or line feed and end in a digit, the text is a trimmed
      single line. */
  lemma SegmentCueWellFormed(s: Segment)
    requires s.text.Some?
    ensures WellFormedCue(SegmentCue(s))
  {
    StampHasNoBlank(RawFields(s.start));
    StampHasNoBlank(RawFields(s.end));
  }

  /** Every cue of the document is well formed. */
  lemma SegmentCuesWellFormed(segments: seq<Segment>)
    requires AllTexts(segments)
    ensures WellFormed(SegmentCues(segments))
  {
    forall i | 0 <= i < |segments|
      ensures WellFormedCue(SegmentCues(segments)[i])
    {
      SegmentCueWellFormed(segments[i]);
    }
  }

  /** Reading the document of a readable reply back gives one cue per
      segment, in order, with the segment's formatted times and cleaned
      text. */
  lemma OpenaiRoundTrip(json: Transcript)
    requires Readable(json)
    ensures OpenaiDocument(json).Success?
    ensures ParseSrt(OpenaiDocument(json).value) == Some(SegmentCues(json.segments.value))
  {
    SegmentCuesWellFormed(json.segments.value);
    RoundTrip(SegmentCues(json.segments.value));
  }

  /** The cue read back for a segment with non-negative times starts and
      ends within half a millisecond of the segment's times. */
  lemma CueTimesMatchSegment(s: Segment)
    requires s.text.Some? && s.start >= 0.0 && s.end >= 0.0
    ensures ParseTimestamp(SegmentCue(s).start).Some?
    ensures -0.0005 < ParseTimestamp(SegmentCue(s).start).value - s.start <= 0.0005
    ensures ParseTimestamp(SegmentCue(s).end).Some?
    ensures -0.0005 < ParseTimestamp(SegmentCue(s).end).value - s.end <= 0.0005
  {
    NoCarryRoundTrip(s.start);
    NoCarryRoundTrip(s.end);
  }
}
