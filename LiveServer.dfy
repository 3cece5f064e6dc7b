/** The per-connection logic of the live-audio server: sentence boundaries
    for streaming speech synthesis, delta synchronisation of the chat
    history with the browser, the transcript update, the server-sent-event
    line buffer of the streamed LLM reply, the WAV duration estimate, and
    the recording header. Sockets, timers, the speech services and the LLM
    are not modelled: their results are inputs. */
module LiveServer {
  import opened Common
  import opened Bytes
  import AsrProviders

  // ---------------------------------------------------------------------
  // Sentence boundaries

  /** Non-overlapping occurrences of the code fence, as `/```/g` counts them. */
  function FenceCount(t: string): nat {
    CountFrom(t, "```", 0)
  }

  predicate InMiscSymbols(c: char) {
    0x2600 <= c as int <= 0x26FF
  }

  /** The emoji test on the last two UTF-16 code units: an astral last
      character is checked alone (it fills both units); otherwise the last
      character and, when it is not half of a pair, the one before it. */
  predicate EndsWithEmoji(t: string) {
    |t| > 0 &&
    var c := t[|t| - 1];
    if c as int >= 0x1_0000 then 0x1F300 <= c as int <= 0x1F9FF
    else InMiscSymbols(c) || (|t| >= 2 && t[|t| - 2] as int < 0x1_0000 && InMiscSymbols(t[|t| - 2]))
  }

  /** `isCompleteSentence`: whether the text streamed so far can be handed
      to speech synthesis. The rules apply in order; the first that decides
      wins. */
  predicate IsCompleteSentence(sentence: string, isFirstSentence: bool) {
    var t := JsTrim(sentence);
    if Contains(t, "```") && FenceCount(t) % 2 != 0 then false
    else if Contains(t, "<function>") then Contains(t, "</function>")
    else if EndsWith(sentence, "\n") then true
    else if EndsWith(t, ".") then !(|t| >= 2 && IsDigit(t[|t| - 2]))
    else if EndsWith(t, "?") || EndsWith(t, "!") then true
    else if EndsWith(t, "。") || EndsWith(t, "？") || EndsWith(t, "！") then true
    else if EndsWith(t, ";") || EndsWith(t, "；") then true
    else if EndsWithEmoji(t) then true
    else isFirstSentence && (EndsWith(t, ",") || EndsWith(t, "，"))
  }

  /** An odd number of fences means an open code block: never complete. */
  lemma OpenCodeBlockIncomplete(sentence: string, isFirst: bool)
    requires FenceCount(JsTrim(sentence)) % 2 == 1
    ensures !IsCompleteSentence(sentence, isFirst)
  {
  }

  /** Outside an open code block, a function call is complete exactly when
      its closing tag has arrived, whatever else the text ends with. */
  lemma FunctionCallRule(sentence: string, isFirst: bool)
    requires FenceCount(JsTrim(sentence)) % 2 == 0 && Contains(JsTrim(sentence), "<function>")
    ensures IsCompleteSentence(sentence, isFirst) <==> Contains(JsTrim(sentence), "</function>")
  {
  }

  /** Blank text is complete only through a raw trailing newline; the empty
      string never is. */
  lemma BlankSentence(sentence: string, isFirst: bool)
    requires JsTrim(sentence) == ""
    ensures IsCompleteSentence(sentence, isFirst) <==> EndsWith(sentence, "\n")
    ensures !IsCompleteSentence("", isFirst)
  {
    assert !Contains("", "```") && !Contains("", "<function>");
    assert JsTrim("") == "";
  }

  /** A period ends a sentence unless it follows a digit (a list number). */
  lemma PeriodRule(sentence: string, isFirst: bool)
    requires var t := JsTrim(sentence);
      !Contains(t, "```") && !Contains(t, "<function>") && !EndsWith(sentence, "\n") && EndsWith(t, ".")
    ensures var t := JsTrim(sentence);
      IsCompleteSentence(sentence, isFirst) <==> |t| == 1 || !IsDigit(t[|t| - 2])
  {
  }

  /** The first sentence is cut more eagerly: whatever is complete later is
      complete first, and the only extra cut is a trailing comma. */
  lemma FirstSentenceEager(sentence: string)
    ensures IsCompleteSentence(sentence, false) ==> IsCompleteSentence(sentence, true)
    ensures IsCompleteSentence(sentence, true) && !IsCompleteSentence(sentence, false) ==>
      EndsWith(JsTrim(sentence), ",") || EndsWith(JsTrim(sentence), "，")
  {
  }

  // ---------------------------------------------------------------------
  // Chat history and its delta synchronisation

  /** A history entry; two entries serialise to the same JSON text exactly
      when they are equal. */
  datatype ChatMessage = ChatMessage(role: string, content: string, messageId: Option<string>)

  /** A `chat_history_delta` message. */
  datatype Delta = Delta(startIndex: nat, messages: seq<ChatMessage>)

  /** The browser's reducer: keep the first `startIndex` entries, then the
      sent ones (`slice` clamps an index past the end). */
  function Apply(prev: seq<ChatMessage>, d: Delta): (r: seq<ChatMessage>)
    ensures d.startIndex <= |prev| ==> r == prev[..d.startIndex] + d.messages
  {
    prev[..if d.startIndex <= |prev| then d.startIndex else |prev|] + d.messages
  }

  /** The browser's history after receiving `ds` in order from an empty one. */
  function Replay(ds: seq<Delta>): seq<ChatMessage> {
    if |ds| == 0 then [] else Apply(Replay(ds[..|ds| - 1]), ds[|ds| - 1])
  }

  /** `k` is the length of the longest common prefix of `a` and `b`. */
  predicate LongestCommonPrefix(a: seq<ChatMessage>, b: seq<ChatMessage>, k: nat) {
    k <= |a| && k <= |b| && a[..k] == b[..k] && (k == |a| || k == |b| || a[k] != b[k])
  }

  /** The delta built from the longest common prefix brings the previous
      history to the current one. */
  lemma ApplyDelta(prev: seq<ChatMessage>, current: seq<ChatMessage>, k: nat)
    requires LongestCommonPrefix(prev, current, k)
    ensures Apply(prev, Delta(k, current[k..])) == current
  {
    assert current == current[..k] + current[k..];
  }

  /** The common prefix is unique, so the delta is the smallest suffix
      starting at a differing entry. */
  lemma LongestCommonPrefixUnique(a: seq<ChatMessage>, b: seq<ChatMessage>, k: nat, j: nat)
    requires LongestCommonPrefix(a, b, k) && LongestCommonPrefix(a, b, j)
    ensures k == j
  {
  }

  /** `processSpeechSegment`'s history update for a new transcript: it
      replaces a trailing user or transcript entry, else it is appended. */
  function TranscriptUpdate(history: seq<ChatMessage>, transcript: string, messageId: Option<string>): seq<ChatMessage> {
    var entry := ChatMessage("user", transcript, messageId);
    if |history| > 0 && history[|history| - 1].role in {"user", "transcript"} then
      history[..|history| - 1] + [entry]
    else history + [entry]
  }

  /** The history grows by at most one entry, keeps every entry but the
      last, and ends with the transcript as a user entry. */
  lemma TranscriptUpdateShape(history: seq<ChatMessage>, transcript: string, messageId: Option<string>)
    ensures var r := TranscriptUpdate(history, transcript, messageId);
      && |history| <= |r| <= |history| + 1
      && (|r| == |history| <==> |history| > 0 && history[|history| - 1].role in {"user", "transcript"})
      && r[|r| - 1] == ChatMessage("user", transcript, messageId)
      && (|history| > 0 ==> r[..|history| - 1] == history[..|history| - 1])
      && (|r| == |history| + 1 ==> r[..|history|] == history)
  {
  }

  /** What one LLM request carries: role and content only. */
  datatype LlmMessage = LlmMessage(role: string, content: string)

  const SystemPrompt: string := "You are a helpful AI assistant."

  function ToLlm(m: ChatMessage): LlmMessage {
    LlmMessage(m.role, m.content)
  }

  /** The request of `generateAIResponse`: the system prompt, then the last
      20 history entries with their ids dropped. */
  function LlmMessages(history: seq<ChatMessage>): (r: seq<LlmMessage>)
    ensures var n := if |history| < 20 then |history| else 20;
      && |r| == 1 + n && r[0] == LlmMessage("system", SystemPrompt)
      && forall k :: 1 <= k < |r| ==> r[k] == ToLlm(history[|history| - n + k - 1])
  {
    var recent := PySlice(history, -20, |history|);
    [LlmMessage("system", SystemPrompt)] + seq(|recent|, k requires 0 <= k < |recent| => ToLlm(recent[k]))
  }

  // ---------------------------------------------------------------------
  // The server-sent-event line buffer of the streamed reply

  /** The pieces of a text after one more character: a newline starts a new
      piece, any other character extends the last one. */
  function Extend(r: seq<string>, c: char): (r': seq<string>)
    requires |r| >= 1
    ensures |r'| >= 1
  {
    if c == '\n' then r + [""]
    else r[..|r| - 1] + [r[|r| - 1] + [c]]
  }

  /** Extending a split only touches its last piece. */
  lemma ExtendAppend(a: seq<string>, b: seq<string>, c: char)
    requires |b| >= 1
    ensures Extend(a + b, c) == a + Extend(b, c)
  {
    if c == '\n' {
      AppendAssoc(a, b, [""]);
    } else {
      assert (a + b)[..|a + b| - 1] == a + b[..|b| - 1];
      AppendAssoc(a, b[..|b| - 1], [b[|b| - 1] + [c]]);
    }
  }

  /** `s.split('\n')`. */
  function SplitLines(s: string): (r: seq<string>)
    ensures |r| >= 1
  {
    if |s| == 0 then [""]
    else Extend(SplitLines(s[..|s| - 1]), s[|s| - 1])
  }

  /** No piece holds a newline, and joining the pieces with newlines gives
      the text back: the pieces are exactly what `split` returns. */
  lemma {:induction false} SplitLinesMeaning(s: string)
    ensures forall k :: 0 <= k < |SplitLines(s)| ==> '\n' !in SplitLines(s)[k]
    ensures Join(SplitLines(s), "\n") == s
  {
    if |s| > 0 {
      var s' := s[..|s| - 1];
      var r := SplitLines(s');
      SplitLinesMeaning(s');
      assert s == s' + [s[|s| - 1]];
      if s[|s| - 1] == '\n' {
        JoinSnoc(r, "", "\n");
      } else {
        JoinExtendLast(r, [s[|s| - 1]], "\n");
      }
    }
  }

  /** A text without newlines is one piece. */
  lemma {:induction false} SplitLinesSingle(s: string)
    requires '\n' !in s
    ensures SplitLines(s) == [s]
  {
    if |s| > 0 {
      assert '\n' !in s[..|s| - 1];
      SplitLinesSingle(s[..|s| - 1]);
      assert s[..|s| - 1] + [s[|s| - 1]] == s;
    }
  }

  /** Splitting `x + y` is splitting `x`, then splitting its unfinished last
      piece followed by `y`: this is what carrying the partial line over to
      the next chunk relies on. */
  lemma {:induction false} SplitLinesAppend(x: string, y: string)
    ensures var r := SplitLines(x);
      SplitLines(x + y) == r[..|r| - 1] + SplitLines(r[|r| - 1] + y)
    decreases |y|
  {
    var r := SplitLines(x);
    var l := r[|r| - 1];
    if |y| == 0 {
      SplitLinesMeaning(x);
      SplitLinesSingle(l);
      assert x + y == x && l + y == l;
    } else {
      var y', c := y[..|y| - 1], y[|y| - 1];
      SplitLinesAppend(x, y');
      var a, b := r[..|r| - 1], SplitLines(l + y');
      assert (x + y)[..|x + y| - 1] == x + y' && (x + y)[|x + y| - 1] == c;
      assert (l + y)[..|l + y| - 1] == l + y' && (l + y)[|l + y| - 1] == c;
      assert SplitLines(x + y) == Extend(a + b, c);
      assert SplitLines(l + y) == Extend(b, c);
      ExtendAppend(a, b, c);
    }
  }

  /** `jsonData.choices[0]?.delta?.content || ''`, or None where evaluating
      it raises TypeError. */
  function DeltaContent(j: Json): (r: Option<string>)
  {
    match j
    case JObj(fields) =>
      if "choices" !in fields || fields["choices"].JNull? then None
      else if !fields["choices"].JArr? || |fields["choices"].items| == 0 then Some("")
      else
        var first := fields["choices"].items[0];
        if first.JObj? && "delta" in first.fields && first.fields["delta"].JObj?
           && "content" in first.fields["delta"].fields && first.fields["delta"].fields["content"].JStr?
        then Some(first.fields["delta"].fields["content"].s)
        else Some("")
    case _ => None
  }

  /** What one complete line adds to the reply. Nothing comes from a blank
      or `[DONE]` line, a line not starting with "data: ", JSON that does not
      parse (a payload absent from `parsed`), a TypeError, or empty content. */
  function LineContent(line: string, parsed: map<string, Json>): (r: Option<string>)
    ensures r.Some? ==> r.value != ""
  {
    var t := JsTrim(line);
    if t == "" || t == "[DONE]" || !StartsWith(t, "data: ") then None
    else
      var payload := t[6..];
      if payload !in parsed then None
      else match DeltaContent(parsed[payload])
        case None => None
        case Some(c) => if c == "" then None else Some(c)
  }

  /** The pieces `read` finds in `lines`, in order. */
  function Collect(read: string -> Option<string>, lines: seq<string>): (r: seq<string>)
    ensures |r| <= |lines|
  {
    if |lines| == 0 then []
    else
      var rest := Collect(read, lines[..|lines| - 1]);
      match read(lines[|lines| - 1])
      case None => rest
      case Some(c) => rest + [c]
  }

  lemma {:induction false} CollectAppend(read: string -> Option<string>, a: seq<string>, b: seq<string>)
    ensures Collect(read, a + b) == Collect(read, a) + Collect(read, b)
    decreases |b|
  {
    if |b| == 0 {
      assert a + b == a;
    } else {
      CollectAppend(read, a, b[..|b| - 1]);
      assert (a + b)[..|a + b| - 1] == a + b[..|b| - 1];
    }
  }

  /** The line reader of one stream, given its parsed payloads. */
  function Reader(parsed: map<string, Json>): string -> Option<string> {
    line => LineContent(line, parsed)
  }


  /** The last piece of `s.split('\n')`: the line still being received. */
  function Carried(s: string): string {
    var lines := SplitLines(s);
    lines[|lines| - 1]
  }

  /** The complete lines of `s`. */
  function CompleteLines(s: string): seq<string> {
    var lines := SplitLines(s);
    lines[..|lines| - 1]
  }

  /** The content pieces of every complete line of a stream text. */
  function StreamPieces(read: string -> Option<string>, text: string): seq<string> {
    Collect(read, CompleteLines(text))
  }

  /** Which pieces the buffered stream yields depends only on the text
      received, not on how it was cut into chunks: after `x`, the carried
      line and a next chunk `y` yield exactly the pieces of `x + y` that
      `x` alone did not. */
  lemma StreamPiecesAppend(read: string -> Option<string>, x: string, y: string)
    ensures StreamPieces(read, x + y) == StreamPieces(read, x) + StreamPieces(read, Carried(x) + y)
    ensures Carried(x + y) == Carried(Carried(x) + y)
  {
    var r := SplitLines(x);
    var a := r[..|r| - 1];
    var t := SplitLines(Carried(x) + y);
    SplitLinesAppend(x, y);
    assert SplitLines(x + y) == a + t;
    DropLastAppend(a, t);
    assert CompleteLines(x + y) == a + CompleteLines(Carried(x) + y);
    CollectAppend(read, a, CompleteLines(Carried(x) + y));
  }

  // ---------------------------------------------------------------------
  // Cutting the reply into sentences

  /** `currentSentence`, `isFirstSentence` and the `llm_sentence` texts sent. */
  datatype Segmenter = Segmenter(current: string, isFirst: bool, sentences: seq<string>)

  const Fresh := Segmenter("", true, [])

  /** The sentence-boundary test of the server. */
  function Boundary(): (string, bool) -> bool {
    (sentence, isFirst) => IsCompleteSentence(sentence, isFirst)
  }

  /** One content piece: it is added to the current sentence, which is cut
      off when `complete` says so. */
  function Feed(complete: (string, bool) -> bool, st: Segmenter, piece: string): Segmenter {
    var cur := st.current + piece;
    if complete(cur, st.isFirst) then Segmenter("", false, st.sentences + [cur])
    else st.(current := cur)
  }

  function Segment(complete: (string, bool) -> bool, st: Segmenter, pieces: seq<string>): Segmenter {
    if |pieces| == 0 then st
    else Feed(complete, Segment(complete, st, pieces[..|pieces| - 1]), pieces[|pieces| - 1])
  }

  /** Every sentence sent was complete when cut, the first one judged as a
      first sentence and the others not; `isFirst` holds until one is cut. */
  predicate WellCut(complete: (string, bool) -> bool, st: Segmenter) {
    && st.isFirst == (|st.sentences| == 0)
    && forall k :: 0 <= k < |st.sentences| ==> complete(st.sentences[k], k == 0)
  }

  /** Cutting loses and repeats nothing: the sentences sent, followed by the
      current one, are the text received. Earlier sentences are kept and
      every cut is well placed. */
  lemma {:induction false} SegmentMeaning(complete: (string, bool) -> bool, st: Segmenter, pieces: seq<string>)
    requires WellCut(complete, st)
    ensures var r := Segment(complete, st, pieces);
      && Concat(r.sentences) + r.current == Concat(st.sentences) + st.current + Concat(pieces)
      && st.sentences <= r.sentences
      && WellCut(complete, r)
  {
    if |pieces| > 0 {
      var ps := pieces[..|pieces| - 1];
      var p := pieces[|pieces| - 1];
      SegmentMeaning(complete, st, ps);
      var m := Segment(complete, st, ps);
      assert ps + [p] == pieces;
      ConcatSnoc(ps, p);
      var cur := m.current + p;
      var r := Segment(complete, st, pieces);
      assert r == Feed(complete, m, p);
      var before := Concat(st.sentences) + st.current;
      AppendAssoc(Concat(m.sentences), m.current, p);
      AppendAssoc(before, Concat(ps), p);
      assert Concat(m.sentences) + cur == before + Concat(pieces);
      if complete(cur, m.isFirst) {
        ConcatSnoc(m.sentences, cur);
        assert r.sentences == m.sentences + [cur] && r.current == "";
        assert Concat(r.sentences) + r.current == Concat(m.sentences) + cur;
      }
    }
  }

  lemma {:induction false} SegmentAppend(complete: (string, bool) -> bool, st: Segmenter, a: seq<string>, b: seq<string>)
    ensures Segment(complete, st, a + b) == Segment(complete, Segment(complete, st, a), b)
    decreases |b|
  {
    if |b| == 0 {
      assert a + b == a;
    } else {
      SegmentAppend(complete, st, a, b[..|b| - 1]);
      assert (a + b)[..|a + b| - 1] == a + b[..|b| - 1];
    }
  }

  /** Feeding the text `x` and then a chunk `y` as the data handler sees it
      (the carried line followed by `y`) carries the same partial line and
      cuts the same sentences as feeding `x + y` at once. */
  lemma StreamStep(complete: (string, bool) -> bool, read: string -> Option<string>, x: string, y: string,
                   cut: Segmenter, next: Segmenter)
    requires cut == Segment(complete, Fresh, StreamPieces(read, x))
    requires next == Segment(complete, cut, Collect(read, CompleteLines(Carried(x) + y)))
    ensures Carried(Carried(x) + y) == Carried(x + y)
    ensures next == Segment(complete, Fresh, StreamPieces(read, x + y))
  {
    StreamPiecesAppend(read, x, y);
    SegmentAppend(complete, Fresh, StreamPieces(read, x), StreamPieces(read, Carried(x) + y));
  }

  /** How the trailing partial line is handled at the end of the stream. */
  datatype EndLine = EndThrows | EndAdds(content: string)

  /** The end handler's look at the carried line: it is parsed outside the
      per-line guard, so malformed JSON or a TypeError aborts the handler. */
  function EndContent(buffer: string, parsed: map<string, Json>): (r: EndLine)
  {
    var t := JsTrim(buffer);
    if buffer == "" || t == "" || t == "[DONE]" || !StartsWith(t, "data: ") then EndAdds("")
    else
      var payload := t[6..];
      if payload !in parsed then EndThrows
      else match DeltaContent(parsed[payload])
        case None => EndThrows
        case Some(c) => EndAdds(c)
  }

  /** The final assistant content as the end handler computes it: the tail
      sentence is appended to a text that already holds it. */
  function FinalContentAsWritten(st: Segmenter, extra: string): string {
    var tail := st.current + extra;
    var accumulated := Concat(st.sentences) + tail;
    if JsTrim(tail) != "" then accumulated + tail else Concat(st.sentences)
  }

  /** The final assistant content with the tail counted once. */
  function FinalContent(st: Segmenter, extra: string): string {
    var tail := st.current + extra;
    if JsTrim(tail) != "" then Concat(st.sentences) + tail else Concat(st.sentences)
  }

  /** A reply "Hi" with no sentence end is stored as "HiHi" as written. */
  lemma TailRepeatedAsWritten()
    ensures FinalContentAsWritten(Fresh, "Hi") == "HiHi"
    ensures FinalContent(Fresh, "Hi") == "Hi"
  {
    assert JsTrim("Hi") == "Hi";
  }

  /** The two end handlers differ exactly by a second copy of a non-blank
      tail; with a blank tail they store the same reply. */
  lemma AsWrittenRepeatsTail(st: Segmenter, extra: string)
    ensures var tail := st.current + extra;
      FinalContentAsWritten(st, extra) == FinalContent(st, extra) + (if JsTrim(tail) != "" then tail else "")
  {
    var tail := st.current + extra;
    if JsTrim(tail) != "" {
      AppendAssoc(Concat(st.sentences), tail, tail);
    } else {
      assert Concat(st.sentences) + "" == Concat(st.sentences);
    }
  }

  /** With the tail counted once, the stored reply is everything received,
      except a blank tail, which is not stored. */
  lemma FinalContentIsReceived(complete: (string, bool) -> bool, pieces: seq<string>, extra: string)
    ensures var st := Segment(complete, Fresh, pieces);
      FinalContent(st, extra) == (if JsTrim(st.current + extra) != "" then Concat(pieces) + extra
                                  else Concat(st.sentences))
  {
    var st := Segment(complete, Fresh, pieces);
    SegmentMeaning(complete, Fresh, pieces);
    assert Concat(st.sentences) + st.current == Concat(pieces) by {
      assert Concat(Fresh.sentences) + Fresh.current == "";
    }
    AppendAssoc(Concat(st.sentences), st.current, extra);
  }

  // ---------------------------------------------------------------------
  // WAV duration and the recording header

  /** A JavaScript number as `Math.floor` of a quotient can produce it. */
  datatype JsNumber = Finite(value: int) | Infinity | NaN

  /** `calculateAudioDuration`: milliseconds of audio after a 44-byte
      header, from the rate, channels and sample width stored in it. */
  function AudioDuration(buffer: seq<byte>): (r: JsNumber)
  {
    if |buffer| < 44 then Finite(0)
    else
      var sampleRate := ReadUInt32LE(buffer, 24);
      var channels := ReadUInt16LE(buffer, 22);
      var bits := ReadUInt16LE(buffer, 34);
      var dataSize := |buffer| - 44;
      var denominator := sampleRate * channels * bits;
      if denominator == 0 then (if dataSize == 0 then NaN else Infinity)
      else Finite(dataSize * 8 * 1000 / denominator)
  }

  /** Reading back a buffer made by `createWavBuffer` gives the duration of
      its samples in whole milliseconds. */
  lemma AudioDurationRoundTrip(f: AsrProviders.WavFormat, pcm: seq<byte>)
    requires AsrProviders.Fits(f, |pcm|) && f.sampleRate * f.channels * f.bitsPerSample > 0
    ensures AudioDuration(AsrProviders.WavHeader(f, |pcm|) + pcm)
         == Finite(|pcm| * 8000 / (f.sampleRate * f.channels * f.bitsPerSample))
  {
    var h := AsrProviders.WavHeader(f, |pcm|);
    AsrProviders.WavHeaderFields(f, |pcm|);
    var b := h + pcm;
    assert b[..44] == h;
    ReadAt(b, h[24..28], 24);
    ReadAt(h, h[24..28], 24);
    ReadAt(b, h[22..24], 22);
    ReadAt(h, h[22..24], 22);
    ReadAt(b, h[34..36], 34);
    ReadAt(h, h[34..36], 34);
  }

  /** At the default 16 kHz mono 16-bit format, one millisecond is 32 bytes. */
  lemma DefaultAudioDuration(pcm: seq<byte>)
    requires 36 + |pcm| < Two32
    ensures AudioDuration(AsrProviders.WavHeader(RecordingFormat, |pcm|) + pcm) == Finite(|pcm| / 32)
  {
    AudioDurationRoundTrip(RecordingFormat, pcm);
    assert |pcm| * 8000 / 256000 == |pcm| / 32;
  }

  /** The format `saveRecording` writes. */
  const RecordingFormat := AsrProviders.WavFormat(16000, 1, 16)

  /** The header `saveRecording` writes, with its literal field values. */
  function RecordingHeader(dataSize: nat): (r: seq<byte>)
    requires 36 + dataSize < Two32
    ensures |r| == 44
  {
    Ascii("RIFF") + LE32(36 + dataSize) + Ascii("WAVE")
    + Ascii("fmt ") + LE32(16) + LE16(1) + LE16(1) + LE32(16000)
    + LE32(32000) + LE16(2) + LE16(16)
    + Ascii("data") + LE32(dataSize)
  }

  /** The recording header is byte for byte the one `createWavBuffer` writes
      with its default options. */
  lemma RecordingHeaderIsWavHeader(dataSize: nat)
    requires 36 + dataSize < Two32
    ensures AsrProviders.Fits(AsrProviders.Resolve(AsrProviders.WavOptions(None, None, None)), dataSize)
    ensures RecordingHeader(dataSize) == AsrProviders.WavHeader(AsrProviders.Resolve(AsrProviders.WavOptions(None, None, None)), dataSize)
  {
    assert AsrProviders.Resolve(AsrProviders.WavOptions(None, None, None)) == RecordingFormat;
    assert AsrProviders.ByteRate(RecordingFormat) == 32000;
    assert AsrProviders.BlockAlign(RecordingFormat) == 2;
  }

  /** What `saveRecording` does: nothing for an empty recording, a file of
      header and chunks, or RangeError when the size field overflows. */
  datatype SaveOutcome = NothingRecorded | Saved(file: seq<byte>) | RangeError

  // ---------------------------------------------------------------------
  // The connection

  class ConnectionHandler {
    /** `isCompleteSentence`, the boundary test this connection cuts with. */
    const complete: (string, bool) -> bool
    var messageHistory: seq<ChatMessage>
    var lastSyncedHistory: seq<ChatMessage>
    var lastProcessedTranscript: Option<string>
    /** The `chat_history_delta` messages sent so far, in order. */
    var sent: seq<Delta>
    var audioChunks: seq<seq<byte>>
    var isRecording: bool

    /** The browser, replaying every delta sent, holds the last synced history. */
    predicate Valid()
      reads this
    {
      Replay(sent) == lastSyncedHistory
    }

    constructor()
      ensures Valid() && complete == Boundary()
      ensures messageHistory == [] && lastSyncedHistory == [] && lastProcessedTranscript == None
      ensures sent == [] && audioChunks == [] && !isRecording
    {
      complete := Boundary();
      messageHistory, lastSyncedHistory, lastProcessedTranscript := [], [], None;
      sent, audioChunks, isRecording := [], [], false;
    }

    /** The prefix scan of `syncChatHistory`. */
    static method DiffStart(last: seq<ChatMessage>, current: seq<ChatMessage>) returns (k: nat)
      ensures LongestCommonPrefix(last, current, k)
    {
      k := 0;
      while k < |last| && k < |current| && last[k] == current[k]
        invariant k <= |last| && k <= |current| && last[..k] == current[..k]
      {
        assert last[..k + 1] == last[..k] + [last[k]];
        assert current[..k + 1] == current[..k] + [current[k]];
        k := k + 1;
      }
    }

    /** `syncChatHistory`: sends the entries from the first difference on,
      after which the browser's copy equals the server's history. */
    method SyncChatHistory()
      requires Valid()
      modifies this`lastSyncedHistory, this`sent
      ensures Valid() && lastSyncedHistory == messageHistory
      ensures exists k: nat :: LongestCommonPrefix(old(lastSyncedHistory), messageHistory, k)
                          && sent == old(sent) + [Delta(k, messageHistory[k..])]
    {
      var k := DiffStart(lastSyncedHistory, messageHistory);
      ApplyDelta(lastSyncedHistory, messageHistory, k);
      sent := sent + [Delta(k, messageHistory[k..])];
      assert sent[..|sent| - 1] == old(sent);
      lastSyncedHistory := messageHistory;
    }

    /** The transcript step of `processSpeechSegment` for the text the
        recogniser returned: blank text and a repeat of the last transcript
        change nothing; otherwise the history is updated and synced. */
    method OnTranscript(text: string, messageId: Option<string>)
      requires Valid()
      modifies this`messageHistory, this`lastSyncedHistory, this`lastProcessedTranscript, this`sent
      ensures Valid()
      ensures var t := JsTrim(text);
        if t == "" || old(lastProcessedTranscript) == Some(t) then
          && messageHistory == old(messageHistory) && sent == old(sent)
          && lastProcessedTranscript == old(lastProcessedTranscript)
        else
          && lastProcessedTranscript == Some(t)
          && messageHistory == TranscriptUpdate(old(messageHistory), t, messageId)
          && lastSyncedHistory == messageHistory && |sent| == |old(sent)| + 1
    {
      var transcript := JsTrim(text);
      if transcript == "" || lastProcessedTranscript == Some(transcript) {
        return;
      }
      lastProcessedTranscript := Some(transcript);
      messageHistory := TranscriptUpdate(messageHistory, transcript, messageId);
      SyncChatHistory();
    }

    /** The start of `generateAIResponse`: the request is built from the
        history, then an empty assistant entry is added and synced. */
    method StartResponse(messageId: Option<string>) returns (request: seq<LlmMessage>)
      requires Valid()
      modifies this`messageHistory, this`lastSyncedHistory, this`sent
      ensures Valid() && lastSyncedHistory == messageHistory
      ensures request == LlmMessages(old(messageHistory))
      ensures messageHistory == old(messageHistory) + [ChatMessage("assistant", "", messageId)]
    {
      request := LlmMessages(messageHistory);
      messageHistory := messageHistory + [ChatMessage("assistant", "", messageId)];
      SyncChatHistory();
    }

    /** `lastMessage.content = ...` followed by `syncChatHistory()`: the last
        entry gets new content, everything before it is kept, and the browser
        is brought up to date. */
    method SetLastContent(content: string)
      requires Valid() && |messageHistory| > 0
      modifies this`messageHistory, this`lastSyncedHistory, this`sent
      ensures Valid() && lastSyncedHistory == messageHistory
      ensures var n := |old(messageHistory)|;
        messageHistory == old(messageHistory)[..n - 1] + [old(messageHistory)[n - 1].(content := content)]
    {
      var n := |messageHistory|;
      messageHistory := messageHistory[..n - 1] + [messageHistory[n - 1].(content := content)];
      SyncChatHistory();
    }

    /** A binary message: recording starts with the first chunk. */
    method OnAudio(chunk: seq<byte>)
      modifies this`audioChunks, this`isRecording
      ensures isRecording
      ensures audioChunks == (if old(isRecording) then old(audioChunks) else []) + [chunk]
    {
      if !isRecording {
        audioChunks := [];
        isRecording := true;
      }
      audioChunks := audioChunks + [chunk];
    }

    /** The header writes of `saveRecording`: its literal format fields are
        those of `RecordingFormat`, so they are the writes of
        `createWavBuffer` for that format. */
    static method WriteRecordingHeader(header: array<byte>, dataSize: nat)
      requires header.Length == 44 && 36 + dataSize < Two32
      modifies header
      ensures header[..] == RecordingHeader(dataSize)
    {
      RecordingHeaderIsWavHeader(dataSize);
      assert AsrProviders.Resolve(AsrProviders.WavOptions(None, None, None)) == RecordingFormat;
      AsrProviders.WriteHeader(header, RecordingFormat, dataSize);
    }

    /** `saveRecording`: the header written field by field with the fixed
        16 kHz mono 16-bit format, followed by the chunks; it is the header
        `createWavBuffer` writes for the same data. */
    method SaveRecording() returns (r: SaveOutcome)
      ensures |audioChunks| == 0 <==> r.NothingRecorded?
      ensures r.RangeError? <==> |audioChunks| > 0 && 36 + TotalLength(audioChunks) >= Two32
      ensures r.Saved? ==> r.file == RecordingHeader(TotalLength(audioChunks)) + Flatten(audioChunks)
    {
      if |audioChunks| == 0 {
        return NothingRecorded;
      }
      var dataSize := TotalLength(audioChunks);
      if 36 + dataSize >= Two32 {
        return RangeError;
      }
      var header := new byte[44](_ => 0);
      WriteRecordingHeader(header, dataSize);
      r := Saved(header[..] + Flatten(audioChunks));
    }
  }

  /** The end handler's result: it completes, or an exception from parsing
      the carried line aborts it before `ai_response_complete`. */
  datatype EndOutcome = Completed | Aborted

  /** One streamed reply of `generateAIResponse`: the line buffer, the
      sentence being built, the text accumulated so far and the sentences
      handed to speech synthesis. The reply is the last history entry. */
  class AiResponse {
    const handler: ConnectionHandler
    /** The history entries before the reply. */
    ghost const earlier: seq<ChatMessage>
    const messageId: Option<string>
    /** What `JSON.parse` returns for each payload of this reply's stream. */
    const parsed: map<string, Json>
    /** The per-line step of the data handler, `LineContent` over `parsed`. */
    const read: string -> Option<string>
    var buffer: string
    var current: string
    var isFirst: bool
    var sentences: seq<string>
    var accumulated: string
    var firstToken: bool

    function Cut(): Segmenter
      reads this
    {
      Segmenter(current, isFirst, sentences)
    }

    /** The reply entry holds the sentences cut so far, the accumulated text
        is those sentences and the current one, and the browser is in sync. */
    ghost predicate Valid()
      reads this, handler
    {
      && handler.Valid()
      && handler.lastSyncedHistory == handler.messageHistory
      && handler.messageHistory == earlier + [ChatMessage("assistant", Concat(sentences), messageId)]
      && accumulated == Concat(sentences) + current
      && isFirst == (|sentences| == 0)
    }

    /** The start of `generateAIResponse`: the request is built, the empty
        assistant entry is added and synced, and nothing is buffered. */
    constructor(h: ConnectionHandler, id: Option<string>, payloads: map<string, Json>)
      requires h.Valid()
      modifies h`messageHistory, h`lastSyncedHistory, h`sent
      ensures Valid() && handler == h && earlier == old(h.messageHistory) && messageId == id
      ensures parsed == payloads && read == Reader(payloads)
      ensures Cut() == Fresh && buffer == "" && !firstToken
    {
      handler, earlier, messageId, parsed, read := h, h.messageHistory, id, payloads, Reader(payloads);
      buffer, current, isFirst, sentences, accumulated, firstToken := "", "", true, [], "", false;
      new;
      var _ := h.StartResponse(id);
    }

    /** One non-empty content piece of the data handler: it is added to the
        current sentence; a complete sentence is stored in the reply entry,
        synced and handed to speech synthesis. */
    method FeedPiece(piece: string)
      requires Valid()
      modifies this, handler`messageHistory, handler`lastSyncedHistory, handler`sent
      ensures Valid()
      ensures Cut() == Feed(handler.complete, old(Cut()), piece)
      ensures firstToken && buffer == old(buffer)
    {
      firstToken := true;
      current := current + piece;
      accumulated := accumulated + piece;
      AppendAssoc(Concat(sentences), old(current), piece);
      if handler.complete(current, isFirst) {
        handler.SetLastContent(accumulated);
        ConcatSnoc(sentences, current);
        sentences := sentences + [current];
        current := "";
        isFirst := false;
        assert accumulated + "" == accumulated;
      }
    }

    /** One complete line of the data handler: its content, if any, is fed
        to the sentence cutter; anything else is skipped. */
    method OnLine(line: string)
      requires Valid()
      modifies this, handler`messageHistory, handler`lastSyncedHistory, handler`sent
      ensures Valid()
      ensures Cut() == Segment(handler.complete, old(Cut()), Collect(read, [line]))
      ensures buffer == old(buffer)
    {
      var content := read(line);
      assert [line][..0] == [];
      if content.Some? {
        FeedPiece(content.value);
      }
    }

    /** The data handler, run to completion: the chunk is added to the
        buffer, every complete line is read, and the partial last line is
        kept. The pause at the synthesis `await` is not modelled. */
    method OnData(chunk: string)
      requires Valid()
      modifies this, handler`messageHistory, handler`lastSyncedHistory, handler`sent
      ensures Valid()
      ensures buffer == Carried(old(buffer) + chunk)
      ensures Cut() == Segment(handler.complete, old(Cut()), Collect(read, CompleteLines(old(buffer) + chunk)))
    {
      var lines := SplitLines(buffer + chunk);
      buffer := lines[|lines| - 1];
      ghost var start := Cut();
      var k := 0;
      while k < |lines| - 1
        invariant 0 <= k <= |lines| - 1
        invariant Valid() && buffer == lines[|lines| - 1]
        invariant Cut() == Segment(handler.complete, start, Collect(read, lines[..k]))
      {
        ghost var done := Collect(read, lines[..k]);
        OnLine(lines[k]);
        TakeSnoc(lines, k);
        CollectAppend(read, lines[..k], [lines[k]]);
        SegmentAppend(handler.complete, start, done, Collect(read, [lines[k]]));
        k := k + 1;
      }
    }

    /** The end handler, with the tail sentence counted once: the carried
        line is read, then a non-blank tail is spoken and the reply entry
        set to everything received. An unreadable carried line aborts it
        with nothing changed. */
    method OnEnd() returns (r: EndOutcome)
      requires Valid()
      modifies this, handler`messageHistory, handler`lastSyncedHistory, handler`sent
      ensures handler.Valid() && handler.lastSyncedHistory == handler.messageHistory
      ensures r.Aborted? <==> EndContent(old(buffer), parsed).EndThrows?
      ensures r.Aborted? ==> handler.messageHistory == old(handler.messageHistory)
      ensures r.Completed? ==>
        (handler.messageHistory == earlier
           + [ChatMessage("assistant", FinalContent(old(Cut()), EndContent(old(buffer), parsed).content), messageId)])
      ensures r.Completed? && JsTrim(old(current) + EndContent(old(buffer), parsed).content) == "" ==>
        (handler.messageHistory == earlier
           + [ChatMessage("assistant", FinalContentAsWritten(old(Cut()), EndContent(old(buffer), parsed).content), messageId)])
    {
      var line := EndContent(buffer, parsed);
      if line.EndThrows? {
        return Aborted;
      }
      if line.content != "" {
        current := current + line.content;
        accumulated := accumulated + line.content;
      } else {
        assert current + line.content == current;
      }
      assert current == old(current) + line.content;
      ghost var final := FinalContent(old(Cut()), line.content);
      if JsTrim(current) != "" {
        AppendAssoc(Concat(sentences), old(current), line.content);
        assert final == accumulated;
        handler.SetLastContent(accumulated);
      } else {
        assert final == Concat(sentences);
      }
      AsWrittenRepeatsTail(old(Cut()), line.content);
      r := Completed;
    }
  }

  /** A data event after the stream text `x`: the reply is then as if
      `x + chunk` had arrived at once. */
  method FeedChunk(response: AiResponse, ghost x: string, chunk: string)
    requires response.Valid()
    requires response.buffer == Carried(x)
    requires response.Cut() == Segment(response.handler.complete, Fresh, StreamPieces(response.read, x))
    modifies response, response.handler`messageHistory, response.handler`lastSyncedHistory, response.handler`sent
    ensures response.Valid()
    ensures response.buffer == Carried(x + chunk)
    ensures response.Cut() == Segment(response.handler.complete, Fresh, StreamPieces(response.read, x + chunk))
  {
    ghost var cut := response.Cut();
    response.OnData(chunk);
    StreamStep(response.handler.complete, response.read, x, chunk, cut, response.Cut());
  }

  /** Every data event of a reply, in order, from the start of the stream,
      each run to completion before the next. */
  method StreamChunks(response: AiResponse, chunks: seq<string>)
    requires response.Valid() && response.Cut() == Fresh && response.buffer == ""
    modifies response, response.handler`messageHistory, response.handler`lastSyncedHistory, response.handler`sent
    ensures response.Valid()
    ensures response.buffer == Carried(Concat(chunks))
    ensures response.Cut() == Segment(response.handler.complete, Fresh, StreamPieces(response.read, Concat(chunks)))
  {
    var i := 0;
    while i < |chunks|
      invariant 0 <= i <= |chunks|
      invariant response.Valid()
      invariant response.buffer == Carried(Concat(chunks[..i]))
      invariant response.Cut() == Segment(response.handler.complete, Fresh, StreamPieces(response.read, Concat(chunks[..i])))
    {
      FeedChunk(response, Concat(chunks[..i]), chunks[i]);
      ConcatTakeSnoc(chunks, i);
      i := i + 1;
    }
    assert chunks[..i] == chunks;
  }

  /** A whole reply, chunk by chunk, then the end of the stream, each
      handler run to completion before the next: the stored reply depends
      only on the concatenated stream text. */
  method StreamReply(response: AiResponse, chunks: seq<string>) returns (r: EndOutcome)
    requires response.Valid() && response.Cut() == Fresh && response.buffer == ""
    modifies response, response.handler`messageHistory, response.handler`lastSyncedHistory, response.handler`sent
    ensures var text := Concat(chunks);
      var end := EndContent(Carried(text), response.parsed);
      && (r.Aborted? <==> end.EndThrows?)
      && (r.Completed? ==>
            (response.handler.messageHistory == response.earlier
               + [ChatMessage("assistant", FinalContent(Segment(response.handler.complete, Fresh, StreamPieces(response.read, text)), end.content),
                              response.messageId)]))
    ensures var text := Concat(chunks);
      var end := EndContent(Carried(text), response.parsed);
      var st := Segment(response.handler.complete, Fresh, StreamPieces(response.read, text));
      r.Completed? && JsTrim(st.current + end.content) == "" ==>
        response.handler.messageHistory == response.earlier
          + [ChatMessage("assistant", FinalContentAsWritten(st, end.content), response.messageId)]
  {
    StreamChunks(response, chunks);
    r := response.OnEnd();
  }
}
