/** The voice-activity detector of the live-audio server: incoming PCM is cut
    into 1024-byte frames (512 16-bit samples), each frame's speech
    probability is compared with a threshold, and a state machine opens a
    speech segment on a voiced frame and closes it after enough silence,
    emitting a `speech_end` event with the segment's audio. The neural
    network that computes the probability is an input here: one inference
    outcome per frame. */
module Vad {
  import opened Common
  import opened Bytes

  /** 512 samples of 2 bytes each. */
  const FrameBytes: nat := 1024

  /** What the inference call gave for one frame: a probability, a failure
      inside the model run (counted as probability 0.0), or a detector with
      no session, whose error skips the frame altogether. */
  datatype Inference = Prob(p: real) | Failed | Unavailable

  /** The thresholds the detector was built with. */
  datatype VadConfig = VadConfig(threshold: real, minSpeechDuration: int, maxSilenceDuration: int)

  /** `isSpeaking`, `speechStartTime`, `lastSpeechTime` (null as None) and
      `speechBuffer`. */
  datatype VadState = VadState(isSpeaking: bool, speechStartTime: Option<int>, lastSpeechTime: Option<int>,
                               speechBuffer: seq<byte>)

  /** A `speech_end` event. */
  datatype SpeechEnd = SpeechEnd(audioData: seq<byte>, duration: int, timestamp: int)

  const Idle := VadState(false, None, None, [])

  /** The speaking state and the two times go together, and the speech
      buffer holds whole frames, at least one exactly while speaking. */
  predicate WellFormed(st: VadState) {
    && (st.isSpeaking <==> st.speechStartTime.Some?)
    && (st.isSpeaking <==> st.lastSpeechTime.Some?)
    && (st.isSpeaking <==> |st.speechBuffer| > 0)
    && |st.speechBuffer| % FrameBytes == 0
  }

  /** A time as JavaScript subtracts it: null counts as 0. */
  function Millis(t: Option<int>): int {
    if t.Some? then t.value else 0
  }

  /** The speech probability the state machine sees, if the frame is seen. */
  function Probability(inf: Inference): real
    requires !inf.Unavailable?
  {
    if inf.Prob? then inf.p else 0.0
  }

  // ---------------------------------------------------------------------
  // Framing

  /** The whole frames at the front of a buffer, in order. */
  function Frames(s: seq<byte>): (r: seq<seq<byte>>)
    ensures |r| == |s| / FrameBytes
    decreases |s|
  {
    if |s| < FrameBytes then [] else [s[..FrameBytes]] + Frames(s[FrameBytes..])
  }

  /** The bytes left over after the whole frames. */
  function Residual(s: seq<byte>): (r: seq<byte>)
    decreases |s|
  {
    if |s| < FrameBytes then s else Residual(s[FrameBytes..])
  }

  /** Framing loses and invents nothing: the frames followed by the
      residual are the buffer, every frame is 1024 bytes, and less than a
      frame is left. */
  lemma {:induction false} FramesMeaning(s: seq<byte>)
    ensures Flatten(Frames(s)) + Residual(s) == s
    ensures forall k :: 0 <= k < |Frames(s)| ==> |Frames(s)[k]| == FrameBytes
    ensures |Residual(s)| < FrameBytes
    decreases |s|
  {
    if |s| >= FrameBytes {
      var rest := s[FrameBytes..];
      FramesMeaning(rest);
      FlattenCons(s[..FrameBytes], Frames(rest));
      assert s[..FrameBytes] + (Flatten(Frames(rest)) + Residual(rest)) == s;
      AppendAssocBytes(s[..FrameBytes], Flatten(Frames(rest)), Residual(rest));
    } else {
      assert Flatten([]) == [];
    }
  }

  lemma AppendAssocBytes(a: seq<byte>, b: seq<byte>, c: seq<byte>)
    ensures (a + b) + c == a + (b + c)
  {
  }

  // ---------------------------------------------------------------------
  // The state machine

  /** One frame at time `now`. */
  function Step(cfg: VadConfig, st: VadState, frame: seq<byte>, inf: Inference, now: int): (VadState, seq<SpeechEnd>) {
    if inf.Unavailable? then (st, [])
    else if Probability(inf) > cfg.threshold then
      var seg := if st.isSpeaking then st else VadState(true, Some(now), st.lastSpeechTime, []);
      (seg.(lastSpeechTime := Some(now), speechBuffer := seg.speechBuffer + frame), [])
    else if st.isSpeaking then
      if now - Millis(st.lastSpeechTime) > cfg.maxSilenceDuration then
        var duration := now - Millis(st.speechStartTime);
        (Idle, if duration >= cfg.minSpeechDuration then [SpeechEnd(st.speechBuffer, duration, now)] else [])
      else (st.(speechBuffer := st.speechBuffer + frame), [])
    else (st, [])
  }

  /** The outcome of the `k`-th frame of a call; outcomes past the end of
      the script count as failed runs. */
  function InferenceAt(infs: seq<Inference>, k: nat): Inference {
    if k < |infs| then infs[k] else Failed
  }

  datatype Outcome = Outcome(state: VadState, events: seq<SpeechEnd>)

  /** The frames of one call, from the `k`-th on, all at time `now`. */
  function Run(cfg: VadConfig, st: VadState, frames: seq<seq<byte>>, infs: seq<Inference>, k: nat, now: int): Outcome
    decreases |frames|
  {
    if |frames| == 0 then Outcome(st, [])
    else
      var (st', e) := Step(cfg, st, frames[0], InferenceAt(infs, k), now);
      var rest := Run(cfg, st', frames[1..], infs, k + 1, now);
      Outcome(rest.state, e + rest.events)
  }

  /** One frame keeps the state well formed; an event it emits carries the
      whole segment, at least the minimum duration long, stamped `now`. */
  lemma StepMeaning(cfg: VadConfig, st: VadState, frame: seq<byte>, inf: Inference, now: int)
    requires WellFormed(st) && |frame| == FrameBytes
    ensures var (st', e) := Step(cfg, st, frame, inf, now);
      && WellFormed(st')
      && |e| <= 1
      && (|e| == 1 ==> e[0] == SpeechEnd(st.speechBuffer, now - st.speechStartTime.value, now)
                       && e[0].duration >= cfg.minSpeechDuration && st' == Idle)
      && (inf.Unavailable? ==> st' == st && e == [])
  {
  }

  /** A voiced frame (probability strictly above the threshold) while idle
      opens a segment holding just that frame; while speaking it extends the
      segment. */
  lemma VoicedFrame(cfg: VadConfig, st: VadState, frame: seq<byte>, inf: Inference, now: int)
    requires WellFormed(st) && !inf.Unavailable? && Probability(inf) > cfg.threshold
    ensures var (st', e) := Step(cfg, st, frame, inf, now);
      && e == [] && st'.isSpeaking && st'.lastSpeechTime == Some(now)
      && st'.speechBuffer == (if st.isSpeaking then st.speechBuffer else []) + frame
      && st'.speechStartTime == (if st.isSpeaking then st.speechStartTime else Some(now))
  {
  }

  /** An unvoiced frame while speaking extends the segment until the time
      since the last voiced frame exceeds the allowed silence; then the
      segment closes, with an event only if it lasted long enough. */
  lemma UnvoicedFrame(cfg: VadConfig, st: VadState, frame: seq<byte>, inf: Inference, now: int)
    requires WellFormed(st) && !inf.Unavailable? && Probability(inf) <= cfg.threshold
    ensures var (st', e) := Step(cfg, st, frame, inf, now);
      && (!st.isSpeaking ==> st' == st && e == [])
      && (st.isSpeaking && now - st.lastSpeechTime.value <= cfg.maxSilenceDuration ==>
            st' == st.(speechBuffer := st.speechBuffer + frame) && e == [])
      && (st.isSpeaking && now - st.lastSpeechTime.value > cfg.maxSilenceDuration ==>
            st' == Idle
            && (|e| == 1 <==> now - st.speechStartTime.value >= cfg.minSpeechDuration))
  {
  }

  /** A failed inference is treated exactly as silence. */
  lemma FailureIsSilence(cfg: VadConfig, st: VadState, frame: seq<byte>, now: int)
    ensures Step(cfg, st, frame, Failed, now) == Step(cfg, st, frame, Prob(0.0), now)
  {
  }

  /** Over a whole call the state stays well formed and every event is a
      closed segment stamped with the call's time. */
  lemma {:induction false} RunMeaning(cfg: VadConfig, st: VadState, frames: seq<seq<byte>>,
                                      infs: seq<Inference>, k: nat, now: int)
    requires WellFormed(st)
    requires forall j :: 0 <= j < |frames| ==> |frames[j]| == FrameBytes
    ensures var r := Run(cfg, st, frames, infs, k, now);
      && WellFormed(r.state)
      && forall j :: 0 <= j < |r.events| ==>
           r.events[j].timestamp == now && r.events[j].duration >= cfg.minSpeechDuration
           && |r.events[j].audioData| > 0 && |r.events[j].audioData| % FrameBytes == 0
    decreases |frames|
  {
    if |frames| > 0 {
      StepMeaning(cfg, st, frames[0], InferenceAt(infs, k), now);
      var (st', e) := Step(cfg, st, frames[0], InferenceAt(infs, k), now);
      RunMeaning(cfg, st', frames[1..], infs, k + 1, now);
      var rest := Run(cfg, st', frames[1..], infs, k + 1, now);
      var es := e + rest.events;
      assert Run(cfg, st, frames, infs, k, now) == Outcome(rest.state, es);
      forall j | 0 <= j < |es|
        ensures es[j].timestamp == now && es[j].duration >= cfg.minSpeechDuration
          && |es[j].audioData| > 0 && |es[j].audioData| % FrameBytes == 0
      {
        if j >= |e| {
          assert es[j] == rest.events[j - |e|];
        }
      }
    }
  }

  /** No frame of the call closes a segment when every segment open was
      last voiced at the call's own time. */
  predicate Quiet(st: VadState, now: int) {
    st.isSpeaking ==> st.lastSpeechTime == Some(now)
  }

  lemma {:induction false} QuietRun(cfg: VadConfig, st: VadState, frames: seq<seq<byte>>,
                                    infs: seq<Inference>, k: nat, now: int)
    requires cfg.maxSilenceDuration >= 0 && Quiet(st, now)
    ensures Run(cfg, st, frames, infs, k, now).events == []
    decreases |frames|
  {
    if |frames| > 0 {
      var (st', e) := Step(cfg, st, frames[0], InferenceAt(infs, k), now);
      assert e == [] && Quiet(st', now);
      QuietRun(cfg, st', frames[1..], infs, k + 1, now);
    }
  }

  /** All frames of one call share one timestamp, so with a non-negative
      silence limit a call ends at most one segment: after a close, a new
      segment was voiced at that same time and cannot close again. */
  lemma {:induction false} AtMostOneEnd(cfg: VadConfig, st: VadState, frames: seq<seq<byte>>,
                                        infs: seq<Inference>, k: nat, now: int)
    requires cfg.maxSilenceDuration >= 0
    ensures |Run(cfg, st, frames, infs, k, now).events| <= 1
    decreases |frames|
  {
    if |frames| > 0 {
      var (st', e) := Step(cfg, st, frames[0], InferenceAt(infs, k), now);
      if e == [] {
        AtMostOneEnd(cfg, st', frames[1..], infs, k + 1, now);
      } else {
        assert st' == Idle;
        QuietRun(cfg, st', frames[1..], infs, k + 1, now);
      }
    }
  }

  /** The state `getState` reports; `speechDuration` is 0 when there is no
      start time (or it is 0, which JavaScript treats as absent). */
  datatype Report = Report(isSpeaking: bool, speechDuration: int, bufferSize: nat, threshold: real, isInitialized: bool)

  class VoiceActivityDetector {
    const cfg: VadConfig
    var isSpeaking: bool
    var speechStartTime: Option<int>
    var lastSpeechTime: Option<int>
    var audioBuffer: seq<byte>
    var speechBuffer: seq<byte>
    /** Whether the inference session is loaded. */
    var isInitialized: bool

    function State(): VadState
      reads this
    {
      VadState(isSpeaking, speechStartTime, lastSpeechTime, speechBuffer)
    }

    predicate Valid()
      reads this
    {
      WellFormed(State()) && |audioBuffer| < FrameBytes
    }

    /** A detector after its model has loaded. */
    constructor(cfg: VadConfig)
      ensures Valid() && this.cfg == cfg && State() == Idle && audioBuffer == [] && isInitialized
    {
      this.cfg := cfg;
      isSpeaking, speechStartTime, lastSpeechTime := false, None, None;
      audioBuffer, speechBuffer := [], [];
      isInitialized := true;
    }

    /** `processAudioChunk` at time `now`, with `infs[k]` the inference
        outcome of the call's `k`-th frame: the chunk joins the buffer, every
        whole frame is run through the state machine in order, and the
        residual stays buffered. */
    method ProcessAudioChunk(chunk: seq<byte>, infs: seq<Inference>, now: int) returns (results: seq<SpeechEnd>)
      requires Valid()
      modifies this
      ensures Valid() && isInitialized == old(isInitialized)
      ensures audioBuffer == Residual(old(audioBuffer) + chunk)
      ensures var r := Run(cfg, old(State()), Frames(old(audioBuffer) + chunk), infs, 0, now);
        State() == r.state && results == r.events
    {
      ghost var total := old(audioBuffer) + chunk;
      ghost var start := State();
      ghost var r := Run(cfg, start, Frames(total), infs, 0, now);
      results := [];
      audioBuffer := audioBuffer + chunk;
      var k: nat := 0;
      while |audioBuffer| >= FrameBytes
        invariant Residual(audioBuffer) == Residual(total)
        invariant WellFormed(State()) && isInitialized == old(isInitialized)
        invariant var rest := Run(cfg, State(), Frames(audioBuffer), infs, k, now);
          rest.state == r.state && results + rest.events == r.events
        decreases |audioBuffer|
      {
        var frame := audioBuffer[..FrameBytes];
        audioBuffer := audioBuffer[FrameBytes..];
        ghost var before := State();
        ghost var tail := Run(cfg, before, [frame] + Frames(audioBuffer), infs, k, now);
        StepMeaning(cfg, before, frame, InferenceAt(infs, k), now);
        var emitted := FeedFrame(frame, InferenceAt(infs, k), now);
        assert ([frame] + Frames(audioBuffer))[1..] == Frames(audioBuffer);
        AppendAssocEvents(results, emitted, Run(cfg, State(), Frames(audioBuffer), infs, k + 1, now).events);
        results := results + emitted;
        k := k + 1;
      }
      FramesMeaning(total);
    }

    /** The body of the frame loop for one frame. */
    method FeedFrame(frame: seq<byte>, inf: Inference, now: int) returns (emitted: seq<SpeechEnd>)
      modifies this`isSpeaking, this`speechStartTime, this`lastSpeechTime, this`speechBuffer
      ensures (State(), emitted) == Step(cfg, old(State()), frame, inf, now)
    {
      emitted := [];
      if inf.Unavailable? {
        return;
      }
      var speechProb := if inf.Prob? then inf.p else 0.0;
      if speechProb > cfg.threshold {
        if !isSpeaking {
          isSpeaking := true;
          speechStartTime := Some(now);
          speechBuffer := [];
        }
        lastSpeechTime := Some(now);
        speechBuffer := speechBuffer + frame;
      } else if isSpeaking {
        var silenceDuration := now - Millis(lastSpeechTime);
        if silenceDuration > cfg.maxSilenceDuration {
          var speechDuration := now - Millis(speechStartTime);
          if speechDuration >= cfg.minSpeechDuration {
            emitted := [SpeechEnd(speechBuffer, speechDuration, now)];
          }
          isSpeaking := false;
          speechStartTime := None;
          lastSpeechTime := None;
          speechBuffer := [];
        } else {
          speechBuffer := speechBuffer + frame;
        }
      }
    }

    /** `forceEndSpeech` at time `now`: the open segment is returned if it
        is long enough; otherwise everything, the frame residual included,
        is reset. */
    method ForceEndSpeech(now: int) returns (r: Option<SpeechEnd>)
      requires Valid()
      modifies this
      ensures Valid() && isInitialized == old(isInitialized)
      ensures r.Some? <==> old(isSpeaking) && now - Millis(old(speechStartTime)) >= cfg.minSpeechDuration
      ensures r.Some? ==> r.value == SpeechEnd(old(speechBuffer), now - Millis(old(speechStartTime)), now)
                          && |r.value.audioData| > 0 && audioBuffer == old(audioBuffer)
      ensures r.None? ==> audioBuffer == []
      ensures State() == Idle
    {
      if isSpeaking && |speechBuffer| > 0 {
        var speechDuration := now - Millis(speechStartTime);
        if speechDuration >= cfg.minSpeechDuration {
          r := Some(SpeechEnd(speechBuffer, speechDuration, now));
          isSpeaking := false;
          speechStartTime := None;
          lastSpeechTime := None;
          speechBuffer := [];
          return;
        }
      }
      Reset();
      r := None;
    }

    /** `reset`: no segment, no buffered audio. */
    method Reset()
      modifies this
      ensures State() == Idle && audioBuffer == [] && isInitialized == old(isInitialized)
    {
      isSpeaking := false;
      speechStartTime := None;
      lastSpeechTime := None;
      audioBuffer := [];
      speechBuffer := [];
    }

    /** `getState` at time `now`. */
    function GetState(now: int): (r: Report)
      reads this
      ensures r.isSpeaking == isSpeaking && r.bufferSize == |speechBuffer| && r.threshold == cfg.threshold
      ensures r.speechDuration == (if speechStartTime.Some? && speechStartTime.value != 0
                                   then now - speechStartTime.value else 0)
    {
      Report(isSpeaking, if speechStartTime.Some? && speechStartTime.value != 0 then now - speechStartTime.value else 0,
             |speechBuffer|, cfg.threshold, isInitialized)
    }
  }

  lemma AppendAssocEvents(a: seq<SpeechEnd>, b: seq<SpeechEnd>, c: seq<SpeechEnd>)
    ensures (a + b) + c == a + (b + c)
  {
  }
}
