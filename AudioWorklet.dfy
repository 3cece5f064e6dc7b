/** The two audio worklet processors of the live-audio browser client. The
    capture processor cuts the microphone stream into frames of 1024
    samples and converts each frame to 16-bit PCM; the playback processor
    keeps a queue of received samples, plays them block by block into the
    output channels and tells the page once when the queue has run dry.
    Samples are exact reals: the browser's single-precision rounding and
    the mono mix-down of several input channels are not modelled. */
module AudioWorklet {
  import opened Common

  /** A sample in [-1, 1] nominally; nothing forces it to be. */
  type Sample = real

  /** `CHUNK_SIZE`: the number of samples per frame sent to the server. */
  const ChunkSize: nat := 1024

  /** The samples of consecutive frames, one after the other. */
  function Joined(frames: seq<seq<Sample>>): seq<Sample> {
    if |frames| == 0 then [] else frames[0] + Joined(frames[1..])
  }

  /** The whole frames a capture stream is cut into, in order. */
  function Frames(s: seq<Sample>): (r: seq<seq<Sample>>)
    ensures |r| == |s| / ChunkSize
    ensures forall k :: 0 <= k < |r| ==> |r[k]| == ChunkSize
    decreases |s|
  {
    if |s| < ChunkSize then [] else [s[..ChunkSize]] + Frames(s[ChunkSize..])
  }

  /** The samples left over after the whole frames. */
  function Leftover(s: seq<Sample>): (r: seq<Sample>)
    ensures |r| < ChunkSize
    decreases |s|
  {
    if |s| < ChunkSize then s else Leftover(s[ChunkSize..])
  }

  /** The frames followed by the leftover give back the stream: nothing is
      lost, duplicated or reordered. */
  lemma {:induction false} FramesCover(s: seq<Sample>)
    ensures Joined(Frames(s)) + Leftover(s) == s
    decreases |s|
  {
    if |s| >= ChunkSize {
      var rest := s[ChunkSize..];
      FramesCover(rest);
      assert Frames(s)[1..] == Frames(rest);
      calc {
        Joined(Frames(s)) + Leftover(s);
        (s[..ChunkSize] + Joined(Frames(rest))) + Leftover(rest);
        { AppendAssoc(s[..ChunkSize], Joined(Frames(rest)), Leftover(rest)); }
        s[..ChunkSize] + (Joined(Frames(rest)) + Leftover(rest));
        s[..ChunkSize] + rest;
      }
      assert s[..ChunkSize] + s[ChunkSize..] == s;
    }
  }

  /** `Math.max(-1, Math.min(1, x))`. */
  function Clamp(x: real): (r: real)
    ensures -1.0 <= r <= 1.0
    ensures -1.0 <= x <= 1.0 ==> r == x
  {
    if x < -1.0 then -1.0 else if x > 1.0 then 1.0 else x
  }

  /** Storing a number into an `Int16Array` element truncates it toward
      zero; the values reaching it here are already within 16 bits. */
  function Truncate(x: real): (r: int)
    ensures x >= 0.0 ==> 0 <= r && r as real <= x < r as real + 1.0
    ensures x < 0.0 ==> r <= 0 && r as real - 1.0 < x <= r as real
  {
    if x >= 0.0 then x.Floor else -((-x).Floor)
  }

  /** The 16-bit PCM value of a sample: clamped, then scaled by 0x8000
      below zero and by 0x7FFF otherwise. */
  function Pcm(x: Sample): (r: int)
    ensures -32768 <= r <= 32767
    ensures x >= 1.0 ==> r == 32767
    ensures x <= -1.0 ==> r == -32768
    ensures r > 0 ==> x > 0.0
    ensures r < 0 ==> x < 0.0
  {
    var s := Clamp(x);
    Truncate(if s < 0.0 then s * 32768.0 else s * 32767.0)
  }

  /** A louder sample never gets a smaller PCM value. */
  lemma PcmMonotone(x: Sample, y: Sample)
    requires x <= y
    ensures Pcm(x) <= Pcm(y)
  {
    var sx, sy := Clamp(x), Clamp(y);
    assert sx <= sy;
    if sx < 0.0 && sy < 0.0 {
      assert -sy * 32768.0 <= -sx * 32768.0;
      assert (-sy * 32768.0).Floor <= (-sx * 32768.0).Floor;
    } else if 0.0 <= sx {
      assert sx * 32767.0 <= sy * 32767.0;
      assert (sx * 32767.0).Floor <= (sy * 32767.0).Floor;
    }
  }

  /** A frame in 16-bit PCM. */
  function ToPcm(chunk: seq<Sample>): (r: seq<int>)
    ensures |r| == |chunk|
  {
    seq(|chunk|, i requires 0 <= i < |chunk| => Pcm(chunk[i]))
  }

  /** Frames in 16-bit PCM. */
  function PcmFrames(frames: seq<seq<Sample>>): (r: seq<seq<int>>)
    ensures |r| == |frames|
  {
    seq(|frames|, k requires 0 <= k < |frames| => ToPcm(frames[k]))
  }

  /** The conversion loop of one frame into an `Int16Array`. */
  method ConvertChunk(chunk: seq<Sample>) returns (pcm: seq<int>)
    ensures pcm == ToPcm(chunk)
    ensures forall i :: 0 <= i < |pcm| ==> -32768 <= pcm[i] <= 32767
  {
    var data := new int[|chunk|];
    for i := 0 to |chunk|
      invariant forall j :: 0 <= j < i ==> data[j] == Pcm(chunk[j])
    {
      data[i] := Pcm(chunk[i]);
    }
    pcm := data[..];
  }

  /** The capture processor: the samples not yet sent. */
  class AudioProcessor {
    var inputBuffer: seq<Sample>

    /** Less than one frame waits between two calls. */
    predicate Valid()
      reads this
    {
      |inputBuffer| < ChunkSize
    }

    constructor ()
      ensures Valid() && inputBuffer == []
    {
      inputBuffer := [];
    }

    /** `process`: with no input it does nothing; otherwise the new samples
        join the buffer and every whole frame is taken off its front,
        converted and posted, in order. */
    method Process(mono: Option<seq<Sample>>) returns (posted: seq<seq<int>>)
      modifies this
      ensures Valid() || (mono.None? && inputBuffer == old(inputBuffer))
      ensures mono.None? ==> inputBuffer == old(inputBuffer) && posted == []
      ensures mono.Some? ==>
        var all := old(inputBuffer) + mono.value;
        inputBuffer == Leftover(all) && posted == PcmFrames(Frames(all))
    {
      posted := [];
      if mono.None? {
        return;
      }
      inputBuffer := inputBuffer + mono.value;
      ghost var all := inputBuffer;
      ghost var sent: seq<seq<Sample>> := [];
      while |inputBuffer| >= ChunkSize
        invariant sent + Frames(inputBuffer) == Frames(all)
        invariant Leftover(inputBuffer) == Leftover(all)
        invariant posted == PcmFrames(sent)
        decreases |inputBuffer|
      {
        var chunk := inputBuffer[..ChunkSize];
        assert Frames(inputBuffer) == [chunk] + Frames(inputBuffer[ChunkSize..]);
        inputBuffer := inputBuffer[ChunkSize..];
        var pcm := ConvertChunk(chunk);
        posted := posted + [pcm];
        sent := sent + [chunk];
      }
      assert sent + [] == sent;
    }
  }

  /** What the page sends the playback processor: samples, or a command
      object with a `type`. */
  datatype Message = Samples(data: seq<Sample>) | Command(kind: string)

  /** The sample the playback processor writes at offset `j` of a block
      that starts at position `pos` of the queue: silence past its end. */
  function Block(buffer: seq<Sample>, pos: nat, n: nat): (r: seq<Sample>)
    ensures |r| == n
    ensures forall j :: 0 <= j < n && pos + j < |buffer| ==> r[j] == buffer[pos + j]
    ensures forall j :: 0 <= j < n && pos + j >= |buffer| ==> r[j] == 0.0
  {
    seq(n, j requires 0 <= j < n => if pos + j < |buffer| then buffer[pos + j] else 0.0)
  }

  /** Two blocks played one after the other, the first one not past the end
      of the queue, play what one longer block plays: each queued sample is
      played once, in order. */
  lemma BlocksConsecutive(buffer: seq<Sample>, pos: nat, n: nat, m: nat)
    requires pos + n <= |buffer|
    ensures Block(buffer, pos, n) + Block(buffer, pos + n, m) == Block(buffer, pos, n + m)
    ensures Block(buffer, pos, n) == buffer[pos..pos + n]
  {
  }

  /** Writes `v` into column `i` of every channel. */
  method FillColumn(output: array2<Sample>, i: nat, v: Sample)
    requires i < output.Length1
    modifies output
    ensures forall c :: 0 <= c < output.Length0 ==> output[c, i] == v
    ensures forall c, j :: 0 <= c < output.Length0 && 0 <= j < output.Length1 && j != i ==>
      output[c, j] == old(output[c, j])
  {
    for c := 0 to output.Length0
      invariant forall c' :: 0 <= c' < c ==> output[c', i] == v
      invariant forall c', j :: 0 <= c' < output.Length0 && 0 <= j < output.Length1 && j != i ==>
        output[c', j] == old(output[c', j])
    {
      output[c, i] := v;
    }
  }

  /** `output[channel].fill(0)` for every channel. */
  method FillSilence(output: array2<Sample>)
    modifies output
    ensures forall c, j :: 0 <= c < output.Length0 && 0 <= j < output.Length1 ==> output[c, j] == 0.0
  {
    for j := 0 to output.Length1
      invariant forall c, j' :: 0 <= c < output.Length0 && 0 <= j' < j ==> output[c, j'] == 0.0
    {
      FillColumn(output, j, 0.0);
    }
  }

  /** The playback processor: the queue of received samples, the position
      of the next one to play, and the flags of the playback state. */
  class EchoProcessor {
    var audioBuffer: seq<Sample>
    var playbackPosition: int
    var isPlaying: bool
    var isMuted: bool
    /** Reset along with the queue; never read. */
    var outputBufferPosition: int
    var hasNotifiedQueueEmpty: bool

    /** Muted means not playing; the position stays within the queue; and
        while playing no `queue_empty` has been sent yet. */
    predicate Valid()
      reads this
    {
      && (isMuted ==> !isPlaying)
      && 0 <= playbackPosition <= |audioBuffer|
      && (isPlaying ==> !hasNotifiedQueueEmpty)
    }

    constructor ()
      ensures Valid()
      ensures audioBuffer == [] && playbackPosition == 0 && !isPlaying && !isMuted
      ensures outputBufferPosition == 0 && !hasNotifiedQueueEmpty
    {
      audioBuffer := [];
      playbackPosition := 0;
      isPlaying := false;
      isMuted := false;
      outputBufferPosition := 0;
      hasNotifiedQueueEmpty := false;
    }

    /** `port.onmessage`. Samples are dropped while muted; otherwise they
        start a new queue when nothing plays and join the queue when
        something does, and playback is on. "clear" and "mute" empty the
        queue, stop and mute, and post `queue_empty`; "unmute" only lifts
        the mute and the notification flag; other commands do nothing.
        Nothing but samples turns playback on. */
    method OnMessage(m: Message) returns (queueEmpty: bool)
      requires Valid()
      modifies this
      ensures Valid()
      ensures isPlaying ==> old(isPlaying) || m.Samples?
      ensures queueEmpty <==> m == Command("clear") || m == Command("mute")
      ensures m.Samples? && old(isMuted) ==>
        && audioBuffer == old(audioBuffer) && playbackPosition == old(playbackPosition)
        && isPlaying == old(isPlaying) && isMuted && outputBufferPosition == old(outputBufferPosition)
        && hasNotifiedQueueEmpty == old(hasNotifiedQueueEmpty)
      ensures m.Samples? && !old(isMuted) && !old(isPlaying) ==>
        && audioBuffer == m.data && playbackPosition == 0 && isPlaying && !isMuted
        && outputBufferPosition == 0 && !hasNotifiedQueueEmpty
      ensures m.Samples? && !old(isMuted) && old(isPlaying) ==>
        && audioBuffer == old(audioBuffer) + m.data && playbackPosition == old(playbackPosition)
        && isPlaying && !isMuted && outputBufferPosition == old(outputBufferPosition)
        && hasNotifiedQueueEmpty == old(hasNotifiedQueueEmpty)
      ensures m == Command("clear") ==>
        && audioBuffer == [] && playbackPosition == 0 && !isPlaying && isMuted
        && outputBufferPosition == 0 && !hasNotifiedQueueEmpty
      ensures m == Command("unmute") ==>
        && audioBuffer == old(audioBuffer) && playbackPosition == old(playbackPosition)
        && isPlaying == old(isPlaying) && !isMuted && outputBufferPosition == old(outputBufferPosition)
        && !hasNotifiedQueueEmpty
      ensures m == Command("mute") ==>
        && audioBuffer == [] && playbackPosition == 0 && !isPlaying && isMuted
        && outputBufferPosition == old(outputBufferPosition) && !hasNotifiedQueueEmpty
      ensures m.Command? && m.kind !in {"clear", "unmute", "mute"} ==>
        && audioBuffer == old(audioBuffer) && playbackPosition == old(playbackPosition)
        && isPlaying == old(isPlaying) && isMuted == old(isMuted)
        && outputBufferPosition == old(outputBufferPosition)
        && hasNotifiedQueueEmpty == old(hasNotifiedQueueEmpty)
    {
      queueEmpty := false;
      match m
      case Samples(data) =>
        if !isMuted {
          if !isPlaying {
            audioBuffer := data;
            playbackPosition := 0;
            outputBufferPosition := 0;
            hasNotifiedQueueEmpty := false;
          } else {
            audioBuffer := audioBuffer + data;
          }
          isPlaying := true;
        }
      case Command(kind) =>
        if kind == "clear" {
          audioBuffer := [];
          playbackPosition := 0;
          outputBufferPosition := 0;
          isPlaying := false;
          isMuted := true;
          hasNotifiedQueueEmpty := false;
          queueEmpty := true;
        } else if kind == "unmute" {
          isMuted := false;
          hasNotifiedQueueEmpty := false;
        } else if kind == "mute" {
          isMuted := true;
          audioBuffer := [];
          playbackPosition := 0;
          isPlaying := false;
          hasNotifiedQueueEmpty := false;
          queueEmpty := true;
        }
    }

    /** `process`. When muted, stopped or with an empty queue every channel
        gets silence, and a playback that was still on is stopped with one
        `queue_empty`. Otherwise each channel gets the same block: the next
        queued samples in order, silence past the end of the queue. A block
        that reaches past the end stops playback, empties the queue and
        posts `queue_empty` once; a block within the queue moves the
        position by its length. */
    method Process(output: array2<Sample>) returns (queueEmpty: bool)
      requires Valid() && output.Length0 >= 1
      modifies this, output
      ensures Valid()
      ensures isMuted == old(isMuted) && outputBufferPosition == old(outputBufferPosition)
      ensures queueEmpty ==> !isPlaying && hasNotifiedQueueEmpty
      ensures !old(isPlaying) ==> !queueEmpty
      ensures old(isMuted) || !old(isPlaying) || |old(audioBuffer)| == 0 ==>
        && (forall c, j :: 0 <= c < output.Length0 && 0 <= j < output.Length1 ==> output[c, j] == 0.0)
        && audioBuffer == old(audioBuffer) && playbackPosition == old(playbackPosition)
        && (queueEmpty <==> old(isPlaying))
        && isPlaying == (old(isPlaying) && !queueEmpty)
        && hasNotifiedQueueEmpty == (old(hasNotifiedQueueEmpty) || queueEmpty)
      ensures !(old(isMuted) || !old(isPlaying) || |old(audioBuffer)| == 0) ==>
        var block := Block(old(audioBuffer), old(playbackPosition), output.Length1);
        && (forall c, j :: 0 <= c < output.Length0 && 0 <= j < output.Length1 ==> output[c, j] == block[j])
        && (queueEmpty <==> old(playbackPosition) + output.Length1 > |old(audioBuffer)|)
        && (queueEmpty ==> audioBuffer == [] && playbackPosition == 0 && !isPlaying && hasNotifiedQueueEmpty)
        && (!queueEmpty ==>
              && audioBuffer == old(audioBuffer) && playbackPosition == old(playbackPosition) + output.Length1
              && isPlaying && !hasNotifiedQueueEmpty)
    {
      queueEmpty := false;
      if isMuted || !isPlaying || |audioBuffer| == 0 {
        FillSilence(output);
        if isPlaying && !hasNotifiedQueueEmpty {
          queueEmpty := true;
          hasNotifiedQueueEmpty := true;
          isPlaying := false;
        }
        return;
      }
      ghost var buffer, pos := audioBuffer, playbackPosition;
      var bufferSize := output.Length1;
      for i := 0 to bufferSize
        invariant forall c, j :: 0 <= c < output.Length0 && 0 <= j < i ==>
          output[c, j] == Block(buffer, pos, bufferSize)[j]
        invariant isMuted == old(isMuted) && outputBufferPosition == old(outputBufferPosition)
        invariant queueEmpty <==> pos + i > |buffer|
        invariant pos + i <= |buffer| ==>
          audioBuffer == buffer && playbackPosition == pos + i && isPlaying && !hasNotifiedQueueEmpty
        invariant pos + i > |buffer| ==>
          audioBuffer == [] && playbackPosition == 0 && !isPlaying && hasNotifiedQueueEmpty
      {
        if playbackPosition < |audioBuffer| {
          FillColumn(output, i, audioBuffer[playbackPosition]);
          playbackPosition := playbackPosition + 1;
        } else {
          FillColumn(output, i, 0.0);
          if playbackPosition >= |audioBuffer| && !hasNotifiedQueueEmpty {
            isPlaying := false;
            playbackPosition := 0;
            audioBuffer := [];
            queueEmpty := true;
            hasNotifiedQueueEmpty := true;
          }
        }
      }
    }
  }
}
