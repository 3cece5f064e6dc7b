/** The token plumbing of the Orpheus text-to-speech inference engine: the
    prompt rows handed to the language model, framed by special tokens and
    padded on the left to one length with their attention masks; and the
    way generated tokens are cropped to the speech part, cut into frames of
    seven codes and spread over the three codebook layers of the SNAC
    decoder. The tokenizer, the language model and the decoder itself are
    not part of this model. */
module Orpheus {
  import opened Common

  const StartOfHuman: int := 128259
  const EndOfText: int := 128009
  const EndOfHuman: int := 128260
  const StartOfSpeech: int := 128257
  const EndOfSpeech: int := 128258
  const PadToken: int := 128263
  /** The first audio token; audio codes count from it. */
  const AudioOffset: int := 128266
  /** Codes per layer of the SNAC codebook. */
  const CodebookSize: int := 4096

  // ---------------------------------------------------------------------
  // _prepare_inputs

  /** The prompt text: prefixed with "voice: " when a non-empty voice is
      given. */
  function Prompt(p: string, voice: Option<string>): string {
    if voice.Some? && voice.value != "" then voice.value + ": " + p else p
  }

  /** A tokenized prompt between the start-of-human token and the
      end-of-text, end-of-human pair. */
  function Framed(tokens: seq<int>): (r: seq<int>)
    ensures |r| == |tokens| + 3
  {
    [StartOfHuman] + tokens + [EndOfText, EndOfHuman]
  }

  /** The longest row's length. */
  function MaxLength(rows: seq<seq<int>>): (r: nat)
    ensures forall k :: 0 <= k < |rows| ==> |rows[k]| <= r
    ensures |rows| > 0 ==> exists k :: 0 <= k < |rows| && |rows[k]| == r
  {
    if |rows| == 0 then 0
    else
      var m := MaxLength(rows[1..]);
      assert forall k :: 1 <= k < |rows| ==> rows[k] == rows[1..][k - 1];
      if |rows[0]| >= m then |rows[0]| else m
  }

  /** `n` copies of `v`: `torch.full((1, n), v)` flattened. */
  function Filled(n: nat, v: int): (r: seq<int>)
    ensures |r| == n && forall k :: 0 <= k < n ==> r[k] == v
  {
    seq(n, _ => v)
  }

  /** A row padded on the left with the pad token to width `w`. */
  function Padded(row: seq<int>, w: nat): (r: seq<int>)
    requires |row| <= w
    ensures |r| == w
  {
    Filled(w - |row|, PadToken) + row
  }

  /** Its attention mask: 0 over the padding, 1 over the row. */
  function Mask(row: seq<int>, w: nat): (r: seq<int>)
    requires |row| <= w
    ensures |r| == w
  {
    Filled(w - |row|, 0) + Filled(|row|, 1)
  }

  function Sum(s: seq<int>): int {
    if |s| == 0 then 0 else Sum(s[..|s| - 1]) + s[|s| - 1]
  }

  lemma {:induction false} SumAppend(a: seq<int>, b: seq<int>)
    ensures Sum(a + b) == Sum(a) + Sum(b)
    decreases |b|
  {
    if |b| == 0 {
      assert a + b == a;
    } else {
      SumAppend(a, b[..|b| - 1]);
      assert (a + b)[..|a + b| - 1] == a + b[..|b| - 1];
    }
  }

  lemma {:induction false} SumConstant(n: nat, v: int)
    ensures Sum(Filled(n, v)) == n * v
  {
    if n > 0 {
      SumConstant(n - 1, v);
      assert Filled(n, v)[..n - 1] == Filled(n - 1, v);
    }
  }

  /** The padded row holds the row at its end and only pad tokens before
      it; the mask marks exactly the row, so it adds up to the row's
      length. */
  lemma PaddingShape(row: seq<int>, w: nat)
    requires |row| <= w
    ensures Padded(row, w)[w - |row|..] == row
    ensures forall k :: 0 <= k < w - |row| ==> Padded(row, w)[k] == PadToken && Mask(row, w)[k] == 0
    ensures forall k :: w - |row| <= k < w ==> Mask(row, w)[k] == 1
    ensures Sum(Mask(row, w)) == |row|
  {
    SumAppend(Filled(w - |row|, 0), Filled(|row|, 1));
    SumConstant(w - |row|, 0);
    SumConstant(|row|, 1);
  }

  /** The framed token rows of the prompts. */
  function FramedRows(prompts: seq<string>, voice: Option<string>, tokenize: string -> seq<int>): (r: seq<seq<int>>)
    ensures |r| == |prompts|
  {
    seq(|prompts|, k requires 0 <= k < |prompts| => Framed(tokenize(Prompt(prompts[k], voice))))
  }

  /** `_prepare_inputs`: every prompt is tokenized and framed, and every
      framed row is padded on the left to the longest one; no prompt at all
      makes `max` of an empty list raise. */
  method PrepareInputs(prompts: seq<string>, voice: Option<string>, tokenize: string -> seq<int>)
    returns (r: Option<(seq<seq<int>>, seq<seq<int>>)>)
    ensures r.Some? <==> |prompts| > 0
    ensures r.Some? ==>
      var framed := FramedRows(prompts, voice, tokenize);
      var w := MaxLength(framed);
      && |r.value.0| == |r.value.1| == |prompts|
      && forall k :: 0 <= k < |prompts| ==>
           r.value.0[k] == Padded(framed[k], w) && r.value.1[k] == Mask(framed[k], w)
  {
    var framed := FrameAll(prompts, voice, tokenize);
    if |framed| == 0 {
      return None;
    }
    var ids, masks := PadAll(framed);
    r := Some((ids, masks));
  }

  /** The first loop of `_prepare_inputs`: each prompt, with its voice
      prefix, tokenized and framed. */
  method FrameAll(prompts: seq<string>, voice: Option<string>, tokenize: string -> seq<int>) returns (framed: seq<seq<int>>)
    ensures framed == FramedRows(prompts, voice, tokenize)
  {
    framed := [];
    for i := 0 to |prompts|
      invariant |framed| == i
      invariant forall k :: 0 <= k < i ==> framed[k] == Framed(tokenize(Prompt(prompts[k], voice)))
    {
      framed := framed + [Framed(tokenize(Prompt(prompts[i], voice)))];
    }
  }

  /** The second loop of `_prepare_inputs`: every row padded on the left to
      the longest one, with its attention mask. */
  method PadAll(framed: seq<seq<int>>) returns (ids: seq<seq<int>>, masks: seq<seq<int>>)
    ensures |ids| == |masks| == |framed|
    ensures forall k :: 0 <= k < |framed| ==> ids[k] == Padded(framed[k], MaxLength(framed))
    ensures forall k :: 0 <= k < |framed| ==> masks[k] == Mask(framed[k], MaxLength(framed))
  {
    var w := MaxLength(framed);
    ids, masks := [], [];
    for i := 0 to |framed|
      invariant |ids| == |masks| == i
      invariant forall k :: 0 <= k < i ==> ids[k] == Padded(framed[k], w)
      invariant forall k :: 0 <= k < i ==> masks[k] == Mask(framed[k], w)
    {
      assert |framed[i]| <= w;
      var padding := w - |framed[i]|;
      var row := Filled(padding, PadToken) + framed[i];
      var mask := Filled(padding, 0) + Filled(|framed[i]|, 1);
      ids := ids + [row];
      masks := masks + [mask];
    }
  }

  /** Every prepared row has the longest row's width, ends with the framed
      prompt after nothing but padding, and its mask adds up to the
      prompt's token count plus the three special tokens. */
  lemma PreparedRows(prompts: seq<string>, voice: Option<string>, tokenize: string -> seq<int>, k: nat)
    requires k < |prompts|
    ensures var framed := FramedRows(prompts, voice, tokenize);
      var w := MaxLength(framed);
      var tokens := tokenize(Prompt(prompts[k], voice));
      && |Padded(framed[k], w)| == w
      && Padded(framed[k], w)[w - |tokens| - 3..] == [StartOfHuman] + tokens + [EndOfText, EndOfHuman]
      && (forall i :: 0 <= i < w - |tokens| - 3 ==> Padded(framed[k], w)[i] == PadToken)
      && Sum(Mask(framed[k], w)) == |tokens| + 3
  {
    var framed := FramedRows(prompts, voice, tokenize);
    PaddingShape(framed[k], MaxLength(framed));
  }

  // ---------------------------------------------------------------------
  // _redistribute_codes

  /** Frame `i` of the code list: its `j`-th code shifted down by `j`
      codebooks lies within one codebook. */
  predicate FrameValid(codes: seq<int>, i: nat)
    requires 7 * i + 7 <= |codes|
  {
    var b := 7 * i;
    && 0 <= codes[b] < CodebookSize
    && 0 <= codes[b + 1] - CodebookSize < CodebookSize
    && 0 <= codes[b + 2] - 2 * CodebookSize < CodebookSize
    && 0 <= codes[b + 3] - 3 * CodebookSize < CodebookSize
    && 0 <= codes[b + 4] - 4 * CodebookSize < CodebookSize
    && 0 <= codes[b + 5] - 5 * CodebookSize < CodebookSize
    && 0 <= codes[b + 6] - 6 * CodebookSize < CodebookSize
  }

  /** How many of the first `n` frames are accepted: those before the first
      invalid one. */
  function Accepted(codes: seq<int>, n: nat): (k: nat)
    requires 7 * n <= |codes|
    ensures k <= n
    ensures forall i :: 0 <= i < k ==> FrameValid(codes, i)
    ensures k < n ==> !FrameValid(codes, k)
  {
    if n == 0 then 0
    else
      var a := Accepted(codes, n - 1);
      if a == n - 1 && FrameValid(codes, n - 1) then n else a
  }

  /** Layer 1: the first code of each of the first `k` frames. */
  function Layer1(codes: seq<int>, k: nat): (r: seq<int>)
    requires 7 * k <= |codes|
    ensures |r| == k
  {
    if k == 0 then [] else Layer1(codes, k - 1) + [codes[7 * (k - 1)]]
  }

  /** Layer 2: the second and fifth codes of each frame, shifted. */
  function Layer2(codes: seq<int>, k: nat): (r: seq<int>)
    requires 7 * k <= |codes|
    ensures |r| == 2 * k
  {
    if k == 0 then []
    else
      var b := 7 * (k - 1);
      Layer2(codes, k - 1) + [codes[b + 1] - CodebookSize, codes[b + 4] - 4 * CodebookSize]
  }

  /** Layer 3: the third, fourth, sixth and seventh codes of each frame,
      shifted. */
  function Layer3(codes: seq<int>, k: nat): (r: seq<int>)
    requires 7 * k <= |codes|
    ensures |r| == 4 * k
  {
    if k == 0 then []
    else
      var b := 7 * (k - 1);
      Layer3(codes, k - 1)
      + [codes[b + 2] - 2 * CodebookSize, codes[b + 3] - 3 * CodebookSize,
         codes[b + 5] - 5 * CodebookSize, codes[b + 6] - 6 * CodebookSize]
  }

  /** What `_redistribute_codes` does: raise an index error, return the
      short silent placeholder, or hand the three layers to the decoder. */
  datatype Redistributed = IndexError | Silence | Layers(layer1: seq<int>, layer2: seq<int>, layer3: seq<int>)

  /** The layers of the accepted frames, or silence when there are none. */
  function LayersOf(codes: seq<int>, k: nat): Redistributed
    requires 7 * k <= |codes|
  {
    if k == 0 then Silence else Layers(Layer1(codes, k), Layer2(codes, k), Layer3(codes, k))
  }

  /** `_redistribute_codes` as written: it visits `(len + 1) // 7` frames,
      so a list whose length leaves 6 over 7 has one more frame than it
      holds, and reading that frame raises once every earlier frame was
      accepted. */
  function RedistributeAsWritten(codes: seq<int>): Redistributed {
    var complete := |codes| / 7;
    var k := Accepted(codes, complete);
    if k == complete && (|codes| + 1) / 7 > complete then IndexError else LayersOf(codes, k)
  }

  /** `_redistribute_codes` over the frames the list holds. */
  function Redistribute(codes: seq<int>): Redistributed {
    LayersOf(codes, Accepted(codes, |codes| / 7))
  }

  /** The frames are rebuilt from the layers: the inverse of the
      redistribution. */
  function Reassemble(l1: seq<int>, l2: seq<int>, l3: seq<int>, k: nat): (r: seq<int>)
    requires |l1| >= k && |l2| >= 2 * k && |l3| >= 4 * k
    ensures |r| == 7 * k
  {
    if k == 0 then []
    else
      var i := k - 1;
      Reassemble(l1, l2, l3, i)
      + [l1[i], l2[2 * i] + CodebookSize, l3[4 * i] + 2 * CodebookSize, l3[4 * i + 1] + 3 * CodebookSize,
         l2[2 * i + 1] + 4 * CodebookSize, l3[4 * i + 2] + 5 * CodebookSize, l3[4 * i + 3] + 6 * CodebookSize]
  }

  /** One more frame adds its codes at the end of each layer. */
  lemma LayersSnoc(codes: seq<int>, i: nat)
    requires 7 * i + 7 <= |codes|
    ensures Layer1(codes, i + 1) == Layer1(codes, i) + [codes[7 * i]]
    ensures Layer2(codes, i + 1) == Layer2(codes, i) + [codes[7 * i + 1] - CodebookSize, codes[7 * i + 4] - 4 * CodebookSize]
    ensures Layer3(codes, i + 1) == Layer3(codes, i)
      + [codes[7 * i + 2] - 2 * CodebookSize, codes[7 * i + 3] - 3 * CodebookSize,
         codes[7 * i + 5] - 5 * CodebookSize, codes[7 * i + 6] - 6 * CodebookSize]
  {
  }

  /** Reassembling `k` frames only looks at the first `k` frames' codes of
      the layers. */
  lemma {:induction false} ReassembleFrom(l1: seq<int>, l2: seq<int>, l3: seq<int>,
                                          m1: seq<int>, m2: seq<int>, m3: seq<int>, k: nat)
    requires |l1| >= k && |l2| >= 2 * k && |l3| >= 4 * k
    requires |m1| >= k && |m2| >= 2 * k && |m3| >= 4 * k
    requires l1[..k] == m1[..k] && l2[..2 * k] == m2[..2 * k] && l3[..4 * k] == m3[..4 * k]
    ensures Reassemble(l1, l2, l3, k) == Reassemble(m1, m2, m3, k)
  {
    if k > 0 {
      var i := k - 1;
      PrefixesAgree(l1, m1, i, k);
      PrefixesAgree(l2, m2, 2 * i, 2 * k);
      PrefixesAgree(l3, m3, 4 * i, 4 * k);
      ReassembleFrom(l1, l2, l3, m1, m2, m3, i);
      assert l1[i] == l1[..k][i] == m1[i];
      CodesAgree(l2, m2, 2 * i, 2 * k);
      CodesAgree(l3, m3, 4 * i, 4 * k);
    }
  }

  /** Equal prefixes have equal shorter prefixes. */
  lemma PrefixesAgree(l: seq<int>, m: seq<int>, i: nat, k: nat)
    requires i <= k <= |l| && k <= |m| && l[..k] == m[..k]
    ensures l[..i] == m[..i]
  {
    assert l[..i] == l[..k][..i] && m[..i] == m[..k][..i];
  }

  /** Equal prefixes agree on the last frame's codes of a layer. */
  lemma CodesAgree(l: seq<int>, m: seq<int>, b: nat, k: nat)
    requires b < k <= |l| && k <= |m| && l[..k] == m[..k]
    ensures forall j :: b <= j < k ==> l[j] == m[j]
  {
    forall j | b <= j < k
      ensures l[j] == m[j]
    {
      assert l[j] == l[..k][j];
    }
  }

  /** Putting the layers of `k` frames back together gives the first `k`
      frames of the code list: nothing is lost or reordered. */
  lemma {:induction false} ReassembleLayers(codes: seq<int>, k: nat)
    requires 7 * k <= |codes|
    ensures Reassemble(Layer1(codes, k), Layer2(codes, k), Layer3(codes, k), k) == codes[..7 * k]
  {
    if k > 0 {
      var i := k - 1;
      ReassembleLayers(codes, i);
      EarlierFrames(codes, i);
      LastFrame(codes, i);
      assert codes[..7 * k] == codes[..7 * i] + codes[7 * i..7 * k];
    }
  }

  /** The first `i` frames reassembled from the layers of `i + 1` frames
      are those reassembled from the layers of `i` frames. */
  lemma EarlierFrames(codes: seq<int>, i: nat)
    requires 7 * i + 7 <= |codes|
    ensures Reassemble(Layer1(codes, i + 1), Layer2(codes, i + 1), Layer3(codes, i + 1), i)
         == Reassemble(Layer1(codes, i), Layer2(codes, i), Layer3(codes, i), i)
  {
    var l1, l2, l3 := Layer1(codes, i + 1), Layer2(codes, i + 1), Layer3(codes, i + 1);
    var m1, m2, m3 := Layer1(codes, i), Layer2(codes, i), Layer3(codes, i);
    LayersSnoc(codes, i);
    assert l1[..i] == m1[..i] && l2[..2 * i] == m2[..2 * i] && l3[..4 * i] == m3[..4 * i];
    ReassembleFrom(l1, l2, l3, m1, m2, m3, i);
  }

  /** The last frame reassembled from the layers of `i + 1` frames is
      frame `i` of the codes. */
  lemma LastFrame(codes: seq<int>, i: nat)
    requires 7 * i + 7 <= |codes|
    ensures var l1, l2, l3 := Layer1(codes, i + 1), Layer2(codes, i + 1), Layer3(codes, i + 1);
      Reassemble(l1, l2, l3, i + 1) == Reassemble(l1, l2, l3, i) + codes[7 * i..7 * i + 7]
  {
    var l1, l2, l3 := Layer1(codes, i + 1), Layer2(codes, i + 1), Layer3(codes, i + 1);
    LayersSnoc(codes, i);
    var frame := [l1[i], l2[2 * i] + CodebookSize, l3[4 * i] + 2 * CodebookSize, l3[4 * i + 1] + 3 * CodebookSize,
                  l2[2 * i + 1] + 4 * CodebookSize, l3[4 * i + 2] + 5 * CodebookSize, l3[4 * i + 3] + 6 * CodebookSize];
    assert frame == codes[7 * i..7 * i + 7];
  }

  /** Every code handed to the decoder lies in [0, 4095]. */
  lemma {:induction false} LayersInRange(codes: seq<int>, k: nat)
    requires 7 * k <= |codes| && forall i :: 0 <= i < k ==> FrameValid(codes, i)
    ensures forall x :: x in Layer1(codes, k) ==> 0 <= x < CodebookSize
    ensures forall x :: x in Layer2(codes, k) ==> 0 <= x < CodebookSize
    ensures forall x :: x in Layer3(codes, k) ==> 0 <= x < CodebookSize
  {
    if k > 0 {
      LayersInRange(codes, k - 1);
      assert FrameValid(codes, k - 1);
      LayersSnoc(codes, k - 1);
    }
  }

  /** The redistribution keeps exactly the frames before the first invalid
      one, with 1, 2 and 4 codes per frame in the three layers, all within
      the codebook, and silence when the first frame is already invalid. */
  lemma RedistributeShape(codes: seq<int>)
    ensures var k := Accepted(codes, |codes| / 7);
      && (Redistribute(codes) == Silence <==> k == 0)
      && (Redistribute(codes).Layers? ==>
            && |Redistribute(codes).layer1| == k && |Redistribute(codes).layer2| == 2 * k
            && |Redistribute(codes).layer3| == 4 * k
            && Reassemble(Redistribute(codes).layer1, Redistribute(codes).layer2, Redistribute(codes).layer3, k)
               == codes[..7 * k]
            && (forall x :: x in Redistribute(codes).layer1 ==> 0 <= x < CodebookSize)
            && (forall x :: x in Redistribute(codes).layer2 ==> 0 <= x < CodebookSize)
            && (forall x :: x in Redistribute(codes).layer3 ==> 0 <= x < CodebookSize))
  {
    var k := Accepted(codes, |codes| / 7);
    if k > 0 {
      ReassembleLayers(codes, k);
      LayersInRange(codes, k);
    }
  }

  /** As written and as intended agree unless the length leaves 6 over 7. */
  lemma RedistributeAgrees(codes: seq<int>)
    requires |codes| % 7 != 6
    ensures RedistributeAsWritten(codes) == Redistribute(codes)
  {
  }

  /** Six codes are not a frame, yet the loop as written reads a frame from
      them and raises. */
  lemma SixCodesRaise(codes: seq<int>)
    requires |codes| == 6
    ensures RedistributeAsWritten(codes) == IndexError
    ensures Redistribute(codes) == Silence
  {
  }

  /** The loop of `_redistribute_codes` as written: frame after frame the
      seven codes are read (raising past the end of the list) and shifted;
      the first frame with a code out of range ends the loop. */
  method RedistributeCodes(codes: seq<int>) returns (r: Redistributed)
    ensures r == RedistributeAsWritten(codes)
  {
    var layer1: seq<int> := [];
    var layer2: seq<int> := [];
    var layer3: seq<int> := [];
    var frames := (|codes| + 1) / 7;
    var i := 0;
    while i < frames
      invariant 0 <= i <= frames && 7 * i <= |codes|
      invariant Accepted(codes, i) == i
      invariant layer1 == Layer1(codes, i) && layer2 == Layer2(codes, i) && layer3 == Layer3(codes, i)
    {
      if 7 * i + 6 >= |codes| {
        PastTheEnd(codes, i);
        return IndexError;
      }
      var c0 := codes[7 * i];
      var c1 := codes[7 * i + 1] - CodebookSize;
      var c2 := codes[7 * i + 2] - 2 * CodebookSize;
      var c3 := codes[7 * i + 3] - 3 * CodebookSize;
      var c4 := codes[7 * i + 4] - 4 * CodebookSize;
      var c5 := codes[7 * i + 5] - 5 * CodebookSize;
      var c6 := codes[7 * i + 6] - 6 * CodebookSize;
      FrameAt(codes, i, c0, c1, c2, c3, c4, c5, c6);
      if !(0 <= c0 < CodebookSize && 0 <= c1 < CodebookSize && 0 <= c2 < CodebookSize && 0 <= c3 < CodebookSize
           && 0 <= c4 < CodebookSize && 0 <= c5 < CodebookSize && 0 <= c6 < CodebookSize) {
        StopsAt(codes, i);
        break;
      }
      AcceptsNext(codes, i);
      layer1 := layer1 + [c0];
      layer2 := layer2 + [c1, c4];
      layer3 := layer3 + [c2, c3, c5, c6];
      i := i + 1;
    }
    if i == frames {
      StopsAt(codes, i);
    }
    if |layer1| == 0 {
      return Silence;
    }
    r := Layers(layer1, layer2, layer3);
  }

  /** Frame `i` read as seven codes less their layer offsets: it is valid
      when all seven lie in the codebook, and they are what the layers
      gain from it. */
  lemma FrameAt(codes: seq<int>, i: nat, c0: int, c1: int, c2: int, c3: int, c4: int, c5: int, c6: int)
    requires 7 * i + 7 <= |codes|
    requires c0 == codes[7 * i] && c1 == codes[7 * i + 1] - CodebookSize && c2 == codes[7 * i + 2] - 2 * CodebookSize
      && c3 == codes[7 * i + 3] - 3 * CodebookSize && c4 == codes[7 * i + 4] - 4 * CodebookSize
      && c5 == codes[7 * i + 5] - 5 * CodebookSize && c6 == codes[7 * i + 6] - 6 * CodebookSize
    ensures FrameValid(codes, i) <==> (0 <= c0 < CodebookSize && 0 <= c1 < CodebookSize && 0 <= c2 < CodebookSize
      && 0 <= c3 < CodebookSize && 0 <= c4 < CodebookSize && 0 <= c5 < CodebookSize && 0 <= c6 < CodebookSize)
    ensures Layer1(codes, i + 1) == Layer1(codes, i) + [c0]
    ensures Layer2(codes, i + 1) == Layer2(codes, i) + [c1, c4]
    ensures Layer3(codes, i + 1) == Layer3(codes, i) + [c2, c3, c5, c6]
  {
    LayersSnoc(codes, i);
  }

  /** An accepted frame after accepted frames: one frame more is accepted. */
  lemma AcceptsNext(codes: seq<int>, i: nat)
    requires 7 * i + 7 <= |codes| && Accepted(codes, i) == i && FrameValid(codes, i)
    ensures Accepted(codes, i + 1) == i + 1
  {
  }

  /** A frame the loop visits that starts within the last six codes: the
      loop as written raises on it. */
  lemma PastTheEnd(codes: seq<int>, i: nat)
    requires i < (|codes| + 1) / 7 && 7 * i + 6 >= |codes| && Accepted(codes, i) == i
    ensures RedistributeAsWritten(codes) == IndexError
  {
    assert |codes| / 7 == i;
  }

  /** The loop stops at frame `i`, at the last frame it visits or at a
      rejected one, with the layers of the frames before it. */
  lemma StopsAt(codes: seq<int>, i: nat)
    requires 7 * i <= |codes| && Accepted(codes, i) == i
    requires i == (|codes| + 1) / 7 || (7 * i + 7 <= |codes| && !FrameValid(codes, i))
    ensures RedistributeAsWritten(codes) == LayersOf(codes, i)
  {
    if i == (|codes| + 1) / 7 {
      assert |codes| / 7 == i;
    } else {
      AcceptedStops(codes, i, |codes| / 7);
    }
  }

  /** Once frame `i` is rejected, no later frame counts. */
  lemma {:induction false} AcceptedStops(codes: seq<int>, i: nat, n: nat)
    requires i < n && 7 * n <= |codes| && Accepted(codes, i) == i && !FrameValid(codes, i)
    ensures Accepted(codes, n) == i
    decreases n - i
  {
    if n > i + 1 {
      AcceptedStops(codes, i, n - 1);
    }
  }

  // ---------------------------------------------------------------------
  // _decode_audio

  /** The index of the last occurrence of `t` in `row`. */
  function LastIndexOf(row: seq<int>, t: int): (r: Option<nat>)
    ensures r.Some? ==> r.value < |row| && row[r.value] == t && t !in row[r.value + 1..]
    ensures r.None? ==> t !in row
  {
    if |row| == 0 then None
    else if row[|row| - 1] == t then Some(|row| - 1)
    else
      var r := LastIndexOf(row[..|row| - 1], t);
      assert row == row[..|row| - 1] + [row[|row| - 1]];
      r
  }

  /** The column of the last start-of-speech token in row-major order: its
      last occurrence in the last row that holds one. */
  function LastColumn(rows: seq<seq<int>>): (r: Option<nat>)
    ensures r.None? <==> forall k :: 0 <= k < |rows| ==> StartOfSpeech !in rows[k]
  {
    if |rows| == 0 then None
    else match LastIndexOf(rows[|rows| - 1], StartOfSpeech)
      case Some(c) => Some(c)
      case None =>
        var r := LastColumn(rows[..|rows| - 1]);
        assert forall k :: 0 <= k < |rows| - 1 ==> rows[..|rows| - 1][k] == rows[k];
        r
  }

  /** Every row is cut after that column, or kept whole when there is no
      start-of-speech token. */
  function Crop(rows: seq<seq<int>>): (r: seq<seq<int>>)
    ensures |r| == |rows|
  {
    match LastColumn(rows)
    case None => rows
    case Some(c) => seq(|rows|, k requires 0 <= k < |rows| => PySlice(rows[k], c + 1, |rows[k]|))
  }

  /** For a single row the crop keeps exactly what follows the last
      start-of-speech token, which therefore no longer occurs. */
  lemma CropSingleRow(row: seq<int>)
    ensures StartOfSpeech !in Crop([row])[0]
    ensures LastIndexOf(row, StartOfSpeech).Some? ==>
      Crop([row])[0] == row[LastIndexOf(row, StartOfSpeech).value + 1..]
    ensures LastIndexOf(row, StartOfSpeech).None? ==> Crop([row])[0] == row
  {
    var rows := [row];
    var c := LastIndexOf(row, StartOfSpeech);
    assert rows[..0] == [];
    assert LastColumn(rows) == c;
    if c.Some? {
      var i := c.value + 1;
      assert Crop(rows)[0] == PySlice(row, i, |row|);
      SliceToEnd(row, i);
    } else {
      assert Crop(rows) == rows;
    }
  }

  /** `row[i:]` for an `i` within the row. */
  lemma SliceToEnd(row: seq<int>, i: nat)
    requires i <= |row|
    ensures PySlice(row, i, |row|) == row[i..]
  {
    assert PyBound(i, |row|) == i && PyBound(|row|, |row|) == |row|;
  }

  /** The row without any end-of-speech token. */
  function WithoutEndOfSpeech(row: seq<int>): (r: seq<int>)
    ensures |r| <= |row|
    ensures EndOfSpeech !in r
    ensures EndOfSpeech !in row ==> r == row
  {
    if |row| == 0 then []
    else WithoutEndOfSpeech(row[..|row| - 1]) + if row[|row| - 1] == EndOfSpeech then [] else [row[|row| - 1]]
  }

  /** A cropped row as codes: end-of-speech tokens removed, cut to whole
      frames of seven, each token made relative to the first audio token. */
  function CodeList(row: seq<int>): (r: seq<int>)
    ensures |r| % 7 == 0
    ensures |r| <= |WithoutEndOfSpeech(row)| < |r| + 7
    ensures forall i :: 0 <= i < |r| ==> r[i] == WithoutEndOfSpeech(row)[i] - AudioOffset
  {
    var kept := WithoutEndOfSpeech(row);
    var n := |kept| / 7 * 7;
    seq(n, i requires 0 <= i < n => kept[i] - AudioOffset)
  }

  /** `_decode_audio` up to the decoder: each generated row cropped, turned
      into a code list and redistributed. */
  function DecodeAudio(generated: seq<seq<int>>): (r: seq<Redistributed>)
    ensures |r| == |generated|
  {
    var cropped := Crop(generated);
    seq(|cropped|, k requires 0 <= k < |cropped| => Redistribute(CodeList(cropped[k])))
  }

  /** The code lists `_decode_audio` builds hold whole frames, so on them
      the loop as written never raises and agrees with the intended one. */
  lemma DecodeNeverRaises(generated: seq<seq<int>>, k: nat)
    requires k < |generated|
    ensures var codes := CodeList(Crop(generated)[k]);
      RedistributeAsWritten(codes) == DecodeAudio(generated)[k] != IndexError
  {
    RedistributeAgrees(CodeList(Crop(generated)[k]));
  }
}
