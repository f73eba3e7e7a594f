/**
 * The streaming mel front end: samples come in pieces, frames of 400 samples every 160 become features, and windows
 * of features are handed on as soon as they are complete.
 *
 * The Fourier transform and the mel filters are a foreign function of the emphasised frame.
 */
module StreamingFrontend {
  import opened Sequences

  const LENGTH := 400
  const SHIFT := 160
  const OFFSET := -120
  const FIRST := 280
  const EMPHASIS := 0.97

  type Feature = seq<real>
  type Window = seq<Feature>

  // ---------- Reflection ----------

  /** The index mirrored at both ends of `0..size`, with period `2 * size`. */
  function Mirror(index: int, size: nat): (r: nat)
    requires size > 0
    ensures r < size
  {
    var m := index % (2 * size);
    if m < size then m else 2 * size - 1 - m
  }

  lemma ModOf(index: int, period: nat, quotient: int, rest: int)
    requires period > 0 && index == period * quotient + rest && 0 <= rest < period
    ensures index % period == rest
  {
    var q, r := index / period, index % period;
    assert period * (quotient - q) == r - rest;
    Multiple(period, quotient - q);
  }

  lemma Multiple(period: int, times: int)
    requires period > 0
    ensures times >= 1 ==> period * times >= period
    ensures times <= -1 ==> period * times <= -period
  {}

  /** Both steps of the loop land on the mirror image: flipping at either end keeps the mirrored index. */
  lemma FlipsKeepMirror(index: int, size: nat)
    requires size > 0
    ensures Mirror(-index - 1, size) == Mirror(index, size)
    ensures Mirror(2 * size - 1 - index, size) == Mirror(index, size)
  {
    var period := 2 * size;
    var q, m := index / period, index % period;
    assert index == period * q + m;
    assert -index - 1 == period * (-q - 1) + (period - 1 - m);
    ModOf(-index - 1, period, -q - 1, period - 1 - m);
    assert 2 * size - 1 - index == period * (-q) + (period - 1 - m);
    ModOf(2 * size - 1 - index, period, -q, period - 1 - m);
  }

  method Reflect(index: int, size: nat) returns (r: nat)
    requires size > 0
    ensures r == Mirror(index, size)
  {
    var i := index;
    while i < 0 || i >= size
      invariant Mirror(i, size) == Mirror(index, size)
      decreases if i < 0 then 2 * (-i - 1) + 1 else 2 * i
    {
      FlipsKeepMirror(i, size);
      i := if i < 0 then -i - 1 else 2 * size - 1 - i;
    }
    ModOf(i, 2 * size, 0, i);
    r := i;
  }

  // ---------- Features ----------

  /** How many frames the samples complete. */
  function Complete(samples: nat): nat {
    if samples < FIRST then 0 else 1 + (samples - FIRST) / SHIFT
  }

  function FrameAt(samples: seq<real>, f: nat): (frame: seq<real>)
    requires samples != []
    ensures |frame| == LENGTH
  {
    seq(LENGTH, k requires 0 <= k < LENGTH => samples[Mirror(OFFSET + f * SHIFT + k, |samples|)])
  }

  function Emphasized(frame: seq<real>): (r: seq<real>)
    ensures |r| == |frame|
  {
    seq(|frame|, k requires 0 <= k < |frame| =>
      if k == 0 then frame[0] * (1.0 - EMPHASIS) else frame[k] - EMPHASIS * frame[k - 1])
  }

  function FeaturesUpTo(mel: seq<real> -> Feature, samples: seq<real>, count: nat): (features: seq<Feature>)
    requires count > 0 ==> samples != []
    ensures |features| == count
  {
    seq(count, f requires 0 <= f < count && samples != [] => mel(Emphasized(FrameAt(samples, f))))
  }

  function FeaturesOf(mel: seq<real> -> Feature, samples: seq<real>): seq<Feature> {
    FeaturesUpTo(mel, samples, Complete(|samples|))
  }

  /** A complete frame reads only samples that are there already, and goes on reading the same ones. */
  lemma FrameIsFinal(samples: seq<real>, more: seq<real>, f: nat)
    requires f < Complete(|samples|)
    ensures FrameAt(samples + more, f) == FrameAt(samples, f)
  {
    var n := |samples|;
    assert FIRST + f * SHIFT <= n;
    forall k | 0 <= k < LENGTH
      ensures FrameAt(samples + more, f)[k] == FrameAt(samples, f)[k]
    {
      var i := OFFSET + f * SHIFT + k;
      MirrorNear(i, n);
      MirrorNear(i, n + |more|);
    }
  }

  lemma MirrorNear(index: int, size: nat)
    requires size > 0 && -(size as int) <= index < size
    ensures Mirror(index, size) == if index < 0 then -index - 1 else index
  {
    if index < 0 {
      FlipsKeepMirror(index, size);
      ModOf(-index - 1, 2 * size, 0, -index - 1);
    } else {
      ModOf(index, 2 * size, 0, index);
    }
  }

  /** Frame `f` is complete as soon as 280 samples are there, and 160 more for each frame before it. */
  lemma CompleteMeans(n: nat, f: nat)
    ensures f < Complete(n) <==> 280 + 160 * f <= n
  {
    if n >= FIRST {
      var q, r := (n - FIRST) / SHIFT, (n - FIRST) % SHIFT;
      assert n - FIRST == SHIFT * q + r;
    }
  }

  /** The sample that position `i` of the stream reads: in front of the first sample the stream is mirrored. */
  function Sample(samples: seq<real>, i: int): real
    requires -|samples| <= i < |samples|
  {
    if i < 0 then samples[-i - 1] else samples[i]
  }

  /** Feature `f` is made of 400 samples from 120 before its place on, each less 0.97 of the one before; the first one has itself
      before it. */
  lemma FeatureReads(mel: seq<real> -> Feature, samples: seq<real>, f: nat, frame: seq<real>)
    requires 280 + 160 * f <= |samples| && |frame| == 400
    requires forall k | 0 <= k < 400 ::
      frame[k] == Sample(samples, 160 * f - 120 + k) - 97.0 / 100.0 * Sample(samples, 160 * f - 120 + if k == 0 then 0 else k - 1)
    ensures f < |FeaturesOf(mel, samples)| && FeaturesOf(mel, samples)[f] == mel(frame)
  {
    CompleteMeans(|samples|, f);
    var raw := FrameAt(samples, f);
    forall k | 0 <= k < LENGTH ensures raw[k] == Sample(samples, 160 * f - 120 + k) { MirrorNear(OFFSET + f * SHIFT + k, |samples|); }
    forall k | 0 <= k < LENGTH ensures Emphasized(raw)[k] == frame[k] {
      if k == 0 { assert raw[0] * (1.0 - EMPHASIS) == raw[0] - EMPHASIS * raw[0]; }
    }
    assert Emphasized(raw) == frame;
  }

  lemma FeaturesStep(mel: seq<real> -> Feature, samples: seq<real>, count: nat)
    requires samples != []
    ensures FeaturesUpTo(mel, samples, count + 1)
         == FeaturesUpTo(mel, samples, count) + [mel(Emphasized(FrameAt(samples, count)))]
  {}

  lemma FeaturesStay(mel: seq<real> -> Feature, samples: seq<real>, more: seq<real>)
    ensures Complete(|samples|) > 0 ==> samples + more != []
    ensures FeaturesUpTo(mel, samples + more, Complete(|samples|)) == FeaturesOf(mel, samples)
  {
    var a, b := FeaturesOf(mel, samples), FeaturesUpTo(mel, samples + more, Complete(|samples|));
    forall f | 0 <= f < |a| ensures a[f] == b[f] {
      FrameIsFinal(samples, more, f);
    }
  }

  lemma FeaturesExtend(mel: seq<real> -> Feature, samples: seq<real>, more: seq<real>)
    ensures FeaturesOf(mel, samples) <= FeaturesOf(mel, samples + more)
  {
    var a, b := FeaturesOf(mel, samples), FeaturesOf(mel, samples + more);
    CompleteGrows(|samples|, |more|);
    forall f | 0 <= f < |a| ensures a[f] == b[f] {
      FrameIsFinal(samples, more, f);
    }
  }

  lemma CompleteGrows(n: nat, more: nat)
    ensures Complete(n) <= Complete(n + more)
  {}

  // ---------- Windows ----------

  /** The windows that are complete from feature `from` on, `shift` apart. */
  function Windows(features: seq<Feature>, from: nat, width: nat, shift: nat): seq<Window>
    requires shift > 0
    decreases |features| - from
  {
    if from + width < |features| then [features[from..from + width]] + Windows(features, from + shift, width, shift)
    else []
  }

  /** The first feature of the first window that is not complete. */
  function Processed(count: nat, from: nat, width: nat, shift: nat): nat
    requires shift > 0
    decreases count - from
  {
    if from + width < count then Processed(count, from + shift, width, shift) else from
  }

  lemma WindowStep(features: seq<Feature>, from: nat, width: nat, shift: nat)
    requires shift > 0
    ensures from + width < |features| ==>
      && Windows(features, from, width, shift)
           == [features[from..from + width]] + Windows(features, from + shift, width, shift)
      && Processed(|features|, from, width, shift) == Processed(|features|, from + shift, width, shift)
    ensures from + width >= |features| ==>
      Windows(features, from, width, shift) == [] && Processed(|features|, from, width, shift) == from
  {}

  /** Windows handed on from the features so far stay as they are; the rest follow from where those stopped. */
  lemma {:induction false} WindowsContinue(a: seq<Feature>, b: seq<Feature>, from: nat, width: nat, shift: nat)
    requires shift > 0 && a <= b
    ensures var next := Processed(|a|, from, width, shift);
      && Windows(b, from, width, shift) == Windows(a, from, width, shift) + Windows(b, next, width, shift)
      && Processed(|b|, from, width, shift) == Processed(|b|, next, width, shift)
    decreases |a| - from
  {
    if from + width < |a| {
      WindowsContinue(a, b, from + shift, width, shift);
      assert a[from..from + width] == b[from..from + width];
    }
  }

  /** Window `i` starts `i` shifts on, and is handed on as soon as one feature more than it needs is there. */
  lemma {:induction false} WindowsAre(features: seq<Feature>, from: nat, width: nat, shift: nat, i: nat)
    requires shift > 0
    ensures i < |Windows(features, from, width, shift)| <==> from + i * shift + width < |features|
    ensures i < |Windows(features, from, width, shift)| ==>
      Windows(features, from, width, shift)[i] == features[from + i * shift..from + i * shift + width]
    decreases i
  {
    if i > 0 {
      WindowsAre(features, from + shift, width, shift, i - 1);
      assert from + shift + (i - 1) * shift == from + i * shift;
      if from + width >= |features| { assert i * shift >= 0; }
    }
  }

  // ---------- The front end ----------

  class Frontend {
    const mel: seq<real> -> Feature
    const windowFrames: nat
    const shiftFrames: nat
    var samples: seq<real>
    var features: seq<Feature>
    var processed: nat

    ghost predicate Valid()
      reads this
    {
      && shiftFrames > 0
      && features == FeaturesOf(mel, samples)
      && processed == Processed(|features|, 0, windowFrames, shiftFrames)
    }

    constructor (mel: seq<real> -> Feature, windowFrames: nat, shiftFrames: nat)
      requires shiftFrames > 0
      ensures Valid() && samples == []
      ensures this.mel == mel && this.windowFrames == windowFrames && this.shiftFrames == shiftFrames
    {
      this.mel, this.windowFrames, this.shiftFrames := mel, windowFrames, shiftFrames;
      samples, features, processed := [], [], 0;
    }

    method Push(chunk: seq<real>) returns (windows: seq<Window>)
      requires Valid()
      modifies this
      ensures Valid() && samples == old(samples) + chunk
      ensures windows == Windows(FeaturesOf(mel, samples), old(processed), windowFrames, shiftFrames)
    {
      hide FeaturesUpTo, FrameAt, Windows, Processed, Emphasized;
      ghost var before := FeaturesOf(mel, samples);
      FeaturesExtend(mel, samples, chunk);
      FeaturesStay(mel, samples, chunk);
      CompleteGrows(|samples|, |chunk|);
      samples := samples + chunk;
      var complete := if |samples| < FIRST then 0 else 1 + (|samples| - FIRST) / SHIFT;
      while |features| < complete
        invariant samples == old(samples) + chunk && processed == old(processed)
        invariant |features| <= complete && features == FeaturesUpTo(mel, samples, |features|)
      {
        FeaturesStep(mel, samples, |features|);
        var frame := ReadFrame(|features|);
        features := features + [mel(Emphasized(frame))];
      }
      ghost var from := processed;
      WindowsContinue(before, features, 0, windowFrames, shiftFrames);
      windows := [];
      while processed + windowFrames < |features|
        invariant samples == old(samples) + chunk && features == FeaturesOf(mel, samples)
        invariant Windows(features, from, windowFrames, shiftFrames)
               == windows + Windows(features, processed, windowFrames, shiftFrames)
        invariant Processed(|features|, from, windowFrames, shiftFrames)
               == Processed(|features|, processed, windowFrames, shiftFrames)
        decreases |features| - processed
      {
        WindowStep(features, processed, windowFrames, shiftFrames);
        windows := windows + [features[processed..processed + windowFrames]];
        processed := processed + shiftFrames;
      }
      WindowStep(features, processed, windowFrames, shiftFrames);
    }

    method ReadFrame(f: nat) returns (frame: seq<real>)
      requires samples != []
      ensures frame == FrameAt(samples, f)
    {
      frame := [];
      for k := 0 to LENGTH
        invariant |frame| == k && forall i | 0 <= i < k :: frame[i] == FrameAt(samples, f)[i]
      {
        var at := Reflect(OFFSET + f * SHIFT + k, |samples|);
        frame := frame + [samples[at]];
      }
    }
  }

  // ---------- Chunks do not matter ----------

  /** What pushing the chunks one by one returns, joined, from a front end that already has `samples`. */
  function PushAll(
    mel: seq<real> -> Feature, width: nat, shift: nat, samples: seq<real>, processed: nat, chunks: seq<seq<real>>)
    : seq<Window>
    requires shift > 0
    decreases chunks
  {
    if chunks == [] then [] else
    var features := FeaturesOf(mel, samples + chunks[0]);
    Windows(features, processed, width, shift)
      + PushAll(mel, width, shift, samples + chunks[0], Processed(|features|, processed, width, shift), chunks[1..])
  }

  /** From any front end in service, pushing the chunks one by one hands on what pushing them joined would. */
  lemma {:induction false} PushesJoin(
    mel: seq<real> -> Feature, width: nat, shift: nat, samples: seq<real>, processed: nat, chunks: seq<seq<real>>)
    requires shift > 0
    requires processed == Processed(|FeaturesOf(mel, samples)|, 0, width, shift)
    ensures PushAll(mel, width, shift, samples, processed, chunks)
         == Windows(FeaturesOf(mel, samples + Concat(chunks)), processed, width, shift)
    decreases chunks
  {
    if chunks == [] {
      assert samples + [] == samples;
      NothingNew(|FeaturesOf(mel, samples)|, 0, width, shift);
    } else {
      var now := samples + chunks[0];
      var rest := Concat(chunks[1..]);
      var features := FeaturesOf(mel, now);
      FeaturesExtend(mel, samples, chunks[0]);
      FeaturesExtend(mel, now, rest);
      WindowsContinue(FeaturesOf(mel, samples), features, 0, width, shift);
      var next := Processed(|features|, processed, width, shift);
      PushesJoin(mel, width, shift, now, next, chunks[1..]);
      WindowsContinue(features, FeaturesOf(mel, now + rest), processed, width, shift);
      assert now + rest == samples + Concat(chunks);
    }
  }

  lemma {:induction false} NothingNew(count: nat, from: nat, width: nat, shift: nat)
    requires shift > 0
    ensures Processed(count, from, width, shift) + width >= count
    decreases count - from
  {
    if from + width < count { NothingNew(count, from + shift, width, shift); }
  }

  /** For a new front end: any split of the samples into pushes hands on exactly the windows of one push. */
  lemma ChunksDoNotMatter(mel: seq<real> -> Feature, width: nat, shift: nat, chunks: seq<seq<real>>)
    requires shift > 0
    ensures PushAll(mel, width, shift, [], 0, chunks)
         == Windows(FeaturesOf(mel, Concat(chunks)), 0, width, shift)
         == PushAll(mel, width, shift, [], 0, [Concat(chunks)])
  {
    var all := Concat(chunks);
    assert [] + all == all;
    PushesJoin(mel, width, shift, [], 0, chunks);
    PushesJoin(mel, width, shift, [], 0, [all]);
    assert Concat([all]) == all + Concat([]) == all;
  }
}
