/**
 * What the noise canceller asks its model, and what it makes of the answers: the calls over a successful feed as one sequence,
 * each with the caches the call before it returned, and every sample played in terms of the frames that came back.
 */
module OverlapCalls {
  import opened Wrappers
  import opened Sequences
  import opened OverlapAdd

  // ---------- One call ----------

  /** The first value of the model's `mix` input: the transform of two windowed hops, parts side by side. */
  function MixOf(env: Foreign, w: seq<real>, previous: seq<real>, hop: seq<real>): seq<real>
    requires |w| == FFT && |previous| == |hop| == HOP
  {
    Interleaved(env.forward(seq(FFT, i requires 0 <= i < FFT => (if i < HOP then previous[i] else hop[i - HOP]) * w[i])))
  }

  predicate Sizes(c: Cache) { |c.conv| == CONV_CACHE && |c.tfa| == TFA_CACHE && |c.inter| == INTER_CACHE }

  /** The model answers with tensors of the right sizes, and the inverse transform makes a frame of them. */
  predicate Answers(env: Foreign, mix: seq<real>, cache: Cache, next: Cache, frame: seq<real>) {
    var out := env.session(mix, cache);
    && out.Some? && |out.value.enhanced| == 2 * BINS && out.value.cache == next && Sizes(next)
    && env.inverse(Paired(out.value.enhanced)) == Some(frame)
  }

  /** Each cache is replaced by the one returned, as far as sizes are right: first the enhanced spectrum's, then in turn its own. */
  predicate Replaces(out: Option<Outputs>, cache: Cache, next: Cache) {
    var right := out.Some? && |out.value.enhanced| == 2 * BINS;
    var conv := right && |out.value.cache.conv| == CONV_CACHE;
    var tfa := conv && |out.value.cache.tfa| == TFA_CACHE;
    var inter := tfa && |out.value.cache.inter| == INTER_CACHE;
    && next.conv == (if conv then out.value.cache.conv else cache.conv)
    && next.tfa == (if tfa then out.value.cache.tfa else cache.tfa)
    && next.inter == (if inter then out.value.cache.inter else cache.inter)
  }

  // ---------- One frame ----------

  /** The half of a frame that is still to be heard; before the first frame there is none. */
  function Rest(w: seq<real>, last: Option<seq<real>>, i: nat): real
    requires |w| == FFT && (last.Some? ==> |last.value| == FFT) && i < HOP
  {
    if last.Some? then last.value[i + HOP] / (FFT as real) * w[i + HOP] else 0.0
  }

  function RestWeight(w: seq<real>, last: Option<seq<real>>, i: nat): real
    requires |w| == FFT && i < HOP
  {
    if last.Some? then w[i + HOP] * w[i + HOP] else 0.0
  }

  /** The two buffers hold that half, and nothing behind it. */
  ghost predicate Carries(w: seq<real>, s: State, last: Option<seq<real>>)
    requires |w| == FFT && Shaped(s) && (last.Some? ==> |last.value| == FFT)
  {
    && (forall i | 0 <= i < HOP :: s.overlap[i] == Rest(w, last, i) && s.norm[i] == RestWeight(w, last, i))
    && (forall i | HOP <= i < FFT :: s.overlap[i] == 0.0 && s.norm[i] == 0.0)
  }

  /** What a frame plays: its first half over the second half of the one before, by weight. */
  function Mixed(w: seq<real>, last: Option<seq<real>>, frame: seq<real>): (out: seq<real>)
    requires |w| == |frame| == FFT && (last.Some? ==> |last.value| == FFT)
    ensures |out| == HOP
  {
    seq(HOP, i requires 0 <= i < HOP =>
      var weight := RestWeight(w, last, i) + w[i] * w[i];
      if weight > THRESHOLD then (Rest(w, last, i) + frame[i] / (FFT as real) * w[i]) / weight else 0.0)
  }

  lemma MixIs(env: Foreign, w: seq<real>, previous: seq<real>, hop: seq<real>)
    requires |w| == FFT && |previous| == |hop| == HOP
    ensures MixOf(env, w, previous, hop) == Interleaved(env.forward(Windowed(w, previous + hop)))
  {
    hide Interleaved;
    var frame := seq(FFT, i requires 0 <= i < FFT => (if i < HOP then previous[i] else hop[i - HOP]) * w[i]);
    forall i | 0 <= i < FFT ensures Windowed(w, previous + hop)[i] == frame[i] {
      assert (previous + hop)[i] == if i < HOP then previous[i] else hop[i - HOP];
    }
    assert Windowed(w, previous + hop) == frame;
  }

  /** A frame succeeds exactly if model and transform answer; then the buffers carry the new frame. */
  lemma FrameCalls(env: Foreign, w: seq<real>, s: State, hop: seq<real>, last: Option<seq<real>>)
    requires Sized(env) && Shaped(s) && |hop| == HOP && |w| == FFT && (last.Some? ==> |last.value| == FFT) && Carries(w, s, last)
    ensures var r := FrameStep(env, w, s, hop);
      var mix := MixOf(env, w, s.previous, hop);
      && Replaces(env.session(mix, s.cache), s.cache, r.state.cache)
      && (r.played.Some? <==> exists next, frame :: Answers(env, mix, s.cache, next, frame))
      && (forall next, frame | Answers(env, mix, s.cache, next, frame) ::
            |frame| == FFT && r.state.cache == next && r.state.previous == hop && Carries(w, r.state, Some(frame))
            && r.played == Some(Mixed(w, last, frame)))
      && (r.played.None? ==> r.state == s.(cache := r.state.cache))
  {
    hide Interleaved, Paired, Windowed, Summed, Weighed, Played, Shifted;
    MixIs(env, w, s.previous, hop);
    var mix := MixOf(env, w, s.previous, hop);
    var r := FrameStep(env, w, s, hop);
    if r.played.Some? {
      var out := env.session(mix, s.cache).value;
      var frame := env.inverse(Paired(out.enhanced)).value;
      assert Answers(env, mix, s.cache, out.cache, frame);
    }
    forall next, frame | Answers(env, mix, s.cache, next, frame)
      ensures |frame| == FFT && r.state.cache == next && r.state.previous == hop && Carries(w, r.state, Some(frame))
      ensures r.played == Some(Mixed(w, last, frame))
    {
      Buffers(w, s, last, frame, hop, next);
    }
  }

  lemma Buffers(w: seq<real>, s: State, last: Option<seq<real>>, frame: seq<real>, hop: seq<real>, next: Cache)
    requires |w| == |frame| == FFT && |hop| == HOP && Shaped(s) && Sizes(next) && (last.Some? ==> |last.value| == FFT) && Carries(w, s, last)
    ensures var overlap, norm := Summed(s.overlap, frame, w), Weighed(s.norm, w);
      && Played(overlap, norm) == Mixed(w, last, frame)
      && Carries(w, State(hop, s.pending, Shifted(overlap), Shifted(norm), next), Some(frame))
  {
    var overlap, norm := Summed(s.overlap, frame, w), Weighed(s.norm, w);
    forall i | 0 <= i < HOP
      ensures Shifted(overlap)[i] == Rest(w, Some(frame), i) && Shifted(norm)[i] == RestWeight(w, Some(frame), i)
    {
      assert Shifted(overlap)[i] == overlap[i + HOP] && Shifted(norm)[i] == norm[i + HOP];
    }
  }

  // ---------- A whole feed ----------

  function HopAt(x: seq<real>, k: nat): (hop: seq<real>)
    requires (k + 1) * HOP <= |x|
    ensures |hop| == HOP
  {
    x[k * HOP..(k + 1) * HOP]
  }

  /** Hop `k`, counted from the hop in front of the input. */
  function HopBefore(previous: seq<real>, x: seq<real>, k: nat): (hop: seq<real>)
    requires k * HOP <= |x| && |previous| == HOP
    ensures |hop| == HOP
  {
    if k == 0 then previous else HopAt(x, k - 1)
  }

  /** The calls for all complete hops: each gets the caches that the one before it returned. */
  ghost predicate CallsFrom(
    env: Foreign, w: seq<real>, previous: seq<real>, cache: Cache, x: seq<real>, caches: seq<Cache>, frames: seq<seq<real>>)
    requires |w| == FFT && |previous| == HOP
  {
    && |frames| == |x| / HOP && |caches| == |frames| + 1 && caches[0] == cache
    && forall k | 0 <= k < |frames| ::
         Answers(env, MixOf(env, w, HopBefore(previous, x, k), HopAt(x, k)), caches[k], caches[k + 1], frames[k])
  }

  /** The calls over a feed to a fresh engine: silence in front, and caches of zeros. */
  ghost predicate Calls(env: Foreign, w: seq<real>, x: seq<real>, caches: seq<Cache>, frames: seq<seq<real>>)
    requires |w| == FFT
  {
    CallsFrom(env, w, Zeros(HOP), Cache(Zeros(CONV_CACHE), Zeros(TFA_CACHE), Zeros(INTER_CACHE)), x, caches, frames)
  }

  ghost predicate Whole(frames: seq<seq<real>>) { forall k | 0 <= k < |frames| :: |frames[k]| == FFT }

  function LastOf(last: Option<seq<real>>, frames: seq<seq<real>>, k: nat): Option<seq<real>>
    requires k <= |frames|
  {
    if k == 0 then last else Some(frames[k - 1])
  }

  /** Every sample, in terms of the frames. */
  ghost function Overlapped(w: seq<real>, last: Option<seq<real>>, frames: seq<seq<real>>): (out: seq<real>)
    requires |w| == FFT && Whole(frames) && (last.Some? ==> |last.value| == FFT)
    ensures |out| == |frames| * HOP
  {
    seq(|frames| * HOP, n requires 0 <= n < |frames| * HOP => Mixed(w, LastOf(last, frames, n / HOP), frames[n / HOP])[n % HOP])
  }

  lemma FirstCall(env: Foreign, w: seq<real>, previous: seq<real>, cache: Cache, x: seq<real>, caches: seq<Cache>, frames: seq<seq<real>>)
    requires |w| == FFT && |previous| == HOP && |x| >= HOP && CallsFrom(env, w, previous, cache, x, caches, frames)
    ensures |frames| >= 1 && Answers(env, MixOf(env, w, previous, x[..HOP]), cache, caches[1], frames[0])
    ensures CallsFrom(env, w, x[..HOP], caches[1], x[HOP..], caches[1..], frames[1..])
  {
    hide Answers, MixOf;
    var hop, rest := x[..HOP], x[HOP..];
    assert HopAt(x, 0) == hop && HopBefore(previous, x, 0) == previous;
    forall k | 0 <= k < |frames[1..]|
      ensures Answers(env, MixOf(env, w, HopBefore(hop, rest, k), HopAt(rest, k)), caches[1..][k], caches[1..][k + 1], frames[1..][k])
    {
      HopShifts(previous, x, k);
    }
  }

  lemma HopShifts(previous: seq<real>, x: seq<real>, k: nat)
    requires |previous| == HOP && |x| >= HOP && (k + 1) * HOP <= |x[HOP..]|
    ensures HopAt(x[HOP..], k) == HopAt(x, k + 1)
    ensures HopBefore(x[..HOP], x[HOP..], k) == HopBefore(previous, x, k + 1)
  {
    assert k > 0 ==> HopAt(x[HOP..], k - 1) == HopAt(x, k);
  }

  lemma CallsPrepend(
    env: Foreign, w: seq<real>, previous: seq<real>, cache: Cache, x: seq<real>, next: Cache, frame: seq<real>,
    caches: seq<Cache>, frames: seq<seq<real>>)
    requires |w| == FFT && |previous| == HOP && |x| >= HOP
    requires Answers(env, MixOf(env, w, previous, x[..HOP]), cache, next, frame)
    requires CallsFrom(env, w, x[..HOP], next, x[HOP..], caches, frames)
    ensures CallsFrom(env, w, previous, cache, x, [cache] + caches, [frame] + frames)
  {
    hide Answers, MixOf;
    assert HopAt(x, 0) == x[..HOP];
    forall k | 0 <= k < |[frame] + frames|
      ensures Answers(env, MixOf(env, w, HopBefore(previous, x, k), HopAt(x, k)), ([cache] + caches)[k], ([cache] + caches)[k + 1],
                      ([frame] + frames)[k])
    {
      if k > 0 { HopShifts(previous, x, k - 1); }
    }
  }

  lemma OverlappedFirst(w: seq<real>, last: Option<seq<real>>, frames: seq<seq<real>>)
    requires |w| == FFT && frames != [] && Whole(frames) && (last.Some? ==> |last.value| == FFT)
    ensures Overlapped(w, last, frames) == Mixed(w, last, frames[0]) + Overlapped(w, Some(frames[0]), frames[1..])
  {
    hide Mixed;
    var whole, first, rest := Overlapped(w, last, frames), Mixed(w, last, frames[0]), Overlapped(w, Some(frames[0]), frames[1..]);
    forall n | 0 <= n < |whole| ensures whole[n] == (first + rest)[n] {
      if n >= HOP {
        assert n / HOP == (n - HOP) / HOP + 1 && n % HOP == (n - HOP) % HOP;
      }
    }
  }

  /** A drain that succeeds makes these calls, and one that can make them succeeds. */
  lemma {:induction false} DrainMakesCalls(env: Foreign, w: seq<real>, s: State, last: Option<seq<real>>)
    returns (caches: seq<Cache>, frames: seq<seq<real>>)
    requires Sized(env) && Shaped(s) && |w| == FFT && (last.Some? ==> |last.value| == FFT) && Carries(w, s, last)
    requires Drain(env, w, s).played.Some?
    ensures CallsFrom(env, w, s.previous, s.cache, s.pending, caches, frames)
    decreases |s.pending|
  {
    hide FrameStep, Answers, MixOf, Carries, Sized;
    if |s.pending| < HOP {
      caches, frames := [s.cache], [];
    } else {
      var hop, popped := s.pending[..HOP], s.(pending := s.pending[HOP..]);
      CarriesAnyPending(w, s, last, popped.pending);
      FrameCalls(env, w, popped, hop, last);
      var first := FrameStep(env, w, popped, hop);
      var next, frame :| Answers(env, MixOf(env, w, s.previous, hop), s.cache, next, frame);
      caches, frames := DrainMakesCalls(env, w, first.state, Some(frame));
      CallsPrepend(env, w, s.previous, s.cache, s.pending, next, frame, caches, frames);
      caches, frames := [s.cache] + caches, [frame] + frames;
    }
  }

  lemma CarriesAnyPending(w: seq<real>, s: State, last: Option<seq<real>>, pending: seq<real>)
    requires |w| == FFT && Shaped(s) && (last.Some? ==> |last.value| == FFT) && Carries(w, s, last)
    ensures Carries(w, s.(pending := pending), last)
  {}

  lemma {:induction false} CallsMakeDrain(
    env: Foreign, w: seq<real>, s: State, last: Option<seq<real>>, caches: seq<Cache>, frames: seq<seq<real>>)
    requires Sized(env) && Shaped(s) && |w| == FFT && (last.Some? ==> |last.value| == FFT) && Carries(w, s, last)
    requires CallsFrom(env, w, s.previous, s.cache, s.pending, caches, frames)
    ensures Whole(frames) && Drain(env, w, s).played == Some(Overlapped(w, last, frames))
    ensures Drain(env, w, s).state.cache == caches[|frames|]
    decreases |s.pending|
  {
    hide FrameStep, Answers, MixOf, Carries, Sized, Mixed;
    if |s.pending| >= HOP {
      var hop, popped := s.pending[..HOP], s.(pending := s.pending[HOP..]);
      CarriesAnyPending(w, s, last, popped.pending);
      FrameCalls(env, w, popped, hop, last);
      var first := FrameStep(env, w, popped, hop);
      FirstCall(env, w, s.previous, s.cache, s.pending, caches, frames);
      CallsMakeDrain(env, w, first.state, Some(frames[0]), caches[1..], frames[1..]);
      assert forall k | 1 <= k < |frames| :: frames[k] == frames[1..][k - 1];
      OverlappedFirst(w, last, frames);
    }
  }

  /**
   * Over any chunking: the feed succeeds exactly if there is a sequence of calls, the first with caches of zeros, each other with
   * the caches the call before it returned and with the transform of its own two hops; and then the samples played are the
   * overlapped frames of those calls, and the caches kept are the last ones returned.
   */
  lemma FeedMakesCalls(env: Foreign, w: seq<real>, chunks: seq<seq<real>>)
    requires Sized(env) && |w| == FFT
    ensures var x, r := Concat(chunks), Feed(env, w, Fresh(), chunks);
      && (r.played.Some? <==> exists caches, frames :: Calls(env, w, x, caches, frames))
      && (forall caches, frames | Calls(env, w, x, caches, frames) ::
            Whole(frames) && r.played == Some(Overlapped(w, None, frames)) && r.state.cache == caches[|frames|])
  {
    hide Drain, FrameStep, CallsFrom, Overlapped, Sized, Whole;
    var x, s := Concat(chunks), Extend(Fresh(), Concat(chunks));
    assert s.pending == x;
    ChunksDoNotMatter(env, w, Fresh(), chunks);
    ProcessIsDrain(env, w, Fresh(), x);
    StartsSilent(w, s);
    if Drain(env, w, s).played.Some? {
      var caches, frames := DrainMakesCalls(env, w, s, None);
      assert Calls(env, w, x, caches, frames);
    }
    forall caches, frames | Calls(env, w, x, caches, frames)
      ensures Whole(frames) && Drain(env, w, s).played == Some(Overlapped(w, None, frames)) && |caches| == |frames| + 1
      ensures Drain(env, w, s).state.cache == caches[|frames|]
    {
      CountCalls(env, w, x, caches, frames);
      CallsMakeDrain(env, w, s, None, caches, frames);
    }
  }

  lemma CountCalls(env: Foreign, w: seq<real>, x: seq<real>, caches: seq<Cache>, frames: seq<seq<real>>)
    requires |w| == FFT && Calls(env, w, x, caches, frames)
    ensures |caches| == |frames| + 1
  {}

  lemma StartsSilent(w: seq<real>, s: State)
    requires |w| == FFT && s.overlap == s.norm == Zeros(FFT) && Shaped(s)
    ensures Carries(w, s, None)
  {}
}
