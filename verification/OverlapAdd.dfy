/**
 * The streaming noise canceller: hops of 256 samples are paired into windowed frames of 512, sent
 * through a spectral model, and the enhanced frames are overlapped, added and normalised.
 *
 * The two Fourier transforms and the model session are foreign calls, here the functions of `Foreign`.
 */
module OverlapAdd {
  import opened Wrappers
  import opened Sequences

  const HOP := 256
  const FFT := 512
  const BINS := 257
  const CONV_CACHE := 5358
  const TFA_CACHE := 402
  const INTER_CACHE := 1056
  const THRESHOLD := 0.000001

  datatype Complex = Complex(re: real, im: real)

  datatype Cache = Cache(conv: seq<real>, tfa: seq<real>, inter: seq<real>)

  datatype Outputs = Outputs(enhanced: seq<real>, cache: Cache)

  datatype Foreign = Foreign(
    forward: seq<real> -> seq<Complex>,
    session: (seq<real>, Cache) -> Option<Outputs>,
    inverse: seq<Complex> -> Option<seq<real>>)

  /** The transforms return vectors of the sizes their planner fixed. */
  ghost predicate Sized(env: Foreign) {
    && (forall frame: seq<real> :: |env.forward(frame)| == BINS)
    && (forall spectrum: seq<Complex> :: env.inverse(spectrum).Some? ==> |env.inverse(spectrum).value| == FFT)
  }

  datatype State = State(
    previous: seq<real>,
    pending: seq<real>,
    overlap: seq<real>,
    norm: seq<real>,
    cache: Cache)

  /** What one call leaves behind and what it plays: nothing at all when a foreign call failed. */
  datatype Reply = Reply(state: State, played: Option<seq<real>>)

  predicate Shaped(s: State) {
    && |s.previous| == HOP
    && |s.overlap| == |s.norm| == FFT
    && |s.cache.conv| == CONV_CACHE && |s.cache.tfa| == TFA_CACHE && |s.cache.inter| == INTER_CACHE
  }

  function Zeros(n: nat): (z: seq<real>)
    ensures |z| == n && forall i | 0 <= i < n :: z[i] == 0.0
  {
    seq(n, _ => 0.0)
  }

  function Fresh(): State {
    State(Zeros(HOP), [], Zeros(FFT), Zeros(FFT), Cache(Zeros(CONV_CACHE), Zeros(TFA_CACHE), Zeros(INTER_CACHE)))
  }

  /** Real and imaginary parts side by side, the layout of the model's `mix` input. */
  function Interleaved(spectrum: seq<Complex>): (mix: seq<real>)
    ensures |mix| == 2 * |spectrum|
  {
    seq(2 * |spectrum|, k requires 0 <= k < 2 * |spectrum| =>
      if k % 2 == 0 then spectrum[k / 2].re else spectrum[k / 2].im)
  }

  function Paired(mix: seq<real>): (spectrum: seq<Complex>)
    ensures |spectrum| == |mix| / 2
  {
    seq(|mix| / 2, k requires 0 <= k < |mix| / 2 => Complex(mix[2 * k], mix[2 * k + 1]))
  }

  /** The real part of each bin comes first. */
  lemma InterleavedAt(spectrum: seq<Complex>, k: nat)
    requires k < |spectrum|
    ensures Interleaved(spectrum)[2 * k] == spectrum[k].re && Interleaved(spectrum)[2 * k + 1] == spectrum[k].im
  {
    assert (2 * k) % 2 == 0 && (2 * k) / 2 == k && (2 * k + 1) % 2 == 1 && (2 * k + 1) / 2 == k;
  }

  lemma PairedInterleaved(spectrum: seq<Complex>)
    ensures Paired(Interleaved(spectrum)) == spectrum
  {
    var mix := Interleaved(spectrum);
    forall k | 0 <= k < |spectrum| ensures Paired(mix)[k] == spectrum[k] {
      assert (2 * k) % 2 == 0 && (2 * k) / 2 == k && (2 * k + 1) % 2 == 1 && (2 * k + 1) / 2 == k;
    }
  }

  /** Each cache is replaced only when the model returned the right size; a wrong size keeps the ones before it. */
  function RunModel(env: Foreign, spectrum: seq<Complex>, cache: Cache): (Cache, Option<seq<Complex>>) {
    match env.session(Interleaved(spectrum), cache)
    case None => (cache, None)
    case Some(out) =>
      if |out.enhanced| != 2 * BINS then (cache, None)
      else if |out.cache.conv| != |cache.conv| then (cache, None)
      else if |out.cache.tfa| != |cache.tfa| then (cache.(conv := out.cache.conv), None)
      else if |out.cache.inter| != |cache.inter| then (out.cache.(inter := cache.inter), None)
      else (out.cache, Some(Paired(out.enhanced)))
  }

  function Windowed(w: seq<real>, frame: seq<real>): (r: seq<real>)
    requires |w| == |frame|
    ensures |r| == |w|
  {
    seq(|w|, i requires 0 <= i < |w| => frame[i] * w[i])
  }

  /** What the front hop plays: sums divided by their weight, silence where the weight is too small. */
  function Played(overlap: seq<real>, norm: seq<real>): (out: seq<real>)
    requires |overlap| == |norm| == FFT
    ensures |out| == HOP
  {
    seq(HOP, i requires 0 <= i < HOP => if norm[i] > THRESHOLD then overlap[i] / norm[i] else 0.0)
  }

  function Shifted(buffer: seq<real>): (r: seq<real>)
    requires |buffer| == FFT
    ensures |r| == FFT
  {
    buffer[HOP..] + Zeros(HOP)
  }

  function Summed(overlap: seq<real>, enhanced: seq<real>, w: seq<real>): (r: seq<real>)
    requires |overlap| == |enhanced| == |w| == FFT
    ensures |r| == FFT
  {
    seq(FFT, i requires 0 <= i < FFT => overlap[i] + enhanced[i] / (FFT as real) * w[i])
  }

  function Weighed(norm: seq<real>, w: seq<real>): (r: seq<real>)
    requires |norm| == |w| == FFT
    ensures |r| == FFT
  {
    seq(FFT, i requires 0 <= i < FFT => norm[i] + w[i] * w[i])
  }

  /** One hop through the engine; a failing model or transform plays nothing and keeps the buffers. */
  ghost function FrameStep(env: Foreign, w: seq<real>, s: State, hop: seq<real>): (r: Reply)
    requires Sized(env) && Shaped(s) && |hop| == HOP && |w| == FFT
    ensures Shaped(r.state) && r.state.pending == s.pending && (r.played.Some? ==> |r.played.value| == HOP)
  {
    var (cache, spectrum) := RunModel(env, env.forward(Windowed(w, s.previous + hop)), s.cache);
    var failed := s.(cache := cache);
    if spectrum.None? then Reply(failed, None) else
    var enhanced := env.inverse(spectrum.value);
    if enhanced.None? then Reply(failed, None) else
    var overlap := Summed(s.overlap, enhanced.value, w);
    var norm := Weighed(s.norm, w);
    Reply(State(hop, s.pending, Shifted(overlap), Shifted(norm), cache), Some(Played(overlap, norm)))
  }

  /** Every complete hop that is pending, in order, up to the first failure. */
  ghost function Drain(env: Foreign, w: seq<real>, s: State): (r: Reply)
    requires Sized(env) && Shaped(s) && |w| == FFT
    ensures Shaped(r.state)
    decreases |s.pending|
  {
    if |s.pending| < HOP then Reply(s, Some([])) else
    var first := FrameStep(env, w, s.(pending := s.pending[HOP..]), s.pending[..HOP]);
    if first.played.None? then first else Resumed(Drain(env, w, first.state), first.played.value)
  }

  ghost function Extend(s: State, samples: seq<real>): State {
    s.(pending := s.pending + samples)
  }

  ghost function ProcessStep(env: Foreign, w: seq<real>, s: State, samples: seq<real>): (r: Reply)
    requires Sized(env) && Shaped(s) && |w| == FFT
    ensures Shaped(r.state)
  {
    if samples == [] then Reply(s, Some([])) else Drain(env, w, Extend(s, samples))
  }

  // ---------- The engine ----------

  class Engine {
    const env: Foreign
    const window: seq<real>
    var previousHop: seq<real>
    var pending: seq<real>
    var overlap: seq<real>
    var norm: seq<real>
    var cache: Cache

    ghost function Snapshot(): State
      reads this
    {
      State(previousHop, pending, overlap, norm, cache)
    }

    ghost predicate Valid()
      reads this
    {
      Sized(env) && |window| == FFT && Shaped(Snapshot())
    }

    constructor (env: Foreign, window: seq<real>)
      requires Sized(env) && |window| == FFT
      ensures Valid() && Snapshot() == Fresh() && this.env == env && this.window == window
    {
      this.env, this.window := env, window;
      previousHop, pending, overlap, norm := Zeros(HOP), [], Zeros(FFT), Zeros(FFT);
      cache := Cache(Zeros(CONV_CACHE), Zeros(TFA_CACHE), Zeros(INTER_CACHE));
    }

    method PopHop() returns (output: seq<real>)
      requires |overlap| == |norm| == FFT
      modifies this`overlap, this`norm
      ensures output == Played(old(overlap), old(norm))
      ensures overlap == Shifted(old(overlap)) && norm == Shifted(old(norm))
    {
      output := [];
      assert overlap[0..] + Zeros(0) == overlap && norm[0..] + Zeros(0) == norm;
      for k := 0 to HOP
        invariant output == Played(old(overlap), old(norm))[..k]
        invariant overlap == old(overlap)[k..] + Zeros(k) && norm == old(norm)[k..] + Zeros(k)
      {
        hide Played, Zeros;
        var sample, weight := overlap[0], norm[0];
        PlayedAt(old(overlap), old(norm), k);
        ShiftOne(old(overlap), k);
        ShiftOne(old(norm), k);
        output := output + [if weight > THRESHOLD then sample / weight else 0.0];
        overlap, norm := overlap[1..] + [0.0], norm[1..] + [0.0];
      }
    }

    method ProcessFrame(hop: seq<real>) returns (output: Option<seq<real>>)
      requires Valid() && |hop| == HOP
      modifies this
      ensures Valid()
      ensures Reply(Snapshot(), output) == FrameStep(env, window, old(Snapshot()), hop)
    {
      var spectrum := env.forward(Windowed(window, previousHop + hop));
      var (newCache, modelled) := RunModel(env, spectrum, cache);
      cache := newCache;
      if modelled.None? { return None; }
      var inverted := env.inverse(modelled.value);
      if inverted.None? { return None; }
      var frame := inverted.value;
      var i := 0;
      while i < FFT
        invariant 0 <= i <= FFT && |overlap| == |norm| == FFT
        invariant previousHop == old(previousHop) && pending == old(pending) && cache == newCache
        invariant forall k | 0 <= k < i ::
          overlap[k] == Summed(old(overlap), frame, window)[k] && norm[k] == Weighed(old(norm), window)[k]
        invariant forall k | i <= k < FFT :: overlap[k] == old(overlap)[k] && norm[k] == old(norm)[k]
      {
        var sample := frame[i] / (FFT as real) * window[i];
        overlap := overlap[i := overlap[i] + sample];
        norm := norm[i := norm[i] + window[i] * window[i]];
        i := i + 1;
      }
      assert overlap == Summed(old(overlap), frame, window) && norm == Weighed(old(norm), window);
      var played := PopHop();
      previousHop := hop;
      output := Some(played);
    }

    method Process(samples: seq<real>) returns (output: Option<seq<real>>)
      requires Valid()
      modifies this
      ensures Valid()
      ensures Reply(Snapshot(), output) == ProcessStep(env, window, old(Snapshot()), samples)
    {
      if samples == [] { return Some([]); }
      pending := pending + samples;
      ghost var start := Snapshot();
      assert start == Extend(old(Snapshot()), samples);
      var played := [];
      ResumedNil(Drain(env, window, start));
      while |pending| >= HOP
        invariant Valid()
        invariant Drain(env, window, start) == Resumed(Drain(env, window, Snapshot()), played)
        decreases |pending|
      {
        hide FrameStep;
        ghost var before := Snapshot();
        var hop := pending[..HOP];
        pending := pending[HOP..];
        assert Snapshot() == before.(pending := before.pending[HOP..]);
        var out := ProcessFrame(hop);
        if out.None? { return None; }
        ResumedTwice(Drain(env, window, Snapshot()), out.value, played);
        played := played + out.value;
      }
      assert played + [] == played;
      output := Some(played);
    }
  }

  lemma PlayedAt(overlap: seq<real>, norm: seq<real>, k: nat)
    requires |overlap| == |norm| == FFT && k < HOP
    ensures var sample, weight := overlap[k], norm[k];
      Played(overlap, norm)[..k + 1]
        == Played(overlap, norm)[..k] + [if weight > THRESHOLD then sample / weight else 0.0]
  {}

  lemma ShiftOne(buffer: seq<real>, k: nat)
    requires |buffer| == FFT && k < HOP
    ensures (buffer[k..] + Zeros(k))[0] == buffer[k]
    ensures (buffer[k..] + Zeros(k))[1..] + [0.0] == buffer[k + 1..] + Zeros(k + 1)
  {}

  /** The outcome of the rest of a drain, behind what was already played. */
  ghost function Resumed(r: Reply, played: seq<real>): Reply {
    Reply(r.state, if r.played.None? then None else Some(played + r.played.value))
  }

  lemma ResumedNil(r: Reply)
    ensures Resumed(r, []) == r
  {
    if r.played.Some? { assert [] + r.played.value == r.played.value; }
  }

  lemma ResumedTwice(r: Reply, later: seq<real>, earlier: seq<real>)
    ensures Resumed(Resumed(r, later), earlier) == Resumed(r, earlier + later)
  {
    if r.played.Some? { assert earlier + (later + r.played.value) == (earlier + later) + r.played.value; }
  }

  // ---------- Chunks do not matter ----------

  /** Draining and then appending is appending and then draining, with the drain picking up where it stopped. */
  lemma {:induction false} DrainAppend(env: Foreign, w: seq<real>, s: State, more: seq<real>)
    requires Sized(env) && Shaped(s) && |w| == FFT
    ensures Drain(env, w, s).played.None? ==>
      Drain(env, w, Extend(s, more)) == Reply(Extend(Drain(env, w, s).state, more), None)
    ensures Drain(env, w, s).played.Some? ==>
      Drain(env, w, Extend(s, more)) == Resumed(Drain(env, w, Extend(Drain(env, w, s).state, more)), Drain(env, w, s).played.value)
    decreases |s.pending|
  {
    hide FrameStep;
    var whole := Extend(s, more);
    if |s.pending| < HOP {
      ResumedNil(Drain(env, w, whole));
    } else {
      assert whole.pending[..HOP] == s.pending[..HOP];
      assert whole.pending[HOP..] == s.pending[HOP..] + more;
      var first := FrameStep(env, w, s.(pending := s.pending[HOP..]), s.pending[..HOP]);
      FrameIgnoresPending(env, w, s.(pending := s.pending[HOP..]), s.pending[..HOP], s.pending[HOP..] + more);
      if first.played.Some? {
        DrainAppend(env, w, first.state, more);
        var rest := Drain(env, w, first.state);
        if rest.played.Some? {
          ResumedTwice(Drain(env, w, Extend(rest.state, more)), rest.played.value, first.played.value);
        }
      }
    }
  }

  lemma FrameIgnoresPending(env: Foreign, w: seq<real>, s: State, hop: seq<real>, pending: seq<real>)
    requires Sized(env) && Shaped(s) && |hop| == HOP && |w| == FFT
    ensures FrameStep(env, w, s.(pending := pending), hop)
         == Reply(FrameStep(env, w, s, hop).state.(pending := pending), FrameStep(env, w, s, hop).played)
  {}

  /** One call per chunk, the outputs joined; a failing call ends the feed. */
  ghost function Feed(env: Foreign, w: seq<real>, s: State, chunks: seq<seq<real>>): (r: Reply)
    requires Sized(env) && Shaped(s) && |w| == FFT
    ensures Shaped(r.state)
    decreases chunks
  {
    if chunks == [] then Reply(s, Some([])) else
    var first := ProcessStep(env, w, s, chunks[0]);
    if first.played.None? then first else Resumed(Feed(env, w, first.state, chunks[1..]), first.played.value)
  }

  /**
   * However the input is split into calls, the calls succeed exactly when one call with all of it would, and
   * then the joined output and the state left behind are those of that one call.
   */
  lemma {:induction false} ChunksDoNotMatter(env: Foreign, w: seq<real>, s: State, chunks: seq<seq<real>>)
    requires Sized(env) && Shaped(s) && |w| == FFT && |s.pending| < HOP
    ensures Feed(env, w, s, chunks).played == ProcessStep(env, w, s, Concat(chunks)).played
    ensures Feed(env, w, s, chunks).played.Some? ==> Feed(env, w, s, chunks) == ProcessStep(env, w, s, Concat(chunks))
    decreases chunks
  {
    hide Drain, ProcessStep, Sized, Shaped, Zeros;
    if chunks == [] {
      ProcessNothing(env, w, s);
    } else {
      var first := ProcessStep(env, w, s, chunks[0]);
      ProcessAppend(env, w, s, chunks[0], Concat(chunks[1..]));
      if first.played.Some? {
        ChunksDoNotMatter(env, w, first.state, chunks[1..]);
      }
    }
  }

  lemma ProcessNothing(env: Foreign, w: seq<real>, s: State)
    requires Sized(env) && Shaped(s) && |w| == FFT
    ensures ProcessStep(env, w, s, []) == Reply(s, Some([]))
  {}

  lemma ProcessIsDrain(env: Foreign, w: seq<real>, s: State, x: seq<real>)
    requires Sized(env) && Shaped(s) && |w| == FFT && |s.pending| < HOP
    ensures ProcessStep(env, w, s, x) == Drain(env, w, Extend(s, x))
  {
    if x == [] {
      assert Extend(s, x) == s;
      DrainWhole(env, w, s);
    }
  }

  lemma ProcessAppend(env: Foreign, w: seq<real>, s: State, x: seq<real>, more: seq<real>)
    requires Sized(env) && Shaped(s) && |w| == FFT && |s.pending| < HOP
    ensures ProcessStep(env, w, s, x).played.None? ==> ProcessStep(env, w, s, x + more).played.None?
    ensures ProcessStep(env, w, s, x).played.Some? ==>
      var first := ProcessStep(env, w, s, x);
      && |first.state.pending| < HOP
      && ProcessStep(env, w, s, x + more) == Resumed(ProcessStep(env, w, first.state, more), first.played.value)
  {
    hide Drain, ProcessStep;
    var start := Extend(s, x);
    ProcessIsDrain(env, w, s, x);
    ProcessIsDrain(env, w, s, x + more);
    assert Extend(start, more) == Extend(s, x + more);
    DrainAppend(env, w, start, more);
    DrainWhole(env, w, start);
    var first := Drain(env, w, start);
    if first.played.Some? {
      ProcessIsDrain(env, w, first.state, more);
    }
  }

  lemma HopsBehind(pending: seq<real>)
    requires |pending| >= HOP
    ensures |pending[HOP..]| / HOP * HOP + HOP == |pending| / HOP * HOP
    ensures |pending| / HOP * HOP <= |pending|
    ensures pending[HOP..][|pending[HOP..]| / HOP * HOP..] == pending[|pending| / HOP * HOP..]
  {
    var n := |pending[HOP..]| / HOP;
    assert |pending| / HOP == n + 1;
  }

  /** A successful drain leaves less than a hop, and plays every complete hop it was given. */
  lemma {:induction false} DrainWhole(env: Foreign, w: seq<real>, s: State)
    requires Sized(env) && Shaped(s) && |w| == FFT
    ensures |s.pending| < HOP ==> Drain(env, w, s) == Reply(s, Some([]))
    ensures Drain(env, w, s).played.Some? ==>
      && |Drain(env, w, s).played.value| == |s.pending| / HOP * HOP
      && Drain(env, w, s).state.pending == s.pending[|s.pending| / HOP * HOP..]
    decreases |s.pending|
  {
    hide FrameStep;
    if |s.pending| >= HOP {
      var first := FrameStep(env, w, s.(pending := s.pending[HOP..]), s.pending[..HOP]);
      HopsBehind(s.pending);
      if first.played.Some? {
        DrainWhole(env, w, first.state);
      }
    }
  }

  // ---------- Overlap-add reconstructs ----------

  /** The model returns its input spectrum, and the inverse transform undoes the forward one up to the factor 512. */
  ghost predicate Transparent(env: Foreign) {
    && (forall mix: seq<real>, cache: Cache {:trigger env.session(mix, cache)} ::
          env.session(mix, cache).Some? && env.session(mix, cache).value.enhanced == mix
          && |env.session(mix, cache).value.cache.conv| == |cache.conv|
          && |env.session(mix, cache).value.cache.tfa| == |cache.tfa|
          && |env.session(mix, cache).value.cache.inter| == |cache.inter|)
    && (forall frame: seq<real> | |frame| == FFT :: env.inverse(env.forward(frame)) == Some(Scaled(frame)))
  }

  function Scaled(frame: seq<real>): (r: seq<real>)
    ensures |r| == |frame|
  {
    seq(|frame|, i requires 0 <= i < |frame| => (FFT as real) * frame[i])
  }

  /** The two windows that meet at offset `i` of a hop weigh enough together. */
  predicate Heard(w: seq<real>, i: nat)
    requires |w| == FFT && i < HOP
  {
    w[i] * w[i] + w[i + HOP] * w[i + HOP] > THRESHOLD
  }

  /** The hop as it is played back one hop later. */
  function Masked(w: seq<real>, hop: seq<real>): (r: seq<real>)
    requires |w| == FFT && |hop| == HOP
    ensures |r| == HOP
  {
    seq(HOP, i requires 0 <= i < HOP => if Heard(w, i) then hop[i] else 0.0)
  }

  /** The overlap buffer holds the second half of the last frame, and nothing behind it. */
  ghost predicate Steady(w: seq<real>, s: State)
    requires |w| == FFT && Shaped(s)
  {
    && (forall i | 0 <= i < HOP :: s.overlap[i] == s.previous[i] * w[i + HOP] * w[i + HOP])
    && (forall i | 0 <= i < HOP :: s.norm[i] == w[i + HOP] * w[i + HOP])
    && (forall i | HOP <= i < FFT :: s.overlap[i] == s.norm[i] == 0.0)
  }

  /** With a transparent model the frame that comes back is the windowed frame, 512 times. */
  lemma TransparentFrame(env: Foreign, w: seq<real>, s: State, hop: seq<real>) returns (cache: Cache)
    requires Sized(env) && Transparent(env) && Shaped(s) && |hop| == HOP && |w| == FFT
    ensures
      var enhanced := Scaled(Windowed(w, s.previous + hop));
      var overlap := Summed(s.overlap, enhanced, w);
      var norm := Weighed(s.norm, w);
      FrameStep(env, w, s, hop)
        == Reply(State(hop, s.pending, Shifted(overlap), Shifted(norm), cache), Some(Played(overlap, norm)))
  {
    hide Summed, Weighed, Shifted, Played, Windowed, Scaled, Interleaved, Paired;
    var spectrum := env.forward(Windowed(w, s.previous + hop));
    PairedInterleaved(spectrum);
    cache := RunModel(env, spectrum, s.cache).0;
  }

  lemma Undone(x: real, a: real)
    ensures (FFT as real) * (x * a) / (FFT as real) * a == x * a * a
  {}

  lemma Mixture(p: real, a: real, b: real, weight: real)
    requires weight == b * b + a * a && weight > 0.0
    ensures (p * b * b + p * a * a) / weight == p
  {
    assert p * b * b + p * a * a == p * weight;
  }

  /** What one transparent frame adds to the two buffers. */
  lemma Sums(w: seq<real>, overlap: seq<real>, norm: seq<real>, frame: seq<real>, i: nat)
    requires |overlap| == |norm| == |frame| == |w| == FFT && i < FFT
    ensures Summed(overlap, Scaled(Windowed(w, frame)), w)[i] == overlap[i] + frame[i] * w[i] * w[i]
    ensures Weighed(norm, w)[i] == norm[i] + w[i] * w[i]
  {
    Undone(frame[i], w[i]);
  }

  lemma AllSums(w: seq<real>, s: State, frame: seq<real>)
    requires |frame| == |w| == FFT && Shaped(s)
    ensures Added(w, s, frame, Summed(s.overlap, Scaled(Windowed(w, frame)), w), Weighed(s.norm, w))
  {
    hide Summed, Weighed, Scaled, Windowed;
    var overlap, norm := Summed(s.overlap, Scaled(Windowed(w, frame)), w), Weighed(s.norm, w);
    forall i | 0 <= i < FFT
      ensures overlap[i] == s.overlap[i] + frame[i] * w[i] * w[i] && norm[i] == s.norm[i] + w[i] * w[i]
    {
      Sums(w, s.overlap, s.norm, frame, i);
    }
  }

  lemma PlaysPrevious(w: seq<real>, previous: seq<real>, overlap: seq<real>, norm: seq<real>)
    requires |previous| == HOP && |w| == |overlap| == |norm| == FFT
    requires forall i | 0 <= i < HOP ::
      overlap[i] == previous[i] * w[i + HOP] * w[i + HOP] + previous[i] * w[i] * w[i]
    requires forall i | 0 <= i < HOP :: norm[i] == w[i + HOP] * w[i + HOP] + w[i] * w[i]
    ensures Played(overlap, norm) == Masked(w, previous)
  {
    forall i | 0 <= i < HOP ensures Played(overlap, norm)[i] == Masked(w, previous)[i] {
      if norm[i] > THRESHOLD { Mixture(previous[i], w[i], w[i + HOP], norm[i]); }
    }
  }

  /** A steady frame plays the hop before it and stays steady. */
  lemma SteadyFrame(env: Foreign, w: seq<real>, s: State, hop: seq<real>)
    requires Sized(env) && Transparent(env) && Shaped(s) && |hop| == HOP && |w| == FFT && Steady(w, s)
    ensures var r := FrameStep(env, w, s, hop);
      r.played == Some(Masked(w, s.previous)) && Steady(w, r.state) && r.state.previous == hop
  {
    hide FrameStep, Sized, Transparent, Summed, Weighed, Scaled, Windowed, Played, Masked, Steady, Shifted, Added;
    var cache := TransparentFrame(env, w, s, hop);
    var frame := s.previous + hop;
    var overlap, norm := Summed(s.overlap, Scaled(Windowed(w, frame)), w), Weighed(s.norm, w);
    AllSums(w, s, frame);
    FrontSums(w, s, hop, overlap, norm);
    PlaysPrevious(w, s.previous, overlap, norm);
    BackSums(w, s, hop, overlap, norm, cache);
  }

  ghost predicate Added(w: seq<real>, s: State, frame: seq<real>, overlap: seq<real>, norm: seq<real>)
    requires |w| == |frame| == |overlap| == |norm| == FFT && Shaped(s)
  {
    && (forall i | 0 <= i < FFT :: overlap[i] == s.overlap[i] + frame[i] * w[i] * w[i])
    && (forall i | 0 <= i < FFT :: norm[i] == s.norm[i] + w[i] * w[i])
  }

  lemma FrontSums(w: seq<real>, s: State, hop: seq<real>, overlap: seq<real>, norm: seq<real>)
    requires |hop| == HOP && |w| == |overlap| == |norm| == FFT && Shaped(s) && Steady(w, s)
    requires Added(w, s, s.previous + hop, overlap, norm)
    ensures forall i | 0 <= i < HOP ::
      overlap[i] == s.previous[i] * w[i + HOP] * w[i + HOP] + s.previous[i] * w[i] * w[i]
    ensures forall i | 0 <= i < HOP :: norm[i] == w[i + HOP] * w[i + HOP] + w[i] * w[i]
  {}

  lemma BackSums(w: seq<real>, s: State, hop: seq<real>, overlap: seq<real>, norm: seq<real>, cache: Cache)
    requires |hop| == HOP && |w| == |overlap| == |norm| == FFT && Shaped(s) && Steady(w, s)
    requires Added(w, s, s.previous + hop, overlap, norm)
    requires Shaped(s.(cache := cache))
    ensures Steady(w, State(hop, s.pending, Shifted(overlap), Shifted(norm), cache))
  {
    forall i | 0 <= i < HOP
      ensures Shifted(overlap)[i] == hop[i] * w[i + HOP] * w[i + HOP] && Shifted(norm)[i] == w[i + HOP] * w[i + HOP]
    {
      BackSum(w, s, hop, overlap, norm, i);
    }
  }

  lemma BackSum(w: seq<real>, s: State, hop: seq<real>, overlap: seq<real>, norm: seq<real>, i: nat)
    requires |hop| == HOP && |w| == |overlap| == |norm| == FFT && Shaped(s) && Steady(w, s) && i < HOP
    requires Added(w, s, s.previous + hop, overlap, norm)
    ensures Shifted(overlap)[i] == hop[i] * w[i + HOP] * w[i + HOP] && Shifted(norm)[i] == w[i + HOP] * w[i + HOP]
  {
    var frame, j := s.previous + hop, i + HOP;
    assert frame[j] == hop[i] && s.overlap[j] == 0.0 && s.norm[j] == 0.0;
    assert Shifted(overlap)[i] == overlap[j] && Shifted(norm)[i] == norm[j];
  }

  /** The first frame starts from silence: it plays zeros and leaves a steady state. */
  lemma FirstFrame(env: Foreign, w: seq<real>, s: State, hop: seq<real>)
    requires Sized(env) && Transparent(env) && Shaped(s) && |hop| == HOP && |w| == FFT
    requires s.previous == Zeros(HOP) && s.overlap == s.norm == Zeros(FFT)
    ensures var r := FrameStep(env, w, s, hop);
      r.played == Some(Zeros(HOP)) && Steady(w, r.state) && r.state.previous == hop
  {
    hide FrameStep, Sized, Transparent;
    var cache := TransparentFrame(env, w, s, hop);
    var frame := s.previous + hop;
    var overlap, norm := Summed(s.overlap, Scaled(Windowed(w, frame)), w), Weighed(s.norm, w);
    forall i | 0 <= i < FFT ensures overlap[i] == frame[i] * w[i] * w[i] {
      Undone(frame[i], w[i]);
    }
    assert Played(overlap, norm) == Zeros(HOP);
  }

  /** The input `x` one hop late, with silence in front and wherever the windows do not meet. */
  function Delayed(w: seq<real>, before: seq<real>, x: seq<real>): (r: seq<real>)
    requires |w| == FFT && |before| == HOP
    ensures |r| == |x| / HOP * HOP
  {
    seq(|x| / HOP * HOP, n requires 0 <= n < |x| / HOP * HOP => if Heard(w, n % HOP) then (before + x)[n] else 0.0)
  }

  lemma {:induction false} SteadyDrain(env: Foreign, w: seq<real>, s: State)
    requires Sized(env) && Transparent(env) && Shaped(s) && |w| == FFT && Steady(w, s)
    ensures Drain(env, w, s).played == Some(Delayed(w, s.previous, s.pending))
    decreases |s.pending|
  {
    hide FrameStep, Steady, Sized, Transparent;
    if |s.pending| < HOP {
      assert Delayed(w, s.previous, s.pending) == [];
    } else {
      var hop, rest := s.pending[..HOP], s.pending[HOP..];
      assert Steady(w, s.(pending := rest)) by { SteadyIgnoresPending(w, s, rest); }
      SteadyFrame(env, w, s.(pending := rest), hop);
      SteadyDrain(env, w, FrameStep(env, w, s.(pending := rest), hop).state);
      DelayedStep(w, s.previous, hop, rest);
      assert hop + rest == s.pending;
    }
  }

  lemma SteadyIgnoresPending(w: seq<real>, s: State, pending: seq<real>)
    requires |w| == FFT && Shaped(s) && Steady(w, s)
    ensures Steady(w, s.(pending := pending))
  {}

  lemma DelayedStep(w: seq<real>, before: seq<real>, hop: seq<real>, rest: seq<real>)
    requires |w| == FFT && |before| == |hop| == HOP
    ensures Delayed(w, before, hop + rest) == Masked(w, before) + Delayed(w, hop, rest)
  {
    var whole := Delayed(w, before, hop + rest);
    var parts := Masked(w, before) + Delayed(w, hop, rest);
    assert |whole| == |parts|;
    forall n | 0 <= n < |whole| ensures whole[n] == parts[n] {
      if n >= HOP {
        assert n % HOP == (n - HOP) % HOP;
        assert (before + (hop + rest))[n] == (hop + rest)[n - HOP];
      }
    }
  }

  /**
   * With a transparent model a fresh engine plays the input exactly one hop late: 256 * floor(n / 256) samples, the
   * first hop silent, and sample n equal to input sample n - 256 wherever the two windows weigh more than the
   * threshold (and silent exactly where they do not).
   */
  lemma Reconstructs(env: Foreign, w: seq<real>, x: seq<real>)
    requires Sized(env) && Transparent(env) && |w| == FFT
    ensures var out := ProcessStep(env, w, Fresh(), x).played;
      && out.Some? && |out.value| == |x| / HOP * HOP
      && forall n | 0 <= n < |out.value| ::
           out.value[n] == if n >= HOP && Heard(w, n % HOP) then x[n - HOP] else 0.0
  {
    hide FrameStep, Steady, Sized, Transparent, Delayed, Heard;
    if |x| >= HOP {
      var hop, rest := x[..HOP], x[HOP..];
      var s := Extend(Fresh(), x);
      assert s.pending == x;
      FirstFrame(env, w, s.(pending := rest), hop);
      SteadyDrain(env, w, FrameStep(env, w, s.(pending := rest), hop).state);
      assert ProcessStep(env, w, Fresh(), x).played == Some(Zeros(HOP) + Delayed(w, hop, rest));
      FirstHopDelays(w, x);
    }
  }

  lemma FirstHopDelays(w: seq<real>, x: seq<real>)
    requires |w| == FFT && |x| >= HOP
    ensures var out := Zeros(HOP) + Delayed(w, x[..HOP], x[HOP..]);
      && |out| == |x| / HOP * HOP
      && forall n | 0 <= n < |out| :: out[n] == if n >= HOP && Heard(w, n % HOP) then x[n - HOP] else 0.0
  {
    hide Heard;
    var hop, rest := x[..HOP], x[HOP..];
    var out := Zeros(HOP) + Delayed(w, hop, rest);
    assert |rest| / HOP == |x| / HOP - 1;
    assert hop + rest == x;
    forall n | 0 <= n < |out| ensures out[n] == if n >= HOP && Heard(w, n % HOP) then x[n - HOP] else 0.0 {
      if n >= HOP { assert (n - HOP) % HOP == n % HOP; }
    }
  }

  function Hann(cosine: seq<real>): (w: seq<real>)
    requires |cosine| == FFT
    ensures |w| == FFT
  {
    seq(FFT, i requires 0 <= i < FFT => 0.5 - 0.5 * cosine[i])
  }

  /** Half a turn flips the cosine. */
  predicate HalfTurns(cosine: seq<real>)
    requires |cosine| == FFT
  {
    forall i | 0 <= i < HOP :: cosine[i + HOP] == -cosine[i]
  }

  /** The Hann window is heard everywhere: half a turn flips the cosine, so the two windows that meet add up to one. */
  lemma HannIsHeard(cosine: seq<real>, i: nat)
    requires |cosine| == FFT && i < HOP && cosine[i + HOP] == -cosine[i]
    ensures Heard(Hann(cosine), i) && Hann(cosine)[i] + Hann(cosine)[i + HOP] == 1.0
  {
    var a, b := Hann(cosine)[i], Hann(cosine)[i + HOP];
    assert a + b == 1.0;
    assert a * a + b * b == 0.5 + 2.0 * (a - 0.5) * (a - 0.5) by {
      assert b == 1.0 - a;
    }
    assert (a - 0.5) * (a - 0.5) >= 0.0;
  }

  /** A hop of silence and then the samples, as far as whole hops go. */
  function OneHopLate(x: seq<real>): seq<real> { (Zeros(HOP) + x)[..|x| / HOP * HOP] }

  /** With the Hann window the engine's declared delay is exact: any chunking returns the input, 256 samples late. */
  lemma HannDelaysByOneHop(env: Foreign, cosine: seq<real>, chunks: seq<seq<real>>)
    requires Sized(env) && Transparent(env) && |cosine| == FFT
    requires HalfTurns(cosine)
    ensures Feed(env, Hann(cosine), Fresh(), chunks).played == Some(OneHopLate(Concat(chunks)))
  {
    hide Feed, ProcessStep, Drain, Hann, Heard, Sized, Transparent;
    var w, x := Hann(cosine), Concat(chunks);
    ChunksDoNotMatter(env, w, Fresh(), chunks);
    Reconstructs(env, w, x);
    var out := ProcessStep(env, w, Fresh(), x).played.value;
    forall n | 0 <= n < |out| ensures out[n] == (Zeros(HOP) + x)[n] {
      HannIsHeard(cosine, n % HOP);
    }
    assert out == OneHopLate(x);
  }
}
