/** The affine operators of the ONNX standard (Conv, MatMul, Gemm, Pad, Slice, Concat) on real tensors, and
    the identities the lowering of Conv and Gemm to MatMul rests on. */
module AffineTensors {
  import opened Tensors
  import opened Wrappers

  // ---------------------------------------------------------------- operators

  function Dot3(x: Tensor, w: Tensor, n: int, t: int, m: int, c: nat): real {
    if c == 0 then 0.0 else Dot3(x, w, n, t, m, c - 1) + Get3(x, n, t, c - 1) * Get2(w, c - 1, m)
  }

  predicate CanMatMul3(x: Tensor, w: Tensor) {
    Rank(x, 3) && Rank(w, 2) && x.shape[2] == w.shape[0]
  }

  /** MatMul of a batch of rows [N, T, C] with a matrix [C, M]. */
  function MatMul3(x: Tensor, w: Tensor): (r: Tensor)
    requires CanMatMul3(x, w)
    ensures r.shape == [x.shape[0], x.shape[1], w.shape[1]]
  {
    Make3(x.shape[0], x.shape[1], w.shape[1], (n, t, m) => Dot3(x, w, n, t, m, x.shape[2]))
  }

  lemma MatMul3At(x: Tensor, w: Tensor, n: int, t: int, m: int)
    requires CanMatMul3(x, w)
    requires 0 <= n < x.shape[0] && 0 <= t < x.shape[1] && 0 <= m < w.shape[1]
    ensures Get3(MatMul3(x, w), n, t, m) == Dot3(x, w, n, t, m, x.shape[2])
  {
    Make3At(x.shape[0], x.shape[1], w.shape[1], (n, t, m) => Dot3(x, w, n, t, m, x.shape[2]), n, t, m);
  }

  /** Attributes of a one-dimensional convolution. */
  datatype Window = Window(stride: nat, dilation: nat, padBegin: nat, padEnd: nat)

  const UNIT := Window(1, 1, 0, 0)

  /** How far a kernel stretches: dilation * (kernel - 1) + 1, by `ReachIs`. */
  function Reach(kernel: nat, win: Window): nat
    requires kernel >= 1
  {
    if kernel == 1 then 1 else Reach(kernel - 1, win) + win.dilation
  }

  lemma {:induction false} ReachIs(kernel: nat, win: Window)
    requires kernel >= 1
    ensures Reach(kernel, win) == win.dilation * (kernel - 1) + 1
  {
    if kernel > 1 {
      ReachIs(kernel - 1, win);
      assert win.dilation * (kernel - 1) == win.dilation * (kernel - 2) + win.dilation;
    }
  }

  function PaddedLength(len: nat, win: Window): nat { win.padBegin + len + win.padEnd }

  function OutLength(len: nat, kernel: nat, win: Window): nat
    requires kernel >= 1 && win.stride >= 1 && Reach(kernel, win) <= PaddedLength(len, win)
  {
    (PaddedLength(len, win) - Reach(kernel, win)) / win.stride + 1
  }

  /** Position `i` of channel `c` of the zero-padded signal. */
  function Padded(x: Tensor, n: int, c: int, i: int, padBegin: nat): real
    requires Rank(x, 3)
  {
    if 0 <= i - padBegin < x.shape[2] then Get3(x, n, c, i - padBegin) else 0.0
  }

  function TapSum(x: Tensor, w: Tensor, win: Window, n: int, m: int, t: int, c: int, k: nat): real
    requires Rank(x, 3)
  {
    if k == 0 then 0.0
    else TapSum(x, w, win, n, m, t, c, k - 1)
         + Padded(x, n, c, t * win.stride + (k - 1) * win.dilation, win.padBegin) * Get3(w, m, c, k - 1)
  }

  function ChannelSum(x: Tensor, w: Tensor, win: Window, n: int, m: int, t: int, c: nat): real
    requires Rank(x, 3) && Rank(w, 3)
  {
    if c == 0 then 0.0
    else ChannelSum(x, w, win, n, m, t, c - 1) + TapSum(x, w, win, n, m, t, c - 1, w.shape[2])
  }

  function BiasAt(bias: Option<Tensor>, m: int): real {
    if bias.Some? then Get1(bias.value, m) else 0.0
  }

  predicate CanConv(x: Tensor, w: Tensor, bias: Option<Tensor>, win: Window) {
    && Rank(x, 3) && Rank(w, 3) && x.shape[1] == w.shape[1] && w.shape[2] >= 1
    && win.stride >= 1 && win.dilation >= 1
    && Reach(w.shape[2], win) <= PaddedLength(x.shape[2], win)
    && (bias.Some? ==> bias.value.shape == [w.shape[0]])
  }

  /** Conv of [N, C, L] with weights [M, C, K] and one group. */
  function Conv(x: Tensor, w: Tensor, bias: Option<Tensor>, win: Window): (r: Tensor)
    requires CanConv(x, w, bias, win)
    ensures r.shape == [x.shape[0], w.shape[0], OutLength(x.shape[2], w.shape[2], win)]
  {
    Make3(x.shape[0], w.shape[0], OutLength(x.shape[2], w.shape[2], win),
      (n, m, t) => ChannelSum(x, w, win, n, m, t, w.shape[1]) + BiasAt(bias, m))
  }

  lemma ConvAt(x: Tensor, w: Tensor, bias: Option<Tensor>, win: Window, n: int, m: int, t: int)
    requires CanConv(x, w, bias, win)
    requires 0 <= n < x.shape[0] && 0 <= m < w.shape[0] && 0 <= t < OutLength(x.shape[2], w.shape[2], win)
    ensures Get3(Conv(x, w, bias, win), n, m, t) == ChannelSum(x, w, win, n, m, t, w.shape[1]) + BiasAt(bias, m)
  {
    Make3At(x.shape[0], w.shape[0], OutLength(x.shape[2], w.shape[2], win),
      (n, m, t) => ChannelSum(x, w, win, n, m, t, w.shape[1]) + BiasAt(bias, m), n, m, t);
  }

  /** Pad the last axis with zeros. */
  function PadLast(x: Tensor, begin: nat, end: nat): (r: Tensor)
    requires Rank(x, 3)
    ensures r.shape == [x.shape[0], x.shape[1], begin + x.shape[2] + end]
  {
    Make3(x.shape[0], x.shape[1], begin + x.shape[2] + end, (n, c, i) => Padded(x, n, c, i, begin))
  }

  lemma PadLastAt(x: Tensor, begin: nat, end: nat, n: int, c: int, i: int)
    requires Rank(x, 3)
    requires 0 <= n < x.shape[0] && 0 <= c < x.shape[1] && 0 <= i < begin + x.shape[2] + end
    ensures Get3(PadLast(x, begin, end), n, c, i) == Padded(x, n, c, i, begin)
  {
    Make3At(x.shape[0], x.shape[1], begin + x.shape[2] + end, (n, c, i) => Padded(x, n, c, i, begin), n, c, i);
  }

  /** A Slice bound: negative values count from the end, and the result is clamped to the axis. */
  function Clamp(v: int, dim: nat): nat {
    var u := if v < 0 then v + dim else v;
    if u < 0 then 0 else if u > dim then dim else u
  }

  function SliceLength(lo: nat, hi: nat, step: nat): nat
    requires step >= 1
  {
    if lo >= hi then 0 else (hi - lo - 1) / step + 1
  }

  /** Slice the last axis with a positive step. */
  function SliceLast(x: Tensor, start: int, end: int, step: nat): (r: Tensor)
    requires Rank(x, 3) && step >= 1
    ensures r.shape == [x.shape[0], x.shape[1], SliceLength(Clamp(start, x.shape[2]), Clamp(end, x.shape[2]), step)]
  {
    var lo := Clamp(start, x.shape[2]);
    Make3(x.shape[0], x.shape[1], SliceLength(lo, Clamp(end, x.shape[2]), step), (n, c, t) => Get3(x, n, c, lo + t * step))
  }

  lemma SliceLastAt(x: Tensor, start: int, end: int, step: nat, n: int, c: int, t: int)
    requires Rank(x, 3) && step >= 1
    requires 0 <= n < x.shape[0] && 0 <= c < x.shape[1]
    requires 0 <= t < SliceLength(Clamp(start, x.shape[2]), Clamp(end, x.shape[2]), step)
    ensures Get3(SliceLast(x, start, end, step), n, c, t) == Get3(x, n, c, Clamp(start, x.shape[2]) + t * step)
  {
    hide WellShaped, InShape, Get, Get3, Make3, Clamp, SliceLength;
    var lo := Clamp(start, x.shape[2]);
    Make3At(x.shape[0], x.shape[1], SliceLength(lo, Clamp(end, x.shape[2]), step),
      (n, c, t) => Get3(x, n, c, lo + t * step), n, c, t);
  }

  predicate CanConcat(xs: seq<Tensor>) {
    |xs| >= 1 && (forall k | 0 <= k < |xs| :: Rank(xs[k], 3)) &&
    forall k | 0 <= k < |xs| :: xs[k].shape[0] == xs[0].shape[0] && xs[k].shape[2] == xs[0].shape[2]
  }

  function Channels(xs: seq<Tensor>): nat
    requires forall k | 0 <= k < |xs| :: Rank(xs[k], 3)
  {
    if xs == [] then 0 else assert Rank(xs[0], 3); xs[0].shape[1] + Channels(xs[1..])
  }

  function ConcatAt(xs: seq<Tensor>, n: int, j: int, t: int): real
    requires forall k | 0 <= k < |xs| :: Rank(xs[k], 3)
  {
    if xs == [] then 0.0
    else if (assert Rank(xs[0], 3); j < xs[0].shape[1]) then Get3(xs[0], n, j, t)
    else ConcatAt(xs[1..], n, j - xs[0].shape[1], t)
  }

  /** Concat along axis 1. */
  function ConcatChannels(xs: seq<Tensor>): (r: Tensor)
    requires CanConcat(xs)
    ensures r.shape == [xs[0].shape[0], Channels(xs), xs[0].shape[2]]
  {
    Make3(xs[0].shape[0], Channels(xs), xs[0].shape[2], (n, j, t) => ConcatAt(xs, n, j, t))
  }

  lemma ConcatChannelsAt(xs: seq<Tensor>, n: int, j: int, t: int)
    requires CanConcat(xs)
    requires 0 <= n < xs[0].shape[0] && 0 <= j < Channels(xs) && 0 <= t < xs[0].shape[2]
    ensures Get3(ConcatChannels(xs), n, j, t) == ConcatAt(xs, n, j, t)
  {
    Make3At(xs[0].shape[0], Channels(xs), xs[0].shape[2], (n, j, t) => ConcatAt(xs, n, j, t), n, j, t);
  }

  lemma {:induction false} ConcatUniform(xs: seq<Tensor>, c: nat, n: int, k: nat, i: int, t: int)
    requires forall q | 0 <= q < |xs| :: Rank(xs[q], 3) && xs[q].shape[1] == c
    requires k < |xs| && 0 <= i < c
    ensures Channels(xs) == |xs| * c
    ensures ConcatAt(xs, n, k * c + i, t) == Get3(xs[k], n, i, t)
  {
    ChannelsUniform(xs, c);
    if k > 0 {
      assert k * c + i - c == (k - 1) * c + i;
      assert k * c >= c by { assert k * c == (k - 1) * c + c; }
      ConcatUniform(xs[1..], c, n, k - 1, i, t);
    } else {
      assert k * c + i == i;
    }
  }

  lemma {:induction false} ChannelsUniform(xs: seq<Tensor>, c: nat)
    requires forall q | 0 <= q < |xs| :: Rank(xs[q], 3) && xs[q].shape[1] == c
    ensures Channels(xs) == |xs| * c
  {
    if xs != [] {
      ChannelsUniform(xs[1..], c);
      assert |xs| * c == (|xs| - 1) * c + c;
    }
  }

  // ---------------------------------------------------------------- sums over taps and channels

  function OverTaps(f: (int, int) -> real, c: int, k: nat): real {
    if k == 0 then 0.0 else OverTaps(f, c, k - 1) + f(k - 1, c)
  }

  function OverChannels(f: (int, int) -> real, k: int, c: nat): real {
    if c == 0 then 0.0 else OverChannels(f, k, c - 1) + f(k, c - 1)
  }

  function ChannelsOfTaps(f: (int, int) -> real, c: nat, k: nat): real {
    if c == 0 then 0.0 else ChannelsOfTaps(f, c - 1, k) + OverTaps(f, c - 1, k)
  }

  function TapsOfChannels(f: (int, int) -> real, k: nat, c: nat): real {
    if k == 0 then 0.0 else TapsOfChannels(f, k - 1, c) + OverChannels(f, k - 1, c)
  }

  function Flat(f: (int, int) -> real, j: nat, c: nat): real
    requires c >= 1
  {
    if j == 0 then 0.0 else Flat(f, j - 1, c) + f((j - 1) / c, (j - 1) % c)
  }

  lemma {:induction false} AddChannel(f: (int, int) -> real, c: nat, k: nat)
    ensures TapsOfChannels(f, k, c + 1) == TapsOfChannels(f, k, c) + OverTaps(f, c, k)
  {
    if k > 0 { AddChannel(f, c, k - 1); }
  }

  /** The order of summation over taps and channels does not matter. */
  lemma {:induction false} Interchange(f: (int, int) -> real, c: nat, k: nat)
    ensures ChannelsOfTaps(f, c, k) == TapsOfChannels(f, k, c)
  {
    if c > 0 {
      Interchange(f, c - 1, k);
      AddChannel(f, c - 1, k);
    } else {
      NoChannels(f, k);
    }
  }

  lemma {:induction false} NoChannels(f: (int, int) -> real, k: nat)
    ensures TapsOfChannels(f, k, 0) == 0.0
  {
    if k > 0 { NoChannels(f, k - 1); }
  }

  lemma DivMod(k: nat, c: nat, i: nat)
    requires i < c
    ensures (k * c + i) / c == k && (k * c + i) % c == i
  {
    var v := k * c + i;
    assert v == (v / c) * c + v % c;
    var q := v / c;
    if q < k { MulLe(q + 1, k, c); assert false; }
    if q > k { MulLe(k + 1, q, c); assert false; }
  }

  lemma MulLe(a: nat, b: nat, c: nat)
    requires a <= b
    ensures a * c <= b * c
    ensures (a - 1) * c + c == a * c
  {}

  /** Row-major order visits tap by tap and, inside a tap, channel by channel. */
  lemma {:induction false} FlatIsNested(f: (int, int) -> real, k: nat, i: nat, c: nat)
    requires c >= 1 && i <= c
    ensures k * c + i >= 0
    ensures Flat(f, k * c + i, c) == TapsOfChannels(f, k, c) + OverChannels(f, k, i)
    decreases k, i
  {
    if i > 0 {
      FlatIsNested(f, k, i - 1, c);
      DivMod(k, c, i - 1);
      assert k * c + i - 1 == k * c + (i - 1);
    } else if k > 0 {
      FlatIsNested(f, k - 1, c, c);
      assert (k - 1) * c + c == k * c + 0;
    } else {
      assert k * c + i == 0;
    }
  }

  // ---------------------------------------------------------------- pointwise convolution as MatMul

  /** weight[:, :, 0].T */
  function PointwiseMatrix(w: Tensor): (r: Tensor)
    requires Rank(w, 3)
    ensures r.shape == [w.shape[1], w.shape[0]]
  {
    Make2(w.shape[1], w.shape[0], (c, m) => Get3(w, m, c, 0))
  }

  function AddOptional(t: Tensor, bias: Option<Tensor>): Tensor
    requires bias.Some? ==> Rank(t, 3) && bias.value.shape == [t.shape[2]]
  {
    if bias.Some? then AddBiasShape(t, bias.value); AddBias(t, bias.value) else t
  }

  lemma AddOptionalAt(t: Tensor, bias: Option<Tensor>, i: int, j: int, k: int)
    requires Rank(t, 3) && (bias.Some? ==> bias.value.shape == [t.shape[2]])
    requires 0 <= i < t.shape[0] && 0 <= j < t.shape[1] && 0 <= k < t.shape[2]
    ensures AddOptional(t, bias).shape == t.shape
    ensures Get3(AddOptional(t, bias), i, j, k) == Get3(t, i, j, k) + BiasAt(bias, k)
  {
    hide WellShaped, InShape, Get, Get3, Get2, Get1, AddBias, Broadcastable;
    if bias.Some? {
      AddBiasShape(t, bias.value);
      AddBiasAt(t, bias.value, i, j, k);
    }
  }

  lemma AddOptionalShape(t: Tensor, bias: Option<Tensor>)
    requires Rank(t, 3) && (bias.Some? ==> bias.value.shape == [t.shape[2]])
    ensures AddOptional(t, bias).shape == t.shape
  {
    hide AddBias, Broadcastable;
    if bias.Some? {
      AddBiasShape(t, bias.value);
    }
  }

  /** What MatMul and the optional Add that follows it compute. */
  function Linear(rows: Tensor, matrix: Tensor, bias: Option<Tensor>): (r: Tensor)
    requires CanMatMul3(rows, matrix) && (bias.Some? ==> bias.value.shape == [matrix.shape[1]])
    ensures r.shape == [rows.shape[0], rows.shape[1], matrix.shape[1]]
  {
    AddOptionalShape(MatMul3(rows, matrix), bias);
    AddOptional(MatMul3(rows, matrix), bias)
  }

  lemma LinearAt(rows: Tensor, matrix: Tensor, bias: Option<Tensor>, n: int, t: int, m: int)
    requires CanMatMul3(rows, matrix) && (bias.Some? ==> bias.value.shape == [matrix.shape[1]])
    requires 0 <= n < rows.shape[0] && 0 <= t < rows.shape[1] && 0 <= m < matrix.shape[1]
    ensures Get3(Linear(rows, matrix, bias), n, t, m)
            == Dot3(rows, matrix, n, t, m, rows.shape[2]) + BiasAt(bias, m)
  {
    hide WellShaped, InShape, Get, Get3, Get2, Get1, Make3, MatMul3, AddOptional, Dot3;
    AddOptionalAt(MatMul3(rows, matrix), bias, n, t, m);
    MatMul3At(rows, matrix, n, t, m);
  }

  lemma {:induction false} PointwiseDot(x: Tensor, w: Tensor, n: int, m: int, t: int, c: nat)
    requires Rank(x, 3) && Rank(w, 3) && w.shape[2] == 1 && x.shape[1] == w.shape[1]
    requires 0 <= n < x.shape[0] && 0 <= t < x.shape[2] && 0 <= m < w.shape[0] && c <= w.shape[1]
    ensures Dot3(Swap(x), PointwiseMatrix(w), n, t, m, c) == ChannelSum(x, w, UNIT, n, m, t, c)
  {
    hide WellShaped, InShape, Get, Get3, Get2, Get1, Swap, PointwiseMatrix;
    if c > 0 {
      PointwiseDot(x, w, n, m, t, c - 1);
      SwapAt(x, n, t, c - 1);
      PointwiseMatrixAt(w, c - 1, m);
      assert TapSum(x, w, UNIT, n, m, t, c - 1, 0) == 0.0;
      assert TapSum(x, w, UNIT, n, m, t, c - 1, 1) == Get3(x, n, c - 1, t) * Get3(w, m, c - 1, 0);
    }
  }

  lemma PointwiseMatrixAt(w: Tensor, c: int, m: int)
    requires Rank(w, 3) && 0 <= c < w.shape[1] && 0 <= m < w.shape[0]
    ensures Get2(PointwiseMatrix(w), c, m) == Get3(w, m, c, 0)
  {
    Make2At(w.shape[1], w.shape[0], (c, m) => Get3(w, m, c, 0), c, m);
  }

  /** A kernel of one tap, moved by one sample over the unpadded signal, is a MatMul in NTC layout. */
  lemma PointwiseIsMatMul(x: Tensor, w: Tensor, bias: Option<Tensor>)
    requires CanConv(x, w, bias, UNIT) && w.shape[2] == 1
    ensures Linear(Swap(x), PointwiseMatrix(w), bias) == Swap(Conv(x, w, bias, UNIT))
  {
    hide WellShaped, InShape, Get, Get3, Get2, Get1, Swap, Make3, PointwiseMatrix, Linear, Conv, ChannelSum, Dot3;
    var l, y := Linear(Swap(x), PointwiseMatrix(w), bias), Conv(x, w, bias, UNIT);
    forall n, t, m | 0 <= n < x.shape[0] && 0 <= t < x.shape[2] && 0 <= m < w.shape[0]
      ensures Get3(l, n, t, m) == Get3(Swap(y), n, t, m)
    {
      LinearAt(Swap(x), PointwiseMatrix(w), bias, n, t, m);
      PointwiseDot(x, w, n, m, t, w.shape[1]);
      SwapAt(y, n, t, m);
      ConvAt(x, w, bias, UNIT, n, m, t);
    }
    Extensional3(l, Swap(y), x.shape[0], x.shape[2], w.shape[0]);
  }

  lemma {:induction false} OneTapSum(x: Tensor, w: Tensor, win: Window, n: int, m: int, t: int, c: nat)
    requires Rank(x, 3) && Rank(w, 3) && w.shape[2] == 1 && win.stride == 1 && win.padBegin == 0
    ensures ChannelSum(x, w, win, n, m, t, c) == ChannelSum(x, w, UNIT, n, m, t, c)
  {
    hide WellShaped, InShape, Get, Get3;
    if c > 0 {
      OneTapSum(x, w, win, n, m, t, c - 1);
      assert TapSum(x, w, win, n, m, t, c - 1, 0) == TapSum(x, w, UNIT, n, m, t, c - 1, 0) == 0.0;
      assert t * win.stride + 0 * win.dilation == t * UNIT.stride + 0 * UNIT.dilation;
      assert TapSum(x, w, win, n, m, t, c - 1, 1) == TapSum(x, w, UNIT, n, m, t, c - 1, 1);
    }
  }

  /** A kernel of one tap does not notice the dilation. */
  lemma DilationUnused(x: Tensor, w: Tensor, bias: Option<Tensor>, win: Window)
    requires CanConv(x, w, bias, win) && w.shape[2] == 1 && win.stride == 1 && win.padBegin == 0 && win.padEnd == 0
    ensures CanConv(x, w, bias, UNIT) && Conv(x, w, bias, win) == Conv(x, w, bias, UNIT)
  {
    hide WellShaped, InShape, Get, Get3, Make3, Conv, ChannelSum;
    var l, r := Conv(x, w, bias, win), Conv(x, w, bias, UNIT);
    forall n, m, t | 0 <= n < x.shape[0] && 0 <= m < w.shape[0] && 0 <= t < x.shape[2]
      ensures Get3(l, n, m, t) == Get3(r, n, m, t)
    {
      ConvAt(x, w, bias, win, n, m, t);
      ConvAt(x, w, bias, UNIT, n, m, t);
      OneTapSum(x, w, win, n, m, t, w.shape[1]);
    }
    Extensional3(l, r, x.shape[0], w.shape[0], x.shape[2]);
  }

  // ---------------------------------------------------------------- tapped convolution as one MatMul

  /** weight.transpose(2, 1, 0).reshape(-1, M): row k * C + c holds tap k of channel c. */
  function TapMatrix(w: Tensor): (r: Tensor)
    requires Rank(w, 3)
    ensures r.shape == [w.shape[2] * w.shape[1], w.shape[0]]
  {
    var c := w.shape[1];
    Make2(w.shape[2] * c, w.shape[0], (j, m) => if c == 0 then 0.0 else Get3(w, m, j % c, j / c))
  }

  lemma TapMatrixAt(w: Tensor, j: int, m: int)
    requires Rank(w, 3) && 0 <= j < w.shape[2] * w.shape[1] && 0 <= m < w.shape[0] && w.shape[1] >= 1
    ensures Get2(TapMatrix(w), j, m) == Get3(w, m, j % w.shape[1], j / w.shape[1])
  {
    var c := w.shape[1];
    Make2At(w.shape[2] * c, w.shape[0], (j, m) => if c == 0 then 0.0 else Get3(w, m, j % c, j / c), j, m);
  }

  const INT64_MAX: int := 0x7fff_ffff_ffff_ffff

  /** The end bound the lowering writes for a tap: minus what remains of the kernel, or "to the end". */
  function TapEnd(remaining: int): int { if remaining != 0 then -remaining else INT64_MAX }

  function Taps(p: Tensor, kernel: nat, win: Window): (r: seq<Tensor>)
    requires Rank(p, 3) && kernel >= 1 && win.stride >= 1
    ensures |r| == kernel
  {
    seq(kernel, k requires 0 <= k < kernel =>
      SliceLast(p, k * win.dilation, TapEnd(Reach(kernel, win) - 1 - k * win.dilation), win.stride))
  }

  lemma TapBounds(len: nat, kernel: nat, win: Window, k: nat)
    requires kernel >= 1 && k < kernel && win.stride >= 1 && win.dilation >= 1
    requires Reach(kernel, win) <= len <= INT64_MAX
    ensures Clamp(k * win.dilation, len) == k * win.dilation
    ensures Clamp(TapEnd(Reach(kernel, win) - 1 - k * win.dilation), len) == len - (Reach(kernel, win) - 1 - k * win.dilation)
  {
    ReachIs(kernel, win);
    assert 0 <= k * win.dilation;
    assert k * win.dilation <= (kernel - 1) * win.dilation;
  }

  /** All taps have the output length of the convolution, and tap k reads position t * stride + k * dilation. */
  lemma TapShape(p: Tensor, kernel: nat, win: Window, k: nat)
    requires Rank(p, 3) && kernel >= 1 && k < kernel && win.stride >= 1 && win.dilation >= 1
    requires Reach(kernel, win) <= p.shape[2] <= INT64_MAX
    ensures Taps(p, kernel, win)[k].shape
            == [p.shape[0], p.shape[1], (p.shape[2] - Reach(kernel, win)) / win.stride + 1]
  {
    TapBounds(p.shape[2], kernel, win, k);
  }

  lemma TapAt(p: Tensor, kernel: nat, win: Window, k: nat, n: int, c: int, t: int)
    requires Rank(p, 3) && kernel >= 1 && k < kernel && win.stride >= 1 && win.dilation >= 1
    requires Reach(kernel, win) <= p.shape[2] <= INT64_MAX
    requires 0 <= n < p.shape[0] && 0 <= c < p.shape[1]
    requires 0 <= t < (p.shape[2] - Reach(kernel, win)) / win.stride + 1
    ensures Get3(Taps(p, kernel, win)[k], n, c, t) == Get3(p, n, c, t * win.stride + k * win.dilation)
    ensures 0 <= t * win.stride + k * win.dilation < p.shape[2]
  {
    hide WellShaped, InShape, Get, Get3, Get2, Get1, SliceLast;
    TapBounds(p.shape[2], kernel, win, k);
    SliceLastAt(p, k * win.dilation, TapEnd(Reach(kernel, win) - 1 - k * win.dilation), win.stride, n, c, t);
    StrideBound(p.shape[2] - Reach(kernel, win), win.stride, t);
    ReachIs(kernel, win);
    assert 0 <= k * win.dilation <= (kernel - 1) * win.dilation;
  }

  lemma StrideBound(room: nat, stride: nat, t: nat)
    requires stride >= 1 && t <= room / stride
    ensures 0 <= t * stride <= room
  {
    MulLe(t, room / stride, stride);
    assert room == (room / stride) * stride + room % stride;
  }

  lemma FeaturesAt(p: Tensor, kernel: nat, win: Window, n: int, k: nat, c: int, t: int)
    requires Rank(p, 3) && kernel >= 1 && win.stride >= 1 && win.dilation >= 1
    requires Reach(kernel, win) <= p.shape[2] <= INT64_MAX
    requires 0 <= n < p.shape[0] && 0 <= c < p.shape[1] && k < kernel
    requires 0 <= t < (p.shape[2] - Reach(kernel, win)) / win.stride + 1
    ensures CanConcat(Taps(p, kernel, win))
    ensures ConcatChannels(Taps(p, kernel, win)).shape
            == [p.shape[0], kernel * p.shape[1], (p.shape[2] - Reach(kernel, win)) / win.stride + 1]
    ensures 0 <= t * win.stride + k * win.dilation < p.shape[2]
    ensures 0 <= k * p.shape[1] + c < kernel * p.shape[1]
    ensures Get3(ConcatChannels(Taps(p, kernel, win)), n, k * p.shape[1] + c, t)
            == Get3(p, n, c, t * win.stride + k * win.dilation)
  {
    hide WellShaped, InShape, Get, Get3, Get2, Get1, SliceLast, Taps, ConcatChannels, Reach, CanConcat;
    var taps := Taps(p, kernel, win);
    FeaturesShape(p, kernel, win);
    ConcatUniform(taps, p.shape[1], n, k, c, t);
    MulLe(k + 1, kernel, p.shape[1]);
    TapShape(p, kernel, win, 0);
    ConcatChannelsAt(taps, n, k * p.shape[1] + c, t);
    TapAt(p, kernel, win, k, n, c, t);
  }

  lemma FeaturesShape(p: Tensor, kernel: nat, win: Window)
    requires Rank(p, 3) && kernel >= 1 && win.stride >= 1 && win.dilation >= 1
    requires Reach(kernel, win) <= p.shape[2] <= INT64_MAX
    ensures CanConcat(Taps(p, kernel, win))
    ensures forall q | 0 <= q < kernel :: Rank(Taps(p, kernel, win)[q], 3) && Taps(p, kernel, win)[q].shape[1] == p.shape[1]
    ensures ConcatChannels(Taps(p, kernel, win)).shape
            == [p.shape[0], kernel * p.shape[1], (p.shape[2] - Reach(kernel, win)) / win.stride + 1]
  {
    hide SliceLast, Taps, ConcatChannels, Reach;
    var taps := Taps(p, kernel, win);
    forall q | 0 <= q < kernel
      ensures taps[q].shape == [p.shape[0], p.shape[1], (p.shape[2] - Reach(kernel, win)) / win.stride + 1]
    {
      TapShape(p, kernel, win, q);
    }
    ChannelsUniform(taps, p.shape[1]);
  }

  /** The summand of the convolution at tap k and channel c. */
  function Term(x: Tensor, w: Tensor, win: Window, n: int, m: int, t: int): (int, int) -> real
    requires Rank(x, 3)
  {
    (k: int, c: int) => Padded(x, n, c, t * win.stride + k * win.dilation, win.padBegin) * Get3(w, m, c, k)
  }

  lemma {:induction false} TapSumIsOverTaps(x: Tensor, w: Tensor, win: Window, n: int, m: int, t: int, c: int, k: nat)
    requires Rank(x, 3)
    ensures TapSum(x, w, win, n, m, t, c, k) == OverTaps(Term(x, w, win, n, m, t), c, k)
  {
    hide WellShaped, InShape, Get, Get3, Get2, Get1, Padded;
    if k > 0 { TapSumIsOverTaps(x, w, win, n, m, t, c, k - 1); }
  }

  lemma {:induction false} ChannelSumIsNested(x: Tensor, w: Tensor, win: Window, n: int, m: int, t: int, c: nat)
    requires Rank(x, 3) && Rank(w, 3)
    ensures ChannelSum(x, w, win, n, m, t, c) == ChannelsOfTaps(Term(x, w, win, n, m, t), c, w.shape[2])
  {
    hide WellShaped, InShape, Get, Get3, Get2, Get1, Padded, TapSum, OverTaps, Term;
    if c > 0 {
      ChannelSumIsNested(x, w, win, n, m, t, c - 1);
      TapSumIsOverTaps(x, w, win, n, m, t, c - 1, w.shape[2]);
    }
  }

  function PadIfNeeded(x: Tensor, win: Window): Tensor
    requires Rank(x, 3)
  {
    if win.padBegin != 0 || win.padEnd != 0 then PadLast(x, win.padBegin, win.padEnd) else x
  }

  lemma PadIfNeededAt(x: Tensor, win: Window, n: int, c: int, i: int)
    requires Rank(x, 3)
    requires 0 <= n < x.shape[0] && 0 <= c < x.shape[1] && 0 <= i < PaddedLength(x.shape[2], win)
    ensures PadIfNeeded(x, win).shape == [x.shape[0], x.shape[1], PaddedLength(x.shape[2], win)]
    ensures Get3(PadIfNeeded(x, win), n, c, i) == Padded(x, n, c, i, win.padBegin)
  {
    hide WellShaped, InShape, Get, Get3, Get2, Get1, PadLast;
    PadIfNeededShape(x, win);
    if win.padBegin != 0 || win.padEnd != 0 {
      PadLastAt(x, win.padBegin, win.padEnd, n, c, i);
    }
  }

  lemma PadIfNeededShape(x: Tensor, win: Window)
    requires Rank(x, 3)
    ensures PadIfNeeded(x, win).shape == [x.shape[0], x.shape[1], PaddedLength(x.shape[2], win)]
  {
    hide PadLast;
    assert x.shape == [x.shape[0], x.shape[1], x.shape[2]];
  }

  predicate FitsInt64(x: Tensor, win: Window)
    requires Rank(x, 3)
  {
    PaddedLength(x.shape[2], win) <= INT64_MAX
  }

  lemma TapRowsShape(x: Tensor, kernel: nat, win: Window)
    requires Rank(x, 3) && kernel >= 1 && win.stride >= 1 && win.dilation >= 1 && FitsInt64(x, win)
    requires Reach(kernel, win) <= PaddedLength(x.shape[2], win)
    ensures Rank(PadIfNeeded(x, win), 3)
    ensures CanConcat(Taps(PadIfNeeded(x, win), kernel, win))
    ensures ConcatChannels(Taps(PadIfNeeded(x, win), kernel, win)).shape
            == [x.shape[0], kernel * x.shape[1], OutLength(x.shape[2], kernel, win)]
    ensures Rank(ConcatChannels(Taps(PadIfNeeded(x, win), kernel, win)), 3)
  {
    hide Taps, PadIfNeeded, ConcatChannels, CanConcat, WellShaped, InShape, Reach;
    PadIfNeededShape(x, win);
    FeaturesShape(PadIfNeeded(x, win), kernel, win);
  }

  /** The rows the single MatMul reads: every tap's slice of the padded signal, stacked as channels, in NTC. */
  function TapRows(x: Tensor, kernel: nat, win: Window): (r: Tensor)
    requires Rank(x, 3) && kernel >= 1 && win.stride >= 1 && win.dilation >= 1 && FitsInt64(x, win)
    requires Reach(kernel, win) <= PaddedLength(x.shape[2], win)
    ensures r.shape == [x.shape[0], OutLength(x.shape[2], kernel, win), kernel * x.shape[1]]
  {
    hide *;
    PadIfNeededShape(x, win);
    TapRowsShape(x, kernel, win);
    Swap(ConcatChannels(Taps(PadIfNeeded(x, win), kernel, win)))
  }

  lemma TapRowsAt(x: Tensor, kernel: nat, win: Window, n: int, k: nat, c: int, t: int)
    requires Rank(x, 3) && kernel >= 1 && win.stride >= 1 && win.dilation >= 1 && FitsInt64(x, win)
    requires Reach(kernel, win) <= PaddedLength(x.shape[2], win)
    requires 0 <= n < x.shape[0] && 0 <= c < x.shape[1] && k < kernel
    requires 0 <= t < OutLength(x.shape[2], kernel, win)
    ensures 0 <= k * x.shape[1] + c < kernel * x.shape[1]
    ensures Get3(TapRows(x, kernel, win), n, t, k * x.shape[1] + c)
            == Padded(x, n, c, t * win.stride + k * win.dilation, win.padBegin)
  {
    hide WellShaped, InShape, Get, Get3, Get2, Get1, Swap, Taps, ConcatChannels, PadIfNeeded, Padded, Reach;
    PadIfNeededShape(x, win);
    var p := PadIfNeeded(x, win);
    FeaturesShape(p, kernel, win);
    FeaturesAt(p, kernel, win, n, k, c, t);
    SwapAt(ConcatChannels(Taps(p, kernel, win)), n, t, k * x.shape[1] + c);
    PadIfNeededAt(x, win, n, c, t * win.stride + k * win.dilation);
  }

  lemma {:induction false} TapDot(x: Tensor, w: Tensor, win: Window, n: int, m: int, t: int, j: nat)
    requires CanConv(x, w, None, win) && FitsInt64(x, win) && w.shape[1] >= 1
    requires 0 <= n < x.shape[0] && 0 <= m < w.shape[0] && 0 <= t < OutLength(x.shape[2], w.shape[2], win)
    requires j <= w.shape[2] * w.shape[1]
    ensures Dot3(TapRows(x, w.shape[2], win), TapMatrix(w), n, t, m, j) == Flat(Term(x, w, win, n, m, t), j, w.shape[1])
  {
    hide WellShaped, InShape, Get, Get3, Get2, Get1, TapRows, TapMatrix, Padded, Reach;
    if j > 0 {
      TapDot(x, w, win, n, m, t, j - 1);
      var c, k := (j - 1) % w.shape[1], (j - 1) / w.shape[1];
      assert j - 1 == k * w.shape[1] + c;
      assert k < w.shape[2] by { RowOfTap(j - 1, w.shape[2], w.shape[1]); }
      TapRowsAt(x, w.shape[2], win, n, k, c, t);
      TapMatrixAt(w, j - 1, m);
      assert Term(x, w, win, n, m, t)(k, c)
          == Padded(x, n, c, t * win.stride + k * win.dilation, win.padBegin) * Get3(w, m, c, k);
    }
  }

  lemma RowOfTap(j: nat, kernel: nat, c: nat)
    requires c >= 1 && j < kernel * c
    ensures j / c < kernel
  {
    if j / c >= kernel { MulLe(kernel, j / c, c); assert false; }
  }

  lemma TapDotIsConv(x: Tensor, w: Tensor, win: Window, n: int, m: int, t: int)
    requires CanConv(x, w, None, win) && FitsInt64(x, win)
    requires 0 <= n < x.shape[0] && 0 <= m < w.shape[0] && 0 <= t < OutLength(x.shape[2], w.shape[2], win)
    ensures Dot3(TapRows(x, w.shape[2], win), TapMatrix(w), n, t, m, w.shape[2] * w.shape[1])
            == ChannelSum(x, w, win, n, m, t, w.shape[1])
  {
    hide WellShaped, InShape, Get, Get3, Get2, Get1, TapRows, TapMatrix, Padded, Term, Reach;
    if w.shape[1] == 0 {
      assert w.shape[2] * w.shape[1] == 0;
    } else {
      var f := Term(x, w, win, n, m, t);
      TapDot(x, w, win, n, m, t, w.shape[2] * w.shape[1]);
      assert w.shape[2] * w.shape[1] + 0 == w.shape[2] * w.shape[1];
      FlatIsNested(f, w.shape[2], 0, w.shape[1]);
      Interchange(f, w.shape[1], w.shape[2]);
      ChannelSumIsNested(x, w, win, n, m, t, w.shape[1]);
    }
  }

  /** Slicing every tap, stacking the slices as channels and multiplying once computes the convolution,
      for every kernel, dilation, stride and padding the convolution is defined for. */
  lemma TdnnIsConv(x: Tensor, w: Tensor, bias: Option<Tensor>, win: Window)
    requires CanConv(x, w, bias, win) && FitsInt64(x, win)
    ensures Linear(TapRows(x, w.shape[2], win), TapMatrix(w), bias) == Swap(Conv(x, w, bias, win))
  {
    hide WellShaped, InShape, Get, Get3, Get2, Get1, Swap, Make3, TapRows, TapMatrix, Linear, Conv, ChannelSum, Dot3, Reach;
    var l, y := Linear(TapRows(x, w.shape[2], win), TapMatrix(w), bias), Conv(x, w, bias, win);
    forall n, t, m | 0 <= n < x.shape[0] && 0 <= t < OutLength(x.shape[2], w.shape[2], win) && 0 <= m < w.shape[0]
      ensures Get3(l, n, t, m) == Get3(Swap(y), n, t, m)
    {
      LinearAt(TapRows(x, w.shape[2], win), TapMatrix(w), bias, n, t, m);
      TapDotIsConv(x, w, win, n, m, t);
      SwapAt(y, n, t, m);
      ConvAt(x, w, bias, win, n, m, t);
    }
    Extensional3(l, Swap(y), x.shape[0], OutLength(x.shape[2], w.shape[2], win), w.shape[0]);
  }

  // ---------------------------------------------------------------- Gemm

  function Dot2(a: Tensor, b: Tensor, i: int, j: int, k: nat): real {
    if k == 0 then 0.0 else Dot2(a, b, i, j, k - 1) + Get2(a, i, k - 1) * Get2(b, k - 1, j)
  }

  predicate CanMatMul2(a: Tensor, b: Tensor) { Rank(a, 2) && Rank(b, 2) && a.shape[1] == b.shape[0] }

  function MatMul2(a: Tensor, b: Tensor): (r: Tensor)
    requires CanMatMul2(a, b)
    ensures r.shape == [a.shape[0], b.shape[1]]
  {
    Make2(a.shape[0], b.shape[1], (i, j) => Dot2(a, b, i, j, a.shape[1]))
  }

  lemma MatMul2At(a: Tensor, b: Tensor, i: int, j: int)
    requires CanMatMul2(a, b) && 0 <= i < a.shape[0] && 0 <= j < b.shape[1]
    ensures Get2(MatMul2(a, b), i, j) == Dot2(a, b, i, j, a.shape[1])
  {
    Make2At(a.shape[0], b.shape[1], (i, j) => Dot2(a, b, i, j, a.shape[1]), i, j);
  }

  function Flip(t: Tensor): (r: Tensor)
    requires Rank(t, 2)
    ensures r.shape == [t.shape[1], t.shape[0]]
  {
    Make2(t.shape[1], t.shape[0], (i, j) => Get2(t, j, i))
  }

  function FlipIf(c: bool, t: Tensor): (r: Tensor)
    requires Rank(t, 2)
    ensures Rank(r, 2)
  {
    if c then Flip(t) else t
  }

  function Scale(f: real, t: Tensor): (r: Tensor)
    ensures r.shape == t.shape
  {
    Map(v => f * v, t)
  }

  lemma ScaleAt(f: real, t: Tensor, i: int, j: int)
    requires Rank(t, 2) && 0 <= i < t.shape[0] && 0 <= j < t.shape[1]
    ensures Get2(Scale(f, t), i, j) == f * Get2(t, i, j)
  {
    assert t.shape == [t.shape[0], t.shape[1]];
    InShape2(t.shape[0], t.shape[1], i, j);
  }

  predicate CanGemm(a: Tensor, b: Tensor, c: Option<Tensor>, transA: bool, transB: bool) {
    && Rank(a, 2) && Rank(b, 2) && CanMatMul2(FlipIf(transA, a), FlipIf(transB, b))
    && (c.Some? ==>
          var shape := [FlipIf(transA, a).shape[0], FlipIf(transB, b).shape[1]];
          Broadcastable(shape, c.value.shape) && JointShape(shape, c.value.shape) == shape)
  }

  /** alpha * A' * B' + beta * C with C broadcast to the product. */
  function Gemm(a: Tensor, b: Tensor, c: Option<Tensor>, transA: bool, transB: bool, alpha: real, beta: real): Tensor
    requires CanGemm(a, b, c, transA, transB)
  {
    var p := Scale(alpha, MatMul2(FlipIf(transA, a), FlipIf(transB, b)));
    if c.Some? then Zip(Plus(), p, Scale(beta, c.value)) else p
  }

  lemma {:induction false} DotScales(f: real, a: Tensor, b: Tensor, i: int, j: int, k: nat)
    requires CanMatMul2(a, b) && 0 <= i < a.shape[0] && 0 <= j < b.shape[1] && k <= a.shape[1]
    ensures Dot2(a, Scale(f, b), i, j, k) == f * Dot2(a, b, i, j, k)
  {
    hide WellShaped, InShape, Get, Get2, Scale;
    if k > 0 {
      DotScales(f, a, b, i, j, k - 1);
      ScaleAt(f, b, k - 1, j);
    }
  }

  /** Folding alpha into the constant matrix is the same as scaling the product. */
  lemma ScaleRight(f: real, a: Tensor, b: Tensor)
    requires CanMatMul2(a, b)
    ensures MatMul2(a, Scale(f, b)) == Scale(f, MatMul2(a, b))
  {
    hide WellShaped, InShape, Get, Get2, Scale, MatMul2, Dot2;
    var l, r := MatMul2(a, Scale(f, b)), Scale(f, MatMul2(a, b));
    forall i, j | 0 <= i < a.shape[0] && 0 <= j < b.shape[1] ensures Get2(l, i, j) == Get2(r, i, j) {
      MatMul2At(a, Scale(f, b), i, j);
      ScaleAt(f, MatMul2(a, b), i, j);
      MatMul2At(a, b, i, j);
      DotScales(f, a, b, i, j, a.shape[1]);
    }
    Extensional2(l, r, a.shape[0], b.shape[1]);
  }
}
