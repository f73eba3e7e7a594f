/** Real-valued tensors and the fragment of the ONNX operators the graph rewrites emit or replace.
    A tensor carries its shape explicitly, so that empty dimensions survive a transpose, and a
    map whose domain is exactly the set of indices of that shape, so that two tensors are equal as
    soon as they agree entry by entry. */
module Tensors {

  datatype RawTensor = RawTensor(shape: seq<nat>, at: map<seq<int>, real>)

  predicate InShape(shape: seq<nat>, ix: seq<int>) {
    |ix| == |shape| && forall d | 0 <= d < |ix| :: 0 <= ix[d] < shape[d]
  }

  lemma IndexSplits(shape: seq<nat>, ix: seq<int>, r: set<seq<int>>)
    requires shape != []
    requires r == set i, rest | 0 <= i < shape[0] && rest in AllIndices(shape[1..]) :: [i] + rest
    ensures ix in r <==> InShape(shape, ix)
    decreases |shape|, 0
  {
    if ix in r {
      var i, rest :| 0 <= i < shape[0] && rest in AllIndices(shape[1..]) && ix == [i] + rest;
      forall d | 0 <= d < |ix| ensures 0 <= ix[d] < shape[d] {
        if d > 0 { assert rest[d - 1] == ix[d] && shape[1..][d - 1] == shape[d]; }
      }
    }
    if InShape(shape, ix) {
      var i, rest := ix[0], ix[1..];
      assert 0 <= i < shape[0];
      assert rest in AllIndices(shape[1..]) by {
        forall d | 0 <= d < |rest| ensures 0 <= rest[d] < shape[1..][d] {
          assert rest[d] == ix[d + 1] && shape[1..][d] == shape[d + 1];
        }
        assert InShape(shape[1..], rest);
      }
      assert ix == [i] + rest;
      assert [i] + rest in r;
    }
  }

  /** Every index of a shape. */
  function AllIndices(shape: seq<nat>): (r: set<seq<int>>)
    ensures forall ix :: ix in r <==> InShape(shape, ix)
    decreases |shape|, 1
  {
    if shape == [] then {[]}
    else
      var r := set i, rest | 0 <= i < shape[0] && rest in AllIndices(shape[1..]) :: [i] + rest;
      assert forall ix :: ix in r <==> InShape(shape, ix) by {
        forall ix ensures ix in r <==> InShape(shape, ix) { IndexSplits(shape, ix, r); }
      }
      r
  }

  ghost predicate WellShaped(t: RawTensor) {
    forall ix :: ix in t.at <==> InShape(t.shape, ix)
  }

  const ZERO_SCALAR: RawTensor := RawTensor([], map[[] := 0.0])

  type Tensor = t: RawTensor | WellShaped(t) witness ZERO_SCALAR

  /** Reading outside the shape gives 0, so that `Get` is total. */
  function Get(t: Tensor, ix: seq<int>): real {
    if ix in t.at then t.at[ix] else 0.0
  }

  function Get1(t: Tensor, i: int): real { Get(t, [i]) }

  function Get2(t: Tensor, i: int, j: int): real { Get(t, [i, j]) }

  function Get3(t: Tensor, i: int, j: int, k: int): real { Get(t, [i, j, k]) }

  predicate Rank(t: Tensor, r: nat) { |t.shape| == r }

  lemma Extensional(x: Tensor, y: Tensor)
    requires x.shape == y.shape
    requires forall ix | InShape(x.shape, ix) :: Get(x, ix) == Get(y, ix)
    ensures x == y
  {
    assert forall ix :: ix in x.at <==> ix in y.at;
    forall ix | ix in x.at ensures x.at[ix] == y.at[ix] {
      assert Get(x, ix) == Get(y, ix);
    }
    assert x.at == y.at;
  }

  // ---------------------------------------------------------------- construction by entries

  function Make1(a: nat, f: int -> real): (r: Tensor)
    ensures r.shape == [a]
  {
    RawTensor([a], map ix | ix in AllIndices([a]) :: f(ix[0]))
  }

  function Make2(a: nat, b: nat, f: (int, int) -> real): (r: Tensor)
    ensures r.shape == [a, b]
  {
    RawTensor([a, b], map ix | ix in AllIndices([a, b]) :: f(ix[0], ix[1]))
  }

  function Make3(a: nat, b: nat, c: nat, f: (int, int, int) -> real): (r: Tensor)
    ensures r.shape == [a, b, c]
  {
    RawTensor([a, b, c], map ix | ix in AllIndices([a, b, c]) :: f(ix[0], ix[1], ix[2]))
  }

  lemma InShape3(a: nat, b: nat, c: nat, i: int, j: int, k: int)
    ensures InShape([a, b, c], [i, j, k]) <==> 0 <= i < a && 0 <= j < b && 0 <= k < c
  {
    var s, ix := [a, b, c], [i, j, k];
    assert s[0] == a && s[1] == b && s[2] == c && ix[0] == i && ix[1] == j && ix[2] == k;
  }

  lemma InShape2(a: nat, b: nat, i: int, j: int)
    ensures InShape([a, b], [i, j]) <==> 0 <= i < a && 0 <= j < b
  {
    var s, ix := [a, b], [i, j];
    assert s[0] == a && s[1] == b && ix[0] == i && ix[1] == j;
  }

  lemma Make3At(a: nat, b: nat, c: nat, f: (int, int, int) -> real, i: int, j: int, k: int)
    requires 0 <= i < a && 0 <= j < b && 0 <= k < c
    ensures Get3(Make3(a, b, c, f), i, j, k) == f(i, j, k)
  {
    InShape3(a, b, c, i, j, k);
  }

  lemma Make2At(a: nat, b: nat, f: (int, int) -> real, i: int, j: int)
    requires 0 <= i < a && 0 <= j < b
    ensures Get2(Make2(a, b, f), i, j) == f(i, j)
  {
    InShape2(a, b, i, j);
  }

  lemma Make1At(a: nat, f: int -> real, i: int)
    requires 0 <= i < a
    ensures Get1(Make1(a, f), i) == f(i)
  {
    assert InShape([a], [i]);
  }

  lemma Extensional3(x: Tensor, y: Tensor, a: nat, b: nat, c: nat)
    requires x.shape == [a, b, c] && y.shape == [a, b, c]
    requires forall i, j, k | 0 <= i < a && 0 <= j < b && 0 <= k < c :: Get3(x, i, j, k) == Get3(y, i, j, k)
    ensures x == y
  {
    forall ix | InShape(x.shape, ix) ensures Get(x, ix) == Get(y, ix) {
      assert ix == [ix[0], ix[1], ix[2]];
      InShape3(a, b, c, ix[0], ix[1], ix[2]);
      assert Get3(x, ix[0], ix[1], ix[2]) == Get3(y, ix[0], ix[1], ix[2]);
    }
    Extensional(x, y);
  }

  lemma Extensional2(x: Tensor, y: Tensor, a: nat, b: nat)
    requires x.shape == [a, b] && y.shape == [a, b]
    requires forall i, j | 0 <= i < a && 0 <= j < b :: Get2(x, i, j) == Get2(y, i, j)
    ensures x == y
  {
    forall ix | InShape(x.shape, ix) ensures Get(x, ix) == Get(y, ix) {
      assert ix == [ix[0], ix[1]];
      InShape2(a, b, ix[0], ix[1]);
      assert Get2(x, ix[0], ix[1]) == Get2(y, ix[0], ix[1]);
    }
    Extensional(x, y);
  }

  // ---------------------------------------------------------------- Transpose with perm = [0, 2, 1]

  function Swap(t: Tensor): (r: Tensor)
    requires Rank(t, 3)
    ensures r.shape == [t.shape[0], t.shape[2], t.shape[1]]
  {
    Make3(t.shape[0], t.shape[2], t.shape[1], (i, j, k) => Get3(t, i, k, j))
  }

  lemma SwapAt(t: Tensor, i: int, j: int, k: int)
    requires Rank(t, 3)
    requires 0 <= i < t.shape[0] && 0 <= j < t.shape[2] && 0 <= k < t.shape[1]
    ensures Get3(Swap(t), i, j, k) == Get3(t, i, k, j)
  {
    Make3At(t.shape[0], t.shape[2], t.shape[1], (i, j, k) => Get3(t, i, k, j), i, j, k);
  }

  /** The layout change between NCT and NTC is its own inverse. */
  lemma SwapSwap(t: Tensor)
    requires Rank(t, 3)
    ensures Swap(Swap(t)) == t
  {
    hide WellShaped, InShape, Get, Get3, Make3, Swap, InShape, WellShaped;
    var s := Swap(t);
    forall i, j, k | 0 <= i < t.shape[0] && 0 <= j < t.shape[1] && 0 <= k < t.shape[2]
      ensures Get3(Swap(s), i, j, k) == Get3(t, i, j, k)
    {
      SwapAt(s, i, j, k);
      SwapAt(t, i, k, j);
    }
    assert t.shape == [t.shape[0], t.shape[1], t.shape[2]];
    Extensional3(Swap(s), t, t.shape[0], t.shape[1], t.shape[2]);
  }

  // ---------------------------------------------------------------- element-wise operators

  function Map(f: real -> real, t: Tensor): (r: Tensor)
    ensures r.shape == t.shape
  {
    RawTensor(t.shape, map ix | ix in AllIndices(t.shape) :: f(Get(t, ix)))
  }

  /** Dimension `d` of shape `s` once it is aligned to the right in rank `r`. */
  function Aligned(s: seq<nat>, r: nat, d: nat): nat
    requires |s| <= r && d < r
  {
    if d < r - |s| then 1 else s[d - (r - |s|)]
  }

  function JointRank(s: seq<nat>, t: seq<nat>): nat { if |s| < |t| then |t| else |s| }

  predicate Fits(m: nat, n: nat) { m == n || m == 1 || n == 1 }

  predicate FitsAt(s: seq<nat>, t: seq<nat>, d: nat)
    requires d < JointRank(s, t)
  {
    Fits(Aligned(s, JointRank(s, t), d), Aligned(t, JointRank(s, t), d))
  }

  predicate Broadcastable(s: seq<nat>, t: seq<nat>) {
    forall d | 0 <= d < JointRank(s, t) :: FitsAt(s, t, d)
  }

  function JointShape(s: seq<nat>, t: seq<nat>): seq<nat> {
    var r := JointRank(s, t);
    seq(r, d requires 0 <= d < r => if Aligned(s, r, d) == 1 then Aligned(t, r, d) else Aligned(s, r, d))
  }

  /** The entry of a tensor of shape `s` that meets index `ix` of the joint shape. */
  function Source(s: seq<nat>, ix: seq<int>): seq<int>
    requires |s| <= |ix|
  {
    seq(|s|, d requires 0 <= d < |s| => if s[d] == 1 then 0 else ix[|ix| - |s| + d])
  }

  function Zip(f: (real, real) -> real, x: Tensor, y: Tensor): (r: Tensor)
    requires Broadcastable(x.shape, y.shape)
    ensures r.shape == JointShape(x.shape, y.shape)
  {
    var shape := JointShape(x.shape, y.shape);
    RawTensor(shape, map ix | ix in AllIndices(shape) ::
      f(Get(x, Source(x.shape, ix)), Get(y, Source(y.shape, ix))))
  }

  lemma MapAt3(f: real -> real, t: Tensor, i: int, j: int, k: int)
    requires Rank(t, 3) && 0 <= i < t.shape[0] && 0 <= j < t.shape[1] && 0 <= k < t.shape[2]
    ensures Get3(Map(f, t), i, j, k) == f(Get3(t, i, j, k))
  {
    assert t.shape == [t.shape[0], t.shape[1], t.shape[2]];
    InShape3(t.shape[0], t.shape[1], t.shape[2], i, j, k);
  }

  lemma MapSwap(f: real -> real, t: Tensor)
    requires Rank(t, 3)
    ensures Map(f, Swap(t)) == Swap(Map(f, t))
  {
    hide WellShaped, InShape, Get, Get3, Make3, Swap, Map, InShape, WellShaped;
    var l, r := Map(f, Swap(t)), Swap(Map(f, t));
    forall i, j, k | 0 <= i < t.shape[0] && 0 <= j < t.shape[2] && 0 <= k < t.shape[1]
      ensures Get3(l, i, j, k) == Get3(r, i, j, k)
    {
      SwapAt(t, i, j, k);
      SwapAt(Map(f, t), i, j, k);
      MapAt3(f, t, i, k, j);
      MapAt3(f, Swap(t), i, j, k);
    }
    Extensional3(l, r, t.shape[0], t.shape[2], t.shape[1]);
  }

  lemma ZipAt3(f: (real, real) -> real, x: Tensor, y: Tensor, i: int, j: int, k: int)
    requires Broadcastable(x.shape, y.shape) && JointRank(x.shape, y.shape) == 3
    requires var s := JointShape(x.shape, y.shape); 0 <= i < s[0] && 0 <= j < s[1] && 0 <= k < s[2]
    ensures Get3(Zip(f, x, y), i, j, k) ==
            f(Get(x, Source(x.shape, [i, j, k])), Get(y, Source(y.shape, [i, j, k])))
  {
    var s := JointShape(x.shape, y.shape);
    assert s == [s[0], s[1], s[2]];
    InShape3(s[0], s[1], s[2], i, j, k);
  }

  lemma Source3(s: seq<nat>, i: int, j: int, k: int)
    requires |s| == 3
    ensures Source(s, [i, j, k]) ==
            [if s[0] == 1 then 0 else i, if s[1] == 1 then 0 else j, if s[2] == 1 then 0 else k]
  {
    assert [i, j, k][0] == i && [i, j, k][1] == j && [i, j, k][2] == k;
  }

  function Joint(m: nat, n: nat): nat { if m == 1 then n else m }

  function Pick(m: nat, i: int): int { if m == 1 then 0 else i }

  lemma Shapes3(s: seq<nat>, t: seq<nat>)
    requires |s| == 3 && |t| == 3
    ensures Broadcastable(s, t) <==> Fits(s[0], t[0]) && Fits(s[1], t[1]) && Fits(s[2], t[2])
    ensures JointShape(s, t) == [Joint(s[0], t[0]), Joint(s[1], t[1]), Joint(s[2], t[2])]
  {
    assert Aligned(s, 3, 0) == s[0] && Aligned(s, 3, 1) == s[1] && Aligned(s, 3, 2) == s[2];
    assert Aligned(t, 3, 0) == t[0] && Aligned(t, 3, 1) == t[1] && Aligned(t, 3, 2) == t[2];
    if Broadcastable(s, t) {
      assert FitsAt(s, t, 0) && FitsAt(s, t, 1) && FitsAt(s, t, 2);
    }
    if Fits(s[0], t[0]) && Fits(s[1], t[1]) && Fits(s[2], t[2]) {
      forall d | 0 <= d < 3 ensures FitsAt(s, t, d) {
        if d == 0 {} else if d == 1 {} else {}
      }
    }
  }

  lemma ZipAt33(f: (real, real) -> real, x: Tensor, y: Tensor, i: int, j: int, k: int)
    requires Rank(x, 3) && Rank(y, 3) && Broadcastable(x.shape, y.shape)
    requires 0 <= i < Joint(x.shape[0], y.shape[0])
    requires 0 <= j < Joint(x.shape[1], y.shape[1])
    requires 0 <= k < Joint(x.shape[2], y.shape[2])
    ensures Get3(Zip(f, x, y), i, j, k) ==
            f(Get3(x, Pick(x.shape[0], i), Pick(x.shape[1], j), Pick(x.shape[2], k)),
              Get3(y, Pick(y.shape[0], i), Pick(y.shape[1], j), Pick(y.shape[2], k)))
  {
    hide Get, Zip, InShape, WellShaped, Broadcastable, JointShape, Source;
    Shapes3(x.shape, y.shape);
    ZipAt3(f, x, y, i, j, k);
    Source3(x.shape, i, j, k);
    Source3(y.shape, i, j, k);
  }

  /** Element-wise operators commute with the layout change, broadcasting included. */
  lemma ZipSwap(f: (real, real) -> real, x: Tensor, y: Tensor)
    requires Rank(x, 3) && Rank(y, 3) && Broadcastable(x.shape, y.shape)
    ensures Broadcastable(Swap(x).shape, Swap(y).shape)
    ensures Rank(Zip(f, x, y), 3)
    ensures Zip(f, Swap(x), Swap(y)) == Swap(Zip(f, x, y))
  {
    hide WellShaped, InShape, Get, Get3, Make3, Swap, Zip, InShape, WellShaped, Broadcastable, JointShape, Source;
    var a, b := x.shape, y.shape;
    Shapes3(a, b);
    Shapes3(Swap(x).shape, Swap(y).shape);
    var z := Zip(f, x, y);
    var l := Zip(f, Swap(x), Swap(y));
    forall i, j, k | 0 <= i < Joint(a[0], b[0]) && 0 <= j < Joint(a[2], b[2]) && 0 <= k < Joint(a[1], b[1])
      ensures Get3(l, i, j, k) == Get3(Swap(z), i, j, k)
    {
      SwapAt(z, i, j, k);
      ZipAt33(f, x, y, i, k, j);
      ZipAt33(f, Swap(x), Swap(y), i, j, k);
      SwapAt(x, Pick(a[0], i), Pick(a[2], j), Pick(a[1], k));
      SwapAt(y, Pick(b[0], i), Pick(b[2], j), Pick(b[1], k));
    }
    Extensional3(l, Swap(z), Joint(a[0], b[0]), Joint(a[2], b[2]), Joint(a[1], b[1]));
  }

  /** A tensor with one element, whatever its rank. */
  predicate Single(t: Tensor) { forall d | 0 <= d < |t.shape| :: t.shape[d] == 1 }

  lemma SourceSingle(s: seq<nat>, ix: seq<int>)
    requires |s| <= |ix| && forall d | 0 <= d < |s| :: s[d] == 1
    ensures Source(s, ix) == seq(|s|, d => 0)
  {}

  lemma ZipScalarShape(x: Tensor, y: Tensor)
    requires Rank(x, 3) && |y.shape| <= 3 && Single(y)
    ensures Broadcastable(x.shape, y.shape) && Broadcastable(y.shape, x.shape)
    ensures JointShape(x.shape, y.shape) == x.shape && JointShape(y.shape, x.shape) == x.shape
  {
    assert forall d | 0 <= d < 3 :: Aligned(y.shape, 3, d) == 1 && Aligned(x.shape, 3, d) == x.shape[d];
  }

  lemma PickAll(s: seq<nat>, i: int, j: int, k: int)
    requires |s| == 3 && 0 <= i < s[0] && 0 <= j < s[1] && 0 <= k < s[2]
    ensures Source(s, [i, j, k]) == [i, j, k]
  {
    Source3(s, i, j, k);
  }

  lemma ZipScalarAt(f: (real, real) -> real, x: Tensor, y: Tensor, i: int, j: int, k: int)
    requires Rank(x, 3) && |y.shape| <= 3 && Single(y)
    requires 0 <= i < x.shape[0] && 0 <= j < x.shape[1] && 0 <= k < x.shape[2]
    ensures Broadcastable(x.shape, y.shape) && Broadcastable(y.shape, x.shape)
    ensures Get3(Zip(f, x, y), i, j, k) == f(Get3(x, i, j, k), Get(y, seq(|y.shape|, d => 0)))
    ensures Get3(Zip(f, y, x), i, j, k) == f(Get(y, seq(|y.shape|, d => 0)), Get3(x, i, j, k))
  {
    hide Get, Zip, InShape, WellShaped, Broadcastable, JointShape, Source;
    ZipScalarShape(x, y);
    ZipAt3(f, x, y, i, j, k);
    ZipAt3(f, y, x, i, j, k);
    SourceSingle(y.shape, [i, j, k]);
    PickAll(x.shape, i, j, k);
    Source3(x.shape, i, j, k);
  }

  lemma ZipScalarSwap(f: (real, real) -> real, x: Tensor, y: Tensor)
    requires Rank(x, 3) && |y.shape| <= 3 && Single(y)
    ensures Broadcastable(x.shape, y.shape) && Broadcastable(y.shape, x.shape)
    ensures Broadcastable(Swap(x).shape, y.shape) && Broadcastable(y.shape, Swap(x).shape)
    ensures Rank(Zip(f, x, y), 3) && Rank(Zip(f, y, x), 3)
    ensures Zip(f, Swap(x), y) == Swap(Zip(f, x, y))
    ensures Zip(f, y, Swap(x)) == Swap(Zip(f, y, x))
  {
    hide WellShaped, InShape, Get, Get3, Make3, Swap, Zip, InShape, WellShaped, Broadcastable, JointShape, Source;
    ZipScalarShape(x, y);
    ZipScalarShape(Swap(x), y);
    var z, z' := Zip(f, x, y), Zip(f, y, x);
    var l, l' := Zip(f, Swap(x), y), Zip(f, y, Swap(x));
    forall i, j, k | 0 <= i < x.shape[0] && 0 <= j < x.shape[2] && 0 <= k < x.shape[1]
      ensures Get3(l, i, j, k) == Get3(Swap(z), i, j, k) && Get3(l', i, j, k) == Get3(Swap(z'), i, j, k)
    {
      SwapAt(z, i, j, k);
      SwapAt(z', i, j, k);
      SwapAt(x, i, j, k);
      ZipScalarAt(f, x, y, i, k, j);
      ZipScalarAt(f, Swap(x), y, i, j, k);
    }
    Extensional3(l, Swap(z), x.shape[0], x.shape[2], x.shape[1]);
    Extensional3(l', Swap(z'), x.shape[0], x.shape[2], x.shape[1]);
  }

  // ---------------------------------------------------------------- parts along an axis

  /** Entries `from .. from + length` along the second or the third axis. */
  function Part(t: Tensor, axis: nat, from: nat, length: nat): (r: Tensor)
    requires Rank(t, 3) && 1 <= axis <= 2
    ensures Rank(r, 3)
  {
    if axis == 1 then Make3(t.shape[0], length, t.shape[2], (i, j, k) => Get3(t, i, from + j, k))
    else Make3(t.shape[0], t.shape[1], length, (i, j, k) => Get3(t, i, j, from + k))
  }

  lemma PartAt(t: Tensor, from: nat, length: nat, i: int, j: int, k: int)
    requires Rank(t, 3) && 0 <= i < t.shape[0] && 0 <= j < t.shape[1] && 0 <= k < length
    ensures Get3(Part(t, 2, from, length), i, j, k) == Get3(t, i, j, from + k)
  {
    Make3At(t.shape[0], t.shape[1], length, (i, j, k) => Get3(t, i, j, from + k), i, j, k);
  }

  lemma ChannelPartAt(t: Tensor, from: nat, length: nat, i: int, j: int, k: int)
    requires Rank(t, 3) && 0 <= i < t.shape[0] && 0 <= j < length && 0 <= k < t.shape[2]
    ensures Get3(Part(t, 1, from, length), i, j, k) == Get3(t, i, from + j, k)
  {
    Make3At(t.shape[0], length, t.shape[2], (i, j, k) => Get3(t, i, from + j, k), i, j, k);
  }

  /** Cutting the last axis of the transposed tensor is transposing the cut of its channels. */
  lemma PartSwap(t: Tensor, from: nat, length: nat)
    requires Rank(t, 3) && from + length <= t.shape[1]
    ensures Part(Swap(t), 2, from, length) == Swap(Part(t, 1, from, length))
  {
    hide WellShaped, InShape, Get, Get3, Make3, Swap;
    var l, p := Part(Swap(t), 2, from, length), Part(t, 1, from, length);
    forall i, j, k | 0 <= i < t.shape[0] && 0 <= j < t.shape[2] && 0 <= k < length
      ensures Get3(l, i, j, k) == Get3(Swap(p), i, j, k)
    {
      PartAt(Swap(t), from, length, i, j, k);
      SwapAt(t, i, j, from + k);
      SwapAt(p, i, j, k);
      ChannelPartAt(t, from, length, i, k, j);
    }
    Extensional3(l, Swap(p), t.shape[0], t.shape[2], length);
  }

  function Plus(): (real, real) -> real { (a: real, b: real) => a + b }

  function AddBias(t: Tensor, b: Tensor): Tensor
    requires Broadcastable(t.shape, b.shape)
  {
    Zip(Plus(), t, b)
  }

  lemma AddBiasShape(t: Tensor, b: Tensor)
    requires Rank(t, 3) && b.shape == [t.shape[2]]
    ensures Broadcastable(t.shape, b.shape) && JointShape(t.shape, b.shape) == t.shape
    ensures AddBias(t, b).shape == t.shape
  {
    assert forall d | 0 <= d < 3 :: Aligned(t.shape, 3, d) == t.shape[d];
    assert Aligned(b.shape, 3, 0) == 1 && Aligned(b.shape, 3, 1) == 1 && Aligned(b.shape, 3, 2) == t.shape[2];
  }

  /** A bias vector is added along the last axis. */
  lemma AddBiasAt(t: Tensor, b: Tensor, i: int, j: int, k: int)
    requires Rank(t, 3) && b.shape == [t.shape[2]]
    requires 0 <= i < t.shape[0] && 0 <= j < t.shape[1] && 0 <= k < t.shape[2]
    ensures Broadcastable(t.shape, b.shape)
    ensures Get3(AddBias(t, b), i, j, k) == Get3(t, i, j, k) + Get1(b, k)
  {
    hide Get, Zip, InShape, WellShaped, Broadcastable, JointShape;
    AddBiasShape(t, b);
    ZipAt3(Plus(), t, b, i, j, k);
    PickAll(t.shape, i, j, k);
    assert Source(b.shape, [i, j, k]) == [k];
  }
}
