/** Activations that tell matrices apart, and the smallest matrices. */
module MatrixProbes {
  import opened Tensors
  import A = AffineTensors

  function RowOf(n: nat, i: nat): (r: Tensor)
    ensures r.shape == [1, n]
  {
    Make2(1, n, (_, j) => if j == i then 1.0 else 0.0)
  }

  lemma {:induction false} RowPicks(n: nat, i: nat, b: Tensor, j: nat, k: nat)
    requires Rank(b, 2) && b.shape[0] == n && i < n && j < b.shape[1] && k <= n
    ensures A.Dot2(RowOf(n, i), b, 0, j, k) == if i < k then Get2(b, i, j) else 0.0
  {
    hide WellShaped, InShape, Get, Get2, Make2;
    if k > 0 {
      RowPicks(n, i, b, j, k - 1);
      Make2At(1, n, (_, j) => if j == i then 1.0 else 0.0, 0, k - 1);
      var one := Get2(RowOf(n, i), 0, k - 1);
      assert one == if k - 1 == i then 1.0 else 0.0;
    }
  }

  /** Two matrices that give every activation of the one the same product are the same. */
  lemma SameProducts(u: Tensor, v: Tensor)
    requires Rank(u, 2) && Rank(v, 2)
    ensures (forall a: Tensor | A.CanMatMul2(a, u) :: A.CanMatMul2(a, v) && A.MatMul2(a, u) == A.MatMul2(a, v)) <==> u == v
  {
    hide WellShaped, InShape, Get, Get2, Make2, A.MatMul2, A.Dot2;
    if forall a: Tensor | A.CanMatMul2(a, u) :: A.CanMatMul2(a, v) && A.MatMul2(a, u) == A.MatMul2(a, v) {
      var n, m := u.shape[0], u.shape[1];
      assert A.CanMatMul2(RowOf(n, 0), u);
      assert v.shape[0] == n && A.MatMul2(RowOf(n, 0), u).shape[1] == A.MatMul2(RowOf(n, 0), v).shape[1];
      forall i, j | 0 <= i < n && 0 <= j < m ensures Get2(u, i, j) == Get2(v, i, j) {
        var a := RowOf(n, i);
        assert A.CanMatMul2(a, u);
        A.MatMul2At(a, u, 0, j);
        A.MatMul2At(a, v, 0, j);
        RowPicks(n, i, u, j, n);
        RowPicks(n, i, v, j, n);
      }
      Extensional2(u, v, n, m);
    }
  }

  function OneByOne(v: real): (r: Tensor)
    ensures r.shape == [1, 1]
  {
    Make2(1, 1, (_, _) => v)
  }

  lemma OneByOneProduct(u: real, v: real)
    ensures A.CanMatMul2(OneByOne(u), OneByOne(v)) && Get2(A.MatMul2(OneByOne(u), OneByOne(v)), 0, 0) == u * v
  {
    hide WellShaped, InShape, Get, Get2, Make2, A.MatMul2;
    var a, b := OneByOne(u), OneByOne(v);
    A.MatMul2At(a, b, 0, 0);
    Make2At(1, 1, (_, _) => u, 0, 0);
    Make2At(1, 1, (_, _) => v, 0, 0);
    assert A.Dot2(a, b, 0, 0, 0) == 0.0;
  }

  lemma OneByOneTurned(v: real)
    ensures A.Flip(OneByOne(v)) == OneByOne(v)
  {
    hide WellShaped, InShape, Get, Get2, Make2, OneByOne;
    var t := OneByOne(v);
    Make2At(1, 1, (i, j) => Get2(t, j, i), 0, 0);
    Extensional2(A.Flip(t), t, 1, 1);
  }
}
