/** How often a lattice path has to change its supporting seed: the dynamic program of `evidence_candidates` in
    diagnostics/python/summarize_reazon_lattice_width_search.py. */
module LatticeSwitches {
  import opened Lattice

  // ---------------------------------------------------------------- supporters and assignments

  predicate TakesAt(seed: Seed, s: seq<Token>, k: nat)
    requires k < |s|
  {
    k < |seed.tokens| && After(seed.tokens, k) == After(s, k) && seed.tokens[k] == s[k]
  }

  /** The seeds that take transition `k` of `s`; at position |s|, the seeds that end where `s` ends. */
  function Supporters(seeds: seq<Seed>, s: seq<Token>, k: nat): set<nat>
    requires k <= |s|
  {
    if k < |s| then set i: nat | i < |seeds| && TakesAt(seeds[i], s, k)
    else set i: nat | i < |seeds| && End(seeds[i].tokens) == End(s)
  }

  function AllSupporters(seeds: seq<Seed>, s: seq<Token>): (r: seq<set<nat>>)
    ensures |r| == |s| + 1 && forall k | 0 <= k <= |s| :: r[k] == Supporters(seeds, s, k)
  {
    seq(|s| + 1, k requires 0 <= k <= |s| => Supporters(seeds, s, k))
  }

  /** One supporting seed per position. */
  ghost predicate Fits(a: seq<nat>, sup: seq<set<nat>>) {
    |a| == |sup| && forall k | 0 <= k < |a| :: a[k] in sup[k]
  }

  function Switches(a: seq<nat>): nat {
    if |a| <= 1 then 0
    else Switches(a[..|a| - 1]) + (if a[|a| - 2] != a[|a| - 1] then 1 else 0)
  }

  /** `cost` is the least number of switches over all assignments that end with seed `j`. */
  ghost predicate LeastEndingAt(cost: nat, sup: seq<set<nat>>, j: nat) {
    && (exists a :: Fits(a, sup) && a != [] && a[|a| - 1] == j && Switches(a) == cost)
    && (forall a | Fits(a, sup) && a != [] && a[|a| - 1] == j :: cost <= Switches(a))
  }

  // ---------------------------------------------------------------- the dynamic program

  lemma {:induction false} LeastElement(s: set<nat>) returns (m: nat)
    requires s != {}
    ensures m in s && forall x | x in s :: m <= x
    decreases |s|
  {
    var y :| y in s;
    m := y;
    if s != {y} {
      var n := LeastElement(s - {y});
      if n < y { m := n; }
      forall x | x in s ensures m <= x { assert x == y || x in s - {y}; }
    }
  }

  lemma MinExists(s: set<nat>)
    requires s != {}
    ensures exists m :: m in s && forall x | x in s :: m <= x
  {
    var m := LeastElement(s);
  }

  function MinOf(s: set<nat>): (m: nat)
    requires s != {}
    ensures m in s && forall x | x in s :: m <= x
  {
    MinExists(s);
    var m :| m in s && forall x | x in s :: m <= x;
    m
  }

  function Change(i: nat, j: nat): nat { if i != j then 1 else 0 }

  function Continued(costs: map<nat, nat>, j: nat): (r: set<nat>)
    ensures costs != map[] ==> r != {}
    ensures forall i | i in costs :: costs[i] + Change(i, j) in r
  {
    var r := set i | i in costs :: costs[i] + Change(i, j);
    assert forall i | i in costs :: costs[i] + Change(i, j) in r;
    assert costs != map[] ==> costs.Keys != {};
    r
  }

  function Cheapest(costs: map<nat, nat>, j: nat): (c: nat)
    requires costs != map[]
    ensures exists i :: i in costs && c == costs[i] + Change(i, j)
    ensures forall i | i in costs :: c <= costs[i] + Change(i, j)
  {
    MinOf(Continued(costs, j))
  }

  ghost predicate CostsAre(costs: map<nat, nat>, sup: seq<set<nat>>) {
    sup != [] && costs.Keys == sup[|sup| - 1] && forall j | j in costs :: LeastEndingAt(costs[j], sup, j)
  }

  lemma CostsStart(first: set<nat>, costs: map<nat, nat>)
    requires costs.Keys == first && forall j | j in costs :: costs[j] == 0
    ensures CostsAre(costs, [first])
  {
    forall j | j in costs ensures LeastEndingAt(costs[j], [first], j) {
      assert Fits([j], [first]) && Switches([j]) == 0;
    }
  }

  lemma LastSwitch(a: seq<nat>, j: nat)
    requires a != []
    ensures Switches(a + [j]) == Switches(a) + Change(a[|a| - 1], j)
  {
    assert (a + [j])[..|a|] == a;
  }

  lemma CostsStep(costs: map<nat, nat>, costs': map<nat, nat>, sup: seq<set<nat>>, next: set<nat>)
    requires CostsAre(costs, sup) && costs != map[]
    requires costs'.Keys == next && forall j | j in costs' :: costs'[j] == Cheapest(costs, j)
    ensures CostsAre(costs', sup + [next])
  {
    hide LeastEndingAt, Switches, Fits, Cheapest;
    forall j | j in costs' ensures LeastEndingAt(costs'[j], sup + [next], j) {
      CostStep(costs, sup, next, j);
    }
  }

  lemma FitsSnoc(a: seq<nat>, j: nat, sup: seq<set<nat>>, next: set<nat>)
    ensures Fits(a + [j], sup + [next]) <==> Fits(a, sup) && j in next
  {
    var b, t := a + [j], sup + [next];
    if Fits(b, t) {
      assert b[|a|] in t[|a|];
      forall k | 0 <= k < |a| ensures a[k] in sup[k] { assert b[k] in t[k]; }
    }
  }

  lemma CostStep(costs: map<nat, nat>, sup: seq<set<nat>>, next: set<nat>, j: nat)
    requires CostsAre(costs, sup) && costs != map[] && j in next
    ensures LeastEndingAt(Cheapest(costs, j), sup + [next], j)
  {
    hide Switches, Fits, Cheapest;
    var cost := Cheapest(costs, j);
    var i :| i in costs && cost == costs[i] + Change(i, j);
    var a :| Fits(a, sup) && a != [] && a[|a| - 1] == i && Switches(a) == costs[i];
    LastSwitch(a, j);
    FitsSnoc(a, j, sup, next);
    var whole := a + [j];
    assert Fits(whole, sup + [next]) && whole[|whole| - 1] == j && Switches(whole) == cost;
    forall b | Fits(b, sup + [next]) && b != [] && b[|b| - 1] == j ensures cost <= Switches(b) {
      FrontCost(costs, sup, next, j, b);
    }
  }

  lemma FrontCost(costs: map<nat, nat>, sup: seq<set<nat>>, next: set<nat>, j: nat, b: seq<nat>)
    requires CostsAre(costs, sup) && costs != map[] && Fits(b, sup + [next]) && b != [] && b[|b| - 1] == j
    ensures Cheapest(costs, j) <= Switches(b)
  {
    hide Switches, Cheapest, LeastEndingAt, Fits;
    var front := b[..|b| - 1];
    assert b == front + [j];
    FitsSnoc(front, j, sup, next);
    var p := LastSupporter(front, sup);
    LastSwitch(front, j);
    LeastIsBound(costs[p], sup, p, front);
  }

  lemma LastSupporter(a: seq<nat>, sup: seq<set<nat>>) returns (p: nat)
    requires Fits(a, sup) && sup != []
    ensures a != [] && p == a[|a| - 1] && p in sup[|sup| - 1]
  {
    p := a[|a| - 1];
  }

  lemma LeastIsBound(cost: nat, sup: seq<set<nat>>, j: nat, a: seq<nat>)
    requires LeastEndingAt(cost, sup, j) && Fits(a, sup) && a != [] && a[|a| - 1] == j
    ensures cost <= Switches(a)
  {}

  /** `least` is attained by some assignment and undercut by none. */
  ghost predicate LeastSwitches(least: nat, sup: seq<set<nat>>) {
    && (exists a :: Fits(a, sup) && Switches(a) == least)
    && (forall a | Fits(a, sup) :: least <= Switches(a))
  }

  /** An accepted sequence has a supporter at every position, so the lookups of the program always succeed. */
  lemma SupportersExist(seeds: seq<Seed>, s: seq<Token>, k: nat)
    requires Accepted(seeds, s) && k <= |s|
    ensures Supporters(seeds, s, k) != {}
  {
    if k < |s| {
      assert Taken(seeds, After(s, k), s[k]);
      var i :| 0 <= i < |seeds| && Takes(seeds[i], |seeds[i].tokens|, After(s, k), s[k]);
      assert TakesAt(seeds[i], s, k);
      assert i in Supporters(seeds, s, k);
    } else {
      var i :| 0 <= i < |seeds| && End(seeds[i].tokens) == End(s);
      assert i in Supporters(seeds, s, k);
    }
  }

  /** `min_source_switches` of one candidate. */
  method MinSourceSwitches(seeds: seq<Seed>, s: seq<Token>) returns (least: nat)
    requires Accepted(seeds, s)
    ensures LeastSwitches(least, AllSupporters(seeds, s))
  {
    hide CostsAre, Supporters, LeastSwitches, Accepted, Cheapest;
    var sup := AllSupporters(seeds, s);
    var costs := map j | j in sup[0] :: 0;
    SupportersExist(seeds, s, 0);
    CostsStart(sup[0], costs);
    assert sup[..1] == [sup[0]];
    for k := 1 to |sup|
      invariant CostsAre(costs, sup[..k]) && costs.Keys != {}
    {
      var next := map j | j in sup[k] :: Cheapest(costs, j);
      SupportersExist(seeds, s, k);
      CostsStep(costs, next, sup[..k], sup[k]);
      assert sup[..k + 1] == sup[..k] + [sup[k]];
      costs := next;
    }
    assert sup[..|sup|] == sup;
    var j0 :| j0 in costs;
    assert costs[j0] in costs.Values;
    least := MinOf(costs.Values);
    Answer(costs, sup, least);
  }

  lemma Attained(cost: nat, sup: seq<set<nat>>, j: nat)
    requires LeastEndingAt(cost, sup, j)
    ensures exists a :: Fits(a, sup) && Switches(a) == cost
  {}

  lemma Answer(costs: map<nat, nat>, sup: seq<set<nat>>, least: nat)
    requires CostsAre(costs, sup) && least in costs.Values && forall c | c in costs.Values :: least <= c
    ensures LeastSwitches(least, sup)
  {
    hide Switches, Fits, LeastEndingAt;
    var j :| j in costs && costs[j] == least;
    Attained(costs[j], sup, j);
    forall a | Fits(a, sup) ensures least <= Switches(a) {
      var last := LastSupporter(a, sup);
      assert costs[last] in costs.Values;
      LeastIsBound(costs[last], sup, last, a);
    }
  }

  // ---------------------------------------------------------------- paths without a switch

  lemma {:induction false} NoSwitchIsConstant(a: seq<nat>, k: nat)
    requires Switches(a) == 0 && k < |a|
    ensures a[k] == a[0]
    decreases |a|
  {
    if |a| > 1 {
      var front := a[..|a| - 1];
      assert front[|front| - 1] == a[|a| - 2] && front[0] == a[0];
      NoSwitchIsConstant(front, if k < |front| then k else |front| - 1);
    }
  }

  lemma {:induction false} ConstantHasNoSwitch(n: nat, i: nat)
    ensures Switches(seq(n, _ => i)) == 0
  {
    if n > 1 {
      ConstantHasNoSwitch(n - 1, i);
      assert seq(n, _ => i)[..n - 1] == seq(n - 1, _ => i);
    }
  }

  lemma SupportsAll(seeds: seq<Seed>, s: seq<Token>, i: nat)
    requires forall k | 0 <= k <= |s| :: i in Supporters(seeds, s, k)
    ensures i < |seeds| && seeds[i].tokens == s
  {
    assert i in Supporters(seeds, s, |s|);
    var t := seeds[i].tokens;
    assert |t| == End(t).count == End(s).count == |s|;
    forall k | 0 <= k < |s| ensures t[k] == s[k] {
      assert i in Supporters(seeds, s, k);
    }
  }

  lemma SeedSupportsItself(seeds: seq<Seed>, i: nat, k: nat)
    requires i < |seeds| && k <= |seeds[i].tokens|
    ensures i in Supporters(seeds, seeds[i].tokens, k)
  {
    if k < |seeds[i].tokens| { assert TakesAt(seeds[i], seeds[i].tokens, k); }
  }

  /** A path needs no switch exactly when it is one of the seeds. */
  lemma NoSwitchExactlySeeds(seeds: seq<Seed>, s: seq<Token>, least: nat)
    requires LeastSwitches(least, AllSupporters(seeds, s))
    ensures least == 0 <==> exists i :: 0 <= i < |seeds| && seeds[i].tokens == s
  {
    hide Supporters, Switches, After;
    var sup := AllSupporters(seeds, s);
    if least == 0 {
      var a :| Fits(a, sup) && Switches(a) == 0;
      var i := a[0];
      forall k | 0 <= k <= |s| ensures i in Supporters(seeds, s, k) {
        NoSwitchIsConstant(a, k);
        assert a[k] in sup[k];
      }
      SupportsAll(seeds, s, i);
    }
    if i :| 0 <= i < |seeds| && seeds[i].tokens == s {
      var a := seq(|s| + 1, _ => i);
      forall k | 0 <= k < |a| ensures a[k] in sup[k] { SeedSupportsItself(seeds, i, k); }
      assert Fits(a, sup);
      ConstantHasNoSwitch(|s| + 1, i);
    }
  }
}
