/** Minimum-edit alignment with a deterministic tie break (diagnostics/python/asr_eval_metrics.py) and the
    two-row edit distances of the other diagnostics. */
module Alignment {
  import opened Wrappers
  import opened Sequences

  datatype Edit = Correct | Substitution | Deletion | Insertion

  // ---------------------------------------------------------------- alignments and their cost

  function Price(e: Edit): nat { if e == Correct then 0 else 1 }

  function Cost(ops: seq<Edit>): nat {
    if ops == [] then 0 else Cost(ops[..|ops| - 1]) + Price(ops[|ops| - 1])
  }

  function Front<T>(s: seq<T>): seq<T>
    requires s != []
  {
    s[..|s| - 1]
  }

  function Last<T>(s: seq<T>): T
    requires s != []
  {
    s[|s| - 1]
  }

  /** `ops`, read from the end, turns `r` into `h`. */
  ghost predicate Aligns<T>(ops: seq<Edit>, r: seq<T>, h: seq<T>)
    decreases |ops|
  {
    if ops == [] then r == [] && h == []
    else match Last(ops)
      case Correct => r != [] && h != [] && Last(r) == Last(h) && Aligns(Front(ops), Front(r), Front(h))
      case Substitution => r != [] && h != [] && Last(r) != Last(h) && Aligns(Front(ops), Front(r), Front(h))
      case Deletion => r != [] && Aligns(Front(ops), Front(r), h)
      case Insertion => h != [] && Aligns(Front(ops), r, Front(h))
  }

  function Min(a: nat, b: nat): nat { if a <= b then a else b }

  function Diagonal<T(==)>(r: seq<T>, h: seq<T>): nat
    requires r != [] && h != []
    decreases |r| + |h|, 0
  {
    Dist(Front(r), Front(h)) + (if Last(r) == Last(h) then 0 else 1)
  }

  /** The Levenshtein distance. */
  function Dist<T(==)>(r: seq<T>, h: seq<T>): nat
    decreases |r| + |h|, 1
  {
    if r == [] then |h| else if h == [] then |r|
    else Min(Diagonal(r, h), Min(Dist(Front(r), h) + 1, Dist(r, Front(h)) + 1))
  }

  /** The operation recorded in a cell: the cheapest, and among those the first of correct or substitution,
      deletion, insertion. The origin has none. */
  function Choice<T(==)>(r: seq<T>, h: seq<T>): Option<Edit> {
    if r == [] && h == [] then None
    else if r == [] then Some(Insertion)
    else if h == [] then Some(Deletion)
    else if Diagonal(r, h) == Dist(r, h) then Some(if Last(r) == Last(h) then Correct else Substitution)
    else if Dist(Front(r), h) + 1 == Dist(r, h) then Some(Deletion)
    else Some(Insertion)
  }

  /** Following the recorded operations back to the origin. */
  function Best<T(==)>(r: seq<T>, h: seq<T>): seq<Edit>
    decreases |r| + |h|
  {
    match Choice(r, h)
    case None => []
    case Some(Deletion) => Best(Front(r), h) + [Deletion]
    case Some(Insertion) => Best(r, Front(h)) + [Insertion]
    case Some(op) => Best(Front(r), Front(h)) + [op]
  }

  /** The returned alignment is one, and its cost is the distance. */
  lemma {:induction false} BestAligns<T>(r: seq<T>, h: seq<T>)
    ensures Aligns(Best(r, h), r, h) && Cost(Best(r, h)) == Dist(r, h)
    decreases |r| + |h|
  {
    var ops := Best(r, h);
    match Choice(r, h)
    case None =>
    case Some(Deletion) =>
      BestAligns(Front(r), h);
      assert Front(ops) == Best(Front(r), h);
    case Some(Insertion) =>
      BestAligns(r, Front(h));
      assert Front(ops) == Best(r, Front(h));
    case Some(_) =>
      BestAligns(Front(r), Front(h));
      assert Front(ops) == Best(Front(r), Front(h));
  }

  /** No alignment is cheaper than the distance. */
  lemma {:induction false} DistIsLeast<T>(ops: seq<Edit>, r: seq<T>, h: seq<T>)
    requires Aligns(ops, r, h)
    ensures Dist(r, h) <= Cost(ops)
    decreases |ops|
  {
    if ops != [] {
      match Last(ops)
      case Correct => DistIsLeast(Front(ops), Front(r), Front(h));
      case Substitution => DistIsLeast(Front(ops), Front(r), Front(h));
      case Deletion => DistIsLeast(Front(ops), Front(r), h);
        DistStep(r, h);
      case Insertion => DistIsLeast(Front(ops), r, Front(h));
        DistStep(r, h);
    }
  }

  lemma DistStep<T>(r: seq<T>, h: seq<T>)
    ensures r != [] ==> Dist(r, h) <= Dist(Front(r), h) + 1
    ensures h != [] ==> Dist(r, h) <= Dist(r, Front(h)) + 1
  {
    if r != [] && h == [] { assert Dist(Front(r), h) == |r| - 1; }
  }

  function Rank(e: Edit): nat {
    match e
    case Correct => 0
    case Substitution => 1
    case Deletion => 2
    case Insertion => 3
  }

  /** Compared from the end, `a` prefers the smaller operation where the two first differ. */
  ghost predicate PreferredFromEnd(a: seq<Edit>, b: seq<Edit>)
    decreases |a|
  {
    a == b || (a != [] && b != [] &&
      (Rank(Last(a)) < Rank(Last(b)) || (Last(a) == Last(b) && PreferredFromEnd(Front(a), Front(b)))))
  }

  /** Of a cheapest alignment the part before its last operation is a cheapest one. */
  lemma RestIsCheapest<T>(ops: seq<Edit>, r: seq<T>, h: seq<T>)
    requires Aligns(ops, r, h) && Cost(ops) == Dist(r, h) && ops != []
    ensures var op := Last(ops);
      && (op != Insertion ==> r != []) && (op != Deletion ==> h != [])
      && Cost(Front(ops)) == Dist(if op == Insertion then r else Front(r), if op == Deletion then h else Front(h))
  {
    DistStep(r, h);
    var op := Last(ops);
    var r', h' := if op == Insertion then r else Front(r), if op == Deletion then h else Front(h);
    DistIsLeast(Front(ops), r', h');
    assert Dist(r, h) <= Dist(r', h') + Price(op) by {
      if op == Correct || op == Substitution { assert Diagonal(r, h) == Dist(r', h') + Price(op); }
    }
  }

  /** Among all alignments of minimum cost the returned one is the preferred one, read from the end. */
  lemma {:induction false} BestIsPreferred<T>(ops: seq<Edit>, r: seq<T>, h: seq<T>)
    requires Aligns(ops, r, h) && Cost(ops) == Dist(r, h)
    ensures PreferredFromEnd(Best(r, h), ops)
    decreases |ops|
  {
    if ops != [] {
      var best, op := Best(r, h), Last(ops);
      RestIsCheapest(ops, r, h);
      var r', h' := if op == Insertion then r else Front(r), if op == Deletion then h else Front(h);
      assert Dist(r, h) == Dist(r', h') + Price(op);
      if Last(best) == op {
        assert Front(best) == Best(r', h');
        BestIsPreferred(Front(ops), r', h');
      }
    }
  }

  // ---------------------------------------------------------------- the table

  lemma TakeFront<T>(s: seq<T>, i: nat)
    requires 1 <= i <= |s|
    ensures Front(s[..i]) == s[..i - 1] && Last(s[..i]) == s[i - 1]
  {}

  /** `min(candidates)`: by cost, then by the rank listed beside it. */
  method SelectCell<T(==)>(ghost r: seq<T>, ghost h: seq<T>, equal: bool, diagonal: nat, above: nat, left: nat)
    returns (cost: nat, op: Edit)
    requires r != [] && h != [] && (equal <==> Last(r) == Last(h))
    requires diagonal == Dist(Front(r), Front(h)) && above == Dist(Front(r), h) && left == Dist(r, Front(h))
    ensures cost == Dist(r, h) && Choice(r, h) == Some(op)
  {
    cost, op := diagonal, Correct;
    if !equal { cost, op := diagonal + 1, Substitution; }
    if above + 1 < cost { cost, op := above + 1, Deletion; }
    if left + 1 < cost { cost, op := left + 1, Insertion; }
  }

  ghost predicate CellIs<T>(r: seq<T>, h: seq<T>, i: nat, j: nat, cost: nat, op: Option<Edit>)
    requires i <= |r| && j <= |h|
  {
    cost == Dist(r[..i], h[..j]) && op == Choice(r[..i], h[..j])
  }

  lemma BorderCells<T>(r: seq<T>, h: seq<T>, i: nat)
    ensures i <= |r| ==> CellIs(r, h, i, 0, i, if i == 0 then None else Some(Deletion))
    ensures i <= |h| ==> CellIs(r, h, 0, i, i, if i == 0 then None else Some(Insertion))
  {}

  /** The two tables, filled row by row. */
  method FillTables<T(==)>(r: seq<T>, h: seq<T>) returns (costs: array2<nat>, back: array2<Option<Edit>>)
    ensures back.Length0 == costs.Length0 == |r| + 1 && back.Length1 == costs.Length1 == |h| + 1
    ensures forall a, b | 0 <= a <= |r| && 0 <= b <= |h| :: CellIs(r, h, a, b, costs[a, b], back[a, b])
  {
    hide CellIs, Dist, Choice;
    costs := new nat[|r| + 1, |h| + 1]((i, j) => j);
    back := new Option<Edit>[|r| + 1, |h| + 1]((i, j) => if j == 0 then None else Some(Insertion));
    forall b | 0 <= b <= |h| ensures CellIs(r, h, 0, b, costs[0, b], back[0, b]) { BorderCells(r, h, b); }
    for i := 1 to |r| + 1
      invariant forall a, b | 0 <= a < i && 0 <= b <= |h| :: CellIs(r, h, a, b, costs[a, b], back[a, b])
    {
      costs[i, 0], back[i, 0] := i, Some(Deletion);
      BorderCells(r, h, i);
      for j := 1 to |h| + 1
        invariant forall a, b | 0 <= a < i && 0 <= b <= |h| :: CellIs(r, h, a, b, costs[a, b], back[a, b])
        invariant forall b | 0 <= b < j :: CellIs(r, h, i, b, costs[i, b], back[i, b])
      {
        var cost, op := FillCell(r, h, i, j, costs[i - 1, j - 1], costs[i - 1, j], costs[i, j - 1], back[i - 1, j - 1], back[i - 1, j], back[i, j - 1]);
        costs[i, j], back[i, j] := cost, Some(op);
      }
    }
  }

  method FillCell<T(==)>(r: seq<T>, h: seq<T>, i: nat, j: nat, diagonal: nat, above: nat, left: nat,
                         ghost o1: Option<Edit>, ghost o2: Option<Edit>, ghost o3: Option<Edit>)
    returns (cost: nat, op: Edit)
    requires 1 <= i <= |r| && 1 <= j <= |h|
    requires CellIs(r, h, i - 1, j - 1, diagonal, o1) && CellIs(r, h, i - 1, j, above, o2) && CellIs(r, h, i, j - 1, left, o3)
    ensures CellIs(r, h, i, j, cost, Some(op))
  {
    TakeFront(r, i);
    TakeFront(h, j);
    cost, op := SelectCell(r[..i], h[..j], r[i - 1] == h[j - 1], diagonal, above, left);
  }

  /** Away from the origin the recorded operation exists and is the last one of the remaining alignment. */
  lemma WalkStep<T>(r: seq<T>, h: seq<T>, i: nat, j: nat, cost: nat, op: Option<Edit>, ops: seq<Edit>)
    requires i <= |r| && j <= |h| && i + j > 0 && CellIs(r, h, i, j, cost, op)
    ensures op.Some?
    ensures op.value != Insertion ==> i > 0
    ensures op.value != Deletion ==> j > 0
    ensures Best(r[..i], h[..j]) + Reversed(ops)
         == Best(r[..if op.value == Insertion then i else i - 1], h[..if op.value == Deletion then j else j - 1])
            + Reversed(ops + [op.value])
  {
    hide Dist, Diagonal;
    if i > 0 { TakeFront(r, i); }
    if j > 0 { TakeFront(h, j); }
    assert Front(ops + [op.value]) == ops && Last(ops + [op.value]) == op.value;
  }

  lemma BestAtOrigin<T>(r: seq<T>, h: seq<T>)
    requires r == [] && h == []
    ensures Best(r, h) == []
  {}

  /** `align_characters`. The error raised when the walk back meets an empty cell is never returned. */
  method AlignCharacters<T(==)>(r: seq<T>, h: seq<T>) returns (result: Result<seq<Edit>, ()>)
    ensures result == Ok(Best(r, h))
  {
    hide CellIs, Dist, Diagonal;
    var costs, back := FillTables(r, h);
    var ops: seq<Edit> := [];
    var i, j := |r|, |h|;
    assert r[..i] == r && h[..j] == h;
    while i > 0 || j > 0
      invariant 0 <= i <= |r| && 0 <= j <= |h|
      invariant forall a, b | 0 <= a <= |r| && 0 <= b <= |h| :: CellIs(r, h, a, b, costs[a, b], back[a, b])
      invariant Best(r, h) == Best(r[..i], h[..j]) + Reversed(ops)
      decreases i + j
    {
      assert CellIs(r, h, i, j, costs[i, j], back[i, j]);
      WalkStep(r, h, i, j, costs[i, j], back[i, j], ops);
      match back[i, j]
      case None => return Err(());
      case Some(op) =>
        ops := ops + [op];
        if op == Correct || op == Substitution {
          i, j := i - 1, j - 1;
        } else if op == Deletion {
          i := i - 1;
        } else {
          j := j - 1;
        }
    }
    BestAtOrigin(r[..i], h[..j]);
    assert [] + Reversed(ops) == Reversed(ops);
    return Ok(Reversed(ops));
  }

  // ---------------------------------------------------------------- two rows

  lemma {:induction false} DistSymmetric<T>(r: seq<T>, h: seq<T>)
    ensures Dist(r, h) == Dist(h, r)
    decreases |r| + |h|
  {
    if r != [] && h != [] {
      DistSymmetric(Front(r), Front(h));
      DistSymmetric(Front(r), h);
      DistSymmetric(r, Front(h));
    }
  }

  lemma DistToNothing<T>(r: seq<T>, h: seq<T>)
    ensures forall i | 0 <= i <= |r| :: Dist(r[..i], h[..0]) == i
    ensures forall j | 0 <= j <= |h| :: Dist(r[..0], h[..j]) == j
  {}

  /** The recurrence over prefixes. */
  lemma DistOfTaken<T>(r: seq<T>, h: seq<T>, i: nat, j: nat)
    requires i < |r| && j < |h|
    ensures Dist(r[..i + 1], h[..j + 1])
         == Min(Dist(r[..i], h[..j]) + (if r[i] == h[j] then 0 else 1), Min(Dist(r[..i], h[..j + 1]) + 1, Dist(r[..i + 1], h[..j]) + 1))
  {
    TakeFront(r, i + 1);
    TakeFront(h, j + 1);
  }

  /** `edit_distance` of the hotword summaries: only the previous row of the table is kept. */
  method EditDistance<T(==)>(reference: seq<T>, hypothesis: seq<T>) returns (d: nat)
    ensures d == Dist(reference, hypothesis)
  {
    hide Dist;
    var previous := seq(|hypothesis| + 1, j => j);
    DistToNothing(reference, hypothesis);
    for i := 0 to |reference|
      invariant |previous| == |hypothesis| + 1
      invariant forall b | 0 <= b <= |hypothesis| :: previous[b] == Dist(reference[..i], hypothesis[..b])
    {
      var current := [i + 1];
      for j := 0 to |hypothesis|
        invariant |current| == j + 1
        invariant forall b | 0 <= b <= j :: current[b] == Dist(reference[..i + 1], hypothesis[..b])
      {
        DistOfTaken(reference, hypothesis, i, j);
        current := current + [Min(previous[j + 1] + 1, Min(current[j] + 1, previous[j] + if reference[i] == hypothesis[j] then 0 else 1))];
      }
      previous := current;
    }
    assert reference[..|reference|] == reference && hypothesis[..|hypothesis|] == hypothesis;
    return previous[|hypothesis|];
  }

  /** `_edit_distance` of the transcript comparison puts the longer text first; the distance does not mind. */
  method EditDistanceLongerFirst<T(==)>(left: seq<T>, right: seq<T>) returns (d: nat)
    ensures d == Dist(left, right)
  {
    var a, b := left, right;
    if |a| < |b| { a, b := b, a; }
    d := EditDistance(a, b);
    DistSymmetric(left, right);
  }

  // ---------------------------------------------------------------- counts and runs

  function Count(ops: seq<Edit>, e: Edit): nat {
    if ops == [] then 0 else Count(Front(ops), e) + (if Last(ops) == e then 1 else 0)
  }

  datatype Summary = Summary(substitutions: nat, deletions: nat, insertions: nat,
                             maxDeletionRun: nat, leadingDeletions: nat, trailingDeletions: nat)

  ghost predicate DeletionsAt(ops: seq<Edit>, from: int, to: int) {
    0 <= from <= to <= |ops| && forall i | from <= i < to :: ops[i] == Deletion
  }

  /** The counts add up to the edit distance, and lengths are accounted for. */
  lemma {:induction false} CountsAddUp<T>(ops: seq<Edit>, r: seq<T>, h: seq<T>)
    requires Aligns(ops, r, h)
    ensures Count(ops, Substitution) + Count(ops, Deletion) + Count(ops, Insertion) == Cost(ops)
    ensures Count(ops, Correct) + Count(ops, Substitution) + Count(ops, Deletion) == |r|
    ensures Count(ops, Correct) + Count(ops, Substitution) + Count(ops, Insertion) == |h|
    decreases |ops|
  {
    if ops != [] {
      match Last(ops)
      case Correct => CountsAddUp(Front(ops), Front(r), Front(h));
      case Substitution => CountsAddUp(Front(ops), Front(r), Front(h));
      case Deletion => CountsAddUp(Front(ops), Front(r), h);
      case Insertion => CountsAddUp(Front(ops), r, Front(h));
    }
  }

  method Occurrences(ops: seq<Edit>, e: Edit) returns (n: nat)
    ensures n == Count(ops, e)
  {
    n := 0;
    for i := 0 to |ops|
      invariant n == Count(ops[..i], e)
    {
      TakeFront(ops, i + 1);
      if ops[i] == e { n := n + 1; }
    }
    assert ops[..|ops|] == ops;
  }

  /** `summarize_alignment`: the longest run is attained and never exceeded; the outer runs are as long as can be. */
  method SummarizeAlignment(ops: seq<Edit>) returns (s: Summary)
    ensures s.substitutions == Count(ops, Substitution) && s.deletions == Count(ops, Deletion) && s.insertions == Count(ops, Insertion)
    ensures exists a, b :: DeletionsAt(ops, a, b) && b - a == s.maxDeletionRun
    ensures forall a, b | DeletionsAt(ops, a, b) :: b - a <= s.maxDeletionRun
    ensures DeletionsAt(ops, 0, s.leadingDeletions) && forall b | DeletionsAt(ops, 0, b) :: b <= s.leadingDeletions
    ensures DeletionsAt(ops, |ops| - s.trailingDeletions, |ops|)
    ensures forall a | DeletionsAt(ops, a, |ops|) :: |ops| - a <= s.trailingDeletions
  {
    var substitutions := Occurrences(ops, Substitution);
    var deletions := Occurrences(ops, Deletion);
    var insertions := Occurrences(ops, Insertion);
    var longest, current := 0, 0;
    ghost var at := 0;
    for i := 0 to |ops|
      invariant current <= i && DeletionsAt(ops, i - current, i) && (current < i ==> ops[i - current - 1] != Deletion)
      invariant DeletionsAt(ops, at, at + longest) && current <= longest
      invariant forall a, b | DeletionsAt(ops, a, b) && b <= i :: b - a <= longest
    {
      if ops[i] == Deletion {
        current := current + 1;
        if current > longest { longest, at := current, i + 1 - current; }
      } else {
        current := 0;
      }
    }
    var leading := 0;
    while leading < |ops| && ops[leading] == Deletion
      invariant DeletionsAt(ops, 0, leading)
    {
      leading := leading + 1;
    }
    var trailing := 0;
    while trailing < |ops| && ops[|ops| - 1 - trailing] == Deletion
      invariant 0 <= trailing <= |ops| && DeletionsAt(ops, |ops| - trailing, |ops|)
    {
      trailing := trailing + 1;
    }
    return Summary(substitutions, deletions, insertions, longest, leading, trailing);
  }
}
