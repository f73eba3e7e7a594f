/** The recombination lattice of diagnostics/python/summarize_reazon_approximate_lattice.py: seeds are merged
    wherever they agree on the position and the last two tokens, and every path is enumerated. */
module Lattice {
  import opened Wrappers

  type Token = int

  /** How many tokens were read, and the last two of them (0 where there is none). */
  datatype State = State(count: nat, previous: Token, last: Token)

  datatype Seed = Seed(tokens: seq<Token>, text: string)

  datatype Arc = Arc(token: Token, to: State)

  datatype LatticeError = NotOneToOne | AmbiguousToken

  const ROOT := State(0, 0, 0)

  function Next(state: State, token: Token): State { State(state.count + 1, state.last, token) }

  /** The state a sequence is in after its first `k` tokens. */
  function After(s: seq<Token>, k: nat): (r: State)
    requires k <= |s|
    ensures r.count == k
  {
    if k == 0 then ROOT else Next(After(s, k - 1), s[k - 1])
  }

  /** A state knows how many tokens were read and the last two of them, and no more. */
  lemma {:induction false} AfterIs(s: seq<Token>, k: nat)
    requires k <= |s|
    ensures After(s, k).last == (if k >= 1 then s[k - 1] else 0) && After(s, k).previous == if k >= 2 then s[k - 2] else 0
  {
    if k > 0 { AfterIs(s, k - 1); }
  }

  // ---------------------------------------------------------------- what the lattice contains

  /** Among its first `k` tokens the seed reads `token` in `state`. */
  ghost predicate Takes(seed: Seed, k: nat, state: State, token: Token) {
    exists j :: 0 <= j < k <= |seed.tokens| && After(seed.tokens, j) == state && seed.tokens[j] == token
  }

  ghost predicate Visits(seed: Seed, k: nat, state: State) {
    exists j :: 0 <= j <= k <= |seed.tokens| && After(seed.tokens, j) == state
  }

  /** One of the first `n` seeds takes the transition; likewise for visited states and end states. */
  ghost predicate TakenBy(seeds: seq<Seed>, n: nat, state: State, token: Token) {
    exists i :: 0 <= i < n <= |seeds| && Takes(seeds[i], |seeds[i].tokens|, state, token)
  }

  ghost predicate VisitedBy(seeds: seq<Seed>, n: nat, state: State) {
    exists i :: 0 <= i < n <= |seeds| && Visits(seeds[i], |seeds[i].tokens|, state)
  }

  function End(s: seq<Token>): State { After(s, |s|) }

  ghost predicate EndsBy(seeds: seq<Seed>, n: nat, state: State) {
    exists i :: 0 <= i < n <= |seeds| && End(seeds[i].tokens) == state
  }

  ghost predicate Taken(seeds: seq<Seed>, state: State, token: Token) { TakenBy(seeds, |seeds|, state, token) }

  /** Every transition of `s` is taken by some seed. */
  ghost predicate Walk(seeds: seq<Seed>, s: seq<Token>) {
    forall k | 0 <= k < |s| :: Taken(seeds, After(s, k), s[k])
  }

  ghost predicate Accepted(seeds: seq<Seed>, s: seq<Token>) { Walk(seeds, s) && EndsBy(seeds, |seeds|, End(s)) }

  lemma {:induction false} AfterPrefix(s: seq<Token>, t: seq<Token>, k: nat)
    requires k <= |s| <= |t| && t[..|s|] == s
    ensures After(s, k) == After(t, k)
  {
    if k > 0 {
      AfterPrefix(s, t, k - 1);
      assert t[..|s|][k - 1] == t[k - 1];
    }
  }

  lemma AfterSnoc(p: seq<Token>, token: Token)
    ensures End(p + [token]) == Next(End(p), token) && After(p + [token], |p|) == End(p)
  {
    AfterPrefix(p, p + [token], |p|);
  }

  lemma WalkSnoc(seeds: seq<Seed>, p: seq<Token>, token: Token)
    ensures Walk(seeds, p + [token]) <==> Walk(seeds, p) && Taken(seeds, End(p), token)
  {
    var s := p + [token];
    AfterSnoc(p, token);
    forall k | 0 <= k < |p| ensures After(s, k) == After(p, k) && s[k] == p[k] { AfterPrefix(p, s, k); }
    if Walk(seeds, s) {
      assert Taken(seeds, After(s, |p|), s[|p|]);
      forall k | 0 <= k < |p| ensures Taken(seeds, After(p, k), p[k]) { assert Taken(seeds, After(s, k), s[k]); }
    }
    if Walk(seeds, p) && Taken(seeds, End(p), token) {
      forall k | 0 <= k < |s| ensures Taken(seeds, After(s, k), s[k]) {
        if k < |p| { assert Taken(seeds, After(p, k), p[k]); }
      }
    }
  }

  /** Every seed is one of the enumerated sequences. */
  lemma SeedsAreAccepted(seeds: seq<Seed>, i: nat)
    requires i < |seeds|
    ensures Accepted(seeds, seeds[i].tokens)
  {
    var s := seeds[i].tokens;
    forall k | 0 <= k < |s| ensures Taken(seeds, After(s, k), s[k]) { assert Takes(seeds[i], |s|, After(s, k), s[k]); }
  }

  // ---------------------------------------------------------------- collecting the seeds

  type Arcs = map<State, set<Arc>>

  function ArcsOf(arcs: Arcs, state: State): set<Arc> { if state in arcs then arcs[state] else {} }

  ghost predicate ArcsAre(arcs: Arcs, seeds: seq<Seed>, n: nat) {
    forall state, arc :: arc in ArcsOf(arcs, state) <==> TakenBy(seeds, n, state, arc.token) && arc.to == Next(state, arc.token)
  }

  ghost predicate StatesAre(states: set<State>, seeds: seq<Seed>, n: nat) {
    forall state :: state in states <==> state == ROOT || VisitedBy(seeds, n, state)
  }

  ghost predicate TerminalsAre(terminals: set<State>, seeds: seq<Seed>, n: nat) {
    forall state :: state in terminals <==> EndsBy(seeds, n, state)
  }

  /** The characters agree with every seed read so far, position by position. */
  ghost predicate Spells(text: map<Token, char>, seed: Seed) {
    |seed.tokens| == |seed.text| && forall k | 0 <= k < |seed.tokens| :: seed.tokens[k] in text && text[seed.tokens[k]] == seed.text[k]
  }

  /** `more` maps every token of `text`, and to the same character. */
  ghost predicate Within(text: map<Token, char>, more: map<Token, char>) {
    forall t | t in text :: t in more && more[t] == text[t]
  }

  /** Some assignment of characters to tokens reads every seed. */
  ghost predicate Readable(seeds: seq<Seed>) {
    exists text :: SpellsAll(text, seeds)
  }

  ghost predicate SpellsAll(text: map<Token, char>, seeds: seq<Seed>) {
    forall i | 0 <= i < |seeds| :: Spells(text, seeds[i])
  }

  method AddText(text0: map<Token, char>, seed: Seed) returns (r: Result<map<Token, char>, LatticeError>)
    requires |seed.tokens| == |seed.text|
    ensures r.Ok? ==> Spells(r.value, seed) && Within(text0, r.value)
    ensures r.Err? ==> r.error == AmbiguousToken
    ensures forall more | Spells(more, seed) && Within(text0, more) :: r.Ok? && Within(r.value, more)
  {
    var text := text0;
    for k := 0 to |seed.tokens|
      invariant Within(text0, text)
      invariant forall j | 0 <= j < k :: seed.tokens[j] in text && text[seed.tokens[j]] == seed.text[j]
      invariant forall more | Spells(more, seed) && Within(text0, more) :: Within(text, more)
    {
      var token := seed.tokens[k];
      if token !in text {
        text := text[token := seed.text[k]];
      } else if text[token] != seed.text[k] {
        return Err(AmbiguousToken);
      }
    }
    return Ok(text);
  }

  ghost predicate ArcsAdded(arcs: Arcs, arcs0: Arcs, seed: Seed, k: nat) {
    forall state, arc :: arc in ArcsOf(arcs, state) <==>
      arc in ArcsOf(arcs0, state) || (Takes(seed, k, state, arc.token) && arc.to == Next(state, arc.token))
  }

  ghost predicate StatesAdded(states: set<State>, states0: set<State>, seed: Seed, k: nat) {
    forall state :: state in states <==> state in states0 || Visits(seed, k, state)
  }

  lemma ArcStep(arcs: Arcs, arcs0: Arcs, seed: Seed, k: nat)
    requires k < |seed.tokens| && ArcsAdded(arcs, arcs0, seed, k)
    ensures var from := After(seed.tokens, k);
      ArcsAdded(arcs[from := ArcsOf(arcs, from) + {Arc(seed.tokens[k], Next(from, seed.tokens[k]))}], arcs0, seed, k + 1)
  {
    hide Takes;
    var from, token := After(seed.tokens, k), seed.tokens[k];
    var added := Arc(token, Next(from, token));
    var arcs' := arcs[from := ArcsOf(arcs, from) + {added}];
    forall state, arc ensures arc in ArcsOf(arcs', state) <==>
      arc in ArcsOf(arcs0, state) || (Takes(seed, k + 1, state, arc.token) && arc.to == Next(state, arc.token))
    {
      TakesStep(seed, k, state, arc.token);
      assert arc in ArcsOf(arcs', state) <==> arc in ArcsOf(arcs, state) || (state == from && arc == added);
    }
  }

  lemma TakesStep(seed: Seed, k: nat, state: State, token: Token)
    requires k < |seed.tokens|
    ensures Takes(seed, k + 1, state, token) <==>
            Takes(seed, k, state, token) || (state == After(seed.tokens, k) && token == seed.tokens[k])
  {
    if Takes(seed, k + 1, state, token) {
      var j :| 0 <= j < k + 1 && After(seed.tokens, j) == state && seed.tokens[j] == token;
    }
  }

  lemma StateStep(states: set<State>, states0: set<State>, seed: Seed, k: nat)
    requires k < |seed.tokens| && StatesAdded(states, states0, seed, k)
    ensures StatesAdded(states + {After(seed.tokens, k + 1)}, states0, seed, k + 1)
  {
    forall state ensures Visits(seed, k + 1, state) <==> Visits(seed, k, state) || state == After(seed.tokens, k + 1) {}
  }

  method AddPath(seed: Seed, arcs0: Arcs, states0: set<State>) returns (arcs: Arcs, states: set<State>, end: State)
    requires ROOT in states0
    ensures ArcsAdded(arcs, arcs0, seed, |seed.tokens|) && StatesAdded(states, states0, seed, |seed.tokens|)
    ensures end == End(seed.tokens)
  {
    arcs, states, end := arcs0, states0, ROOT;
    for k := 0 to |seed.tokens|
      invariant end == After(seed.tokens, k)
      invariant ArcsAdded(arcs, arcs0, seed, k) && StatesAdded(states, states0, seed, k)
    {
      ArcStep(arcs, arcs0, seed, k);
      StateStep(states, states0, seed, k);
      var destination := Next(end, seed.tokens[k]);
      arcs := arcs[end := ArcsOf(arcs, end) + {Arc(seed.tokens[k], destination)}];
      states := states + {destination};
      end := destination;
    }
  }

  lemma SpellsMore(text: map<Token, char>, more: map<Token, char>, seed: Seed)
    requires Spells(text, seed) && Within(text, more)
    ensures Spells(more, seed)
  {
    forall k | 0 <= k < |seed.tokens| ensures seed.tokens[k] in more && more[seed.tokens[k]] == seed.text[k] {
      var t := seed.tokens[k];
      assert t in text && text[t] == seed.text[k];
      assert t in more && more[t] == text[t];
    }
  }

  /** The text reads the first `i` seeds, and every assignment that reads all seeds has to extend it. */
  ghost predicate ReadSoFar(text: map<Token, char>, seeds: seq<Seed>, i: nat) {
    && (forall j | 0 <= j < i && j < |seeds| :: Spells(text, seeds[j]))
    && (forall all | SpellsAll(all, seeds) :: Within(text, all))
  }

  lemma ReadOneMore(text: map<Token, char>, more: map<Token, char>, seeds: seq<Seed>, i: nat)
    requires i < |seeds| && ReadSoFar(text, seeds, i) && Within(text, more) && Spells(more, seeds[i])
    requires forall all | Spells(all, seeds[i]) && Within(text, all) :: Within(more, all)
    ensures ReadSoFar(more, seeds, i + 1)
  {
    hide Spells, Within;
    forall j | 0 <= j < i ensures Spells(more, seeds[j]) { SpellsMore(text, more, seeds[j]); }
  }

  lemma CannotRead(text: map<Token, char>, seeds: seq<Seed>, i: nat)
    requires i < |seeds| && ReadSoFar(text, seeds, i)
    requires forall all | Within(text, all) :: !Spells(all, seeds[i])
    ensures !Readable(seeds)
  {
    hide Spells, Within;
    forall all ensures !SpellsAll(all, seeds) {}
  }

  method Collect(seeds: seq<Seed>) returns (r: Result<(Arcs, set<State>, set<State>, map<Token, char>), LatticeError>)
    ensures r.Ok? ==> ArcsAre(r.value.0, seeds, |seeds|) && StatesAre(r.value.1, seeds, |seeds|) && TerminalsAre(r.value.2, seeds, |seeds|)
    ensures r.Ok? ==> SpellsAll(r.value.3, seeds)
    ensures r.Ok? <==> Readable(seeds)
  {
    hide ReadSoFar, Spells, Within, SpellsAll, ArcsAdded, StatesAdded, Readable;
    var arcs: Arcs, states, terminals, text := map[], {ROOT}, {}, map[];
    NothingRead(seeds);
    for i := 0 to |seeds|
      invariant ArcsAre(arcs, seeds, i) && StatesAre(states, seeds, i) && TerminalsAre(terminals, seeds, i)
      invariant ReadSoFar(text, seeds, i)
    {
      if |seeds[i].tokens| != |seeds[i].text| {
        WrongLength(seeds[i]);
        CannotRead(text, seeds, i);
        return Err(NotOneToOne);
      }
      var added := AddText(text, seeds[i]);
      if added.Err? {
        CannotRead(text, seeds, i);
        return Err(added.error);
      }
      ReadOneMore(text, added.value, seeds, i);
      text := added.value;
      var arcs', states', end := AddPath(seeds[i], arcs, states);
      OneMore(seeds, i, arcs, arcs', states, states', terminals, end);
      arcs, states, terminals := arcs', states', terminals + {end};
    }
    AllRead(text, seeds);
    return Ok((arcs, states, terminals, text));
  }

  lemma NothingRead(seeds: seq<Seed>)
    ensures ReadSoFar(map[], seeds, 0)
  {}

  lemma WrongLength(seed: Seed)
    requires |seed.tokens| != |seed.text|
    ensures forall all :: !Spells(all, seed)
  {}

  lemma AllRead(text: map<Token, char>, seeds: seq<Seed>)
    requires ReadSoFar(text, seeds, |seeds|)
    ensures SpellsAll(text, seeds) && Readable(seeds)
  {
    assert SpellsAll(text, seeds);
  }

  lemma OneMore(seeds: seq<Seed>, i: nat, arcs: Arcs, arcs': Arcs, states: set<State>, states': set<State>, terminals: set<State>, end: State)
    requires i < |seeds| && ArcsAre(arcs, seeds, i) && StatesAre(states, seeds, i) && TerminalsAre(terminals, seeds, i)
    requires ArcsAdded(arcs', arcs, seeds[i], |seeds[i].tokens|) && StatesAdded(states', states, seeds[i], |seeds[i].tokens|)
    requires end == End(seeds[i].tokens)
    ensures ArcsAre(arcs', seeds, i + 1) && StatesAre(states', seeds, i + 1) && TerminalsAre(terminals + {end}, seeds, i + 1)
  {
    hide Takes, Visits, End;
  }

  // ---------------------------------------------------------------- enumerating the paths

  type Paths = map<State, set<seq<Token>>>

  function PathsOf(paths: Paths, state: State): set<seq<Token>> { if state in paths then paths[state] else {} }

  predicate LexLe(a: State, b: State) {
    a.count < b.count || (a.count == b.count && (a.previous < b.previous || (a.previous == b.previous && a.last <= b.last)))
  }

  lemma {:induction false} HasLeast(states: set<State>)
    requires states != {}
    ensures exists s :: s in states && forall t | t in states :: LexLe(s, t)
    decreases |states|
  {
    var s :| s in states;
    var rest := states - {s};
    if rest != {} {
      HasLeast(rest);
      var m :| m in rest && forall t | t in rest :: LexLe(m, t);
      var least := if LexLe(s, m) then s else m;
      forall t | t in states ensures LexLe(least, t) {
        if t != s { assert t in rest; }
      }
      assert least in states;
    } else {
      assert s in states && forall t | t in states :: LexLe(s, t);
    }
  }

  /** The sequences known for each state once the states in `done` have been expanded. */
  ghost predicate Explored(paths: Paths, seeds: seq<Seed>, done: set<State>) {
    forall state, s :: s in PathsOf(paths, state) <==>
      Walk(seeds, s) && End(s) == state && (s == [] || After(s, |s| - 1) in done)
  }

  /** `s` is `p` followed by the token of an arc to `at`, for a sequence `p` known at `state`. */
  ghost predicate Extends(paths: Paths, state: State, arcs: set<Arc>, at: State, s: seq<Token>) {
    exists p, arc :: p in PathsOf(paths, state) && arc in arcs && arc.to == at && s == p + [arc.token]
  }

  lemma ExtendsOneMore(paths: Paths, state: State, arcs: set<Arc>, arc: Arc, at: State, s: seq<Token>)
    ensures Extends(paths, state, arcs + {arc}, at, s) <==>
            Extends(paths, state, arcs, at, s) || (at == arc.to && exists p :: p in PathsOf(paths, state) && s == p + [arc.token])
  {
    if at == arc.to && exists p :: p in PathsOf(paths, state) && s == p + [arc.token] {
      var p :| p in PathsOf(paths, state) && s == p + [arc.token];
      assert arc in arcs + {arc} && arc.to == at && s == p + [arc.token];
    }
  }

  method Expand(paths0: Paths, state: State, arcs: set<Arc>) returns (paths: Paths)
    requires forall arc | arc in arcs :: arc.to.count == state.count + 1
    ensures forall at, s :: s in PathsOf(paths, at) <==> s in PathsOf(paths0, at) || Extends(paths0, state, arcs, at, s)
  {
    paths := paths0;
    var todo := arcs;
    while todo != {}
      invariant todo <= arcs && PathsOf(paths, state) == PathsOf(paths0, state)
      invariant forall at, s :: s in PathsOf(paths, at) <==> s in PathsOf(paths0, at) || Extends(paths0, state, arcs - todo, at, s)
    {
      var arc :| arc in todo;
      var longer := set p | p in PathsOf(paths, state) :: p + [arc.token];
      ghost var before := paths;
      paths := paths[arc.to := PathsOf(paths, arc.to) + longer];
      forall at, s ensures s in PathsOf(paths, at) <==> s in PathsOf(paths0, at) || Extends(paths0, state, arcs - todo + {arc}, at, s) {
        assert s in PathsOf(paths, at) <==> s in PathsOf(before, at) || (at == arc.to && s in longer);
        ExtendsOneMore(paths0, state, arcs - todo, arc, at, s);
      }
      assert arcs - (todo - {arc}) == arcs - todo + {arc};
      todo := todo - {arc};
    }
  }

  lemma ExploreMore(seeds: seq<Seed>, states: set<State>, arcs: Arcs, done: set<State>, state: State, paths: Paths, paths': Paths)
    requires ArcsAre(arcs, seeds, |seeds|) && StatesAre(states, seeds, |seeds|) && Explored(paths, seeds, done) && done <= states
    requires state in states && state !in done && forall t | t in states - done :: LexLe(state, t)
    requires forall at, s :: s in PathsOf(paths', at) <==> s in PathsOf(paths, at) || Extends(paths, state, ArcsOf(arcs, state), at, s)
    ensures Explored(paths', seeds, done + {state})
  {
    forall at, s ensures s in PathsOf(paths', at) <==>
      Walk(seeds, s) && End(s) == at && (s == [] || After(s, |s| - 1) in done + {state})
    {
      ExploreOne(seeds, states, arcs, done, state, paths, paths', at, s);
    }
  }

  /** A state on a walk was visited by a seed, so it is expanded before any state behind it. */
  lemma OnWalkVisited(seeds: seq<Seed>, s: seq<Token>, k: nat)
    requires Walk(seeds, s) && k <= |s|
    ensures After(s, k) == ROOT || VisitedBy(seeds, |seeds|, After(s, k))
  {
    if k > 0 {
      assert Taken(seeds, After(s, k - 1), s[k - 1]);
      var i :| 0 <= i < |seeds| && Takes(seeds[i], |seeds[i].tokens|, After(s, k - 1), s[k - 1]);
      var j :| 0 <= j < |seeds[i].tokens| && After(seeds[i].tokens, j) == After(s, k - 1) && seeds[i].tokens[j] == s[k - 1];
      assert After(seeds[i].tokens, j + 1) == After(s, k);
    }
  }

  lemma ExploreOne(seeds: seq<Seed>, states: set<State>, arcs: Arcs, done: set<State>, state: State, paths: Paths, paths': Paths, at: State, s: seq<Token>)
    requires ArcsAre(arcs, seeds, |seeds|) && StatesAre(states, seeds, |seeds|) && Explored(paths, seeds, done) && done <= states
    requires state in states && state !in done && forall t | t in states - done :: LexLe(state, t)
    requires s in PathsOf(paths', at) <==> s in PathsOf(paths, at) || Extends(paths, state, ArcsOf(arcs, state), at, s)
    ensures s in PathsOf(paths', at) <==> Walk(seeds, s) && End(s) == at && (s == [] || After(s, |s| - 1) in done + {state})
  {
    hide PathsOf, ArcsOf, TakenBy, VisitedBy, Walk, After;
    if Extends(paths, state, ArcsOf(arcs, state), at, s) {
      var p, arc :| p in PathsOf(paths, state) && arc in ArcsOf(arcs, state) && arc.to == at && s == p + [arc.token];
      WalkSnoc(seeds, p, arc.token);
      AfterSnoc(p, arc.token);
    }
    if s != [] && Walk(seeds, s) && End(s) == at && After(s, |s| - 1) == state {
      ExtendsBack(seeds, states, arcs, done, state, paths, at, s);
    }
  }

  lemma ExtendsBack(seeds: seq<Seed>, states: set<State>, arcs: Arcs, done: set<State>, state: State, paths: Paths, at: State, s: seq<Token>)
    requires ArcsAre(arcs, seeds, |seeds|) && StatesAre(states, seeds, |seeds|) && Explored(paths, seeds, done)
    requires forall t | t in states - done :: LexLe(state, t)
    requires s != [] && Walk(seeds, s) && End(s) == at && After(s, |s| - 1) == state
    ensures Extends(paths, state, ArcsOf(arcs, state), at, s)
  {
    hide PathsOf, ArcsOf, TakenBy, VisitedBy, Walk, After, LexLe, StatesAre, ArcsAre, Explored;
    var p, token := s[..|s| - 1], s[|s| - 1];
    assert s == p + [token];
    WalkSnoc(seeds, p, token);
    AfterSnoc(p, token);
    if p != [] { EarlierIsDone(seeds, states, done, state, p); }
    assert End(p) == state && at == Next(state, token);
    PathKnown(paths, seeds, done, state, p);
    ArcKnown(arcs, seeds, state, token);
    assert s == p + [Arc(token, at).token];
  }

  lemma PathKnown(paths: Paths, seeds: seq<Seed>, done: set<State>, state: State, p: seq<Token>)
    requires Explored(paths, seeds, done) && Walk(seeds, p) && End(p) == state
    requires p != [] ==> After(p, |p| - 1) in done
    ensures p in PathsOf(paths, state)
  {
    hide PathsOf, Walk, After;
  }

  lemma ArcKnown(arcs: Arcs, seeds: seq<Seed>, state: State, token: Token)
    requires ArcsAre(arcs, seeds, |seeds|) && Taken(seeds, state, token)
    ensures Arc(token, Next(state, token)) in ArcsOf(arcs, state)
  {
    hide ArcsOf, TakenBy;
    assert Arc(token, Next(state, token)).token == token;
  }

  lemma EarlierIsDone(seeds: seq<Seed>, states: set<State>, done: set<State>, state: State, p: seq<Token>)
    requires StatesAre(states, seeds, |seeds|) && Walk(seeds, p) && p != [] && End(p) == state
    requires forall t | t in states - done :: LexLe(state, t)
    ensures After(p, |p| - 1) in done
  {
    OnWalkVisited(seeds, p, |p| - 1);
    hide VisitedBy, Walk, After;
    var before := After(p, |p| - 1);
    assert before in states && before.count == |p| - 1 && state.count == |p|;
    assert !LexLe(state, before);
  }

  /** `structural_lattice_candidates`: exactly the sequences whose every transition is taken by some seed and
      whose end state is the end state of some seed; it fails exactly when no assignment of characters to tokens
      reads all seeds. */
  method StructuralCandidates(seeds: seq<Seed>) returns (r: Result<(set<seq<Token>>, map<Token, char>), LatticeError>)
    ensures r.Ok? ==> forall s :: s in r.value.0 <==> Accepted(seeds, s)
    ensures r.Ok? ==> SpellsAll(r.value.1, seeds)
    ensures r.Ok? <==> Readable(seeds)
  {
    var collected := Collect(seeds);
    if collected.Err? { return Err(collected.error); }
    var (arcs, states, terminals, text) := collected.value;
    var paths: Paths := map[ROOT := {[]}];
    ghost var done: set<State> := {};
    var todo := states;
    assert Explored(paths, seeds, done) by { ExploredAtStart(seeds); }
    while todo != {}
      invariant todo <= states && done == states - todo && Explored(paths, seeds, done)
      decreases |todo|
    {
      HasLeast(todo);
      var state :| state in todo && forall t | t in todo :: LexLe(state, t);
      assert forall arc | arc in ArcsOf(arcs, state) :: arc.to.count == state.count + 1;
      var paths' := Expand(paths, state, ArcsOf(arcs, state));
      ExploreMore(seeds, states, arcs, done, state, paths, paths');
      paths, todo, done := paths', todo - {state}, done + {state};
    }
    var sequences := set t, s | t in terminals && s in PathsOf(paths, t) :: s;
    forall s ensures s in sequences <==> Accepted(seeds, s) { Collected(seeds, states, terminals, paths, s); }
    return Ok((sequences, text));
  }

  lemma ExploredAtStart(seeds: seq<Seed>)
    ensures Explored(map[ROOT := {[]}], seeds, {})
  {}

  lemma Collected(seeds: seq<Seed>, states: set<State>, terminals: set<State>, paths: Paths, s: seq<Token>)
    requires StatesAre(states, seeds, |seeds|) && TerminalsAre(terminals, seeds, |seeds|) && Explored(paths, seeds, states)
    ensures (exists t :: t in terminals && s in PathsOf(paths, t)) <==> Accepted(seeds, s)
  {
    hide PathsOf, VisitedBy, EndsBy, Walk, After;
    if Accepted(seeds, s) {
      if s != [] { OnWalkVisited(seeds, s, |s| - 1); }
      assert End(s) in terminals && s in PathsOf(paths, End(s));
    }
  }
}
