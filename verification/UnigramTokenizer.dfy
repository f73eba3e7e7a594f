/**
 * The Unigram tokenizer of the static embedding model: a trie over the vocabulary, the best segmentation by
 * dynamic programming over text positions, and the backtrace that reads it off.
 *
 * Scores are reals; a position no segmentation reaches yet has no score, where the program has negative infinity.
 */
module UnigramTokenizer {
  import opened Wrappers
  import opened Sequences

  const SPACE := '\U{2581}'

  datatype Entry = Entry(piece: string, score: real)

  datatype Token = Token(id: nat, score: real)

  datatype Edge = Edge(end: nat, id: nat, score: real)

  datatype Back = Back(start: nat, id: nat, covered: nat)

  datatype Piece = Piece(id: nat, covered: nat)

  datatype Lost = LostPosition(position: nat)

  datatype Model = Model(vocab: seq<Entry>, unknown: nat)

  // ---------- The trie ----------

  datatype Trie = Node(children: map<char, Trie>, tokens: seq<Token>)

  const EMPTY := Node(map[], [])

  function Inserted(t: Trie, piece: string, token: Token): Trie
    decreases piece
  {
    if piece == [] then t.(tokens := t.tokens + [token]) else
    var child := if piece[0] in t.children then t.children[piece[0]] else EMPTY;
    t.(children := t.children[piece[0] := Inserted(child, piece[1..], token)])
  }

  /** The tokens at the end of the walk along `s`, none if the walk falls off the trie. */
  function Lookup(t: Trie, s: string): seq<Token>
    decreases s
  {
    if s == [] then t.tokens
    else if s[0] in t.children then Lookup(t.children[s[0]], s[1..])
    else []
  }

  lemma {:induction false} LookupInserted(t: Trie, piece: string, token: Token, s: string)
    ensures Lookup(Inserted(t, piece, token), s) == Lookup(t, s) + if s == piece then [token] else []
    decreases piece
  {
    if piece != [] && s != [] && s[0] == piece[0] {
      var child := if piece[0] in t.children then t.children[piece[0]] else EMPTY;
      LookupInserted(child, piece[1..], token, s[1..]);
      assert s == [s[0]] + s[1..] && piece == [piece[0]] + piece[1..];
      if s[0] !in t.children { LookupEmpty(s[1..]); }
    }
  }

  lemma LookupEmpty(s: string)
    ensures Lookup(EMPTY, s) == []
  {}

  /** Vocabulary entry `token.id` is this piece: past the unknown id and not empty. */
  predicate IsEntry(m: Model, count: nat, piece: string, token: Token) {
    m.unknown < token.id < count && count <= |m.vocab| && piece != [] && m.vocab[token.id] == Entry(piece, token.score)
  }

  ghost predicate Represents(t: Trie, m: Model, count: nat) {
    forall s, token :: token in Lookup(t, s) <==> IsEntry(m, count, s, token)
  }

  lemma RepresentsNext(t: Trie, t': Trie, m: Model, i: nat)
    requires i < |m.vocab| && Represents(t, m, i)
    requires t' == if i <= m.unknown || m.vocab[i].piece == [] then t
                   else Inserted(t, m.vocab[i].piece, Token(i, m.vocab[i].score))
    ensures Represents(t', m, i + 1)
  {
    var entry := m.vocab[i];
    forall s, token ensures token in Lookup(t', s) <==> IsEntry(m, i + 1, s, token) {
      LookupInserted(t, entry.piece, Token(i, entry.score), s);
      assert token in Lookup(t, s) <==> IsEntry(m, i, s, token);
    }
  }

  // ---------- Segmentations ----------

  /** A vocabulary entry that covers the text from `start` to `e.end`. */
  predicate IsMatch(m: Model, text: string, start: nat, e: Edge) {
    start < e.end <= |text| && IsEntry(m, |m.vocab|, text[start..e.end], Token(e.id, e.score))
  }

  ghost predicate HasMatch(m: Model, text: string, start: nat) {
    exists e :: IsMatch(m, text, start, e)
  }

  function LeastScore(vocab: seq<Entry>): real
    requires vocab != []
  {
    var last := vocab[|vocab| - 1].score;
    if |vocab| == 1 then last else
    var front := LeastScore(vocab[..|vocab| - 1]);
    if last < front then last else front
  }

  function UnknownScore(m: Model): real
    requires m.vocab != []
  {
    LeastScore(m.vocab) - 10.0
  }

  /** The edges of a segmentation: vocabulary matches, and one unknown character only where nothing matches. */
  ghost predicate IsEdge(m: Model, text: string, start: nat, e: Edge)
    requires m.vocab != []
  {
    start < |text| &&
    if HasMatch(m, text, start) then IsMatch(m, text, start, e) else e == Edge(start + 1, m.unknown, UnknownScore(m))
  }

  /** Where nothing matches, one unknown character is taken, for 10 less than the worst score of the whole vocabulary. */
  lemma UnknownCosts(m: Model, text: string, start: nat, e: Edge)
    requires m.vocab != [] && IsEdge(m, text, start, e) && forall other :: !IsMatch(m, text, start, other)
    ensures e.end == start + 1 && e.id == m.unknown
    ensures forall i | 0 <= i < |m.vocab| :: e.score + 10.0 <= m.vocab[i].score
    ensures exists i :: 0 <= i < |m.vocab| && m.vocab[i].score == e.score + 10.0
  {
    LeastIsLeast(m.vocab);
  }

  lemma {:induction false} LeastIsLeast(vocab: seq<Entry>)
    requires vocab != []
    ensures forall i | 0 <= i < |vocab| :: LeastScore(vocab) <= vocab[i].score
    ensures exists i :: 0 <= i < |vocab| && vocab[i].score == LeastScore(vocab)
  {
    var n := |vocab| - 1;
    if n == 0 {
      assert vocab[0].score == LeastScore(vocab);
    } else {
      LeastIsLeast(vocab[..n]);
      var i :| 0 <= i < n && vocab[..n][i].score == LeastScore(vocab[..n]);
      assert vocab[i].score == LeastScore(vocab[..n]);
      assert vocab[n].score == LeastScore(vocab) || vocab[i].score == LeastScore(vocab);
      assert forall j | 0 <= j < n :: vocab[j] == vocab[..n][j];
    }
  }

  datatype Hop = Hop(start: nat, edge: Edge)

  /** The hops lead from position 0 to position `end`, each where the one before it stopped. */
  ghost predicate IsPath(m: Model, text: string, path: seq<Hop>, end: nat)
    requires m.vocab != []
    decreases path
  {
    if path == [] then end == 0 else
    var last := path[|path| - 1];
    last.edge.end == end && IsEdge(m, text, last.start, last.edge) && IsPath(m, text, path[..|path| - 1], last.start)
  }

  function Score(path: seq<Hop>): real {
    if path == [] then 0.0 else Score(path[..|path| - 1]) + path[|path| - 1].edge.score
  }

  function Visible(s: string): nat {
    if s == [] then 0 else Visible(s[..|s| - 1]) + if s[|s| - 1] == SPACE then 0 else 1
  }

  /** The places of the visible characters. */
  lemma {:induction false} VisibleCounts(s: string)
    ensures Visible(s) == |set i | 0 <= i < |s| && s[i] != '\U{2581}'|
  {
    var places := set i | 0 <= i < |s| && s[i] != '\U{2581}';
    if s != [] {
      var n := |s| - 1;
      VisibleCounts(s[..n]);
      var before := set i | 0 <= i < n && s[..n][i] != '\U{2581}';
      assert places == before + if s[n] != '\U{2581}' then {n} else {};
    }
  }

  /** The pieces a path stands for, with the number of visible characters each covers. */
  function Pieces(text: string, path: seq<Hop>): seq<Piece> {
    if path == [] then [] else
    var last := path[|path| - 1];
    var covered := if last.start <= last.edge.end <= |text| then Visible(text[last.start..last.edge.end]) else 0;
    Pieces(text, path[..|path| - 1]) + [Piece(last.edge.id, covered)]
  }

  ghost predicate IsBest(m: Model, text: string, path: seq<Hop>)
    requires m.vocab != []
  {
    IsPath(m, text, path, |text|) && forall other | IsPath(m, text, other, |text|) :: Score(other) <= Score(path)
  }

  // ---------- The tables ----------

  type Scores = seq<Option<real>>
  type Backs = seq<Option<Back>>

  /** The edge from `start` to `end` that a backpointer stands for. */
  predicate Records(b: Back, e: Edge, text: string, end: nat) {
    b.id == e.id && e.end == end && b.start <= end <= |text| && b.covered == Visible(text[b.start..end])
  }

  /** A scored position is the start, or one edge behind a scored position that was already relaxed. */
  ghost predicate Reached(m: Model, text: string, best: Scores, back: Backs, done: nat, q: nat)
    requires m.vocab != [] && |best| == |back| == |text| + 1 && q <= |text|
  {
    if q == 0 then best[0] == Some(0.0) else
    best[q].Some? ==>
      && back[q].Some? && back[q].value.start < q && back[q].value.start < done
      && best[back[q].value.start].Some?
      && exists e :: Supports(m, text, best, back, q, e)
  }

  ghost predicate Supports(m: Model, text: string, best: Scores, back: Backs, q: nat, e: Edge)
    requires m.vocab != [] && |best| == |back| == |text| + 1 && q <= |text|
  {
    && best[q].Some? && back[q].Some? && back[q].value.start < q && best[back[q].value.start].Some?
    && IsEdge(m, text, back[q].value.start, e) && Records(back[q].value, e, text, q)
    && best[q].value == best[back[q].value.start].value + e.score
  }

  ghost predicate AllReached(m: Model, text: string, best: Scores, back: Backs, done: nat)
    requires m.vocab != [] && |best| == |back| == |text| + 1
  {
    forall q | 0 <= q <= |text| :: Reached(m, text, best, back, done, q)
  }

  /** No edge out of `p` could still improve the score behind it. */
  ghost predicate Relaxed(m: Model, text: string, best: Scores, p: nat)
    requires m.vocab != [] && |best| == |text| + 1 && p < |text|
  {
    best[p].Some? ==> forall e | IsEdge(m, text, p, e) :: RelaxedEdge(best, p, e)
  }

  predicate RelaxedEdge(best: Scores, p: nat, e: Edge)
    requires p < |best| && best[p].Some?
  {
    e.end < |best| && best[e.end].Some? && best[e.end].value >= best[p].value + e.score
  }

  ghost predicate Tables(m: Model, text: string, best: Scores, back: Backs, done: nat)
    requires m.vocab != []
  {
    && |best| == |back| == |text| + 1 && done <= |text|
    && AllReached(m, text, best, back, done)
    && (forall p | 0 <= p < done :: Relaxed(m, text, best, p))
  }

  /** With finished tables no path scores more than the table says. */
  lemma {:induction false} BestBounds(m: Model, text: string, best: Scores, back: Backs, path: seq<Hop>, end: nat)
    requires m.vocab != [] && Tables(m, text, best, back, |text|)
    requires IsPath(m, text, path, end) && end <= |text|
    ensures best[end].Some? && Score(path) <= best[end].value
    decreases path
  {
    hide IsEdge;
    if path == [] {
      assert Reached(m, text, best, back, |text|, 0);
    } else {
      var last := path[|path| - 1];
      EdgeEnds(m, text, last.start, last.edge);
      BestBounds(m, text, best, back, path[..|path| - 1], last.start);
      assert Relaxed(m, text, best, last.start);
      assert RelaxedEdge(best, last.start, last.edge);
    }
  }

  lemma EdgeEnds(m: Model, text: string, start: nat, e: Edge)
    requires m.vocab != [] && IsEdge(m, text, start, e)
    ensures start < e.end <= |text|
  {}

  // ---------- Relaxing one edge ----------

  /** While position `start` is relaxed: all scores are accounted for, and everything before is settled. */
  ghost predicate Open(m: Model, text: string, best: Scores, back: Backs, start: nat)
    requires m.vocab != []
  {
    && |best| == |back| == |text| + 1 && start < |text| && best[start].Some?
    && AllReached(m, text, best, back, start + 1)
    && (forall p | 0 <= p < start :: Relaxed(m, text, best, p))
  }

  predicate NoWorse(best: Scores, best': Scores) {
    |best| == |best'| && forall q | 0 <= q < |best| && best[q].Some? :: best'[q].Some? && best'[q].value >= best[q].value
  }

  lemma RelaxKeeps(m: Model, text: string, best: Scores, back: Backs, start: nat, e: Edge, b: Back, score: real)
    requires m.vocab != [] && Open(m, text, best, back, start) && IsEdge(m, text, start, e)
    requires b.start == start && start < e.end <= |text| && Records(b, e, text, e.end)
    requires score == best[start].value + e.score && (best[e.end].Some? ==> score > best[e.end].value)
    ensures var best', back' := best[e.end := Some(score)], back[e.end := Some(b)];
      Open(m, text, best', back', start) && NoWorse(best, best') && RelaxedEdge(best', start, e)
  {
    hide IsEdge, Records;
    var best', back', done := best[e.end := Some(score)], back[e.end := Some(b)], start + 1;
    forall q | 0 <= q <= |text| ensures Reached(m, text, best', back', done, q) {
      assert Reached(m, text, best, back, done, q);
      if q == e.end {
        assert Supports(m, text, best', back', q, e);
      } else if q > 0 && best[q].Some? {
        var f :| Supports(m, text, best, back, q, f);
        assert Supports(m, text, best', back', q, f);
      }
    }
    forall p | 0 <= p < start ensures Relaxed(m, text, best', p) {
      assert Relaxed(m, text, best, p);
      RelaxedStays(m, text, best, best', p);
    }
  }

  lemma RelaxedStays(m: Model, text: string, best: Scores, best': Scores, p: nat)
    requires m.vocab != [] && |best| == |text| + 1 && p < |text| && Relaxed(m, text, best, p)
    requires NoWorse(best, best') && best'[p] == best[p]
    ensures Relaxed(m, text, best', p)
  {
    hide IsEdge;
    if best[p].Some? {
      forall e | IsEdge(m, text, p, e) ensures RelaxedEdge(best', p, e) {
        assert RelaxedEdge(best, p, e);
      }
    }
  }

  // ---------- Reading the tables ----------

  function Traced(back: Backs, q: nat): seq<Piece> {
    if q == 0 || q >= |back| || back[q].None? || back[q].value.start >= q then [] else
    Traced(back, back[q].value.start) + [Piece(back[q].value.id, back[q].value.covered)]
  }

  /** Every scored position has a path with exactly that score, and its pieces are what the backpointers say. */
  lemma {:induction false} TracePath(m: Model, text: string, best: Scores, back: Backs, q: nat) returns (path: seq<Hop>)
    requires m.vocab != [] && Tables(m, text, best, back, |text|) && q <= |text| && best[q].Some?
    ensures IsPath(m, text, path, q) && Score(path) == best[q].value && Pieces(text, path) == Traced(back, q)
    decreases q
  {
    hide IsEdge;
    assert Reached(m, text, best, back, |text|, q);
    if q == 0 {
      path := [];
    } else {
      var e :| Supports(m, text, best, back, q, e);
      var b := back[q].value;
      var front := TracePath(m, text, best, back, b.start);
      path := front + [Hop(b.start, e)];
      assert path[..|path| - 1] == front;
    }
  }

  lemma VisibleOne(text: string, start: nat)
    requires start < |text|
    ensures Visible(text[start..start + 1]) == if text[start] == SPACE then 0 else 1
  {
    var s := text[start..start + 1];
    assert s == [text[start]] && s[..0] == [];
  }

  // ---------- The model ----------

  class StaticEmbeddingModel {
    const model: Model
    const unknownScore: real
    const trie: Trie

    ghost predicate Valid() {
      && model.vocab != []
      && Represents(trie, model, |model.vocab|)
      && unknownScore == UnknownScore(model)
    }

    constructor (vocab: seq<Entry>, unknown: nat)
      requires vocab != []
      ensures Valid() && model == Model(vocab, unknown)
    {
      var built, i := EMPTY, 0;
      ghost var m := Model(vocab, unknown);
      while i < |vocab|
        invariant 0 <= i <= |vocab| && Represents(built, m, i)
      {
        ghost var before := built;
        if i > unknown && vocab[i].piece != [] {
          built := Inserted(built, vocab[i].piece, Token(i, vocab[i].score));
        }
        RepresentsNext(before, built, m, i);
        i := i + 1;
      }
      model, unknownScore, trie := Model(vocab, unknown), UnknownScore(Model(vocab, unknown)), built;
    }

    /** Walks the trie along the text from `start` and collects what it passes. */
    method MatchesAt(text: string, start: nat) returns (matches: seq<Edge>)
      requires Valid() && start < |text|
      ensures forall e :: e in matches <==> IsMatch(model, text, start, e)
    {
      hide Lookup, IsMatch, Represents, Walked;
      matches := [];
      var node, end := trie, start;
      WalkStarts(trie, text, start);
      MatchesAreAhead(model, text, start);
      while end < |text|
        invariant start <= end <= |text| && Walked(trie, node, text[start..end])
        invariant forall e :: e in matches <==> IsMatch(model, text, start, e) && e.end <= end
      {
        if text[end] !in node.children {
          FallsOff(trie, node, model, text, start, end);
          return;
        }
        ghost var parent := node;
        node := node.children[text[end]];
        StepsOn(trie, parent, node, text, start, end);
        var found := seq(|node.tokens|, k requires 0 <= k < |node.tokens| =>
          Edge(end + 1, node.tokens[k].id, node.tokens[k].score));
        forall e ensures e in found <==> IsMatch(model, text, start, e) && e.end == end + 1 {
          FoundIsMatch(node, text, start, end, found, e);
        }
        matches := matches + found;
        end := end + 1;
      }
    }

    lemma FoundIsMatch(node: Trie, text: string, start: nat, end: nat, found: seq<Edge>, e: Edge)
      requires Valid() && start <= end < |text| && node.tokens == Lookup(trie, text[start..end + 1])
      requires |found| == |node.tokens|
      requires forall k | 0 <= k < |found| :: found[k] == Edge(end + 1, node.tokens[k].id, node.tokens[k].score)
      ensures e in found <==> IsMatch(model, text, start, e) && e.end == end + 1
    {
      if IsMatch(model, text, start, e) && e.end == end + 1 {
        var token := Token(e.id, e.score);
        assert token in Lookup(trie, text[start..end + 1]);
        var k :| 0 <= k < |node.tokens| && node.tokens[k] == token;
        assert found[k] == e;
      }
      if e in found {
        var k :| 0 <= k < |found| && found[k] == e;
        assert node.tokens[k] in Lookup(trie, text[start..end + 1]);
      }
    }

    /** The edges out of a position that the loop below relaxes. */
    method EdgesAt(text: string, start: nat) returns (edges: seq<Edge>)
      requires Valid() && start < |text|
      ensures edges != [] && forall e :: e in edges <==> IsEdge(model, text, start, e)
    {
      edges := MatchesAt(text, start);
      if edges == [] {
        forall e ensures !IsMatch(model, text, start, e) { assert e !in edges; }
        edges := [Edge(start + 1, model.unknown, unknownScore)];
      } else {
        assert IsMatch(model, text, start, edges[0]);
      }
    }

    method RelaxAll(text: string, start: nat, edges: seq<Edge>, best0: Scores, back0: Backs)
      returns (best: Scores, back: Backs)
      requires Valid() && Open(model, text, best0, back0, start)
      requires edges != [] && forall e :: e in edges <==> IsEdge(model, text, start, e)
      ensures Tables(model, text, best, back, start + 1) && NoWorse(best0, best)
      ensures exists e :: e in edges && start < e.end < |best| && best[e.end].Some?
    {
      hide IsEdge, Reached, Relaxed;
      best, back := best0, back0;
      var i := 0;
      while i < |edges|
        invariant 0 <= i <= |edges| && Open(model, text, best, back, start) && NoWorse(best0, best)
        invariant best[start] == best0[start]
        invariant forall k | 0 <= k < i :: RelaxedEdge(best, start, edges[k])
      {
        var e := edges[i];
        EdgeEnds(model, text, start, e);
        var score := best[start].value + e.score;
        if best[e.end].None? || score > best[e.end].value {
          var covered := Covered(text, start, e);
          var b := Back(start, e.id, covered);
          RelaxKeeps(model, text, best, back, start, e, b, score);
          best, back := best[e.end := Some(score)], back[e.end := Some(b)];
        }
        i := i + 1;
      }
      assert edges[0] in edges;
      EdgeEnds(model, text, start, edges[0]);
      assert RelaxedEdge(best, start, edges[0]);
      assert Relaxed(model, text, best, start) by {
        AllRelaxed(model, text, best, start, edges);
      }
    }

    method Covered(text: string, start: nat, e: Edge) returns (covered: nat)
      requires Valid() && IsEdge(model, text, start, e)
      ensures start < e.end <= |text| && covered == Visible(text[start..e.end])
    {
      EdgeEnds(model, text, start, e);
      covered := Visible(text[start..e.end]);
      if e.id == model.unknown {
        covered := if text[start] != SPACE then 1 else 0;
        VisibleOne(text, start);
      }
    }

    /** `normalized` is the text after the foreign Unicode normalisation. */
    method Tokenize(normalized: string) returns (result: Result<seq<Piece>, Lost>)
      requires Valid()
      ensures exists path :: IsBest(model, [SPACE] + normalized, path) && result == Ok(Pieces([SPACE] + normalized, path))
    {
      hide IsEdge, Reached, Relaxed, Supports, NoWorse;
      var text := [SPACE] + normalized;
      var best: Scores := [Some(0.0)] + seq(|text|, _ => None);
      var back: Backs := seq(|text| + 1, _ => None);
      StartTables(model, text, best, back);
      ghost var ahead := 0;
      for start := 0 to |text|
        invariant Tables(model, text, best, back, start)
        invariant start <= ahead <= |text| && best[ahead].Some?
      {
        if best[start].None? {
          SkipPosition(model, text, best, back, start);
          continue;
        }
        OpenPosition(model, text, best, back, start);
        var edges := EdgesAt(text, start);
        best, back := RelaxAll(text, start, edges, best, back);
        ghost var e :| e in edges && start < e.end < |best| && best[e.end].Some?;
        ahead := e.end;
      }
      assert ahead == |text|;
      ghost var path := TracePath(model, text, best, back, |text|);
      forall other | IsPath(model, text, other, |text|) ensures Score(other) <= Score(path) {
        BestBounds(model, text, best, back, other, |text|);
      }
      var pieces: seq<Piece>, position: nat := [], |text|;
      while position != 0
        invariant 0 <= position <= |text| && best[position].Some?
        invariant Traced(back, |text|) == Traced(back, position) + Reversed(pieces)
      {
        hide Pieces;
        BackIsThere(model, text, best, back, position);
        if back[position].None? { return Err(LostPosition(position)); }
        var b := back[position].value;
        pieces := pieces + [Piece(b.id, b.covered)];
        position := b.start;
        assert pieces[..|pieces| - 1] + [pieces[|pieces| - 1]] == pieces;
      }
      assert Traced(back, 0) == [] && [] + Reversed(pieces) == Reversed(pieces);
      result := Ok(Reversed(pieces));
    }
  }

  lemma AllRelaxed(m: Model, text: string, best: Scores, start: nat, edges: seq<Edge>)
    requires m.vocab != [] && |best| == |text| + 1 && start < |text| && best[start].Some?
    requires forall e :: e in edges <==> IsEdge(m, text, start, e)
    requires forall k | 0 <= k < |edges| :: RelaxedEdge(best, start, edges[k])
    ensures Relaxed(m, text, best, start)
  {
    hide IsEdge;
    forall e | IsEdge(m, text, start, e) ensures RelaxedEdge(best, start, e) {
      assert e in edges;
    }
  }

  lemma StartTables(m: Model, text: string, best: Scores, back: Backs)
    requires m.vocab != [] && |best| == |back| == |text| + 1 && best[0] == Some(0.0)
    requires forall q | 0 < q <= |text| :: best[q] == None
    ensures Tables(m, text, best, back, 0)
  {}

  lemma SkipPosition(m: Model, text: string, best: Scores, back: Backs, start: nat)
    requires m.vocab != [] && start < |text| && Tables(m, text, best, back, start) && best[start].None?
    ensures Tables(m, text, best, back, start + 1)
  {
    hide Supports;
    var done := start + 1;
    forall q | 0 <= q <= |text| ensures Reached(m, text, best, back, done, q) {
      assert Reached(m, text, best, back, start, q);
    }
    forall p | 0 <= p < start + 1 ensures Relaxed(m, text, best, p) {}
  }

  lemma OpenPosition(m: Model, text: string, best: Scores, back: Backs, start: nat)
    requires m.vocab != [] && start < |text| && Tables(m, text, best, back, start) && best[start].Some?
    ensures Open(m, text, best, back, start)
  {
    hide Supports;
    var done := start + 1;
    forall q | 0 <= q <= |text| ensures Reached(m, text, best, back, done, q) {
      assert Reached(m, text, best, back, start, q);
    }
  }

  lemma BackIsThere(m: Model, text: string, best: Scores, back: Backs, q: nat)
    requires m.vocab != [] && Tables(m, text, best, back, |text|) && 0 < q <= |text| && best[q].Some?
    ensures back[q].Some? && back[q].value.start < q && best[back[q].value.start].Some?
  {
    assert Reached(m, text, best, back, |text|, q);
  }

  /** `node` is where the walk along `prefix` ends. */
  ghost predicate Walked(trie: Trie, node: Trie, prefix: string) {
    forall s :: Lookup(node, s) == Lookup(trie, prefix + s)
  }

  lemma WalkStarts(trie: Trie, text: string, start: nat)
    requires start <= |text|
    ensures Walked(trie, trie, text[start..start])
  {
    forall s: string ensures text[start..start] + s == s {}
  }

  lemma MatchesAreAhead(m: Model, text: string, start: nat)
    ensures forall e | IsMatch(m, text, start, e) :: start < e.end <= |text|
  {}

  lemma StepsOn(trie: Trie, parent: Trie, node: Trie, text: string, start: nat, end: nat)
    requires start <= end < |text| && text[end] in parent.children && node == parent.children[text[end]]
    requires Walked(trie, parent, text[start..end])
    ensures Walked(trie, node, text[start..end + 1])
    ensures node.tokens == Lookup(trie, text[start..end + 1])
  {
    forall s ensures Lookup(node, s) == Lookup(trie, text[start..end + 1] + s) {
      var t := [text[end]] + s;
      assert t[1..] == s;
      assert text[start..end] + t == text[start..end + 1] + s;
      assert Lookup(parent, t) == Lookup(trie, text[start..end] + t);
    }
    assert Lookup(node, []) == Lookup(trie, text[start..end + 1] + []);
    assert text[start..end + 1] + [] == text[start..end + 1];
  }

  lemma FallsOff(trie: Trie, node: Trie, m: Model, text: string, start: nat, end: nat)
    requires Represents(trie, m, |m.vocab|)
    requires start <= end < |text| && text[end] !in node.children && Walked(trie, node, text[start..end])
    ensures forall e | IsMatch(m, text, start, e) :: e.end <= end
  {
    hide Lookup;
    forall e | IsMatch(m, text, start, e) ensures e.end <= end {
      assert Token(e.id, e.score) in Lookup(trie, text[start..e.end]);
      if end < e.end { DeadEnd(trie, node, text, start, end, e.end); }
    }
  }

  lemma DeadEnd(trie: Trie, node: Trie, text: string, start: nat, end: nat, further: nat)
    requires start <= end < further <= |text| && text[end] !in node.children && Walked(trie, node, text[start..end])
    ensures Lookup(trie, text[start..further]) == []
  {
    var t := text[end..further];
    assert text[start..end] + t == text[start..further];
    assert Lookup(node, t) == Lookup(trie, text[start..end] + t);
  }

  // ---------- What a segmentation covers ----------

  function Spelled(text: string, path: seq<Hop>): string {
    if path == [] then [] else
    var last := path[|path| - 1];
    Spelled(text, path[..|path| - 1]) + if last.start <= last.edge.end <= |text| then text[last.start..last.edge.end] else []
  }

  function TotalCovered(pieces: seq<Piece>): nat {
    if pieces == [] then 0 else TotalCovered(pieces[..|pieces| - 1]) + pieces[|pieces| - 1].covered
  }

  lemma {:induction false} VisibleJoins(a: string, b: string)
    ensures Visible(a + b) == Visible(a) + Visible(b)
    decreases b
  {
    if b == [] {
      assert a + b == a;
    } else {
      assert (a + b)[..|a + b| - 1] == a + b[..|b| - 1];
      VisibleJoins(a, b[..|b| - 1]);
    }
  }

  /** Piece `k` stands for hop `k`, which starts where the hop before it ended: it is a vocabulary entry that spells what the hop
      covers, or, where no entry matches, one unknown character. */
  lemma {:induction false} PieceIs(m: Model, text: string, path: seq<Hop>, end: nat, k: nat)
    requires m.vocab != [] && IsPath(m, text, path, end) && k < |path|
    ensures |Pieces(text, path)| == |path| && path[k].start == if k == 0 then 0 else path[k - 1].edge.end
    ensures var id, hop := Pieces(text, path)[k].id, path[k];
      && hop.start < hop.edge.end <= |text| && Pieces(text, path)[k].covered == Visible(text[hop.start..hop.edge.end])
      && (if HasMatch(m, text, hop.start) then m.unknown < id < |m.vocab| && m.vocab[id].piece == text[hop.start..hop.edge.end]
          else id == m.unknown && hop.edge.end == hop.start + 1)
    decreases path
  {
    var n := |path| - 1;
    if k < n {
      PieceIs(m, text, path[..n], path[n].start, k);
      assert path[..n][k] == path[k] && (k > 0 ==> path[..n][k - 1] == path[k - 1]);
      AsManyPieces(text, path);
      AsManyPieces(text, path[..n]);
    } else {
      AsManyPieces(text, path);
      if n > 0 { assert path[..n][n - 1].edge.end == path[n].start; }
    }
  }

  lemma {:induction false} AsManyPieces(text: string, path: seq<Hop>)
    ensures |Pieces(text, path)| == |path|
    ensures path != [] ==> Pieces(text, path)[..|path| - 1] == Pieces(text, path[..|path| - 1])
  {
    if path != [] { AsManyPieces(text, path[..|path| - 1]); }
  }

  /**
   * A segmentation spells the text up to where it ends, with nothing left out or read twice, and the covered
   * counts of its pieces add up to the visible characters.
   */
  lemma {:induction false} PathSpells(m: Model, text: string, path: seq<Hop>, end: nat)
    requires m.vocab != [] && IsPath(m, text, path, end) && end <= |text|
    ensures Spelled(text, path) == text[..end] && TotalCovered(Pieces(text, path)) == Visible(text[..end])
    decreases path
  {
    hide IsEdge;
    if path != [] {
      var last := path[|path| - 1];
      EdgeEnds(m, text, last.start, last.edge);
      PathSpells(m, text, path[..|path| - 1], last.start);
      assert text[..last.start] + text[last.start..end] == text[..end];
      VisibleJoins(text[..last.start], text[last.start..end]);
      var pieces := Pieces(text, path);
      assert pieces[..|pieces| - 1] == Pieces(text, path[..|path| - 1]);
    }
  }
}
