/**
 * What the models are sent over a run, told from the operations and the calls alone: which key a session belongs to, what audio
 * it hears between its start and its close, and whose reply an operation answers with.
 */
module AsrAudio {
  import opened Wrappers
  import opened AsrSessions

  // ---------- The calls of one operation ----------

  /** What was sent between two states. */
  function Since(s: State, t: State): seq<Event>
    requires s.trace <= t.trace
  {
    t.trace[|s.trace|..]
  }

  /** One call, with what came of it. */
  function Asked(b: Backend, trace: seq<Event>, call: Call): Event { Event(call, b.reply(trace, call).Some?) }

  lemma Grew(s: State, t: State, events: seq<Event>)
    requires t.trace == s.trace + events
    ensures s.trace <= t.trace && Since(s, t) == events
  {}

  lemma StartForm(b: Backend, s: State, key: Key)
    ensures var t := StartStep(b, s, key).state;
      && t.trace == s.trace + (if key in s.streams || key.model !in b.engines then []
                               else [Asked(b, s.trace, Start(key.model, Allocated(s, key)))])
      && t.streams == (if Accepted(b, s, key) then s.streams[key := Allocated(s, key)] else s.streams)
      && (StartStep(b, s, key).result.Ok? <==> Accepted(b, s, key))
  {
    assert s.trace + [] == s.trace;
  }

  lemma PushForm(b: Backend, s: State, key: Key, audio: Audio)
    ensures var t := PushStep(b, s, key, audio).state;
      && t.trace == s.trace + (if key !in s.streams || key.model !in b.engines then []
                               else [Asked(b, s.trace, Push(key.model, s.streams[key], audio))])
      && t.streams == s.streams
  {
    assert s.trace + [] == s.trace;
  }

  lemma FinishForm(b: Backend, s: State, key: Key)
    ensures var t := FinishStep(b, s, key).state;
      && t.trace == s.trace + (if key !in s.streams || key.model !in b.engines then []
                               else [Asked(b, s.trace, Finish(key.model, s.streams[key]))])
      && t.streams == s.streams - {key}
  {
    assert s.trace + [] == s.trace;
  }

  lemma CancelForm(b: Backend, s: State, key: Key)
    ensures var t := CancelStep(b, s, key).state;
      && t.trace == s.trace + (if key !in s.streams || key.model !in b.engines then []
                               else [Event(Cancel(key.model, s.streams[key]), true)])
      && t.streams == s.streams - {key}
  {
    assert s.trace + [] == s.trace;
  }

  /** The calls of a request that goes on with a stream its key has. */
  function PushAndMaybeCancel(b: Backend, trace: seq<Event>, h: Handle, audio: Audio): seq<Event> {
    var push := Asked(b, trace, Push(h.model, h.id, audio));
    if push.ok then [push] else [push, Event(Cancel(h.model, h.id), true)]
  }

  lemma StreamingForm(b: Backend, s: State, r: Request)
    requires r.key in s.streams ==> r.key.model in b.engines
    ensures var t, key := StreamingStep(b, s, r).state, r.key;
      var h := Handle(key.model, if key in s.streams then s.streams[key] else Allocated(s, key));
      var start := Asked(b, s.trace, Start(h.model, h.id));
      if key in s.streams then
        && t.trace == s.trace + PushAndMaybeCancel(b, s.trace, h, r.audio)
        && t.streams == if PushAndMaybeCancel(b, s.trace, h, r.audio)[0].ok then s.streams else s.streams - {key}
      else if key.model !in b.engines then t.trace == s.trace && t.streams == s.streams
      else if !start.ok then t.trace == s.trace + [start] && t.streams == s.streams
      else
        var pushed := PushAndMaybeCancel(b, s.trace + [start], h, r.audio);
        && t.trace == s.trace + [start] + pushed
        && t.streams == if pushed[0].ok then s.streams[key := h.id] else s.streams
  {
    hide StartStep, PushStep, CancelStep;
    StartForm(b, s, r.key);
    var begun := if r.key in s.streams then s else StartStep(b, s, r.key).state;
    PushForm(b, begun, r.key, r.audio);
    if r.key in begun.streams && r.key.model in b.engines { PushAnswers(b, begun, r.key, r.audio); }
    CancelForm(b, PushStep(b, begun, r.key, r.audio).state, r.key);
    if r.key !in s.streams { assert s.streams[r.key := Allocated(s, r.key)] - {r.key} == s.streams; }
  }

  lemma PushAnswers(b: Backend, s: State, key: Key, audio: Audio)
    requires key in s.streams && key.model in b.engines
    ensures PushStep(b, s, key, audio).result.Ok? <==> Asked(b, s.trace, Push(key.model, s.streams[key], audio)).ok
  {}

  // ---------- What calls mean for one session ----------

  predicate Opened(events: seq<Event>, h: Handle) { exists k :: 0 <= k < |events| && Opens(events[k], h) }

  predicate Closed(events: seq<Event>, h: Handle) { exists k :: 0 <= k < |events| && Closes(events[k], h) }

  function HeardIn(e: Event, h: Handle): Audio {
    if e.call.Push? && Handle(e.call.model, e.call.id) == h then e.call.audio else []
  }

  /** The audio that the calls hand to the session, joined. */
  function Heard(events: seq<Event>, h: Handle): Audio {
    if events == [] then [] else Heard(events[..|events| - 1], h) + HeardIn(events[|events| - 1], h)
  }

  lemma {:induction false} HeardJoins(a: seq<Event>, c: seq<Event>, h: Handle)
    ensures Heard(a + c, h) == Heard(a, h) + Heard(c, h)
    decreases |c|
  {
    if c == [] {
      assert a + c == a;
    } else {
      var n := |c| - 1;
      assert (a + c)[..|a + c| - 1] == a + c[..n];
      HeardJoins(a, c[..n], h);
    }
  }

  lemma HeardOne(e: Event, h: Handle)
    ensures Heard([e], h) == HeardIn(e, h)
  {
    assert [e][..0] == [] && [] + HeardIn(e, h) == HeardIn(e, h);
  }

  lemma Joined(a: seq<Event>, c: seq<Event>, h: Handle)
    ensures Opened(a + c, h) <==> Opened(a, h) || Opened(c, h)
    ensures Closed(a + c, h) <==> Closed(a, h) || Closed(c, h)
  {
    var both := a + c;
    if k :| 0 <= k < |a| && Opens(a[k], h) { assert Opens(both[k], h); }
    if k :| 0 <= k < |c| && Opens(c[k], h) { assert Opens(both[|a| + k], h); }
    if k :| 0 <= k < |a| && Closes(a[k], h) { assert Closes(both[k], h); }
    if k :| 0 <= k < |c| && Closes(c[k], h) { assert Closes(both[|a| + k], h); }
    if k :| 0 <= k < |both| && Opens(both[k], h) {
      if k >= |a| { assert Opens(c[k - |a|], h); }
    }
    if k :| 0 <= k < |both| && Closes(both[k], h) {
      if k >= |a| { assert Closes(c[k - |a|], h); }
    }
  }

  /** One more call. */
  lemma OneMore(events: seq<Event>, e: Event, h: Handle)
    ensures Heard(events + [e], h) == Heard(events, h) + HeardIn(e, h)
    ensures Opened(events + [e], h) <==> Opened(events, h) || Opens(e, h)
    ensures Closed(events + [e], h) <==> Closed(events, h) || Closes(e, h)
  {
    HeardJoins(events, [e], h);
    HeardOne(e, h);
    Joined(events, [e], h);
    assert [e][0] == e;
  }

  lemma Nothing(h: Handle)
    ensures Heard([], h) == [] && !Opened([], h) && !Closed([], h)
  {}

  // ---------- One operation ----------

  predicate Held(s: State, key: Key, h: Handle) { key in s.streams && Handle(key.model, s.streams[key]) == h }

  /** The requests that are for streaming: interim display on a streaming model, because a chunk was reached. */
  predicate Streams(b: Backend, r: Request) { r.interimDisplay && r.chunkReached && r.key.model in b.nemotron }

  /** The audio an operation brings for a key. */
  function HandedBy(b: Backend, op: Op, key: Key): Audio {
    match op
    case PushOp(k, audio) => if k == key then audio else []
    case ExecuteOp(r, _) => if Streams(b, r) && r.key == key then r.audio else []
    case _ => []
  }

  /** A stream is held after the calls if it was held before, or its key opened it, and nothing closed it; then what the
      session heard is what the operation brought for the key. */
  ghost predicate Accounts(s: State, t: State, given: Option<Key>, key: Key, h: Handle, audio: Audio) {
    && s.trace <= t.trace
    && var events := Since(s, t);
    && (Held(t, key, h) <==> (Held(s, key, h) || (given == Some(key) && Opened(events, h))) && !Closed(events, h))
    && (Held(s, key, h) || (given == Some(key) && Opened(events, h)) ==> Heard(events, h) == audio)
  }

  lemma OneCall(s: State, t: State, e: Event, h: Handle)
    requires t.trace == s.trace + [e]
    ensures s.trace <= t.trace
    ensures var events := Since(s, t);
      Heard(events, h) == HeardIn(e, h) && (Opened(events, h) <==> Opens(e, h)) && (Closed(events, h) <==> Closes(e, h))
  {
    Grew(s, t, [e]);
    Nothing(h);
    OneMore([], e, h);
    assert [] + [e] == [e] && [] + HeardIn(e, h) == HeardIn(e, h);
  }

  lemma NoCall(s: State, t: State, h: Handle)
    requires t.trace == s.trace
    ensures s.trace <= t.trace
    ensures var events := Since(s, t); Heard(events, h) == [] && !Opened(events, h) && !Closed(events, h)
  {
    Nothing(h);
  }

  lemma PushAccounts(b: Backend, s: State, k: Key, audio: Audio, key: Key, h: Handle)
    requires Sound(b, s) && Matches(s)
    ensures Accounts(s, PushStep(b, s, k, audio).state, Some(k), key, h, if k == key then audio else [])
  {
    hide Live, PushStep, Opened, Closed, Heard;
    PushForm(b, s, k, audio);
    var t := PushStep(b, s, k, audio).state;
    if k in s.streams { OneCall(s, t, Asked(b, s.trace, Push(k.model, s.streams[k], audio)), h); } else { NoCall(s, t, h); }
  }

  lemma FinishAccounts(b: Backend, s: State, k: Key, key: Key, h: Handle)
    requires Sound(b, s) && Matches(s)
    ensures Accounts(s, FinishStep(b, s, k).state, Some(k), key, h, [])
  {
    hide Live, FinishStep, Opened, Closed, Heard;
    FinishForm(b, s, k);
    var t := FinishStep(b, s, k).state;
    if k in s.streams { OneCall(s, t, Asked(b, s.trace, Finish(k.model, s.streams[k])), h); } else { NoCall(s, t, h); }
  }

  lemma CancelAccounts(b: Backend, s: State, k: Key, key: Key, h: Handle)
    requires Sound(b, s) && Matches(s)
    ensures Accounts(s, CancelStep(b, s, k).state, Some(k), key, h, [])
  {
    hide Live, CancelStep, Opened, Closed, Heard;
    CancelForm(b, s, k);
    var t := CancelStep(b, s, k).state;
    if k in s.streams { OneCall(s, t, Event(Cancel(k.model, s.streams[k]), true), h); } else { NoCall(s, t, h); }
  }

  lemma StartAccounts(b: Backend, s: State, k: Key, key: Key, h: Handle)
    requires Sound(b, s) && Matches(s) && (Accepted(b, s, k) ==> Apart(s, k))
    ensures Accounts(s, StartStep(b, s, k).state, Some(k), key, h, [])
  {
    hide Live, StartStep, Opened, Closed, Heard;
    StartForm(b, s, k);
    var t := StartStep(b, s, k).state;
    if k !in s.streams && k.model in b.engines {
      OneCall(s, t, Asked(b, s.trace, Start(k.model, Allocated(s, k))), h);
    } else {
      NoCall(s, t, h);
    }
  }

  lemma PushedCalls(b: Backend, trace: seq<Event>, own: Handle, audio: Audio, h: Handle)
    ensures var events := PushAndMaybeCancel(b, trace, own, audio);
      && Heard(events, h) == (if h == own then audio else []) && !Opened(events, h)
      && (Closed(events, h) <==> h == own && !events[0].ok)
  {
    hide Opened, Closed, Heard;
    var push := Asked(b, trace, Push(own.model, own.id, audio));
    var cancel := Event(Cancel(own.model, own.id), true);
    Nothing(h);
    OneMore([], push, h);
    OneMore([push], cancel, h);
    assert [] + [push] == [push] && [push] + [cancel] == [push, cancel];
    assert [] + HeardIn(push, h) == HeardIn(push, h) && HeardIn(push, h) + [] == HeardIn(push, h);
  }

  lemma StreamingAccounts(b: Backend, s: State, r: Request, key: Key, h: Handle)
    requires Sound(b, s) && Matches(s) && (Accepted(b, s, r.key) ==> Apart(s, r.key))
    ensures Accounts(s, StreamingStep(b, s, r).state, Some(r.key), key, h, if r.key == key then r.audio else [])
  {
    hide Live, StreamingStep, Opened, Closed, Heard, PushAndMaybeCancel;
    StreamingForm(b, s, r);
    var t, k := StreamingStep(b, s, r).state, r.key;
    var own := Handle(k.model, if k in s.streams then s.streams[k] else Allocated(s, k));
    var start := Asked(b, s.trace, Start(own.model, own.id));
    if k in s.streams {
      PushedCalls(b, s.trace, own, r.audio, h);
      Grew(s, t, PushAndMaybeCancel(b, s.trace, own, r.audio));
    } else if k.model !in b.engines {
      NoCall(s, t, h);
    } else if !start.ok {
      OneCall(s, t, start, h);
    } else {
      var pushed := PushAndMaybeCancel(b, s.trace + [start], own, r.audio);
      PushedCalls(b, s.trace + [start], own, r.audio, h);
      Grew(s, t, [start] + pushed);
      assert s.trace + [start] + pushed == s.trace + ([start] + pushed);
      Joined([start], pushed, h);
      HeardJoins([start], pushed, h);
      var u := s.(trace := s.trace + [start]);
      OneCall(s, u, start, h);
      assert Since(s, u) == [start];
    }
  }

  lemma OfflineAccounts(b: Backend, s: State, r: Request, given: Option<Key>, key: Key, h: Handle)
    ensures Accounts(s, OfflineStep(b, s, r).state, given, key, h, [])
  {
    hide Opened, Closed, Heard;
    var t := OfflineStep(b, s, r).state;
    if r.key.model in b.engines { OneCall(s, t, Asked(b, s.trace, Recognize(r.key.model, r.audio)), h); } else { NoCall(s, t, h); }
  }

  lemma {:induction false} CancelsMean(streams: map<Key, SessionId>, order: seq<Key>, h: Handle)
    requires forall key | key in order :: key in streams
    ensures var events := Cancels(streams, order);
      && Heard(events, h) == [] && !Opened(events, h)
      && (Closed(events, h) <==> exists key :: key in order && Handle(key.model, streams[key]) == h)
    decreases order
  {
    hide Opened, Closed, Heard;
    Nothing(h);
    if order != [] {
      var first, rest := Event(Cancel(order[0].model, streams[order[0]]), true), Cancels(streams, order[1..]);
      CancelsMean(streams, order[1..], h);
      Joined([first], rest, h);
      HeardJoins([first], rest, h);
      OneMore([], first, h);
      assert [] + [first] == [first] && [] + HeardIn(first, h) == [];
      assert order == [order[0]] + order[1..];
    }
  }

  lemma ResetAccounts(b: Backend, s: State, order: seq<Key>, keys: set<Key>, given: Option<Key>, key: Key, h: Handle)
    requires Invariant(b, s) && Matches(s) && Lists(order, keys) && keys <= s.streams.Keys
    ensures Accounts(s, CancelAll(b, s, order), given, key, h, [])
  {
    hide Live, Opened, Closed, Heard, Obeys, CancelAll, Cancels;
    var t := CancelAll(b, s, order);
    CancelAllKeeps(b, s, order, keys);
    CancelAllSends(b, s, order, keys);
    Grew(s, t, Cancels(s.streams, order));
    CancelsMean(s.streams, order, h);
  }

  lemma ResetAndMore(s: State, u: State, t: State, given: Option<Key>, key: Key, h: Handle)
    requires Accounts(s, u, given, key, h, []) && Accounts(u, t, given, key, h, [])
    requires Heard(Since(u, t), h) == [] && !Closed(Since(u, t), h) && !Opened(Since(u, t), h)
    ensures Accounts(s, t, given, key, h, [])
  {
    hide Opened, Closed, Heard;
    Joined(Since(s, u), Since(u, t), h);
    HeardJoins(Since(s, u), Since(u, t), h);
    assert Since(s, t) == Since(s, u) + Since(u, t);
  }

  lemma OfflineHears(b: Backend, s: State, r: Request, h: Handle)
    ensures var t := OfflineStep(b, s, r).state; s.trace <= t.trace && Heard(Since(s, t), h) == [] && !Closed(Since(s, t), h) && !Opened(Since(s, t), h)
  {
    hide Opened, Closed, Heard;
    var t := OfflineStep(b, s, r).state;
    if r.key.model in b.engines { OneCall(s, t, Asked(b, s.trace, Recognize(r.key.model, r.audio)), h); } else { NoCall(s, t, h); }
  }

  lemma StepAccounts(b: Backend, s: State, op: Op, key: Key, h: Handle)
    requires Invariant(b, s) && Matches(s) && Possible(b, s, op) && KeepsApart(b, s, op)
    ensures Accounts(s, Apply(b, s, op), KeyOf(op), key, h, HandedBy(b, op, key))
  {
    hide Obeys, Live, Matches, Sound, Apart, Accepted, StartStep, PushStep, FinishStep, CancelStep, StreamingStep, OfflineStep, CancelAll, Lists,
      Opened, Closed, Heard, Held;
    match op
    case StartOp(k) => StartAccounts(b, s, k, key, h);
    case PushOp(k, audio) => PushAccounts(b, s, k, audio, key, h);
    case FinishOp(k) => FinishAccounts(b, s, k, key, h);
    case CancelOp(k) => CancelAccounts(b, s, k, key, h);
    case ResetSourceOp(source, order) => ResetAccounts(b, s, order, KeysOf(s, source), None, key, h);
    case ResetAllOp(order) => ResetAccounts(b, s, order, s.streams.Keys, None, key, h);
    case ExecuteOp(r, order) =>
      if IsStreaming(b, r) {
        StreamingAccounts(b, s, r, key, h);
      } else {
        var u := CancelAll(b, s, order);
        ResetAccounts(b, s, order, KeysOf(s, r.key.source), Some(r.key), key, h);
        if r.key.model !in b.nemotron {
          OfflineAccounts(b, u, r, Some(r.key), key, h);
          OfflineHears(b, u, r, h);
          ResetAndMore(s, u, OfflineStep(b, u, r).state, Some(r.key), key, h);
        }
      }
  }

  // ---------- Over a run ----------

  /** The calls of the operations from `i` up to `j`. */
  function Between(b: Backend, ops: seq<Op>, i: nat, j: nat): seq<Event>
    requires i <= j <= |ops|
  {
    var past, now := |Run(b, ops[..i]).trace|, Run(b, ops[..j]).trace;
    if past <= |now| then now[past..] else []
  }

  /** Operation `i` opens the session for its key, and nothing has closed it before operation `n`. */
  ghost predicate Serves(b: Backend, ops: seq<Op>, i: nat, n: nat, key: Key, h: Handle) {
    && i < n <= |ops| && KeyOf(ops[i]) == Some(key) && Opened(Between(b, ops, i, i + 1), h) && !Closed(Between(b, ops, i, n), h)
  }

  ghost predicate Serving(b: Backend, ops: seq<Op>, n: nat, key: Key, h: Handle) { exists i: nat :: Serves(b, ops, i, n, key, h) }

  /** A run in which every operation that opens a session keeps ids apart. */
  ghost predicate Orderly(b: Backend, ops: seq<Op>) { PossibleRun(b, ops) && KeepsApartThroughout(b, ops) }

  lemma OrderlyPrefix(b: Backend, ops: seq<Op>, n: nat)
    requires Orderly(b, ops) && n <= |ops|
    ensures Orderly(b, ops[..n])
  {
    hide Possible, KeepsApart, Run;
    PossiblePrefix(b, ops, n);
    forall i | 0 <= i < n ensures KeepsApart(b, Run(b, ops[..n][..i]), ops[..n][i]) { assert ops[..n][..i] == ops[..i]; }
  }

  /** What is known where an operation starts. */
  lemma Before(b: Backend, ops: seq<Op>, n: nat)
    requires Orderly(b, ops) && n < |ops|
    ensures var s := Run(b, ops[..n]);
      Invariant(b, s) && Matches(s) && Possible(b, s, ops[n]) && KeepsApart(b, s, ops[n]) && Run(b, ops[..n + 1]) == Apply(b, s, ops[n])
  {
    hide Possible, KeepsApart, Apply, Obeys, Matches, Sound;
    OrderlyPrefix(b, ops, n);
    RunObeys(b, ops[..n]);
    assert ops[..n + 1][..n] == ops[..n];
  }

  lemma OneOp(b: Backend, ops: seq<Op>, n: nat, key: Key, h: Handle)
    requires Orderly(b, ops) && n < |ops|
    ensures Accounts(Run(b, ops[..n]), Run(b, ops[..n + 1]), KeyOf(ops[n]), key, h, HandedBy(b, ops[n], key))
    ensures Between(b, ops, n, n + 1) == Since(Run(b, ops[..n]), Run(b, ops[..n + 1]))
  {
    hide Possible, KeepsApart, Apply, Obeys, Matches, Sound, Run, Opened, Closed, Heard, Held;
    Before(b, ops, n);
    StepAccounts(b, Run(b, ops[..n]), ops[n], key, h);
  }

  lemma {:induction false} TraceGrows(b: Backend, ops: seq<Op>, i: nat, j: nat)
    requires Orderly(b, ops) && i <= j <= |ops|
    ensures Run(b, ops[..i]).trace <= Run(b, ops[..j]).trace
    decreases j
  {
    hide Run, Opened, Closed, Heard, Held, Possible, KeepsApart;
    if i < j {
      TraceGrows(b, ops, i, j - 1);
      OneOp(b, ops, j - 1, Key("", 0, None, Source(0, "")), Handle("", SessionId(0, None)));
    }
  }

  lemma OneOpMore(b: Backend, ops: seq<Op>, i: nat, n: nat)
    requires Orderly(b, ops) && i <= n < |ops|
    ensures Between(b, ops, i, n + 1) == Between(b, ops, i, n) + Between(b, ops, n, n + 1)
  {
    hide Run, Possible, KeepsApart;
    TraceGrows(b, ops, i, n);
    TraceGrows(b, ops, n, n + 1);
  }

  lemma NoOps(b: Backend, ops: seq<Op>, n: nat, h: Handle)
    requires n <= |ops|
    ensures Between(b, ops, n, n) == [] && !Closed(Between(b, ops, n, n), h) && Heard(Between(b, ops, n, n), h) == []
  {}

  lemma ServesStep(b: Backend, ops: seq<Op>, i: nat, n: nat, key: Key, h: Handle)
    requires Orderly(b, ops) && n < |ops|
    ensures Serves(b, ops, i, n + 1, key, h)
        <==> !Closed(Between(b, ops, n, n + 1), h)
             && (Serves(b, ops, i, n, key, h) || (i == n && KeyOf(ops[n]) == Some(key) && Opened(Between(b, ops, n, n + 1), h)))
  {
    hide Run, Possible, KeepsApart, Opened, Closed, Between;
    if i <= n {
      OneOpMore(b, ops, i, n);
      Joined(Between(b, ops, i, n), Between(b, ops, n, n + 1), h);
      NoOps(b, ops, n, h);
    }
  }

  /** The registry holds exactly the sessions that an operation on their key opened and nothing closed since. */
  lemma {:induction false} HeldIsServed(b: Backend, ops: seq<Op>, n: nat, key: Key, h: Handle)
    requires Orderly(b, ops) && n <= |ops|
    ensures Held(Run(b, ops[..n]), key, h) <==> Serving(b, ops, n, key, h)
    decreases n
  {
    hide Run, Possible, KeepsApart, Opened, Closed, Heard, Between, Serves, Held;
    if n == 0 {
      NothingHeld(b, ops, key, h);
    } else {
      HeldIsServed(b, ops, n - 1, key, h);
      OneOp(b, ops, n - 1, key, h);
      forall i: nat
        ensures Serves(b, ops, i, n, key, h)
            <==> !Closed(Between(b, ops, n - 1, n), h)
                 && (Serves(b, ops, i, n - 1, key, h)
                     || (i == n - 1 && KeyOf(ops[n - 1]) == Some(key) && Opened(Between(b, ops, n - 1, n), h)))
      {
        ServesStep(b, ops, i, n - 1, key, h);
      }
      assert Serves(b, ops, n - 1, n, key, h) ==> Serving(b, ops, n, key, h);
      if Serving(b, ops, n, key, h) {
        var i: nat :| Serves(b, ops, i, n, key, h);
        assert Serves(b, ops, i, n - 1, key, h) || i == n - 1;
      }
      if Serving(b, ops, n - 1, key, h) {
        var i: nat :| Serves(b, ops, i, n - 1, key, h);
        assert Serves(b, ops, i, n, key, h) || Closed(Between(b, ops, n - 1, n), h);
      }
    }
  }

  lemma NothingHeld(b: Backend, ops: seq<Op>, key: Key, h: Handle)
    ensures !Held(Run(b, ops[..0]), key, h) && !Serving(b, ops, 0, key, h)
  {
    assert ops[..0] == [];
  }

  /** The audio the operations bring for a key, joined. */
  function Handed(b: Backend, ops: seq<Op>, key: Key): Audio {
    if ops == [] then [] else Handed(b, ops[..|ops| - 1], key) + HandedBy(b, ops[|ops| - 1], key)
  }

  lemma HandedNext(b: Backend, ops: seq<Op>, i: nat, j: nat, key: Key)
    requires i <= j < |ops|
    ensures Handed(b, ops[i..j + 1], key) == Handed(b, ops[i..j], key) + HandedBy(b, ops[j], key)
    ensures i == j ==> Handed(b, ops[i..j], key) == []
  {
    assert ops[i..j + 1][..j - i] == ops[i..j] && ops[i..j + 1][j - i] == ops[j];
  }

  /**
   * What a session hears: from the operation that opens it for a key to the one that closes it, the joined audio of the
   * pushes it is sent is the joined audio of the operations on that key.
   */
  lemma {:induction false} SessionHears(b: Backend, ops: seq<Op>, i: nat, j: nat, key: Key, h: Handle)
    requires Orderly(b, ops) && i <= j < |ops| && KeyOf(ops[i]) == Some(key) && Opened(Between(b, ops, i, i + 1), h)
    requires !Closed(Between(b, ops, i, j), h)
    ensures Heard(Between(b, ops, i, j + 1), h) == Handed(b, ops[i..j + 1], key)
    decreases j
  {
    hide Run, Possible, KeepsApart, Opened, Closed, Heard, Held, Between, HandedBy, Handed, Orderly;
    OneOp(b, ops, j, key, h);
    OneOpMore(b, ops, i, j);
    HeardJoins(Between(b, ops, i, j), Between(b, ops, j, j + 1), h);
    HandedNext(b, ops, i, j, key);
    if i == j {
      NoOps(b, ops, i, h);
    } else {
      OneOpMore(b, ops, i, j - 1);
      Joined(Between(b, ops, i, j - 1), Between(b, ops, j - 1, j), h);
      SessionHears(b, ops, i, j - 1, key, h);
      assert Serves(b, ops, i, j, key, h);
      HeldIsServed(b, ops, j, key, h);
    }
  }

  // ---------- What each operation sends ----------

  /** An operation on a key that a session serves reaches that session, with what the operation brings. */
  lemma ServedSends(b: Backend, ops: seq<Op>, n: nat, key: Key, h: Handle)
    requires Orderly(b, ops) && n < |ops| && Serving(b, ops, n, key, h)
    ensures var sent, past, op := Between(b, ops, n, n + 1), Run(b, ops[..n]).trace, ops[n];
      && (op == StartOp(key) ==> sent == [])
      && (op.PushOp? && op.key == key ==> sent == [Asked(b, past, Push(h.model, h.id, op.audio))])
      && (op == FinishOp(key) ==> sent == [Asked(b, past, Finish(h.model, h.id))])
      && (op == CancelOp(key) ==> sent == [Event(Cancel(h.model, h.id), true)])
      && (op.ExecuteOp? && Streams(b, op.request) && op.request.key == key ==>
            sent == PushAndMaybeCancel(b, past, h, op.request.audio))
  {
    hide Possible, KeepsApart, Run, Between, Serves, Obeys, Matches, StartStep, PushStep, FinishStep, CancelStep, StreamingStep, Serving;
    HeldIsServed(b, ops, n, key, h);
    Before(b, ops, n);
    OneOp(b, ops, n, key, h);
    var s, op := Run(b, ops[..n]), ops[n];
    match op
    case StartOp(k) => StartForm(b, s, k);
    case PushOp(k, audio) => PushForm(b, s, k, audio);
    case FinishOp(k) => FinishForm(b, s, k);
    case CancelOp(k) => CancelForm(b, s, k);
    case ExecuteOp(r, _) => StreamingForm(b, s, r);
    case _ =>
  }

  /** On a key that nothing serves, pushing, finishing and cancelling send nothing; starting asks the model to open a session,
      if it is registered, and a streaming request goes on to push its audio if the model agrees. */
  lemma UnservedSends(b: Backend, ops: seq<Op>, n: nat, key: Key)
    requires Orderly(b, ops) && n < |ops| && forall h :: !Serving(b, ops, n, key, h)
    ensures var sent, s, op := Between(b, ops, n, n + 1), Run(b, ops[..n]), ops[n];
      var id := if IsLegacy(key) then SessionId(key.turn, key.segment) else SessionId(s.next, None);
      var start := Asked(b, s.trace, Start(key.model, id));
      && (op.PushOp? && op.key == key ==> sent == [])
      && (op == FinishOp(key) ==> sent == [])
      && (op == CancelOp(key) ==> sent == [])
      && (op == StartOp(key) ==> sent == if key.model in b.engines then [start] else [])
      && (op.ExecuteOp? && Streams(b, op.request) && op.request.key == key ==>
            sent == if key.model !in b.engines then [] else if !start.ok then [start]
                    else [start] + PushAndMaybeCancel(b, s.trace + [start], Handle(key.model, id), op.request.audio))
  {
    hide Possible, KeepsApart, Run, Between, Serves, Obeys, Matches, StartStep, PushStep, FinishStep, CancelStep, StreamingStep, Serving,
      PushAndMaybeCancel;
    var s, op := Run(b, ops[..n]), ops[n];
    if key in s.streams { HeldIsServed(b, ops, n, key, Handle(key.model, s.streams[key])); }
    Before(b, ops, n);
    OneOp(b, ops, n, key, Handle("", SessionId(0, None)));
    match op
    case StartOp(k) => StartForm(b, s, k);
    case PushOp(k, audio) => PushForm(b, s, k, audio);
    case FinishOp(k) => FinishForm(b, s, k);
    case CancelOp(k) => CancelForm(b, s, k);
    case ExecuteOp(r, _) => StreamingForm(b, s, r);
    case _ =>
  }

  /** Every other request cancels the sessions of its source, each once, and, unless the model is for streaming only or not
      registered, hands the model its audio. */
  lemma OtherRequestsSend(b: Backend, ops: seq<Op>, n: nat, h: Handle)
    requires Orderly(b, ops) && n < |ops| && ops[n].ExecuteOp? && !Streams(b, ops[n].request)
    ensures var sent, s, r := Between(b, ops, n, n + 1), Run(b, ops[..n]), ops[n].request;
      exists cancels: seq<Event> ::
        && sent == cancels + (if r.key.model in b.nemotron || r.key.model !in b.engines then []
                              else [Asked(b, s.trace + cancels, Recognize(r.key.model, r.audio))])
        && (forall e | e in cancels :: e.call.Cancel?)
        && (Closed(cancels, h) <==> exists key: Key :: key.source == r.key.source && Serving(b, ops, n, key, h))
  {
    hide Lists, KeepsApart, Run, Between, Serves, Obeys, Matches, Serving, CancelAll, Cancels, Closed, Opened, Heard;
    Before(b, ops, n);
    OneOp(b, ops, n, Key("", 0, None, Source(0, "")), h);
    var s, r, order := Run(b, ops[..n]), ops[n].request, ops[n].order;
    CancelAllKeeps(b, s, order, KeysOf(s, r.key.source));
    CancelAllSends(b, s, order, KeysOf(s, r.key.source));
    CancelsMean(s.streams, order, h);
    CancelsAreCancels(s.streams, order);
    SourceOrder(b, s, order, r.key.source);
    forall key: Key ensures Held(s, key, h) <==> Serving(b, ops, n, key, h) { HeldIsServed(b, ops, n, key, h); }
    var cancels := Cancels(s.streams, order);
    var t := Run(b, ops[..n + 1]);
    var more := if r.key.model in b.nemotron || r.key.model !in b.engines then []
                else [Asked(b, s.trace + cancels, Recognize(r.key.model, r.audio))];
    assert t.trace == s.trace + (cancels + more);
    Grew(s, t, cancels + more);
  }

  lemma SourceOrder(b: Backend, s: State, order: seq<Key>, source: Source)
    requires Lists(order, KeysOf(s, source))
    ensures forall key :: key in order <==> key in s.streams && key.source == source
  {}

  lemma {:induction false} CancelsAreCancels(streams: map<Key, SessionId>, order: seq<Key>)
    requires forall key | key in order :: key in streams
    ensures forall e | e in Cancels(streams, order) :: e.call.Cancel?
    decreases order
  {
    if order != [] {
      CancelsAreCancels(streams, order[1..]);
      var first, rest := Event(Cancel(order[0].model, streams[order[0]]), true), Cancels(streams, order[1..]);
      assert Cancels(streams, order) == [first] + rest;
      forall e | e in [first] + rest ensures e.call.Cancel? { assert e == first || e in rest; }
    }
  }

  // ---------- What each operation answers ----------

  function Answered(b: Backend, s: State, op: Op): Option<Result<Transcript, Failure>> {
    match op
    case StartOp(key) => Some(StartStep(b, s, key).result)
    case PushOp(key, audio) => Some(PushStep(b, s, key, audio).result)
    case FinishOp(key) => Some(FinishStep(b, s, key).result)
    case ExecuteOp(r, order) => Some(ExecuteStep(b, s, r, order).result)
    case _ => None
  }

  /** The answer is the model's reply to the last call made, and there is one exactly if a call was made and not refused. */
  ghost predicate IsReply(b: Backend, before: seq<Event>, after: seq<Event>, result: Result<Transcript, Failure>) {
    && before <= after
    && (result.Ok? <==> |before| < |after| && after[|after| - 1].ok && !after[|after| - 1].call.Cancel?)
    && (result.Ok? ==> b.reply(after[..|after| - 1], after[|after| - 1].call) == Some(result.value))
  }

  lemma LastCall(b: Backend, s: State, t: State, call: Call)
    requires t.trace == s.trace + [Asked(b, s.trace, call)]
    ensures t.trace[..|t.trace| - 1] == s.trace && t.trace[|t.trace| - 1] == Asked(b, s.trace, call)
  {}

  lemma AnswersAreReplies(b: Backend, ops: seq<Op>, n: nat)
    requires Orderly(b, ops) && n < |ops| && Answered(b, Run(b, ops[..n]), ops[n]).Some?
    ensures IsReply(b, Run(b, ops[..n]).trace, Run(b, ops[..n + 1]).trace, Answered(b, Run(b, ops[..n]), ops[n]).value)
  {
    hide Possible, KeepsApart, Run, Obeys, Matches;
    Before(b, ops, n);
    StepReplies(b, Run(b, ops[..n]), ops[n]);
  }

  lemma StepReplies(b: Backend, s: State, op: Op)
    requires Invariant(b, s) && Possible(b, s, op) && Answered(b, s, op).Some?
    ensures IsReply(b, s.trace, Apply(b, s, op).trace, Answered(b, s, op).value)
  {
    hide Obeys, Matches, Live, Lists, CancelAll;
    match op
    case StartOp(key) =>
    case PushOp(key, audio) =>
    case FinishOp(key) =>
    case ExecuteOp(r, order) => if IsStreaming(b, r) { StreamingReplies(b, s, r); } else { OtherReplies(b, s, r, order); }
  }

  lemma StreamingReplies(b: Backend, s: State, r: Request)
    requires Sound(b, s)
    ensures var a := StreamingStep(b, s, r); IsReply(b, s.trace, a.state.trace, a.result)
  {}

  lemma OtherReplies(b: Backend, s: State, r: Request, order: seq<Key>)
    requires Invariant(b, s) && Lists(order, KeysOf(s, r.key.source)) && !IsStreaming(b, r)
    ensures var a := ExecuteStep(b, s, r, order); IsReply(b, s.trace, a.state.trace, a.result)
  {
    hide Obeys, Matches, Live, Lists, CancelAll, Cancels;
    CancelAllSends(b, s, order, KeysOf(s, r.key.source));
    CancelsAreCancels(s.streams, order);
  }
}
