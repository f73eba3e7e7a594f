/**
 * The executor of recognition requests: which streaming sessions it opens on the models, what it sends them,
 * and when it closes them.
 *
 * The models are foreign. Their replies are a function of the calls they received so far, and the calls are kept in
 * `trace`, so that what the models saw over a whole run can be talked about.
 */
module AsrSessions {
  import opened Wrappers

  type Model = string
  type Transcript = string
  type Audio = seq<bv32>

  const LEGACY := "legacy-single-source"
  const MAX: nat := 0xFFFF_FFFF_FFFF_FFFF

  datatype Source = Source(turnSession: nat, id: string)

  datatype Key = Key(model: Model, turn: nat, segment: Option<nat>, source: Source)

  datatype SessionId = SessionId(scope: nat, item: Option<nat>)

  datatype Call =
    | Start(model: Model, id: SessionId)
    | Push(model: Model, id: SessionId, audio: Audio)
    | Finish(model: Model, id: SessionId)
    | Cancel(model: Model, id: SessionId)
    | Recognize(model: Model, audio: Audio)

  datatype Event = Event(call: Call, ok: bool)

  datatype Backend = Backend(
    engines: set<Model>,
    nemotron: set<Model>,
    reply: (seq<Event>, Call) -> Option<Transcript>)

  datatype State = State(streams: map<Key, SessionId>, next: nat, trace: seq<Event>)

  datatype Failure =
    | AlreadyStarted(key: Key)
    | NotStarted(key: Key)
    | BackendFailure(operation: string)
    | InterimOnly

  datatype Answer = Answer(state: State, result: Result<Transcript, Failure>)

  datatype Request = Request(key: Key, interimDisplay: bool, chunkReached: bool, audio: Audio)

  predicate IsLegacy(key: Key) {
    key.source.id == LEGACY
  }

  /** Legacy sources use their turn and segment as the session id, all others a running number. */
  function Allocated(s: State, key: Key): SessionId {
    if IsLegacy(key) then SessionId(key.turn, key.segment) else SessionId(s.next, None)
  }

  function Counted(s: State, key: Key): State {
    if IsLegacy(key) then s else s.(next := if s.next < MAX then s.next + 1 else s.next)
  }

  function Sent(b: Backend, s: State, call: Call): Answer {
    var reply := b.reply(s.trace, call);
    Answer(
      s.(trace := s.trace + [Event(call, reply.Some?)]),
      match reply case Some(transcript) => Ok(transcript) case None => Err(BackendFailure("")))
  }

  function Named(a: Answer, operation: string): Answer {
    a.(result := if a.result.Ok? then a.result else Err(BackendFailure(operation)))
  }

  function StartStep(b: Backend, s: State, key: Key): Answer {
    if key in s.streams then Answer(s, Err(AlreadyStarted(key))) else
    var id, counted := Allocated(s, key), Counted(s, key);
    if key.model !in b.engines then Answer(counted, Err(BackendFailure("start"))) else
    var sent := Named(Sent(b, counted, Start(key.model, id)), "start");
    if sent.result.Err? then sent else sent.(state := sent.state.(streams := s.streams[key := id]))
  }

  function PushStep(b: Backend, s: State, key: Key, audio: Audio): Answer {
    if key !in s.streams then Answer(s, Err(NotStarted(key)))
    else if key.model !in b.engines then Answer(s, Err(BackendFailure("push")))
    else Named(Sent(b, s, Push(key.model, s.streams[key], audio)), "push")
  }

  /** The stream is forgotten before the model is asked, whatever it answers. */
  function FinishStep(b: Backend, s: State, key: Key): Answer {
    if key !in s.streams then Answer(s, Err(NotStarted(key))) else
    var removed := s.(streams := s.streams - {key});
    if key.model !in b.engines then Answer(removed, Err(BackendFailure("finish")))
    else Named(Sent(b, removed, Finish(key.model, s.streams[key])), "finish")
  }

  function Cancelled(b: Backend, s: State, key: Key): State
    requires key in s.streams
  {
    var removed := s.(streams := s.streams - {key});
    if key.model !in b.engines then removed
    else removed.(trace := s.trace + [Event(Cancel(key.model, s.streams[key]), true)])
  }

  function CancelStep(b: Backend, s: State, key: Key): Answer {
    if key !in s.streams then Answer(s, Err(NotStarted(key))) else
    Answer(Cancelled(b, s, key), if key.model in b.engines then Ok("") else Err(BackendFailure("cancel")))
  }

  function CancelAll(b: Backend, s: State, order: seq<Key>): State
    decreases order
  {
    if order == [] then s else
    CancelAll(b, if order[0] in s.streams then Cancelled(b, s, order[0]) else s, order[1..])
  }

  predicate IsStreaming(b: Backend, r: Request) {
    r.key.model in b.nemotron && r.interimDisplay && r.chunkReached
  }

  function StreamingStep(b: Backend, s: State, r: Request): Answer {
    var begun := if r.key in s.streams then Answer(s, Ok("")) else StartStep(b, s, r.key);
    if begun.result.Err? then begun else
    var pushed := PushStep(b, begun.state, r.key, r.audio);
    if pushed.result.Ok? then pushed else pushed.(state := CancelStep(b, pushed.state, r.key).state)
  }

  function OfflineStep(b: Backend, s: State, r: Request): Answer {
    if r.key.model !in b.engines then Answer(s, Err(BackendFailure("recognize")))
    else Named(Sent(b, s, Recognize(r.key.model, r.audio)), "recognize")
  }

  /** `order` is the order in which the hash map happens to list the streams of the request's source. */
  function ExecuteStep(b: Backend, s: State, r: Request, order: seq<Key>): Answer {
    if IsStreaming(b, r) then StreamingStep(b, s, r) else
    var reset := CancelAll(b, s, order);
    if r.key.model in b.nemotron then Answer(reset, Err(InterimOnly)) else OfflineStep(b, reset, r)
  }

  function KeysOf(s: State, source: Source): set<Key> {
    set key | key in s.streams && key.source == source
  }

  /** `order` lists every key of the set, each once. */
  ghost predicate Lists(order: seq<Key>, keys: set<Key>) {
    && (forall i, j | 0 <= i < j < |order| :: order[i] != order[j])
    && (forall key :: key in order <==> key in keys)
  }

  // ---------- The runtime ----------

  class AsrExecutionRuntime {
    const backend: Backend
    var streams: map<Key, SessionId>
    var nextModelSessionId: nat
    var trace: seq<Event>

    ghost function Snapshot(): State
      reads this
    {
      State(streams, nextModelSessionId, trace)
    }

    constructor (backend: Backend)
      ensures this.backend == backend && Snapshot() == State(map[], 1, [])
    {
      this.backend := backend;
      streams, nextModelSessionId, trace := map[], 1, [];
    }

    method Send(call: Call) returns (reply: Option<Transcript>)
      modifies this`trace
      ensures reply == backend.reply(old(trace), call) && trace == old(trace) + [Event(call, reply.Some?)]
    {
      reply := backend.reply(trace, call);
      trace := trace + [Event(call, reply.Some?)];
    }

    method AllocateBackendSession(key: Key) returns (id: SessionId)
      modifies this`nextModelSessionId
      ensures id == Allocated(old(Snapshot()), key) && Snapshot() == Counted(old(Snapshot()), key)
    {
      if key.source.id == LEGACY { return SessionId(key.turn, key.segment); }
      id := SessionId(nextModelSessionId, None);
      if nextModelSessionId < MAX { nextModelSessionId := nextModelSessionId + 1; }
    }

    method StartStream(key: Key) returns (result: Result<Transcript, Failure>)
      modifies this
      ensures Answer(Snapshot(), result) == StartStep(backend, old(Snapshot()), key)
    {
      if key in streams { return Err(AlreadyStarted(key)); }
      var id := AllocateBackendSession(key);
      if key.model !in backend.engines { return Err(BackendFailure("start")); }
      var reply := Send(Start(key.model, id));
      if reply.None? { return Err(BackendFailure("start")); }
      streams := streams[key := id];
      result := Ok(reply.value);
    }

    method PushStream(key: Key, audio: Audio) returns (result: Result<Transcript, Failure>)
      modifies this
      ensures Answer(Snapshot(), result) == PushStep(backend, old(Snapshot()), key, audio)
    {
      if key !in streams { return Err(NotStarted(key)); }
      if key.model !in backend.engines { return Err(BackendFailure("push")); }
      var reply := Send(Push(key.model, streams[key], audio));
      result := if reply.Some? then Ok(reply.value) else Err(BackendFailure("push"));
    }

    method FinishStream(key: Key) returns (result: Result<Transcript, Failure>)
      modifies this
      ensures Answer(Snapshot(), result) == FinishStep(backend, old(Snapshot()), key)
    {
      if key !in streams { return Err(NotStarted(key)); }
      var id := streams[key];
      streams := streams - {key};
      if key.model !in backend.engines { return Err(BackendFailure("finish")); }
      var reply := Send(Finish(key.model, id));
      result := if reply.Some? then Ok(reply.value) else Err(BackendFailure("finish"));
    }

    method CancelStream(key: Key) returns (result: Result<Transcript, Failure>)
      modifies this
      ensures Answer(Snapshot(), result) == CancelStep(backend, old(Snapshot()), key)
    {
      if key !in streams { return Err(NotStarted(key)); }
      var id := streams[key];
      streams := streams - {key};
      if key.model !in backend.engines { return Err(BackendFailure("cancel")); }
      trace := trace + [Event(Cancel(key.model, id), true)];
      result := Ok("");
    }

    /** Cancels the given streams in an order of the map's own choosing, which is returned. */
    method CancelKeys(keys: set<Key>) returns (ghost order: seq<Key>)
      modifies this
      ensures Lists(order, keys) && Snapshot() == CancelAll(backend, old(Snapshot()), order)
    {
      var rest := keys;
      order := [];
      while rest != {}
        invariant rest <= keys && Lists(order, keys - rest)
        invariant Snapshot() == CancelAll(backend, old(Snapshot()), order)
        decreases |rest|
      {
        var key :| key in rest;
        ghost var before := Snapshot();
        if key in streams {
          var id := streams[key];
          streams := streams - {key};
          if key.model in backend.engines {
            trace := trace + [Event(Cancel(key.model, id), true)];
          }
        }
        CancelOneMore(backend, old(Snapshot()), order, key);
        assert Snapshot() == if key in before.streams then Cancelled(backend, before, key) else before;
        order := order + [key];
        rest := rest - {key};
      }
      assert keys - rest == keys;
    }

    method ResetStreamingSessionsForSource(source: Source) returns (ghost order: seq<Key>)
      modifies this
      ensures Lists(order, KeysOf(old(Snapshot()), source))
      ensures Snapshot() == CancelAll(backend, old(Snapshot()), order)
    {
      order := CancelKeys(set key | key in streams && key.source == source);
    }

    method ResetStreamingSessions() returns (ghost order: seq<Key>)
      modifies this
      ensures Lists(order, old(streams).Keys)
      ensures Snapshot() == CancelAll(backend, old(Snapshot()), order)
    {
      order := CancelKeys(streams.Keys);
    }

    method Execute(r: Request) returns (result: Result<Transcript, Failure>, ghost order: seq<Key>)
      modifies this
      ensures Lists(order, KeysOf(old(Snapshot()), r.key.source))
      ensures Answer(Snapshot(), result) == ExecuteStep(backend, old(Snapshot()), r, order)
    {
      if r.key.model in backend.nemotron && r.interimDisplay && r.chunkReached {
        order := SomeOrder(KeysOf(Snapshot(), r.key.source));
        result := ExecuteStreaming(r);
        return;
      }
      order := ResetStreamingSessionsForSource(r.key.source);
      if r.key.model in backend.nemotron { return Err(InterimOnly), order; }
      if r.key.model !in backend.engines { return Err(BackendFailure("recognize")), order; }
      var reply := Send(Recognize(r.key.model, r.audio));
      result := if reply.Some? then Ok(reply.value) else Err(BackendFailure("recognize"));
    }

    method ExecuteStreaming(r: Request) returns (result: Result<Transcript, Failure>)
      modifies this
      ensures Answer(Snapshot(), result) == StreamingStep(backend, old(Snapshot()), r)
    {
      if r.key !in streams {
        result := StartStream(r.key);
        if result.Err? { return; }
      }
      result := PushStream(r.key, r.audio);
      if result.Err? {
        var _ := CancelStream(r.key);
      }
    }
  }

  lemma {:induction false} CancelOneMore(b: Backend, s: State, order: seq<Key>, key: Key)
    ensures var t := CancelAll(b, s, order);
      CancelAll(b, s, order + [key]) == if key in t.streams then Cancelled(b, t, key) else t
    decreases order
  {
    if order != [] {
      assert (order + [key])[1..] == order[1..] + [key];
      CancelOneMore(b, if order[0] in s.streams then Cancelled(b, s, order[0]) else s, order[1..], key);
    }
  }

  lemma {:induction false} SomeOrder(keys: set<Key>) returns (order: seq<Key>)
    ensures Lists(order, keys)
    decreases |keys|
  {
    if keys == {} {
      order := [];
    } else {
      var key :| key in keys;
      var rest := SomeOrder(keys - {key});
      order := [key] + rest;
    }
  }

  // ---------- The protocol the models see ----------

  datatype Handle = Handle(model: Model, id: SessionId)

  predicate Opens(e: Event, h: Handle) {
    e.call.Start? && e.ok && Handle(e.call.model, e.call.id) == h
  }

  predicate Closes(e: Event, h: Handle) {
    (e.call.Finish? || e.call.Cancel?) && Handle(e.call.model, e.call.id) == h
  }

  predicate Uses(e: Event, h: Handle) {
    (e.call.Push? || e.call.Finish? || e.call.Cancel?) && Handle(e.call.model, e.call.id) == h
  }

  /** The sessions a model holds after the calls: opened, and neither finished nor cancelled since. */
  function Live(trace: seq<Event>): set<Handle> {
    if trace == [] then {} else After(Live(trace[..|trace| - 1]), trace[|trace| - 1])
  }

  function After(live: set<Handle>, e: Event): set<Handle> {
    match e.call
    case Start(model, id) => if e.ok then live + {Handle(model, id)} else live
    case Finish(model, id) => live - {Handle(model, id)}
    case Cancel(model, id) => live - {Handle(model, id)}
    case _ => live
  }

  /** No session is opened while it is live, and only live sessions are pushed to, finished or cancelled. */
  predicate Obeys(trace: seq<Event>) {
    trace != [] ==>
      var front, e := trace[..|trace| - 1], trace[|trace| - 1];
      Obeys(front) && Admits(Live(front), e)
  }

  predicate Admits(live: set<Handle>, e: Event) {
    match e.call
    case Start(model, id) => e.ok ==> Handle(model, id) !in live
    case Push(model, id, _) => Handle(model, id) in live
    case Finish(model, id) => Handle(model, id) in live
    case Cancel(model, id) => Handle(model, id) in live
    case Recognize(_, _) => true
  }

  ghost predicate OpenedAt(trace: seq<Event>, h: Handle, i: nat) {
    i < |trace| && Opens(trace[i], h) && forall k | i < k < |trace| :: !Closes(trace[k], h)
  }

  /** Live is what it says: some opening call that nothing closed after it. */
  lemma {:induction false} LiveMeans(trace: seq<Event>, h: Handle)
    ensures h in Live(trace) <==> exists i :: OpenedAt(trace, h, i)
  {
    if trace != [] {
      var n := |trace| - 1;
      var front := trace[..n];
      LiveMeans(front, h);
      if h in Live(trace) {
        if Opens(trace[n], h) {
          assert OpenedAt(trace, h, n);
        } else {
          var i: nat :| OpenedAt(front, h, i);
          assert !Closes(trace[n], h);
          forall k | i < k < |trace| ensures !Closes(trace[k], h) {
            if k < n { assert trace[k] == front[k]; }
          }
          assert OpenedAt(trace, h, i);
        }
      }
      if i: nat :| OpenedAt(trace, h, i) {
        if i < n {
          forall k | i < k < n ensures !Closes(front[k], h) { assert front[k] == trace[k]; }
          assert OpenedAt(front, h, i);
          assert !Closes(trace[n], h);
        }
      }
    }
  }

  lemma {:induction false} ObeysPrefix(trace: seq<Event>, n: nat)
    requires Obeys(trace) && n <= |trace|
    ensures Obeys(trace[..n])
    decreases |trace|
  {
    if n == |trace| {
      assert trace[..n] == trace;
    } else {
      assert trace[..|trace| - 1][..n] == trace[..n];
      ObeysPrefix(trace[..|trace| - 1], n);
    }
  }

  /**
   * What the protocol means for one session: between a call that uses it and the successful start before it lies no
   * finish and no cancel, and two successful starts have a finish or a cancel between them.
   */
  lemma SessionShape(trace: seq<Event>, h: Handle, j: nat)
    requires Obeys(trace) && j < |trace|
    ensures Uses(trace[j], h) ==> exists i :: OpenedAt(trace[..j], h, i)
    ensures Opens(trace[j], h) ==> forall i | 0 <= i < j && Opens(trace[i], h) :: ClosedBetween(trace, h, i, j)
  {
    ObeysPrefix(trace, j + 1);
    assert trace[..j + 1][..j] == trace[..j];
    LiveMeans(trace[..j], h);
    if Opens(trace[j], h) {
      forall i | 0 <= i < j && Opens(trace[i], h) ensures ClosedBetween(trace, h, i, j) {
        assert !OpenedAt(trace[..j], h, i);
        var k :| i < k < j && Closes(trace[..j][k], h);
        assert Closes(trace[k], h);
      }
    }
  }

  ghost predicate ClosedBetween(trace: seq<Event>, h: Handle, i: nat, j: nat) {
    exists k :: i < k < j && k < |trace| && Closes(trace[k], h)
  }

  // ---------- What every step keeps ----------

  /** No other stream of the same model holds the id that a start of `key` would allocate. */
  predicate Apart(s: State, key: Key) {
    forall other | other in s.streams && other.model == key.model :: s.streams[other] != Allocated(s, key)
  }

  ghost predicate Matches(s: State) {
    && (forall h :: h in Live(s.trace) <==> exists key :: key in s.streams && Handle(key.model, s.streams[key]) == h)
    && (forall k, l | k in s.streams && l in s.streams && k.model == l.model && s.streams[k] == s.streams[l] :: k == l)
  }

  ghost predicate Invariant(b: Backend, s: State) {
    Sound(b, s) && (Obeys(s.trace) ==> Matches(s))
  }

  /** Streams live on registered models, under the ids their sources are given. */
  ghost predicate Sound(b: Backend, s: State) {
    && (forall key | key in s.streams :: key.model in b.engines)
    && 1 <= s.next <= MAX
    && (forall key | key in s.streams && IsLegacy(key) :: s.streams[key] == SessionId(key.turn, key.segment))
    && (forall key | key in s.streams && !IsLegacy(key) ::
          var id := s.streams[key]; id.item.None? && 1 <= id.scope <= s.next && (id.scope == s.next ==> s.next == MAX))
    && (forall k, l | k in s.streams && l in s.streams && !IsLegacy(k) && !IsLegacy(l) && k != l ::
          s.streams[k] == s.streams[l] ==> s.streams[k].scope == MAX)
  }

  lemma TraceSnoc(trace: seq<Event>, e: Event)
    ensures Obeys(trace + [e]) <==> Obeys(trace) && Admits(Live(trace), e)
    ensures Live(trace + [e]) == After(Live(trace), e)
  {
    assert (trace + [e])[..|trace|] == trace;
  }

  /** The start reaches the model, and the model accepts it. */
  predicate Accepted(b: Backend, s: State, key: Key) {
    key !in s.streams && key.model in b.engines && b.reply(s.trace, Start(key.model, Allocated(s, key))).Some?
  }

  lemma StartKeeps(b: Backend, s: State, key: Key)
    requires Invariant(b, s)
    ensures var t := StartStep(b, s, key).state;
      && Invariant(b, t)
      && (Obeys(t.trace) <==> Obeys(s.trace) && (Accepted(b, s, key) ==> Apart(s, key)))
      && (StartStep(b, s, key).result.Ok? <==> Accepted(b, s, key))
      && (Accepted(b, s, key) ==> key in t.streams)
  {
    hide Obeys, Live, Matches, Sound, Apart;
    StartSound(b, s, key);
    var id := Allocated(s, key);
    if key !in s.streams && key.model in b.engines {
      var e := Event(Start(key.model, id), b.reply(s.trace, Start(key.model, id)).Some?);
      TraceSnoc(s.trace, e);
      var t := StartStep(b, s, key).state;
      assert t.trace == s.trace + [e];
      if Obeys(s.trace) {
        ApartMeans(s, key);
        if e.ok && Apart(s, key) {
          MatchesStart(s, key, t);
        } else if !e.ok {
          MatchesSame(s, t);
        }
      }
    } else {
      MatchesSame(s, StartStep(b, s, key).state);
    }
  }

  lemma {:induction false} SoundCounted(b: Backend, s: State, key: Key, t: State)
    requires Sound(b, s) && t.streams == s.streams && t.next == Counted(s, key).next
    ensures Sound(b, t)
  {}

  lemma {:induction false} SoundAdded(b: Backend, s: State, key: Key, t: State)
    requires Sound(b, s) && key.model in b.engines
    requires t.streams == s.streams[key := Allocated(s, key)] && t.next == Counted(s, key).next
    ensures Sound(b, t)
  {
    forall k, l | k in t.streams && l in t.streams && !IsLegacy(k) && !IsLegacy(l) && k != l
        && t.streams[k] == t.streams[l]
      ensures t.streams[k].scope == MAX
    {
      if k != key && l != key { assert s.streams[k] == s.streams[l]; }
    }
  }

  lemma {:induction false} StartSound(b: Backend, s: State, key: Key)
    requires Sound(b, s)
    ensures Sound(b, StartStep(b, s, key).state)
  {
    hide Sound;
    var t := StartStep(b, s, key).state;
    if Accepted(b, s, key) {
      SoundAdded(b, s, key, t);
    } else if key !in s.streams {
      SoundCounted(b, s, key, t);
    }
  }

  lemma ApartMeans(s: State, key: Key)
    requires Matches(s)
    ensures Apart(s, key) <==> Handle(key.model, Allocated(s, key)) !in Live(s.trace)
  {
    hide Live;
    if Handle(key.model, Allocated(s, key)) in Live(s.trace) {
      var other :| other in s.streams && Handle(other.model, s.streams[other]) == Handle(key.model, Allocated(s, key));
      assert !Apart(s, key);
    }
  }

  lemma MatchesSame(s: State, t: State)
    requires t.streams == s.streams && Live(t.trace) == Live(s.trace)
    ensures Matches(s) ==> Matches(t)
  {
    hide Live;
  }

  lemma MatchesStart(s: State, key: Key, t: State)
    requires Matches(s) && Apart(s, key) && key !in s.streams
    requires t.streams == s.streams[key := Allocated(s, key)]
    requires Live(t.trace) == Live(s.trace) + {Handle(key.model, Allocated(s, key))}
    ensures Matches(t)
  {
    hide Live;
    forall h ensures h in Live(t.trace) <==> exists k :: k in t.streams && Handle(k.model, t.streams[k]) == h {
      if h in Live(t.trace) {
        if h in Live(s.trace) {
          var k :| k in s.streams && Handle(k.model, s.streams[k]) == h;
          assert k in t.streams && t.streams[k] == s.streams[k];
        } else {
          assert key in t.streams;
        }
      }
      if k :| k in t.streams && Handle(k.model, t.streams[k]) == h {
        if k != key { assert k in s.streams; }
      }
    }
  }

  /** Forgetting a stream and closing its session. */
  lemma MatchesClose(s: State, key: Key, t: State)
    requires Matches(s) && key in s.streams && t.streams == s.streams - {key}
    requires Live(t.trace) == Live(s.trace) - {Handle(key.model, s.streams[key])}
    ensures Matches(t)
  {
    hide Live;
    forall h ensures h in Live(t.trace) <==> exists k :: k in t.streams && Handle(k.model, t.streams[k]) == h {
      if h in Live(t.trace) {
        var k :| k in s.streams && Handle(k.model, s.streams[k]) == h;
        assert k in t.streams;
      }
      if k :| k in t.streams && Handle(k.model, t.streams[k]) == h {
        assert k in s.streams;
      }
    }
  }

  lemma HeldIsLive(s: State, key: Key)
    requires Matches(s) && key in s.streams
    ensures Handle(key.model, s.streams[key]) in Live(s.trace)
  {
    hide Live;
  }

  lemma PushKeeps(b: Backend, s: State, key: Key, audio: Audio)
    requires Invariant(b, s)
    ensures var t := PushStep(b, s, key, audio).state;
      Invariant(b, t) && (Obeys(t.trace) <==> Obeys(s.trace)) && t.streams == s.streams && t.next == s.next
  {
    hide Obeys, Live, Matches;
    var t := PushStep(b, s, key, audio).state;
    if key in s.streams {
      var call := Push(key.model, s.streams[key], audio);
      TraceSnoc(s.trace, Event(call, b.reply(s.trace, call).Some?));
      if Obeys(s.trace) { HeldIsLive(s, key); }
      MatchesSame(s, t);
    }
  }

  lemma FinishKeeps(b: Backend, s: State, key: Key)
    requires Invariant(b, s)
    ensures var t := FinishStep(b, s, key).state; Invariant(b, t) && (Obeys(t.trace) <==> Obeys(s.trace))
  {
    hide Obeys, Live, Matches;
    if key in s.streams {
      var call := Finish(key.model, s.streams[key]);
      TraceSnoc(s.trace, Event(call, b.reply(s.trace, call).Some?));
      if Obeys(s.trace) {
        HeldIsLive(s, key);
        MatchesClose(s, key, FinishStep(b, s, key).state);
      }
    }
  }

  lemma CancelledKeeps(b: Backend, s: State, key: Key)
    requires Invariant(b, s) && key in s.streams
    ensures var t := Cancelled(b, s, key); Invariant(b, t) && (Obeys(t.trace) <==> Obeys(s.trace))
  {
    hide Obeys, Live, Matches;
    TraceSnoc(s.trace, Event(Cancel(key.model, s.streams[key]), true));
    if Obeys(s.trace) {
      HeldIsLive(s, key);
      MatchesClose(s, key, Cancelled(b, s, key));
    }
  }

  /** The cancels sent for the listed streams, one each, in that order. */
  function Cancels(streams: map<Key, SessionId>, order: seq<Key>): seq<Event>
    requires forall key | key in order :: key in streams
  {
    if order == [] then [] else
    [Event(Cancel(order[0].model, streams[order[0]]), true)] + Cancels(streams, order[1..])
  }

  /** Cancelling a list of streams keeps the invariant, and forgets exactly them. */
  lemma {:induction false} CancelAllKeeps(b: Backend, s: State, order: seq<Key>, keys: set<Key>)
    requires Invariant(b, s) && Lists(order, keys) && keys <= s.streams.Keys
    ensures var t := CancelAll(b, s, order);
      Invariant(b, t) && (Obeys(t.trace) <==> Obeys(s.trace)) && t.streams == s.streams - keys && t.next == s.next
    decreases order
  {
    hide Obeys, Invariant, Lists;
    if order == [] {
      assert keys == {} by { ListsNothing(keys); }
      assert s.streams - keys == s.streams;
    } else {
      var key, rest := order[0], order[1..];
      assert key in keys by { ListsFirst(order, keys); }
      CancelledKeeps(b, s, key);
      ListsRest(order, keys);
      CancelAllKeeps(b, Cancelled(b, s, key), rest, keys - {key});
      assert s.streams - keys == (s.streams - {key}) - (keys - {key});
    }
  }

  /** ... and the models are sent exactly one cancel for each. */
  lemma {:induction false} CancelAllSends(b: Backend, s: State, order: seq<Key>, keys: set<Key>)
    requires Lists(order, keys) && keys <= s.streams.Keys && forall key | key in keys :: key.model in b.engines
    ensures forall key | key in order :: key in s.streams
    ensures CancelAll(b, s, order).trace == s.trace + Cancels(s.streams, order)
    decreases order
  {
    hide Lists;
    ListsMembers(order, keys);
    if order != [] {
      var key, rest := order[0], order[1..];
      var u := Cancelled(b, s, key);
      ListsRest(order, keys);
      CancelAllSends(b, u, rest, keys - {key});
      SameCancels(s.streams, u.streams, rest);
      assert CancelAll(b, s, order).trace == s.trace + Cancels(s.streams, order);
    }
  }

  lemma ListsMembers(order: seq<Key>, keys: set<Key>)
    requires Lists(order, keys)
    ensures forall key | key in order :: key in keys
  {}

  lemma ListsNothing(keys: set<Key>)
    requires Lists([], keys)
    ensures keys == {}
  {
    forall key ensures key !in keys {}
  }

  lemma ListsFirst(order: seq<Key>, keys: set<Key>)
    requires Lists(order, keys) && order != []
    ensures order[0] in keys
  {
    assert order[0] in order;
  }

  lemma ListsRest(order: seq<Key>, keys: set<Key>)
    requires Lists(order, keys) && order != []
    ensures Lists(order[1..], keys - {order[0]})
  {
    var rest := order[1..];
    forall key ensures key in rest <==> key in keys - {order[0]} {
      if key in rest {
        var i :| 0 <= i < |rest| && rest[i] == key;
        assert order[i + 1] == key;
      }
      if key in keys - {order[0]} {
        var i :| 0 <= i < |order| && order[i] == key;
        assert rest[i - 1] == key;
      }
    }
  }

  lemma {:induction false} SameCancels(a: map<Key, SessionId>, b: map<Key, SessionId>, order: seq<Key>)
    requires forall key | key in order :: key in a && key in b && a[key] == b[key]
    ensures Cancels(a, order) == Cancels(b, order)
    decreases order
  {
    if order != [] { SameCancels(a, b, order[1..]); }
  }

  lemma StreamingKeeps(b: Backend, s: State, r: Request)
    requires Invariant(b, s)
    ensures var t := StreamingStep(b, s, r).state;
      && Invariant(b, t)
      && (Obeys(t.trace) <==> Obeys(s.trace) && (Accepted(b, s, r.key) ==> Apart(s, r.key)))
  {
    hide Obeys, Invariant, Apart, StartStep, PushStep, CancelStep;
    StartKeeps(b, s, r.key);
    var begun := if r.key in s.streams then Answer(s, Ok("")) else StartStep(b, s, r.key);
    PushKeeps(b, begun.state, r.key, r.audio);
    CancelKeeps(b, PushStep(b, begun.state, r.key, r.audio).state, r.key);
    assert r.key in s.streams ==> !Accepted(b, s, r.key);
  }

  lemma CancelKeeps(b: Backend, s: State, key: Key)
    requires Invariant(b, s)
    ensures var t := CancelStep(b, s, key).state; Invariant(b, t) && (Obeys(t.trace) <==> Obeys(s.trace))
  {
    hide Obeys, Invariant;
    if key in s.streams { CancelledKeeps(b, s, key); }
  }

  lemma OfflineKeeps(b: Backend, s: State, r: Request)
    requires Invariant(b, s)
    ensures var t := OfflineStep(b, s, r).state;
      Invariant(b, t) && (Obeys(t.trace) <==> Obeys(s.trace)) && t.streams == s.streams
  {
    hide Obeys, Live, Matches;
    var call := Recognize(r.key.model, r.audio);
    TraceSnoc(s.trace, Event(call, b.reply(s.trace, call).Some?));
    MatchesSame(s, OfflineStep(b, s, r).state);
  }

  // ---------- Whole runs ----------

  datatype Op =
    | StartOp(key: Key)
    | PushOp(key: Key, audio: Audio)
    | FinishOp(key: Key)
    | CancelOp(key: Key)
    | ResetSourceOp(source: Source, order: seq<Key>)
    | ResetAllOp(order: seq<Key>)
    | ExecuteOp(request: Request, order: seq<Key>)

  function Apply(b: Backend, s: State, op: Op): State {
    match op
    case StartOp(key) => StartStep(b, s, key).state
    case PushOp(key, audio) => PushStep(b, s, key, audio).state
    case FinishOp(key) => FinishStep(b, s, key).state
    case CancelOp(key) => CancelStep(b, s, key).state
    case ResetSourceOp(_, order) => CancelAll(b, s, order)
    case ResetAllOp(order) => CancelAll(b, s, order)
    case ExecuteOp(r, order) => ExecuteStep(b, s, r, order).state
  }

  /** The order that goes with a reset is one the map could really list its streams in. */
  ghost predicate Possible(b: Backend, s: State, op: Op) {
    match op
    case ResetSourceOp(source, order) => Lists(order, KeysOf(s, source))
    case ResetAllOp(order) => Lists(order, s.streams.Keys)
    case ExecuteOp(r, order) => Lists(order, KeysOf(s, r.key.source))
    case _ => true
  }

  /** The key that the operation opens a session for, when it reaches the model and the model accepts. */
  function Begins(b: Backend, s: State, op: Op): Option<Key> {
    match op
    case StartOp(key) => if Accepted(b, s, key) then Some(key) else None
    case ExecuteOp(r, _) => if IsStreaming(b, r) && Accepted(b, s, r.key) then Some(r.key) else None
    case _ => None
  }

  /** The operation does not open a session under an id that another stream of the model holds. */
  predicate KeepsApart(b: Backend, s: State, op: Op) {
    Begins(b, s, op).Some? ==> Apart(s, Begins(b, s, op).value)
  }

  lemma StepKeeps(b: Backend, s: State, op: Op)
    requires Invariant(b, s) && Possible(b, s, op)
    ensures Invariant(b, Apply(b, s, op))
    ensures Obeys(Apply(b, s, op).trace) <==> Obeys(s.trace) && KeepsApart(b, s, op)
  {
    hide Obeys, Invariant, Apart, Accepted, StartStep, PushStep, FinishStep, CancelStep, StreamingStep, OfflineStep, Lists;
    match op
    case StartOp(key) => StartKeeps(b, s, key);
    case PushOp(key, audio) => PushKeeps(b, s, key, audio);
    case FinishOp(key) => FinishKeeps(b, s, key);
    case CancelOp(key) => CancelKeeps(b, s, key);
    case ResetSourceOp(source, order) => CancelAllKeeps(b, s, order, KeysOf(s, source));
    case ResetAllOp(order) => CancelAllKeeps(b, s, order, s.streams.Keys);
    case ExecuteOp(r, order) =>
      if IsStreaming(b, r) {
        StreamingKeeps(b, s, r);
      } else {
        CancelAllKeeps(b, s, order, KeysOf(s, r.key.source));
        OfflineKeeps(b, CancelAll(b, s, order), r);
      }
  }

  function Run(b: Backend, ops: seq<Op>): State {
    if ops == [] then State(map[], 1, []) else Apply(b, Run(b, ops[..|ops| - 1]), ops[|ops| - 1])
  }

  ghost predicate PossibleRun(b: Backend, ops: seq<Op>) {
    forall i | 0 <= i < |ops| :: Possible(b, Run(b, ops[..i]), ops[i])
  }

  ghost predicate KeepsApartThroughout(b: Backend, ops: seq<Op>) {
    forall i | 0 <= i < |ops| :: KeepsApart(b, Run(b, ops[..i]), ops[i])
  }

  /**
   * Over every run, whatever the models answer, the calls they receive obey the protocol exactly when no
   * operation opened a session under an id another stream of that model was holding.
   */
  lemma {:induction false} RunObeys(b: Backend, ops: seq<Op>)
    requires PossibleRun(b, ops)
    ensures Invariant(b, Run(b, ops))
    ensures Obeys(Run(b, ops).trace) <==> KeepsApartThroughout(b, ops)
  {
    hide Obeys, Apply, Possible, KeepsApart;
    if ops == [] {
      RunOfNothing(b);
    } else {
      var n := |ops| - 1;
      var front := ops[..n];
      forall i | 0 <= i <= n ensures front[..i] == ops[..i] {}
      assert forall i | 0 <= i < n :: front[i] == ops[i];
      RunObeys(b, front);
      StepKeeps(b, Run(b, front), ops[n]);
    }
  }

  lemma RunOfNothing(b: Backend)
    ensures Invariant(b, State(map[], 1, [])) && Obeys([])
  {}

  // ---------- Resets and the end ----------

  /** Resetting a source cancels each of its streams once, in some order, and leaves every other stream alone. */
  lemma SourceResetIsExact(b: Backend, s: State, source: Source, order: seq<Key>)
    requires Invariant(b, s) && Lists(order, KeysOf(s, source))
    ensures var t := CancelAll(b, s, order);
      && (forall key :: key in t.streams <==> key in s.streams && key.source != source)
      && (forall key | key in t.streams :: t.streams[key] == s.streams[key])
    ensures forall key | key in order :: key in s.streams
    ensures CancelAll(b, s, order).trace == s.trace + Cancels(s.streams, order)
  {
    hide Lists, Obeys, CancelAll;
    CancelAllKeeps(b, s, order, KeysOf(s, source));
    CancelAllSends(b, s, order, KeysOf(s, source));
  }

  /** Dropping the runtime leaves no session open on any model. */
  lemma DropClosesEverything(b: Backend, ops: seq<Op>, order: seq<Key>)
    requires PossibleRun(b, ops) && KeepsApartThroughout(b, ops) && Lists(order, Run(b, ops).streams.Keys)
    ensures var t := CancelAll(b, Run(b, ops), order); Obeys(t.trace) && t.streams == map[] && Live(t.trace) == {}
  {
    hide Obeys, CancelAll, Lists, Live;
    var s := Run(b, ops);
    RunObeys(b, ops);
    CancelAllKeeps(b, s, order, s.streams.Keys);
    var t := CancelAll(b, s, order);
    assert t.streams == map[];
    forall h ensures h !in Live(t.trace) {}
  }

  // ---------- When ids stay apart ----------

  function KeyOf(op: Op): Option<Key> {
    match op
    case StartOp(key) => Some(key)
    case PushOp(key, _) => Some(key)
    case FinishOp(key) => Some(key)
    case CancelOp(key) => Some(key)
    case ExecuteOp(r, _) => Some(r.key)
    case _ => None
  }

  /** Which keys and ids a step can add: at most the key it was given, under the id allocated for it. */
  lemma StepAdds(b: Backend, s: State, op: Op)
    requires Invariant(b, s) && Possible(b, s, op)
    ensures var t := Apply(b, s, op);
      && s.next <= t.next <= s.next + 1
      && (forall key | key in t.streams :: key in s.streams || Some(key) == KeyOf(op))
  {
    hide Obeys, Lists, Matches, Live;
    match op
    case ResetSourceOp(source, order) => CancelAllKeeps(b, s, order, KeysOf(s, source));
    case ResetAllOp(order) => CancelAllKeeps(b, s, order, s.streams.Keys);
    case ExecuteOp(r, order) => if !IsStreaming(b, r) { CancelAllKeeps(b, s, order, KeysOf(s, r.key.source)); }
    case _ =>
  }

  /** Every key in the run, and hence every stream, comes from operations on keys with the property. */
  ghost predicate AllKeys(ops: seq<Op>, p: Key -> bool) {
    forall i | 0 <= i < |ops| :: KeyOf(ops[i]).Some? ==> p(KeyOf(ops[i]).value)
  }

  lemma {:induction false} RunAdds(b: Backend, ops: seq<Op>, p: Key -> bool)
    requires PossibleRun(b, ops) && AllKeys(ops, p)
    ensures Run(b, ops).next <= 1 + |ops| && forall key | key in Run(b, ops).streams :: p(key)
  {
    hide Apply, Possible;
    if ops != [] {
      var n := |ops| - 1;
      var front := ops[..n];
      assert forall i | 0 <= i <= n :: front[..i] == ops[..i];
      assert forall i | 0 <= i < n :: front[i] == ops[i];
      RunAdds(b, front, p);
      RunObeys(b, front);
      StepAdds(b, Run(b, front), ops[n]);
    }
  }

  lemma PossiblePrefix(b: Backend, ops: seq<Op>, n: nat)
    requires PossibleRun(b, ops) && n <= |ops|
    ensures PossibleRun(b, ops[..n])
  {
    hide Possible, Run;
    forall i | 0 <= i < n ensures Possible(b, Run(b, ops[..n][..i]), ops[..n][i]) {
      assert ops[..n][..i] == ops[..i];
    }
  }

  lemma {:induction false} NextGrows(b: Backend, ops: seq<Op>, i: nat)
    requires PossibleRun(b, ops) && i <= |ops|
    ensures Run(b, ops[..i]).next <= Run(b, ops).next
    decreases |ops|
  {
    hide Apply, Possible, Invariant, Obeys;
    if i == |ops| {
      assert ops[..i] == ops;
    } else {
      var n := |ops| - 1;
      PossiblePrefix(b, ops, n);
      assert ops[..n][..i] == ops[..i];
      NextGrows(b, ops[..n], i);
      RunObeys(b, ops[..n]);
      StepAdds(b, Run(b, ops[..n]), ops[n]);
    }
  }

  /**
   * Without legacy sources, and while the 64-bit counter is not exhausted, the running number keeps ids apart: the
   * models see an orderly protocol, and no two streams share an id.
   */
  lemma NumberedSourcesObey(b: Backend, ops: seq<Op>)
    requires PossibleRun(b, ops) && AllKeys(ops, key => !IsLegacy(key)) && Run(b, ops).next < MAX
    ensures Obeys(Run(b, ops).trace)
    ensures var streams := Run(b, ops).streams;
      forall k, l | k in streams && l in streams && k != l :: streams[k] != streams[l]
  {
    hide Obeys, Apply, Possible, Run;
    forall i | 0 <= i < |ops| ensures KeepsApart(b, Run(b, ops[..i]), ops[i]) {
      NumberedStep(b, ops, i);
    }
    RunObeys(b, ops);
    RunAdds(b, ops, key => !IsLegacy(key));
  }

  lemma NumberedStep(b: Backend, ops: seq<Op>, i: nat)
    requires PossibleRun(b, ops) && AllKeys(ops, key => !IsLegacy(key)) && i < |ops| && Run(b, ops).next < MAX
    ensures KeepsApart(b, Run(b, ops[..i]), ops[i])
  {
    hide Obeys, Apply, Possible, Run;
    PossiblePrefix(b, ops, i);
    RunObeys(b, ops[..i]);
    RunAdds(b, ops[..i], key => !IsLegacy(key));
    NextGrows(b, ops, i);
    assert KeyOf(ops[i]).Some? ==> !IsLegacy(KeyOf(ops[i]).value);
  }

  /** A legacy source alone, over one turn session, obeys too: its turn and segment tell its streams apart. */
  lemma OneLegacySourceObeys(b: Backend, ops: seq<Op>, turnSession: nat)
    requires PossibleRun(b, ops) && AllKeys(ops, (key: Key) => key.source == Source(turnSession, LEGACY))
    ensures Obeys(Run(b, ops).trace)
  {
    hide Obeys, Apply, Possible, Run;
    var p := (key: Key) => key.source == Source(turnSession, LEGACY);
    forall i | 0 <= i < |ops| ensures KeepsApart(b, Run(b, ops[..i]), ops[i]) {
      PossiblePrefix(b, ops, i);
      RunObeys(b, ops[..i]);
      RunAdds(b, ops[..i], p);
      assert KeyOf(ops[i]).Some? ==> p(KeyOf(ops[i]).value);
    }
    RunObeys(b, ops);
  }

  /** Sources may be mixed: legacy keys of one turn session, each with a segment, and any number of numbered sources. */
  predicate Mixes(key: Key, turnSession: nat) {
    IsLegacy(key) ==> key.source == Source(turnSession, LEGACY) && key.segment.Some?
  }

  /**
   * A run that mixes sources obeys as well, and no two streams of a model share an id, on a condition on its keys alone:
   * one legacy turn session, and a segment in every legacy key. The running number never has a segment.
   */
  lemma MixedSourcesObey(b: Backend, ops: seq<Op>, turnSession: nat)
    requires PossibleRun(b, ops) && AllKeys(ops, key => Mixes(key, turnSession)) && Run(b, ops).next < MAX
    ensures Obeys(Run(b, ops).trace)
    ensures var streams := Run(b, ops).streams;
      forall k, l | k in streams && l in streams && k != l && k.model == l.model :: streams[k] != streams[l]
  {
    hide Obeys, Apply, Possible, Run, Live, IsLegacy;
    var p := (key: Key) => Mixes(key, turnSession);
    forall i | 0 <= i < |ops| ensures KeepsApart(b, Run(b, ops[..i]), ops[i]) {
      PossiblePrefix(b, ops, i);
      RunObeys(b, ops[..i]);
      RunAdds(b, ops[..i], p);
      NextGrows(b, ops, i);
      assert KeyOf(ops[i]).Some? ==> p(KeyOf(ops[i]).value);
      MixedStep(b, Run(b, ops[..i]), ops[i], turnSession);
    }
    RunObeys(b, ops);
    RunAdds(b, ops, p);
  }

  lemma MixedStep(b: Backend, s: State, op: Op, turnSession: nat)
    requires Invariant(b, s) && s.next < MAX
    requires forall key | key in s.streams :: Mixes(key, turnSession)
    requires KeyOf(op).Some? ==> Mixes(KeyOf(op).value, turnSession)
    ensures KeepsApart(b, s, op)
  {
    hide Obeys, Live;
  }

  /** Without a segment a legacy key does collide with a numbered session, namely the one its turn is the number of. */
  lemma LegacyWithoutSegmentCollides(b: Backend, numbered: Key, turnSession: nat)
    requires !IsLegacy(numbered) && numbered.model in b.engines && forall trace, call :: b.reply(trace, call).Some?
    ensures !Obeys(Run(b, [StartOp(numbered), StartOp(Key(numbered.model, 1, None, Source(turnSession, LEGACY)))]).trace)
  {
    var legacy := Key(numbered.model, 1, None, Source(turnSession, LEGACY));
    var ops := [StartOp(numbered), StartOp(legacy)];
    assert ops[..1] == [StartOp(numbered)] && ops[..1][..0] == [];
    var s := Run(b, ops[..1]);
    assert s == Apply(b, Run(b, []), StartOp(numbered));
    assert s.streams[numbered] == SessionId(1, None);
    assert !Apart(s, legacy);
    assert !KeepsApart(b, s, ops[1]);
    RunObeys(b, ops);
  }

  /**
   * But two legacy turn sessions do not keep apart: the same turn and segment in both is one session to the
   * model, and if it accepts both starts the protocol is broken.
   */
  lemma LegacyTurnSessionsCollide(b: Backend, model: Model, turn: nat, segment: Option<nat>)
    requires model in b.engines && forall trace, call :: b.reply(trace, call).Some?
    ensures var one, two := Key(model, turn, segment, Source(0, LEGACY)), Key(model, turn, segment, Source(1, LEGACY));
      !Obeys(Run(b, [StartOp(one), StartOp(two)]).trace)
  {
    var one, two := Key(model, turn, segment, Source(0, LEGACY)), Key(model, turn, segment, Source(1, LEGACY));
    var ops := [StartOp(one), StartOp(two)];
    assert ops[..1] == [StartOp(one)] && ops[..1][..0] == [];
    var s := Run(b, ops[..1]);
    assert s == Apply(b, Run(b, []), StartOp(one));
    assert s.streams[one] == SessionId(turn, segment);
    assert !Apart(s, two);
    assert !KeepsApart(b, s, ops[1]);
    RunObeys(b, ops);
  }
}
