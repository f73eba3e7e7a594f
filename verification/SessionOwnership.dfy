/**
 * Who owns the recognition session: desktop input, the streaming server and network sessions start and stop
 * concurrently, under four asynchronous locks.
 *
 * Every call is a task, a task holds lock guards, and a step lets one task take a lock it waits for, or run to its next
 * lock, await or foreign call. The outcome of foreign calls and of configuration checks is the step's `choice`.
 */
module SessionOwnership {
  import opened Wrappers

  datatype Owner = Desktop | WebSocket(sessionId: string)

  datatype Status = Idle | WaitingForClient | Listening | Draining | Stopped | Error

  datatype Running<T> = Running(owner: Owner, input: T)

  function OwnerOf<T>(active: Option<Running<T>>): Option<Owner> {
    if active.Some? then Some(active.value.owner) else None
  }

  /** The slot itself: one running input at most, handed back only to the owner that put it in. */
  class RecognitionSessionSlot<T> {
    var active: Option<Running<T>>

    constructor ()
      ensures active == None
    {
      active := None;
    }

    method Insert(owner: Owner, input: T) returns (result: Result<(), Owner>)
      modifies this
      ensures old(active).Some? ==> result == Err(old(active).value.owner) && active == old(active)
      ensures old(active).None? ==> result == Ok(()) && active == Some(Running(owner, input))
    {
      if active.Some? { return Err(active.value.owner); }
      active := Some(Running(owner, input));
      result := Ok(());
    }

    method Take(owner: Owner) returns (input: Option<T>)
      modifies this
      ensures OwnerOf(old(active)) == Some(owner) ==> input == Some(old(active).value.input) && active == None
      ensures OwnerOf(old(active)) != Some(owner) ==> input == None && active == old(active)
    {
      if OwnerOf(active) != Some(owner) { return None; }
      input := Some(active.value.input);
      active := None;
    }
  }

  // ---------- Tasks ----------

  datatype Lock = Server | Session | Config | StatusCell

  datatype Shared = Shared(server: bool, session: Option<Owner>, status: Status)

  datatype Pc =
    // Starting audio input
    | AudioConfigLock | AudioConfig
    | AudioServerLock | AudioServerCheck
    | AudioSessionLock | AudioSessionCheck
    | AudioStart | AudioInsert | AudioDropSession | AudioDropServer
    // Starting the streaming server
    | StreamServerLock | StreamServerCheck
    | StreamSessionLock | StreamSessionCheck
    | StreamStart
    // Stopping audio input
    | StopServerLock | StopServerTake
    | DrainLock | DrainSet | StopServer
    | StopSessionLock | StopSessionTake
    | StopInput
    // A network session starting and stopping
    | NetSessionLock(id: string) | NetSessionCheck(id: string)
    | NetConfigLock(id: string) | NetConfig(id: string)
    | NetStart(id: string) | NetInsert(id: string) | NetDropSession
    | EndSessionLock(id: string) | EndSessionTake(id: string)
    | EndInput
    | EndServerLock | EndServerCheck
    // Changing the configuration
    | ChangeStatusLock | ChangeStatusRead
    | ChangeConfigLock | ChangeConfig
    // Setting or reading the status as the last thing a call does, with some guards still held
    | StatusLock(next: Option<Status>, held: set<Lock>) | StatusWrite(next: Option<Status>, held: set<Lock>)
    | InsertFailed
    | Done

  /** A task with the guards it holds. */
  datatype Task = Task(pc: Pc, guards: set<Lock>)

  datatype State = State(shared: Shared, tasks: seq<Task>)

  datatype Step = Spawn(pc: Pc) | Advance(task: nat, choice: nat)

  /** The first instructions of the calls that can be made at any time. */
  predicate IsCall(pc: Pc) {
    || pc.AudioConfigLock? || pc.StopServerLock? || pc.NetSessionLock? || pc.EndSessionLock? || pc.ChangeStatusLock?
    || (pc.StatusLock? && pc.held == {})
  }

  /** The lock the next instruction waits for. */
  function Wants(pc: Pc): Option<Lock> {
    match pc
    case AudioConfigLock => Some(Config)
    case AudioServerLock => Some(Server)
    case AudioSessionLock => Some(Session)
    case StreamServerLock => Some(Server)
    case StreamSessionLock => Some(Session)
    case StopServerLock => Some(Server)
    case DrainLock => Some(StatusCell)
    case StopSessionLock => Some(Session)
    case NetSessionLock(_) => Some(Session)
    case NetConfigLock(_) => Some(Config)
    case EndSessionLock(_) => Some(Session)
    case EndServerLock => Some(Server)
    case ChangeStatusLock => Some(StatusCell)
    case ChangeConfigLock => Some(Config)
    case StatusLock(_, _) => Some(StatusCell)
    case _ => None
  }

  /** Where a task is once it has the lock it waited for. */
  function Acquired(pc: Pc): Pc
    requires Wants(pc).Some?
  {
    match pc
    case AudioConfigLock => AudioConfig
    case AudioServerLock => AudioServerCheck
    case AudioSessionLock => AudioSessionCheck
    case StreamServerLock => StreamServerCheck
    case StreamSessionLock => StreamSessionCheck
    case StopServerLock => StopServerTake
    case DrainLock => DrainSet
    case StopSessionLock => StopSessionTake
    case NetSessionLock(id) => NetSessionCheck(id)
    case NetConfigLock(id) => NetConfig(id)
    case EndSessionLock(id) => EndSessionTake(id)
    case EndServerLock => EndServerCheck
    case ChangeStatusLock => ChangeStatusRead
    case ChangeConfigLock => ChangeConfig
    case StatusLock(next, held) => StatusWrite(next, held)
  }

  /** What one instruction does: where it goes, what it leaves, and which guards it drops. */
  datatype Effect = Effect(pc: Pc, shared: Shared, drops: set<Lock>)

  function Act(pc: Pc, s: Shared, choice: nat): Effect {
    match pc
    case AudioConfig =>
      Effect(if choice == 0 then Done else if choice == 1 then StreamServerLock else AudioServerLock, s, {Config})
    case AudioServerCheck => if s.server then Effect(Done, s, {Server}) else Effect(AudioSessionLock, s, {})
    case AudioSessionCheck =>
      if s.session == Some(Desktop) then Effect(StatusLock(Some(Listening), {Server, Session}), s, {})
      else if s.session.Some? then Effect(Done, s, {Server, Session})
      else Effect(AudioStart, s, {})
    case AudioStart =>
      if choice == 0 then Effect(StatusLock(Some(Error), {Server, Session}), s, {}) else Effect(AudioInsert, s, {})
    case AudioInsert =>
      if s.session.Some? then Effect(InsertFailed, s, {Server, Session})
      else Effect(AudioDropSession, s.(session := Some(Desktop)), {})
    case AudioDropSession => Effect(AudioDropServer, s, {Session})
    case AudioDropServer => Effect(StatusLock(Some(Listening), {}), s, {Server})
    case StreamServerCheck =>
      if s.server then Effect(StatusLock(None, {Server}), s, {}) else Effect(StreamSessionLock, s, {})
    case StreamSessionCheck =>
      if s.session.Some? then Effect(Done, s, {Server, Session}) else Effect(StreamStart, s, {Session})
    case StreamStart =>
      if choice == 0 then Effect(Done, s, {Server})
      else Effect(StatusLock(Some(WaitingForClient), {Server}), s.(server := true), {})
    case StopServerTake =>
      Effect(if s.server then DrainLock else StopSessionLock, s.(server := false), {Server})
    case DrainSet => Effect(StopServer, s.(status := Draining), {StatusCell})
    case StopServer => Effect(StatusLock(Some(Stopped), {}), s, {})
    case StopSessionTake =>
      if s.session == Some(Desktop) then Effect(StopInput, s.(session := None), {Session})
      else if s.session.Some? then Effect(StatusLock(None, {}), s, {Session})
      else Effect(StatusLock(Some(Stopped), {}), s, {Session})
    case StopInput => Effect(StatusLock(Some(if choice == 0 then Error else Stopped), {}), s, {})
    case NetSessionCheck(id) => if s.session.Some? then Effect(Done, s, {Session}) else Effect(NetConfigLock(id), s, {})
    case NetConfig(id) =>
      if choice == 0 then Effect(Done, s, {Session, Config}) else Effect(NetStart(id), s, {Config})
    case NetStart(id) => if choice == 0 then Effect(Done, s, {Session}) else Effect(NetInsert(id), s, {})
    case NetInsert(id) =>
      if s.session.Some? then Effect(InsertFailed, s, {Session})
      else Effect(NetDropSession, s.(session := Some(WebSocket(id))), {})
    case NetDropSession => Effect(StatusLock(Some(Listening), {}), s, {Session})
    case EndSessionTake(id) =>
      if s.session == Some(WebSocket(id)) then Effect(EndInput, s.(session := None), {Session})
      else Effect(StatusLock(None, {}), s, {Session})
    case EndInput => Effect(EndServerLock, s, {})
    case EndServerCheck =>
      Effect(StatusLock(Some(if s.server then WaitingForClient else Stopped), {}), s, {Server})
    case ChangeStatusRead =>
      Effect(if choice == 0 then Done else ChangeConfigLock, s, {StatusCell})
    case ChangeConfig => Effect(Done, s, {Config})
    case StatusWrite(next, held) =>
      Effect(Done, if next.Some? then s.(status := next.value) else s, held + {StatusCell})
    case _ => Effect(pc, s, {})
  }

  predicate Free(s: State, lock: Lock) {
    forall i | 0 <= i < |s.tasks| :: lock !in s.tasks[i].guards
  }

  /** The task has something left to do, and nothing keeps it waiting. */
  predicate CanStep(s: State, i: nat) {
    && i < |s.tasks|
    && !s.tasks[i].pc.Done? && !s.tasks[i].pc.InsertFailed?
    && (Wants(s.tasks[i].pc).Some? ==> Free(s, Wants(s.tasks[i].pc).value))
  }

  predicate Enabled(s: State, step: Step) {
    match step
    case Spawn(pc) => IsCall(pc)
    case Advance(i, _) => CanStep(s, i)
  }

  function TaskAfter(t: Task, s: Shared, choice: nat): Task {
    if Wants(t.pc).Some? then Task(Acquired(t.pc), t.guards + {Wants(t.pc).value})
    else var e := Act(t.pc, s, choice); Task(e.pc, t.guards - e.drops)
  }

  function SharedAfter(t: Task, s: Shared, choice: nat): Shared {
    if Wants(t.pc).Some? then s else Act(t.pc, s, choice).shared
  }

  function Apply(s: State, step: Step): State
    requires Enabled(s, step)
  {
    match step
    case Spawn(pc) => s.(tasks := s.tasks + [Task(pc, {})])
    case Advance(i, choice) =>
      State(SharedAfter(s.tasks[i], s.shared, choice), s.tasks[i := TaskAfter(s.tasks[i], s.shared, choice)])
  }

  function Initial(): State {
    State(Shared(false, None, Idle), [])
  }

  /** The states a run passes through: it starts with nothing installed and takes only enabled steps. */
  ghost predicate IsRun(states: seq<State>, steps: seq<Step>) {
    && |states| == |steps| + 1 && states[0] == Initial()
    && forall k | 0 <= k < |steps| :: Enabled(states[k], steps[k]) && states[k + 1] == Apply(states[k], steps[k])
  }

  // ---------- The invariant ----------

  function Holds(pc: Pc): set<Lock> {
    match pc
    case AudioConfig => {Config}
    case AudioServerCheck => {Server}
    case AudioSessionLock => {Server}
    case AudioSessionCheck => {Server, Session}
    case AudioStart => {Server, Session}
    case AudioInsert => {Server, Session}
    case AudioDropSession => {Server, Session}
    case AudioDropServer => {Server}
    case StreamServerCheck => {Server}
    case StreamSessionLock => {Server}
    case StreamSessionCheck => {Server, Session}
    case StreamStart => {Server}
    case StopServerTake => {Server}
    case DrainSet => {StatusCell}
    case StopSessionTake => {Session}
    case NetSessionCheck(_) => {Session}
    case NetConfigLock(_) => {Session}
    case NetConfig(_) => {Session, Config}
    case NetStart(_) => {Session}
    case NetInsert(_) => {Session}
    case NetDropSession => {Session}
    case EndSessionTake(_) => {Session}
    case EndServerCheck => {Server}
    case ChangeStatusRead => {StatusCell}
    case ChangeConfig => {Config}
    case StatusLock(_, held) => held
    case StatusWrite(_, held) => held + {StatusCell}
    case _ => {}
  }

  /** What a task may rely on at its instruction, thanks to the guards it holds. */
  predicate Knows(pc: Pc, s: Shared) {
    match pc
    case AudioSessionLock => !s.server
    case AudioSessionCheck => !s.server
    case AudioStart => !s.server && s.session.None?
    case AudioInsert => !s.server && s.session.None?
    case StreamSessionLock => !s.server
    case StreamSessionCheck => !s.server
    case StreamStart => !s.server && s.session != Some(Desktop)
    case NetConfigLock(_) => s.session.None?
    case NetConfig(_) => s.session.None?
    case NetStart(_) => s.session.None?
    case NetInsert(_) => s.session.None?
    case InsertFailed => false
    case _ => true
  }

  predicate TaskSound(t: Task, s: Shared) {
    && t.guards == Holds(t.pc)
    && Knows(t.pc, s)
    && (t.pc.StatusLock? || t.pc.StatusWrite? ==> t.pc.held <= {Server, Session})
  }

  predicate Exclusive(s: State) {
    forall i, j | 0 <= i < j < |s.tasks| :: s.tasks[i].guards !! s.tasks[j].guards
  }

  predicate Invariant(s: State) {
    && !(s.shared.server && s.shared.session == Some(Desktop))
    && (forall i | 0 <= i < |s.tasks| :: TaskSound(s.tasks[i], s.shared))
    && Exclusive(s)
  }

  /** A task changes only what it holds the lock of. */
  lemma ActFrame(t: Task, s: Shared, choice: nat)
    requires TaskSound(t, s)
    ensures var s' := SharedAfter(t, s, choice);
      && (Server !in t.guards ==> s'.server == s.server)
      && (Session !in t.guards ==> s'.session == s.session)
      && (StatusCell !in t.guards ==> s'.status == s.status)
  {}

  lemma AcquireSound(t: Task, s: Shared)
    requires TaskSound(t, s) && Wants(t.pc).Some?
    ensures TaskSound(Task(Acquired(t.pc), t.guards + {Wants(t.pc).value}), s)
  {}

  lemma ActKnows(pc: Pc, s: Shared, choice: nat)
    requires Knows(pc, s) && Wants(pc).None? && !(s.server && s.session == Some(Desktop))
    ensures var e := Act(pc, s, choice);
      Knows(e.pc, e.shared) && !(e.shared.server && e.shared.session == Some(Desktop))
  {}

  /** Calls that start something, and the last instructions of all calls. */
  predicate Starts(pc: Pc) {
    || pc.AudioConfig? || pc.AudioServerCheck? || pc.AudioSessionCheck? || pc.AudioStart? || pc.AudioInsert?
    || pc.AudioDropSession? || pc.AudioDropServer? || pc.StreamServerCheck? || pc.StreamSessionCheck? || pc.StreamStart?
  }

  predicate HoldsRight(pc: Pc, e: Effect) {
    && Holds(e.pc) == Holds(pc) - e.drops
    && (e.pc.StatusLock? || e.pc.StatusWrite? ==> e.pc.held <= {Server, Session})
  }

  lemma StartHolds(pc: Pc, s: Shared, choice: nat)
    requires Starts(pc) && Knows(pc, s)
    ensures HoldsRight(pc, Act(pc, s, choice))
  {}

  lemma OtherHolds(pc: Pc, s: Shared, choice: nat)
    requires !Starts(pc) && Knows(pc, s) && Wants(pc).None?
    requires pc.StatusLock? || pc.StatusWrite? ==> pc.held <= {Server, Session}
    ensures HoldsRight(pc, Act(pc, s, choice))
  {}

  lemma ActSound(t: Task, s: Shared, choice: nat)
    requires TaskSound(t, s) && !(s.server && s.session == Some(Desktop))
    ensures var s' := SharedAfter(t, s, choice);
      && TaskSound(TaskAfter(t, s, choice), s')
      && !(s'.server && s'.session == Some(Desktop))
  {
    hide Act, Acquired, Knows, Holds, Wants;
    if Wants(t.pc).Some? {
      AcquireSound(t, s);
    } else {
      ActKnows(t.pc, s, choice);
      if Starts(t.pc) { StartHolds(t.pc, s, choice); } else { OtherHolds(t.pc, s, choice); }
    }
  }

  /** A desktop session appears only under the guard of the server slot. */
  lemma DesktopNeedsServer(t: Task, s: Shared, choice: nat)
    requires TaskSound(t, s) && Server !in t.guards && s.session != Some(Desktop)
    ensures SharedAfter(t, s, choice).session != Some(Desktop)
  {}

  /** What another task relies on survives the step. */
  lemma OthersKeepKnowing(t: Task, other: Task, s: Shared, choice: nat)
    requires TaskSound(t, s) && TaskSound(other, s) && t.guards !! other.guards
    ensures TaskSound(other, SharedAfter(t, s, choice))
  {
    hide SharedAfter;
    ActFrame(t, s, choice);
    if s.session != Some(Desktop) && Server in other.guards {
      DesktopNeedsServer(t, s, choice);
    }
  }

  lemma GuardsAfter(t: Task, s: Shared, choice: nat)
    ensures var t' := TaskAfter(t, s, choice);
      t'.guards <= t.guards + (if Wants(t.pc).Some? then {Wants(t.pc).value} else {})
  {}

  lemma StepKeeps(s: State, step: Step)
    requires Invariant(s) && Enabled(s, step)
    ensures Invariant(Apply(s, step))
  {
    hide TaskSound, SharedAfter, TaskAfter, Wants;
    match step
    case Spawn(pc) => SpawnSound(pc, s.shared);
    case Advance(i, choice) =>
      var t := s.tasks[i];
      var s' := Apply(s, step);
      ActSound(t, s.shared, choice);
      GuardsAfter(t, s.shared, choice);
      forall j | 0 <= j < |s.tasks| && j != i ensures TaskSound(s.tasks[j], s'.shared) {
        assert t.guards !! s.tasks[j].guards;
        OthersKeepKnowing(t, s.tasks[j], s.shared, choice);
      }
      forall j, k | 0 <= j < k < |s'.tasks| ensures s'.tasks[j].guards !! s'.tasks[k].guards {
        assert s.tasks[j].guards !! s.tasks[k].guards;
      }
  }

  lemma SpawnSound(pc: Pc, s: Shared)
    requires IsCall(pc)
    ensures TaskSound(Task(pc, {}), s)
  {}

  /** Every state of every run satisfies the invariant. */
  lemma {:induction false} RunKeeps(states: seq<State>, steps: seq<Step>, k: nat)
    requires IsRun(states, steps) && k < |states|
    ensures Invariant(states[k])
  {
    hide Apply, Enabled;
    if k > 0 {
      RunKeeps(states, steps, k - 1);
      StepKeeps(states[k - 1], steps[k - 1]);
    }
  }

  /**
   * In every interleaving: a desktop session and a streaming server are never both installed, no insertion fails
   * after its owner check, and no two tasks hold the same lock.
   */
  lemma NeverBoth(states: seq<State>, steps: seq<Step>, k: nat)
    requires IsRun(states, steps) && k < |states|
    ensures !(states[k].shared.server && states[k].shared.session == Some(Desktop))
    ensures forall i | 0 <= i < |states[k].tasks| :: !states[k].tasks[i].pc.InsertFailed?
    ensures forall i, j | 0 <= i < j < |states[k].tasks| :: states[k].tasks[i].guards !! states[k].tasks[j].guards
  {
    RunKeeps(states, steps, k);
  }

  /** Whoever ends this session is a stop call of its owner. */
  predicate MayRelease(owner: Owner, pc: Pc) {
    match owner
    case Desktop => pc.StopSessionTake?
    case WebSocket(id) => pc == EndSessionTake(id)
  }

  /**
   * Only the owner releases the slot, nobody replaces a running session, and only a stop call removes the
   * server.
   */
  lemma OnlyOwnerReleases(s: State, step: Step)
    requires Invariant(s) && Enabled(s, step)
    ensures var s' := Apply(s, step);
      && (s.shared.session.Some? && s'.shared.session != s.shared.session ==>
            && s'.shared.session.None? && step.Advance?
            && MayRelease(s.shared.session.value, s.tasks[step.task].pc))
      && (s.shared.server && !s'.shared.server ==> step.Advance? && s.tasks[step.task].pc.StopServerTake?)
  {
    if step.Advance? { assert TaskSound(s.tasks[step.task], s.shared); }
  }

  // ---------- Nobody waits forever ----------

  function Rank(lock: Lock): nat {
    match lock case Server => 0 case Session => 1 case Config => 2 case StatusCell => 2
  }

  /** Locks are taken upwards: what a task waits for ranks above everything it holds. */
  lemma LocksAreOrdered(t: Task, s: Shared)
    requires TaskSound(t, s) && Wants(t.pc).Some?
    ensures forall lock | lock in t.guards :: Rank(lock) < Rank(Wants(t.pc).value)
  {}

  /** While a task is unfinished, some task can step, namely the one at the end of the chain of waits. */
  lemma {:induction false} SomeoneCanStep(s: State, i: nat) returns (j: nat)
    requires Invariant(s) && i < |s.tasks| && !s.tasks[i].pc.Done?
    ensures CanStep(s, j)
    decreases if Wants(s.tasks[i].pc).Some? then 3 - Rank(Wants(s.tasks[i].pc).value) else 0
  {
    hide Wants;
    var t := s.tasks[i];
    assert TaskSound(t, s.shared);
    if Wants(t.pc).None? || Free(s, Wants(t.pc).value) {
      j := i;
    } else {
      var k :| 0 <= k < |s.tasks| && Wants(t.pc).value in s.tasks[k].guards;
      assert TaskSound(s.tasks[k], s.shared);
      if Wants(s.tasks[k].pc).Some? { LocksAreOrdered(s.tasks[k], s.shared); }
      j := SomeoneCanStep(s, k);
    }
  }

  /** No interleaving deadlocks: as long as a call is unfinished, some call can go on. */
  lemma NoDeadlock(states: seq<State>, steps: seq<Step>, k: nat, i: nat) returns (j: nat)
    requires IsRun(states, steps) && k < |states| && i < |states[k].tasks| && !states[k].tasks[i].pc.Done?
    ensures CanStep(states[k], j)
  {
    RunKeeps(states, steps, k);
    j := SomeoneCanStep(states[k], i);
  }

  /** An upper bound on the instructions a task has left. */
  function Left(pc: Pc): nat {
    match pc
    case AudioConfigLock => 30
    case AudioConfig => 29
    case AudioServerLock => 20
    case AudioServerCheck => 19
    case AudioSessionLock => 18
    case AudioSessionCheck => 17
    case AudioStart => 16
    case AudioInsert => 15
    case AudioDropSession => 14
    case AudioDropServer => 13
    case StreamServerLock => 20
    case StreamServerCheck => 19
    case StreamSessionLock => 18
    case StreamSessionCheck => 17
    case StreamStart => 16
    case StopServerLock => 20
    case StopServerTake => 19
    case DrainLock => 18
    case DrainSet => 17
    case StopServer => 16
    case StopSessionLock => 18
    case StopSessionTake => 17
    case StopInput => 16
    case NetSessionLock(_) => 20
    case NetSessionCheck(_) => 19
    case NetConfigLock(_) => 18
    case NetConfig(_) => 17
    case NetStart(_) => 16
    case NetInsert(_) => 15
    case NetDropSession => 14
    case EndSessionLock(_) => 20
    case EndSessionTake(_) => 19
    case EndInput => 18
    case EndServerLock => 17
    case EndServerCheck => 16
    case ChangeStatusLock => 20
    case ChangeStatusRead => 19
    case ChangeConfigLock => 18
    case ChangeConfig => 17
    case StatusLock(_, _) => 2
    case StatusWrite(_, _) => 1
    case InsertFailed => 0
    case Done => 0
  }

  function LeftInAll(tasks: seq<Task>): nat {
    if tasks == [] then 0 else LeftInAll(tasks[..|tasks| - 1]) + Left(tasks[|tasks| - 1].pc)
  }

  lemma {:induction false} LeftUpdated(tasks: seq<Task>, i: nat, t: Task)
    requires i < |tasks|
    ensures LeftInAll(tasks[i := t]) == LeftInAll(tasks) - Left(tasks[i].pc) + Left(t.pc)
    decreases |tasks|
  {
    var n := |tasks| - 1;
    if i == n {
      assert tasks[i := t][..n] == tasks[..n];
    } else {
      assert tasks[i := t][..n] == tasks[..n][i := t];
      LeftUpdated(tasks[..n], i, t);
    }
  }

  /**
   * Every step of a task shortens what is left, so however the calls are scheduled they cannot go on forever:
   * with `NoDeadlock`, every schedule that keeps stepping ends with all calls done.
   */
  lemma StepsRunOut(s: State, i: nat, choice: nat)
    requires Enabled(s, Advance(i, choice))
    ensures LeftInAll(Apply(s, Advance(i, choice)).tasks) < LeftInAll(s.tasks)
  {
    hide Left, Act, Wants;
    var t := s.tasks[i];
    if Wants(t.pc).Some? { LeftAcquired(t.pc); } else { LeftAct(t.pc, s.shared, choice); }
    LeftUpdated(s.tasks, i, TaskAfter(t, s.shared, choice));
  }

  lemma LeftAcquired(pc: Pc)
    requires Wants(pc).Some?
    ensures Left(Acquired(pc)) < Left(pc)
  {}

  lemma LeftStart(pc: Pc, s: Shared, choice: nat)
    requires Starts(pc)
    ensures Left(Act(pc, s, choice).pc) < Left(pc)
  {}

  lemma LeftAct(pc: Pc, s: Shared, choice: nat)
    requires Wants(pc).None? && !pc.Done? && !pc.InsertFailed?
    ensures Left(Act(pc, s, choice).pc) < Left(pc)
  {
    hide Left, Act, Wants, Starts;
    if Starts(pc) { LeftStart(pc, s, choice); } else { LeftOther(pc, s, choice); }
  }

  lemma LeftOther(pc: Pc, s: Shared, choice: nat)
    requires !Starts(pc) && Wants(pc).None? && !pc.Done? && !pc.InsertFailed?
    ensures Left(Act(pc, s, choice).pc) < Left(pc)
  {}
}
