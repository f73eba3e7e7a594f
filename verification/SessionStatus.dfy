/**
 * What the recognition status says once every call is done. It is set after the locks are released, so the call that
 * sets it last need not be the one that decided last.
 */
module SessionStatus {
  import opened Wrappers
  import opened SessionOwnership

  // ---------- What the steps do to the slot and to the status ----------

  /** Calls that set the status and do nothing else. */
  predicate SetsDirectly(step: Step) { step.Spawn? && step.pc.StatusLock? && step.pc.next.Some? }

  ghost predicate NoDirectCalls(steps: seq<Step>) { forall k | 0 <= k < |steps| :: !SetsDirectly(steps[k]) }

  function PcOf(s: State, step: Step): Pc
    requires step.Advance? && step.task < |s.tasks|
  {
    s.tasks[step.task].pc
  }

  predicate Moves(s: State, step: Step) { step.Advance? && step.task < |s.tasks| }

  /** The owner's stop call empties the slot. */
  predicate Takes(s: State, step: Step) {
    && Moves(s, step)
    && var pc := PcOf(s, step);
    || (pc.StopSessionTake? && s.shared.session == Some(Desktop))
    || (pc.EndSessionTake? && s.shared.session == Some(WebSocket(pc.id)))
  }

  predicate Puts(s: State, step: Step) {
    Moves(s, step) && (PcOf(s, step).AudioInsert? || PcOf(s, step).NetInsert?) && s.shared.session.None?
  }

  /** The start call has its session in the slot, and lets go of the slot. */
  predicate Drops(s: State, step: Step) { Moves(s, step) && (PcOf(s, step).AudioDropSession? || PcOf(s, step).NetDropSession?) }

  predicate Writes(s: State, step: Step) {
    Moves(s, step) && (PcOf(s, step).DrainSet? || (PcOf(s, step).StatusWrite? && PcOf(s, step).next.Some?))
  }

  function Written(s: State, step: Step): Status
    requires Writes(s, step)
  {
    if PcOf(s, step).DrainSet? then Draining else PcOf(s, step).next.value
  }

  lemma SessionMoves(s: State, step: Step)
    requires Enabled(s, step)
    ensures var after := Apply(s, step).shared.session;
      && (Takes(s, step) ==> after.None?) && (Puts(s, step) ==> after.Some?)
      && (!Takes(s, step) && !Puts(s, step) ==> after == s.shared.session)
  {}

  lemma StatusMoves(s: State, step: Step)
    requires Enabled(s, step)
    ensures Apply(s, step).shared.status == if Writes(s, step) then Written(s, step) else s.shared.status
  {}

  lemma {:induction false} SessionStays(states: seq<State>, steps: seq<Step>, a: nat, b: nat)
    requires IsRun(states, steps) && a <= b < |states|
    requires forall m | a <= m < b :: !Takes(states[m], steps[m]) && !Puts(states[m], steps[m])
    ensures states[b].shared.session == states[a].shared.session
    decreases b - a
  {
    hide Apply, Enabled, Takes, Puts;
    if a < b {
      SessionStays(states, steps, a, b - 1);
      SessionMoves(states[b - 1], steps[b - 1]);
    }
  }

  lemma {:induction false} SlotStaysEmpty(states: seq<State>, steps: seq<Step>, a: nat, b: nat)
    requires IsRun(states, steps) && a <= b < |states| && states[a].shared.session.None?
    requires forall m | a <= m < b :: !Puts(states[m], steps[m])
    ensures states[b].shared.session.None?
    decreases b - a
  {
    hide Apply, Enabled, Takes, Puts;
    if a < b {
      SlotStaysEmpty(states, steps, a, b - 1);
      SessionMoves(states[b - 1], steps[b - 1]);
    }
  }

  /** A session that is there at first and not at last was taken, and nothing was put in its place after the last taking. */
  lemma {:induction false} SomeoneTook(states: seq<State>, steps: seq<Step>, a: nat, b: nat) returns (k: nat)
    requires IsRun(states, steps) && a <= b < |states| && states[a].shared.session.Some? && states[b].shared.session.None?
    ensures a <= k < b && Takes(states[k], steps[k]) && forall m | k < m < b :: !Puts(states[m], steps[m])
    decreases b - a
  {
    hide Apply, Enabled, Takes, Puts;
    SessionMoves(states[b - 1], steps[b - 1]);
    if Takes(states[b - 1], steps[b - 1]) { k := b - 1; } else { k := SomeoneTook(states, steps, a, b - 1); }
  }

  ghost predicate LastWrite(states: seq<State>, steps: seq<Step>, w: nat, n: nat)
    requires n <= |steps| < |states|
  {
    w < n && Writes(states[w], steps[w]) && forall m | w < m < n :: !Writes(states[m], steps[m])
  }

  /** The status is what the last write wrote; without a write it is still `Idle`. */
  lemma {:induction false} StatusIsLastWrite(states: seq<State>, steps: seq<Step>, n: nat)
    requires IsRun(states, steps) && n <= |steps|
    ensures states[n].shared.status == Idle || exists w: nat :: LastWrite(states, steps, w, n)
    ensures forall w: nat | LastWrite(states, steps, w, n) :: states[n].shared.status == Written(states[w], steps[w])
  {
    hide Apply, Enabled, Writes, Written;
    if n > 0 {
      StatusIsLastWrite(states, steps, n - 1);
      StatusMoves(states[n - 1], steps[n - 1]);
      if Writes(states[n - 1], steps[n - 1]) {
        assert LastWrite(states, steps, n - 1, n);
      } else {
        forall w: nat ensures LastWrite(states, steps, w, n) <==> LastWrite(states, steps, w, n - 1) {}
        if states[n - 1].shared.status != Idle {
          var w: nat :| LastWrite(states, steps, w, n - 1);
          assert LastWrite(states, steps, w, n);
        }
      }
    }
  }

  // ---------- Who moved a session writes the status afterwards ----------

  predicate Owes(pc: Pc) {
    || pc.StopInput? || pc.EndInput? || pc.EndServerLock? || pc.EndServerCheck?
    || pc.AudioDropSession? || pc.AudioDropServer? || pc.NetDropSession?
    || ((pc.StatusLock? || pc.StatusWrite?) && pc.next.Some?)
  }

  lemma OwesUntilWritten(s: State, step: Step, i: nat)
    requires Enabled(s, step) && i < |s.tasks|
    requires Owes(s.tasks[i].pc) || (step.Advance? && step.task == i && (Takes(s, step) || Puts(s, step)))
    ensures i < |Apply(s, step).tasks|
    ensures Owes(Apply(s, step).tasks[i].pc) || (step.Advance? && step.task == i && Writes(s, step))
  {}

  /** Whoever puts or takes a session still has a write to come, or has made it. */
  lemma {:induction false} MoverWrites(states: seq<State>, steps: seq<Step>, k: nat, n: nat)
    requires IsRun(states, steps) && k < n <= |steps| && (Takes(states[k], steps[k]) || Puts(states[k], steps[k]))
    ensures steps[k].Advance? && steps[k].task < |states[n].tasks|
    ensures Owes(states[n].tasks[steps[k].task].pc) || exists w | k < w < n :: Writes(states[w], steps[w])
    decreases n
  {
    hide Apply, Enabled, Takes, Puts, Writes, Owes;
    MovesOne(states[k], steps[k]);
    var i := steps[k].task;
    if n == k + 1 {
      OwesUntilWritten(states[k], steps[k], i);
      NoWriteYet(states[k], steps[k]);
    } else {
      MoverWrites(states, steps, k, n - 1);
      if Owes(states[n - 1].tasks[i].pc) {
        OwesUntilWritten(states[n - 1], steps[n - 1], i);
      } else {
        TasksStay(states[n - 1], steps[n - 1]);
      }
    }
  }

  lemma MovesOne(s: State, step: Step)
    requires Takes(s, step) || Puts(s, step)
    ensures step.Advance? && step.task < |s.tasks|
  {}

  lemma NoWriteYet(s: State, step: Step)
    requires Takes(s, step) || Puts(s, step)
    ensures !Writes(s, step)
  {}

  lemma TasksStay(s: State, step: Step)
    requires Enabled(s, step)
    ensures |Apply(s, step).tasks| >= |s.tasks|
  {}

  ghost predicate AtRest(s: State) { forall i | 0 <= i < |s.tasks| :: s.tasks[i].pc.Done? }

  lemma NothingOwed(s: State)
    requires AtRest(s)
    ensures forall i | 0 <= i < |s.tasks| :: !Owes(s.tasks[i].pc)
  {}

  /** Once every call is done, no session was put or taken after the last write. */
  lemma NothingMovesAfter(states: seq<State>, steps: seq<Step>, w: nat, n: nat, m: nat)
    requires IsRun(states, steps) && n <= |steps| && AtRest(states[n]) && LastWrite(states, steps, w, n) && w <= m < n
    ensures !Takes(states[m], steps[m]) && !Puts(states[m], steps[m])
  {
    hide Apply, Enabled, Takes, Puts, Writes, Owes;
    NothingOwed(states[n]);
    if Takes(states[m], steps[m]) || Puts(states[m], steps[m]) { MoverWrites(states, steps, m, n); }
  }

  // ---------- Who writes `Listening` ----------

  /** What a task knows of the session it announces while it keeps the slot locked. */
  predicate Sure(t: Task, s: Shared) {
    match t.pc
    case AudioDropSession => s.session.Some?
    case NetDropSession => s.session.Some?
    case StatusLock(next, held) => next == Some(Listening) ==> held == {} || (Session in held && s.session.Some?)
    case StatusWrite(next, held) => next == Some(Listening) ==> held == {} || (Session in held && s.session.Some?)
    case _ => true
  }

  lemma SureAfter(t: Task, s: Shared, choice: nat)
    requires TaskSound(t, s) && Sure(t, s)
    ensures Sure(TaskAfter(t, s, choice), SharedAfter(t, s, choice))
  {}

  lemma OthersStaySure(t: Task, other: Task, s: Shared, choice: nat)
    requires TaskSound(t, s) && TaskSound(other, s) && Sure(other, s) && t.guards !! other.guards
    ensures Sure(other, SharedAfter(t, s, choice))
  {
    hide SharedAfter;
    ActFrame(t, s, choice);
  }

  lemma StepStaysSure(s: State, step: Step)
    requires Invariant(s) && Enabled(s, step) && forall i | 0 <= i < |s.tasks| :: Sure(s.tasks[i], s.shared)
    ensures forall i | 0 <= i < |Apply(s, step).tasks| :: Sure(Apply(s, step).tasks[i], Apply(s, step).shared)
  {
    hide Sure, SharedAfter, TaskAfter, TaskSound, Wants;
    match step
    case Spawn(pc) => CallsAreSure(pc, s.shared);
    case Advance(i, choice) =>
      var t := s.tasks[i];
      SureAfter(t, s.shared, choice);
      forall j | 0 <= j < |s.tasks| && j != i ensures Sure(s.tasks[j], SharedAfter(t, s.shared, choice)) {
        assert t.guards !! s.tasks[j].guards;
        OthersStaySure(t, s.tasks[j], s.shared, choice);
      }
  }

  lemma CallsAreSure(pc: Pc, s: Shared)
    requires IsCall(pc)
    ensures Sure(Task(pc, {}), s)
  {}

  lemma {:induction false} RunStaysSure(states: seq<State>, steps: seq<Step>, n: nat, i: nat)
    requires IsRun(states, steps) && n < |states| && i < |states[n].tasks|
    ensures Sure(states[n].tasks[i], states[n].shared)
  {
    hide Apply, Enabled, Sure, Invariant;
    if n > 0 {
      RunKeeps(states, steps, n - 1);
      var s := states[n - 1];
      forall j | 0 <= j < |s.tasks| ensures Sure(s.tasks[j], s.shared) { RunStaysSure(states, steps, n - 1, j); }
      StepStaysSure(s, steps[n - 1]);
    }
  }

  /** A start call that has let go of the slot and has yet to announce itself. */
  predicate Announcing(pc: Pc) {
    || pc.AudioDropServer? || (pc.StatusLock? && pc.next == Some(Listening) && pc.held == {})
    || (pc.StatusWrite? && pc.next == Some(Listening) && pc.held == {})
  }

  lemma AnnouncingBefore(s: State, step: Step, i: nat)
    requires Enabled(s, step) && i < |Apply(s, step).tasks| && Announcing(Apply(s, step).tasks[i].pc) && !SetsDirectly(step)
    ensures i < |s.tasks|
    ensures Announcing(s.tasks[i].pc) || (step.Advance? && step.task == i && Drops(s, step))
  {}

  /** It let go of the slot at some step before. */
  lemma {:induction false} LetGoBefore(states: seq<State>, steps: seq<Step>, n: nat, i: nat) returns (d: nat)
    requires IsRun(states, steps) && NoDirectCalls(steps) && n < |states| && i < |states[n].tasks| && Announcing(states[n].tasks[i].pc)
    ensures d < n && Drops(states[d], steps[d]) && steps[d].task == i
  {
    hide Apply, Enabled, Announcing, Drops;
    if n == 0 {
    } else {
      AnnouncingBefore(states[n - 1], steps[n - 1], i);
      if Announcing(states[n - 1].tasks[i].pc) { d := LetGoBefore(states, steps, n - 1, i); } else { d := n - 1; }
    }
  }

  lemma DropKeepsSession(s: State, step: Step)
    requires Enabled(s, step) && Drops(s, step) && Sure(s.tasks[step.task], s.shared)
    ensures Apply(s, step).shared.session.Some?
  {}

  /** Who writes `Listening` while the slot is empty let go of the slot before. */
  lemma WriterAnnounces(s: State, step: Step)
    requires Writes(s, step) && Written(s, step) == Listening && s.shared.session.None? && Sure(s.tasks[step.task], s.shared)
    ensures Announcing(PcOf(s, step))
  {}

  // ---------- Exactly when the status lags ----------

  /**
   * The call that writes last writes `Listening`; between the step `d` at which it let go of the slot and its write `w`
   * a stop call empties the slot (`k`), and nothing is put into the slot again.
   */
  ghost predicate Overtaken(states: seq<State>, steps: seq<Step>, n: nat, d: nat, k: nat, w: nat)
    requires n <= |steps| < |states|
  {
    && d < k < w && LastWrite(states, steps, w, n) && Written(states[w], steps[w]) == Listening
    && Drops(states[d], steps[d]) && steps[d].task == steps[w].task
    && Takes(states[k], steps[k]) && forall m | k < m < n :: !Puts(states[m], steps[m])
  }

  lemma OvertakenLags(states: seq<State>, steps: seq<Step>, n: nat, d: nat, k: nat, w: nat)
    requires IsRun(states, steps) && n <= |steps| && Overtaken(states, steps, n, d, k, w)
    ensures states[n].shared.status == Listening && states[n].shared.session.None?
  {
    hide Apply, Enabled, Takes, Puts, Writes, Written, Drops;
    StatusIsLastWrite(states, steps, n);
    SessionMoves(states[k], steps[k]);
    SlotStaysEmpty(states, steps, k + 1, n);
  }

  lemma LaggingIsOvertaken(states: seq<State>, steps: seq<Step>, n: nat) returns (d: nat, k: nat, w: nat)
    requires IsRun(states, steps) && NoDirectCalls(steps) && n <= |steps| && AtRest(states[n])
    requires states[n].shared.status == Listening && states[n].shared.session.None?
    ensures Overtaken(states, steps, n, d, k, w)
  {
    hide Apply, Enabled, Takes, Puts, Writes, Written, Drops, Announcing, Sure, AtRest, NoDirectCalls;
    StatusIsLastWrite(states, steps, n);
    w :| LastWrite(states, steps, w, n);
    forall m | w <= m < n ensures !Takes(states[m], steps[m]) && !Puts(states[m], steps[m]) {
      NothingMovesAfter(states, steps, w, n, m);
    }
    SessionStays(states, steps, w, n);
    WriteMoves(states[w], steps[w]);
    var i := steps[w].task;
    RunStaysSure(states, steps, w, i);
    WriterAnnounces(states[w], steps[w]);
    d := LetGoBefore(states, steps, w, i);
    DropMoves(states[d], steps[d]);
    RunStaysSure(states, steps, d, i);
    DropKeepsSession(states[d], steps[d]);
    k := SomeoneTook(states, steps, d + 1, w);
  }

  lemma WriteMoves(s: State, step: Step)
    requires Writes(s, step)
    ensures Moves(s, step)
  {}

  lemma DropMoves(s: State, step: Step)
    requires Drops(s, step)
    ensures Moves(s, step)
  {}

  /**
   * In every run without direct status calls, once every call is done: the status says `Listening` while no session is
   * installed if and only if the call that wrote last was overtaken by a stop call before its write.
   */
  lemma LagsExactly(states: seq<State>, steps: seq<Step>, n: nat)
    requires IsRun(states, steps) && NoDirectCalls(steps) && n <= |steps| && AtRest(states[n])
    ensures states[n].shared.status == Listening && states[n].shared.session.None?
            <==> exists d: nat, k: nat, w: nat :: Overtaken(states, steps, n, d, k, w)
  {
    hide Overtaken, AtRest, NoDirectCalls, Enabled, Apply;
    if states[n].shared.status == Listening && states[n].shared.session.None? {
      var d, k, w := LaggingIsOvertaken(states, steps, n);
    }
    if d: nat, k: nat, w: nat :| Overtaken(states, steps, n, d, k, w) { OvertakenLags(states, steps, n, d, k, w); }
  }

  // ---------- Calls one after the other ----------

  /** A start or stop call that has more to do than to read the status. */
  predicate Working(pc: Pc) {
    && !pc.Done? && !pc.ChangeStatusLock? && !pc.ChangeStatusRead? && !pc.ChangeConfigLock? && !pc.ChangeConfig?
    && !((pc.StatusLock? || pc.StatusWrite?) && pc.next.None?)
  }

  /** No start or stop call is made while another is unfinished. */
  ghost predicate OneByOne(states: seq<State>, steps: seq<Step>)
    requires |steps| < |states|
  {
    forall k, i | 0 <= k < |steps| && steps[k].Spawn? && Working(steps[k].pc) && 0 <= i < |states[k].tasks| ::
      !Working(states[k].tasks[i].pc)
  }

  lemma StaysIdle(s: State, step: Step, i: nat)
    requires Enabled(s, step) && i < |s.tasks| && !Working(s.tasks[i].pc)
    ensures !Working(Apply(s, step).tasks[i].pc)
  {}

  lemma {:induction false} OneWorks(states: seq<State>, steps: seq<Step>, n: nat, i: nat, j: nat)
    requires IsRun(states, steps) && OneByOne(states, steps) && n < |states| && i < |states[n].tasks| && j < |states[n].tasks|
    requires Working(states[n].tasks[i].pc) && Working(states[n].tasks[j].pc)
    ensures i == j
  {
    hide Working, Act, Wants, Acquired;
    if n > 0 {
      var s, step := states[n - 1], steps[n - 1];
      if i < |s.tasks| && !Working(s.tasks[i].pc) { StaysIdle(s, step, i); }
      if j < |s.tasks| && !Working(s.tasks[j].pc) { StaysIdle(s, step, j); }
      if i < |s.tasks| && j < |s.tasks| { OneWorks(states, steps, n - 1, i, j); }
    }
  }

  /** Between letting go of the slot and its write a start call is at work. */
  lemma {:induction false} WorksUntil(states: seq<State>, steps: seq<Step>, k: nat, w: nat, i: nat)
    requires IsRun(states, steps) && k <= w < |states| && i < |states[k].tasks| && i < |states[w].tasks| && Working(states[w].tasks[i].pc)
    ensures Working(states[k].tasks[i].pc)
    decreases w - k
  {
    hide Working, Apply, Enabled;
    if k < w {
      TasksGrow(states, steps, k, w - 1);
      if !Working(states[w - 1].tasks[i].pc) { StaysIdle(states[w - 1], steps[w - 1], i); }
      WorksUntil(states, steps, k, w - 1, i);
    }
  }

  lemma {:induction false} TasksGrow(states: seq<State>, steps: seq<Step>, k: nat, n: nat)
    requires IsRun(states, steps) && k <= n < |states|
    ensures |states[k].tasks| <= |states[n].tasks|
    decreases n - k
  {
    hide Apply, Enabled;
    if k < n {
      TasksGrow(states, steps, k, n - 1);
      TasksStay(states[n - 1], steps[n - 1]);
    }
  }

  lemma TakerWorks(s: State, step: Step)
    requires Takes(s, step)
    ensures Moves(s, step) && Working(PcOf(s, step))
  {}

  /** A call that let go of the slot never empties it. */
  lemma {:induction false} TakerHasNotDropped(states: seq<State>, steps: seq<Step>, d: nat, k: nat)
    requires IsRun(states, steps) && d < k < |steps| && Drops(states[d], steps[d]) && Takes(states[k], steps[k])
    ensures steps[d].Advance? && steps[k].Advance? && steps[d].task != steps[k].task
  {
    hide Apply, Enabled, Takes, Drops;
    DropMoves(states[d], steps[d]);
    MovesOne(states[k], steps[k]);
    AfterDrop(states, steps, d, k);
    TakerIsBefore(states[k], steps[k]);
  }

  predicate Past(pc: Pc) { pc.AudioDropServer? || pc.StatusLock? || pc.StatusWrite? || pc.Done? }

  lemma {:induction false} AfterDrop(states: seq<State>, steps: seq<Step>, d: nat, k: nat)
    requires IsRun(states, steps) && d < k < |states| && Drops(states[d], steps[d])
    ensures steps[d].Advance? && steps[d].task < |states[k].tasks| && Past(states[k].tasks[steps[d].task].pc)
    decreases k
  {
    hide Apply, Enabled, Drops, Past;
    DropMoves(states[d], steps[d]);
    if k > d + 1 { AfterDrop(states, steps, d, k - 1); }
    PastStays(states[k - 1], steps[k - 1], steps[d].task);
  }

  lemma PastStays(s: State, step: Step, i: nat)
    requires Enabled(s, step) && i < |s.tasks| && (Past(s.tasks[i].pc) || (step.Advance? && step.task == i && Drops(s, step)))
    ensures i < |Apply(s, step).tasks| && Past(Apply(s, step).tasks[i].pc)
  {}

  lemma TakerIsBefore(s: State, step: Step)
    requires Takes(s, step)
    ensures Moves(s, step) && !Past(PcOf(s, step))
  {}

  lemma WriterWorks(s: State, step: Step)
    requires Writes(s, step)
    ensures Working(PcOf(s, step))
  {}

  /**
   * If no start or stop call is made while another is unfinished, and nobody sets the status directly, then whenever
   * every call is done a status of `Listening` is true.
   */
  lemma OneByOneIsTrue(states: seq<State>, steps: seq<Step>, n: nat)
    requires IsRun(states, steps) && NoDirectCalls(steps) && OneByOne(states, steps) && n <= |steps| && AtRest(states[n])
    ensures states[n].shared.status == Listening ==> states[n].shared.session.Some?
  {
    hide Apply, Enabled, Takes, Puts, Writes, Written, Drops, Working, Announcing, AtRest, NoDirectCalls, OneByOne;
    if states[n].shared.status == Listening && states[n].shared.session.None? {
      var d, k, w := LaggingIsOvertaken(states, steps, n);
      WriteMoves(states[w], steps[w]);
      var i := steps[w].task;
      DropMoves(states[d], steps[d]);
      TasksGrow(states, steps, d, k);
      WriterWorks(states[w], steps[w]);
      WorksUntil(states, steps, k, w, i);
      MovesOne(states[k], steps[k]);
      TakerWorks(states[k], steps[k]);
      OneWorks(states, steps, k, i, steps[k].task);
      TakerHasNotDropped(states, steps, d, k);
    }
  }

  // ---------- It can lag ----------

  function Calls(steps: seq<Step>): seq<Pc> {
    if steps == [] then []
    else Calls(steps[..|steps| - 1]) + (if steps[|steps| - 1].Spawn? then [steps[|steps| - 1].pc] else [])
  }

  /** Some run that makes exactly these calls ends in the state. */
  ghost predicate ReachableBy(s: State, calls: seq<Pc>) {
    exists states, steps :: IsRun(states, steps) && states[|states| - 1] == s && Calls(steps) == calls
  }

  lemma ReachNext(s: State, calls: seq<Pc>, step: Step)
    requires ReachableBy(s, calls) && Enabled(s, step)
    ensures ReachableBy(Apply(s, step), calls + if step.Spawn? then [step.pc] else [])
  {
    hide Apply, Enabled;
    var states, steps :| IsRun(states, steps) && states[|states| - 1] == s && Calls(steps) == calls;
    var longer, more := states + [Apply(s, step)], steps + [step];
    forall k | 0 <= k < |more| ensures Enabled(longer[k], more[k]) && longer[k + 1] == Apply(longer[k], more[k]) {
      if k < |steps| { assert more[k] == steps[k]; }
    }
    assert IsRun(longer, more);
    assert more[..|more| - 1] == steps;
    assert Calls(more) == calls + if step.Spawn? then [step.pc] else [];
  }

  /** One task alone, taken from instruction to instruction. */
  lemma Go(s: State, calls: seq<Pc>, i: nat, choice: nat, t: Task, shared: Shared)
    requires ReachableBy(s, calls) && CanStep(s, i)
    requires TaskAfter(s.tasks[i], s.shared, choice) == t && SharedAfter(s.tasks[i], s.shared, choice) == shared
    ensures ReachableBy(State(shared, s.tasks[i := t]), calls)
  {
    ReachNext(s, calls, Advance(i, choice));
    assert calls + [] == calls;
  }

  /** One start of the audio input, and then one stop of it. */
  const START: seq<Pc> := [AudioConfigLock]

  const START_STOP: seq<Pc> := [AudioConfigLock, StopServerLock]

  function Alone(pc: Pc, guards: set<Lock>, session: Option<Owner>): State {
    State(Shared(false, session, Idle), [Task(pc, guards)])
  }

  lemma GoAlone(pc: Pc, guards: set<Lock>, session: Option<Owner>, choice: nat, pc': Pc, guards': set<Lock>, session': Option<Owner>)
    requires ReachableBy(Alone(pc, guards, session), START) && !pc.Done? && !pc.InsertFailed?
    requires Wants(pc).Some? ==> Wants(pc).value !in guards
    requires TaskAfter(Task(pc, guards), Shared(false, session, Idle), choice) == Task(pc', guards')
    requires SharedAfter(Task(pc, guards), Shared(false, session, Idle), choice) == Shared(false, session', Idle)
    ensures ReachableBy(Alone(pc', guards', session'), START)
  {
    hide TaskAfter, SharedAfter, Wants;
    var s := Alone(pc, guards, session);
    Go(s, START, 0, choice, Task(pc', guards'), Shared(false, session', Idle));
    assert s.tasks[0 := Task(pc', guards')] == [Task(pc', guards')];
  }

  lemma StartTakesLocks()
    ensures ReachableBy(Alone(AudioSessionLock, {Server}, None), START)
  {
    hide ReachableBy;
    InitiallyReachable();
    ReachNext(Initial(), [], Spawn(AudioConfigLock));
    assert [] + [AudioConfigLock] == START;
    assert Initial().tasks + [Task(AudioConfigLock, {})] == [Task(AudioConfigLock, {})];
    GoAlone(AudioConfigLock, {}, None, 0, AudioConfig, {Config}, None);
    GoAlone(AudioConfig, {Config}, None, 2, AudioServerLock, {}, None);
    GoAlone(AudioServerLock, {}, None, 0, AudioServerCheck, {Server}, None);
    GoAlone(AudioServerCheck, {Server}, None, 0, AudioSessionLock, {Server}, None);
  }

  lemma StartInserts()
    ensures ReachableBy(Alone(AudioInsert, {Server, Session}, None), START)
  {
    hide ReachableBy;
    StartTakesLocks();
    GoAlone(AudioSessionLock, {Server}, None, 0, AudioSessionCheck, {Server, Session}, None);
    GoAlone(AudioSessionCheck, {Server, Session}, None, 0, AudioStart, {Server, Session}, None);
    GoAlone(AudioStart, {Server, Session}, None, 1, AudioInsert, {Server, Session}, None);
  }

  /** A desktop start that has released its locks and has only the status left to set. */
  lemma StartBeforeStatus()
    ensures ReachableBy(Alone(StatusLock(Some(Listening), {}), {}, Some(Desktop)), START)
  {
    hide ReachableBy;
    StartInserts();
    GoAlone(AudioInsert, {Server, Session}, None, 0, AudioDropSession, {Server, Session}, Some(Desktop));
    GoAlone(AudioDropSession, {Server, Session}, Some(Desktop), 0, AudioDropServer, {Server}, Some(Desktop));
    GoAlone(AudioDropServer, {Server}, Some(Desktop), 0, StatusLock(Some(Listening), {}), {}, Some(Desktop));
  }

  lemma InitiallyReachable()
    ensures ReachableBy(Initial(), [])
  {
    assert IsRun([Initial()], []) && [Initial()][|[Initial()]| - 1] == Initial() && Calls([]) == [];
  }

  /** The waiting start, and a stop at some instruction. */
  function Beside(pc: Pc, guards: set<Lock>, session: Option<Owner>, status: Status): State {
    State(Shared(false, session, status), [Task(StatusLock(Some(Listening), {}), {}), Task(pc, guards)])
  }

  lemma GoBeside(
    pc: Pc, guards: set<Lock>, session: Option<Owner>, status: Status, choice: nat,
    pc': Pc, guards': set<Lock>, session': Option<Owner>, status': Status)
    requires ReachableBy(Beside(pc, guards, session, status), START_STOP) && !pc.Done? && !pc.InsertFailed?
    requires Wants(pc).Some? ==> Wants(pc).value !in guards
    requires TaskAfter(Task(pc, guards), Shared(false, session, status), choice) == Task(pc', guards')
    requires SharedAfter(Task(pc, guards), Shared(false, session, status), choice) == Shared(false, session', status')
    ensures ReachableBy(Beside(pc', guards', session', status'), START_STOP)
  {
    hide TaskAfter, SharedAfter, Wants;
    var s := Beside(pc, guards, session, status);
    Go(s, START_STOP, 1, choice, Task(pc', guards'), Shared(false, session', status'));
    assert s.tasks[1 := Task(pc', guards')] == [s.tasks[0], Task(pc', guards')];
  }

  lemma StopFindsSession()
    ensures ReachableBy(Beside(StopSessionLock, {}, Some(Desktop), Idle), START_STOP)
  {
    hide ReachableBy;
    StartBeforeStatus();
    var waiting := Alone(StatusLock(Some(Listening), {}), {}, Some(Desktop));
    ReachNext(waiting, START, Spawn(StopServerLock));
    assert START + [StopServerLock] == START_STOP;
    assert waiting.tasks + [Task(StopServerLock, {})] == [waiting.tasks[0], Task(StopServerLock, {})];
    GoBeside(StopServerLock, {}, Some(Desktop), Idle, 0, StopServerTake, {Server}, Some(Desktop), Idle);
    GoBeside(StopServerTake, {Server}, Some(Desktop), Idle, 0, StopSessionLock, {}, Some(Desktop), Idle);
  }

  lemma StopReleasesSession()
    ensures ReachableBy(Beside(StatusLock(Some(Stopped), {}), {}, None, Idle), START_STOP)
  {
    hide ReachableBy;
    StopFindsSession();
    GoBeside(StopSessionLock, {}, Some(Desktop), Idle, 0, StopSessionTake, {Session}, Some(Desktop), Idle);
    GoBeside(StopSessionTake, {Session}, Some(Desktop), Idle, 0, StopInput, {}, None, Idle);
    GoBeside(StopInput, {}, None, Idle, 1, StatusLock(Some(Stopped), {}), {}, None, Idle);
  }

  lemma StopSetsStatus()
    ensures ReachableBy(Beside(Done, {}, None, Stopped), START_STOP)
  {
    hide ReachableBy;
    StopReleasesSession();
    GoBeside(StatusLock(Some(Stopped), {}), {}, None, Idle, 0, StatusWrite(Some(Stopped), {}), {StatusCell}, None, Idle);
    GoBeside(StatusWrite(Some(Stopped), {}), {StatusCell}, None, Idle, 0, Done, {}, None, Stopped);
  }

  predicate LagsBehind(s: State) {
    && s.shared == Shared(false, None, Listening)
    && |s.tasks| == 2 && s.tasks[0].pc.Done? && s.tasks[1].pc.Done?
  }

  function Late(task: Task, status: Status): State {
    State(Shared(false, None, status), [task, Task(Done, {})])
  }

  lemma StartTakesStatusLock()
    ensures ReachableBy(Late(Task(StatusWrite(Some(Listening), {}), {StatusCell}), Stopped), START_STOP)
  {
    hide ReachableBy;
    StopSetsStatus();
    var s, t := Beside(Done, {}, None, Stopped), Task(StatusWrite(Some(Listening), {}), {StatusCell});
    Go(s, START_STOP, 0, 0, t, s.shared);
    assert s.tasks[0 := t] == [t, Task(Done, {})];
  }

  /**
   * One start and one stop are enough: a stop that runs between a desktop start's release of the slot and its last
   * instruction leaves, with both calls done, no session and no server, and the status `Listening`.
   */
  lemma StatusCanLag()
    ensures exists s :: ReachableBy(s, START_STOP) && LagsBehind(s)
  {
    hide ReachableBy;
    StartTakesStatusLock();
    var s := Late(Task(StatusWrite(Some(Listening), {}), {StatusCell}), Stopped);
    Go(s, START_STOP, 0, 0, Task(Done, {}), Shared(false, None, Listening));
    assert LagsBehind(State(Shared(false, None, Listening), s.tasks[0 := Task(Done, {})]));
  }
}
