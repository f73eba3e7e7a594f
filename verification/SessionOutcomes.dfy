/**
 * What each call comes to. Whatever happens while calls overlap, a call that is made and finished while nothing else
 * goes on does one thing, and these are the things.
 */
module SessionOutcomes {
  import opened Wrappers
  import opened SessionOwnership
  import opened SessionStatus

  datatype Config = Refused | ToWebSocket | ToDesktop

  /** What a call meets outside: the configuration, whether what it starts starts, and whether what it stops stops in time. */
  datatype Foreign = Foreign(config: Config, starts: bool, stops: bool)

  /** The shared state after a call that is made and finished alone. */
  function AfterCall(call: Pc, s: Shared, f: Foreign): Shared
    requires IsCall(call)
  {
    match call
    case AudioConfigLock =>
      if f.config.Refused? then s
      else if f.config.ToWebSocket? then
        if s.server || s.session.Some? || !f.starts then s else Shared(true, None, WaitingForClient)
      else if s.server then s
      else if s.session == Some(Desktop) then s.(status := Listening)
      else if s.session.Some? then s
      else if f.starts then Shared(false, Some(Desktop), Listening) else s.(status := Error)
    case StopServerLock =>
      if s.server then Shared(false, s.session, Stopped)
      else if s.session.None? then s.(status := Stopped)
      else if s.session == Some(Desktop) then Shared(false, None, if f.stops then Stopped else Error)
      else s
    case NetSessionLock(id) =>
      if s.session.Some? || f.config.Refused? || !f.starts then s else Shared(s.server, Some(WebSocket(id)), Listening)
    case EndSessionLock(id) =>
      if s.session == Some(WebSocket(id)) then Shared(s.server, None, if s.server then WaitingForClient else Stopped) else s
    case StatusLock(next, _) => if next.Some? then s.(status := next.value) else s
    case _ => s
  }

  /** The choice that stands for what a call meets at an instruction. */
  predicate Meets(pc: Pc, choice: nat, f: Foreign) {
    match pc
    case AudioConfig => (choice == 0 <==> f.config.Refused?) && (choice == 1 <==> f.config.ToWebSocket?)
    case NetConfig(_) => choice == 0 <==> f.config.Refused?
    case AudioStart => choice == 0 <==> !f.starts
    case StreamStart => choice == 0 <==> !f.starts
    case NetStart(_) => choice == 0 <==> !f.starts
    case StopInput => choice == 0 <==> !f.stops
    case ChangeStatusRead => choice == 0 <==> f.config.Refused?
    case _ => true
  }

  function ChoiceFor(pc: Pc, f: Foreign): (choice: nat)
    ensures Meets(pc, choice, f)
  {
    match pc
    case AudioConfig => if f.config.Refused? then 0 else if f.config.ToWebSocket? then 1 else 2
    case NetConfig(_) => if f.config.Refused? then 0 else 1
    case AudioStart => if f.starts then 1 else 0
    case StreamStart => if f.starts then 1 else 0
    case NetStart(_) => if f.starts then 1 else 0
    case StopInput => if f.stops then 1 else 0
    case ChangeStatusRead => if f.config.Refused? then 0 else 1
    case _ => 0
  }

  // ---------- A task alone ----------

  predicate Over(pc: Pc) { pc.Done? || pc.InsertFailed? }

  function PcAfter(pc: Pc, s: Shared, choice: nat): Pc { if Wants(pc).Some? then Acquired(pc) else Act(pc, s, choice).pc }

  function Next(pc: Pc, s: Shared, choice: nat): Shared { if Wants(pc).Some? then s else Act(pc, s, choice).shared }

  lemma LeftShrinks(pc: Pc, s: Shared, choice: nat)
    requires !Over(pc)
    ensures Left(PcAfter(pc, s, choice)) < Left(pc)
  {
    hide Left, Act, Wants;
    if Wants(pc).Some? { LeftAcquired(pc); } else { LeftAct(pc, s, choice); }
  }

  /** What a task leaves behind that nobody else gets in the way of. */
  function Alone(pc: Pc, s: Shared, f: Foreign): Shared
    decreases Left(pc)
  {
    if Over(pc) then s
    else
      var choice := ChoiceFor(pc, f);
      LeftShrinks(pc, s, choice);
      Alone(PcAfter(pc, s, choice), Next(pc, s, choice), f)
  }

  /** Only what a call meets decides what an instruction does. */
  lemma MeetsDecides(pc: Pc, s: Shared, c: nat, d: nat, f: Foreign)
    requires Meets(pc, c, f) && Meets(pc, d, f)
    ensures PcAfter(pc, s, c) == PcAfter(pc, s, d) && Next(pc, s, c) == Next(pc, s, d)
  {}

  /** Two tasks one step apart leave the same behind. */
  lemma To(pc: Pc, s: Shared, f: Foreign, after: Pc, s': Shared)
    requires !Over(pc) && PcAfter(pc, s, ChoiceFor(pc, f)) == after && Next(pc, s, ChoiceFor(pc, f)) == s'
    ensures Alone(pc, s, f) == Alone(after, s', f)
  {}

  /** Taking a lock leaves everything as it is. */
  lemma Take(pc: Pc, s: Shared, f: Foreign, after: Pc)
    requires Wants(pc).Some? && Acquired(pc) == after
    ensures Alone(pc, s, f) == Alone(after, s, f)
  {
    hide Left, Alone, Act;
    assert !Over(pc) by { OverWantsNothing(pc); }
    To(pc, s, f, after, s);
  }

  lemma OverWantsNothing(pc: Pc)
    ensures Over(pc) ==> Wants(pc).None?
  {}

  /** An instruction that wants no lock does what it does. */
  lemma Do(pc: Pc, s: Shared, f: Foreign, after: Pc, s': Shared)
    requires Wants(pc).None? && !Over(pc) && Act(pc, s, ChoiceFor(pc, f)).pc == after && Act(pc, s, ChoiceFor(pc, f)).shared == s'
    ensures Alone(pc, s, f) == Alone(after, s', f)
  {
    hide Left, Alone, Act, Acquired;
    To(pc, s, f, after, s');
  }

  lemma StatusOutcome(next: Option<Status>, held: set<Lock>, s: Shared, f: Foreign)
    ensures Alone(StatusLock(next, held), s, f) == if next.Some? then s.(status := next.value) else s
  {
    hide Alone, Left, PcAfter, Next, Meets, ChoiceFor;
    Take(StatusLock(next, held), s, f, StatusWrite(next, held));
    Do(StatusWrite(next, held), s, f, Done, if next.Some? then s.(status := next.value) else s);
    NothingLeft(if next.Some? then s.(status := next.value) else s, f);
  }

  lemma NothingLeft(s: Shared, f: Foreign)
    ensures Alone(Done, s, f) == s
  {}

  lemma DesktopOutcome(s: Shared, f: Foreign)
    requires f.config.ToDesktop?
    ensures Alone(AudioServerLock, s, f) == AfterCall(AudioConfigLock, s, f)
  {
    hide Alone, Left, PcAfter, Next, Meets, ChoiceFor;
    Take(AudioServerLock, s, f, AudioServerCheck);
    if s.server {
      Do(AudioServerCheck, s, f, Done, s);
      NothingLeft(s, f);
    } else {
      Do(AudioServerCheck, s, f, AudioSessionLock, s);
      DesktopSessionOutcome(s, f);
    }
  }

  lemma DesktopSessionOutcome(s: Shared, f: Foreign)
    requires f.config.ToDesktop? && !s.server
    ensures Alone(AudioSessionLock, s, f) == AfterCall(AudioConfigLock, s, f)
  {
    hide Alone, Left, PcAfter, Next, Meets, ChoiceFor;
    Take(AudioSessionLock, s, f, AudioSessionCheck);
    if s.session == Some(Desktop) {
      Do(AudioSessionCheck, s, f, StatusLock(Some(Listening), {Server, Session}), s);
      StatusOutcome(Some(Listening), {Server, Session}, s, f);
    } else if s.session.Some? {
      Do(AudioSessionCheck, s, f, Done, s);
      NothingLeft(s, f);
    } else {
      Do(AudioSessionCheck, s, f, AudioStart, s);
      StartOutcome(s, f);
    }
  }

  lemma StartOutcome(s: Shared, f: Foreign)
    requires s.session.None?
    ensures Alone(AudioStart, s, f) == if f.starts then Shared(s.server, Some(Desktop), Listening) else s.(status := Error)
  {
    hide Alone, Left, PcAfter, Next, Meets;
    if f.starts {
      var s' := s.(session := Some(Desktop));
      Do(AudioStart, s, f, AudioInsert, s);
      Do(AudioInsert, s, f, AudioDropSession, s');
      Do(AudioDropSession, s', f, AudioDropServer, s');
      Do(AudioDropServer, s', f, StatusLock(Some(Listening), {}), s');
      StatusOutcome(Some(Listening), {}, s', f);
    } else {
      Do(AudioStart, s, f, StatusLock(Some(Error), {Server, Session}), s);
      StatusOutcome(Some(Error), {Server, Session}, s, f);
    }
  }

  lemma ServerOutcome(s: Shared, f: Foreign)
    ensures Alone(StreamServerLock, s, f)
         == if s.server || s.session.Some? || !f.starts then s else Shared(true, None, WaitingForClient)
  {
    hide Alone, Left, PcAfter, Next, Meets, ChoiceFor;
    Take(StreamServerLock, s, f, StreamServerCheck);
    if s.server {
      Do(StreamServerCheck, s, f, StatusLock(None, {Server}), s);
      StatusOutcome(None, {Server}, s, f);
    } else {
      Do(StreamServerCheck, s, f, StreamSessionLock, s);
      ServerSessionOutcome(s, f);
    }
  }

  lemma ServerSessionOutcome(s: Shared, f: Foreign)
    ensures Alone(StreamSessionLock, s, f)
         == if s.session.Some? || !f.starts then s else Shared(true, None, WaitingForClient)
  {
    hide Alone, Left, PcAfter, Next, Meets, ChoiceFor;
    Take(StreamSessionLock, s, f, StreamSessionCheck);
    if s.session.Some? {
      Do(StreamSessionCheck, s, f, Done, s);
      NothingLeft(s, f);
    } else {
      Do(StreamSessionCheck, s, f, StreamStart, s);
      ServerStartOutcome(s, f);
    }
  }

  lemma ServerStartOutcome(s: Shared, f: Foreign)
    ensures Alone(StreamStart, s, f) == if f.starts then s.(server := true, status := WaitingForClient) else s
  {
    hide Alone, Left, PcAfter, Next, Meets;
    if f.starts {
      Do(StreamStart, s, f, StatusLock(Some(WaitingForClient), {Server}), s.(server := true));
      StatusOutcome(Some(WaitingForClient), {Server}, s.(server := true), f);
    } else {
      Do(StreamStart, s, f, Done, s);
      NothingLeft(s, f);
    }
  }

  lemma StopOutcome(s: Shared, f: Foreign)
    ensures Alone(StopServerLock, s, f) == AfterCall(StopServerLock, s, f)
  {
    hide Alone, Left, PcAfter, Next, Meets, ChoiceFor;
    Take(StopServerLock, s, f, StopServerTake);
    if s.server {
      Do(StopServerTake, s, f, DrainLock, s.(server := false));
      DrainOutcome(s.(server := false), f);
    } else {
      Do(StopServerTake, s, f, StopSessionLock, s);
      SlotOutcome(s, f);
    }
  }

  lemma DrainOutcome(s: Shared, f: Foreign)
    ensures Alone(DrainLock, s, f) == s.(status := Stopped)
  {
    hide Alone, Left, PcAfter, Next, Meets, ChoiceFor;
    var s' := s.(status := Draining);
    Take(DrainLock, s, f, DrainSet);
    Do(DrainSet, s, f, StopServer, s');
    Do(StopServer, s', f, StatusLock(Some(Stopped), {}), s');
    StatusOutcome(Some(Stopped), {}, s', f);
  }

  lemma SlotOutcome(s: Shared, f: Foreign)
    ensures Alone(StopSessionLock, s, f)
         == if s.session.None? then s.(status := Stopped)
            else if s.session == Some(Desktop) then Shared(s.server, None, if f.stops then Stopped else Error)
            else s
  {
    hide Alone, Left, PcAfter, Next, Meets;
    Take(StopSessionLock, s, f, StopSessionTake);
    if s.session == Some(Desktop) {
      var s', last := s.(session := None), if f.stops then Stopped else Error;
      Do(StopSessionTake, s, f, StopInput, s');
      Do(StopInput, s', f, StatusLock(Some(last), {}), s');
      StatusOutcome(Some(last), {}, s', f);
    } else {
      var last := if s.session.Some? then None else Some(Stopped);
      Do(StopSessionTake, s, f, StatusLock(last, {}), s);
      StatusOutcome(last, {}, s, f);
    }
  }

  lemma NetOutcome(id: string, s: Shared, f: Foreign)
    ensures Alone(NetSessionLock(id), s, f) == AfterCall(NetSessionLock(id), s, f)
  {
    hide Alone, Left, PcAfter, Next, Meets, ChoiceFor;
    Take(NetSessionLock(id), s, f, NetSessionCheck(id));
    if s.session.Some? {
      Do(NetSessionCheck(id), s, f, Done, s);
      NothingLeft(s, f);
    } else {
      Do(NetSessionCheck(id), s, f, NetConfigLock(id), s);
      NetConfigOutcome(id, s, f);
    }
  }

  lemma NetConfigOutcome(id: string, s: Shared, f: Foreign)
    requires s.session.None?
    ensures Alone(NetConfigLock(id), s, f)
         == if f.config.Refused? || !f.starts then s else Shared(s.server, Some(WebSocket(id)), Listening)
  {
    hide Alone, Left, PcAfter, Next, Meets;
    Take(NetConfigLock(id), s, f, NetConfig(id));
    NothingLeft(s, f);
    if f.config.Refused? {
      Do(NetConfig(id), s, f, Done, s);
    } else {
      Do(NetConfig(id), s, f, NetStart(id), s);
      if f.starts { NetStartOutcome(id, s, f); } else { Do(NetStart(id), s, f, Done, s); }
    }
  }

  lemma NetStartOutcome(id: string, s: Shared, f: Foreign)
    requires s.session.None? && f.starts
    ensures Alone(NetStart(id), s, f) == Shared(s.server, Some(WebSocket(id)), Listening)
  {
    hide Alone, Left, PcAfter, Next, Meets;
    var s' := s.(session := Some(WebSocket(id)));
    Do(NetStart(id), s, f, NetInsert(id), s);
    Do(NetInsert(id), s, f, NetDropSession, s');
    Do(NetDropSession, s', f, StatusLock(Some(Listening), {}), s');
    StatusOutcome(Some(Listening), {}, s', f);
  }

  lemma EndOutcome(id: string, s: Shared, f: Foreign)
    ensures Alone(EndSessionLock(id), s, f) == AfterCall(EndSessionLock(id), s, f)
  {
    hide Alone, Left, PcAfter, Next, Meets, ChoiceFor;
    Take(EndSessionLock(id), s, f, EndSessionTake(id));
    if s.session == Some(WebSocket(id)) {
      Do(EndSessionTake(id), s, f, EndInput, s.(session := None));
      EndedOutcome(s.(session := None), f);
    } else {
      Do(EndSessionTake(id), s, f, StatusLock(None, {}), s);
      StatusOutcome(None, {}, s, f);
    }
  }

  lemma EndedOutcome(s: Shared, f: Foreign)
    ensures Alone(EndInput, s, f) == s.(status := if s.server then WaitingForClient else Stopped)
  {
    hide Alone, Left, PcAfter, Next, Meets, ChoiceFor;
    var last := if s.server then WaitingForClient else Stopped;
    Do(EndInput, s, f, EndServerLock, s);
    Take(EndServerLock, s, f, EndServerCheck);
    Do(EndServerCheck, s, f, StatusLock(Some(last), {}), s);
    StatusOutcome(Some(last), {}, s, f);
  }

  lemma ChangeOutcome(s: Shared, f: Foreign)
    ensures Alone(ChangeStatusLock, s, f) == s
  {
    hide Alone, Left, PcAfter, Next, Meets;
    Take(ChangeStatusLock, s, f, ChangeStatusRead);
    if f.config.Refused? {
      Do(ChangeStatusRead, s, f, Done, s);
      NothingLeft(s, f);
    } else {
      Do(ChangeStatusRead, s, f, ChangeConfigLock, s);
      ConfigOutcome(s, f);
    }
  }

  lemma ConfigOutcome(s: Shared, f: Foreign)
    ensures Alone(ChangeConfigLock, s, f) == s
  {
    hide Alone, Left, PcAfter, Next, Meets, ChoiceFor;
    Take(ChangeConfigLock, s, f, ChangeConfig);
    Do(ChangeConfig, s, f, Done, s);
    NothingLeft(s, f);
  }

  lemma AudioOutcome(s: Shared, f: Foreign)
    ensures Alone(AudioConfigLock, s, f) == AfterCall(AudioConfigLock, s, f)
  {
    hide Alone, Left, PcAfter, Next, Meets;
    Take(AudioConfigLock, s, f, AudioConfig);
    if f.config.Refused? {
      Do(AudioConfig, s, f, Done, s);
      NothingLeft(s, f);
    } else if f.config.ToWebSocket? {
      Do(AudioConfig, s, f, StreamServerLock, s);
      ServerOutcome(s, f);
    } else {
      Do(AudioConfig, s, f, AudioServerLock, s);
      DesktopOutcome(s, f);
    }
  }

  /** Instruction by instruction, a call alone does what it is said to do. */
  lemma AloneIsAfterCall(call: Pc, s: Shared, f: Foreign)
    requires IsCall(call)
    ensures Alone(call, s, f) == AfterCall(call, s, f)
  {
    hide Alone, Left, PcAfter, Next, Meets, ChoiceFor, Act, Wants, Acquired;
    match call
    case AudioConfigLock => AudioOutcome(s, f);
    case StopServerLock => StopOutcome(s, f);
    case NetSessionLock(id) => NetOutcome(id, s, f);
    case EndSessionLock(id) => EndOutcome(id, s, f);
    case StatusLock(next, held) => StatusOutcome(next, held, s, f);
    case _ => ChangeOutcome(s, f);
  }

  // ---------- A call alone in a run ----------

  /** From step `a` to state `b` one call is made and finished, in a state where every call is done. */
  ghost predicate CallAlone(states: seq<State>, steps: seq<Step>, a: nat, b: nat, call: Pc, f: Foreign) {
    && IsRun(states, steps) && a < b <= |steps| && AtRest(states[a]) && AtRest(states[b]) && steps[a] == Spawn(call)
    && forall k | a < k < b :: steps[k].Advance? && Foresees(states[k], steps[k], f)
  }

  /** The step's choice is what the call meets. */
  predicate Foresees(s: State, step: Step, f: Foreign) {
    step.Advance? && step.task < |s.tasks| ==> Meets(s.tasks[step.task].pc, step.choice, f)
  }

  /** The one task that is not done. */
  ghost predicate OnlyLast(s: State, n: nat) { |s.tasks| == n + 1 && forall i | 0 <= i < n :: s.tasks[i].pc.Done? }

  lemma {:induction false} LeavesTheSame(states: seq<State>, steps: seq<Step>, a: nat, b: nat, call: Pc, f: Foreign, k: nat)
    requires CallAlone(states, steps, a, b, call, f) && a < k <= b
    ensures var n := |states[a].tasks|;
      OnlyLast(states[k], n) && Alone(states[k].tasks[n].pc, states[k].shared, f) == Alone(call, states[a].shared, f)
  {
    hide Alone, Meets, Wants, Act, ChoiceFor, PcAfter, Next, IsCall;
    var n := |states[a].tasks|;
    if k == a + 1 {
      assert Enabled(states[a], steps[a]);
    } else {
      LeavesTheSame(states, steps, a, b, call, f, k - 1);
      assert Enabled(states[k - 1], steps[k - 1]) && Foresees(states[k - 1], steps[k - 1], f);
      StepAlone(states[k - 1], steps[k - 1].task, steps[k - 1].choice, n, f);
    }
  }

  lemma StepAlone(s: State, i: nat, choice: nat, n: nat, f: Foreign)
    requires OnlyLast(s, n) && CanStep(s, i) && Meets(s.tasks[i].pc, choice, f)
    ensures var s' := Apply(s, Advance(i, choice));
      OnlyLast(s', n) && Alone(s'.tasks[n].pc, s'.shared, f) == Alone(s.tasks[n].pc, s.shared, f)
  {
    hide Alone, Meets;
    var pc := s.tasks[n].pc;
    assert i == n;
    MeetsDecides(pc, s.shared, choice, ChoiceFor(pc, f), f);
    To(pc, s.shared, f, PcAfter(pc, s.shared, choice), Next(pc, s.shared, choice));
  }

  /** In every run, a call that is made and finished while every other call is done does what it is said to do. */
  lemma CallOutcome(states: seq<State>, steps: seq<Step>, a: nat, b: nat, call: Pc, f: Foreign)
    requires CallAlone(states, steps, a, b, call, f)
    ensures IsCall(call) && states[b].shared == AfterCall(call, states[a].shared, f)
  {
    hide Alone, Meets, Foresees, AfterCall;
    assert Enabled(states[a], steps[a]);
    LeavesTheSame(states, steps, a, b, call, f, b);
    NothingLeft(states[b].shared, f);
    AloneIsAfterCall(call, states[a].shared, f);
  }

  /** A server stop shows that it drains before it says that it has stopped. */
  lemma ServerStopDrains(states: seq<State>, steps: seq<Step>, a: nat, b: nat, f: Foreign)
    requires CallAlone(states, steps, a, b, StopServerLock, f) && states[a].shared.server
    ensures exists k :: a < k < b && states[k].shared == Shared(false, states[a].shared.session, Draining)
  {
    hide Alone, Left, Meets, Enabled, Apply;
    var n, s := |states[a].tasks|, states[a].shared;
    SpawnedAlone(states, steps, a, b, StopServerLock, f);
    NextAlone(states, steps, a, b, StopServerLock, f, a + 1, StopServerLock, s, StopServerTake, s);
    NextAlone(states, steps, a, b, StopServerLock, f, a + 2, StopServerTake, s, DrainLock, s.(server := false));
    NextAlone(states, steps, a, b, StopServerLock, f, a + 3, DrainLock, s.(server := false), DrainSet, s.(server := false));
    NextAlone(states, steps, a, b, StopServerLock, f, a + 4, DrainSet, s.(server := false),
              StopServer, s.(server := false, status := Draining));
    assert a + 5 < b;
  }

  lemma SpawnedAlone(states: seq<State>, steps: seq<Step>, a: nat, b: nat, call: Pc, f: Foreign)
    requires CallAlone(states, steps, a, b, call, f)
    ensures IsCall(call) && a + 1 < b
    ensures var s := states[a + 1]; OnlyLast(s, |states[a].tasks|) && s.tasks[|states[a].tasks|].pc == call && s.shared == states[a].shared
  {
    hide Alone, Left, Meets, Act, Wants;
    assert Enabled(states[a], steps[a]);
    LeavesTheSame(states, steps, a, b, call, f, a + 1);
  }

  lemma NextAlone(states: seq<State>, steps: seq<Step>, a: nat, b: nat, call: Pc, f: Foreign, k: nat, pc: Pc, s: Shared, pc': Pc, s': Shared)
    requires CallAlone(states, steps, a, b, call, f) && a < k < b && OnlyLast(states[k], |states[a].tasks|)
    requires states[k].tasks[|states[a].tasks|].pc == pc && states[k].shared == s && !Over(pc) && !Over(pc')
    requires PcAfter(pc, s, ChoiceFor(pc, f)) == pc' && Next(pc, s, ChoiceFor(pc, f)) == s'
    ensures k + 1 < b && OnlyLast(states[k + 1], |states[a].tasks|)
    ensures states[k + 1].tasks[|states[a].tasks|].pc == pc' && states[k + 1].shared == s'
  {
    hide Alone, Left, Meets, Act, Wants;
    var n := |states[a].tasks|;
    assert Enabled(states[k], steps[k]) && Foresees(states[k], steps[k], f) && steps[k].Advance?;
    assert steps[k].task == n;
    MeetsDecides(pc, s, steps[k].choice, ChoiceFor(pc, f), f);
    assert states[k + 1] == Apply(states[k], steps[k]) && states[k + 1].tasks[n].pc == pc';
    assert OnlyLast(states[k + 1], n) && !AtRest(states[k + 1]);
  }

  // ---------- The server start ----------

  /** A start in WebSocket mode whose server starts ends, from the initial state, with the server waiting for a client. */
  lemma ServerIsInstalled(states: seq<State>, steps: seq<Step>, n: nat, f: Foreign)
    requires CallAlone(states, steps, 0, n, AudioConfigLock, f) && f.config.ToWebSocket? && f.starts
    ensures states[n].shared == Shared(true, None, WaitingForClient)
  {
    CallOutcome(states, steps, 0, n, AudioConfigLock, f);
  }

  /** A desktop start after it is refused: the slot stays empty and the server in place. */
  lemma DesktopIsRefused(states: seq<State>, steps: seq<Step>, n: nat, m: nat, f: Foreign, g: Foreign)
    requires CallAlone(states, steps, 0, n, AudioConfigLock, f) && f.config.ToWebSocket? && f.starts
    requires CallAlone(states, steps, n, m, AudioConfigLock, g) && g.config.ToDesktop?
    ensures states[m].shared == Shared(true, None, WaitingForClient)
  {
    ServerIsInstalled(states, steps, n, f);
    CallOutcome(states, steps, n, m, AudioConfigLock, g);
  }

  // ---------- Every call can be finished alone ----------

  /** A run whose last call is under way, everything else being done. */
  ghost predicate UnderWay(states: seq<State>, steps: seq<Step>, a: nat, call: Pc, f: Foreign) {
    && IsRun(states, steps) && a < |steps| && AtRest(states[a]) && steps[a] == Spawn(call) && OnlyLast(states[|steps|], |states[a].tasks|)
    && forall k | a < k < |steps| :: steps[k].Advance? && Foresees(states[k], steps[k], f)
  }

  lemma {:induction false} Finishes(states: seq<State>, steps: seq<Step>, a: nat, call: Pc, f: Foreign)
    returns (states': seq<State>, steps': seq<Step>)
    requires UnderWay(states, steps, a, call, f)
    ensures states <= states' && steps <= steps' && CallAlone(states', steps', a, |steps'|, call, f)
    decreases Left(states[|steps|].tasks[|states[a].tasks|].pc)
  {
    hide Alone, Left, Meets, Act, Wants, Enabled, Apply, Foresees;
    var n, s := |states[a].tasks|, states[|steps|];
    if s.tasks[n].pc.Done? {
      states', steps' := states, steps;
    } else {
      var i := NoDeadlock(states, steps, |steps|, n);
      CanOnlyBe(s, i, n);
      var step := Advance(i, ChoiceFor(s.tasks[n].pc, f));
      ForeseesIt(s, n, f);
      OneMore(states, steps, a, call, f, step);
      LeftShrinks(s.tasks[n].pc, s.shared, step.choice);
      states', steps' := Finishes(states + [Apply(s, step)], steps + [step], a, call, f);
    }
  }

  lemma ForeseesIt(s: State, n: nat, f: Foreign)
    requires n < |s.tasks|
    ensures Foresees(s, Advance(n, ChoiceFor(s.tasks[n].pc, f)), f)
  {}

  lemma CanOnlyBe(s: State, i: nat, n: nat)
    requires OnlyLast(s, n) && CanStep(s, i)
    ensures i == n && !Over(s.tasks[n].pc) && forall choice :: Enabled(s, Advance(i, choice))
  {}

  lemma OneMore(states: seq<State>, steps: seq<Step>, a: nat, call: Pc, f: Foreign, step: Step)
    requires UnderWay(states, steps, a, call, f) && step.Advance? && Enabled(states[|steps|], step)
    requires step.task == |states[a].tasks| && Foresees(states[|steps|], step, f)
    ensures UnderWay(states + [Apply(states[|steps|], step)], steps + [step], a, call, f)
    ensures var s, n := states[|steps|], |states[a].tasks|;
      Apply(s, step).tasks[n].pc == PcAfter(s.tasks[n].pc, s.shared, step.choice)
  {
    hide Alone, Left, Meets, Act, Wants;
    var longer, more := states + [Apply(states[|steps|], step)], steps + [step];
    forall k | 0 <= k < |more| ensures Enabled(longer[k], more[k]) && longer[k + 1] == Apply(longer[k], more[k]) {
      if k < |steps| { assert more[k] == steps[k] && longer[k] == states[k] && longer[k + 1] == states[k + 1]; }
    }
    forall k | a < k < |more| ensures more[k].Advance? && Foresees(longer[k], more[k], f) {
      if k < |steps| { assert more[k] == steps[k] && longer[k] == states[k]; }
    }
  }

  /** After every run that is at rest every call can be made and finished alone, whatever it meets. */
  lemma CallCompletes(states: seq<State>, steps: seq<Step>, call: Pc, f: Foreign) returns (states': seq<State>, steps': seq<Step>)
    requires IsRun(states, steps) && AtRest(states[|steps|]) && IsCall(call)
    ensures states <= states' && steps <= steps' && CallAlone(states', steps', |steps|, |steps'|, call, f)
  {
    hide Alone, Left, Meets, Act, Wants;
    var s, step := states[|steps|], Spawn(call);
    var longer, more := states + [Apply(s, step)], steps + [step];
    forall k | 0 <= k < |more| ensures Enabled(longer[k], more[k]) && longer[k + 1] == Apply(longer[k], more[k]) {
      if k < |steps| { assert more[k] == steps[k] && longer[k] == states[k] && longer[k + 1] == states[k + 1]; }
    }
    states', steps' := Finishes(longer, more, |steps|, call, f);
  }
}
