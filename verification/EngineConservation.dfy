/** Calls are neither duplicated nor lost: every run, any peers, any interleaving. */
module EngineConservation {
  import opened Frames
  import opened Rpc
  import opened Bags
  import opened Worker
  import opened WorkerLaws
  import opened Engine

  function FrontBag(cmd: FrontCmd): Bag {
    if cmd.Request? then multiset{cmd.ctrl} else multiset{}
  }

  function PcBag(pc: Pc): Bag {
    if pc.Idle? then multiset{} else multiset{pc.ctrl}
  }

  function LogOf(wk: WorkerRt): Bag {
    LogBag(wk.log)
  }

  /** Everything submitted, counted where it was handed over. */
  function Handed(s: State): Bag {
    Sum(s.frontend, FrontBag) + PcBag(s.pc) + Sum(s.workers, LogOf)
  }

  ghost predicate Conserved(s: State) {
    && Handed(s) == multiset(s.issued)
    && forall i :: 0 <= i < |s.issued| ==> s.issued[i].addr == i
  }

  lemma PushHands(s: State, w: nat, cmd: Cmd)
    requires w < |s.workers|
    ensures Sum(Push(s, w, cmd).workers, LogOf) == Sum(s.workers, LogOf) + CmdBag(cmd)
  {
    SumAppend(s.workers[w].log, cmd, CmdBag);
    SumGrow(s.workers, w, Push(s, w, cmd).workers[w], LogOf, CmdBag(cmd));
  }

  lemma WorkHands(s: State, w: nat, head: nat, st: WorkerState)
    requires w < |s.workers|
    ensures Sum(s.workers[w := s.workers[w].(head := head, st := st)], LogOf) == Sum(s.workers, LogOf)
  {
    SumGrow(s.workers, w, s.workers[w].(head := head, st := st), LogOf, multiset{});
  }

  lemma IssueConserves(s: State, eventId: nat, conn: ConnInfo, timeoutMs: int, frames: seq<Frame>)
    requires Conserved(s)
    ensures Conserved(Issue(s, eventId, conn, timeoutMs, frames))
  {
    var ctrl := Ctrl(|s.issued|, eventId, timeoutMs, conn);
    SumAppend(s.frontend, FrontCmd.Request(ctrl, frames), FrontBag);
    assert multiset(s.issued + [ctrl]) == multiset(s.issued) + multiset{ctrl};
    Reorder(Sum(s.frontend, FrontBag), multiset{ctrl}, PcBag(s.pc), Sum(s.workers, LogOf));
  }

  lemma Reorder(a: Bag, b: Bag, c: Bag, d: Bag)
    ensures a + b + c + d == a + (b + c) + d == a + c + (d + b) == a + c + d + b
  {
  }

  /** A push onto a worker's queue hands over just what the command brings. */
  lemma PushHanded(s: State, w: nat, cmd: Cmd)
    requires w < |s.workers|
    ensures Handed(Push(s, w, cmd)) == Handed(s) + CmdBag(cmd)
  {
    hide Sum, LogOf, CmdBag;
    PushHands(s, w, cmd);
    Reorder(Sum(s.frontend, FrontBag), multiset{}, PcBag(s.pc), Sum(s.workers, LogOf));
  }

  lemma NothingBrought(b: Bag)
    ensures b + multiset{} == b
  {
  }

  /** Moving what a part holds to another part. */
  lemma Moves(f: Bag, x: Bag, w: Bag)
    ensures f + x + w == f + multiset{} + (w + x)
    ensures (f + x) + multiset{} + w == f + x + w == f + multiset{} + w + x
  {
  }

  /** Taking a command off the frontend leaves what it brought to be put somewhere. */
  lemma TakenOff(s: State, i: nat)
    requires i < |s.frontend| && s.pc.Idle?
    ensures var s0 := s.(frontend := s.frontend[..i] + s.frontend[i + 1..]);
      Handed(s0) + FrontBag(s.frontend[i]) == Handed(s)
    ensures var f0 := Sum(s.frontend[..i] + s.frontend[i + 1..], FrontBag);
      f0 + FrontBag(s.frontend[i]) + Sum(s.workers, LogOf) == Handed(s)
  {
    SumRemove(s.frontend, i, FrontBag);
    assert PcBag(Idle) == multiset{};
    hide Sum, LogOf, FrontBag, PcBag;
    Moves(Sum(s.frontend[..i] + s.frontend[i + 1..], FrontBag), FrontBag(s.frontend[i]), Sum(s.workers, LogOf));
  }

  lemma TakeRequestConserves(s: State, s': State, i: nat)
    requires Conserved(s) && s.pc.Idle? && i < |s.frontend| && s.frontend[i].Request?
    requires s'.issued == s.issued && s'.frontend == s.frontend[..i] + s.frontend[i + 1..]
    requires s'.pc.Armed? && s'.pc.ctrl == s.frontend[i].ctrl && s'.workers == s.workers
    ensures Conserved(s')
  {
    TakenOff(s, i);
    assert PcBag(s'.pc) == FrontBag(s.frontend[i]);
  }

  lemma TakeConserves(cfg: Config, s: State, i: nat, dice: nat)
    requires Shape(cfg, s) && Enabled(cfg, s, Take(i, dice)) && Conserved(s)
    ensures Conserved(Apply(cfg, s, Take(i, dice)))
  {
    var s0 := s.(frontend := s.frontend[..i] + s.frontend[i + 1..]);
    var cmd := s.frontend[i];
    assert Shape(cfg, s0) && |s.workers| == cfg.workers;
    hide ExecAll, Shape, Sum;
    if cmd.Request? {
      TakeRequestConserves(s, Apply(cfg, s, Take(i, dice)), i);
    } else {
      TakenOff(s, i);
      TakeEasy(s, s0, cmd);
      TakeOther(cfg, s0, cmd, dice);
    }
  }

  lemma TakeOther(cfg: Config, s: State, cmd: FrontCmd, dice: nat)
    requires Shape(cfg, s) && Conserved(s) && !cmd.Request?
    ensures Conserved(TakeCmd(cfg, s, cmd, dice))
  {
    hide Conserved, ExecAll, Exec, WorkerOf, Push;
    match cmd
    case Register(info, name, svc) => PlainPushConserves(s, WorkerOf(cfg, info), RegisterSvc(info, name, svc));
    case Closure(closure) => PlainPushConserves(s, dice % cfg.workers, RunClosure(closure));
    case Reply(_, _) => SameParts(s, TakeCmd(cfg, s, cmd, dice));
    case Quit => SameParts(s, TakeCmd(cfg, s, cmd, dice));
    case Request(_, _) =>
  }

  /** A command that brings no call can be taken off the frontend freely. */
  lemma TakeEasy(s: State, s0: State, cmd: FrontCmd)
    requires Conserved(s) && s0.issued == s.issued && !cmd.Request?
    requires Handed(s0) + FrontBag(cmd) == Handed(s)
    ensures Conserved(s0)
  {
    assert FrontBag(cmd) == multiset{};
    hide Handed, FrontBag;
    NothingBrought(Handed(s0));
  }

  /** What the broker holds moves to the workers. */
  lemma HandsOver(s: State, s': State)
    requires Conserved(s) && s'.issued == s.issued && s'.frontend == s.frontend && s'.pc.Idle?
    requires Sum(s'.workers, LogOf) == Sum(s.workers, LogOf) + PcBag(s.pc)
    ensures Conserved(s')
  {
    assert PcBag(s'.pc) == multiset{};
    hide Sum, LogOf, PcBag;
    Moves(Sum(s.frontend, FrontBag), PcBag(s.pc), Sum(s.workers, LogOf));
  }

  lemma PushStartConserves(s: State, w: nat)
    requires w < |s.workers| && s.pc.Forwarded? && Conserved(s)
    ensures Conserved(Push(s, w, StartRpc(s.pc.ctrl)).(pc := Idle))
  {
    PushHands(s, w, StartRpc(s.pc.ctrl));
    assert PcBag(s.pc) == CmdBag(StartRpc(s.pc.ctrl));
    hide Sum, LogOf, PcBag, CmdBag, Conserved;
    HandsOver(s, Push(s, w, StartRpc(s.pc.ctrl)).(pc := Idle));
  }

  /** Steps whose only effect on calls is a push that brings none. */
  lemma PlainPushConserves(s: State, w: nat, cmd: Cmd)
    requires w < |s.workers| && !cmd.StartRpc? && Conserved(s)
    ensures Conserved(Push(s, w, cmd))
  {
    PushHanded(s, w, cmd);
    hide Handed;
    NothingBrought(Handed(s));
  }

  /** Conservation depends on nothing but these parts of the state. */
  lemma SameParts(s: State, s': State)
    requires Conserved(s) && s'.issued == s.issued && s'.frontend == s.frontend && s'.pc == s.pc
    requires Sum(s'.workers, LogOf) == Sum(s.workers, LogOf)
    ensures Conserved(s')
  {
  }

  lemma SendConserves(s: State, cmd: FrontCmd)
    requires Conserved(s) && !cmd.Request?
    ensures Conserved(s.(frontend := s.frontend + [cmd]))
  {
    SumAppend(s.frontend, cmd, FrontBag);
    hide Sum, LogOf;
    NothingBrought(Sum(s.frontend, FrontBag));
  }

  /** A step whose one effect on calls is a push that brings none. */
  lemma PushedConserves(s: State, w: nat, cmd: Cmd, s': State)
    requires w < |s.workers| && !cmd.StartRpc? && Conserved(s)
    requires s'.issued == s.issued && s'.frontend == s.frontend && s'.pc == s.pc
    requires s'.workers == Push(s, w, cmd).workers
    ensures Conserved(s')
  {
    PlainPushConserves(s, w, cmd);
    SameParts(Push(s, w, cmd), s');
  }

  lemma PushStepConserves(cfg: Config, s: State, step: Step)
    requires Shape(cfg, s) && Conserved(s) && Enabled(cfg, s, step)
    requires step.PushStart? || step.Receive? || step.Fire? || step.PushQuit?
    ensures Conserved(Apply(cfg, s, step))
  {
    hide Sum, LogOf, ExecAll, Exec, Conserved, PcBag, Asked, Finishes, Handed;
    match step
    case PushStart => PushStartConserves(s, WorkerOf(cfg, s.pc.ctrl.conn));
    case Receive(from, header, payload) =>
      PushedConserves(s, WorkerOf(cfg, from), HandleData(from, header, payload), Apply(cfg, s, step));
    case Fire(i) =>
      PushedConserves(s, s.timers[i].worker % cfg.workers, HandleTimeout(s.timers[i].eventId), Apply(cfg, s, step));
    case PushQuit => PushedConserves(s, s.phase.quits, QuitWorker, Apply(cfg, s, step));
  }

  lemma WorkConserves(cfg: Config, s: State, w: nat)
    requires Shape(cfg, s) && Conserved(s) && Enabled(cfg, s, Work(w))
    ensures Conserved(Apply(cfg, s, Work(w)))
  {
    hide Sum, LogOf, ExecAll, Exec, Conserved;
    var wk := s.workers[w];
    WorkHands(s, w, wk.head + 1, Exec(cfg.parse, wk.st, wk.log[wk.head]));
    SameParts(s, Apply(cfg, s, Work(w)));
  }

  lemma CounterConserves(s: State)
    requires Conserved(s)
    ensures Conserved(s.(nextEventId := s.nextEventId + 1))
  {
    hide Sum;
  }

  lemma StepConserves(cfg: Config, s: State, step: Step)
    requires Shape(cfg, s) && Conserved(s)
    ensures Conserved(Next(cfg, s, step))
  {
    if Enabled(cfg, s, step) {
      hide Sum, LogOf, ExecAll, Exec, Conserved, Deadline, Issue, TakeCmd, Asked, AsksAbout, Finishes, Push, PcBag;
      hide Handed, WorkerOf, Shape;
      match step
      case Submit(conn, timeoutMs, frames) =>
        IssueConserves(s, NextId(s), conn, timeoutMs, frames);
        CounterConserves(Issue(s, NextId(s), conn, timeoutMs, frames));
      case SubmitRaw(eventId, conn, timeoutMs, frames) => IssueConserves(s, eventId, conn, timeoutMs, frames);
      case Send(cmd) => SendConserves(s, cmd);
      case Take(i, dice) => TakeConserves(cfg, s, i, dice);
      case Forward => ForwardConserves(s, Apply(cfg, s, step));
      case Tick(_) => SameParts(s, Apply(cfg, s, step));
      case LeaveLoop => SameParts(s, Apply(cfg, s, step));
      case Work(w) => WorkConserves(cfg, s, w);
      case _ => PushStepConserves(cfg, s, step);
    }
  }

  lemma ForwardConserves(s: State, s': State)
    requires Conserved(s) && s.pc.Armed?
    requires s'.issued == s.issued && s'.frontend == s.frontend && s'.workers == s.workers
    requires s'.pc == Forwarded(s.pc.ctrl)
    ensures Conserved(s')
  {
    hide Sum;
  }

  lemma {:induction false} AlwaysConserved(cfg: Config, steps: seq<Step>)
    requires cfg.workers > 0
    ensures Conserved(After(cfg, steps))
    decreases |steps|
  {
    if steps == [] {
      var s := Init(cfg);
      EmptyLogs(s.workers);
    } else {
      AlwaysConserved(cfg, steps[..|steps| - 1]);
      StepConserves(cfg, After(cfg, steps[..|steps| - 1]), steps[|steps| - 1]);
    }
  }

  lemma {:induction false} EmptyLogs(wks: seq<WorkerRt>)
    requires forall w :: 0 <= w < |wks| ==> wks[w].log == []
    ensures Sum(wks, LogOf) == multiset{}
    decreases |wks|
  {
    if wks != [] {
      EmptyLogs(wks[..|wks| - 1]);
    }
  }

  // ---- The five places a call can be ----------------------------------------

  function QueuedAt(wk: WorkerRt): Bag
    requires wk.head <= |wk.log|
  {
    LogBag(wk.log[wk.head..])
  }

  function WaitingAt(wk: WorkerRt): Bag {
    MapBag(wk.st.calls)
  }

  function DoneAt(wk: WorkerRt): Bag {
    Sum(wk.st.done, DoneBag)
  }

  function LostAt(wk: WorkerRt): Bag {
    multiset(wk.st.lost)
  }

  function At(wk: WorkerRt): Bag {
    (if wk.head <= |wk.log| then QueuedAt(wk) else multiset{}) + WaitingAt(wk) + DoneAt(wk) + LostAt(wk)
  }

  function Completed(s: State): Bag {
    Sum(s.workers, DoneAt)
  }

  /** Frontend queue, broker, and each worker's queue, map, completions and losses. */
  function Places(s: State): Bag {
    Sum(s.frontend, FrontBag) + PcBag(s.pc) + Sum(s.workers, At)
  }

  lemma WorkerPlaces(parse: Frame -> RpcHeader, wk: WorkerRt)
    requires wk.head <= |wk.log| && wk.st == ExecAll(parse, FRESH, wk.log[..wk.head])
    ensures LogOf(wk) == At(wk)
  {
    hide ExecAll, StateBag, At, Sum;
    WorkerConserves(parse, wk.log[..wk.head]);
    SumConcat(wk.log[..wk.head], wk.log[wk.head..], CmdBag);
    assert wk.log == wk.log[..wk.head] + wk.log[wk.head..];
    Regroup(wk);
  }

  lemma Regroup(wk: WorkerRt)
    requires wk.head <= |wk.log|
    ensures StateBag(wk.st) + QueuedAt(wk) == At(wk)
  {
    hide QueuedAt, Sum, MapBag;
    var q, m, d, l := QueuedAt(wk), WaitingAt(wk), DoneAt(wk), LostAt(wk);
    assert m + d + l + q == q + m + d + l;
  }

  lemma {:induction false} Distinct(cs: seq<Ctrl>, c: Ctrl)
    requires forall i :: 0 <= i < |cs| ==> cs[i].addr == i
    ensures multiset(cs)[c] <= 1
    ensures c in cs ==> c.addr < |cs| && cs[c.addr] == c
    decreases |cs|
  {
    if cs != [] {
      var n := |cs| - 1;
      assert cs == cs[..n] + [cs[n]];
      Distinct(cs[..n], c);
      assert forall i :: 0 <= i < n ==> cs[..n][i] != cs[n];
    }
  }

  /**
   * Conservation: in every reachable state each submitted call is in exactly
   * one place, and nothing is anywhere that was not submitted.
   */
  lemma Conservation(cfg: Config, s: State, c: Ctrl)
    requires Reachable(cfg, s)
    ensures Places(s) == multiset(s.issued) && Places(s)[c] <= 1
  {
    var steps := StepsTo(cfg, s);
    AlwaysConserved(cfg, steps);
    hide After, Reachable;
    forall w | 0 <= w < |s.workers| ensures LogOf(s.workers[w]) == At(s.workers[w]) {
      WorkerPlaces(cfg.parse, s.workers[w]);
    }
    SumSame(s.workers, LogOf, At);
    Distinct(s.issued, c);
  }

  /** At-most-once: across all workers and all ways to finish, no handler is used twice. */
  lemma AtMostOnce(cfg: Config, s: State, c: Ctrl)
    requires Reachable(cfg, s)
    ensures Completed(s)[c] <= 1
    ensures c in Completed(s) ==> c in s.issued
  {
    Conservation(cfg, s, c);
    hide Reachable;
    SumBelow(s.workers, DoneAt, At);
    assert Completed(s) <= Places(s);
  }

  /** Every completed call was issued. */
  lemma DoneIsIssued(cfg: Config, s: State, w: nat, i: nat)
    requires Reachable(cfg, s) && w < |s.workers| && i < |s.workers[w].st.done|
    ensures s.workers[w].st.done[i].ctrl in s.issued
  {
    var c := s.workers[w].st.done[i].ctrl;
    hide Reachable;
    SumHas(s.workers, w, DoneAt);
    SumHas(s.workers[w].st.done, i, DoneBag);
    assert c in DoneAt(s.workers[w]);
    AtMostOnce(cfg, s, c);
  }

  // ---- Unique event ids -----------------------------------------------------

  /** Ids handed out by the counter differ until it has gone round once. */
  ghost predicate IdsCounted(s: State) {
    && s.nextEventId == |s.issued| + 1
    && forall i :: 0 <= i < |s.issued| ==> s.issued[i].eventId == (i + 1) % TWO_TO_THE_64
  }

  lemma StepCounts(cfg: Config, s: State, step: Step)
    requires Shape(cfg, s) && !cfg.rawRequests && IdsCounted(s)
    ensures IdsCounted(Next(cfg, s, step))
  {
    hide ExecAll, Exec;
  }

  lemma {:induction false} AlwaysCounted(cfg: Config, steps: seq<Step>)
    requires cfg.workers > 0 && !cfg.rawRequests
    ensures IdsCounted(After(cfg, steps))
    decreases |steps|
  {
    if steps != [] {
      AlwaysCounted(cfg, steps[..|steps| - 1]);
      StepCounts(cfg, After(cfg, steps[..|steps| - 1]), steps[|steps| - 1]);
    }
  }

  /** Runs in which every call goes through `request` and the 64-bit counter has not wrapped. */
  ghost predicate UniqueIds(cfg: Config, s: State) {
    !cfg.rawRequests && s.nextEventId <= TWO_TO_THE_64
  }

  lemma CountedId(s: State, i: nat)
    requires IdsCounted(s) && s.nextEventId <= TWO_TO_THE_64 && i < |s.issued|
    ensures s.issued[i].eventId == i + 1
  {
  }

  lemma ReachableCounted(cfg: Config, s: State)
    requires Reachable(cfg, s) && !cfg.rawRequests
    ensures IdsCounted(s)
  {
    hide IdsCounted;
    var steps := StepsTo(cfg, s);
    hide After, Reachable, Shape;
    AlwaysCounted(cfg, steps);
  }

  lemma IdsDiffer(s: State, c: Ctrl, d: Ctrl)
    requires IdsCounted(s) && s.nextEventId <= TWO_TO_THE_64
    requires c in s.issued && d in s.issued && c.eventId == d.eventId
    ensures c == d
  {
    hide IdsCounted;
    var i :| 0 <= i < |s.issued| && s.issued[i] == c;
    var j :| 0 <= j < |s.issued| && s.issued[j] == d;
    CountedId(s, i);
    CountedId(s, j);
  }

  lemma SameIdSameCall(cfg: Config, s: State, c: Ctrl, d: Ctrl)
    requires Reachable(cfg, s) && UniqueIds(cfg, s)
    requires c in s.issued && d in s.issued && c.eventId == d.eventId
    ensures c == d
  {
    ReachableCounted(cfg, s);
    hide Reachable, IdsCounted;
    IdsDiffer(s, c, d);
  }

  /** A started call was issued, and is started at one position of one log only. */
  lemma StartIsUnique(cfg: Config, s: State, w: nat, i: nat, v: nat, j: nat)
    requires Reachable(cfg, s)
    requires w < |s.workers| && i < |s.workers[w].log| && v < |s.workers| && j < |s.workers[v].log|
    requires s.workers[w].log[i].StartRpc? && s.workers[w].log[i] == s.workers[v].log[j]
    ensures w == v && i == j && s.workers[w].log[i].ctrl in s.issued
  {
    var c := s.workers[w].log[i].ctrl;
    var steps := StepsTo(cfg, s);
    AlwaysConserved(cfg, steps);
    hide After, Reachable;
    Distinct(s.issued, c);
    SumHas(s.workers, w, LogOf);
    SumHas(s.workers[w].log, i, CmdBag);
    SumHas(s.workers[v].log, j, CmdBag);
    assert c in LogOf(s.workers[w]) && c in LogOf(s.workers[v]);
    if w < v {
      SumTwice(s.workers, w, v, LogOf, c);
    } else if v < w {
      SumTwice(s.workers, v, w, LogOf, c);
    } else if i < j {
      SumTwice(s.workers[w].log, i, j, CmdBag, c);
    } else if j < i {
      SumTwice(s.workers[w].log, j, i, CmdBag, c);
    }
  }

  /** No call is lost to another's event id: then every call is waiting for, or has had, its completion. */
  lemma NoneLost(cfg: Config, s: State, w: nat)
    requires Reachable(cfg, s) && UniqueIds(cfg, s) && w < |s.workers|
    ensures s.workers[w].st.lost == []
  {
    var wk := s.workers[w];
    assert wk.head <= |wk.log| && wk.st == ExecAll(cfg.parse, FRESH, wk.log[..wk.head]);
    var log := wk.log[..wk.head];
    hide Reachable, ExecAll;
    forall i, j | 0 <= i < j < |log| && log[i].StartRpc? && log[j].StartRpc?
      ensures log[i].ctrl.eventId != log[j].ctrl.eventId
    {
      StartIsUnique(cfg, s, w, i, w, i);
      StartIsUnique(cfg, s, w, j, w, j);
      if log[i].ctrl.eventId == log[j].ctrl.eventId {
        SameIdSameCall(cfg, s, log[i].ctrl, log[j].ctrl);
        StartIsUnique(cfg, s, w, i, w, j);
      }
    }
    NothingLost(cfg.parse, log);
  }
}
