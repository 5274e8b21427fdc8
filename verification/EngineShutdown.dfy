/** Shutdown: the broker is joined before the workers are told to quit, so nothing it pushed is dropped. */
module EngineShutdown {
  import opened Frames
  import opened Rpc
  import opened Worker
  import opened Engine
  import opened EngineOrder

  predicate NoQuit(log: seq<Cmd>) {
    forall k :: 0 <= k < |log| ==> !log[k].QuitWorker?
  }

  /** Nothing but broker commands, then a quit. */
  predicate QuitLast(log: seq<Cmd>) {
    log != [] && log[|log| - 1].QuitWorker? && NoQuit(log[..|log| - 1])
  }

  /** The first `quits` workers have been told to quit, last thing; the others have not. */
  ghost predicate QuitsPlaced(s: State) {
    && (s.phase.Joined? ==> s.pc.Idle? && s.phase.quits <= |s.workers|)
    && forall w :: 0 <= w < |s.workers| ==>
         if s.phase.Joined? && w < s.phase.quits then QuitLast(s.workers[w].log) else NoQuit(s.workers[w].log)
  }

  /** Once the broker has left, quit commands are all that is pushed, one per worker. */
  lemma PushesAfterJoin(cfg: Config, s: State, step: Step)
    requires Shape(cfg, s) && QuitsPlaced(s)
    ensures var s', p := Next(cfg, s, step), Pushes(cfg, s, step);
      if s.phase.Joined? then
        && s'.phase.Joined? && s'.pc.Idle?
        && (if p.Some? then p.value == (s.phase.quits, QuitWorker) && s'.phase.quits == s.phase.quits + 1
            else s'.phase == s.phase)
      else
        && (p.Some? ==> !p.value.1.QuitWorker?)
        && (s'.phase.Joined? ==> s'.pc.Idle? && s'.phase.quits == 0 && p.None?)
  {
    hide ExecAll, Exec;
  }

  lemma QuitAppended(log: seq<Cmd>)
    requires NoQuit(log)
    ensures QuitLast(log + [QuitWorker])
  {
    assert (log + [QuitWorker])[..|log|] == log;
  }

  lemma StepQuitsPlaced(cfg: Config, s: State, step: Step)
    requires Shape(cfg, s) && QuitsPlaced(s)
    ensures QuitsPlaced(Next(cfg, s, step))
  {
    PushesAfterJoin(cfg, s, step);
    LogsGrow(cfg, s, step);
    var s' := Next(cfg, s, step);
    hide Next, ExecAll, Pushes;
    forall w | 0 <= w < |s'.workers|
      ensures if s'.phase.Joined? && w < s'.phase.quits then QuitLast(s'.workers[w].log) else NoQuit(s'.workers[w].log)
    {
      if s.phase.Joined? && w == s.phase.quits {
        QuitAppended(s.workers[w].log);
      }
    }
  }

  lemma {:induction false} AlwaysQuitsPlaced(cfg: Config, steps: seq<Step>)
    requires cfg.workers > 0
    ensures QuitsPlaced(After(cfg, steps))
    decreases |steps|
  {
    if steps != [] {
      AlwaysQuitsPlaced(cfg, steps[..|steps| - 1]);
      StepQuitsPlaced(cfg, After(cfg, steps[..|steps| - 1]), steps[|steps| - 1]);
    }
  }

  /** A quit command is only ever found at the end of a queue, after the join. */
  lemma QuitFound(s: State, w: nat)
    requires QuitsPlaced(s) && w < |s.workers| && s.workers[w].head <= |s.workers[w].log| && Exited(s.workers[w])
    ensures s.phase.Joined? && QuitLast(s.workers[w].log) && s.workers[w].head == |s.workers[w].log|
  {
    var wk := s.workers[w];
    assert wk.head < |wk.log| ==> wk.log[wk.head - 1] == wk.log[..|wk.log| - 1][wk.head - 1];
  }

  /** A worker that has quit has executed its whole queue, in order; the quit was its last command. */
  lemma QuitDrains(cfg: Config, s: State, w: nat)
    requires Reachable(cfg, s) && w < |s.workers| && Exited(s.workers[w])
    ensures var wk := s.workers[w];
      && s.phase.Joined? && QuitLast(wk.log)
      && wk.head == |wk.log| && wk.st == ExecAll(cfg.parse, FRESH, wk.log)
  {
    var steps := StepsTo(cfg, s);
    AlwaysQuitsPlaced(cfg, steps);
    var wk := s.workers[w];
    assert wk.head <= |wk.log| && wk.st == ExecAll(cfg.parse, FRESH, wk.log[..wk.head]);
    hide After, Reachable, ExecAll, QuitsPlaced;
    QuitFound(s, w);
    assert wk.log[..|wk.log|] == wk.log;
  }

  /** What the broker pushed: the queue without the final quit. */
  function FromBroker(log: seq<Cmd>): seq<Cmd> {
    if log != [] && log[|log| - 1].QuitWorker? then log[..|log| - 1] else log
  }

  lemma StepKeepsBrokerLog(cfg: Config, s: State, step: Step, w: nat)
    requires Shape(cfg, s) && QuitsPlaced(s) && s.phase.Joined? && w < |s.workers|
    ensures FromBroker(Next(cfg, s, step).workers[w].log) == FromBroker(s.workers[w].log)
  {
    PushesAfterJoin(cfg, s, step);
    LogsGrow(cfg, s, step);
    var log := s.workers[w].log;
    var p := Pushes(cfg, s, step);
    if p.Some? && p.value.0 == w {
      assert NoQuit(log);
      hide Next, ExecAll, Pushes, Shape, QuitsPlaced;
      assert Next(cfg, s, step).workers[w].log == log + [QuitWorker];
      assert (log + [QuitWorker])[..|log|] == log;
    }
  }

  lemma {:induction false} RunKeepsBrokerLog(cfg: Config, steps: seq<Step>, states: seq<State>, k: nat, w: nat)
    requires IsRun(cfg, steps, states) && k <= |steps|
    requires QuitsPlaced(states[0]) && states[0].phase.Joined? && w < |states[0].workers|
    ensures QuitsPlaced(states[k]) && states[k].phase.Joined? && w < |states[k].workers|
    ensures FromBroker(states[k].workers[w].log) == FromBroker(states[0].workers[w].log)
    decreases k
  {
    if k > 0 {
      var s := states[k - 1];
      assert states[k - 1 + 1] == Next(cfg, s, steps[k - 1]) && Shape(cfg, s);
      RunKeepsBrokerLog(cfg, steps, states, k - 1, w);
      hide IsRun, Shape, QuitsPlaced, FromBroker, Next;
      StepQuitsPlaced(cfg, s, steps[k - 1]);
      PushesAfterJoin(cfg, s, steps[k - 1]);
      LogsGrow(cfg, s, steps[k - 1]);
      StepKeepsBrokerLog(cfg, s, steps[k - 1], w);
    }
  }

  /** From the moment the broker is joined, the rest of the run adds no broker command to any queue. */
  lemma BrokerLogFrozen(cfg: Config, s: State, s': State, w: nat)
    requires Reachable(cfg, s) && s.phase.Joined? && Leads(cfg, s, s') && w < |s.workers|
    ensures s'.phase.Joined? && w < |s'.workers| && FromBroker(s'.workers[w].log) == FromBroker(s.workers[w].log)
  {
    var before := StepsTo(cfg, s);
    AlwaysQuitsPlaced(cfg, before);
    var steps: seq<Step>, states: seq<State> :| IsRun(cfg, steps, states) && states[0] == s && states[|steps|] == s';
    hide After, Reachable, IsRun, QuitsPlaced, FromBroker;
    RunKeepsBrokerLog(cfg, steps, states, |steps|, w);
  }

  /** Executing the quit itself leaves the worker's maps and log as they were. */
  lemma QuitChangesNothing(parse: Frame -> RpcHeader, log: seq<Cmd>)
    requires QuitLast(log)
    ensures NoQuit(FromBroker(log)) && ExecAll(parse, FRESH, log) == ExecAll(parse, FRESH, FromBroker(log))
  {
    ExecOneMore(parse, FRESH, log, |log| - 1);
    assert log[..|log|] == log;
  }

  /**
   * Shutdown drains: however the run goes on once the broker is joined, a
   * worker that quits has executed every command the broker ever pushed to it,
   * in the order it was pushed.
   */
  lemma ShutdownDrains(cfg: Config, s: State, s': State, w: nat)
    requires Reachable(cfg, s) && s.phase.Joined? && Leads(cfg, s, s')
    requires w < |s.workers| && w < |s'.workers| && s'.workers[w].head <= |s'.workers[w].log| && Exited(s'.workers[w])
    ensures var pushed := FromBroker(s.workers[w].log);
      NoQuit(pushed) && s'.workers[w].st == ExecAll(cfg.parse, FRESH, pushed)
  {
    BrokerLogFrozen(cfg, s, s', w);
    ReachOn(cfg, s, s');
    QuitDrains(cfg, s', w);
    hide Reachable, Leads;
    QuitChangesNothing(cfg.parse, s'.workers[w].log);
  }
}
