/** The order of commands in the worker queues: affinity, and start before finish. */
module EngineOrder {
  import opened Wrappers
  import opened Frames
  import opened Rpc
  import opened Worker
  import opened WorkerLaws
  import opened Engine
  import opened EngineConservation

  /** The command a step pushes, and the worker it pushes to. */
  ghost function Pushes(cfg: Config, s: State, step: Step): (p: Option<(nat, Cmd)>)
    requires Shape(cfg, s)
    ensures p.Some? ==> p.value.0 < |s.workers|
  {
    if !Enabled(cfg, s, step) then None else
    match step
    case Take(i, dice) =>
      (match s.frontend[i]
       case Register(info, name, svc) => Some((WorkerOf(cfg, info), RegisterSvc(info, name, svc)))
       case Closure(closure) => Some((dice % cfg.workers, RunClosure(closure)))
       case _ => None)
    case PushStart => Some((WorkerOf(cfg, s.pc.ctrl.conn), StartRpc(s.pc.ctrl)))
    case Receive(from, header, payload) => Some((WorkerOf(cfg, from), HandleData(from, header, payload)))
    case Fire(i) => Some((s.timers[i].worker, HandleTimeout(s.timers[i].eventId)))
    case PushQuit => Some((s.phase.quits, QuitWorker))
    case _ => None
  }

  ghost function LogAfter(cfg: Config, s: State, step: Step, w: nat): seq<Cmd>
    requires Shape(cfg, s) && w < |s.workers|
  {
    var p := Pushes(cfg, s, step);
    if p.Some? && p.value.0 == w then s.workers[w].log + [p.value.1] else s.workers[w].log
  }

  lemma WorkersAfter(cfg: Config, s: State, step: Step)
    requires Shape(cfg, s)
    ensures var p, wks := Pushes(cfg, s, step), Next(cfg, s, step).workers;
      if p.Some? then wks == Push(s, p.value.0, p.value.1).workers
      else step.Work? || wks == s.workers
  {
    hide ExecAll, Exec;
    if Enabled(cfg, s, step) {
      match step
      case Take(i, _) =>
        match s.frontend[i] {
          case Closure(_) =>
          case Register(_, _, _) =>
          case _ =>
        }
      case Fire(i) => assert s.timers[i].worker % cfg.workers == s.timers[i].worker;
      case _ =>
    }
  }

  /** A step changes the queues by its push and in no other way. */
  lemma LogsGrow(cfg: Config, s: State, step: Step)
    requires Shape(cfg, s)
    ensures |Next(cfg, s, step).workers| == |s.workers|
    ensures forall w :: 0 <= w < |s.workers| ==> Next(cfg, s, step).workers[w].log == LogAfter(cfg, s, step, w)
  {
    hide ExecAll, Exec;
    WorkersAfter(cfg, s, step);
    if !step.Work? {
      hide Next, Pushes, Shape;
    }
  }

  // ---- Affinity -------------------------------------------------------------

  ghost predicate Placed(cfg: Config, s: State)
    requires cfg.workers > 0
  {
    forall w, k :: 0 <= w < |s.workers| && 0 <= k < |s.workers[w].log| && About(s.workers[w].log[k]).Some? ==>
      w == WorkerOf(cfg, About(s.workers[w].log[k]).value)
  }

  lemma {:induction false} AlwaysPlaced(cfg: Config, steps: seq<Step>)
    requires cfg.workers > 0
    ensures Placed(cfg, After(cfg, steps))
    decreases |steps|
  {
    if steps != [] {
      var s, step := After(cfg, steps[..|steps| - 1]), steps[|steps| - 1];
      AlwaysPlaced(cfg, steps[..|steps| - 1]);
      LogsGrow(cfg, s, step);
      hide Enabled, Next, ExecAll;
    }
  }

  /**
   * Affinity: every command about a connection is in the queue of that
   * connection's worker; no other worker has a handler for it; and the handler
   * has been given exactly the connection's deliveries, in the broker's order.
   */
  lemma Affinity(cfg: Config, s: State, w: nat, info: ConnInfo)
    requires Reachable(cfg, s) && w < |s.workers|
    ensures var wk := s.workers[w];
      && (forall k :: 0 <= k < |wk.log| && About(wk.log[k]) == Some(info) ==> w == WorkerOf(cfg, info))
      && (info in wk.st.handlers ==>
            w == WorkerOf(cfg, info) && wk.st.handlers[info] == Deliveries(cfg.parse, wk.log[..wk.head], info))
      && (info !in wk.st.handlers ==> Deliveries(cfg.parse, wk.log[..wk.head], info) == [])
  {
    var steps := StepsTo(cfg, s);
    AlwaysPlaced(cfg, steps);
    var wk := s.workers[w];
    hide After, Reachable, ExecAll;
    HandlersAreDeliveries(cfg.parse, wk.log[..wk.head], info);
    if Deliveries(cfg.parse, wk.log[..wk.head], info) != [] {
      var k := DeliveredAbout(cfg.parse, wk.log[..wk.head], info);
      assert About(wk.log[k]) == Some(info);
    }
  }

  /** In the whole system a connection has at most one request handler. */
  lemma OneHandlerPerConnection(cfg: Config, s: State, w: nat, v: nat, info: ConnInfo)
    requires Reachable(cfg, s) && w < |s.workers| && v < |s.workers|
    requires info in s.workers[w].st.handlers && info in s.workers[v].st.handlers
    ensures w == v
  {
    Affinity(cfg, s, w, info);
    Affinity(cfg, s, v, info);
  }

  // ---- Start before finish --------------------------------------------------

  predicate StartedBefore(log: seq<Cmd>, k: nat, eventId: nat) {
    exists j :: 0 <= j < k && j < |log| && Starts(log[j], eventId)
  }

  lemma StartedStays(log: seq<Cmd>, more: seq<Cmd>, k: nat, eventId: nat)
    requires StartedBefore(log, k, eventId)
    ensures StartedBefore(log + more, k, eventId)
    ensures StartedBefore(log + more, |log + more|, eventId)
  {
    var j :| 0 <= j < k && j < |log| && Starts(log[j], eventId);
    assert (log + more)[j] == log[j];
  }

  /** The broker holds a call with this event id bound for worker `w`. */
  predicate InHand(cfg: Config, pc: Pc, w: nat, eventId: nat)
    requires cfg.workers > 0
  {
    !pc.Idle? && pc.ctrl.eventId == eventId && WorkerOf(cfg, pc.ctrl.conn) == w
  }

  predicate StartedOrInHand(cfg: Config, s: State, w: nat, eventId: nat)
    requires cfg.workers > 0
  {
    w < |s.workers| && (StartedBefore(s.workers[w].log, |s.workers[w].log|, eventId) || InHand(cfg, s.pc, w, eventId))
  }

  /** A step keeps a call started or in hand. */
  lemma StartedOrInHandStays(cfg: Config, s: State, step: Step, w: nat, eventId: nat)
    requires Shape(cfg, s) && StartedOrInHand(cfg, s, w, eventId)
    ensures StartedOrInHand(cfg, Next(cfg, s, step), w, eventId)
  {
    var s' := Next(cfg, s, step);
    LogsGrow(cfg, s, step);
    var log, log' := s.workers[w].log, s'.workers[w].log;
    if StartedBefore(log, |log|, eventId) {
      hide Next;
      StartedStays(log, log'[|log|..], |log|, eventId);
      assert log' == log + log'[|log|..];
    } else if step.PushStart? && Enabled(cfg, s, step) {
      hide ExecAll;
      assert Starts(log'[|log|], eventId);
    } else {
      hide ExecAll, Exec;
    }
  }

  ghost predicate TimersFollow(cfg: Config, s: State)
    requires cfg.workers > 0
  {
    forall i :: 0 <= i < |s.timers| ==> StartedOrInHand(cfg, s, s.timers[i].worker, s.timers[i].eventId)
  }

  /** A timer after the step was there before, or belongs to the call just taken in hand. */
  lemma TimersAfter(cfg: Config, s: State, step: Step, i: nat)
    requires Shape(cfg, s) && i < |Next(cfg, s, step).timers|
    ensures var s' := Next(cfg, s, step); var t := s'.timers[i];
      || t in s.timers
      || (InHand(cfg, s'.pc, t.worker, t.eventId) && s'.pc.Armed? && s'.pc.ctrl.timeoutMs != NO_TIMEOUT)
  {
    hide ExecAll, Exec;
  }

  lemma StepTimersFollow(cfg: Config, s: State, step: Step)
    requires Shape(cfg, s) && TimersFollow(cfg, s)
    ensures TimersFollow(cfg, Next(cfg, s, step))
  {
    var s' := Next(cfg, s, step);
    forall i | 0 <= i < |s'.timers| ensures StartedOrInHand(cfg, s', s'.timers[i].worker, s'.timers[i].eventId) {
      TimersAfter(cfg, s, step, i);
      var t := s'.timers[i];
      if t in s.timers {
        StartedOrInHandStays(cfg, s, step, t.worker, t.eventId);
      }
    }
  }

  ghost predicate TimeoutsFollow(s: State) {
    forall w, k :: 0 <= w < |s.workers| && 0 <= k < |s.workers[w].log| && s.workers[w].log[k].HandleTimeout? ==>
      StartedBefore(s.workers[w].log, k, s.workers[w].log[k].eventId)
  }

  lemma StepTimeoutsFollow(cfg: Config, s: State, step: Step)
    requires Shape(cfg, s) && TimersFollow(cfg, s) && TimeoutsFollow(s)
    ensures TimeoutsFollow(Next(cfg, s, step))
  {
    var s' := Next(cfg, s, step);
    LogsGrow(cfg, s, step);
    forall w, k | 0 <= w < |s'.workers| && 0 <= k < |s'.workers[w].log| && s'.workers[w].log[k].HandleTimeout?
      ensures StartedBefore(s'.workers[w].log, k, s'.workers[w].log[k].eventId)
    {
      var log := s.workers[w].log;
      hide Next, ExecAll;
      if k == |log| {
        // pushed by Fire, with the broker idle: the call is started
        assert step.Fire? && s.pc.Idle?;
        assert StartedOrInHand(cfg, s, s.timers[step.timer].worker, s.timers[step.timer].eventId);
      }
      StartedStays(log, LogAfter(cfg, s, step, w)[|log|..], k, s'.workers[w].log[k].eventId);
      assert LogAfter(cfg, s, step, w) == log + LogAfter(cfg, s, step, w)[|log|..];
    }
  }

  lemma {:induction false} AlwaysTimeoutsFollow(cfg: Config, steps: seq<Step>)
    requires cfg.workers > 0
    ensures TimersFollow(cfg, After(cfg, steps)) && TimeoutsFollow(After(cfg, steps))
    decreases |steps|
  {
    if steps != [] {
      var s, step := After(cfg, steps[..|steps| - 1]), steps[|steps| - 1];
      AlwaysTimeoutsFollow(cfg, steps[..|steps| - 1]);
      StepTimersFollow(cfg, s, step);
      StepTimeoutsFollow(cfg, s, step);
    }
  }

  /** Requests name their own event in the header they send; replies ask nothing. */
  ghost predicate HeadersMatch(cfg: Config, s: State) {
    && (forall i :: 0 <= i < |s.frontend| ==>
          match s.frontend[i]
          case Request(ctrl, frames) => AsksAbout(cfg, frames) == Some(ctrl.eventId)
          case Reply(_, frames) => AsksAbout(cfg, frames) == None
          case _ => true)
    && (s.pc.Armed? ==> AsksAbout(cfg, s.pc.frames) == Some(s.pc.ctrl.eventId))
  }

  lemma StepHeadersMatch(cfg: Config, s: State, step: Step)
    requires Shape(cfg, s) && HeadersMatch(cfg, s) && !cfg.rawRequests
    ensures HeadersMatch(cfg, Next(cfg, s, step))
  {
    hide ExecAll, Exec;
  }

  /** The question on the wire is a call already started, or the one the broker just forwarded. */
  ghost predicate AsksFollow(cfg: Config, s: State)
    requires cfg.workers > 0
  {
    forall k :: 0 <= k < |s.wire| && AsksAbout(cfg, s.wire[k].frames).Some? ==>
      StartedOrInHand(cfg, s, WorkerOf(cfg, s.wire[k].info), AsksAbout(cfg, s.wire[k].frames).value)
  }

  lemma WireAfter(cfg: Config, s: State, step: Step, k: nat)
    requires Shape(cfg, s) && HeadersMatch(cfg, s) && k < |Next(cfg, s, step).wire|
    ensures var s' := Next(cfg, s, step); var m := s'.wire[k];
      || m in s.wire
      || AsksAbout(cfg, m.frames) == None
      || (AsksAbout(cfg, m.frames).Some? && InHand(cfg, s'.pc, WorkerOf(cfg, m.info), AsksAbout(cfg, m.frames).value))
  {
    hide ExecAll, Exec, AsksAbout;
  }

  lemma StepAsksFollow(cfg: Config, s: State, step: Step)
    requires Shape(cfg, s) && HeadersMatch(cfg, s) && AsksFollow(cfg, s)
    ensures AsksFollow(cfg, Next(cfg, s, step))
  {
    var s' := Next(cfg, s, step);
    forall k | 0 <= k < |s'.wire| && AsksAbout(cfg, s'.wire[k].frames).Some?
      ensures StartedOrInHand(cfg, s', WorkerOf(cfg, s'.wire[k].info), AsksAbout(cfg, s'.wire[k].frames).value)
    {
      WireAfter(cfg, s, step, k);
      LogsGrow(cfg, s, step);
      if s'.wire[k] in s.wire {
        StartedOrInHandStays(cfg, s, step, WorkerOf(cfg, s'.wire[k].info), AsksAbout(cfg, s'.wire[k].frames).value);
      }
    }
  }

  ghost predicate FinishesFollow(cfg: Config, s: State) {
    forall w, k |
        0 <= w < |s.workers| && 0 <= k < |s.workers[w].log| && Finishes(cfg.parse, s.workers[w].log[k]).Some?
      ::
      StartedBefore(s.workers[w].log, k, Finishes(cfg.parse, s.workers[w].log[k]).value)
  }

  /** Some connection of worker `w` has been asked about the event. */
  predicate AskedAt(cfg: Config, wire: seq<Outgoing>, w: nat, eventId: nat)
    requires cfg.workers > 0
  {
    exists k :: 0 <= k < |wire| && WorkerOf(cfg, wire[k].info) == w && AsksAbout(cfg, wire[k].frames) == Some(eventId)
  }

  /** An answer that is received was asked for before, if perhaps on another connection of the same worker. */
  ghost predicate InTime(cfg: Config, s: State, step: Step)
    requires Shape(cfg, s)
  {
    step.Receive? && Enabled(cfg, s, step) ==>
      var e := Finishes(cfg.parse, HandleData(step.from, step.header, step.payload));
      e.Some? ==> AskedAt(cfg, s.wire, WorkerOf(cfg, step.from), e.value)
  }

  lemma HonestIsInTime(cfg: Config, s: State, step: Step)
    requires Shape(cfg, s) && cfg.honestPeers
    ensures InTime(cfg, s, step)
  {
    hide Shape, Finishes, AsksAbout;
    if step.Receive? && Enabled(cfg, s, step) {
      var e := Finishes(cfg.parse, HandleData(step.from, step.header, step.payload));
      if e.Some? {
        assert Asked(cfg, s.wire, step.from, e.value);
      }
    }
  }

  /** A finishing command is pushed for a call that is started. */
  lemma PushedFinishFollows(cfg: Config, s: State, step: Step)
    requires Shape(cfg, s) && InTime(cfg, s, step) && TimersFollow(cfg, s) && AsksFollow(cfg, s)
    requires Pushes(cfg, s, step).Some? && Finishes(cfg.parse, Pushes(cfg, s, step).value.1).Some?
    ensures var (w, cmd) := Pushes(cfg, s, step).value;
      StartedBefore(s.workers[w].log, |s.workers[w].log|, Finishes(cfg.parse, cmd).value)
  {
    hide ExecAll, AsksAbout, Next;
    if step.Fire? {
      assert StartedOrInHand(cfg, s, s.timers[step.timer].worker, s.timers[step.timer].eventId);
    } else {
      var w, e := Pushes(cfg, s, step).value.0, Finishes(cfg.parse, Pushes(cfg, s, step).value.1).value;
      assert step.Receive? && AskedAt(cfg, s.wire, w, e);
      assert StartedOrInHand(cfg, s, w, e);
    }
  }

  lemma StepFinishesFollow(cfg: Config, s: State, step: Step)
    requires Shape(cfg, s) && InTime(cfg, s, step) && TimersFollow(cfg, s) && AsksFollow(cfg, s)
      && FinishesFollow(cfg, s)
    ensures FinishesFollow(cfg, Next(cfg, s, step))
  {
    var s' := Next(cfg, s, step);
    LogsGrow(cfg, s, step);
    hide Next, Shape, TimersFollow, AsksFollow, Pushes, InTime;
    forall w, k | 0 <= w < |s'.workers| && 0 <= k < |s'.workers[w].log|
      && Finishes(cfg.parse, s'.workers[w].log[k]).Some?
      ensures StartedBefore(s'.workers[w].log, k, Finishes(cfg.parse, s'.workers[w].log[k]).value)
    {
      var log, e := s.workers[w].log, Finishes(cfg.parse, s'.workers[w].log[k]).value;
      if k == |log| {
        PushedFinishFollows(cfg, s, step);
      } else {
        assert s'.workers[w].log[k] == log[k];
      }
      StartedStays(log, LogAfter(cfg, s, step, w)[|log|..], k, e);
      assert LogAfter(cfg, s, step, w) == log + LogAfter(cfg, s, step, w)[|log|..];
    }
  }

  lemma {:induction false} AlwaysFinishesFollow(cfg: Config, steps: seq<Step>)
    requires cfg.workers > 0 && cfg.honestPeers && !cfg.rawRequests
    ensures HeadersMatch(cfg, After(cfg, steps)) && AsksFollow(cfg, After(cfg, steps))
      && FinishesFollow(cfg, After(cfg, steps))
    decreases |steps|
  {
    if steps != [] {
      var s, step := After(cfg, steps[..|steps| - 1]), steps[|steps| - 1];
      AlwaysFinishesFollow(cfg, steps[..|steps| - 1]);
      AlwaysTimeoutsFollow(cfg, steps[..|steps| - 1]);
      StepHeadersMatch(cfg, s, step);
      StepAsksFollow(cfg, s, step);
      HonestIsInTime(cfg, s, step);
      StepFinishesFollow(cfg, s, step);
    }
  }

  /** A timeout reaches a worker only after the start of a call with its event id: any run, any peers. */
  lemma TimeoutFollowsStart(cfg: Config, s: State, w: nat, k: nat)
    requires Reachable(cfg, s) && w < |s.workers| && k < |s.workers[w].log| && s.workers[w].log[k].HandleTimeout?
    ensures exists j :: 0 <= j < k && Starts(s.workers[w].log[j], s.workers[w].log[k].eventId)
  {
    var steps := StepsTo(cfg, s);
    AlwaysTimeoutsFollow(cfg, steps);
  }

  /**
   * Start precedes finish: although the broker forwards a request before it
   * pushes the start, no queue ever holds a response or timeout for a call
   * ahead of the call's start, nor in another worker's queue.
   */
  lemma StartPrecedesFinish(cfg: Config, s: State, w: nat, j: nat, v: nat, k: nat)
    requires Reachable(cfg, s) && cfg.honestPeers && UniqueIds(cfg, s)
    requires w < |s.workers| && j < |s.workers[w].log| && v < |s.workers| && k < |s.workers[v].log|
    requires s.workers[w].log[j].StartRpc?
    requires Finishes(cfg.parse, s.workers[v].log[k]) == Some(s.workers[w].log[j].ctrl.eventId)
    ensures w == v && j < k
  {
    var c := s.workers[w].log[j].ctrl;
    var steps := StepsTo(cfg, s);
    AlwaysFinishesFollow(cfg, steps);
    hide After, Reachable, Finishes;
    var i :| 0 <= i < k && Starts(s.workers[v].log[i], c.eventId);
    StartIsUnique(cfg, s, w, j, w, j);
    StartIsUnique(cfg, s, v, i, v, i);
    SameIdSameCall(cfg, s, c, s.workers[v].log[i].ctrl);
    StartIsUnique(cfg, s, w, j, v, i);
  }

  /** A response or timeout that finds no call is late: the call has already been completed. */
  lemma DroppedMeansCompleted(cfg: Config, s: State, w: nat)
    requires Reachable(cfg, s) && cfg.honestPeers && UniqueIds(cfg, s)
    requires w < |s.workers|
    requires var wk := s.workers[w];
      && wk.head < |wk.log|
      && Finishes(cfg.parse, wk.log[wk.head]).Some?
      && Finishes(cfg.parse, wk.log[wk.head]).value !in wk.st.calls
    ensures var wk := s.workers[w];
      exists i :: 0 <= i < |wk.st.done| && wk.st.done[i].ctrl.eventId == Finishes(cfg.parse, wk.log[wk.head]).value
  {
    var wk := s.workers[w];
    assert wk.st == ExecAll(cfg.parse, FRESH, wk.log[..wk.head]);
    var steps := StepsTo(cfg, s);
    AlwaysFinishesFollow(cfg, steps);
    NoneLost(cfg, s, w);
    hide After, Reachable, Finishes;
    var e := Finishes(cfg.parse, wk.log[wk.head]).value;
    var j :| 0 <= j < wk.head && Starts(wk.log[j], e);
    assert wk.log[..wk.head][j] == wk.log[j];
    StartedIsSomewhere(cfg.parse, wk.log[..wk.head], j);
  }

  /** The forged answer is in the queue of the call's worker, and the start behind it. */
  ghost predicate Overtaken(cfg: Config, s: State, conn: ConnInfo, answer: Frame)
    requires cfg.workers > 0
  {
    var w, start := WorkerOf(cfg, conn), StartRpc(Ctrl(0, 1, NO_TIMEOUT, conn));
    w < |s.workers| && s.workers[w].log == [HandleData(conn, answer, EMPTY), start]
  }

  function ForgedRun(conn: ConnInfo, ask: seq<Frame>, answer: Frame): seq<Step> {
    [] + [Submit(conn, NO_TIMEOUT, ask)] + [Receive(conn, answer, EMPTY)] + [Take(0, 0)] + [Forward] + [PushStart]
  }

  /**
   * Why peers must be honest: one that guesses the next event id can answer
   * before the question is sent. The answer is then ahead of the start, and the
   * worker throws it away.
   */
  lemma ForgedAnswerOvertakes(cfg: Config, conn: ConnInfo, ask: seq<Frame>, answer: Frame)
    requires cfg.workers > 0 && !cfg.honestPeers && ask != []
    requires (cfg.parse)(ask[0]) == Parsed(Some(ReqHeader(1, "service", "method")), None)
    requires (cfg.parse)(answer) == Parsed(None, Some(RespHeader(1, None)))
    ensures Overtaken(cfg, After(cfg, ForgedRun(conn, ask, answer)), conn, answer)
    ensures Finishes(cfg.parse, HandleData(conn, answer, EMPTY)) == Some(1)
  {
    ForgedArrives(cfg, conn, ask, answer);
    hide Next, After, Shape, ForgedRun;
    CallStarts(cfg, ForgedState(cfg, conn, ask, answer), Ctrl(0, 1, NO_TIMEOUT, conn), ask);
    ForgedSteps(cfg, conn, ask, answer);
  }

  /** After the call was submitted and the answer received. */
  ghost function ForgedState(cfg: Config, conn: ConnInfo, ask: seq<Frame>, answer: Frame): State
    requires cfg.workers > 0
  {
    Next(cfg, Next(cfg, Init(cfg), Submit(conn, NO_TIMEOUT, ask)), Receive(conn, answer, EMPTY))
  }

  lemma ForgedSteps(cfg: Config, conn: ConnInfo, ask: seq<Frame>, answer: Frame)
    requires cfg.workers > 0
    ensures After(cfg, ForgedRun(conn, ask, answer)) ==
      Next(cfg, Next(cfg, Next(cfg, ForgedState(cfg, conn, ask, answer), Take(0, 0)), Forward), PushStart)
  {
    var submitted: seq<Step> := [] + [Submit(conn, NO_TIMEOUT, ask)];
    assert After(cfg, []) == Init(cfg);
    hide After, Next;
    OneMoreStep(cfg, [], Submit(conn, NO_TIMEOUT, ask));
    OneMoreStep(cfg, submitted, Receive(conn, answer, EMPTY));
    ThreeMoreSteps(cfg, submitted + [Receive(conn, answer, EMPTY)], Take(0, 0), Forward, PushStart);
  }

  lemma ThreeMoreSteps(cfg: Config, steps: seq<Step>, a: Step, b: Step, c: Step)
    requires cfg.workers > 0
    ensures After(cfg, steps + [a] + [b] + [c]) == Next(cfg, Next(cfg, Next(cfg, After(cfg, steps), a), b), c)
  {
    hide Next, After;
    OneMoreStep(cfg, steps, a);
    OneMoreStep(cfg, steps + [a], b);
    OneMoreStep(cfg, steps + [a] + [b], c);
  }

  lemma OneMoreStep(cfg: Config, steps: seq<Step>, step: Step)
    requires cfg.workers > 0
    ensures After(cfg, steps + [step]) == Next(cfg, After(cfg, steps), step)
  {
    assert (steps + [step])[..|steps|] == steps;
  }

  lemma ForgedArrives(cfg: Config, conn: ConnInfo, ask: seq<Frame>, answer: Frame)
    requires Shape(cfg, Init(cfg)) && !cfg.honestPeers && ask != []
    requires (cfg.parse)(ask[0]) == Parsed(Some(ReqHeader(1, "service", "method")), None)
    ensures var s := ForgedState(cfg, conn, ask, answer);
      && BrokerFree(s) && s.frontend == [FrontCmd.Request(Ctrl(0, 1, NO_TIMEOUT, conn), ask)]
      && s.workers[WorkerOf(cfg, conn)].log == [HandleData(conn, answer, EMPTY)]
  {
    hide ExecAll, Exec, WorkerOf, Finishes;
    var s1 := Next(cfg, Init(cfg), Submit(conn, NO_TIMEOUT, ask));
    assert s1.frontend == [FrontCmd.Request(Ctrl(0, 1, NO_TIMEOUT, conn), ask)];
    assert s1.workers == Init(cfg).workers && BrokerFree(s1);
  }

  lemma CallStarts(cfg: Config, s: State, ctrl: Ctrl, ask: seq<Frame>)
    requires Shape(cfg, s) && BrokerFree(s) && s.frontend == [FrontCmd.Request(ctrl, ask)]
    ensures var s' := Next(cfg, Next(cfg, Next(cfg, s, Take(0, 0)), Forward), PushStart);
      WorkerOf(cfg, ctrl.conn) < |s'.workers| &&
      s'.workers[WorkerOf(cfg, ctrl.conn)].log == s.workers[WorkerOf(cfg, ctrl.conn)].log + [StartRpc(ctrl)]
  {
    hide ExecAll, Exec, WorkerOf;
    var s1 := Next(cfg, s, Take(0, 0));
    assert s1.pc == Armed(ctrl, ask) && s1.workers == s.workers;
    var s2 := Next(cfg, s1, Forward);
    assert s2.pc == Forwarded(ctrl) && s2.workers == s.workers;
  }
}
