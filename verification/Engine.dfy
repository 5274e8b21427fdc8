/**
 * The whole RPC engine as a state machine: client threads, the broker thread,
 * peers, timers and workers. A run is any sequence of steps; a step that is not
 * enabled does nothing.
 */
module Engine {
  import opened Wrappers
  import opened Frames
  import opened Rpc
  import opened Worker
  import opened WorkerLaws

  /**
   * `hash` and `parse` are arbitrary. With `honestPeers`, a peer answers an
   * event only on a connection it was asked on; otherwise peers send anything.
   * With `rawRequests`, callers may also pick event ids themselves, as the unit
   * tests do through the private `request`.
   */
  datatype Config = Config(
    workers: nat,
    hash: ConnInfo -> nat,
    parse: Frame -> RpcHeader,
    honestPeers: bool,
    rawRequests: bool)

  datatype FrontCmd =
    | Request(ctrl: Ctrl, frames: seq<Frame>)
    | Reply(info: ConnInfo, frames: seq<Frame>)
    | Register(target: ConnInfo, name: string, svc: nat)
    | Closure(closure: nat)
    | Quit

  /** Where the broker thread is inside `send_request`. */
  datatype Pc = Idle | Armed(ctrl: Ctrl, frames: seq<Frame>) | Forwarded(ctrl: Ctrl)

  datatype Timer = Timer(due: nat, eventId: nat, worker: nat)

  datatype Outgoing = Outgoing(info: ConnInfo, frames: seq<Frame>)

  /** Shutdown: running, told to quit, or joined with the first `quits` workers told to quit. */
  datatype Phase = Serving | Stopping | Joined(quits: nat)

  /** `log` is everything ever pushed on the worker's queue; the first `head` commands are executed. */
  datatype WorkerRt = WorkerRt(log: seq<Cmd>, head: nat, st: WorkerState)

  /** `armed` records when the broker took each call that has a deadline. */
  datatype State = State(
    issued: seq<Ctrl>,
    nextEventId: nat,
    frontend: seq<FrontCmd>,
    pc: Pc,
    timers: seq<Timer>,
    armed: map<Ctrl, nat>,
    now: nat,
    wire: seq<Outgoing>,
    workers: seq<WorkerRt>,
    phase: Phase)

  datatype Step =
    | Submit(conn: ConnInfo, timeoutMs: int, frames: seq<Frame>)
    | SubmitRaw(eventId: nat, rawConn: ConnInfo, rawTimeoutMs: int, rawFrames: seq<Frame>)
    | Send(cmd: FrontCmd)
    | Take(i: nat, dice: nat)
    | Forward
    | PushStart
    | Receive(from: ConnInfo, header: Frame, payload: Frame)
    | Fire(timer: nat)
    | Tick(ms: nat)
    | LeaveLoop
    | PushQuit
    | Work(w: nat)

  function Init(cfg: Config): State {
    State([], 1, [], Idle, [], map[], 0, [], seq(cfg.workers, _ => WorkerRt([], 0, FRESH)), Serving)
  }

  function WorkerOf(cfg: Config, info: ConnInfo): (w: nat)
    requires cfg.workers > 0
    ensures w < cfg.workers
  {
    (cfg.hash)(info) % cfg.workers
  }

  /** Connections are spread over the workers by what their hash leaves over. */
  lemma WorkerByHash(cfg: Config, info: ConnInfo)
    requires cfg.workers > 0
    ensures exists q: nat :: (cfg.hash)(info) == q * cfg.workers + WorkerOf(cfg, info)
  {
    var h := (cfg.hash)(info);
    assert h == (h / cfg.workers) * cfg.workers + h % cfg.workers;
  }

  /** The event a frame list asks a peer about. */
  function AsksAbout(cfg: Config, frames: seq<Frame>): Option<nat> {
    if frames == [] then None else
    match (cfg.parse)(frames[0])
    case Parsed(Some(req), _) => Some(req.eventId)
    case _ => None
  }

  predicate Asked(cfg: Config, wire: seq<Outgoing>, info: ConnInfo, eventId: nat) {
    exists k :: 0 <= k < |wire| && wire[k].info == info && AsksAbout(cfg, wire[k].frames) == Some(eventId)
  }

  /** Event ids come from a 64-bit counter. */
  function NextId(s: State): nat {
    s.nextEventId % TWO_TO_THE_64
  }

  predicate Exited(wk: WorkerRt)
    requires wk.head <= |wk.log|
  {
    wk.head > 0 && wk.log[wk.head - 1].QuitWorker?
  }

  ghost predicate Shape(cfg: Config, s: State) {
    && cfg.workers > 0
    && |s.workers| == cfg.workers
    && (forall w :: 0 <= w < |s.workers| ==>
          && s.workers[w].head <= |s.workers[w].log|
          && s.workers[w].st == ExecAll(cfg.parse, FRESH, s.workers[w].log[..s.workers[w].head]))
    && (forall i :: 0 <= i < |s.timers| ==> s.timers[i].worker < cfg.workers)
  }

  predicate BrokerFree(s: State) {
    s.pc.Idle? && !s.phase.Joined?
  }

  ghost predicate Enabled(cfg: Config, s: State, step: Step)
    requires Shape(cfg, s)
  {
    match step
    case Submit(conn, timeoutMs, frames) =>
      // the header carries the event id that the request was given
      frames != [] && exists h :: (cfg.parse)(frames[0]) == Parsed(Some(h), None) && h.eventId == NextId(s)
    case SubmitRaw(_, _, _, frames) => cfg.rawRequests && frames != []
    case Send(cmd) => !cmd.Request? && (cmd.Reply? ==> AsksAbout(cfg, cmd.frames).None?)
    case Take(i, _) => BrokerFree(s) && i < |s.frontend|
    case Forward => s.pc.Armed?
    case PushStart => s.pc.Forwarded?
    case Receive(from, header, payload) =>
      BrokerFree(s) &&
      (cfg.honestPeers ==>
         match Finishes(cfg.parse, HandleData(from, header, payload))
         case None => true
         case Some(e) => Asked(cfg, s.wire, from, e))
    case Fire(i) => BrokerFree(s) && i < |s.timers| && s.timers[i].due <= s.now
    case Tick(_) => true
    case LeaveLoop => s.pc.Idle? && s.phase.Stopping?
    case PushQuit => s.phase.Joined? && s.phase.quits < |s.workers|
    case Work(w) => w < |s.workers| && s.workers[w].head < |s.workers[w].log| && !Exited(s.workers[w])
  }

  function Push(s: State, w: nat, cmd: Cmd): State
    requires w < |s.workers|
  {
    s.(workers := s.workers[w := s.workers[w].(log := s.workers[w].log + [cmd])])
  }

  /** The deadline of a call, in the unsigned 64-bit arithmetic of the clock. */
  function Deadline(now: nat, timeoutMs: int): nat {
    (now + timeoutMs) % TWO_TO_THE_64
  }

  function Issue(s: State, eventId: nat, conn: ConnInfo, timeoutMs: int, frames: seq<Frame>): State {
    var ctrl := Ctrl(|s.issued|, eventId, timeoutMs, conn);
    s.(issued := s.issued + [ctrl], frontend := s.frontend + [Request(ctrl, frames)])
  }

  /** The broker takes a command off the frontend; the frontend serves its clients in any order. */
  function TakeCmd(cfg: Config, s: State, cmd: FrontCmd, dice: nat): State
    requires Shape(cfg, s)
  {
    match cmd
    case Request(ctrl, frames) =>
      var t := s.(pc := Armed(ctrl, frames));
      if ctrl.timeoutMs == NO_TIMEOUT then t
      else
        var timer := Timer(Deadline(s.now, ctrl.timeoutMs), ctrl.eventId, WorkerOf(cfg, ctrl.conn));
        t.(timers := s.timers + [timer], armed := s.armed[ctrl := s.now])
    case Reply(info, frames) => s.(wire := s.wire + [Outgoing(info, frames)])
    case Register(info, name, svc) => Push(s, WorkerOf(cfg, info), RegisterSvc(info, name, svc))
    case Closure(closure) => Push(s, dice % cfg.workers, RunClosure(closure))
    case Quit => s.(phase := Stopping)
  }

  function Apply(cfg: Config, s: State, step: Step): State
    requires Shape(cfg, s) && Enabled(cfg, s, step)
  {
    match step
    case Submit(conn, timeoutMs, frames) =>
      Issue(s, NextId(s), conn, timeoutMs, frames).(nextEventId := s.nextEventId + 1)
    case SubmitRaw(eventId, conn, timeoutMs, frames) => Issue(s, eventId, conn, timeoutMs, frames)
    case Send(cmd) => s.(frontend := s.frontend + [cmd])
    case Take(i, dice) =>
      TakeCmd(cfg, s.(frontend := s.frontend[..i] + s.frontend[i + 1..]), s.frontend[i], dice)
    case Forward => s.(wire := s.wire + [Outgoing(s.pc.ctrl.conn, s.pc.frames)], pc := Forwarded(s.pc.ctrl))
    case PushStart => Push(s, WorkerOf(cfg, s.pc.ctrl.conn), StartRpc(s.pc.ctrl)).(pc := Idle)
    case Receive(from, header, payload) => Push(s, WorkerOf(cfg, from), HandleData(from, header, payload))
    case Fire(i) =>
      Push(s, s.timers[i].worker % cfg.workers, HandleTimeout(s.timers[i].eventId))
        .(timers := s.timers[..i] + s.timers[i + 1..])
    case Tick(ms) => s.(now := s.now + ms)
    case LeaveLoop => s.(phase := Joined(0))
    case PushQuit => Push(s, s.phase.quits, QuitWorker).(phase := Joined(s.phase.quits + 1))
    case Work(w) =>
      var wk := s.workers[w];
      s.(workers := s.workers[w := wk.(head := wk.head + 1, st := Exec(cfg.parse, wk.st, wk.log[wk.head]))])
  }

  ghost function Next(cfg: Config, s: State, step: Step): (s': State)
    requires Shape(cfg, s)
    ensures Shape(cfg, s')
  {
    if Enabled(cfg, s, step) then
      ShapeKept(cfg, s, step);
      Apply(cfg, s, step)
    else s
  }

  /** Time can pass between any two steps. */
  lemma ClockRuns(cfg: Config, s: State, ms: nat)
    requires Shape(cfg, s)
    ensures Next(cfg, s, Tick(ms)) == s.(now := s.now + ms)
  {
  }

  lemma PushKeepsShape(cfg: Config, s: State, w: nat, cmd: Cmd)
    requires Shape(cfg, s) && w < |s.workers|
    ensures Shape(cfg, Push(s, w, cmd))
  {
    var wk := s.workers[w];
    assert (wk.log + [cmd])[..wk.head] == wk.log[..wk.head];
  }

  lemma ShapeKept(cfg: Config, s: State, step: Step)
    requires Shape(cfg, s) && Enabled(cfg, s, step)
    ensures Shape(cfg, Apply(cfg, s, step))
  {
    hide ExecAll, Exec;
    match step
    case Take(i, dice) =>
      match s.frontend[i] {
        case Register(info, name, svc) => PushKeepsShape(cfg, s, WorkerOf(cfg, info), RegisterSvc(info, name, svc));
        case Closure(closure) => PushKeepsShape(cfg, s, dice % cfg.workers, RunClosure(closure));
        case _ =>
      }
    case PushStart => PushKeepsShape(cfg, s, WorkerOf(cfg, s.pc.ctrl.conn), StartRpc(s.pc.ctrl));
    case Receive(from, header, payload) =>
      PushKeepsShape(cfg, s, WorkerOf(cfg, from), HandleData(from, header, payload));
    case Fire(i) =>
      PushKeepsShape(cfg, s, s.timers[i].worker % cfg.workers, HandleTimeout(s.timers[i].eventId));
    case PushQuit => PushKeepsShape(cfg, s, s.phase.quits, QuitWorker);
    case Work(w) => ExecOneMore(cfg.parse, FRESH, s.workers[w].log, s.workers[w].head);
    case _ =>
  }

  // ---- Runs -----------------------------------------------------------------

  /** The states that a sequence of steps goes through. */
  ghost predicate IsRun(cfg: Config, steps: seq<Step>, states: seq<State>) {
    && |states| == |steps| + 1
    && (forall k :: 0 <= k < |states| ==> Shape(cfg, states[k]))
    && (forall k :: 0 <= k < |steps| ==> states[k + 1] == Next(cfg, states[k], steps[k]))
  }

  /** A state that can come after another one. */
  ghost predicate Leads(cfg: Config, s: State, s': State) {
    exists steps, states :: IsRun(cfg, steps, states) && states[0] == s && states[|steps|] == s'
  }

  /** A state of some run from the start. */
  ghost predicate Reachable(cfg: Config, s: State) {
    Shape(cfg, s) && Leads(cfg, Init(cfg), s)
  }

  /** The state after given steps. */
  ghost function After(cfg: Config, steps: seq<Step>): (s: State)
    requires cfg.workers > 0
    ensures Shape(cfg, s)
  {
    if steps == [] then Init(cfg) else Next(cfg, After(cfg, steps[..|steps| - 1]), steps[|steps| - 1])
  }

  lemma {:induction false} RunIsAfter(cfg: Config, steps: seq<Step>, states: seq<State>, k: nat)
    requires IsRun(cfg, steps, states) && cfg.workers > 0 && states[0] == Init(cfg) && k <= |steps|
    ensures states[k] == After(cfg, steps[..k])
    decreases k
  {
    hide Next;
    if k > 0 {
      RunIsAfter(cfg, steps, states, k - 1);
      assert steps[..k][..k - 1] == steps[..k - 1];
      assert states[k - 1 + 1] == Next(cfg, states[k - 1], steps[k - 1]);
    }
  }

  /** Steps to a reachable state. */
  lemma StepsTo(cfg: Config, s: State) returns (steps: seq<Step>)
    requires Reachable(cfg, s)
    ensures After(cfg, steps) == s
  {
    var run: seq<Step>, states: seq<State> :| IsRun(cfg, run, states) && states[0] == Init(cfg) && states[|run|] == s;
    hide IsRun, After, Shape;
    steps := run;
    RunIsAfter(cfg, steps, states, |steps|);
    assert steps[..|steps|] == steps;
  }

  /** One more step. */
  lemma RunGrows(cfg: Config, steps: seq<Step>, states: seq<State>, step: Step)
    requires IsRun(cfg, steps, states)
    ensures IsRun(cfg, steps + [step], states + [Next(cfg, states[|steps|], step)])
  {
    hide Next, Shape;
  }

  lemma {:induction false} AfterIsRun(cfg: Config, steps: seq<Step>) returns (states: seq<State>)
    requires cfg.workers > 0
    ensures IsRun(cfg, steps, states) && states[0] == Init(cfg) && states[|steps|] == After(cfg, steps)
    decreases |steps|
  {
    if steps == [] {
      states := [Init(cfg)];
    } else {
      var init := steps[..|steps| - 1];
      var before := AfterIsRun(cfg, init);
      hide Next, Shape;
      RunGrows(cfg, init, before, steps[|steps| - 1]);
      assert init + [steps[|steps| - 1]] == steps;
      states := before + [Next(cfg, before[|init|], steps[|steps| - 1])];
    }
  }

  /** Every sequence of steps leads to a reachable state. */
  lemma AfterIsReachable(cfg: Config, steps: seq<Step>)
    requires cfg.workers > 0
    ensures Reachable(cfg, After(cfg, steps))
  {
    var _ := AfterIsRun(cfg, steps);
  }

  lemma RunsJoin(cfg: Config, steps: seq<Step>, states: seq<State>, more: seq<Step>, later: seq<State>)
    requires IsRun(cfg, steps, states) && IsRun(cfg, more, later) && later[0] == states[|steps|]
    ensures IsRun(cfg, steps + more, states + later[1..])
    ensures (states + later[1..])[0] == states[0] && (states + later[1..])[|steps + more|] == later[|more|]
  {
    hide Next, Shape;
    var all := states + later[1..];
    forall k | 0 <= k < |steps + more| ensures all[k + 1] == Next(cfg, all[k], (steps + more)[k]) {
      if k < |steps| {
        assert states[k + 1] == Next(cfg, states[k], steps[k]);
      } else {
        var j := k - |steps|;
        assert later[j + 1] == Next(cfg, later[j], more[j]);
        assert all[k + 1] == later[j + 1] && all[k] == later[j];
      }
    }
    forall k | 0 <= k < |all| ensures Shape(cfg, all[k]) {
      assert k < |states| || all[k] == later[k - |steps|];
    }
  }

  lemma ReachOn(cfg: Config, s: State, s': State)
    requires Reachable(cfg, s) && Leads(cfg, s, s')
    ensures Reachable(cfg, s')
  {
    var steps: seq<Step>, states: seq<State> :| IsRun(cfg, steps, states) && states[0] == Init(cfg)
      && states[|steps|] == s;
    var more: seq<Step>, later: seq<State> :| IsRun(cfg, more, later) && later[0] == s && later[|more|] == s';
    RunsJoin(cfg, steps, states, more, later);
    assert Shape(cfg, later[|more|]);
  }
}
