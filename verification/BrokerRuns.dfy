/** What any sequence of client commands makes of the broker thread. */
module BrokerRuns {
  import opened Wrappers
  import opened Sequences
  import opened Frames
  import opened Rpc
  import opened Codec
  import opened Broker
  import opened BrokerThread
  import E = Engine

  /** A command as it was handled: when, for whom, and with which new socket, if it makes one. */
  datatype Served = Served(c: ClientCmd, sender: Frame, now: nat, dice: nat, socket: Socket)

  /** The broker's code, command after command. */
  function AfterAll(cfg: E.Config, memory: nat -> Ctrl, s: State, run: seq<Served>): State
    requires cfg.workers > 0
  {
    if run == [] then s
    else
      var last := run[|run| - 1];
      After(AfterAll(cfg, memory, s, run[..|run| - 1]), last.c, last.sender,
        EffectOf(cfg, memory, last.c, last.now, last.dice), last.socket)
  }

  // ---- Timers and the end ---------------------------------------------------

  /** One timer for each call that asked for one, due that long after the command was handled, in order. */
  function Deadlines(cfg: E.Config, memory: nat -> Ctrl, run: seq<Served>): seq<E.Timer>
    requires cfg.workers > 0
  {
    if run == [] then []
    else DeadlineOf(cfg, memory, run[0]) + Deadlines(cfg, memory, run[1..])
  }

  function DeadlineOf(cfg: E.Config, memory: nat -> Ctrl, m: Served): seq<E.Timer>
    requires cfg.workers > 0
  {
    if m.c.Request? && memory(m.c.ptr).timeoutMs != NO_TIMEOUT then
      var call := memory(m.c.ptr);
      [E.Timer((m.now + call.timeoutMs) % TWO_TO_THE_64, call.eventId, E.WorkerOf(cfg, m.c.info))]
    else []
  }

  lemma {:induction false} DeadlinesAppend(cfg: E.Config, memory: nat -> Ctrl, run: seq<Served>, m: Served)
    requires cfg.workers > 0
    ensures Deadlines(cfg, memory, run + [m]) == Deadlines(cfg, memory, run) + DeadlineOf(cfg, memory, m)
    decreases |run|
  {
    hide DeadlineOf;
    if run == [] {
      assert [m][1..] == [] && DeadlineOf(cfg, memory, m) + [] == DeadlineOf(cfg, memory, m);
    } else {
      assert (run + [m])[1..] == run[1..] + [m];
      DeadlinesAppend(cfg, memory, run[1..], m);
      Assoc(DeadlineOf(cfg, memory, run[0]), Deadlines(cfg, memory, run[1..]), DeadlineOf(cfg, memory, m));
    }
  }

  lemma LastServed(run: seq<Served>)
    requires run != []
    ensures run == run[..|run| - 1] + [run[|run| - 1]]
  {
  }

  lemma {:induction false} TimersAre(cfg: E.Config, memory: nat -> Ctrl, s: State, run: seq<Served>)
    requires cfg.workers > 0
    ensures AfterAll(cfg, memory, s, run).timers == s.timers + Deadlines(cfg, memory, run)
    decreases |run|
  {
    if run != [] {
      var init, m := run[..|run| - 1], run[|run| - 1];
      TimersAre(cfg, memory, s, init);
      LastServed(run);
      DeadlinesAppend(cfg, memory, init, m);
      EffectTimers(cfg, memory, m);
      Assoc(s.timers, Deadlines(cfg, memory, init), DeadlineOf(cfg, memory, m));
    }
  }

  lemma EffectTimers(cfg: E.Config, memory: nat -> Ctrl, m: Served)
    requires cfg.workers > 0
    ensures EffectOf(cfg, memory, m.c, m.now, m.dice).timers == DeadlineOf(cfg, memory, m)
  {
  }

  /** The thread is told to quit if and only if a client says so. */
  lemma {:induction false} QuitIff(cfg: E.Config, memory: nat -> Ctrl, s: State, run: seq<Served>)
    requires cfg.workers > 0
    ensures AfterAll(cfg, memory, s, run).quit <==> s.quit || exists k :: 0 <= k < |run| && run[k].c.Quit?
    decreases |run|
  {
    if run != [] {
      var n := |run| - 1;
      QuitIff(cfg, memory, s, run[..n]);
      assert forall k :: 0 <= k < n ==> run[..n][k] == run[k];
      hide EffectOf;
    }
  }

  // ---- Sockets --------------------------------------------------------------

  /** The sockets that connecting makes, or that binding makes. */
  function Made(run: seq<Served>, binding: bool): seq<Socket?> {
    if run == [] then []
    else
      (if (if binding then run[0].c.Bind? else run[0].c.Connect?) then [run[0].socket] else [])
      + Made(run[1..], binding)
  }

  lemma {:induction false} MadeAppend(run: seq<Served>, m: Served, binding: bool)
    ensures Made(run + [m], binding) ==
      Made(run, binding) + if (if binding then m.c.Bind? else m.c.Connect?) then [m.socket] else []
    decreases |run|
  {
    if run == [] {
      assert [m][1..] == [];
    } else {
      assert (run + [m])[1..] == run[1..] + [m];
      MadeAppend(run[1..], m, binding);
      Assoc(if (if binding then run[0].c.Bind? else run[0].c.Connect?) then [run[0].socket] else [],
        Made(run[1..], binding), if (if binding then m.c.Bind? else m.c.Connect?) then [m.socket] else []);
    }
  }

  /** Each list of sockets grows by the ones that are made for it, in order, and nothing is taken out. */
  lemma {:induction false} SocketsAre(cfg: E.Config, memory: nat -> Ctrl, s: State, run: seq<Served>)
    requires cfg.workers > 0
    ensures AfterAll(cfg, memory, s, run).dealers == s.dealers + Made(run, false)
    ensures AfterAll(cfg, memory, s, run).routers == s.routers + Made(run, true)
    decreases |run|
  {
    if run != [] {
      var init, m := run[..|run| - 1], run[|run| - 1];
      SocketsAre(cfg, memory, s, init);
      LastServed(run);
      MadeAppend(init, m, false);
      MadeAppend(init, m, true);
      hide EffectOf, Made;
      Assoc(s.dealers, Made(init, false), [m.socket]);
      Assoc(s.routers, Made(init, true), [m.socket]);
    }
  }

  /** The command binds or unbinds the endpoint. */
  predicate Concerns(c: ClientCmd, endpoint: Frame) {
    (c.Bind? || c.Unbind?) && c.endpoint == endpoint
  }

  /** The last command that binds or unbinds an endpoint decides whether it is bound, and to which socket. */
  lemma {:induction false} LastBindWins(cfg: E.Config, memory: nat -> Ctrl, s: State, run: seq<Served>,
      endpoint: Frame, k: int)
    requires cfg.workers > 0 && -1 <= k < |run| && forall j :: k < j < |run| ==> !Concerns(run[j].c, endpoint)
    requires k >= 0 ==> Concerns(run[k].c, endpoint)
    ensures var bound := AfterAll(cfg, memory, s, run).bindMap;
      if k < 0 then
        (endpoint in bound <==> endpoint in s.bindMap) && (endpoint in bound ==> bound[endpoint] == s.bindMap[endpoint])
      else if run[k].c.Bind? then endpoint in bound && bound[endpoint] == run[k].socket
      else endpoint !in bound
    decreases |run|
  {
    if run != [] {
      var n := |run| - 1;
      if k < n {
        LastBindWins(cfg, memory, s, run[..n], endpoint, k);
      }
      hide EffectOf;
    }
  }

  // ---- Queues ---------------------------------------------------------------

  /** What the command gives the worker to do. */
  function PushedBy(cfg: E.Config, memory: nat -> Ctrl, m: Served, w: nat): seq<Cmd>
    requires cfg.workers > 0
  {
    match m.c
    case Request(info, ptr, _) => if E.WorkerOf(cfg, info) == w then [StartRpc(memory(ptr))] else []
    case RegisterService(info, name, svc) =>
      if E.WorkerOf(cfg, info) == w then [RegisterSvc(info, Text(name), svc)] else []
    case AddClosure(ptr) => if m.dice % cfg.workers == w then [Rpc.RunClosure(ptr)] else []
    case _ => []
  }

  function Pushed(cfg: E.Config, memory: nat -> Ctrl, run: seq<Served>, w: nat): seq<Cmd>
    requires cfg.workers > 0
  {
    if run == [] then [] else PushedBy(cfg, memory, run[0], w) + Pushed(cfg, memory, run[1..], w)
  }

  lemma {:induction false} PushedAppend(cfg: E.Config, memory: nat -> Ctrl, run: seq<Served>, m: Served, w: nat)
    requires cfg.workers > 0
    ensures Pushed(cfg, memory, run + [m], w) == Pushed(cfg, memory, run, w) + PushedBy(cfg, memory, m, w)
    decreases |run|
  {
    hide PushedBy;
    if run == [] {
      assert [m][1..] == [] && PushedBy(cfg, memory, m, w) + [] == PushedBy(cfg, memory, m, w);
    } else {
      assert (run + [m])[1..] == run[1..] + [m];
      PushedAppend(cfg, memory, run[1..], m, w);
      Assoc(PushedBy(cfg, memory, run[0], w), Pushed(cfg, memory, run[1..], w), PushedBy(cfg, memory, m, w));
    }
  }

  lemma OnePush(cfg: E.Config, memory: nat -> Ctrl, m: Served, queues: seq<Option<seq<Cmd>>>, w: nat)
    requires cfg.workers > 0 && w < |queues|
    ensures var queues' := Queued(queues, EffectOf(cfg, memory, m.c, m.now, m.dice).pushes);
      |queues'| == |queues| && Cmds(queues'[w]) == Cmds(queues[w]) + PushedBy(cfg, memory, m, w)
  {
    hide Text, E.WorkerOf, E.Deadline;
    assert Cmds(queues[w]) + [] == Cmds(queues[w]);
  }

  /** A worker is given just what the commands have for it, in their order, behind what it had. */
  lemma {:induction false} QueuesAre(cfg: E.Config, memory: nat -> Ctrl, s: State, run: seq<Served>, w: nat)
    requires cfg.workers > 0 && w < |s.queues|
    ensures |AfterAll(cfg, memory, s, run).queues| == |s.queues|
    ensures Cmds(AfterAll(cfg, memory, s, run).queues[w]) == Cmds(s.queues[w]) + Pushed(cfg, memory, run, w)
    decreases |run|
  {
    if run != [] {
      var init, m := run[..|run| - 1], run[|run| - 1];
      QueuesAre(cfg, memory, s, init, w);
      LastServed(run);
      PushedAppend(cfg, memory, init, m, w);
      OnePush(cfg, memory, m, AfterAll(cfg, memory, s, init).queues, w);
      hide EffectOf, Pushed, PushedBy, Queued, Cmds;
      Assoc(Cmds(s.queues[w]), Pushed(cfg, memory, init, w), PushedBy(cfg, memory, m, w));
    } else {
      assert Cmds(s.queues[w]) + [] == Cmds(s.queues[w]);
    }
  }
}
