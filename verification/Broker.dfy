/**
 * The broker thread: decodes the commands of the frontend socket, forwards
 * frames to peers, arms timers, and pushes commands onto the workers' queues.
 */
module Broker {
  import opened Wrappers
  import opened Frames
  import opened Rpc
  import opened Codec
  import W = Worker
  import E = Engine

  // ---- What goes out and what comes in --------------------------------------

  /**
   * The message that carries `frames` to a connection: the REQ/REP envelope,
   * behind the peer's identity on a router.
   */
  function Envelope(info: ConnInfo, frames: seq<Frame>): seq<Frame> {
    (if info.isRouter then [info.sender] else []) + ([EMPTY] + frames)
  }

  /** What the broker makes of a message on a data socket: nothing, or data for a worker. */
  function Arrival(isRouter: bool, index: nat, message: seq<Frame>): (cmd: Option<Cmd>)
    requires message != []
  {
    var body := if isRouter then message[1..] else message;
    if |body| < 2 || body[0] != EMPTY then None
    else
      Some(HandleData(
        ConnInfo(isRouter, index, if isRouter then message[0] else EMPTY),
        body[1],
        if |body| > 2 then body[2] else EMPTY))
  }

  /**
   * A dealer socket connected to a router socket, each one of some process,
   * where it has its index. The router knows the dealer by `identity`.
   */
  datatype Link = Link(dealerAt: nat, dealer: nat, routerAt: nat, router: nat, identity: Frame)

  /** A message at a socket of a process. */
  datatype Arrived = Arrived(at: nat, isRouter: bool, index: nat, message: seq<Frame>)

  /**
   * ZeroMQ's part: what the far end of the link receives of a message that
   * process `at` sends on a connection. A router puts the sender's identity in
   * front of what it receives and routes what it sends by the first frame,
   * which it strips.
   */
  function Travel(link: Link, at: nat, info: ConnInfo, message: seq<Frame>): Option<Arrived> {
    if !info.isRouter then
      if at == link.dealerAt && info.index == link.dealer
      then Some(Arrived(link.routerAt, true, link.router, [link.identity] + message))
      else None
    else if at == link.routerAt && info.index == link.router && message != [] && message[0] == link.identity
    then Some(Arrived(link.dealerAt, false, link.dealer, message[1..]))
    else None
  }

  /** Each dealer socket has one link, and a router socket has one link of each identity. */
  ghost predicate Separate(links: seq<Link>) {
    forall i, j :: 0 <= i < j < |links| ==>
      && (links[i].dealerAt, links[i].dealer) != (links[j].dealerAt, links[j].dealer)
      && (links[i].routerAt, links[i].router, links[i].identity)
        != (links[j].routerAt, links[j].router, links[j].identity)
  }

  /** One end of a link: the process, and its connection to the other end. */
  datatype End = End(at: nat, info: ConnInfo)

  function Near(link: Link): End {
    End(link.dealerAt, ConnInfo(false, link.dealer, EMPTY))
  }

  function Far(link: Link): End {
    End(link.routerAt, ConnInfo(true, link.router, link.identity))
  }

  /** A frame list as the data command of whoever receives it. */
  function Data(from: ConnInfo, frames: seq<Frame>): Cmd
    requires frames != []
  {
    HandleData(from, frames[0], if |frames| > 1 then frames[1] else EMPTY)
  }

  /** Frames sent at one end of a link arrive at its other end and nowhere else, as data from there. */
  ghost predicate Delivers(links: seq<Link>, i: nat, here: End, there: End, frames: seq<Frame>)
    requires i < |links| && frames != []
  {
    var message := Envelope(here.info, frames);
    && (forall j :: 0 <= j < |links| ==> (Travel(links[j], here.at, here.info, message).Some? <==> j == i))
    && var a := Travel(links[i], here.at, here.info, message).value;
    && a.at == there.at && a.isRouter == there.info.isRouter && a.index == there.info.index && a.message != []
    && Arrival(a.isRouter, a.index, a.message) == Some(Data(there.info, frames))
  }

  lemma DealerDelivers(links: seq<Link>, i: nat, frames: seq<Frame>)
    requires Separate(links) && i < |links| && frames != []
    ensures Delivers(links, i, Near(links[i]), Far(links[i]), frames)
  {
    assert Envelope(Near(links[i]).info, frames) == [EMPTY] + frames;
    assert ([links[i].identity] + ([EMPTY] + frames))[1..] == [EMPTY] + frames;
    assert ([EMPTY] + frames)[1] == frames[0] && (|frames| > 1 ==> ([EMPTY] + frames)[2] == frames[1]);
  }

  lemma RouterDelivers(links: seq<Link>, i: nat, frames: seq<Frame>)
    requires Separate(links) && i < |links| && frames != []
    ensures Delivers(links, i, Far(links[i]), Near(links[i]), frames)
  {
    var to := Far(links[i]).info;
    assert Envelope(to, frames) == [links[i].identity] + ([EMPTY] + frames);
    assert Envelope(to, frames)[1..] == [EMPTY] + frames;
    assert ([EMPTY] + frames)[1] == frames[0] && (|frames| > 1 ==> ([EMPTY] + frames)[2] == frames[1]);
  }

  /**
   * Route-back: among any number of links of any number of processes, a request
   * sent on a dealer connection arrives with its header and payload as data
   * from an address, and a reply to just that address arrives on the same link,
   * at the same dealer. The same holds the other way round, for requests made
   * on a router connection.
   */
  lemma RequestRoutesBack(links: seq<Link>, i: nat, asksDealer: bool, request: seq<Frame>, reply: seq<Frame>)
    requires Separate(links) && i < |links| && request != [] && reply != []
    ensures var ask, answer := if asksDealer then Near(links[i]) else Far(links[i]),
                               if asksDealer then Far(links[i]) else Near(links[i]);
      && Delivers(links, i, ask, answer, request)
      && Delivers(links, i, answer, ask, reply)
      && Data(answer.info, request).info == answer.info
  {
    DealerDelivers(links, i, request);
    RouterDelivers(links, i, request);
    DealerDelivers(links, i, reply);
    RouterDelivers(links, i, reply);
    hide Delivers;
  }

  /** Dealer indices are numbered per process, so equal ones at two processes are no obstacle. */
  lemma TwoClientsOfOneServer(a: Frame, b: Frame)
    requires a != b
    ensures Separate([Link(1, 1, 0, 1, a), Link(2, 1, 0, 1, b)])
  {
  }

  // ---- The effect of a command ----------------------------------------------

  function Text(f: Frame): string {
    seq(|f|, i requires 0 <= i < |f| => f[i] as char)
  }

  /** A name as the bytes of a frame, one for each character. */
  function BytesOf(name: string): Frame
    requires forall i :: 0 <= i < |name| ==> name[i] as int < 256
  {
    seq(|name|, i requires 0 <= i < |name| => name[i] as int)
  }

  /** What a command adds to the timers, to the data sockets and to the queues. */
  datatype Effect = Effect(timers: seq<E.Timer>, sends: seq<E.Outgoing>, pushes: seq<(nat, Cmd)>)

  function EffectOf(cfg: E.Config, memory: nat -> Ctrl, c: ClientCmd, now: nat, dice: nat): Effect
    requires cfg.workers > 0
  {
    match c
    case Request(info, ptr, data) =>
      var ctrl := memory(ptr);
      Effect(
        if ctrl.timeoutMs == NO_TIMEOUT then []
        else [E.Timer(E.Deadline(now, ctrl.timeoutMs), ctrl.eventId, E.WorkerOf(cfg, info))],
        [E.Outgoing(info, data)],
        [(E.WorkerOf(cfg, info), StartRpc(ctrl))])
    case Reply(info, data) => Effect([], [E.Outgoing(info, data)], [])
    case RegisterService(info, name, svc) =>
      Effect([], [], [(E.WorkerOf(cfg, info), RegisterSvc(info, Text(name), svc))])
    case AddClosure(ptr) => Effect([], [], [(dice % cfg.workers, RunClosure(ptr))])
    case _ => Effect([], [], [])
  }

  /** Requests and replies go out as they came, to the connection they name, and nothing else does. */
  lemma SentAsGiven(cfg: E.Config, memory: nat -> Ctrl, c: ClientCmd, now: nat, dice: nat)
    requires cfg.workers > 0
    ensures EffectOf(cfg, memory, c, now, dice).sends ==
      if c.Request? || c.Reply? then [E.Outgoing(c.info, c.data)] else []
  {
  }

  /** A service is registered with its connection's worker, under just the name that the client sent. */
  lemma RegisteredUnderItsName(cfg: E.Config, memory: nat -> Ctrl, info: ConnInfo, name: string, svc: nat, now: nat,
      dice: nat)
    requires cfg.workers > 0 && forall i :: 0 <= i < |name| ==> name[i] as int < 256
    ensures EffectOf(cfg, memory, RegisterService(info, BytesOf(name), svc), now, dice).pushes ==
      [(E.WorkerOf(cfg, info), RegisterSvc(info, name, svc))]
  {
    assert Text(BytesOf(name)) == name;
  }

  /** The same command on the engine's frontend queue. */
  function FrontOf(memory: nat -> Ctrl, c: ClientCmd): Option<E.FrontCmd> {
    match c
    case Request(_, ptr, data) => Some(E.Request(memory(ptr), data))
    case Reply(info, data) => Some(E.Reply(info, data))
    case RegisterService(info, name, svc) => Some(E.Register(info, Text(name), svc))
    case AddClosure(ptr) => Some(E.Closure(ptr))
    case Quit => Some(E.Quit)
    case _ => None
  }

  /** The engine's steps for one command. */
  function StepsOf(c: ClientCmd, i: nat, dice: nat): seq<E.Step> {
    [E.Take(i, dice)] + if c.Request? then [E.Forward, E.PushStart] else []
  }

  ghost function Many(cfg: E.Config, s: E.State, steps: seq<E.Step>): (s': E.State)
    requires E.Shape(cfg, s)
    ensures E.Shape(cfg, s')
    decreases |steps|
  {
    if steps == [] then s else Many(cfg, E.Next(cfg, s, steps[0]), steps[1..])
  }

  function LogWith(log: seq<Cmd>, w: nat, pushes: seq<(nat, Cmd)>): seq<Cmd> {
    if pushes != [] && pushes[0].0 == w then log + [pushes[0].1] else log
  }

  /** A state change that takes a command off the frontend, has this effect, and no other. */
  ghost predicate Does(s: E.State, s': E.State, i: nat, e: Effect, quit: bool) {
    && i < |s.frontend| && s'.frontend == s.frontend[..i] + s.frontend[i + 1..]
    && s'.timers == s.timers + e.timers && s'.wire == s.wire + e.sends
    && |s'.workers| == |s.workers|
    && (forall w :: 0 <= w < |s.workers| ==>
          s'.workers[w].log == LogWith(s.workers[w].log, w, e.pushes)
          && s'.workers[w].head == s.workers[w].head && s'.workers[w].st == s.workers[w].st)
    && s'.pc.Idle? && (s'.phase.Stopping? <==> s.phase.Stopping? || quit)
    && s'.issued == s.issued && s'.now == s.now
  }

  lemma RequestDoes(cfg: E.Config, s: E.State, i: nat, dice: nat)
    requires E.Shape(cfg, s) && E.BrokerFree(s) && i < |s.frontend| && s.frontend[i].Request?
    ensures var s1 := E.Next(cfg, s, E.Take(i, dice));
      var s3 := E.Next(cfg, E.Next(cfg, s1, E.Forward), E.PushStart);
      var ctrl, w := s.frontend[i].ctrl, E.WorkerOf(cfg, s.frontend[i].ctrl.conn);
      Does(s, s3, i, Effect(
        if ctrl.timeoutMs == NO_TIMEOUT then [] else [E.Timer(E.Deadline(s.now, ctrl.timeoutMs), ctrl.eventId, w)],
        [E.Outgoing(ctrl.conn, s.frontend[i].frames)],
        [(w, StartRpc(ctrl))]), false)
  {
    hide W.ExecAll, W.Exec, E.Deadline, E.WorkerOf;
    var s1 := E.Next(cfg, s, E.Take(i, dice));
    assert s1.pc == E.Armed(s.frontend[i].ctrl, s.frontend[i].frames) && s1.wire == s.wire && s1.workers == s.workers;
  }

  lemma OtherDoes(cfg: E.Config, s: E.State, memory: nat -> Ctrl, c: ClientCmd, i: nat, dice: nat)
    requires E.Shape(cfg, s) && E.BrokerFree(s) && i < |s.frontend| && !c.Request?
    requires FrontOf(memory, c) == Some(s.frontend[i])
    ensures Does(s, E.Next(cfg, s, E.Take(i, dice)), i, EffectOf(cfg, memory, c, s.now, dice), c.Quit?)
  {
    hide W.ExecAll, W.Exec, E.Deadline, E.WorkerOf, Text;
  }

  /**
   * The engine does with a command exactly what the broker thread does: its
   * steps for the command have the command's effect, and no other.
   */
  lemma EngineDoesAsBroker(cfg: E.Config, s: E.State, memory: nat -> Ctrl, c: ClientCmd, i: nat, dice: nat)
    requires E.Shape(cfg, s) && E.BrokerFree(s) && i < |s.frontend|
    requires FrontOf(memory, c) == Some(s.frontend[i])
    requires c.Request? ==> memory(c.ptr).conn == c.info
    ensures Does(s, Many(cfg, s, StepsOf(c, i, dice)), i, EffectOf(cfg, memory, c, s.now, dice), c.Quit?)
  {
    var steps := StepsOf(c, i, dice);
    var s1 := E.Next(cfg, s, E.Take(i, dice));
    hide E.Next, E.Shape, Does, E.Deadline, E.WorkerOf, Text;
    assert Many(cfg, s, steps) == Many(cfg, s1, steps[1..]);
    if c.Request? {
      RequestDoes(cfg, s, i, dice);
      var s2 := E.Next(cfg, s1, E.Forward);
      var s3 := E.Next(cfg, s2, E.PushStart);
      assert steps[1..][1..] == [E.PushStart] && steps[1..][1..][1..] == [];
      assert Many(cfg, s1, steps[1..]) == Many(cfg, s2, steps[1..][1..]) == Many(cfg, s3, steps[1..][1..][1..]) == s3;
    } else {
      OtherDoes(cfg, s, memory, c, i, dice);
      assert steps[1..] == [];
    }
  }

  /** One command more for the one worker, and nothing else for any. */
  ghost predicate OnlyPushed(s: E.State, s': E.State, w: nat, cmd: Cmd) {
    && |s'.workers| == |s.workers| && w < |s.workers|
    && forall v :: 0 <= v < |s.workers| ==>
      s'.workers[v] == s.workers[v].(log := s.workers[v].log + if v == w then [cmd] else [])
  }

  /** The engine takes a message off a data socket as the broker does: header and payload go to the one worker. */
  lemma EngineReceivesAsBroker(cfg: E.Config, s: E.State, isRouter: bool, index: nat, message: seq<Frame>)
    requires E.Shape(cfg, s) && message != [] && Arrival(isRouter, index, message).Some?
    ensures var body := if isRouter then message[1..] else message;
      var info := ConnInfo(isRouter, index, if isRouter then message[0] else EMPTY);
      var payload := if |body| > 2 then body[2] else EMPTY;
      var step := E.Receive(info, body[1], payload);
      && Arrival(isRouter, index, message) == Some(HandleData(info, body[1], payload))
      && (E.Enabled(cfg, s, step) ==>
            OnlyPushed(s, E.Next(cfg, s, step), E.WorkerOf(cfg, info), HandleData(info, body[1], payload)))
  {
    hide W.ExecAll, W.Exec, E.WorkerOf;
  }

  /** A timer that fires tells its worker which event timed out, and is gone. */
  lemma EngineFiresAsBroker(cfg: E.Config, s: E.State, i: nat)
    requires E.Shape(cfg, s) && E.Enabled(cfg, s, E.Fire(i))
    ensures OnlyPushed(s, E.Next(cfg, s, E.Fire(i)), s.timers[i].worker, HandleTimeout(s.timers[i].eventId))
    ensures E.Next(cfg, s, E.Fire(i)).timers == s.timers[..i] + s.timers[i + 1..]
  {
    hide W.ExecAll, W.Exec;
    assert s.timers[i].worker % cfg.workers == s.timers[i].worker;
  }

  /** At shutdown every worker is told to quit. */
  lemma EngineQuitsAsBroker(cfg: E.Config, s: E.State)
    requires E.Shape(cfg, s) && E.Enabled(cfg, s, E.PushQuit)
    ensures OnlyPushed(s, E.Next(cfg, s, E.PushQuit), s.phase.quits, QuitWorker)
  {
    hide W.ExecAll, W.Exec;
  }
}
