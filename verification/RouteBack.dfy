/**
 * A request and its reply, run through the code of both sides: the client
 * threads, the two broker threads, their sockets, and the network between.
 */
module RouteBack {
  import opened Wrappers
  import opened Frames
  import opened Rpc
  import opened Codec
  import opened Broker
  import opened BrokerThread
  import E = Engine

  // ---- The network ----------------------------------------------------------

  /** A client's message reaches the broker's frontend, behind the client's identity. */
  method Enter(client: Socket, frontend: Socket, id: Frame, ghost frames: seq<Frame>)
    requires client != frontend && frames != [] && client.sent == Wire(frames) && frontend.incoming == []
    modifies client`sent, frontend`incoming
    ensures client.sent == [] && frontend.incoming == Wire([id] + frames)
  {
    WireMore(id, frames);
    frontend.incoming := [Part(id, true)] + client.sent;
    client.sent := [];
  }

  /** A message crosses a link: its parts are moved, with the identity put in front or stripped. */
  method Cross(link: Link, at: nat, info: ConnInfo, from: Socket, to: Socket, ghost message: seq<Frame>)
    requires from != to && |message| > 1 && from.sent == Wire(message) && to.incoming == []
    requires Travel(link, at, info, message).Some?
    modifies from`sent, to`incoming
    ensures from.sent == [] && to.incoming == Wire(Travel(link, at, info, message).value.message)
  {
    if info.isRouter {
      assert message == [message[0]] + message[1..];
      WireMore(message[0], message[1..]);
      to.incoming := from.sent[1..];
    } else {
      WireMore(link.identity, message);
      to.incoming := [Part(link.identity, true)] + from.sent;
    }
    from.sent := [];
  }

  // ---- One side -------------------------------------------------------------

  /** The broker and a client of one process, with nothing under way between them or on the connection's socket. */
  ghost predicate Still(broker: BrokerThread, client: Client, info: ConnInfo)
    reads broker, broker.commander, broker.frontend, client.socket
    reads if broker.IsConnectionInfoLegal(info) then {broker.TargetOf(info)} else {}
  {
    && broker.Valid() && broker.IsConnectionInfoLegal(info) && broker.TargetOf(info) != null
    && client.socket != broker.frontend && client.socket != broker.TargetOf(info)
      && broker.frontend != broker.TargetOf(info)
    && client.socket.sent == [] && broker.frontend.incoming == []
    && broker.TargetOf(info).sent == [] && broker.TargetOf(info).incoming == []
  }

  /** A client's request or reply goes out on the connection's socket, in its envelope. */
  method Issue(broker: BrokerThread, client: Client, id: Frame, isRequest: bool, info: ConnInfo, ptr: nat,
      data: seq<Frame>, now: nat)
    requires Still(broker, client, info) && Proper(CommandOf(isRequest, info, ptr, data))
    modifies client.socket`sent, broker, broker.commander, broker.frontend, broker.TargetOf(info)`sent
    ensures broker.Valid() && client.socket.sent == [] && broker.frontend.incoming == []
    ensures broker.dealerSockets == old(broker.dealerSockets) && broker.routerSockets == old(broker.routerSockets)
    ensures broker.commander.queues == Queued(old(broker.commander.queues),
      EffectOf(broker.cfg, broker.memory, CommandOf(isRequest, info, ptr, data), now, 0).pushes)
    ensures old(broker.TargetOf(info)).sent == Wire(Envelope(info, data))
  {
    ghost var c := CommandOf(isRequest, info, ptr, data);
    if isRequest {
      client.Request(info, ptr, data);
    } else {
      client.Reply(info, data);
    }
    assert client.socket.sent == Wire(CmdFrames(c)) by { NothingBefore(Wire(CmdFrames(c))); }
    assert CmdFrames(c) != [] && Wire([]) == [];
    hide Wire, CmdFrames, EffectOf, Queued, Tables;
    Enter(client.socket, broker.frontend, id, CmdFrames(c));
    NothingAfter(Wire([id] + CmdFrames(c)));
    var _ := broker.HandleFrontendSocket(now, 0, id, c, []);
    NothingBefore(Wire(Envelope(info, data)));
  }

  function CommandOf(isRequest: bool, info: ConnInfo, ptr: nat, data: seq<Frame>): ClientCmd {
    if isRequest then Request(info, ptr, data) else Reply(info, data)
  }

  lemma NothingBefore(parts: seq<Part>)
    ensures [] + parts == parts
  {
  }

  lemma NothingAfter(parts: seq<Part>)
    ensures parts + [] == parts
  {
  }

  // ---- Both sides -----------------------------------------------------------

  /** The sockets of one side that a request or reply touches. */
  ghost function Parts(broker: BrokerThread, client: Client, info: ConnInfo): set<Socket?>
    requires broker.IsConnectionInfoLegal(info)
    reads broker
  {
    {broker.TargetOf(info), broker.frontend, client.socket}
  }

  /** The two sides share nothing. */
  ghost predicate Apart(a: BrokerThread, ca: Client, infoA: ConnInfo, b: BrokerThread, cb: Client, infoB: ConnInfo)
    requires a.IsConnectionInfoLegal(infoA) && b.IsConnectionInfoLegal(infoB)
    reads a, b
  {
    a != b && a.commander != b.commander && Parts(a, ca, infoA) !! Parts(b, cb, infoB)
  }

  /** A data socket's handler takes the message that is there. */
  method Arrive(broker: BrokerThread, info: ConnInfo, ghost message: seq<Frame>)
    requires broker.Valid() && broker.IsConnectionInfoLegal(info)
    requires message != [] && broker.TargetOf(info) != null && broker.TargetOf(info).incoming == Wire(message)
    modifies broker.TargetOf(info)`incoming, broker.commander
    ensures broker.Valid() && broker.TargetOf(info).incoming == []
    ensures broker.commander.queues ==
      Queued(old(broker.commander.queues), ArrivalPush(broker.cfg, info.isRouter, info.index, message))
  {
    NothingAfter(Wire(message));
    if info.isRouter {
      broker.HandleRouterSocket(info.index, message, []);
    } else {
      broker.HandleDealerSocket(info.index, message, []);
    }
  }

  /** From the socket of one process to the queue of a worker of the other. */
  method TakeOver(link: Link, dealer: bool, near: Socket, to: BrokerThread, ghost data: seq<Frame>)
    requires data != [] && near.sent == Wire(Envelope(Here(link, dealer).info, data))
    requires to.Valid() && to.IsConnectionInfoLegal(Here(link, !dealer).info)
    requires var far := to.TargetOf(Here(link, !dealer).info); far != null && far != near && far.incoming == []
    modifies near`sent, to.TargetOf(Here(link, !dealer).info)`incoming, to.commander
    ensures near.sent == [] && to.Valid() && to.TargetOf(Here(link, !dealer).info).incoming == []
    ensures to.commander.queues == Queued(old(to.commander.queues),
      [(E.WorkerOf(to.cfg, Here(link, !dealer).info), Data(Here(link, !dealer).info, data))])
  {
    var here, there := Here(link, dealer), Here(link, !dealer);
    ghost var message := Envelope(here.info, data);
    EndsMeet(link, dealer, data);
    hide Here, Travel, Envelope, Wire, Queued, Arrival;
    Cross(link, here.at, here.info, near, to.TargetOf(there.info), message);
    Arrive(to, there.info, Travel(link, here.at, here.info, message).value.message);
  }

  /** The way over: from a client of one process to the queue of a worker of the other. */
  method SendOver(link: Link, dealer: bool, from: BrokerThread, client: Client, to: BrokerThread, toClient: Client,
      id: Frame, isRequest: bool, ptr: nat, data: seq<Frame>, now: nat)
    requires Still(from, client, Here(link, dealer).info) && Still(to, toClient, Here(link, !dealer).info)
    requires Apart(from, client, Here(link, dealer).info, to, toClient, Here(link, !dealer).info)
    requires Proper(CommandOf(isRequest, Here(link, dealer).info, ptr, data))
    modifies client.socket`sent, from, from.commander, from.frontend, from.TargetOf(Here(link, dealer).info)`sent
    modifies to.TargetOf(Here(link, !dealer).info)`incoming, to.commander
    ensures Still(from, client, Here(link, dealer).info) && Still(to, toClient, Here(link, !dealer).info)
    ensures from.dealerSockets == old(from.dealerSockets) && from.routerSockets == old(from.routerSockets)
    ensures from.commander.queues == Queued(old(from.commander.queues),
      EffectOf(from.cfg, from.memory, CommandOf(isRequest, Here(link, dealer).info, ptr, data), now, 0).pushes)
    ensures to.commander.queues == Queued(old(to.commander.queues),
      [(E.WorkerOf(to.cfg, Here(link, !dealer).info), Data(Here(link, !dealer).info, data))])
  {
    var here := Here(link, dealer);
    var near := from.TargetOf(here.info);
    assert data != [];
    hide Here, Envelope, Wire, EffectOf, Queued, CommandOf, Proper, Tables;
    Issue(from, client, id, isRequest, here.info, ptr, data, now);
    TakeOver(link, dealer, near, to, data);
  }

  /**
   * A call through all the code between two processes. The answering side's
   * worker for the connection gets the request's header and payload as data
   * from an address; a reply to that address reaches the asking side's worker
   * for the connection it asked on, behind the start of the call.
   */
  method RequestAndReply(link: Link, asksDealer: bool, asker: BrokerThread, askerClient: Client, answerer: BrokerThread,
      answererClient: Client, ids: (Frame, Frame), ptr: nat, request: seq<Frame>, reply: seq<Frame>, now: nat)
    requires Still(asker, askerClient, Here(link, asksDealer).info)
    requires Still(answerer, answererClient, Here(link, !asksDealer).info)
    requires Apart(asker, askerClient, Here(link, asksDealer).info, answerer, answererClient,
      Here(link, !asksDealer).info)
    requires Proper(Request(Here(link, asksDealer).info, ptr, request))
    requires Proper(Reply(Here(link, !asksDealer).info, reply))
    modifies askerClient.socket`sent, asker, asker.commander, asker.frontend,
      asker.TargetOf(Here(link, asksDealer).info)
    modifies answererClient.socket`sent, answerer, answerer.commander, answerer.frontend
    modifies answerer.TargetOf(Here(link, !asksDealer).info)
    ensures Still(asker, askerClient, Here(link, asksDealer).info)
    ensures Still(answerer, answererClient, Here(link, !asksDealer).info)
    ensures var there := Here(link, !asksDealer).info;
      answerer.commander.queues == Queued(old(answerer.commander.queues),
        [(E.WorkerOf(answerer.cfg, there), Data(there, request))])
    ensures var here := Here(link, asksDealer).info;
      asker.commander.queues == Queued(Queued(old(asker.commander.queues),
        [(E.WorkerOf(asker.cfg, here), StartRpc(asker.memory(ptr)))]),
        [(E.WorkerOf(asker.cfg, here), Data(here, reply))])
  {
    NoEffect([], answerer.commander.queues);
    hide Here, Queued;
    SendOver(link, asksDealer, asker, askerClient, answerer, answererClient, ids.0, true, ptr, request, now);
    SendOver(link, !asksDealer, answerer, answererClient, asker, askerClient, ids.1, false, 0, reply, now);
  }

  function Here(link: Link, dealer: bool): End {
    if dealer then Near(link) else Far(link)
  }

  /** What one end sends, the other end takes for data from there. */
  lemma EndsMeet(link: Link, dealer: bool, frames: seq<Frame>)
    requires frames != []
    ensures var here, there := Here(link, dealer), Here(link, !dealer);
      var message := Envelope(here.info, frames);
      && |message| > 1 && Travel(link, here.at, here.info, message).Some?
      && var m := Travel(link, here.at, here.info, message).value.message;
      && m != [] && Arrival(there.info.isRouter, there.info.index, m) == Some(Data(there.info, frames))
  {
    DealerDelivers([link], 0, frames);
    RouterDelivers([link], 0, frames);
  }
}
