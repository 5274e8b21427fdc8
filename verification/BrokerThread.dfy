/** The objects of the broker thread and of its clients, proved against Broker's functions. */
module BrokerThread {
  import opened Wrappers
  import opened Sequences
  import opened Frames
  import opened Rpc
  import opened Codec
  import opened Broker
  import E = Engine

  // ---- The workers' queues --------------------------------------------------

  /** What a queue holds; nothing before it is set. */
  function Cmds(queue: Option<seq<Cmd>>): seq<Cmd> {
    if queue.Some? then queue.value else []
  }

  class WorkersCommander {
    var queues: seq<Option<seq<Cmd>>>   // None until the worker's queue is set

    constructor (workers: nat)
      ensures |queues| == workers && forall w :: 0 <= w < workers ==> queues[w].None?
    {
      queues := seq(workers, _ => None);
    }

    predicate IsWorkerIndexLegal(w: nat)
      reads this
    {
      w < |queues| && queues[w].Some?
    }

    predicate Ready()
      reads this
    {
      queues != [] && forall w :: 0 <= w < |queues| ==> queues[w].Some?
    }

    method SetCmdQueue(w: nat, queue: seq<Cmd>)
      requires w < |queues| && queues[w].None?
      modifies this
      ensures queues == old(queues)[w := Some(queue)]
    {
      queues := queues[w := Some(queue)];
    }

    method Push(w: nat, cmd: Cmd)
      requires IsWorkerIndexLegal(w)
      modifies this
      ensures queues == old(queues)[w := Some(Cmds(old(queues)[w]) + [cmd])]
    {
      queues := queues[w := Some(queues[w].value + [cmd])];
    }
  }

  class WorkerThreadGroup {
    const threads: nat
    const commander: WorkersCommander

    constructor (threads: nat)
      requires threads > 0
      ensures fresh(commander) && this.threads == threads == |commander.queues|
      ensures commander.Ready() && forall w :: 0 <= w < threads ==> commander.queues[w] == Some([])
    {
      this.threads := threads;
      commander := new WorkersCommander(threads);
      new;
      for i := 0 to threads
        invariant |commander.queues| == threads
        invariant forall w :: 0 <= w < threads ==> commander.queues[w] == if w < i then Some([]) else None
      {
        commander.SetCmdQueue(i, []);
      }
    }

    /** Every worker gets one quit command, behind everything it was given before. */
    method JoinAll()
      requires threads == |commander.queues| && commander.Ready()
      modifies commander
      ensures |commander.queues| == threads
      ensures forall w :: 0 <= w < threads ==>
        commander.queues[w] == Some(Cmds(old(commander.queues)[w]) + [QuitWorker])
    {
      for i := 0 to threads
        invariant |commander.queues| == threads && forall w :: 0 <= w < threads ==> commander.queues[w].Some?
        invariant forall w :: 0 <= w < threads ==>
          commander.queues[w] ==
            if w < i then Some(Cmds(old(commander.queues)[w]) + [QuitWorker]) else old(commander.queues)[w]
      {
        commander.Push(i, QuitWorker);
      }
    }
  }

  // ---- A client thread's end ------------------------------------------------

  /** Everything a client does to the broker is one message on its own frontend socket. */
  class Client {
    const socket: Socket

    constructor (socket: Socket)
      ensures this.socket == socket
    {
      this.socket := socket;
    }

    /** With no frames to carry, the message is left unfinished. */
    method Request(info: ConnInfo, ptr: nat, data: seq<Frame>)
      modifies socket`sent
      ensures socket.sent == old(socket.sent) +
        if data != [] then Wire(CmdFrames(ClientCmd.Request(info, ptr, data)))
        else Flagged(CmdFrames(ClientCmd.Request(info, ptr, data)))
    {
      hide InfoFrames, Encode64, Wire, Flagged;
      socket.Send(EMPTY, true);
      socket.Send([K_REQUEST], true);
      WriteConnectionInfo(socket, info, true);
      socket.Send(Encode64(ptr), true);
      WriteVector(socket, data);
      Chain(old(socket.sent), Part(EMPTY, true), Part([K_REQUEST], true), Flagged(InfoFrames(info)),
        [Part(Encode64(ptr), true)], Wire(data));
      FlaggedOne(Encode64(ptr));
      Composed(K_REQUEST, InfoFrames(info), [Encode64(ptr)], data);
      assert [EMPTY, [K_REQUEST]] + (InfoFrames(info) + ([Encode64(ptr)] + data)) ==
        CmdFrames(ClientCmd.Request(info, ptr, data));
    }

    method Reply(info: ConnInfo, data: seq<Frame>)
      modifies socket`sent
      ensures socket.sent == old(socket.sent) +
        if data != [] then Wire(CmdFrames(ClientCmd.Reply(info, data)))
        else Flagged(CmdFrames(ClientCmd.Reply(info, data)))
    {
      hide InfoFrames, Encode64, Wire, Flagged;
      socket.Send(EMPTY, true);
      socket.Send([K_REPLY], true);
      WriteConnectionInfo(socket, info, true);
      WriteVector(socket, data);
      ShortChain(old(socket.sent), Part(EMPTY, true), Part([K_REPLY], true), Flagged(InfoFrames(info)), Wire(data));
      ShortlyComposed(K_REPLY, InfoFrames(info), data);
      assert [EMPTY, [K_REPLY]] + (InfoFrames(info) + data) == CmdFrames(ClientCmd.Reply(info, data));
    }

    method RegisterService(info: ConnInfo, name: Frame, svc: nat)
      modifies socket`sent
      ensures socket.sent == old(socket.sent) + Wire(CmdFrames(ClientCmd.RegisterService(info, name, svc)))
    {
      hide InfoFrames, Encode64, Wire, Flagged;
      socket.Send(EMPTY, true);
      socket.Send([K_REGISTER_SVC], true);
      WriteConnectionInfo(socket, info, true);
      socket.Send(name, true);
      socket.Send(Encode64(svc), false);
      Chain(old(socket.sent), Part(EMPTY, true), Part([K_REGISTER_SVC], true), Flagged(InfoFrames(info)),
        [Part(name, true)], [Part(Encode64(svc), false)]);
      FlaggedOne(name);
      WireOne(Encode64(svc));
      Composed(K_REGISTER_SVC, InfoFrames(info), [name], [Encode64(svc)]);
      assert [name] + [Encode64(svc)] == [name, Encode64(svc)];
      assert [EMPTY, [K_REGISTER_SVC]] + (InfoFrames(info) + [name, Encode64(svc)])
          == CmdFrames(ClientCmd.RegisterService(info, name, svc));
    }

    /** Connect, bind, unbind and add-closure commands: a code and one operand. */
    method SendSimple(c: ClientCmd)
      requires c.Connect? || c.Bind? || c.Unbind? || c.AddClosure?
      modifies socket`sent
      ensures socket.sent == old(socket.sent) + Wire(CmdFrames(c))
    {
      socket.Send(EMPTY, true);
      socket.Send([Code(c)], true);
      var operand := if c.AddClosure? then Encode64(c.ptr) else c.endpoint;
      socket.Send(operand, false);
      FlaggedStart(Code(c));
      WireOne(operand);
      FlaggedJoins([EMPTY, [Code(c)]], [operand]);
    }

    method SendQuit()
      modifies socket`sent
      ensures socket.sent == old(socket.sent) + Wire(CmdFrames(Quit))
    {
      socket.Send(EMPTY, true);
      socket.Send([K_QUIT], false);
      FlaggedOne(EMPTY);
      WireOne([K_QUIT]);
      FlaggedJoins([EMPTY], [[K_QUIT]]);
      assert [EMPTY] + [[K_QUIT]] == CmdFrames(Quit);
    }
  }

  lemma EnvelopeParts(info: ConnInfo, data: seq<Frame>)
    requires data != []
    ensures Wire(Envelope(info, data)) ==
      (if info.isRouter then [Part(info.sender, true)] + [Part(EMPTY, true)] else [Part(EMPTY, true)]) + Wire(data)
  {
    FlaggedOne(EMPTY);
    if info.isRouter {
      FlaggedOne(info.sender);
      FlaggedConcat([info.sender], [EMPTY]);
      FlaggedJoins([info.sender] + [EMPTY], data);
      Assoc([info.sender], [EMPTY], data);
    } else {
      FlaggedJoins([EMPTY], data);
      assert [] + ([EMPTY] + data) == [EMPTY] + data;
    }
  }

  lemma FlaggedOne(f: Frame)
    ensures Flagged([f]) == [Part(f, true)]
  {
    assert |[f][1..]| == 0;
  }

  lemma WireOne(f: Frame)
    ensures Wire([f]) == [Part(f, false)]
  {
    assert |[f][1..]| == 0;
  }

  lemma FlaggedStart(code: Byte)
    ensures Flagged([EMPTY, [code]]) == [Part(EMPTY, true), Part([code], true)]
  {
    assert [EMPTY, [code]][1..] == [[code]];
    FlaggedOne([code]);
  }

  lemma {:induction false} FlaggedConcat(a: seq<Frame>, b: seq<Frame>)
    ensures Flagged(a + b) == Flagged(a) + Flagged(b)
    decreases |a|
  {
    if a == [] {
      assert a + b == b;
    } else {
      FlaggedConcat(a[1..], b);
      assert (a + b)[1..] == a[1..] + b;
      assert Flagged(a + b) == [Part(a[0], true)] + Flagged(a[1..] + b);
      Assoc([Part(a[0], true)], Flagged(a[1..]), Flagged(b));
    }
  }

  lemma FlaggedParts(a: seq<Frame>, b: seq<Frame>, c: seq<Frame>)
    ensures Flagged(a + b + c) == Flagged(a) + Flagged(b) + Flagged(c)
  {
    FlaggedConcat(a + b, c);
    FlaggedConcat(a, b);
  }

  /** Data ends the message its flagged head began, if there is data. */
  lemma Ends(head: seq<Frame>, data: seq<Frame>)
    ensures Flagged(head) + Wire(data) == if data != [] then Wire(head + data) else Flagged(head + data)
  {
    if data != [] {
      FlaggedJoins(head, data);
    } else {
      assert head + data == head;
    }
  }

  lemma Chain(sent: seq<Part>, a: Part, b: Part, c: seq<Part>, d: seq<Part>, e: seq<Part>)
    ensures sent + [a] + [b] + c + d + e == sent + ([a, b] + c + d + e)
  {
  }

  /** The parts of a command, sent one after the other, are its message. */
  lemma Composed(code: Byte, info: seq<Frame>, operand: seq<Frame>, data: seq<Frame>)
    ensures var frames := [EMPTY, [code]] + (info + (operand + data));
      [Part(EMPTY, true), Part([code], true)] + Flagged(info) + Flagged(operand) + Wire(data)
      == if data != [] then Wire(frames) else Flagged(frames)
  {
    FlaggedStart(code);
    FlaggedParts([EMPTY, [code]], info, operand);
    hide Wire, Flagged;
    Ends([EMPTY, [code]] + info + operand, data);
    Assoc([EMPTY, [code]] + info, operand, data);
    Assoc([EMPTY, [code]], info, operand + data);
  }

  lemma ShortChain(sent: seq<Part>, a: Part, b: Part, c: seq<Part>, e: seq<Part>)
    ensures sent + [a] + [b] + c + e == sent + ([a, b] + c + e)
  {
  }

  lemma ShortlyComposed(code: Byte, info: seq<Frame>, data: seq<Frame>)
    ensures var frames := [EMPTY, [code]] + (info + data);
      [Part(EMPTY, true), Part([code], true)] + Flagged(info) + Wire(data)
      == if data != [] then Wire(frames) else Flagged(frames)
  {
    FlaggedStart(code);
    FlaggedConcat([EMPTY, [code]], info);
    hide Wire, Flagged;
    Ends([EMPTY, [code]] + info, data);
    Assoc([EMPTY, [code]], info, data);
  }

  /** The queues after at most one push. */
  function Queued(queues: seq<Option<seq<Cmd>>>, pushes: seq<(nat, Cmd)>): seq<Option<seq<Cmd>>> {
    if pushes == [] || pushes[0].0 >= |queues| then queues
    else queues[pushes[0].0 := Some(Cmds(queues[pushes[0].0]) + [pushes[0].1])]
  }

  lemma DueAfter(now: nat, timeoutMs: int)
    ensures var due := E.Deadline(now, timeoutMs);
      && due == (now + timeoutMs) % TWO_TO_THE_64
      && (0 <= timeoutMs && now + timeoutMs < TWO_TO_THE_64 ==> due == now + timeoutMs)
  {
  }

  lemma NoEffect(timers: seq<E.Timer>, queues: seq<Option<seq<Cmd>>>)
    ensures timers + [] == timers && Queued(queues, []) == queues
  {
  }

  /** The push a message on a data socket leads to: its data, for the worker of its connection. */
  function ArrivalPush(cfg: E.Config, isRouter: bool, index: nat, message: seq<Frame>): seq<(nat, Cmd)>
    requires cfg.workers > 0 && message != []
  {
    match Arrival(isRouter, index, message)
    case Some(HandleData(info, header, payload)) => [(E.WorkerOf(cfg, info), HandleData(info, header, payload))]
    case _ => []
  }

  /** All that a broker thread keeps, its workers' queues included. */
  datatype State = State(
    dealers: seq<Socket?>,
    routers: seq<Socket?>,
    bindMap: map<Frame, Socket>,
    timers: seq<E.Timer>,
    deletions: seq<(Socket, Frame)>,
    quit: bool,
    queues: seq<Option<seq<Cmd>>>)

  /** What a command makes of it; `socket` is the new one of a connect or bind. */
  function After(s: State, c: ClientCmd, sender: Frame, e: Effect, socket: Socket): State {
    State(
      if c.Connect? then s.dealers + [socket] else s.dealers,
      if c.Bind? then s.routers + [socket] else s.routers,
      if c.Bind? then s.bindMap[c.endpoint := socket]
      else if c.Unbind? then s.bindMap - {c.endpoint}
      else s.bindMap,
      s.timers + e.timers,
      if c.Unbind? then Unbound(s.bindMap, s.deletions, sender, c.endpoint) else s.deletions,
      s.quit || c.Quit?,
      Queued(s.queues, e.pushes))
  }

  /** The deletions under way after an unbind: one more if the endpoint is bound. */
  function Unbound(bindMap: map<Frame, Socket>, deletions: seq<(Socket, Frame)>, sender: Frame, endpoint: Frame):
    seq<(Socket, Frame)>
  {
    deletions + if endpoint in bindMap then [(bindMap[endpoint], sender)] else []
  }

  /** The clients that asked for the deletions. */
  function Clients(deletions: seq<(Socket, Frame)>): seq<Frame> {
    seq(|deletions|, i requires 0 <= i < |deletions| => deletions[i].1)
  }

  /** What is sent when clients are told, one after the other, that their deletion is made. */
  ghost function Notices(clients: seq<Frame>): seq<Part> {
    if clients == [] then []
    else Notices(clients[..|clients| - 1]) + Wire([clients[|clients| - 1], EMPTY, EMPTY])
  }

  /** One deletion taken out. */
  lemma Without(made: seq<(Socket, Frame)>, i: nat)
    requires i < |made|
    ensures multiset(made[..i] + made[i + 1..]) == multiset(made) - multiset{made[i]}
    ensures multiset(Clients(made)) == multiset(Clients(made[..i] + made[i + 1..])) + multiset{made[i].1}
  {
    var before, after := made[..i], made[i + 1..];
    assert made == before + [made[i]] + after;
    assert Clients(made) == Clients(before) + [made[i].1] + Clients(after);
    assert Clients(before + after) == Clients(before) + Clients(after);
  }

  /** In whatever order deletions are made, the same clients are told, each as often. */
  lemma {:induction false} SameClients(deletions: seq<(Socket, Frame)>, made: seq<(Socket, Frame)>)
    requires multiset(made) == multiset(deletions)
    ensures multiset(Clients(made)) == multiset(Clients(deletions))
    decreases |deletions|
  {
    if deletions == [] {
      assert made == [];
    } else {
      var last := |deletions| - 1;
      assert deletions[last] in multiset(made);
      var i :| 0 <= i < |made| && made[i] == deletions[last];
      Without(made, i);
      Without(deletions, last);
      hide Clients;
      SameClients(deletions[..last] + deletions[last + 1..], made[..i] + made[i + 1..]);
    }
  }

  /**
   * An unbind gets its client one more notice, in whatever order the deletions
   * are made, if and only if the endpoint was bound; everybody else gets as
   * many as without it.
   */
  lemma AnsweredIffBound(bindMap: map<Frame, Socket>, deletions: seq<(Socket, Frame)>, sender: Frame, endpoint: Frame,
      made: seq<(Socket, Frame)>)
    requires multiset(made) == multiset(Unbound(bindMap, deletions, sender, endpoint))
    ensures multiset(Clients(made)) ==
      multiset(Clients(deletions)) + if endpoint in bindMap then multiset{sender} else multiset{}
  {
    SameClients(Unbound(bindMap, deletions, sender, endpoint), made);
    if endpoint in bindMap {
      assert Clients(Unbound(bindMap, deletions, sender, endpoint)) == Clients(deletions) + [sender];
    } else {
      assert Unbound(bindMap, deletions, sender, endpoint) == deletions;
    }
  }

  /** Index 0 is reserved, and all sockets are different ones. */
  ghost predicate Tables(dealers: seq<Socket?>, routers: seq<Socket?>, frontend: Socket) {
    && |dealers| > 0 && dealers[0] == null && |routers| > 0 && routers[0] == null
    && (forall i :: 1 <= i < |dealers| ==> dealers[i] != null && dealers[i] != frontend)
    && (forall i :: 1 <= i < |routers| ==> routers[i] != null && routers[i] != frontend)
    && (forall i, j :: 1 <= i < j < |dealers| ==> dealers[i] != dealers[j])
    && (forall i, j :: 1 <= i < j < |routers| ==> routers[i] != routers[j])
    && (forall i, j :: 1 <= i < |dealers| && 1 <= j < |routers| ==> dealers[i] != routers[j])
  }

  // ---- The broker thread ----------------------------------------------------

  class BrokerThread {
    const cfg: E.Config
    const memory: nat -> Ctrl          // what a controller's address points to
    const frontend: Socket
    const commander: WorkersCommander
    var dealerSockets: seq<Socket?>    // index 0 is reserved
    var routerSockets: seq<Socket?>
    var bindMap: map<Frame, Socket>
    var timers: seq<E.Timer>                  // what the reactor is asked to run
    var deletions: seq<(Socket, Frame)>       // what it is asked to delete, and who waits for that
    var shouldQuit: bool

    ghost predicate Valid()
      reads this`dealerSockets, this`routerSockets, this`bindMap, commander
    {
      && cfg.workers > 0 && |commander.queues| == cfg.workers && commander.Ready()
      && Tables(dealerSockets, routerSockets, frontend)
      && (forall e :: e in bindMap ==> bindMap[e] in routerSockets)
    }

    constructor (cfg: E.Config, memory: nat -> Ctrl, frontend: Socket, commander: WorkersCommander)
      requires cfg.workers > 0 && |commander.queues| == cfg.workers && commander.Ready()
      ensures Valid() && this.cfg == cfg && this.memory == memory && this.frontend == frontend
        && this.commander == commander
      ensures dealerSockets == [null] && routerSockets == [null] && bindMap == map[] && timers == []
        && deletions == [] && !shouldQuit
    {
      this.cfg, this.memory, this.frontend, this.commander := cfg, memory, frontend, commander;
      dealerSockets, routerSockets, bindMap := [null], [null], map[];
      timers, deletions, shouldQuit := [], [], false;
    }

    ghost function Now(): State
      reads this, commander
    {
      State(dealerSockets, routerSockets, bindMap, timers, deletions, shouldQuit, commander.queues)
    }

    predicate IsConnectionInfoLegal(info: ConnInfo)
      reads this`dealerSockets, this`routerSockets
    {
      0 < info.index < if info.isRouter then |routerSockets| else |dealerSockets|
    }

    function TargetOf(info: ConnInfo): Socket?
      reads this`dealerSockets, this`routerSockets
      requires IsConnectionInfoLegal(info)
    {
      if info.isRouter then routerSockets[info.index] else dealerSockets[info.index]
    }

    /** The unread frames go to the connection's peer, in its envelope, as one message. */
    method ForwardTo(info: ConnInfo, iter: MessageIterator)
      requires Valid() && IsConnectionInfoLegal(info)
      requires iter.Valid() && iter.left != [] && iter.socket == frontend
      modifies iter, frontend`incoming, TargetOf(info)`sent
      ensures iter.Valid() && iter.left == []
      ensures TargetOf(info).sent == old(TargetOf(info).sent) + Wire(Envelope(info, old(iter.left)))
    {
      assert TargetOf(info) != null && TargetOf(info) != frontend;
      hide Wire, Tables;
      ghost var data := iter.left;
      EnvelopeParts(info, data);
      var socket := TargetOf(info);
      ghost var sent0 := socket.sent;
      if info.isRouter {
        socket.Send(info.sender, true);
        socket.Send(EMPTY, true);
        ForwardMessages(iter, socket);
        Assoc(sent0, [Part(info.sender, true)], [Part(EMPTY, true)]);
        Assoc(sent0, [Part(info.sender, true)] + [Part(EMPTY, true)], Wire(data));
        return;
      }
      socket.Send(EMPTY, true);
      ForwardMessages(iter, socket);
      Assoc(sent0, [Part(EMPTY, true)], Wire(data));
    }

    /** Arms the deadline, forwards the request and only then lets the worker know the call. */
    method SendRequest(iter: MessageIterator, now: nat, ghost c: ClientCmd)
      requires Valid() && c.Request? && Proper(c) && IsConnectionInfoLegal(c.info)
      requires iter.Valid() && iter.left == Operands(c) && iter.socket == frontend
      modifies this`timers, iter, frontend`incoming, TargetOf(c.info)`sent, commander
      ensures Valid() && iter.Valid() && iter.left == []
      ensures timers == old(timers) + EffectOf(cfg, memory, c, now, 0).timers
      ensures memory(c.ptr).timeoutMs == NO_TIMEOUT ==> timers == old(timers)
      ensures var ctrl, n := memory(c.ptr), |old(timers)|;
        ctrl.timeoutMs != NO_TIMEOUT ==>
          && |timers| == n + 1 && timers[n].eventId == ctrl.eventId && timers[n].worker == E.WorkerOf(cfg, c.info)
          && timers[n].due == (now + ctrl.timeoutMs) % TWO_TO_THE_64
          && (0 <= ctrl.timeoutMs && now + ctrl.timeoutMs < TWO_TO_THE_64 ==> timers[n].due == now + ctrl.timeoutMs)
      ensures TargetOf(c.info).sent == old(TargetOf(c.info).sent) + Wire(Envelope(c.info, c.data))
      ensures commander.queues == Queued(old(commander.queues), EffectOf(cfg, memory, c, now, 0).pushes)
    {
      assert cfg.workers > 0;
      DueAfter(now, memory(c.ptr).timeoutMs);
      hide Operands, Proper, Wire, Envelope, E.WorkerOf, E.Deadline, Tables;
      var info, ctrl := ReadRequest(iter, c);
      if ctrl.timeoutMs != NO_TIMEOUT {
        timers := timers + [E.Timer(E.Deadline(now, ctrl.timeoutMs), ctrl.eventId, E.WorkerOf(cfg, info))];
      }
      ForwardTo(info, iter);
      LetWorkerStart(info, ctrl);
    }

    /** The operands of a request before its data. */
    method ReadRequest(iter: MessageIterator, ghost c: ClientCmd) returns (info: ConnInfo, ctrl: Ctrl)
      requires c.Request? && Proper(c) && iter.Valid() && iter.left == Operands(c)
      modifies iter, iter.socket`incoming
      ensures iter.Valid() && info == c.info && ctrl == memory(c.ptr) && iter.left == c.data && c.data != []
    {
      InfoRoundTrip(c.info, [Encode64(c.ptr)] + c.data);
      Decode64Encode64(c.ptr);
      hide InfoFrames, InfoOf, InfoLength, StartsWithInfo, Encode64, Decode;
      info := ReadConnectionInfo(iter);
      var ptr := iter.Next();
      Unhead(ptr, iter.left, Encode64(c.ptr), c.data);
      ctrl := memory(Decode(ptr));
    }

    method LetWorkerStart(info: ConnInfo, ctrl: Ctrl)
      requires Valid()
      modifies commander
      ensures Valid() && commander.queues == Queued(old(commander.queues), [(E.WorkerOf(cfg, info), StartRpc(ctrl))])
    {
      commander.Push(E.WorkerOf(cfg, info), StartRpc(ctrl));
    }

    method SendReply(iter: MessageIterator, ghost c: ClientCmd)
      requires Valid() && c.Reply? && Proper(c) && IsConnectionInfoLegal(c.info)
      requires iter.Valid() && iter.left == Operands(c) && iter.socket == frontend
      modifies iter, frontend`incoming, TargetOf(c.info)`sent
      ensures Valid() && iter.Valid() && iter.left == []
      ensures TargetOf(c.info).sent == old(TargetOf(c.info).sent) + Wire(Envelope(c.info, c.data))
    {
      InfoRoundTrip(c.info, c.data);
      hide InfoFrames, InfoOf, InfoLength, StartsWithInfo, Wire, Envelope;
      var info := ReadConnectionInfo(iter);
      ForwardTo(info, iter);
    }

    method DoRegisterService(iter: MessageIterator, ghost c: ClientCmd)
      requires Valid() && c.RegisterService? && Proper(c) && IsConnectionInfoLegal(c.info)
      requires iter.Valid() && iter.left == Operands(c) && iter.socket == frontend
      modifies iter, frontend`incoming, commander
      ensures Valid() && iter.Valid() && iter.left == []
      ensures commander.queues == Queued(old(commander.queues), EffectOf(cfg, memory, c, 0, 0).pushes)
    {
      InfoRoundTrip(c.info, [c.name, Encode64(c.svc)]);
      Decode64Encode64(c.svc);
      hide InfoFrames, InfoOf, InfoLength, StartsWithInfo, Encode64, Decode, E.WorkerOf;
      var info := ReadConnectionInfo(iter);
      var name := iter.Next();
      var svc := iter.Next();
      commander.Push(E.WorkerOf(cfg, info), RegisterSvc(info, Text(name), Decode(svc)));
    }

    /** Sends the client that waits for it an index, behind the client's identity and a delimiter. */
    method Answer(sender: Frame, answer: Frame)
      modifies frontend`sent
      ensures frontend.sent == old(frontend.sent) + Wire([sender, EMPTY, answer])
    {
      frontend.Send(sender, true);
      frontend.Send(EMPTY, true);
      frontend.Send(answer, false);
      SentThree(sender, EMPTY, answer, false);
      assert [sender, EMPTY] + [answer] == [sender, EMPTY, answer];
    }

    method HandleConnectCommand(sender: Frame, endpoint: Frame) returns (socket: Socket)
      requires Valid()
      modifies this`dealerSockets, frontend`sent
      ensures Valid() && fresh(socket) && socket.incoming == [] && socket.sent == []
      ensures dealerSockets == old(dealerSockets) + [socket]
      ensures frontend.sent == old(frontend.sent) + Wire([sender, EMPTY, Encode64(|old(dealerSockets)|)])
    {
      socket := new Socket();
      dealerSockets := dealerSockets + [socket];
      Answer(sender, Encode64(|dealerSockets| - 1));
    }

    method HandleBindCommand(sender: Frame, endpoint: Frame) returns (socket: Socket)
      requires Valid()
      modifies this`routerSockets, this`bindMap, frontend`sent
      ensures Valid() && fresh(socket) && socket.incoming == [] && socket.sent == []
      ensures routerSockets == old(routerSockets) + [socket] && bindMap == old(bindMap)[endpoint := socket]
      ensures frontend.sent == old(frontend.sent) + Wire([sender, EMPTY, Encode64(|old(routerSockets)|)])
    {
      socket := new Socket();
      var routerIndex := |routerSockets|;
      routerSockets := routerSockets + [socket];
      bindMap := bindMap[endpoint := socket];
      Answer(sender, Encode64(routerIndex));
    }

    /** An endpoint that is not bound is ignored, and its client gets no answer; the router list keeps the socket. */
    method HandleUnbindCommand(sender: Frame, endpoint: Frame)
      requires Valid()
      modifies this`bindMap, this`deletions
      ensures Valid()
      ensures deletions == Unbound(old(bindMap), old(deletions), sender, endpoint)
        && bindMap == old(bindMap) - {endpoint}
    {
      if endpoint !in bindMap {
        return;
      }
      deletions := deletions + [(bindMap[endpoint], sender)];
      bindMap := bindMap - {endpoint};
    }

    /** The callback of a deletion: the client that unbound is told. */
    method HandleSocketDeleted(sender: Frame)
      modifies frontend`sent
      ensures frontend.sent == old(frontend.sent) + Wire([sender, EMPTY, EMPTY])
    {
      Answer(sender, EMPTY);
    }

    /**
     * The reactor makes all deletions that were asked for, in the order in
     * which its scan comes to their sockets, and runs the callback of each.
     */
    method SocketsDeleted(made: seq<(Socket, Frame)>)
      requires multiset(made) == multiset(deletions)
      modifies this`deletions, frontend`sent
      ensures deletions == [] && frontend.sent == old(frontend.sent) + Notices(Clients(made))
      ensures multiset(Clients(made)) == multiset(Clients(old(deletions)))
    {
      SameClients(deletions, made);
      hide Wire;
      var clients := Clients(made);
      for i := 0 to |made|
        invariant frontend.sent == old(frontend.sent) + Notices(clients[..i])
        modifies frontend`sent
      {
        HandleSocketDeleted(made[i].1);
        assert clients[..i + 1][..i] == clients[..i];
        Assoc(old(frontend.sent), Notices(clients[..i]), Wire([clients[i], EMPTY, EMPTY]));
      }
      assert clients[..|made|] == clients;
      deletions := [];
    }

    /** A random worker runs the closure. */
    method AddClosure(ptr: nat, dice: nat)
      requires Valid()
      modifies commander
      ensures Valid() && commander.queues == Queued(old(commander.queues), [(dice % cfg.workers, Rpc.RunClosure(ptr))])
    {
      commander.Push(dice % cfg.workers, Rpc.RunClosure(ptr));
    }

    method HandleTimeout(eventId: nat, workerIndex: nat)
      requires Valid()
      modifies commander
      ensures Valid()
      ensures commander.queues == Queued(old(commander.queues),
        [(workerIndex % cfg.workers, Rpc.HandleTimeout(eventId))])
    {
      commander.Push(workerIndex % cfg.workers, Rpc.HandleTimeout(eventId));
    }

    ghost predicate Understands(c: ClientCmd)
      reads this`dealerSockets, this`routerSockets
    {
      Proper(c) && (c.Request? || c.Reply? || c.RegisterService? ==> IsConnectionInfoLegal(c.info))
    }

    /** The data sockets that a command sends on: the connection's, for a request or reply. */
    ghost function Touched(c: ClientCmd): set<Socket?>
      reads this`dealerSockets, this`routerSockets
      requires Understands(c)
    {
      if c.Request? || c.Reply? then {TargetOf(c.info)} else {}
    }

    /** What the client is told. */
    ghost function Told(sender: Frame, c: ClientCmd): seq<Part>
      reads this
    {
      if c.Connect? then Wire([sender, EMPTY, Encode64(|dealerSockets|)])
      else if c.Bind? then Wire([sender, EMPTY, Encode64(|routerSockets|)])
      else []
    }

    /** The start of a message: who sent it, the delimiter and the code. */
    method ReadCommand(iter: MessageIterator, ghost sender: Frame, ghost c: ClientCmd) returns (from: Frame, code: Byte)
      requires iter.Valid() && iter.left == [sender] + CmdFrames(c)
      modifies iter, iter.socket`incoming
      ensures iter.Valid() && from == sender && code == Code(c) && iter.left == Operands(c)
    {
      assert CmdFrames(c) == [EMPTY] + ([[Code(c)]] + Operands(c));
      hide CmdFrames, Operands, Wire, Code;
      from := iter.Next();
      Unhead(from, iter.left, sender, CmdFrames(c));
      var delimiter := iter.Next();
      Unhead(delimiter, iter.left, EMPTY, [[Code(c)]] + Operands(c));
      var command := iter.Next();
      Unhead(command, iter.left, [Code(c)], Operands(c));
      code := command[0];
    }

    /**
     * One message of the frontend socket. Exactly that message is consumed, and
     * the command has its effect on timers, queues and sockets, and no other.
     */
    method HandleFrontendSocket(now: nat, dice: nat, ghost sender: Frame, ghost c: ClientCmd, ghost after: seq<Part>)
      returns (ghost socket: Socket)
      requires Valid() && Understands(c)
      requires frontend.incoming == Wire([sender] + CmdFrames(c)) + after
      modifies this, commander, frontend, Touched(c)`sent
      ensures Valid() && frontend.incoming == after
      ensures Now() == After(old(Now()), c, sender, EffectOf(cfg, memory, c, now, dice), socket)
      ensures c.Connect? || c.Bind? ==> fresh(socket)
      ensures c.Request? || c.Reply? ==>
        old(TargetOf(c.info)).sent == old(TargetOf(c.info).sent) + Wire(Envelope(c.info, c.data))
      ensures frontend.sent == old(frontend.sent) + old(Told(sender, c))
    {
      assert (c.Request? || c.Reply? ==> TargetOf(c.info) != frontend) && cfg.workers > 0;
      hide Tables, EffectOf, CmdFrames, Operands, Wire, Code, After, Envelope;
      var iter := new MessageIterator(frontend, [sender] + CmdFrames(c), after);
      var from, code := ReadCommand(iter, sender, c);
      socket := HandleCommand(iter, from, code, now, dice, c);
      iter.Drain();
    }

    /** The switch over the command codes. */
    method HandleCommand(iter: MessageIterator, from: Frame, code: Byte, now: nat, dice: nat, ghost c: ClientCmd)
      returns (ghost socket: Socket)
      requires Valid() && Understands(c) && code == Code(c)
      requires iter.Valid() && iter.left == Operands(c) && iter.socket == frontend
      modifies iter, this, commander, frontend, Touched(c)`sent
      ensures Valid() && iter.Valid() && iter.left == []
      ensures Now() == After(old(Now()), c, from, EffectOf(cfg, memory, c, now, dice), socket)
      ensures c.Connect? || c.Bind? ==> fresh(socket)
      ensures c.Request? || c.Reply? ==>
        old(TargetOf(c.info)).sent == old(TargetOf(c.info).sent) + Wire(Envelope(c.info, c.data))
      ensures frontend.sent == old(frontend.sent) + old(Told(from, c))
    {
      assert (c.Request? || c.Reply? ==> TargetOf(c.info) != frontend) && cfg.workers > 0;
      hide Tables, EffectOf, Operands, Wire, Code, After, Envelope;
      Kinds(c, now, dice);
      if code == K_REQUEST || code == K_REPLY || code == K_RUN_CLOSURE || code == K_REGISTER_SVC {
        socket := frontend;
        HandleTraffic(iter, code, now, dice, c, from, socket);
      } else {
        socket := HandleAdmin(iter, from, code, c);
      }
    }

    /** Every command concerns either traffic or sockets and the thread. */
    lemma Kinds(c: ClientCmd, now: nat, dice: nat)
      requires Understands(c) && cfg.workers > 0
      ensures (Code(c) == K_REQUEST || Code(c) == K_REPLY || Code(c) == K_RUN_CLOSURE || Code(c) == K_REGISTER_SVC) <==>
        !(c.Quit? || c.Connect? || c.Bind? || c.Unbind?)
      ensures c.Quit? || c.Connect? || c.Bind? || c.Unbind? ==>
        EffectOf(cfg, memory, c, now, dice) == Effect([], [], []) && Touched(c) == {}
      ensures c.Request? || c.Reply? || c.AddClosure? || c.RegisterService? ==> forall sender :: Told(sender, c) == []
    {
    }

    /** The commands that concern calls, services and closures. */
    method HandleTraffic(iter: MessageIterator, code: Byte, now: nat, dice: nat, ghost c: ClientCmd,
        ghost sender: Frame, ghost socket: Socket)
      requires Valid() && Understands(c) && code == Code(c)
      requires c.Request? || c.Reply? || c.AddClosure? || c.RegisterService?
      requires iter.Valid() && iter.left == Operands(c) && iter.socket == frontend
      modifies iter, this`timers, commander, frontend`incoming, Touched(c)`sent
      ensures Valid() && iter.Valid() && iter.left == []
      ensures Now() == After(old(Now()), c, sender, EffectOf(cfg, memory, c, now, dice), socket)
      ensures c.Request? || c.Reply? ==>
        TargetOf(c.info).sent == old(TargetOf(c.info).sent) + Wire(Envelope(c.info, c.data))
    {
      hide InfoFrames, Wire, Envelope, Encode64, E.WorkerOf, E.Deadline, StartsWithInfo;
      hide Tables, Queued;
      match code {
        case 0x01 => SendRequest(iter, now, c);
        case 0x05 =>
          NoEffect(timers, commander.queues);
          SendReply(iter, c);
        case 0x06 =>
          var ptr := iter.Next();
          OneLeft(ptr, iter.left, Encode64(c.ptr));
          Decode64Encode64(c.ptr);
          AddClosure(Decode(ptr), dice);
        case 0x07 => DoRegisterService(iter, c);
      }
    }

    /** The commands that concern sockets and the thread itself. */
    method HandleAdmin(iter: MessageIterator, from: Frame, code: Byte, ghost c: ClientCmd)
      returns (ghost socket: Socket)
      requires Valid() && code == Code(c) && (c.Quit? || c.Connect? || c.Bind? || c.Unbind?)
      requires iter.Valid() && iter.left == Operands(c) && iter.socket == frontend
      modifies iter, this`shouldQuit, this`dealerSockets, this`routerSockets, this`bindMap, this`deletions, frontend
      ensures Valid() && iter.Valid() && iter.left == []
      ensures frontend.sent == old(frontend.sent) + old(Told(from, c))
      ensures Now() == After(old(Now()), c, from, Effect([], [], []), socket)
      ensures c.Connect? || c.Bind? ==> fresh(socket)
    {
      hide Wire, Encode64, Tables;
      socket := frontend;
      match code {
        case 0x0f => shouldQuit := true;
        case 0x02 =>
          var endpoint := iter.Next();
          OneLeft(endpoint, iter.left, c.endpoint);
          socket := HandleConnectCommand(from, endpoint);
        case 0x03 =>
          var endpoint := iter.Next();
          OneLeft(endpoint, iter.left, c.endpoint);
          socket := HandleBindCommand(from, endpoint);
        case 0x04 =>
          var endpoint := iter.Next();
          OneLeft(endpoint, iter.left, c.endpoint);
          HandleUnbindCommand(from, endpoint);
      }
    }

    // ---- Data sockets -------------------------------------------------------

    /** Whatever the message, exactly the message is consumed. */
    method HandleDealerSocket(index: nat, ghost message: seq<Frame>, ghost after: seq<Part>)
      requires Valid() && 0 < index < |dealerSockets|
      requires message != [] && dealerSockets[index].incoming == Wire(message) + after
      modifies TargetOf(ConnInfo(false, index, EMPTY))`incoming, commander
      ensures Valid() && dealerSockets[index].incoming == after
      ensures commander.queues == Queued(old(commander.queues), ArrivalPush(cfg, false, index, message))
    {
      var iter := new MessageIterator(dealerSockets[index], message, after);
      HandleSocket(ConnInfo(false, index, EMPTY), iter);
      iter.Drain();
    }

    method HandleRouterSocket(index: nat, ghost message: seq<Frame>, ghost after: seq<Part>)
      requires Valid() && 0 < index < |routerSockets|
      requires message != [] && routerSockets[index].incoming == Wire(message) + after
      modifies TargetOf(ConnInfo(true, index, EMPTY))`incoming, commander
      ensures Valid() && routerSockets[index].incoming == after
      ensures commander.queues == Queued(old(commander.queues), ArrivalPush(cfg, true, index, message))
    {
      var iter := new MessageIterator(routerSockets[index], message, after);
      var sender := iter.Next();
      assert message == [sender] + iter.left;
      if !iter.hasMore {
        iter.Drain();
        return;
      }
      HandleSocket(ConnInfo(true, index, sender), iter);
      iter.Drain();
    }

    /** The body of a message: an empty delimiter, a header and perhaps a payload. */
    method HandleSocket(info: ConnInfo, iter: MessageIterator)
      requires Valid() && iter.Valid() && iter.left != []
      modifies iter, iter.socket`incoming, commander
      ensures Valid() && iter.Valid()
      ensures var body := old(iter.left);
        commander.queues == if |body| < 2 || body[0] != EMPTY then old(commander.queues)
          else Queued(old(commander.queues),
            [(E.WorkerOf(cfg, info), HandleData(info, body[1], if |body| > 2 then body[2] else EMPTY))])
    {
      var delimiter := iter.Next();
      if |delimiter| != 0 {
        return;
      }
      if !iter.hasMore {
        return;
      }
      var header := iter.Next();
      var payload := EMPTY;
      if iter.hasMore {
        payload := iter.Next();
      }
      commander.Push(E.WorkerOf(cfg, info), HandleData(info, header, payload));
    }
  }

  lemma Unhead(a: Frame, s: seq<Frame>, b: Frame, t: seq<Frame>)
    requires [a] + s == [b] + t
    ensures a == b && s == t
  {
    assert a == ([a] + s)[0] == ([b] + t)[0] == b;
    assert s == ([a] + s)[1..] == ([b] + t)[1..] == t;
  }

  lemma OneLeft(a: Frame, s: seq<Frame>, b: Frame)
    requires [a] + s == [b]
    ensures a == b && s == []
  {
    assert a == ([a] + s)[0] && |s| == |[a] + s| - 1;
  }
}
