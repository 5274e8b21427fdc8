/**
 * The worker thread. `Exec` says what one command does to a worker; class
 * `Worker` is the thread's own command loop, proved to do exactly that.
 */
module Worker {
  import opened Frames
  import opened Rpc

  datatype Outcome = Responded(payload: Frame) | Failed(errorCode: int) | TimedOut

  /** One use of a call's handler. The controller is deleted right after. */
  datatype Completion = Completion(ctrl: Ctrl, outcome: Outcome)

  /** What a connection's request handler is given, in order. */
  datatype Delivery = Invocation(header: ReqHeader, payload: Frame) | Service(name: string, svc: nat)

  /**
   * `calls` is the map from event id to waiting controller; `lost` lists the
   * controllers whose slot another one took, which no thread can reach any more.
   */
  datatype WorkerState = WorkerState(
    calls: map<nat, Ctrl>,
    handlers: map<ConnInfo, seq<Delivery>>,
    done: seq<Completion>,
    lost: seq<Ctrl>,
    closures: seq<nat>)

  const FRESH := WorkerState(map[], map[], [], [], [])

  function Finish(ws: WorkerState, eventId: nat, outcome: Outcome): WorkerState {
    if eventId in ws.calls then
      ws.(calls := ws.calls - {eventId}, done := ws.done + [Completion(ws.calls[eventId], outcome)])
    else ws
  }

  /** The connection's handler, made on first use, gets one more delivery. */
  function Deliver(ws: WorkerState, info: ConnInfo, d: Delivery): WorkerState {
    var before := if info in ws.handlers then ws.handlers[info] else [];
    ws.(handlers := ws.handlers[info := before + [d]])
  }

  function OutcomeOf(resp: RespHeader, payload: Frame): Outcome {
    if resp.errorCode.Some? then Failed(resp.errorCode.value) else Responded(payload)
  }

  function Exec(parse: Frame -> RpcHeader, ws: WorkerState, cmd: Cmd): WorkerState {
    match cmd
    case RunClosure(closure) => ws.(closures := ws.closures + [closure])
    case StartRpc(ctrl) =>
      ws.(calls := ws.calls[ctrl.eventId := ctrl],
          lost := if ctrl.eventId in ws.calls then ws.lost + [ws.calls[ctrl.eventId]] else ws.lost)
    case HandleData(info, header, payload) =>
      (match parse(header)
       case Unparsable => ws
       case Parsed(Some(req), _) => Deliver(ws, info, Invocation(req, payload))
       case Parsed(None, Some(resp)) => Finish(ws, resp.eventId, OutcomeOf(resp, payload))
       case Parsed(None, None) => ws)
    case HandleTimeout(eventId) => Finish(ws, eventId, TimedOut)
    case RegisterSvc(info, name, svc) => Deliver(ws, info, Service(name, svc))
    case QuitWorker => ws
  }

  function ExecAll(parse: Frame -> RpcHeader, ws: WorkerState, cmds: seq<Cmd>): WorkerState {
    if cmds == [] then ws
    else Exec(parse, ExecAll(parse, ws, cmds[..|cmds| - 1]), cmds[|cmds| - 1])
  }

  lemma ExecOneMore(parse: Frame -> RpcHeader, ws: WorkerState, cmds: seq<Cmd>, n: nat)
    requires n < |cmds|
    ensures ExecAll(parse, ws, cmds[..n + 1]) == Exec(parse, ExecAll(parse, ws, cmds[..n]), cmds[n])
  {
    assert cmds[..n + 1][..n] == cmds[..n];
  }

  class Worker {
    const parse: Frame -> RpcHeader
    var cmdQueue: seq<Cmd>
    var remoteResponseMap: map<nat, Ctrl>
    var requestHandlerMap: map<ConnInfo, seq<Delivery>>
    var completions: seq<Completion>
    var closuresRun: seq<nat>
    ghost var lost: seq<Ctrl>

    ghost function State(): WorkerState
      reads this
    {
      WorkerState(remoteResponseMap, requestHandlerMap, completions, lost, closuresRun)
    }

    /** Every waiting call is filed under its own event id. */
    ghost predicate Valid()
      reads this
    {
      forall e :: e in remoteResponseMap ==> remoteResponseMap[e].eventId == e
    }

    constructor (parse: Frame -> RpcHeader)
      ensures this.parse == parse && State() == FRESH && cmdQueue == [] && Valid()
    {
      this.parse := parse;
      cmdQueue, remoteResponseMap, requestHandlerMap := [], map[], map[];
      completions, closuresRun, lost := [], [], [];
    }

    /**
     * The thread: takes commands off the queue until told to quit. When the
     * queue runs dry first (`quit` is false) the thread blocks there. Whatever
     * it took, it executed, in queue order.
     */
    method Run() returns (quit: bool)
      requires Valid()
      modifies this
      ensures Valid()
      ensures var n := old(|cmdQueue|) - |cmdQueue|;
        && n >= 0 && cmdQueue == old(cmdQueue)[n..]
        && State() == ExecAll(parse, old(State()), old(cmdQueue)[..n])
        && (if quit then n > 0 && old(cmdQueue)[n - 1].QuitWorker? else cmdQueue == [])
        && (forall i :: 0 <= i < (if quit then n - 1 else n) ==> !old(cmdQueue)[i].QuitWorker?)
    {
      ghost var n := 0;
      ghost var all, start := cmdQueue, State();
      var shouldContinue := true;
      while shouldContinue && cmdQueue != []
        invariant 0 <= n <= |all| && cmdQueue == all[n..] && Valid()
        invariant State() == ExecAll(parse, start, all[..n])
        invariant forall i :: 0 <= i < (if shouldContinue then n else n - 1) ==> !all[i].QuitWorker?
        invariant !shouldContinue ==> n > 0 && all[n - 1].QuitWorker?
        decreases |cmdQueue|
      {
        var cmd := cmdQueue[0];
        cmdQueue := cmdQueue[1..];
        ExecOneMore(parse, start, all, n);
        n := n + 1;
        match cmd {
          case QuitWorker => shouldContinue := false;
          case RunClosure(closure) => closuresRun := closuresRun + [closure];
          case StartRpc(ctrl) => DoStartRpc(ctrl);
          case HandleData(info, header, payload) => DoHandleData(info, header, payload);
          case HandleTimeout(eventId) => DoHandleTimeout(eventId);
          case RegisterSvc(info, name, svc) => DoDeliver(info, Service(name, svc));
        }
      }
      quit := !shouldContinue;
    }

    method DoStartRpc(ctrl: Ctrl)
      requires Valid()
      modifies this
      ensures Valid() && cmdQueue == old(cmdQueue) && State() == Exec(parse, old(State()), StartRpc(ctrl))
    {
      if ctrl.eventId in remoteResponseMap {
        lost := lost + [remoteResponseMap[ctrl.eventId]];
      }
      remoteResponseMap := remoteResponseMap[ctrl.eventId := ctrl];
    }

    method DoHandleData(info: ConnInfo, header: Frame, payload: Frame)
      requires Valid()
      modifies this
      ensures Valid() && cmdQueue == old(cmdQueue)
      ensures State() == Exec(parse, old(State()), HandleData(info, header, payload))
      ensures match parse(header)
        case Parsed(None, Some(resp)) =>
          completions == old(completions) +
            (if resp.eventId !in old(remoteResponseMap) then []
             else [Completion(old(remoteResponseMap)[resp.eventId],
                     match resp.errorCode case None => Responded(payload) case Some(e) => Failed(e))])
        case _ => completions == old(completions)
    {
      var rpcHdr := parse(header);
      if rpcHdr.Unparsable? {
        return;
      }
      if rpcHdr.req.Some? {
        DoDeliver(info, Invocation(rpcHdr.req.value, payload));
        return;
      }
      if rpcHdr.resp.Some? {
        DoHandleResponse(rpcHdr.resp.value, payload);
        return;
      }
    }

    method DoHandleResponse(resp: RespHeader, payload: Frame)
      requires Valid()
      modifies this
      ensures Valid() && cmdQueue == old(cmdQueue)
      ensures State() == Finish(old(State()), resp.eventId, OutcomeOf(resp, payload))
    {
      if resp.errorCode.Some? {
        Complete(resp.eventId, Failed(resp.errorCode.value));
      } else {
        Complete(resp.eventId, Responded(payload));
      }
    }

    method DoHandleTimeout(eventId: nat)
      requires Valid()
      modifies this
      ensures Valid() && cmdQueue == old(cmdQueue)
      ensures State() == Exec(parse, old(State()), HandleTimeout(eventId))
    {
      Complete(eventId, TimedOut);
    }

    /** The common ending: look the call up, run its handler, delete it and free its slot. */
    method Complete(eventId: nat, outcome: Outcome)
      requires Valid()
      modifies this
      ensures Valid() && cmdQueue == old(cmdQueue) && State() == Finish(old(State()), eventId, outcome)
    {
      if eventId !in remoteResponseMap {
        return;  // already completed some other way
      }
      var ctrl := remoteResponseMap[eventId];
      assert ctrl.eventId == eventId;
      completions := completions + [Completion(ctrl, outcome)];
      remoteResponseMap := remoteResponseMap - {eventId};
    }

    method DoDeliver(info: ConnInfo, d: Delivery)
      requires Valid()
      modifies this
      ensures Valid() && cmdQueue == old(cmdQueue) && State() == Deliver(old(State()), info, d)
    {
      if info !in requestHandlerMap {
        requestHandlerMap := requestHandlerMap[info := []];
      }
      requestHandlerMap := requestHandlerMap[info := requestHandlerMap[info] + [d]];
    }
  }
}
