/** What executing a list of commands does to the calls among them. */
module WorkerLaws {
  import opened Wrappers
  import opened Sequences
  import opened Frames
  import opened Rpc
  import opened Bags
  import opened Worker

  /** The controller a command brings to its worker. */
  function CmdBag(cmd: Cmd): Bag {
    if cmd.StartRpc? then multiset{cmd.ctrl} else multiset{}
  }

  function LogBag(log: seq<Cmd>): Bag {
    Sum(log, CmdBag)
  }

  function DoneBag(c: Completion): Bag {
    multiset{c.ctrl}
  }

  /** The controllers a worker has, had completed, or lost. */
  function StateBag(ws: WorkerState): Bag {
    MapBag(ws.calls) + Sum(ws.done, DoneBag) + multiset(ws.lost)
  }

  lemma FinishKeeps(ws: WorkerState, eventId: nat, outcome: Outcome)
    requires Keyed(ws.calls)
    ensures var ws' := Finish(ws, eventId, outcome); Keyed(ws'.calls) && StateBag(ws') == StateBag(ws)
  {
    if eventId in ws.calls {
      MapBagTake(ws.calls, eventId);
      SumAppend(ws.done, Completion(ws.calls[eventId], outcome), DoneBag);
    }
  }

  lemma StartKeeps(parse: Frame -> RpcHeader, ws: WorkerState, ctrl: Ctrl)
    requires Keyed(ws.calls)
    ensures var ws' := Exec(parse, ws, StartRpc(ctrl));
      Keyed(ws'.calls) && StateBag(ws') == StateBag(ws) + multiset{ctrl}
  {
    var e := ctrl.eventId;
    MapBagPut(ws.calls, ctrl);
    if e in ws.calls {
      MapBagTake(ws.calls, e);
      assert multiset(ws.lost + [ws.calls[e]]) == multiset(ws.lost) + multiset{ws.calls[e]};
      hide MapBag, Keyed;
      Regroup(MapBag(ws.calls - {e}), multiset{ctrl}, Sum(ws.done, DoneBag), multiset(ws.lost), multiset{ws.calls[e]});
    } else {
      assert ws.calls - {e} == ws.calls;
    }
  }

  lemma Regroup(calls: Bag, new': Bag, done: Bag, lost: Bag, old': Bag)
    ensures (calls + new') + done + (lost + old') == ((calls + old') + done + lost) + new'
  {
  }

  /**
   * Whatever the commands, every controller they start ends up in exactly one
   * place: waiting, completed once, or lost to a later call with its event id.
   */
  lemma {:induction false} WorkerConserves(parse: Frame -> RpcHeader, log: seq<Cmd>)
    ensures var ws := ExecAll(parse, FRESH, log); Keyed(ws.calls) && StateBag(ws) == LogBag(log)
    decreases |log|
  {
    if log != [] {
      var n := |log| - 1;
      WorkerConserves(parse, log[..n]);
      ExecKeeps(parse, ExecAll(parse, FRESH, log[..n]), log[n]);
      hide StateBag, Exec, CmdBag;
    }
  }

  /** The event a command finishes, if it finishes one. */
  function Finishes(parse: Frame -> RpcHeader, cmd: Cmd): Option<nat> {
    match cmd
    case HandleTimeout(e) => Some(e)
    case HandleData(_, header, _) =>
      (match parse(header)
       case Parsed(None, Some(resp)) => Some(resp.eventId)
       case _ => None)
    case _ => None
  }

  /** A command that starts nothing finishes at most one call. */
  lemma ExecFinishes(parse: Frame -> RpcHeader, ws: WorkerState, cmd: Cmd) returns (outcome: Outcome)
    requires !cmd.StartRpc?
    ensures var ws', e := Exec(parse, ws, cmd), Finishes(parse, cmd);
      if e.Some? then ws' == Finish(ws, e.value, outcome)
      else ws'.calls == ws.calls && ws'.done == ws.done && ws'.lost == ws.lost
  {
    outcome := TimedOut;
    if cmd.HandleData? && Finishes(parse, cmd).Some? {
      outcome := OutcomeOf(parse(cmd.header).resp.value, cmd.payload);
    }
  }

  lemma ExecKeeps(parse: Frame -> RpcHeader, ws: WorkerState, cmd: Cmd)
    requires Keyed(ws.calls)
    ensures var ws' := Exec(parse, ws, cmd); Keyed(ws'.calls) && StateBag(ws') == StateBag(ws) + CmdBag(cmd)
  {
    if cmd.StartRpc? {
      StartKeeps(parse, ws, cmd.ctrl);
    } else {
      var outcome := ExecFinishes(parse, ws, cmd);
      if Finishes(parse, cmd).Some? {
        FinishKeeps(ws, Finishes(parse, cmd).value, outcome);
      }
    }
  }

  predicate Starts(cmd: Cmd, eventId: nat) {
    cmd.StartRpc? && cmd.ctrl.eventId == eventId
  }

  lemma StillWaits(parse: Frame -> RpcHeader, ws: WorkerState, cmd: Cmd, e: nat)
    requires e in Exec(parse, ws, cmd).calls
    ensures if Starts(cmd, e) then Exec(parse, ws, cmd).calls[e] == cmd.ctrl
      else e in ws.calls && Exec(parse, ws, cmd).calls[e] == ws.calls[e] && Finishes(parse, cmd) != Some(e)
  {
  }

  /** A waiting call was started, and nothing executed since could have finished it. */
  lemma {:induction false} WaitingSince(parse: Frame -> RpcHeader, log: seq<Cmd>, e: nat) returns (j: nat)
    requires e in ExecAll(parse, FRESH, log).calls
    ensures j < |log| && log[j] == StartRpc(ExecAll(parse, FRESH, log).calls[e]) && log[j].ctrl.eventId == e
    ensures forall k :: j < k < |log| ==> Finishes(parse, log[k]) != Some(e) && !Starts(log[k], e)
    decreases |log|
  {
    var n := |log| - 1;
    StillWaits(parse, ExecAll(parse, FRESH, log[..n]), log[n], e);
    hide Exec, Finishes;
    if Starts(log[n], e) {
      j := n;
    } else {
      j := WaitingSince(parse, log[..n], e);
    }
  }

  /** A started call is waiting, was completed, or was lost. */
  lemma {:induction false} StartedIsSomewhere(parse: Frame -> RpcHeader, log: seq<Cmd>, j: nat)
    requires j < |log| && log[j].StartRpc?
    ensures var ws := ExecAll(parse, FRESH, log); var c := log[j].ctrl;
      || c in ws.lost
      || (c.eventId in ws.calls && ws.calls[c.eventId] == c)
      || exists i :: 0 <= i < |ws.done| && ws.done[i].ctrl == c
    decreases |log|
  {
    var n := |log| - 1;
    if j < n {
      StartedIsSomewhere(parse, log[..n], j);
      var before, ws, c := ExecAll(parse, FRESH, log[..n]), ExecAll(parse, FRESH, log), log[j].ctrl;
      if i :| 0 <= i < |before.done| && before.done[i].ctrl == c {
        assert ws.done[i].ctrl == c;
      } else if c in before.lost {
      } else if c.eventId !in ws.calls || ws.calls[c.eventId] != c {
        if log[n].StartRpc? {
          assert ws.lost[|before.lost|] == c;
        } else {
          assert ws.done[|before.done|].ctrl == c;
        }
      }
    }
  }

  /** With distinct event ids no controller is ever lost. */
  lemma {:induction false} NothingLost(parse: Frame -> RpcHeader, log: seq<Cmd>)
    requires forall i, j :: 0 <= i < j < |log| && log[i].StartRpc? && log[j].StartRpc? ==>
      log[i].ctrl.eventId != log[j].ctrl.eventId
    ensures ExecAll(parse, FRESH, log).lost == []
    decreases |log|
  {
    if log != [] {
      var n := |log| - 1;
      NothingLost(parse, log[..n]);
      if log[n].StartRpc? && log[n].ctrl.eventId in ExecAll(parse, FRESH, log[..n]).calls {
        var _ := WaitingSince(parse, log[..n], log[n].ctrl.eventId);
      }
    }
  }

  /** Every call finds its slot free when it is started. */
  ghost predicate SlotsFree(parse: Frame -> RpcHeader, log: seq<Cmd>) {
    forall j :: 0 <= j < |log| && log[j].StartRpc? ==> log[j].ctrl.eventId !in ExecAll(parse, FRESH, log[..j]).calls
  }

  /** Calls are lost exactly when one is started while another waits under the same event id. */
  lemma {:induction false} LostIffSlotTaken(parse: Frame -> RpcHeader, log: seq<Cmd>)
    ensures ExecAll(parse, FRESH, log).lost == [] <==> SlotsFree(parse, log)
    decreases |log|
  {
    if log != [] {
      var n := |log| - 1;
      var init := log[..n];
      LostIffSlotTaken(parse, init);
      var before := ExecAll(parse, FRESH, init);
      assert ExecAll(parse, FRESH, log) == Exec(parse, before, log[n]);
      ExecLoses(parse, before, log[n]);
      assert log == init + [log[n]];
      SlotsFreeGrows(parse, init, log[n]);
    }
  }

  lemma ExecLoses(parse: Frame -> RpcHeader, ws: WorkerState, cmd: Cmd)
    ensures Exec(parse, ws, cmd).lost == [] <==> ws.lost == [] && (cmd.StartRpc? ==> cmd.ctrl.eventId !in ws.calls)
  {
  }

  lemma SlotsFreeGrows(parse: Frame -> RpcHeader, init: seq<Cmd>, cmd: Cmd)
    ensures SlotsFree(parse, init + [cmd]) <==>
      SlotsFree(parse, init) && (cmd.StartRpc? ==> cmd.ctrl.eventId !in ExecAll(parse, FRESH, init).calls)
  {
    hide ExecAll;
    var log := init + [cmd];
    assert forall j :: 0 <= j < |init| ==> init[j] == log[j] && init[..j] == log[..j];
    assert log[..|init|] == init && log[|init|] == cmd;
  }

  /** A second call with the id of a waiting one: the first is never finished, whatever follows. */
  lemma {:induction false} DuplicateIsNeverFinished(parse: Frame -> RpcHeader, a: Ctrl, b: Ctrl, more: seq<Cmd>)
    requires a.eventId == b.eventId && a != b && StartRpc(a) !in more
    ensures var ws := ExecAll(parse, FRESH, [StartRpc(a), StartRpc(b)] + more);
      a in ws.lost && (forall i :: 0 <= i < |ws.done| ==> ws.done[i].ctrl != a)
  {
    var log := [StartRpc(a), StartRpc(b)] + more;
    var ws := ExecAll(parse, FRESH, log);
    StaysLost(parse, a, b, more);
    WorkerConserves(parse, log);
    assert LogBag(log)[a] <= 1 by { StartedOnce(a, b, more); }
    hide ExecAll, LogBag;
    assert Sum(ws.done, DoneBag)[a] == 0;
    forall i | 0 <= i < |ws.done| ensures ws.done[i].ctrl != a {
      SumHas(ws.done, i, DoneBag);
      assert DoneBag(ws.done[i])[a] == 0;
    }
  }

  lemma {:induction false} StaysLost(parse: Frame -> RpcHeader, a: Ctrl, b: Ctrl, more: seq<Cmd>)
    requires a.eventId == b.eventId
    ensures a in ExecAll(parse, FRESH, [StartRpc(a), StartRpc(b)] + more).lost
    decreases |more|
  {
    var two := [StartRpc(a), StartRpc(b)];
    if more == [] {
      assert two + more == two && two[..1] == [StartRpc(a)] && [StartRpc(a)][..0] == [];
      assert ExecAll(parse, FRESH, [StartRpc(a)]) == Exec(parse, FRESH, StartRpc(a));
      assert ExecAll(parse, FRESH, two) == Exec(parse, ExecAll(parse, FRESH, two[..1]), StartRpc(b));
    } else {
      StaysLost(parse, a, b, more[..|more| - 1]);
      assert (two + more)[..|two + more| - 1] == two + more[..|more| - 1];
    }
  }

  lemma {:induction false} StartedOnce(a: Ctrl, b: Ctrl, more: seq<Cmd>)
    requires a != b && StartRpc(a) !in more
    ensures LogBag([StartRpc(a), StartRpc(b)] + more)[a] == 1
    decreases |more|
  {
    var two := [StartRpc(a), StartRpc(b)];
    if more == [] {
      assert two + more == [StartRpc(a)] + [StartRpc(b)] && [StartRpc(a)][..0] == [];
      SumAppend([StartRpc(a)], StartRpc(b), CmdBag);
    } else {
      StartedOnce(a, b, more[..|more| - 1]);
      assert two + more == (two + more[..|more| - 1]) + [more[|more| - 1]];
      SumAppend(two + more[..|more| - 1], more[|more| - 1], CmdBag);
    }
  }

  predicate Brings(parse: Frame -> RpcHeader, cmd: Cmd, c: Completion) {
    if c.outcome.TimedOut? then cmd == HandleTimeout(c.ctrl.eventId) else Answers(parse, cmd, c)
  }

  /** A completion is of the event that the command finishes, with the outcome it brings. */
  lemma OneMoreDone(parse: Frame -> RpcHeader, ws: WorkerState, cmd: Cmd)
    requires Keyed(ws.calls)
    ensures var done' := Exec(parse, ws, cmd).done;
      done' == ws.done || exists c :: done' == ws.done + [c] && Brings(parse, cmd, c)
  {
    var done' := Exec(parse, ws, cmd).done;
    if done' != ws.done {
      var c := done'[|ws.done|];
      assert done' == ws.done + [c];
    }
  }

  /** A call reported as timed out was finished by a timeout command. */
  lemma {:induction false} TimedOutByCommand(parse: Frame -> RpcHeader, log: seq<Cmd>, i: nat) returns (k: nat)
    requires i < |ExecAll(parse, FRESH, log).done| && ExecAll(parse, FRESH, log).done[i].outcome.TimedOut?
    ensures k < |log| && log[k] == HandleTimeout(ExecAll(parse, FRESH, log).done[i].ctrl.eventId)
    decreases |log|
  {
    var n := |log| - 1;
    var before := ExecAll(parse, FRESH, log[..n]);
    WorkerConserves(parse, log[..n]);
    OneMoreDone(parse, before, log[n]);
    hide Exec;
    if i < |before.done| {
      k := TimedOutByCommand(parse, log[..n], i);
    } else {
      k := n;
    }
  }

  /** The command brings the response that a completion reports. */
  predicate Answers(parse: Frame -> RpcHeader, cmd: Cmd, c: Completion) {
    && cmd.HandleData?
    && match parse(cmd.header)
       case Parsed(None, Some(resp)) => resp.eventId == c.ctrl.eventId && Reports(c.outcome, resp, cmd.payload)
       case _ => false
  }

  /** A response without an error code is its payload, as it came; otherwise it is the error. */
  predicate Reports(outcome: Outcome, resp: RespHeader, payload: Frame) {
    match resp.errorCode
    case None => outcome == Responded(payload)
    case Some(e) => outcome == Failed(e)
  }

  /** Every completion but a timeout reports the response in some command, payload and all. */
  lemma {:induction false} AnsweredByData(parse: Frame -> RpcHeader, log: seq<Cmd>, i: nat) returns (k: nat)
    requires i < |ExecAll(parse, FRESH, log).done| && !ExecAll(parse, FRESH, log).done[i].outcome.TimedOut?
    ensures k < |log| && Answers(parse, log[k], ExecAll(parse, FRESH, log).done[i])
    ensures var done, resp := ExecAll(parse, FRESH, log).done[i], parse(log[k].header).resp.value;
      && resp.eventId == done.ctrl.eventId
      && (resp.errorCode.None? ==> done.outcome == Responded(log[k].payload))
      && (forall e :: resp.errorCode == Some(e) ==> done.outcome == Failed(e))
    decreases |log|
  {
    var n := |log| - 1;
    var before := ExecAll(parse, FRESH, log[..n]);
    WorkerConserves(parse, log[..n]);
    OneMoreDone(parse, before, log[n]);
    hide Exec;
    if i < |before.done| {
      k := AnsweredByData(parse, log[..n], i);
    } else {
      k := n;
    }
  }

  /** A call waits until a command finishes its event, or starts it again. */
  lemma {:induction false} WaitsUntil(parse: Frame -> RpcHeader, log: seq<Cmd>, j: nat)
    requires j < |log| && log[j].StartRpc?
    requires var e := log[j].ctrl.eventId;
      forall m :: j < m < |log| ==> !Starts(log[m], e) && Finishes(parse, log[m]) != Some(e)
    ensures var ws, c := ExecAll(parse, FRESH, log), log[j].ctrl; c.eventId in ws.calls && ws.calls[c.eventId] == c
    decreases |log|
  {
    var n := |log| - 1;
    if j < n {
      WaitsUntil(parse, log[..n], j);
      if !log[n].StartRpc? {
        var _ := ExecFinishes(parse, ExecAll(parse, FRESH, log[..n]), log[n]);
      }
      hide Finishes;
    }
  }

  lemma {:induction false} DoneStays(parse: Frame -> RpcHeader, log: seq<Cmd>, n: nat)
    requires n <= |log|
    ensures ExecAll(parse, FRESH, log[..n]).done <= ExecAll(parse, FRESH, log).done
    decreases |log|
  {
    if n == |log| {
      assert log[..n] == log;
    } else {
      var m := |log| - 1;
      DoneStays(parse, log[..m], n);
      assert log[..m][..n] == log[..n];
    }
  }

  /**
   * A call is completed by the first command behind its start that finishes its
   * event, and with what that command brings: the timeout, the error code, or
   * the payload as it came.
   */
  lemma FirstFinishWins(parse: Frame -> RpcHeader, log: seq<Cmd>, j: nat, k: nat) returns (i: nat)
    requires j < k < |log| && log[j].StartRpc? && Finishes(parse, log[k]) == Some(log[j].ctrl.eventId)
    requires var e := log[j].ctrl.eventId;
      forall m :: j < m < k ==> !Starts(log[m], e) && Finishes(parse, log[m]) != Some(e)
    ensures var done := ExecAll(parse, FRESH, log).done;
      && i < |done| && done[i].ctrl == log[j].ctrl
      && match log[k]
         case HandleData(_, header, payload) =>
           done[i].outcome == (match parse(header).resp.value.errorCode
                               case None => Responded(payload)
                               case Some(e) => Failed(e))
         case _ => done[i].outcome == TimedOut
  {
    var before := ExecAll(parse, FRESH, log[..k]);
    WaitsUntil(parse, log[..k], j);
    ExecOneMore(parse, FRESH, log, k);
    i := |before.done|;
    assert |ExecAll(parse, FRESH, log[..k + 1]).done| == i + 1;
    DoneStays(parse, log, k + 1);
  }

  /** The closures among the commands. */
  function Closures(log: seq<Cmd>): seq<nat> {
    if log == [] then []
    else (if log[0].RunClosure? then [log[0].closure] else []) + Closures(log[1..])
  }

  lemma {:induction false} ClosuresAppend(log: seq<Cmd>, cmd: Cmd)
    ensures Closures(log + [cmd]) == Closures(log) + if cmd.RunClosure? then [cmd.closure] else []
    decreases |log|
  {
    if log == [] {
      assert [cmd][1..] == [];
    } else {
      assert (log + [cmd])[1..] == log[1..] + [cmd];
      ClosuresAppend(log[1..], cmd);
      Assoc(if log[0].RunClosure? then [log[0].closure] else [], Closures(log[1..]),
        if cmd.RunClosure? then [cmd.closure] else []);
    }
  }

  /** A worker runs exactly the closures it is given, each once, in order. */
  lemma {:induction false} ClosuresRun(parse: Frame -> RpcHeader, log: seq<Cmd>)
    ensures ExecAll(parse, FRESH, log).closures == Closures(log)
    decreases |log|
  {
    if log != [] {
      var n := |log| - 1;
      ClosuresRun(parse, log[..n]);
      ClosuresAppend(log[..n], log[n]);
      assert log == log[..n] + [log[n]];
      hide Closures;
    }
  }

  /** What a connection is sent to handle, command by command. */
  function Deliveries(parse: Frame -> RpcHeader, log: seq<Cmd>, info: ConnInfo): seq<Delivery> {
    if log == [] then [] else
    var before := Deliveries(parse, log[..|log| - 1], info);
    match log[|log| - 1]
    case RegisterSvc(to, name, svc) => if to == info then before + [Service(name, svc)] else before
    case HandleData(to, header, payload) =>
      (match parse(header)
       case Parsed(Some(req), _) => if to == info then before + [Invocation(req, payload)] else before
       case _ => before)
    case _ => before
  }

  /** Each connection's handler exists iff it was given something, and was given it in order. */
  lemma {:induction false} HandlersAreDeliveries(parse: Frame -> RpcHeader, log: seq<Cmd>, info: ConnInfo)
    ensures var ws, ds := ExecAll(parse, FRESH, log), Deliveries(parse, log, info);
      if ds == [] then info !in ws.handlers else info in ws.handlers && ws.handlers[info] == ds
    decreases |log|
  {
    if log != [] {
      HandlersAreDeliveries(parse, log[..|log| - 1], info);
    }
  }

  /** The connection a command is about, if the command says so. */
  function About(cmd: Cmd): Option<ConnInfo> {
    match cmd
    case StartRpc(ctrl) => Some(ctrl.conn)
    case HandleData(info, _, _) => Some(info)
    case RegisterSvc(info, _, _) => Some(info)
    case _ => None
  }

  lemma {:induction false} DeliveredAbout(parse: Frame -> RpcHeader, log: seq<Cmd>, info: ConnInfo) returns (k: nat)
    requires Deliveries(parse, log, info) != []
    ensures k < |log| && About(log[k]) == Some(info)
    decreases |log|
  {
    var n := |log| - 1;
    if About(log[n]) == Some(info) {
      k := n;
    } else {
      k := DeliveredAbout(parse, log[..n], info);
    }
  }
}
