/** Deadlines: none is lost, none is early, and all are met once the engine comes to rest. */
module EngineDeadlines {
  import opened Wrappers
  import opened Frames
  import opened Rpc
  import opened Bags
  import opened Worker
  import opened WorkerLaws
  import opened Engine
  import opened EngineConservation
  import opened EngineOrder

  /** The time is the call's timeout after the broker took it, in unsigned 64-bit arithmetic. */
  predicate IsDue(s: State, c: Ctrl, due: nat) {
    && c in s.armed && due == (s.armed[c] + c.timeoutMs) % TWO_TO_THE_64
    && (0 <= c.timeoutMs && s.armed[c] + c.timeoutMs < TWO_TO_THE_64 ==> due == s.armed[c] + c.timeoutMs)
  }

  /** The call's timer is armed, for the call's worker and time. */
  predicate TimerFor(s: State, c: Ctrl, w: nat) {
    exists t :: t in s.timers && t.eventId == c.eventId && t.worker == w && IsDue(s, c, t.due)
  }

  predicate TimeoutAfter(log: seq<Cmd>, j: int, eventId: nat) {
    exists k :: j < k < |log| && 0 <= k && log[k] == HandleTimeout(eventId)
  }

  ghost predicate DeadlinesKept(cfg: Config, s: State)
    requires cfg.workers > 0
  {
    && (forall w, j :: 0 <= w < |s.workers| && 0 <= j < |s.workers[w].log| && HasDeadline(s.workers[w].log[j]) ==>
          || TimerFor(s, s.workers[w].log[j].ctrl, w)
          || TimeoutAfter(s.workers[w].log, j, s.workers[w].log[j].ctrl.eventId))
    && (!s.pc.Idle? && s.pc.ctrl.timeoutMs != NO_TIMEOUT ==>
          TimerFor(s, s.pc.ctrl, WorkerOf(cfg, s.pc.ctrl.conn)))
  }

  predicate HasDeadline(cmd: Cmd) {
    cmd.StartRpc? && cmd.ctrl.timeoutMs != NO_TIMEOUT
  }

  /** A timer stays until it fires, and firing pushes its timeout behind everything in the queue. */
  lemma TimerStays(cfg: Config, s: State, step: Step, t: Timer)
    requires Shape(cfg, s) && t in s.timers
    ensures t in Next(cfg, s, step).timers || Pushes(cfg, s, step) == Some((t.worker, HandleTimeout(t.eventId)))
    ensures !s.pc.Idle? ==> t in Next(cfg, s, step).timers
  {
    var s' := Next(cfg, s, step);
    var i :| 0 <= i < |s.timers| && s.timers[i] == t;
    hide ExecAll, Exec, Shape;
    if step.Fire? && Enabled(cfg, s, step) {
      if i < step.timer {
        assert s'.timers[i] == s.timers[i];
      } else if i > step.timer {
        assert s'.timers[i - 1] == s.timers[i];
      }
    } else {
      assert s'.timers[i] == s.timers[i];
    }
  }

  /** A call is taken once. */
  lemma ArmedStays(cfg: Config, s: State, step: Step, c: Ctrl)
    requires Shape(cfg, s) && Conserved(s) && Taken(s, c) && c in s.armed
    ensures c in Next(cfg, s, step).armed && Next(cfg, s, step).armed[c] == s.armed[c]
  {
    hide Next, Shape, Conserved;
    ArmedAfter(cfg, s, step);
    if Arms(s, step) {
      FrontIsFresh(s, step.i);
    }
  }

  /** The same for the timer of a call that the broker has taken. */
  lemma TimerForStays(cfg: Config, s: State, step: Step, c: Ctrl, w: nat)
    requires Shape(cfg, s) && Conserved(s) && Taken(s, c) && TimerFor(s, c, w)
    ensures TimerFor(Next(cfg, s, step), c, w) || Pushes(cfg, s, step) == Some((w, HandleTimeout(c.eventId)))
    ensures !s.pc.Idle? ==> TimerFor(Next(cfg, s, step), c, w)
  {
    hide Conserved, Taken, Next, Shape, Pushes;
    var t :| t in s.timers && t.eventId == c.eventId && t.worker == w && IsDue(s, c, t.due);
    TimerStays(cfg, s, step, t);
    ArmedStays(cfg, s, step, c);
    assert IsDue(Next(cfg, s, step), c, t.due);
  }

  lemma StepDeadlinesKept(cfg: Config, s: State, step: Step)
    requires Shape(cfg, s) && Conserved(s) && DeadlinesKept(cfg, s)
    ensures DeadlinesKept(cfg, Next(cfg, s, step))
  {
    var s' := Next(cfg, s, step);
    LogsGrow(cfg, s, step);
    forall w, j | 0 <= w < |s'.workers| && 0 <= j < |s'.workers[w].log| && HasDeadline(s'.workers[w].log[j])
      ensures TimerFor(s', s'.workers[w].log[j].ctrl, w)
           || TimeoutAfter(s'.workers[w].log, j, s'.workers[w].log[j].ctrl.eventId)
    {
      var log, log', c := s.workers[w].log, s'.workers[w].log, s'.workers[w].log[j].ctrl;
      hide Next, ExecAll, Conserved, TimerFor;
      if j < |log| {
        assert log[j] == StartRpc(c);
        if TimerFor(s, c, w) {
          TimerForStays(cfg, s, step, c, w);
          if !TimerFor(s', c, w) {
            assert log'[|log|] == HandleTimeout(c.eventId);
          }
        } else {
          var k :| j < k < |log| && log[k] == HandleTimeout(c.eventId);
          assert log'[k] == log[k];
        }
      } else {
        assert step.PushStart? && w == WorkerOf(cfg, s.pc.ctrl.conn) && s.pc.ctrl == c;
        TimerForStays(cfg, s, step, c, w);
      }
    }
    PcDeadline(cfg, s, step);
  }

  lemma PcDeadline(cfg: Config, s: State, step: Step)
    requires Shape(cfg, s) && Conserved(s) && DeadlinesKept(cfg, s)
    ensures var s' := Next(cfg, s, step);
      !s'.pc.Idle? && s'.pc.ctrl.timeoutMs != NO_TIMEOUT ==> TimerFor(s', s'.pc.ctrl, WorkerOf(cfg, s'.pc.ctrl.conn))
  {
    var s' := Next(cfg, s, step);
    StaysInHand(cfg, s, step);
    ArmedAfter(cfg, s, step);
    hide Next, Shape, Conserved;
    if !s'.pc.Idle? && s'.pc.ctrl.timeoutMs != NO_TIMEOUT {
      if s.pc.Idle? {
        var t := s'.timers[|s.timers|];
        assert t in s'.timers && IsDue(s', s'.pc.ctrl, t.due);
      } else {
        TimerForStays(cfg, s, step, s.pc.ctrl, WorkerOf(cfg, s.pc.ctrl.conn));
      }
    }
  }

  /** The call in hand is the one that was, or one that is taken off the frontend now. */
  lemma StaysInHand(cfg: Config, s: State, step: Step)
    requires Shape(cfg, s)
    ensures var s' := Next(cfg, s, step);
      !s'.pc.Idle? ==>
        if s.pc.Idle? then Arms(s, step) || s'.pc.ctrl.timeoutMs == NO_TIMEOUT else s'.pc.ctrl == s.pc.ctrl
  {
    hide ExecAll, Exec;
  }

  lemma {:induction false} AlwaysDeadlinesKept(cfg: Config, steps: seq<Step>)
    requires cfg.workers > 0
    ensures DeadlinesKept(cfg, After(cfg, steps))
    decreases |steps|
  {
    if steps != [] {
      AlwaysDeadlinesKept(cfg, steps[..|steps| - 1]);
      AlwaysConserved(cfg, steps[..|steps| - 1]);
      StepDeadlinesKept(cfg, After(cfg, steps[..|steps| - 1]), steps[|steps| - 1]);
    }
  }

  /** A waiting call's start, such that any timeout behind it is still in the queue. */
  lemma WaitingTimeout(parse: Frame -> RpcHeader, wk: WorkerRt, e: nat) returns (j: nat)
    requires wk.head <= |wk.log| && wk.st == ExecAll(parse, FRESH, wk.log[..wk.head]) && e in wk.st.calls
    ensures j < |wk.log| && wk.log[j] == StartRpc(wk.st.calls[e]) && wk.log[j].ctrl.eventId == e
    ensures TimeoutAfter(wk.log, j, e) ==> HandleTimeout(e) in wk.log[wk.head..]
  {
    j := WaitingSince(parse, wk.log[..wk.head], e);
    hide ExecAll;
    forall m | j < m < wk.head ensures wk.log[m] != HandleTimeout(e) {
      assert wk.log[..wk.head][m] == wk.log[m];
    }
    if TimeoutAfter(wk.log, j, e) {
      var k :| j < k < |wk.log| && wk.log[k] == HandleTimeout(e);
      assert wk.log[wk.head..][k - wk.head] == wk.log[k];
    }
  }

  /**
   * No lost deadline: a waiting call that asked for a timeout has its timer
   * still in the timer map, due its timeout after the broker took the call, or
   * its timeout command still in its worker's queue.
   */
  lemma NoLostDeadline(cfg: Config, s: State, w: nat, e: nat)
    requires Reachable(cfg, s) && w < |s.workers|
    requires e in s.workers[w].st.calls && s.workers[w].st.calls[e].timeoutMs != NO_TIMEOUT
    ensures TimerFor(s, s.workers[w].st.calls[e], w) || HandleTimeout(e) in s.workers[w].log[s.workers[w].head..]
  {
    var wk := s.workers[w];
    var steps := StepsTo(cfg, s);
    AlwaysDeadlinesKept(cfg, steps);
    assert wk.st == ExecAll(cfg.parse, FRESH, wk.log[..wk.head]);
    hide After, Reachable;
    var j := WaitingTimeout(cfg.parse, wk, e);
    assert HasDeadline(wk.log[j]);
  }

  /**
   * A call with a deadline that is started, executed or not, has its timer
   * still armed, due exactly its timeout after the broker took the call, or its
   * timeout behind its start; one the broker has in hand has its timer armed.
   */
  lemma EveryDeadlineIsKept(cfg: Config, s: State, w: nat, j: nat)
    requires Reachable(cfg, s)
    ensures w < |s.workers| && j < |s.workers[w].log| && HasDeadline(s.workers[w].log[j]) ==>
      var c := s.workers[w].log[j].ctrl;
      TimerFor(s, c, w) || TimeoutAfter(s.workers[w].log, j, c.eventId)
    ensures !s.pc.Idle? && s.pc.ctrl.timeoutMs != NO_TIMEOUT ==>
      TimerFor(s, s.pc.ctrl, WorkerOf(cfg, s.pc.ctrl.conn))
  {
    var steps := StepsTo(cfg, s);
    AlwaysDeadlinesKept(cfg, steps);
    hide After, Reachable, TimerFor, TimeoutAfter;
  }

  /** Nothing is left to do: no request waits, no timer is armed, every queue is drained. */
  ghost predicate Quiet(s: State) {
    && s.pc.Idle? && s.timers == []
    && (forall i :: 0 <= i < |s.frontend| ==> !s.frontend[i].Request?)
    && (forall w :: 0 <= w < |s.workers| ==> s.workers[w].head == |s.workers[w].log|)
  }

  /**
   * Once timers have fired and queues have drained, every call that asked for
   * a timeout has been completed, exactly once.
   */
  lemma DeadlinesComplete(cfg: Config, s: State, c: Ctrl)
    requires Reachable(cfg, s) && UniqueIds(cfg, s) && Quiet(s)
    requires c in s.issued && c.timeoutMs != NO_TIMEOUT
    ensures Completed(s)[c] == 1
  {
    Conservation(cfg, s, c);
    AtMostOnce(cfg, s, c);
    assert c in multiset(s.issued);
    NoRequests(s.frontend);
    forall w | 0 <= w < |s.workers| ensures At(s.workers[w])[c] == DoneAt(s.workers[w])[c] {
      hide Reachable;
      NotWaiting(cfg, s, w, c);
    }
    hide Reachable, At, DoneAt;
    SameCount(s.workers, c);
  }

  lemma {:induction false} NoRequests(cmds: seq<FrontCmd>)
    requires forall i :: 0 <= i < |cmds| ==> !cmds[i].Request?
    ensures Sum(cmds, FrontBag) == multiset{}
    decreases |cmds|
  {
    if cmds != [] {
      NoRequests(cmds[..|cmds| - 1]);
    }
  }

  lemma {:induction false} SameCount(wks: seq<WorkerRt>, c: Ctrl)
    requires forall w :: 0 <= w < |wks| ==> At(wks[w])[c] == DoneAt(wks[w])[c]
    ensures Sum(wks, At)[c] == Sum(wks, DoneAt)[c]
    decreases |wks|
  {
    if wks != [] {
      hide At, DoneAt;
      SameCount(wks[..|wks| - 1], c);
    }
  }

  lemma NotWaiting(cfg: Config, s: State, w: nat, c: Ctrl)
    requires Reachable(cfg, s) && UniqueIds(cfg, s) && Quiet(s)
    requires w < |s.workers| && c.timeoutMs != NO_TIMEOUT
    ensures At(s.workers[w])[c] == DoneAt(s.workers[w])[c]
  {
    var wk := s.workers[w];
    assert wk.st == ExecAll(cfg.parse, FRESH, wk.log[..wk.head]);
    hide Reachable;
    NoneLost(cfg, s, w);
    WorkerConserves(cfg.parse, wk.log[..wk.head]);
    assert QueuedAt(wk) == multiset{} by { assert wk.log[wk.head..] == []; }
    if c in WaitingAt(wk) {
      assert c.eventId in wk.st.calls && wk.st.calls[c.eventId] == c;
      NoLostDeadline(cfg, s, w, c.eventId);
    }
  }

  // ---- Never early ----------------------------------------------------------

  ghost predicate StartedIn(s: State, c: Ctrl) {
    exists w, k :: 0 <= w < |s.workers| && 0 <= k < |s.workers[w].log| && s.workers[w].log[k] == StartRpc(c)
  }

  /** The broker has the call in hand, or has pushed its start. */
  ghost predicate Taken(s: State, c: Ctrl) {
    (!s.pc.Idle? && s.pc.ctrl == c) || StartedIn(s, c)
  }

  /** Calls with a deadline armed were issued, asked for one, and have been taken by the broker. */
  ghost predicate ArmedAreTaken(s: State) {
    forall c :: c in s.armed ==> c.timeoutMs != NO_TIMEOUT && c in s.issued && Taken(s, c)
  }

  lemma TakenStays(cfg: Config, s: State, step: Step, c: Ctrl)
    requires Shape(cfg, s) && Taken(s, c)
    ensures Taken(Next(cfg, s, step), c)
  {
    var s' := Next(cfg, s, step);
    LogsGrow(cfg, s, step);
    if StartedIn(s, c) {
      hide Next;
      var w, k :| 0 <= w < |s.workers| && 0 <= k < |s.workers[w].log| && s.workers[w].log[k] == StartRpc(c);
      assert s'.workers[w].log[k] == StartRpc(c);
    } else if step.PushStart? && Enabled(cfg, s, step) {
      var w := WorkerOf(cfg, c.conn);
      hide Next;
      assert s'.workers[w].log[|s.workers[w].log|] == StartRpc(c);
    } else {
      hide ExecAll, Exec;
    }
  }

  lemma StartedIsCounted(s: State, c: Ctrl)
    requires StartedIn(s, c)
    ensures Sum(s.workers, LogOf)[c] >= 1
  {
    hide Sum;
    var w, k :| 0 <= w < |s.workers| && 0 <= k < |s.workers[w].log| && s.workers[w].log[k] == StartRpc(c);
    SumHas(s.workers[w].log, k, CmdBag);
    SumHas(s.workers, w, LogOf);
    assert CmdBag(s.workers[w].log[k])[c] == 1;
    assert LogOf(s.workers[w])[c] >= 1;
  }

  /** A call still on the frontend was issued and has not been started. */
  lemma FrontIsFresh(s: State, i: nat)
    requires Conserved(s) && i < |s.frontend| && s.frontend[i].Request?
    ensures s.frontend[i].ctrl in s.issued && !StartedIn(s, s.frontend[i].ctrl)
  {
    var c := s.frontend[i].ctrl;
    SumHas(s.frontend, i, FrontBag);
    assert c in Handed(s);
    Distinct(s.issued, c);
    assert Sum(s.workers, LogOf)[c] == 0;
    hide *;
    assert !StartedIn(s, c) by {
      if StartedIn(s, c) {
        StartedIsCounted(s, c);
      }
    }
  }

  /** Every timer, and every timeout sent, belongs to an armed call with that event id. */
  ghost predicate TimeoutsArmed(s: State) {
    && (forall i :: 0 <= i < |s.timers| ==> ArmedFor(s, s.timers[i].eventId))
    && (forall w, k :: 0 <= w < |s.workers| && 0 <= k < |s.workers[w].log| && s.workers[w].log[k].HandleTimeout? ==>
          ArmedFor(s, s.workers[w].log[k].eventId))
  }

  ghost predicate ArmedFor(s: State, eventId: nat) {
    exists c :: c in s.armed && c.eventId == eventId
  }

  /** Timers are due when their call is, and a timeout was sent only then or later. */
  ghost predicate OnTime(s: State) {
    && (forall i, c :: 0 <= i < |s.timers| && c in s.armed && c.eventId == s.timers[i].eventId ==>
      IsDue(s, c, s.timers[i].due))
    && (forall w, k, c |
          0 <= w < |s.workers| && 0 <= k < |s.workers[w].log| && s.workers[w].log[k].HandleTimeout? &&
          c in s.armed && c.eventId == s.workers[w].log[k].eventId
        :: Overdue(s, c))
    && (forall c :: c in s.armed ==> s.armed[c] <= s.now)
  }

  /** The time at which the call is due has come. */
  predicate Overdue(s: State, c: Ctrl) {
    exists due: nat :: due <= s.now && IsDue(s, c, due)
  }

  /** The step takes a call off the frontend and arms its deadline. */
  predicate Arms(s: State, step: Step) {
    BrokerFree(s) && step.Take? && step.i < |s.frontend| && s.frontend[step.i].Request? &&
    s.frontend[step.i].ctrl.timeoutMs != NO_TIMEOUT
  }

  /** Only such a step adds a timer or records a time. */
  lemma ArmedAfter(cfg: Config, s: State, step: Step)
    requires Shape(cfg, s)
    ensures var s' := Next(cfg, s, step);
      if Arms(s, step) then
        var c := s.frontend[step.i].ctrl;
        && s'.armed == s.armed[c := s.now]
        && |s'.timers| == |s.timers| + 1 && s'.timers[..|s.timers|] == s.timers
        && var t := s'.timers[|s.timers|];
        && t.eventId == c.eventId && t.worker == WorkerOf(cfg, c.conn) && IsDue(s', c, t.due)
        && s'.now == s.now && s'.workers == s.workers && s'.pc.Armed? && s'.pc.ctrl == c
      else s'.armed == s.armed && s.now <= s'.now && forall t :: t in s'.timers ==> t in s.timers
  {
    hide ExecAll, Exec;
  }

  lemma StepArmedAreTaken(cfg: Config, s: State, step: Step)
    requires Shape(cfg, s) && Conserved(s) && ArmedAreTaken(s)
    ensures ArmedAreTaken(Next(cfg, s, step))
  {
    var s' := Next(cfg, s, step);
    hide Next, Shape, Conserved;
    ArmedAfter(cfg, s, step);
    IssuedGrows(cfg, s, step);
    if Arms(s, step) {
      FrontIsFresh(s, step.i);
    }
    forall c | c in s'.armed ensures c.timeoutMs != NO_TIMEOUT && c in s'.issued && Taken(s', c) {
      if c in s.armed {
        hide Taken;
        TakenStays(cfg, s, step, c);
      }
    }
  }

  lemma IssuedGrows(cfg: Config, s: State, step: Step)
    requires Shape(cfg, s)
    ensures s.issued <= Next(cfg, s, step).issued && s.nextEventId <= Next(cfg, s, step).nextEventId
  {
    hide ExecAll, Exec;
  }

  lemma StepTimeoutsArmed(cfg: Config, s: State, step: Step)
    requires Shape(cfg, s) && TimeoutsArmed(s)
    ensures TimeoutsArmed(Next(cfg, s, step))
  {
    var s' := Next(cfg, s, step);
    ArmedAfter(cfg, s, step);
    LogsGrow(cfg, s, step);
    forall e | ArmedFor(s, e) ensures ArmedFor(s', e) {
      hide Next;
      var c :| c in s.armed && c.eventId == e;
      assert c in s'.armed;
    }
    forall i | 0 <= i < |s'.timers| ensures ArmedFor(s', s'.timers[i].eventId) {
      hide Next;
      if !Arms(s, step) {
        assert s'.timers[i] in s.timers;
      }
    }
    forall w, k | 0 <= w < |s'.workers| && 0 <= k < |s'.workers[w].log| && s'.workers[w].log[k].HandleTimeout?
      ensures ArmedFor(s', s'.workers[w].log[k].eventId)
    {
      hide Next, ExecAll;
      if k == |s.workers[w].log| {
        assert step.Fire? && ArmedFor(s, s.timers[step.timer].eventId);
      }
    }
  }

  /** An armed call with the same event id as an armed call is that call. */
  lemma ArmedOnce(cfg: Config, s: State, c: Ctrl, e: nat)
    requires Reachable(cfg, s) && UniqueIds(cfg, s) && ArmedAreTaken(s)
    requires c in s.issued && c.eventId == e && ArmedFor(s, e)
    ensures c in s.armed
  {
    hide Reachable;
    var d :| d in s.armed && d.eventId == e;
    SameIdSameCall(cfg, s, c, d);
  }

  /** Arming a call whose event id no timer or timeout has yet. */
  lemma ArmsOnTime(s: State, s': State, c: Ctrl, t: Timer)
    requires OnTime(s) && TimeoutsArmed(s) && c !in s.armed && !ArmedFor(s, c.eventId) && t.eventId == c.eventId
    requires s'.timers == s.timers + [t] && s'.armed == s.armed[c := s.now] && s'.now == s.now
      && s'.workers == s.workers && IsDue(s', c, t.due)
    ensures OnTime(s')
  {
    forall d, due: nat | d in s.armed ensures IsDue(s', d, due) <==> IsDue(s, d, due) {
    }
    forall i, d | 0 <= i < |s'.timers| && d in s'.armed && d.eventId == s'.timers[i].eventId
      ensures IsDue(s', d, s'.timers[i].due)
    {
      if i == |s.timers| {
        assert d in s.armed ==> ArmedFor(s, d.eventId);
      } else {
        assert ArmedFor(s, s.timers[i].eventId);
      }
    }
    forall w, k, d | 0 <= w < |s'.workers| && 0 <= k < |s'.workers[w].log| && s'.workers[w].log[k].HandleTimeout? &&
        d in s'.armed && d.eventId == s'.workers[w].log[k].eventId
      ensures Overdue(s', d)
    {
      assert ArmedFor(s, s.workers[w].log[k].eventId);
      assert Overdue(s, d);
      var due: nat :| due <= s.now && IsDue(s, d, due);
      assert IsDue(s', d, due);
    }
  }

  lemma StepOnTime(cfg: Config, s: State, step: Step)
    requires Reachable(cfg, s) && UniqueIds(cfg, s)
    requires Conserved(s) && ArmedAreTaken(s) && TimeoutsArmed(s) && OnTime(s)
    ensures OnTime(Next(cfg, s, step))
  {
    var s' := Next(cfg, s, step);
    hide Reachable, Next, OnTime, TimeoutsArmed, Conserved, UniqueIds;
    ArmedAfter(cfg, s, step);
    if Arms(s, step) {
      // a call fresh off the frontend: no timer or timeout has its event id yet
      var c := s'.pc.ctrl;
      FrontIsFresh(s, step.i);
      assert c !in s.armed;
      assert !ArmedFor(s, c.eventId) by {
        if ArmedFor(s, c.eventId) {
          ArmedOnce(cfg, s, c, c.eventId);
        }
      }
      ArmsOnTime(s, s', c, s'.timers[|s.timers|]);
    } else {
      SameArmedOnTime(cfg, s, step);
    }
  }

  /** What is due, and overdue, stays so. */
  lemma DueStays(s: State, s': State, c: Ctrl)
    requires s'.armed == s.armed && s.now <= s'.now
    ensures forall due: nat :: IsDue(s', c, due) <==> IsDue(s, c, due)
    ensures Overdue(s, c) ==> Overdue(s', c)
  {
    forall due: nat ensures IsDue(s', c, due) <==> IsDue(s, c, due) {
    }
    if Overdue(s, c) {
      var due: nat :| due <= s.now && IsDue(s, c, due);
      assert due <= s'.now && IsDue(s', c, due);
    }
  }

  lemma SameArmedOnTime(cfg: Config, s: State, step: Step)
    requires Shape(cfg, s) && OnTime(s) && !Arms(s, step)
    ensures OnTime(Next(cfg, s, step))
  {
    var s' := Next(cfg, s, step);
    ArmedAfter(cfg, s, step);
    hide Next, IsDue, Overdue, Shape;
    forall i, c | 0 <= i < |s'.timers| && c in s'.armed && c.eventId == s'.timers[i].eventId
      ensures IsDue(s', c, s'.timers[i].due)
    {
      DueStays(s, s', c);
      assert s'.timers[i] in s.timers;
    }
    forall w, k, c | 0 <= w < |s'.workers| && 0 <= k < |s'.workers[w].log| && s'.workers[w].log[k].HandleTimeout? &&
        c in s'.armed && c.eventId == s'.workers[w].log[k].eventId
      ensures Overdue(s', c)
    {
      TimeoutIsDue(cfg, s, step, w, k, c);
      DueStays(s, s', c);
    }
  }

  lemma TimeoutIsDue(cfg: Config, s: State, step: Step, w: nat, k: nat, c: Ctrl)
    requires Shape(cfg, s) && OnTime(s) && !Arms(s, step) && c in s.armed
    requires var s' := Next(cfg, s, step);
      w < |s'.workers| && k < |s'.workers[w].log| && s'.workers[w].log[k] == HandleTimeout(c.eventId)
    ensures Overdue(s, c)
  {
    var log, log' := s.workers[w].log, Next(cfg, s, step).workers[w].log;
    LogsGrow(cfg, s, step);
    hide Next, ExecAll, IsDue;
    if k < |log| {
      assert log'[k] == log[k];
    } else {
      var t := s.timers[step.timer];
      assert step.Fire? && t.due <= s.now && IsDue(s, c, t.due);
    }
  }

  lemma {:induction false} AlwaysOnTime(cfg: Config, steps: seq<Step>)
    requires cfg.workers > 0 && UniqueIds(cfg, After(cfg, steps))
    ensures var s := After(cfg, steps);
      ArmedAreTaken(s) && TimeoutsArmed(s) && OnTime(s)
    decreases |steps|
  {
    if steps != [] {
      var before, step := steps[..|steps| - 1], steps[|steps| - 1];
      var s := After(cfg, before);
      IssuedGrows(cfg, s, step);
      AlwaysOnTime(cfg, before);
      AlwaysConserved(cfg, before);
      StepArmedAreTaken(cfg, s, step);
      StepTimeoutsArmed(cfg, s, step);
      AfterIsReachable(cfg, before);
      StepOnTime(cfg, s, step);
    }
  }

  /** What is recorded is the time at which the broker took the call off the frontend. */
  lemma {:induction false} ArmedWhenTaken(cfg: Config, steps: seq<Step>, c: Ctrl) returns (k: nat)
    requires cfg.workers > 0 && c in After(cfg, steps).armed
    ensures k < |steps|
    ensures var s, step := After(cfg, steps[..k]), steps[k];
      && Arms(s, step) && s.frontend[step.i].ctrl == c && s.now == After(cfg, steps).armed[c]
    decreases |steps|
  {
    var n := |steps| - 1;
    var s, step := After(cfg, steps[..n]), steps[n];
    ArmedAfter(cfg, s, step);
    if Arms(s, step) && s.frontend[step.i].ctrl == c {
      k := n;
    } else {
      hide Next, Arms;
      k := ArmedWhenTaken(cfg, steps[..n], c);
      assert steps[..n][..k] == steps[..k];
    }
  }

  /**
   * Never early: a call reported as timed out had asked for a timeout, and that
   * much time has passed since the broker took it.
   */
  lemma NeverEarly(cfg: Config, s: State, w: nat, i: nat)
    requires Reachable(cfg, s) && UniqueIds(cfg, s) && w < |s.workers|
    requires i < |s.workers[w].st.done| && s.workers[w].st.done[i].outcome.TimedOut?
    ensures var c := s.workers[w].st.done[i].ctrl;
      && c.timeoutMs != NO_TIMEOUT && c in s.armed && s.armed[c] <= s.now
      && (s.armed[c] + c.timeoutMs) % TWO_TO_THE_64 <= s.now
      && (0 <= c.timeoutMs && s.armed[c] + c.timeoutMs < TWO_TO_THE_64 ==> s.armed[c] + c.timeoutMs <= s.now)
  {
    var c := s.workers[w].st.done[i].ctrl;
    TimedOutIsOverdue(cfg, s, w, i);
    hide Reachable, UniqueIds;
    var due: nat :| due <= s.now && IsDue(s, c, due);
  }

  lemma TimedOutIsOverdue(cfg: Config, s: State, w: nat, i: nat)
    requires Reachable(cfg, s) && UniqueIds(cfg, s) && w < |s.workers|
    requires i < |s.workers[w].st.done| && s.workers[w].st.done[i].outcome.TimedOut?
    ensures var c := s.workers[w].st.done[i].ctrl;
      c in s.armed && c.timeoutMs != NO_TIMEOUT && s.armed[c] <= s.now && Overdue(s, c)
  {
    var wk := s.workers[w];
    var c := wk.st.done[i].ctrl;
    var steps := StepsTo(cfg, s);
    AlwaysOnTime(cfg, steps);
    assert wk.st == ExecAll(cfg.parse, FRESH, wk.log[..wk.head]);
    hide After, Reachable, Overdue, IsDue;
    var k := TimedOutByCommand(cfg.parse, wk.log[..wk.head], i);
    assert wk.log[k] == HandleTimeout(c.eventId);
    hide Shape, ExecAll;
    DoneIsIssued(cfg, s, w, i);
    assert ArmedFor(s, c.eventId);
    ArmedOnce(cfg, s, c, c.eventId);
  }
}
