/** Responses: they come from the connection that was asked, after it was asked, and only then in time. */
module EngineAnswers {
  import opened Wrappers
  import opened Rpc
  import opened Worker
  import opened WorkerLaws
  import opened Engine
  import opened EngineConservation
  import opened EngineOrder

  // ---- Answers and the connections they come from ---------------------------

  /** Every response in a queue is to something its connection was asked. */
  ghost predicate AnswersAsked(cfg: Config, s: State) {
    forall w, k :: 0 <= w < |s.workers| && 0 <= k < |s.workers[w].log| && s.workers[w].log[k].HandleData? ==>
      var cmd := s.workers[w].log[k];
      var e := Finishes(cfg.parse, cmd);
      e.Some? ==> Asked(cfg, s.wire, cmd.info, e.value)
  }

  /** The call behind a question on the wire: it was issued, with this id, on this connection. */
  ghost predicate AskedFor(s: State, info: ConnInfo, eventId: nat) {
    exists c :: c in s.issued && c.eventId == eventId && c.conn == info
  }

  ghost predicate WireIssued(cfg: Config, s: State) {
    forall k :: 0 <= k < |s.wire| && AsksAbout(cfg, s.wire[k].frames).Some? ==>
      AskedFor(s, s.wire[k].info, AsksAbout(cfg, s.wire[k].frames).value)
  }

  /** The wire only grows, and by what the broker forwards. */
  lemma WireGrows(cfg: Config, s: State, step: Step)
    requires Shape(cfg, s)
    ensures s.wire <= Next(cfg, s, step).wire
    ensures s.issued <= Next(cfg, s, step).issued
  {
    hide ExecAll, Exec;
  }

  lemma AskedStays(cfg: Config, wire: seq<Outgoing>, wire': seq<Outgoing>, info: ConnInfo, e: nat)
    requires Asked(cfg, wire, info, e) && wire <= wire'
    ensures Asked(cfg, wire', info, e)
  {
    hide AsksAbout;
    var k :| 0 <= k < |wire| && wire[k].info == info && AsksAbout(cfg, wire[k].frames) == Some(e);
    assert wire'[k] == wire[k];
  }

  lemma PushedIsAsked(cfg: Config, s: State, step: Step)
    requires Shape(cfg, s) && cfg.honestPeers
    requires Pushes(cfg, s, step).Some? && Pushes(cfg, s, step).value.1.HandleData?
    ensures var cmd := Pushes(cfg, s, step).value.1;
      Finishes(cfg.parse, cmd).Some? ==> Asked(cfg, s.wire, cmd.info, Finishes(cfg.parse, cmd).value)
  {
    hide Shape, Finishes, AsksAbout;
  }

  lemma StepAnswersAsked(cfg: Config, s: State, step: Step)
    requires Shape(cfg, s) && cfg.honestPeers && AnswersAsked(cfg, s)
    ensures AnswersAsked(cfg, Next(cfg, s, step))
  {
    var s' := Next(cfg, s, step);
    LogsGrow(cfg, s, step);
    WireGrows(cfg, s, step);
    hide Next, Shape, Pushes, Finishes, Asked;
    forall w, k | 0 <= w < |s'.workers| && 0 <= k < |s'.workers[w].log| && s'.workers[w].log[k].HandleData?
      ensures var cmd := s'.workers[w].log[k];
        var e := Finishes(cfg.parse, cmd);
        e.Some? ==> Asked(cfg, s'.wire, cmd.info, e.value)
    {
      var cmd := s'.workers[w].log[k];
      var e := Finishes(cfg.parse, cmd);
      if k == |s.workers[w].log| {
        PushedIsAsked(cfg, s, step);
      } else {
        assert cmd == s.workers[w].log[k];
      }
      if e.Some? {
        AskedStays(cfg, s.wire, s'.wire, cmd.info, e.value);
      }
    }
  }

  /** The call the broker has in hand was issued. */
  lemma InHandIsIssued(s: State)
    requires Conserved(s) && !s.pc.Idle?
    ensures s.pc.ctrl in s.issued
  {
    assert s.pc.ctrl in PcBag(s.pc);
    assert s.pc.ctrl in Handed(s);
    assert s.pc.ctrl in multiset(s.issued);
  }

  /** What a step puts on the wire. */
  lemma ForwardedIsIssued(cfg: Config, s: State, step: Step, k: nat)
    requires Shape(cfg, s) && HeadersMatch(cfg, s) && k < |Next(cfg, s, step).wire|
    ensures var s' := Next(cfg, s, step); var m := s'.wire[k];
      || (k < |s.wire| && m == s.wire[k])
      || AsksAbout(cfg, m.frames) == None
      || (!s.pc.Idle? && m.info == s.pc.ctrl.conn && AsksAbout(cfg, m.frames) == Some(s.pc.ctrl.eventId))
  {
    hide ExecAll, Exec, AsksAbout;
  }

  lemma StepWireIssued(cfg: Config, s: State, step: Step)
    requires Shape(cfg, s) && HeadersMatch(cfg, s) && Conserved(s) && WireIssued(cfg, s)
    ensures WireIssued(cfg, Next(cfg, s, step))
  {
    var s' := Next(cfg, s, step);
    WireGrows(cfg, s, step);
    forall k | 0 <= k < |s'.wire| && AsksAbout(cfg, s'.wire[k].frames).Some?
      ensures AskedFor(s', s'.wire[k].info, AsksAbout(cfg, s'.wire[k].frames).value)
    {
      ForwardedIsIssued(cfg, s, step, k);
      hide Next, Shape, AsksAbout, HeadersMatch;
      var m, e := s'.wire[k], AsksAbout(cfg, s'.wire[k].frames).value;
      if k < |s.wire| && m == s.wire[k] {
        var c :| c in s.issued && c.eventId == e && c.conn == m.info;
        assert c in s'.issued;
      } else {
        InHandIsIssued(s);
        assert s.pc.ctrl in s'.issued;
      }
    }
  }

  lemma {:induction false} AlwaysAsked(cfg: Config, steps: seq<Step>)
    requires cfg.workers > 0 && cfg.honestPeers && !cfg.rawRequests
    ensures AnswersAsked(cfg, After(cfg, steps)) && WireIssued(cfg, After(cfg, steps))
    decreases |steps|
  {
    if steps != [] {
      var before, step := steps[..|steps| - 1], steps[|steps| - 1];
      AlwaysAsked(cfg, before);
      AlwaysFinishesFollow(cfg, before);
      AlwaysConserved(cfg, before);
      hide Next, Shape, AnswersAsked, WireIssued, HeadersMatch, Conserved;
      StepAnswersAsked(cfg, After(cfg, before), step);
      StepWireIssued(cfg, After(cfg, before), step);
    }
  }

  /** In no state is there a response in a queue to something its connection has not been asked. */
  lemma NoAnswerBeforeItsQuestion(cfg: Config, s: State, w: nat, k: nat, e: nat)
    requires Reachable(cfg, s) && cfg.honestPeers && !cfg.rawRequests
    requires w < |s.workers| && k < |s.workers[w].log| && s.workers[w].log[k].HandleData?
    requires Finishes(cfg.parse, s.workers[w].log[k]) == Some(e)
    ensures Asked(cfg, s.wire, s.workers[w].log[k].info, e)
  {
    var steps := StepsTo(cfg, s);
    AlwaysAsked(cfg, steps);
    hide After, Reachable, Finishes, Asked;
  }

  /**
   * A call that is completed, and not by timeout, is completed with the
   * response, payload and all, that came on the connection the call was made
   * on; and on that connection its question had gone out.
   */
  lemma AnsweredOnOwnConnection(cfg: Config, s: State, w: nat, i: nat) returns (k: nat)
    requires Reachable(cfg, s) && cfg.honestPeers && UniqueIds(cfg, s)
    requires w < |s.workers| && i < |s.workers[w].st.done| && !s.workers[w].st.done[i].outcome.TimedOut?
    ensures var wk, c := s.workers[w], s.workers[w].st.done[i].ctrl;
      && k < wk.head <= |wk.log| && Answers(cfg.parse, wk.log[k], wk.st.done[i])
      && (match cfg.parse(wk.log[k].header).resp.value.errorCode
          case None => wk.st.done[i].outcome == Responded(wk.log[k].payload)
          case Some(error) => wk.st.done[i].outcome == Failed(error))
      && wk.log[k].info == c.conn && Asked(cfg, s.wire, c.conn, c.eventId)
  {
    var wk := s.workers[w];
    var c := wk.st.done[i].ctrl;
    assert wk.head <= |wk.log| && wk.st == ExecAll(cfg.parse, FRESH, wk.log[..wk.head]);
    k := AnsweredByData(cfg.parse, wk.log[..wk.head], i);
    assert wk.log[k] == wk.log[..wk.head][k] && Finishes(cfg.parse, wk.log[k]) == Some(c.eventId);
    var info := wk.log[k].info;
    var steps := StepsTo(cfg, s);
    AlwaysAsked(cfg, steps);
    hide After, Reachable, ExecAll, Finishes, AsksAbout, Answers;
    var m :| 0 <= m < |s.wire| && s.wire[m].info == info && AsksAbout(cfg, s.wire[m].frames) == Some(c.eventId);
    assert AskedFor(s, info, c.eventId);
    DoneIsIssued(cfg, s, w, i);
    var d :| d in s.issued && d.eventId == c.eventId && d.conn == info;
    SameIdSameCall(cfg, s, c, d);
  }

  // ---- When answers come in time --------------------------------------------

  /** Every call that is started has been asked about, and so has the one just forwarded. */
  ghost predicate StartsAsked(cfg: Config, s: State)
    requires cfg.workers > 0
  {
    && (forall w, k :: 0 <= w < |s.workers| && 0 <= k < |s.workers[w].log| && s.workers[w].log[k].StartRpc? ==>
          AskedAt(cfg, s.wire, w, s.workers[w].log[k].ctrl.eventId))
    && (s.pc.Forwarded? ==> AskedAt(cfg, s.wire, WorkerOf(cfg, s.pc.ctrl.conn), s.pc.ctrl.eventId))
  }

  lemma AskedAtStays(cfg: Config, wire: seq<Outgoing>, wire': seq<Outgoing>, w: nat, e: nat)
    requires cfg.workers > 0 && AskedAt(cfg, wire, w, e) && wire <= wire'
    ensures AskedAt(cfg, wire', w, e)
  {
    hide AsksAbout, WorkerOf;
    var k :| 0 <= k < |wire| && WorkerOf(cfg, wire[k].info) == w && AsksAbout(cfg, wire[k].frames) == Some(e);
    assert wire'[k] == wire[k];
  }

  /** A call is forwarded with its question, and only then started. */
  lemma ForwardedIsAsked(cfg: Config, s: State, step: Step)
    requires Shape(cfg, s) && HeadersMatch(cfg, s)
    ensures var s' := Next(cfg, s, step);
      s'.pc.Forwarded? ==> s'.pc == s.pc || AskedAt(cfg, s'.wire, WorkerOf(cfg, s'.pc.ctrl.conn), s'.pc.ctrl.eventId)
    ensures var p := Pushes(cfg, s, step);
      p.Some? && p.value.1.StartRpc? ==>
        s.pc.Forwarded? && p.value == (WorkerOf(cfg, s.pc.ctrl.conn), StartRpc(s.pc.ctrl))
  {
    hide ExecAll, Exec, AsksAbout, WorkerOf;
    if step.Forward? && Enabled(cfg, s, step) {
      var wire' := Next(cfg, s, step).wire;
      assert wire'[|s.wire|] == Outgoing(s.pc.ctrl.conn, s.pc.frames);
    }
  }

  lemma StepStartsAsked(cfg: Config, s: State, step: Step)
    requires Shape(cfg, s) && HeadersMatch(cfg, s) && StartsAsked(cfg, s)
    ensures StartsAsked(cfg, Next(cfg, s, step))
  {
    var s' := Next(cfg, s, step);
    LogsGrow(cfg, s, step);
    WireGrows(cfg, s, step);
    ForwardedIsAsked(cfg, s, step);
    hide Next, Shape, Pushes, AskedAt, HeadersMatch, WorkerOf;
    forall w, k | 0 <= w < |s'.workers| && 0 <= k < |s'.workers[w].log| && s'.workers[w].log[k].StartRpc?
      ensures AskedAt(cfg, s'.wire, w, s'.workers[w].log[k].ctrl.eventId)
    {
      var e := s'.workers[w].log[k].ctrl.eventId;
      assert AskedAt(cfg, s.wire, w, e) by {
        if k < |s.workers[w].log| {
          assert s'.workers[w].log[k] == s.workers[w].log[k];
        }
      }
      AskedAtStays(cfg, s.wire, s'.wire, w, e);
    }
    if s'.pc.Forwarded? && s'.pc == s.pc {
      AskedAtStays(cfg, s.wire, s'.wire, WorkerOf(cfg, s.pc.ctrl.conn), s.pc.ctrl.eventId);
    }
  }

  /** An answer that comes too early makes the order wrong. */
  lemma TooEarlyOvertakes(cfg: Config, s: State, step: Step)
    requires Shape(cfg, s) && StartsAsked(cfg, s) && !InTime(cfg, s, step)
    ensures !FinishesFollow(cfg, Next(cfg, s, step))
  {
    var s' := Next(cfg, s, step);
    LogsGrow(cfg, s, step);
    var w, cmd := WorkerOf(cfg, step.from), HandleData(step.from, step.header, step.payload);
    var log, e := s.workers[w].log, Finishes(cfg.parse, cmd).value;
    assert Pushes(cfg, s, step) == Some((w, cmd)) && !AskedAt(cfg, s.wire, w, e);
    hide Next, Shape, Pushes, AskedAt, Finishes, WorkerOf;
    assert s'.workers[w].log == log + [cmd] && s'.workers[w].log[|log|] == cmd;
    forall j | 0 <= j < |log| ensures !Starts(s'.workers[w].log[j], e) {
      assert s'.workers[w].log[j] == log[j];
    }
    assert !StartedBefore(s'.workers[w].log, |log|, e);
  }

  /** What is in the wrong order stays so. */
  lemma WrongOrderStays(cfg: Config, s: State, step: Step)
    requires Shape(cfg, s) && FinishesFollow(cfg, Next(cfg, s, step))
    ensures FinishesFollow(cfg, s)
  {
    var s' := Next(cfg, s, step);
    LogsGrow(cfg, s, step);
    hide Next, Shape, Pushes, Finishes;
    forall w, k | 0 <= w < |s.workers| && 0 <= k < |s.workers[w].log| && Finishes(cfg.parse, s.workers[w].log[k]).Some?
      ensures StartedBefore(s.workers[w].log, k, Finishes(cfg.parse, s.workers[w].log[k]).value)
    {
      var log, log' := s.workers[w].log, s'.workers[w].log;
      assert log'[k] == log[k];
      var j :| 0 <= j < k && j < |log'| && Starts(log'[j], Finishes(cfg.parse, log[k]).value);
      assert log'[j] == log[j];
    }
  }

  /** Every answer of the run came in time. */
  ghost predicate AllInTime(cfg: Config, steps: seq<Step>, states: seq<State>, n: nat)
    requires IsRun(cfg, steps, states) && n <= |steps|
  {
    forall k :: 0 <= k < n ==> InTime(cfg, states[k], steps[k])
  }

  /** What the run has kept so far. */
  ghost predicate Orderly(cfg: Config, s: State)
    requires cfg.workers > 0
  {
    TimersFollow(cfg, s) && HeadersMatch(cfg, s) && AsksFollow(cfg, s) && StartsAsked(cfg, s)
  }

  lemma StepOrderly(cfg: Config, s: State, step: Step)
    requires Shape(cfg, s) && !cfg.rawRequests && Orderly(cfg, s)
    ensures Orderly(cfg, Next(cfg, s, step))
  {
    hide Next, Shape, TimersFollow, HeadersMatch, AsksFollow, StartsAsked;
    StepTimersFollow(cfg, s, step);
    StepHeadersMatch(cfg, s, step);
    StepAsksFollow(cfg, s, step);
    StepStartsAsked(cfg, s, step);
  }

  lemma StepOrderedIff(cfg: Config, s: State, step: Step)
    requires Shape(cfg, s) && Orderly(cfg, s)
    ensures FinishesFollow(cfg, Next(cfg, s, step)) <==> FinishesFollow(cfg, s) && InTime(cfg, s, step)
  {
    hide Next, Shape, InTime, FinishesFollow, HeadersMatch;
    if FinishesFollow(cfg, Next(cfg, s, step)) {
      WrongOrderStays(cfg, s, step);
    }
    if !InTime(cfg, s, step) {
      TooEarlyOvertakes(cfg, s, step);
    } else if FinishesFollow(cfg, s) {
      StepFinishesFollow(cfg, s, step);
    }
  }

  lemma OneMoreInTime(cfg: Config, steps: seq<Step>, states: seq<State>, n: nat)
    requires IsRun(cfg, steps, states) && 0 < n <= |steps|
    ensures Shape(cfg, states[n - 1]) && states[n] == Next(cfg, states[n - 1], steps[n - 1])
    ensures AllInTime(cfg, steps, states, n) <==>
      AllInTime(cfg, steps, states, n - 1) && InTime(cfg, states[n - 1], steps[n - 1])
  {
    assert states[n - 1 + 1] == Next(cfg, states[n - 1], steps[n - 1]);
    hide Next, InTime;
  }

  lemma StartOrderly(cfg: Config)
    requires Shape(cfg, Init(cfg))
    ensures Orderly(cfg, Init(cfg)) && FinishesFollow(cfg, Init(cfg))
  {
  }

  /**
   * Exactly when start precedes finish: with any peers, honest or not, no
   * response is ahead of its call's start in any queue if and only if every
   * response was received only after its event had been asked about on a
   * connection of the same worker.
   */
  lemma {:induction false} OrderedIffInTime(cfg: Config, steps: seq<Step>, states: seq<State>, n: nat)
    requires IsRun(cfg, steps, states) && states[0] == Init(cfg) && cfg.workers > 0 && !cfg.rawRequests && n <= |steps|
    ensures Orderly(cfg, states[n])
    ensures FinishesFollow(cfg, states[n]) <==> AllInTime(cfg, steps, states, n)
    decreases n
  {
    if n == 0 {
      assert Shape(cfg, states[0]);
      StartOrderly(cfg);
    } else {
      OneMoreInTime(cfg, steps, states, n);
      OrderedIffInTime(cfg, steps, states, n - 1);
      hide IsRun, Next, Shape, InTime, FinishesFollow, AllInTime, Orderly;
      StepOrderly(cfg, states[n - 1], steps[n - 1]);
      StepOrderedIff(cfg, states[n - 1], steps[n - 1]);
    }
  }
}
