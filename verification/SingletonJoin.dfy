/**
 * The destructor of a manager joins the threads that the manager started, and
 * such a thread can itself be in need of a manager. When the destructor comes
 * to its end, and when it never does.
 */
module SingletonJoin {
  import opened Wrappers
  import opened Singleton

  // ---- More that every run keeps --------------------------------------------

  /** A thread about to return a pointer has one. */
  ghost predicate LeavesWithOne(pcs: Pcs, held: multiset<(nat, nat)>) {
    forall t: nat :: PcOf(pcs, t).Leaving? ==> exists o: nat :: (t, o) in held
  }

  predicate SignsOff(pc: Pc) {
    pc.Cleared? || pc.Notified?
  }

  /** Until it leaves `finish_destruction`, a thread that cleared `mgr_exists` finds it clear. */
  ghost predicate StaysClear(pcs: Pcs, mgrExists: bool) {
    forall t: nat :: SignsOff(PcOf(pcs, t)) ==> !mgrExists
  }

  ghost predicate Kept(s: State) {
    && Inv(s)
    && |s.crews| == |s.objs|
    && LeavesWithOne(s.pcs, s.held)
    && StaysClear(s.pcs, s.mgrExists)
  }

  lemma AdvanceCrews(s: State, t: nat, pick: Choice)
    requires CanAdvance(s, t)
    ensures var s', team := AdvanceFrom(s, t, pick), Started(s, t, pick.team);
      && |s'.objs| == |s.objs| + (if PcOf(s.pcs, t).Reserved? then 1 else 0)
      && s'.crews == s.crews + if PcOf(s.pcs, t).Reserved? then [team] else []
  {
    hide Put, PcOf, Lockable, NobodyWaits, Started, AllEnded;
  }

  lemma CallCrews(s: State, move: Move)
    requires !move.Advance?
    ensures var s' := Next(s, move); s'.crews == s.crews && |s'.objs| == |s.objs|
  {
    hide Put, PcOf, Lockable, Referenced, CanEnd;
  }

  lemma AdvanceIsNext(s: State, t: nat, pick: Choice)
    ensures Next(s, Advance(t, pick)) == if CanAdvance(s, t) then AdvanceFrom(s, t, pick) else s
  {
  }

  /** A new object comes with a new crew; the others stay as they are. */
  lemma CrewsGrow(s: State, move: Move)
    requires |s.crews| == |s.objs|
    ensures var s' := Next(s, move);
      && |s'.crews| == |s'.objs| && |s.crews| <= |s'.crews|
      && (forall o :: 0 <= o < |s.crews| ==> s'.crews[o] == s.crews[o])
      && (|s'.crews| == |s.crews| || (move.Advance? && PcOf(s.pcs, move.t).Reserved?))
  {
    hide Next, PcOf, CanAdvance, AdvanceFrom, Started;
    if move.Advance? {
      AdvanceIsNext(s, move.t, move.pick);
      if CanAdvance(s, move.t) {
        AdvanceCrews(s, move.t, move.pick);
      }
    } else {
      CallCrews(s, move);
    }
  }

  lemma AdvanceKeepsPointers(s: State, t: nat, pick: Choice, u: nat, o: nat)
    requires CanAdvance(s, t) && (u, o) in s.held
    ensures (u, o) in AdvanceFrom(s, t, pick).held
  {
    hide Put, PcOf, Lockable, NobodyWaits, Started, AllEnded;
  }

  /** A thread inside the helper keeps its pointers. */
  lemma PointerStays(s: State, move: Move, u: nat, o: nat)
    requires Inside(PcOf(s.pcs, u)) && (u, o) in s.held
    ensures (u, o) in Next(s, move).held
  {
    if move.Advance? {
      AdvanceIsNext(s, move.t, move.pick);
      hide Next, PcOf, CanAdvance, AdvanceFrom;
      if CanAdvance(s, move.t) {
        AdvanceKeepsPointers(s, move.t, move.pick, u, o);
      }
    } else {
      hide Put, PcOf, Lockable, Referenced, CanEnd;
    }
  }

  /** The other threads stay where they are, but for the one that a notification wakes. */
  lemma OthersStay(s: State, move: Move, u: nat)
    requires u != move.t
    ensures PcOf(Next(s, move).pcs, u) == PcOf(s.pcs, u) ||
      (PcOf(s.pcs, u).Waiting? && PcOf(Next(s, move).pcs, u).Waiting? && move.Advance? && PcOf(s.pcs, move.t).Cleared?)
  {
    if move.Advance? {
      AdvanceIsNext(s, move.t, move.pick);
      hide Next, Put, PcOf, Lockable, NobodyWaits, Started, AllEnded;
    } else {
      hide Put, PcOf, Lockable, Referenced, CanEnd;
    }
  }

  lemma BeginsToLeave(s: State, move: Move, u: nat)
    requires Accounts(s) && PcOf(Next(s, move).pcs, u).Leaving? && !PcOf(s.pcs, u).Leaving?
    ensures exists o: nat :: (u, o) in Next(s, move).held
  {
    if u != move.t {
      OthersStay(s, move, u);
    } else {
      var s' := Next(s, move);
      assert PcOf(s.pcs, u).Constructed? ==> (u, PcOf(s.pcs, u).obj) in s.held;
      hide Put, PcOf, Accounts, Referenced, NobodyWaits, Started, AllEnded, CanEnd;
      if PcOf(s.pcs, u).Locked? {
        LockableHas(s);
        assert (u, s.wptr.value) in s'.held;
      } else {
        assert PcOf(s.pcs, u).Constructed? && (u, PcOf(s.pcs, u).obj) in s'.held;
      }
    }
  }

  lemma StepLeaves(s: State, move: Move)
    requires Accounts(s) && LeavesWithOne(s.pcs, s.held)
    ensures var s' := Next(s, move); LeavesWithOne(s'.pcs, s'.held)
  {
    hide Next, PcOf, Accounts;
    var s' := Next(s, move);
    forall u: nat | PcOf(s'.pcs, u).Leaving? ensures exists o: nat :: (u, o) in s'.held {
      if PcOf(s.pcs, u).Leaving? {
        var o: nat :| (u, o) in s.held;
        PointerStays(s, move, u, o);
      } else {
        BeginsToLeave(s, move, u);
      }
    }
  }

  lemma OnlySignsOff(s: State, t: nat)
    requires Exclusive(s.pcs, s.wptrMtx, s.existsMtx) && InExistsMtx(PcOf(s.pcs, t))
    ensures forall u: nat :: SignsOff(PcOf(s.pcs, u)) ==> u == t
  {
    hide PcOf;
    assert s.existsMtx == Some(t);
  }

  /** How `mgr_exists` is set and cleared. */
  lemma AdvanceExists(s: State, t: nat, pick: Choice)
    requires CanAdvance(s, t)
    ensures var s', pc, pc' := AdvanceFrom(s, t, pick), PcOf(s.pcs, t), PcOf(AdvanceFrom(s, t, pick).pcs, t);
      && s'.mgrExists == ((s.mgrExists || pc.SawFree?) && !pc.Finishing?)
      && (SignsOff(pc') ==> SignsOff(pc) || pc.Finishing?)
  {
    hide Put, PcOf, Lockable, NobodyWaits, Started, AllEnded;
  }

  lemma StepExists(s: State, move: Move, u: nat)
    ensures Next(s, move).mgrExists ==> s.mgrExists || (move.Advance? && PcOf(s.pcs, move.t).SawFree?)
    ensures SignsOff(PcOf(Next(s, move).pcs, u)) ==> SignsOff(PcOf(s.pcs, u)) || !Next(s, move).mgrExists
    ensures move.Advance? && PcOf(s.pcs, move.t).SawFree? ==> !SignsOff(PcOf(Next(s, move).pcs, move.t))
  {
    if move.Advance? && CanAdvance(s, move.t) {
      AdvanceExists(s, move.t, move.pick);
    }
    if u != move.t {
      OthersStay(s, move, u);
    }
    hide Put, PcOf, Lockable, Referenced, AdvanceFrom, CanAdvance, CanEnd;
  }

  lemma StepStaysClear(s: State, move: Move)
    requires Exclusive(s.pcs, s.wptrMtx, s.existsMtx) && StaysClear(s.pcs, s.mgrExists)
    ensures var s' := Next(s, move); StaysClear(s'.pcs, s'.mgrExists)
  {
    if move.Advance? && PcOf(s.pcs, move.t).SawFree? {
      OnlySignsOff(s, move.t);
    }
    hide PcOf, Exclusive, Next, SignsOff;
    forall u: nat ensures SignsOff(PcOf(Next(s, move).pcs, u)) ==> !Next(s, move).mgrExists {
      StepExists(s, move, u);
    }
  }

  lemma {:induction false} RunKept(moves: seq<Move>)
    ensures Kept(After(START, moves))
  {
    RunInv(moves);
    if moves != [] {
      var s, move := After(START, moves[..|moves| - 1]), moves[|moves| - 1];
      RunKept(moves[..|moves| - 1]);
      hide Next, Exclusive, Accounts, Claimed, Published, NoneToFind, WakeupDue, Private, LeavesWithOne, StaysClear;
      CrewsGrow(s, move);
      StepLeaves(s, move);
      StepStaysClear(s, move);
    }
  }

  lemma AlwaysKept(s: State)
    requires Reachable(s)
    ensures Kept(s)
  {
    var moves :| After(START, moves) == s;
    hide Kept, After;
    RunKept(moves);
  }

  lemma LeadsStep(s: State, move: Move)
    ensures Leads(s, Next(s, move))
    ensures Reachable(s) ==> Reachable(Next(s, move))
  {
    hide Next;
    assert [move][..0] == [];
    assert After(s, [move]) == Next(s, move);
    if Reachable(s) {
      LeadsOn(START, s, [move]);
    }
  }

  // ---- While a manager is being deleted -------------------------------------

  /** In `make_manager_ptr`, before there is anything to return. */
  predicate AtTheDoor(pc: Pc) {
    pc.FastFailed? || pc.Locked? || pc.WantExists? || pc.Checking? || pc.Waiting?
  }

  /** Nobody has a pointer, and everybody else in the helper is kept at the door. */
  lemma WhileDeleting(s: State, x: nat, o: nat)
    requires Kept(s) && PcOf(s.pcs, x) == Deleting(o)
    ensures o < |s.objs| && s.mgrExists && !Lockable(s) && s.held == multiset{}
    ensures forall t: nat :: Inside(PcOf(s.pcs, t)) && t != x ==> AtTheDoor(PcOf(s.pcs, t))
    ensures forall p: nat :: p < |s.objs| ==> s.objs[p] == if p == o then Dying else Dead
  {
    assert Works(PcOf(s.pcs, x), o) && s.objs[o] == Dying;
    hide Put, Exclusive, Published, NoneToFind, WakeupDue, Private;
    OnlyObject(s, o, o);
    forall p: nat | p < |s.objs| ensures s.objs[p] == if p == o then Dying else Dead {
      if s.objs[p] != Dead {
        OnlyObject(s, o, p);
      }
    }
    forall tp | tp in s.held ensures false {
      HeldIsReferenced(s.held, tp.0, tp.1);
    }
    forall t: nat | Inside(PcOf(s.pcs, t)) && t != x ensures AtTheDoor(PcOf(s.pcs, t)) {
      NobodyElse(s, x, o, t);
    }
  }

  lemma NobodyElse(s: State, x: nat, o: nat, t: nat)
    requires Kept(s) && PcOf(s.pcs, x) == Deleting(o) && o < |s.objs| && s.mgrExists && s.held == multiset{}
    requires forall p: nat :: p < |s.objs| ==> s.objs[p] == if p == o then Dying else Dead
    requires Inside(PcOf(s.pcs, t)) && t != x
    ensures AtTheDoor(PcOf(s.pcs, t))
  {
    var pc := PcOf(s.pcs, t);
    assert Claims(s.pcs, s.objs, Object(o));
    assert Reserves(pc) ==> Claims(s.pcs, s.objs, Reservation(t));
    assert CleansUp(pc) ==> Claims(s.pcs, s.objs, Cleanup(t));
    assert OnObject(pc) ==> Works(pc, pc.obj);
    hide Put, PcOf, Claims;
  }

  // ---- A join that does not come to its end ---------------------------------

  /** Thread `x` is deleting a manager and is to join a thread that is inside the helper, or is itself. */
  ghost predicate Awaits(s: State, x: nat, o: nat, u: nat) {
    PcOf(s.pcs, x) == Deleting(o) && o < |s.crews| && u in s.crews[o] && Inside(PcOf(s.pcs, u))
  }

  ghost predicate Hung(s: State) {
    exists x: nat, o: nat, u: nat :: Awaits(s, x, o, u)
  }

  lemma AwaitsStep(s: State, move: Move, x: nat, o: nat, u: nat)
    requires Kept(s) && Awaits(s, x, o, u)
    ensures Awaits(Next(s, move), x, o, u) && |Next(s, move).objs| == |s.objs|
  {
    WhileDeleting(s, x, o);
    CrewsGrow(s, move);
    DeleterStays(s, move, x, o, u);
    hide PcOf, Kept, Lockable, Next, Inside, AtTheDoor;
    if u != x {
      DoorStays(s, move, u);
    }
    assert |Next(s, move).objs| == |s.objs| by {
      assert PcOf(s.pcs, move.t).Reserved? ==> Inside(PcOf(s.pcs, move.t)) && !AtTheDoor(PcOf(s.pcs, move.t)) by {
        NotAtTheDoor(PcOf(s.pcs, move.t));
      }
    }
    assert Inside(PcOf(Next(s, move).pcs, u)) by {
      NotAtTheDoor(PcOf(Next(s, move).pcs, u));
    }
  }

  lemma NotAtTheDoor(pc: Pc)
    ensures pc.Reserved? ==> Inside(pc) && !AtTheDoor(pc)
    ensures AtTheDoor(pc) || pc.Deleting? ==> Inside(pc)
  {
  }

  lemma DeleterStays(s: State, move: Move, x: nat, o: nat, u: nat)
    requires Awaits(s, x, o, u)
    ensures PcOf(Next(s, move).pcs, x) == Deleting(o)
  {
    assert !CanAdvance(s, x);
    if move.t != x {
      OthersStay(s, move, x);
    } else {
      hide Put, PcOf, Lockable, NobodyWaits, CanAdvance, AdvanceFrom;
    }
  }

  lemma DoorStays(s: State, move: Move, u: nat)
    requires AtTheDoor(PcOf(s.pcs, u)) && s.mgrExists && !Lockable(s)
    ensures AtTheDoor(PcOf(Next(s, move).pcs, u))
  {
    if move.t != u {
      OthersStay(s, move, u);
    } else {
      hide Put, PcOf, Lockable, NobodyWaits, AllEnded, Started, Referenced;
    }
  }

  /**
   * Whoever joins a thread that is in the helper, or itself, never comes back:
   * in every continuation the destructor still runs, the thread is still in the
   * helper, no thread has a pointer, and no other manager is constructed.
   */
  lemma HungForEver(s: State, s': State, x: nat, o: nat, u: nat)
    requires Reachable(s) && Leads(s, s') && Awaits(s, x, o, u)
    ensures Awaits(s', x, o, u)
    ensures s'.mgrExists && s'.held == multiset{} && |s'.objs| == |s.objs|
  {
    var moves :| After(s, moves) == s';
    HungRun(s, moves, x, o, u);
    WhileDeleting(s', x, o);
  }

  lemma {:induction false} HungRun(s: State, moves: seq<Move>, x: nat, o: nat, u: nat)
    requires Reachable(s) && Awaits(s, x, o, u)
    ensures Kept(After(s, moves)) && Awaits(After(s, moves), x, o, u) && |After(s, moves).objs| == |s.objs|
  {
    hide Kept, Awaits, Next;
    LeadsOn(START, s, moves);
    AlwaysKept(After(s, moves));
    if moves != [] {
      HungRun(s, moves[..|moves| - 1], x, o, u);
      AwaitsStep(After(s, moves[..|moves| - 1]), moves[|moves| - 1], x, o, u);
    }
  }

  // ---- What hangs it --------------------------------------------------------

  /** The release of the last pointer to the object. */
  ghost predicate LastRelease(s: State, t: nat, o: nat) {
    && PcOf(s.pcs, t).Idle? && (t, o) in s.held && o < |s.objs|
    && !Referenced(s.held - multiset{(t, o)}, o)
  }

  /**
   * A thread that a manager started asks for one while its own is being
   * deleted; or the last pointer is released by such a thread, or while one is
   * in the helper.
   */
  ghost predicate Hangs(s: State, move: Move) {
    match move
    case Get(t) =>
      PcOf(s.pcs, t).Idle? && exists x: nat, o: nat :: PcOf(s.pcs, x) == Deleting(o) && o < |s.crews| && t in s.crews[o]
    case Release(t, o) =>
      && LastRelease(s, t, o) && o < |s.crews|
      && exists u: nat :: u in s.crews[o] && (u == t || Inside(PcOf(s.pcs, u)))
    case _ => false
  }

  /** Exactly these two calls hang a program that did not hang yet. */
  lemma HangsIff(s: State, move: Move)
    requires Reachable(s) && !Hung(s)
    ensures Hung(Next(s, move)) <==> Hangs(s, move)
  {
    AlwaysKept(s);
    hide Reachable;
    if Hangs(s, move) {
      HangsNow(s, move);
    }
    if Hung(Next(s, move)) {
      var x: nat, o: nat, u: nat :| Awaits(Next(s, move), x, o, u);
      HungBefore(s, move, x, o, u);
    }
  }

  lemma HangsNow(s: State, move: Move)
    requires Kept(s) && Hangs(s, move)
    ensures Hung(Next(s, move))
  {
    hide Kept, Next, PcOf, LastRelease;
    match move {
      case Get(t) =>
        var x: nat, o: nat :| PcOf(s.pcs, x) == Deleting(o) && o < |s.crews| && t in s.crews[o];
        GetHangs(s, t, x, o);
      case Release(t, o) =>
        var u: nat :| u in s.crews[o] && (u == t || Inside(PcOf(s.pcs, u)));
        ReleaseHangs(s, t, o, u);
    }
  }

  lemma GetHangs(s: State, t: nat, x: nat, o: nat)
    requires Kept(s) && PcOf(s.pcs, t).Idle?
    requires PcOf(s.pcs, x) == Deleting(o) && o < |s.crews| && t in s.crews[o]
    ensures Awaits(Next(s, Get(t)), x, o, t)
  {
    WhileDeleting(s, x, o);
    hide Kept, PcOf, Next;
    CrewsGrow(s, Get(t));
    OthersStay(s, Get(t), x);
    GetFails(s, t);
  }

  lemma ReleaseHangs(s: State, t: nat, o: nat, u: nat)
    requires Kept(s) && LastRelease(s, t, o) && o < |s.crews|
    requires u in s.crews[o] && (u == t || Inside(PcOf(s.pcs, u)))
    ensures Awaits(Next(s, Release(t, o)), t, o, u)
  {
    hide Kept, Put, PcOf, Referenced;
  }

  lemma GetFails(s: State, t: nat)
    requires PcOf(s.pcs, t).Idle? && !Lockable(s)
    ensures PcOf(Next(s, Get(t)).pcs, t).FastFailed?
  {
  }

  lemma NobodyAdvancesIntoIt(s: State, t: nat, pick: Choice)
    requires CanAdvance(s, t)
    ensures !PcOf(AdvanceFrom(s, t, pick).pcs, t).Deleting?
  {
    hide Put, PcOf, Lockable, NobodyWaits, AllEnded, Started;
  }

  lemma DeletesByRelease(s: State, move: Move, x: nat, o: nat)
    requires PcOf(Next(s, move).pcs, x) == Deleting(o)
    ensures PcOf(s.pcs, x) == Deleting(o) || (move == Release(x, o) && LastRelease(s, x, o))
  {
    if move.t != x {
      OthersStay(s, move, x);
    } else if move.Advance? {
      AdvanceIsNext(s, x, move.pick);
      hide Next, PcOf, CanAdvance, AdvanceFrom;
      if CanAdvance(s, x) {
        NobodyAdvancesIntoIt(s, x, move.pick);
      }
    } else {
      hide Put, PcOf, Lockable, Referenced;
    }
  }

  lemma EntersByCall(s: State, move: Move, u: nat)
    requires Inside(PcOf(Next(s, move).pcs, u))
    ensures Inside(PcOf(s.pcs, u)) || (move.t == u && PcOf(s.pcs, u).Idle? &&
      (move.Get? || (move.Release? && LastRelease(s, u, move.obj))))
  {
    if move.t != u {
      OthersStay(s, move, u);
    } else {
      hide Put, PcOf, Lockable, NobodyWaits, AllEnded, Started, Referenced, CanEnd;
    }
  }

  lemma HungBefore(s: State, move: Move, x: nat, o: nat, u: nat)
    requires Kept(s) && !Hung(s) && Awaits(Next(s, move), x, o, u)
    ensures Hangs(s, move)
  {
    CrewsGrow(s, move);
    DeletesByRelease(s, move, x, o);
    EntersByCall(s, move, u);
    assert !Awaits(s, x, o, u);
    if PcOf(s.pcs, x) == Deleting(o) {
      WhileDeleting(s, x, o);
    }
    hide PcOf, Kept, Next, Inside, Referenced;
  }

  // ---- Otherwise the helper empties -----------------------------------------

  /** A step inside the helper, or the end of a thread that a destructor waits for. */
  ghost predicate Helps(s: State, move: Move) {
    match move
    case Advance(t, pick) =>
      CanAdvance(s, t) && pick.team == {} && PcOf(AdvanceFrom(s, t, pick).pcs, t) != PcOf(s.pcs, t)
    case End(t) => CanEnd(s, t) && exists o: nat :: o < |s.crews| && t in s.crews[o]
    case _ => false
  }

  lemma AdvanceHelps(s: State, t: nat)
    requires CanAdvance(s, t)
    ensures exists move :: Helps(s, move)
  {
    var w: nat := 0;
    if !NobodyWaits(s.pcs) {
      w :| PcOf(s.pcs, w) == Waiting(false);
    }
    hide Put, PcOf;
    assert Helps(s, Advance(t, Choice(w, {})));
  }

  /** A waiter's wakeup is on its way: some thread can take a step towards it, or is in the destructor. */
  lemma WaiterIsServed(s: State, t: nat)
    requires Inv(s) && PcOf(s.pcs, t) == Waiting(false)
    ensures exists u: nat :: CanAdvance(s, u) || PcOf(s.pcs, u).Deleting?
  {
    OnlyConstructor(s, t);
    hide Published, Private, Put;
    if s.existsMtx.Some? {
      OwnerAdvances(s);
    } else {
      assert forall u: nat :: !InExistsMtx(PcOf(s.pcs, u));
      hide Exclusive;
      forall v: nat ensures !PcOf(s.pcs, v).Cleared? && !Claims(s.pcs, s.objs, Reservation(v)) {
        assert !InExistsMtx(PcOf(s.pcs, v)) && (InWptrMtx(PcOf(s.pcs, v)) ==> v == t);
      }
      var c :| Claims(s.pcs, s.objs, c);
      if c.Object? {
        assert FoundNone(PcOf(s.pcs, t)) && s.objs[c.obj] == Dying;
      } else {
        assert c.Cleanup? && !InExistsMtx(PcOf(s.pcs, c.thread));
        assert CanAdvance(s, c.thread);
      }
    }
  }

  lemma OwnerAdvances(s: State)
    requires Inv(s) && s.existsMtx.Some?
    ensures CanAdvance(s, s.existsMtx.value)
  {
    assert InExistsMtx(PcOf(s.pcs, s.existsMtx.value));
  }

  /** With a thread inside the helper, some thread inside can take its next step, or one is in the destructor. */
  lemma SomeoneAdvances(s: State, t: nat)
    requires Inv(s) && Inside(PcOf(s.pcs, t))
    ensures exists u: nat :: CanAdvance(s, u) || PcOf(s.pcs, u).Deleting?
  {
    hide Put;
    if forall u: nat :: !CanAdvance(s, u) && !PcOf(s.pcs, u).Deleting? {
      hide Claimed, Published, NoneToFind, WakeupDue, Private;
      if s.existsMtx.Some? {
        OwnerAdvances(s);
      }
      assert !CanAdvance(s, t);
      var w := if s.wptrMtx.Some? then s.wptrMtx.value else t;
      assert s.wptrMtx.Some? ==> InWptrMtx(PcOf(s.pcs, w));
      assert PcOf(s.pcs, w).Constructing? ==> Works(PcOf(s.pcs, w), PcOf(s.pcs, w).obj);
      assert !CanAdvance(s, w);
      assert PcOf(s.pcs, w) == Waiting(false);
      WaiterIsServed(s, w);
    }
  }

  /** A destructor that hangs nobody can return, or a thread it waits for can end. */
  lemma DeleterHelped(s: State, x: nat)
    requires Kept(s) && PcOf(s.pcs, x).Deleting? && !Hung(s)
    ensures exists move :: Helps(s, move)
  {
    var o := PcOf(s.pcs, x).obj;
    WhileDeleting(s, x, o);
    if AllEnded(s.pcs, s.crews[o]) {
      AdvanceHelps(s, x);
    } else {
      var u :| u in s.crews[o] && !PcOf(s.pcs, u).Ended?;
      assert !Awaits(s, x, o, u);
      assert Helps(s, End(u));
    }
  }

  /**
   * No deadlock but that one, and no lost wakeup: in every run, whenever a
   * thread is inside the helper, some thread inside it can take a step, or a
   * thread that is being joined can end, without any user action and without a
   * spurious wakeup; or a destructor hangs.
   */
  lemma NeverStuck(s: State, t: nat)
    requires Reachable(s) && Inside(PcOf(s.pcs, t))
    ensures Hung(s) || exists move :: Helps(s, move)
  {
    AlwaysKept(s);
    hide Reachable, Hung, Helps;
    SomeoneAdvances(s, t);
    var u: nat :| CanAdvance(s, u) || PcOf(s.pcs, u).Deleting?;
    if CanAdvance(s, u) {
      AdvanceHelps(s, u);
    } else if !Hung(s) {
      DeleterHelped(s, u);
    }
  }

  /** How far a thread is from its end, at most. */
  function Weight(pc: Pc): nat {
    match pc
    case Ended => 0
    case Idle => 1
    case Leaving => 2
    case Notified => 2
    case Constructed(_) => 3
    case Constructing(_) => 4
    case Reserved => 5
    case Marked => 6
    case Cleared => 6
    case SawFree => 7
    case Finishing => 7
    case Waiting(notified) => if notified then 11 else 8
    case Deleted(_) => 8
    case Checking => 9
    case Deleting(_) => 9
    case WantExists => 10
    case Locked => 11
    case FastFailed => 12
  }

  function Weights(pcs: Pcs, n: nat): nat {
    if n == 0 then 0 else Weights(pcs, n - 1) + Weight(PcOf(pcs, n - 1))
  }

  /** Where one thread moves. */
  lemma {:induction false} MoveWeighs(pcs: Pcs, pcs': Pcs, t: nat, n: nat)
    requires forall u: nat :: u != t ==> PcOf(pcs', u) == PcOf(pcs, u)
    ensures Weights(pcs', n) == Weights(pcs, n) + if t < n then Weight(PcOf(pcs', t)) - Weight(PcOf(pcs, t)) else 0
  {
    hide PcOf, Weight;
    if n > 0 {
      MoveWeighs(pcs, pcs', t, n - 1);
    }
  }

  /** All the threads that were ever in the helper or started by a manager. */
  ghost predicate Below(s: State, n: nat) {
    && (forall t :: t in s.pcs ==> t < n)
    && forall o: nat, t: nat :: o < |s.crews| && t in s.crews[o] ==> t < n
  }

  lemma {:induction false} SetBelow(ts: set<nat>) returns (n: nat)
    ensures forall t :: t in ts ==> t < n
  {
    if ts == {} {
      n := 0;
    } else {
      var t :| t in ts;
      var m := SetBelow(ts - {t});
      n := if t < m then m else t + 1;
      assert forall u :: u in ts ==> u == t || u in ts - {t};
    }
  }

  lemma {:induction false} CrewsBelow(crews: seq<set<nat>>) returns (n: nat)
    ensures forall o: nat, t: nat :: o < |crews| && t in crews[o] ==> t < n
  {
    if crews == [] {
      n := 0;
    } else {
      var last := |crews| - 1;
      var m := CrewsBelow(crews[..last]);
      var k := SetBelow(crews[last]);
      n := m + k;
      forall o: nat, t: nat | o < |crews| && t in crews[o] ensures t < n {
        assert o < last ==> t in crews[..last][o];
      }
    }
  }

  lemma StartedNone(s: State, t: nat)
    ensures Started(s, t, {}) == {}
  {
  }

  /** A step inside the helper brings no thread. */
  lemma AdvanceKeys(s: State, t: nat, pick: Choice)
    requires CanAdvance(s, t)
    ensures t in s.pcs && AdvanceFrom(s, t, pick).pcs.Keys == s.pcs.Keys
  {
    assert t in s.pcs;
    if PcOf(s.pcs, t).Cleared? {
      assert PcOf(s.pcs, pick.waiter) == Waiting(false) ==> pick.waiter in s.pcs;
      hide NobodyWaits, PcOf;
    } else {
      hide Lockable, AllEnded, Started, PcOf;
    }
  }

  lemma AdvanceIsBelow(s: State, t: nat, pick: Choice, n: nat)
    requires CanAdvance(s, t) && pick.team == {} && Below(s, n)
    ensures Below(AdvanceFrom(s, t, pick), n) && t < n
  {
    AdvanceKeys(s, t, pick);
    AdvanceCrews(s, t, pick);
    StartedNone(s, t);
    hide CanAdvance, AdvanceFrom, Started, PcOf;
    assert t in s.pcs.Keys;
    forall u | u in AdvanceFrom(s, t, pick).pcs ensures u < n {
      assert u in s.pcs.Keys;
    }
  }

  lemma HelpIsBelow(s: State, move: Move, n: nat)
    requires Helps(s, move) && Below(s, n)
    ensures Below(Next(s, move), n) && move.t < n
  {
    if move.Advance? {
      AdvanceIsBelow(s, move.t, move.pick, n);
      hide AdvanceFrom, Below, CanAdvance;
    } else {
      hide Lockable, PcOf;
    }
  }

  /** A thread that moves on weighs less, even with the one that it wakes. */
  lemma StepWeighs(s: State, t: nat, pick: Choice)
    requires CanAdvance(s, t) && !PcOf(s.pcs, t).Cleared?
    ensures Weight(PcOf(AdvanceFrom(s, t, pick).pcs, t)) < Weight(PcOf(s.pcs, t))
  {
    if AtTheDoor(PcOf(s.pcs, t)) {
      DoorWeighs(s, t, pick);
    } else {
      hide Put, PcOf, Lockable, NobodyWaits, Started, AllEnded;
      match PcOf(s.pcs, t) {
        case Reserved =>
        case Constructing(_) =>
        case _ =>
      }
    }
  }

  lemma DoorWeighs(s: State, t: nat, pick: Choice)
    requires CanAdvance(s, t) && AtTheDoor(PcOf(s.pcs, t))
    ensures Weight(PcOf(AdvanceFrom(s, t, pick).pcs, t)) < Weight(PcOf(s.pcs, t))
  {
    hide Put, PcOf, Lockable, AllEnded;
  }

  lemma NotifyWeighs(s: State, t: nat, pick: Choice, n: nat)
    requires CanAdvance(s, t) && PcOf(s.pcs, t).Cleared? && Below(s, n) && t < n
    requires PcOf(AdvanceFrom(s, t, pick).pcs, t) != PcOf(s.pcs, t)
    ensures Weights(AdvanceFrom(s, t, pick).pcs, n) < Weights(s.pcs, n)
  {
    var w := pick.waiter;
    if PcOf(s.pcs, w) == Waiting(false) {
      assert w in s.pcs;
      hide Put, PcOf;
      var woken := Put(s.pcs, w, Waiting(true));
      MoveWeighs(s.pcs, woken, w, n);
      MoveWeighs(woken, Put(woken, t, Notified), t, n);
    } else {
      hide Put, PcOf;
      MoveWeighs(s.pcs, Put(s.pcs, t, Notified), t, n);
    }
  }

  lemma HelpWeighs(s: State, move: Move, n: nat)
    requires Helps(s, move) && Below(s, n)
    ensures Below(Next(s, move), n) && Weights(Next(s, move).pcs, n) < Weights(s.pcs, n)
  {
    HelpIsBelow(s, move, n);
    var s', t := Next(s, move), move.t;
    if move.Advance? && PcOf(s.pcs, t).Cleared? {
      NotifyWeighs(s, t, move.pick, n);
    } else {
      assert Weight(PcOf(s'.pcs, t)) < Weight(PcOf(s.pcs, t)) by {
        if move.Advance? {
          StepWeighs(s, t, move.pick);
        }
      }
      hide *;
      forall u: nat | u != t ensures PcOf(s'.pcs, u) == PcOf(s.pcs, u) {
        OthersStay(s, move, u);
      }
      MoveWeighs(s.pcs, s'.pcs, t, n);
    }
  }

  ghost predicate Emptied(s: State) {
    forall t: nat :: !Inside(PcOf(s.pcs, t))
  }

  lemma {:induction false} Drain(s: State, n: nat) returns (s': State)
    requires Reachable(s) && !Hung(s) && Below(s, n)
    ensures Leads(s, s') && Emptied(s')
    decreases Weights(s.pcs, n)
  {
    if Emptied(s) {
      s' := s;
      assert After(s, []) == s;
    } else {
      var t: nat :| Inside(PcOf(s.pcs, t));
      NeverStuck(s, t);
      var move :| Helps(s, move);
      HelpWeighs(s, move, n);
      HangsIff(s, move);
      LeadsStep(s, move);
      s' := Drain(Next(s, move), n);
      var moves :| After(Next(s, move), moves) == s';
      LeadsOn(s, Next(s, move), moves);
    }
  }

  /** The helper can be emptied exactly when no destructor hangs. */
  lemma EmptiesIff(s: State)
    requires Reachable(s)
    ensures (exists s' :: Leads(s, s') && Emptied(s')) <==> !Hung(s)
  {
    if Hung(s) {
      var x: nat, o: nat, u: nat :| Awaits(s, x, o, u);
      forall s' | Leads(s, s') ensures !Emptied(s') {
        HungForEver(s, s', x, o, u);
      }
    } else {
      var m := SetBelow(s.pcs.Keys);
      var k := CrewsBelow(s.crews);
      var s' := Drain(s, m + k);
    }
  }

  /** A destructor can come to its end exactly when no thread that it joins is in the helper, or is itself. */
  lemma DeleteReturnsIff(s: State, x: nat, o: nat)
    requires Reachable(s) && PcOf(s.pcs, x) == Deleting(o)
    ensures (exists s' :: Leads(s, s') && PcOf(s'.pcs, x) != Deleting(o)) <==> !exists u: nat :: Awaits(s, x, o, u)
  {
    if u: nat :| Awaits(s, x, o, u) {
      forall s' | Leads(s, s') ensures PcOf(s'.pcs, x) == Deleting(o) {
        HungForEver(s, s', x, o, u);
      }
    } else {
      AlwaysKept(s);
      WhileDeleting(s, x, o);
      assert forall y: nat :: PcOf(s.pcs, y).Deleting? ==> Inside(PcOf(s.pcs, y)) && !AtTheDoor(PcOf(s.pcs, y));
      assert !Hung(s);
      EmptiesIff(s);
      var s' :| Leads(s, s') && Emptied(s');
      assert PcOf(s'.pcs, x) != Deleting(o);
    }
  }

  // ---- Programs that hang ---------------------------------------------------

  const ONE_WORKER := Choice(0, {2})

  /** Thread 1 alone in the helper. */
  function One(pc: Pc): Pcs {
    map[1 := pc]
  }

  lemma Goes(s: State, t: nat, s': State)
    requires Reachable(s) && CanAdvance(s, t) && AdvanceFrom(s, t, ONE_WORKER) == s'
    ensures Reachable(s')
  {
    hide Reachable, CanAdvance, AdvanceFrom;
    LeadsStep(s, Advance(t, ONE_WORKER));
  }

  /** What a first call makes: a manager, which has started thread 2. */
  const MADE := State(One(Idle), [Alive], [{2}], multiset{(1, 0)}, Some(0), None, None, true)

  lemma Asking()
    ensures Reachable(START.(pcs := One(FastFailed)))
  {
    assert After(START, []) == START;
    hide Reachable, After;
    LeadsStep(START, Get(1));
  }

  lemma Failing()
    ensures Reachable(START.(pcs := One(WantExists), wptrMtx := Some(1)))
  {
    Asking();
    hide Reachable, Started, AllEnded, NobodyWaits, Referenced;
    Goes(START.(pcs := One(FastFailed)), 1, START.(pcs := One(Locked), wptrMtx := Some(1)));
    Goes(START.(pcs := One(Locked), wptrMtx := Some(1)), 1, START.(pcs := One(WantExists), wptrMtx := Some(1)));
  }

  lemma Looking()
    ensures Reachable(START.(pcs := One(SawFree), wptrMtx := Some(1), existsMtx := Some(1)))
  {
    Failing();
    hide Reachable, Started, AllEnded, NobodyWaits, Lockable;
    var s := START.(wptrMtx := Some(1), existsMtx := Some(1));
    Goes(s.(pcs := One(WantExists), existsMtx := None), 1, s.(pcs := One(Checking)));
    Goes(s.(pcs := One(Checking)), 1, s.(pcs := One(SawFree)));
  }

  lemma Reserving()
    ensures Reachable(START.(pcs := One(Reserved), wptrMtx := Some(1), mgrExists := true))
  {
    Looking();
    hide Reachable, Started, AllEnded, NobodyWaits, Lockable;
    var s := START.(wptrMtx := Some(1), existsMtx := Some(1));
    Goes(s.(pcs := One(SawFree)), 1, s.(pcs := One(Marked), mgrExists := true));
    Goes(s.(pcs := One(Marked), mgrExists := true), 1, s.(pcs := One(Reserved), existsMtx := None, mgrExists := true));
  }

  lemma Begins()
    ensures Reachable(
      State(One(Constructing(0)), [Building], [{2}], multiset{}, None, Some(1), None, true))
  {
    Reserving();
    hide Reachable, AllEnded, NobodyWaits, Lockable;
    var s := START.(pcs := One(Reserved), wptrMtx := Some(1), mgrExists := true);
    assert Started(s, 1, {2}) == {2};
    Goes(s, 1, s.(pcs := One(Constructing(0)), objs := [Building], crews := [{2}]));
  }

  lemma MakesOne()
    ensures Reachable(MADE)
  {
    Begins();
    hide Reachable, AllEnded, NobodyWaits, Lockable, Started;
    var s := MADE.(pcs := One(Constructed(0)), wptr := None, wptrMtx := Some(1));
    Goes(s.(pcs := One(Constructing(0)), objs := [Building], held := multiset{}), 1, s);
    Goes(s, 1, s.(pcs := One(Leaving), wptr := Some(0)));
    Goes(s.(pcs := One(Leaving), wptr := Some(0)), 1, MADE);
  }

  lemma NobodyIsLeft(t: nat)
    ensures !Referenced(multiset{(t, 0)} - multiset{(t, 0)}, 0)
  {
    assert multiset{(t, 0)} - multiset{(t, 0)} == multiset{};
  }

  /** Thread 1 has released the last pointer, and joins thread 2. */
  const DYING := State(One(Deleting(0)), [Dying], [{2}], multiset{}, Some(0), None, None, true)

  /** Thread 1 has handed the last pointer to thread 2. */
  const HANDED := State(One(Idle), [Alive], [{2}], multiset{(2, 0)}, Some(0), None, None, true)

  lemma Releases()
    ensures Next(MADE, Release(1, 0)) == DYING
  {
    NobodyIsLeft(1);
    hide Referenced;
  }

  lemma HandsOver()
    ensures Next(MADE, Give(1, 2, 0)) == HANDED
  {
    assert MADE.held - multiset{(1, 0)} + multiset{(2, 0)} == multiset{(2, 0)};
  }

  lemma WorkerIsOutside()
    ensures PcOf(DYING.pcs, 1) == Deleting(0) && PcOf(DYING.pcs, 2).Idle? && !Hung(DYING)
    ensures |DYING.crews| == 1 && 2 in DYING.crews[0]
  {
  }

  /** Thread 1 joins the worker, and the worker handles one more request: both wait for ever. */
  lemma WorkerAsksTooLate()
    ensures Reachable(DYING) && !Hung(DYING) && Awaits(Next(DYING, Get(2)), 1, 0, 2)
  {
    WorkerIsOutside();
    hide *;
    MakesOne();
    Releases();
    LeadsStep(MADE, Release(1, 0));
    AlwaysKept(DYING);
    GetHangs(DYING, 2, 1, 0);
  }

  /** The worker has the last pointer, releases it and so joins itself. */
  lemma WorkerReleasesLast()
    ensures Reachable(HANDED) && !Hung(HANDED) && Awaits(Next(HANDED, Release(2, 0)), 2, 0, 2)
  {
    hide Reachable, Next, Referenced, Kept;
    MakesOne();
    HandsOver();
    LeadsStep(MADE, Give(1, 2, 0));
    NobodyIsLeft(2);
    AlwaysKept(HANDED);
    ReleaseHangs(HANDED, 2, 0, 2);
  }
}
