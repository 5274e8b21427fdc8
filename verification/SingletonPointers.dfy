/** What a call of `get` returns, whichever way it goes, and what becomes of pointers. */
module SingletonPointers {
  import opened Wrappers
  import opened Singleton

  /** The thread has one more pointer than before, to the live manager, and nothing else has changed. */
  ghost predicate OneMore(s: State, s': State, t: nat) {
    exists o: nat :: o < |s.objs| && s.objs[o] == Alive && s' == s.(held := s.held + multiset{(t, o)})
  }

  /**
   * The fast path: `get` returns at once, with one more pointer to the live
   * manager, if and only if the weak pointer can be locked; otherwise it goes on
   * to `make_manager_ptr` with what the thread had.
   */
  lemma GetReturns(s: State, t: nat)
    requires Reachable(s) && PcOf(s.pcs, t).Idle?
    ensures var s' := Next(s, Get(t));
      if s.wptr.Some? && Referenced(s.held, s.wptr.value) then OneMore(s, s', t)
      else s' == s.(pcs := Put(s.pcs, t, FastFailed))
  {
    if Lockable(s) {
      var u: nat :| (u, s.wptr.value) in s.held;
      PointersAreCurrent(s, u, s.wptr.value);
    }
    hide Reachable, Referenced, PcOf, Put;
  }

  // ---- The slow path --------------------------------------------------------

  /** In `make_manager_ptr`, without a pointer to return yet. */
  predicate Asking(pc: Pc) {
    pc.FastFailed? || pc.Locked? || pc.WantExists? || pc.Checking? || pc.Waiting? || pc.SawFree? || pc.Marked?
    || pc.Reserved? || pc.Constructing?
  }

  /** In `make_manager_ptr`, with a pointer to return. */
  predicate Served(pc: Pc) {
    pc.Constructed? || pc.Leaving?
  }

  /** The pointers to an object that another thread hands to the thread in a move. */
  function Gift(s: State, move: Move, t: nat, o: nat): nat {
    if move.Give? && move.to == t && move.obj == o && PcOf(s.pcs, move.t).Idle? && (move.t, o) in s.held then 1 else 0
  }

  /** What the thread is handed over a sequence of moves. */
  ghost function Gifts(s: State, moves: seq<Move>, t: nat, o: nat): nat {
    if moves == [] then 0
    else Gifts(s, moves[..|moves| - 1], t, o) + Gift(After(s, moves[..|moves| - 1]), moves[|moves| - 1], t, o)
  }

  /** The thread's own steps: the pointer comes once, with the step that locks it or constructs the manager. */
  lemma OwnStep(s: State, t: nat, pick: Choice) returns (o: nat)
    requires Accounts(s) && CanAdvance(s, t) && (Asking(PcOf(s.pcs, t)) || Served(PcOf(s.pcs, t)))
    ensures var s', pc, pc' := AdvanceFrom(s, t, pick), PcOf(s.pcs, t), PcOf(AdvanceFrom(s, t, pick).pcs, t);
      if Asking(pc) && Served(pc') then s'.held == s.held + multiset{(t, o)}
      else s'.held == s.held && (if Asking(pc) then Asking(pc') else Served(pc') || pc'.Idle?)
  {
    o := if PcOf(s.pcs, t).Constructing? then PcOf(s.pcs, t).obj else if Lockable(s) then s.wptr.value else 0;
    hide Put, PcOf, Referenced, NobodyWaits, AllEnded, Started;
    match PcOf(s.pcs, t) {
      case Locked =>
      case Checking =>
      case Constructing(_) =>
      case _ =>
    }
  }

  /** What others do changes the thread's pointers only by what they hand over, and does not move it along. */
  lemma OthersStep(s: State, move: Move, t: nat)
    requires Inside(PcOf(s.pcs, t)) && !(move.Advance? && move.t == t)
    ensures forall o: nat :: Next(s, move).held[(t, o)] == s.held[(t, o)] + Gift(s, move, t, o)
    ensures var pc, pc' := PcOf(s.pcs, t), PcOf(Next(s, move).pcs, t);
      Asking(pc') == Asking(pc) && Served(pc') == Served(pc) && Inside(pc')
  {
    if move.Advance? {
      OthersAdvance(s, move.t, move.pick, t);
      hide *;
      NextAdvance(s, move);
      NoGift(s, move, t);
    } else {
      CallsPlace(s, move, t);
      CallsPointers(s, move, t);
      hide *;
    }
  }

  lemma CallsPlace(s: State, move: Move, t: nat)
    requires Inside(PcOf(s.pcs, t)) && !move.Advance?
    ensures var pc, pc' := PcOf(s.pcs, t), PcOf(Next(s, move).pcs, t);
      Asking(pc') == Asking(pc) && Served(pc') == Served(pc) && Inside(pc')
  {
    hide Put, PcOf, Lockable, Referenced;
  }

  lemma CallsPointers(s: State, move: Move, t: nat)
    requires Inside(PcOf(s.pcs, t)) && !move.Advance?
    ensures forall o: nat :: Next(s, move).held[(t, o)] == s.held[(t, o)] + Gift(s, move, t, o)
  {
    hide Put, PcOf, Lockable, Referenced, CanEnd;
  }

  lemma NextAdvance(s: State, move: Move)
    requires move.Advance?
    ensures Next(s, move) == if CanAdvance(s, move.t) then AdvanceFrom(s, move.t, move.pick) else s
  {
  }

  lemma NoGift(s: State, move: Move, t: nat)
    requires !move.Give?
    ensures forall o: nat :: Gift(s, move, t, o) == 0
  {
  }

  lemma OthersAdvance(s: State, u: nat, pick: Choice, t: nat)
    requires u != t
    ensures CanAdvance(s, u) ==>
      var s', pc, pc' := AdvanceFrom(s, u, pick), PcOf(s.pcs, t), PcOf(AdvanceFrom(s, u, pick).pcs, t);
      && (forall o: nat :: s'.held[(t, o)] == s.held[(t, o)])
      && Asking(pc') == Asking(pc) && Served(pc') == Served(pc) && Inside(pc') == Inside(pc)
  {
    if CanAdvance(s, u) {
      OthersPlace(s, u, pick, t);
      OthersPointers(s, u, pick, t);
      hide AdvanceFrom, CanAdvance;
    }
  }

  lemma OthersPlace(s: State, u: nat, pick: Choice, t: nat)
    requires u != t && CanAdvance(s, u)
    ensures var pc, pc' := PcOf(s.pcs, t), PcOf(AdvanceFrom(s, u, pick).pcs, t);
      pc' == pc || (pc.Waiting? && pc'.Waiting?)
  {
    hide Put, PcOf, Lockable, NobodyWaits, AllEnded, Started;
  }

  lemma OthersPointers(s: State, u: nat, pick: Choice, t: nat)
    requires u != t && CanAdvance(s, u)
    ensures forall o: nat :: AdvanceFrom(s, u, pick).held[(t, o)] == s.held[(t, o)]
  {
    hide Put, PcOf, Lockable, NobodyWaits, AllEnded, Started;
  }

  /** How a call that took the slow path stands: what the thread had, what it was handed, and what it got itself. */
  ghost predicate Stands(s: State, moves: seq<Move>, t: nat, got: Option<nat>) {
    var s', pc := After(s, moves), PcOf(After(s, moves).pcs, t);
    && (forall p: nat :: s'.held[(t, p)] == s.held[(t, p)] + Gifts(s, moves, t, p) + if got == Some(p) then 1 else 0)
    && if got.None? then Asking(pc) else Served(pc) || pc.Idle?
  }

  /** The thread is inside the helper all along, until the last move. */
  ghost predicate DuringCall(s: State, moves: seq<Move>, t: nat) {
    forall k :: 0 <= k < |moves| ==> Inside(PcOf(After(s, moves[..k]).pcs, t))
  }

  lemma CallBegins(s: State, t: nat)
    requires PcOf(s.pcs, t).FastFailed?
    ensures Stands(s, [], t, None)
  {
    hide PcOf;
  }

  lemma DuringPrefix(s: State, moves: seq<Move>, t: nat)
    requires moves != [] && DuringCall(s, moves, t)
    ensures DuringCall(s, moves[..|moves| - 1], t)
    ensures Inside(PcOf(After(s, moves[..|moves| - 1]).pcs, t))
  {
    hide After, PcOf;
    var init := moves[..|moves| - 1];
    forall k | 0 <= k < |init| ensures Inside(PcOf(After(s, init[..k]).pcs, t)) {
      assert init[..k] == moves[..k];
    }
  }

  lemma AlwaysAccounts(s: State)
    requires Reachable(s)
    ensures Accounts(s)
  {
    hide Reachable;
    AlwaysInv(s);
  }

  /** One move more. */
  lemma StandsOn(s: State, moves: seq<Move>, t: nat, got: Option<nat>) returns (got': Option<nat>)
    requires moves != [] && Stands(s, moves[..|moves| - 1], t, got)
    requires Accounts(After(s, moves[..|moves| - 1])) && Inside(PcOf(After(s, moves[..|moves| - 1]).pcs, t))
    ensures Stands(s, moves, t, got')
  {
    var init, move := moves[..|moves| - 1], moves[|moves| - 1];
    got' := got;
    if move.Advance? && move.t == t {
      hide Accounts;
      got' := OwnMove(s, moves, t, got);
    } else {
      hide Next, PcOf, Accounts, Asking, Served, Gift;
      InsideIsNotIdle(PcOf(After(s, init).pcs, t));
      InsideIsNotIdle(PcOf(After(s, moves).pcs, t));
      OthersStep(After(s, init), move, t);
    }
  }

  lemma OwnMove(s: State, moves: seq<Move>, t: nat, got: Option<nat>) returns (got': Option<nat>)
    requires moves != [] && Stands(s, moves[..|moves| - 1], t, got)
    requires Accounts(After(s, moves[..|moves| - 1])) && Inside(PcOf(After(s, moves[..|moves| - 1]).pcs, t))
    requires moves[|moves| - 1].Advance? && moves[|moves| - 1].t == t
    ensures Stands(s, moves, t, got')
  {
    var before, move := After(s, moves[..|moves| - 1]), moves[|moves| - 1];
    hide Next, PcOf, Accounts, Asking, Served, CanAdvance, AdvanceFrom, Gift;
    assert After(s, moves) == Next(before, move);
    InsideIsNotIdle(PcOf(before.pcs, t));
    NextAdvance(before, move);
    NoGift(before, move, t);
    got' := got;
    if CanAdvance(before, t) {
      var o := OwnStep(before, t, move.pick);
      got' := if Asking(PcOf(before.pcs, t)) && Served(PcOf(After(s, moves).pcs, t)) then Some(o) else got;
    }
  }

  lemma InsideIsNotIdle(pc: Pc)
    ensures Inside(pc) ==> !pc.Idle?
    ensures !(Asking(pc) && Served(pc)) && !(Asking(pc) && pc.Idle?)
  {
  }

  lemma {:induction false} CallStands(s: State, moves: seq<Move>, t: nat) returns (got: Option<nat>)
    requires Reachable(s) && PcOf(s.pcs, t).FastFailed? && DuringCall(s, moves, t)
    ensures Stands(s, moves, t, got)
    decreases |moves|
  {
    if moves == [] {
      CallBegins(s, t);
      got := None;
    } else {
      var init := moves[..|moves| - 1];
      DuringPrefix(s, moves, t);
      hide *;
      LeadsOn(START, s, init);
      assert Reachable(After(s, init)) by { IsReachable(After(s, init)); }
      AlwaysAccounts(After(s, init));
      got := CallStands(s, init, t);
      got := StandsOn(s, moves, t, got);
    }
  }

  lemma IsReachable(s: State)
    requires Leads(START, s)
    ensures Reachable(s)
  {
  }

  /**
   * The slow path: when a call that went on to `make_manager_ptr` comes back,
   * however long it waited and whatever the others did, the thread has what it
   * had, what it was handed meanwhile, and one more pointer, to the live manager.
   */
  lemma CallReturns(s: State, moves: seq<Move>, t: nat) returns (o: nat)
    requires Reachable(s) && PcOf(s.pcs, t).FastFailed? && DuringCall(s, moves, t)
    requires PcOf(After(s, moves).pcs, t).Idle?
    ensures var s' := After(s, moves);
      && o < |s'.objs| && s'.objs[o] == Alive && s'.wptr == Some(o)
      && forall p: nat :: s'.held[(t, p)] == s.held[(t, p)] + Gifts(s, moves, t, p) + if p == o then 1 else 0
  {
    var s' := After(s, moves);
    var got := CallStands(s, moves, t);
    hide PcOf, After, DuringCall, Gifts;
    InsideIsNotIdle(PcOf(s'.pcs, t));
    o := got.value;
    assert (t, o) in s'.held;
    hide *;
    LeadsOn(START, s, moves);
    IsReachable(s');
    PointersAreCurrent(s', t, o);
  }

  // ---- What a thread does with its pointers ---------------------------------

  /** The thread has `more` pointers to the object more than before, and no other changed. */
  ghost predicate Changed(s: State, s': State, t: nat, o: nat, more: int) {
    forall u: nat, p: nat :: s'.held[(u, p)] == s.held[(u, p)] + if (u, p) == (t, o) then more else 0
  }

  /** A pointer to the object went from the one thread to the other. */
  ghost predicate HandedOver(s: State, s': State, t: nat, u: nat, o: nat) {
    forall v: nat, p: nat ::
      s'.held[(v, p)] + (if (v, p) == (t, o) then 1 else 0) == s.held[(v, p)] + if (v, p) == (u, o) then 1 else 0
  }

  /** A copy is one pointer more, a release one less, and a pointer handed over changes hands. */
  lemma PointersMove(s: State, t: nat, u: nat, o: nat)
    requires Reachable(s) && PcOf(s.pcs, t).Idle? && (t, o) in s.held && !PcOf(s.pcs, u).Ended? && u != t
    ensures Changed(s, Next(s, Copy(t, o)), t, o, 1) && Changed(s, Next(s, Release(t, o)), t, o, -1)
    ensures HandedOver(s, Next(s, Give(t, u, o)), t, u, o)
  {
    AlwaysAccounts(s);
    hide Reachable, Changed, HandedOver;
    CopiesOne(s, t, o);
    ReleasesOne(s, t, o);
    HandsOne(s, t, u, o);
  }

  lemma CopiesOne(s: State, t: nat, o: nat)
    requires PcOf(s.pcs, t).Idle? && (t, o) in s.held
    ensures Changed(s, Next(s, Copy(t, o)), t, o, 1)
  {
    hide PcOf;
  }

  lemma ReleasesOne(s: State, t: nat, o: nat)
    requires Accounts(s) && PcOf(s.pcs, t).Idle? && (t, o) in s.held
    ensures Changed(s, Next(s, Release(t, o)), t, o, -1)
  {
    hide PcOf, Put, Referenced, Works, DeletedOnce;
  }

  lemma HandsOne(s: State, t: nat, u: nat, o: nat)
    requires PcOf(s.pcs, t).Idle? && (t, o) in s.held && !PcOf(s.pcs, u).Ended? && u != t
    ensures HandedOver(s, Next(s, Give(t, u, o)), t, u, o)
  {
    hide PcOf;
  }

  /** A waiter may wake for no reason, and then looks at `mgr_exists` again, with the mutex. */
  lemma WakesForNothing(s: State, t: nat)
    requires PcOf(s.pcs, t).Waiting?
    ensures Next(s, Spurious(t)) == s.(pcs := Put(s.pcs, t, WantExists))
  {
  }
}
