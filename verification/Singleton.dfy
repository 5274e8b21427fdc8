/**
 * The dynamic singleton of src/rpcz/manager_dyn_singleton_helper: a weak
 * pointer, two mutexes, a condition variable and a deleter, used by any number
 * of threads. A run is any sequence of moves; a move that is not possible does
 * nothing.
 */
module Singleton {
  import opened Wrappers

  /** A manager object, from the start of its construction to the end of its destruction. */
  datatype Life = Building | Alive | Dying | Dead

  /** Where a thread is; `Idle` is outside the helper. */
  datatype Pc =
    | Idle
    | FastFailed                 // the weak pointer gave nothing; wants mgr_wptr_mtx
    | Locked                     // has mgr_wptr_mtx, about to try the weak pointer again
    | WantExists                 // wants mgr_exists_mtx, first or again after a wait
    | Checking                   // has mgr_exists_mtx, at the head of the wait loop
    | Waiting(notified: bool)    // in cond.wait
    | SawFree                    // left the loop
    | Marked                     // has set mgr_exists
    | Reserved                   // start_construction has returned
    | Constructing(obj: nat)
    | Constructed(obj: nat)      // holds the pointer, has not published it
    | Leaving                    // about to return the pointer
    | Deleting(obj: nat)         // in the deleter's delete, joining the crew
    | Deleted(obj: nat)          // wants mgr_exists_mtx
    | Finishing                  // in finish_destruction
    | Cleared                    // has cleared mgr_exists
    | Notified
    | Ended                      // the thread has come to its end

  type Pcs = map<nat, Pc>

  /**
   * `held` has one entry for every shared pointer a thread has, apart from the
   * weak one. `crews` has for every object the threads that it starts when it
   * is constructed, and that its destructor joins.
   */
  datatype State = State(
    pcs: Pcs,
    objs: seq<Life>,
    crews: seq<set<nat>>,
    held: multiset<(nat, nat)>,
    wptr: Option<nat>,
    wptrMtx: Option<nat>,
    existsMtx: Option<nat>,
    mgrExists: bool)

  /** What is open in a step: the waiter that a notification wakes, and the threads that a new manager starts. */
  datatype Choice = Choice(waiter: nat, team: set<nat>)

  /** What a thread does next. */
  datatype Move =
    | Get(t: nat)
    | Copy(t: nat, obj: nat)
    | Give(t: nat, to: nat, obj: nat)
    | Release(t: nat, obj: nat)
    | Advance(t: nat, pick: Choice)
    | Spurious(t: nat)
    | End(t: nat)

  const START := State(map[], [], [], multiset{}, None, None, None, false)

  function PcOf(pcs: Pcs, t: nat): Pc {
    if t in pcs then pcs[t] else Idle
  }

  function Put(pcs: Pcs, t: nat, pc: Pc): (pcs': Pcs)
    ensures forall u :: PcOf(pcs', u) == if u == t then pc else PcOf(pcs, u)
  {
    pcs[t := pc]
  }

  /** Some shared pointer to the object is left. */
  ghost predicate Referenced(held: multiset<(nat, nat)>, obj: nat) {
    exists u: nat :: (u, obj) in held
  }

  /** What locking the weak pointer gives. */
  ghost predicate Lockable(s: State) {
    s.wptr.Some? && Referenced(s.held, s.wptr.value)
  }

  ghost predicate NobodyWaits(pcs: Pcs) {
    forall u: nat :: PcOf(pcs, u) != Waiting(false)
  }

  /** A thread inside the helper or in the destructor. */
  predicate Inside(pc: Pc) {
    !pc.Idle? && !pc.Ended?
  }

  /** A thread inside the helper can take its next step. */
  predicate CanAdvance(s: State, t: nat) {
    var pc := PcOf(s.pcs, t);
    && Inside(pc)
    && (pc.FastFailed? ==> s.wptrMtx.None?)
    && (pc.WantExists? || pc.Deleted? ==> s.existsMtx.None?)
    && (pc.Waiting? ==> pc.notified)
    && (pc.Constructing? || pc.Deleting? ==> pc.obj < |s.objs|)
    && (pc.Deleting? ==> pc.obj < |s.crews| && AllEnded(s.pcs, s.crews[pc.obj]))
  }

  /** The threads can be joined. */
  predicate AllEnded(pcs: Pcs, crew: set<nat>) {
    forall u :: u in crew ==> PcOf(pcs, u).Ended?
  }

  /** Of the threads chosen, those that are new: they have not been in the helper nor started by a manager. */
  function Started(s: State, t: nat, team: set<nat>): set<nat> {
    set u | u in team && u != t && u !in s.pcs && forall o :: 0 <= o < |s.crews| ==> u !in s.crews[o]
  }

  ghost function AdvanceFrom(s: State, t: nat, pick: Choice): State
    requires CanAdvance(s, t)
  {
    match PcOf(s.pcs, t)
    case FastFailed => s.(pcs := Put(s.pcs, t, Locked), wptrMtx := Some(t))
    case Locked =>
      if Lockable(s) then s.(pcs := Put(s.pcs, t, Leaving), held := s.held + multiset{(t, s.wptr.value)})
      else s.(pcs := Put(s.pcs, t, WantExists))
    case WantExists => s.(pcs := Put(s.pcs, t, Checking), existsMtx := Some(t))
    case Checking =>
      if s.mgrExists then s.(pcs := Put(s.pcs, t, Waiting(false)), existsMtx := None)
      else s.(pcs := Put(s.pcs, t, SawFree))
    case Waiting(_) => s.(pcs := Put(s.pcs, t, WantExists))
    case SawFree => s.(pcs := Put(s.pcs, t, Marked), mgrExists := true)
    case Marked => s.(pcs := Put(s.pcs, t, Reserved), existsMtx := None)
    case Reserved =>
      s.(pcs := Put(s.pcs, t, Constructing(|s.objs|)), objs := s.objs + [Building],
         crews := s.crews + [Started(s, t, pick.team)])
    case Constructing(o) =>
      s.(pcs := Put(s.pcs, t, Constructed(o)), objs := s.objs[o := Alive], held := s.held + multiset{(t, o)})
    case Constructed(o) => s.(pcs := Put(s.pcs, t, Leaving), wptr := Some(o))
    case Leaving => s.(pcs := Put(s.pcs, t, Idle), wptrMtx := None)
    case Deleting(o) => s.(pcs := Put(s.pcs, t, Deleted(o)), objs := s.objs[o := Dead])
    case Deleted(_) => s.(pcs := Put(s.pcs, t, Finishing), existsMtx := Some(t))
    case Finishing => s.(pcs := Put(s.pcs, t, Cleared), mgrExists := false)
    case Cleared =>
      if PcOf(s.pcs, pick.waiter) == Waiting(false)
      then s.(pcs := Put(Put(s.pcs, pick.waiter, Waiting(true)), t, Notified))
      else if NobodyWaits(s.pcs) then s.(pcs := Put(s.pcs, t, Notified))
      else s
    case Notified => s.(pcs := Put(s.pcs, t, Idle), existsMtx := None)
    case Idle => s
    case Ended => s
  }

  ghost function Dropped(s: State, t: nat, o: nat): State
    requires o < |s.objs|
  {
    var held := s.held - multiset{(t, o)};
    if Referenced(held, o) then s.(held := held)
    else s.(held := held, pcs := Put(s.pcs, t, Deleting(o)), objs := s.objs[o := Dying])
  }

  ghost function Next(s: State, move: Move): State {
    match move
    case Get(t) =>
      if !PcOf(s.pcs, t).Idle? then s
      else if Lockable(s) then s.(held := s.held + multiset{(t, s.wptr.value)})
      else s.(pcs := Put(s.pcs, t, FastFailed))
    case Copy(t, o) =>
      if PcOf(s.pcs, t).Idle? && (t, o) in s.held then s.(held := s.held + multiset{(t, o)}) else s
    case Give(t, u, o) =>
      if PcOf(s.pcs, t).Idle? && (t, o) in s.held && !PcOf(s.pcs, u).Ended?
      then s.(held := s.held - multiset{(t, o)} + multiset{(u, o)})
      else s
    case Release(t, o) =>
      if PcOf(s.pcs, t).Idle? && (t, o) in s.held && o < |s.objs| then Dropped(s, t, o) else s
    case Advance(t, pick) => if CanAdvance(s, t) then AdvanceFrom(s, t, pick) else s
    case Spurious(t) => if PcOf(s.pcs, t).Waiting? then s.(pcs := Put(s.pcs, t, WantExists)) else s
    case End(t) => if CanEnd(s, t) then s.(pcs := Put(s.pcs, t, Ended)) else s
  }

  /** A thread ends without pointers, and one that a manager started not before the destructor tells it to quit. */
  ghost predicate CanEnd(s: State, t: nat) {
    && PcOf(s.pcs, t).Idle? && (forall o: nat :: (t, o) !in s.held)
    && forall o :: 0 <= o < |s.crews| && t in s.crews[o] ==> o < |s.objs| && (s.objs[o] == Dying || s.objs[o] == Dead)
  }

  /** The state that a sequence of moves ends in. */
  ghost function After(s: State, moves: seq<Move>): State {
    if moves == [] then s else Next(After(s, moves[..|moves| - 1]), moves[|moves| - 1])
  }

  /** Some sequence of moves goes from the one state to the other. */
  ghost predicate Leads(s: State, s': State) {
    exists moves :: After(s, moves) == s'
  }

  /** A state of some run. */
  ghost predicate Reachable(s: State) {
    Leads(START, s)
  }

  // ---- Kinds of places ------------------------------------------------------

  predicate OnObject(pc: Pc) {
    pc.Constructing? || pc.Constructed? || pc.Deleting?
  }

  predicate Reserves(pc: Pc) {
    pc.Marked? || pc.Reserved?
  }

  predicate CleansUp(pc: Pc) {
    pc.Deleted? || pc.Finishing?
  }

  /** A thread that found no object, inside the wptr mutex. */
  predicate FoundNone(pc: Pc) {
    pc.WantExists? || pc.Checking? || pc.Waiting? || pc.SawFree? || pc.Marked? || pc.Reserved?
  }

  predicate Plain(pc: Pc) {
    pc.FastFailed? || pc.Locked? || pc.WantExists? || pc.Checking? || pc.Waiting? || pc.Marked?
    || pc.Leaving? || pc.Deleted? || pc.Notified?
  }

  /** What most steps have in common: only the thread's place, its pointers and the mutexes change. */
  lemma PlainStep(s: State, t: nat, pick: Choice)
    requires CanAdvance(s, t) && Plain(PcOf(s.pcs, t))
    ensures var s', pc, pc' := AdvanceFrom(s, t, pick), PcOf(s.pcs, t), PcOf(AdvanceFrom(s, t, pick).pcs, t);
      && s' == s.(pcs := Put(s.pcs, t, pc'), held := s'.held, wptrMtx := s'.wptrMtx, existsMtx := s'.existsMtx)
      && (pc.Locked? || s'.held == s.held)
      && Reserves(pc') == Reserves(pc) && CleansUp(pc') == CleansUp(pc)
      && !OnObject(pc') && !pc'.Cleared?
      && (FoundNone(pc') ==> FoundNone(pc) || (pc.Locked? && !Lockable(s)))
      && (pc'.SawFree? ==> !s.mgrExists) && (pc' == Waiting(false) ==> s.mgrExists)
  {
    hide Put, PcOf, Lockable, NobodyWaits, Started;
    match PcOf(s.pcs, t) {
      case Locked =>
      case Checking =>
      case _ =>
    }
  }

  // ---- Mutual exclusion -----------------------------------------------------

  predicate InWptrMtx(pc: Pc) {
    pc.Locked? || pc.WantExists? || pc.Checking? || pc.Waiting? || pc.SawFree? || pc.Marked?
    || pc.Reserved? || pc.Constructing? || pc.Constructed? || pc.Leaving?
  }

  predicate InExistsMtx(pc: Pc) {
    pc.Checking? || pc.SawFree? || pc.Marked? || pc.Finishing? || pc.Cleared? || pc.Notified?
  }

  /** A mutex is owned by exactly the threads that are between its lock and its unlock. */
  ghost predicate Exclusive(pcs: Pcs, wptrMtx: Option<nat>, existsMtx: Option<nat>) {
    && (forall t: nat :: InWptrMtx(PcOf(pcs, t)) <==> wptrMtx == Some(t))
    && (forall t: nat :: InExistsMtx(PcOf(pcs, t)) <==> existsMtx == Some(t))
  }

  /** The owner of a mutex after a thread that was inside it, or not, is inside it, or not. */
  predicate Handed(owner: Option<nat>, t: nat, was: bool, now: bool, owner': Option<nat>) {
    if was == now then owner' == owner else if now then owner.None? && owner' == Some(t) else owner'.None?
  }

  lemma PutExclusive(s: State, t: nat, pc: Pc, wptrMtx: Option<nat>, existsMtx: Option<nat>)
    requires Exclusive(s.pcs, s.wptrMtx, s.existsMtx)
    requires Handed(s.wptrMtx, t, InWptrMtx(PcOf(s.pcs, t)), InWptrMtx(pc), wptrMtx)
    requires Handed(s.existsMtx, t, InExistsMtx(PcOf(s.pcs, t)), InExistsMtx(pc), existsMtx)
    ensures Exclusive(Put(s.pcs, t, pc), wptrMtx, existsMtx)
  {
    hide Put, PcOf, InWptrMtx, InExistsMtx;
  }

  predicate KeepsMutexes(pc: Pc) {
    pc.Locked? || pc.Waiting? || pc.SawFree? || pc.Reserved? || pc.Constructing? || pc.Constructed? || pc.Deleting?
    || pc.Finishing? || pc.Idle?
  }

  lemma OwnersStay(s: State, t: nat, pick: Choice)
    requires CanAdvance(s, t) && KeepsMutexes(PcOf(s.pcs, t))
    ensures var s', pc' := AdvanceFrom(s, t, pick), PcOf(AdvanceFrom(s, t, pick).pcs, t);
      && s'.pcs == Put(s.pcs, t, pc') && s'.wptrMtx == s.wptrMtx && s'.existsMtx == s.existsMtx
      && InWptrMtx(pc') == InWptrMtx(PcOf(s.pcs, t)) && InExistsMtx(pc') == InExistsMtx(PcOf(s.pcs, t))
  {
    hide Put, PcOf, Lockable, NobodyWaits, Started;
  }

  lemma AdvanceExclusive(s: State, t: nat, pick: Choice)
    requires Exclusive(s.pcs, s.wptrMtx, s.existsMtx) && CanAdvance(s, t)
    ensures var s' := AdvanceFrom(s, t, pick); Exclusive(s'.pcs, s'.wptrMtx, s'.existsMtx)
  {
    hide Put, PcOf, Lockable, Exclusive;
    var s' := AdvanceFrom(s, t, pick);
    match PcOf(s.pcs, t) {
      case FastFailed => PutExclusive(s, t, Locked, Some(t), s.existsMtx);
      case WantExists => PutExclusive(s, t, Checking, s.wptrMtx, Some(t));
      case Deleted(_) => PutExclusive(s, t, Finishing, s.wptrMtx, Some(t));
      case Marked => PutExclusive(s, t, Reserved, s.wptrMtx, None);
      case Notified => PutExclusive(s, t, Idle, s.wptrMtx, None);
      case Leaving => PutExclusive(s, t, Idle, None, s.existsMtx);
      case Checking => PutExclusive(s, t, PcOf(s'.pcs, t), s.wptrMtx, s'.existsMtx);
      case Cleared =>
        if PcOf(s.pcs, pick.waiter) == Waiting(false) {
          PutExclusive(s, pick.waiter, Waiting(true), s.wptrMtx, s.existsMtx);
          PutExclusive(s.(pcs := Put(s.pcs, pick.waiter, Waiting(true))), t, Notified, s.wptrMtx, s.existsMtx);
        } else if NobodyWaits(s.pcs) {
          PutExclusive(s, t, Notified, s.wptrMtx, s.existsMtx);
        }
      case _ =>
        OwnersStay(s, t, pick);
        hide AdvanceFrom, InWptrMtx, InExistsMtx;
        PutExclusive(s, t, PcOf(s'.pcs, t), s.wptrMtx, s.existsMtx);
    }
  }

  lemma StepExclusive(s: State, move: Move)
    requires Exclusive(s.pcs, s.wptrMtx, s.existsMtx)
    ensures var s' := Next(s, move); Exclusive(s'.pcs, s'.wptrMtx, s'.existsMtx)
  {
    hide Put, PcOf, Lockable, Referenced, AdvanceFrom, Exclusive;
    match move
    case Advance(t, pick) => if CanAdvance(s, t) { AdvanceExclusive(s, t, pick); }
    case Give(_, _, _) =>
    case Copy(_, _) =>
    case _ =>
      if PcOf(s.pcs, move.t).Idle? || PcOf(s.pcs, move.t).Waiting? {
        PutExclusive(s, move.t, PcOf(Next(s, move).pcs, move.t), s.wptrMtx, s.existsMtx);
      }
  }

  // ---- Objects, threads and pointers ----------------------------------------

  /** A thread at work on an object. */
  predicate Works(pc: Pc, obj: nat) {
    pc == Constructing(obj) || pc == Constructed(obj) || pc == Deleting(obj)
  }

  /** What is going on with an object shows in its threads and pointers. */
  ghost predicate Accounted(pcs: Pcs, objs: seq<Life>, held: multiset<(nat, nat)>) {
    && (forall t: nat, o: nat :: Works(PcOf(pcs, t), o) ==> o < |objs|)
    && (forall t: nat, o: nat :: (t, o) in held ==> o < |objs|)
    && (forall t: nat, o: nat :: PcOf(pcs, t) == Constructed(o) ==> (t, o) in held)
    && (forall o: nat :: o < |objs| ==>
      && (objs[o] == Building <==> exists t: nat :: PcOf(pcs, t) == Constructing(o))
      && (objs[o] == Alive <==> Referenced(held, o))
      && (objs[o] == Dying <==> exists t: nat :: PcOf(pcs, t) == Deleting(o)))
  }

  /** No two threads are deleting the same object. */
  ghost predicate DeletedOnce(pcs: Pcs) {
    forall t: nat, u: nat :: PcOf(pcs, t).Deleting? && PcOf(pcs, u) == PcOf(pcs, t) ==> t == u
  }

  lemma PutAccounted(pcs: Pcs, objs: seq<Life>, held: multiset<(nat, nat)>, t: nat, pc: Pc)
    requires Accounted(pcs, objs, held)
    requires !OnObject(pc) && (OnObject(PcOf(pcs, t)) ==> PcOf(pcs, t).Constructed?)
    ensures Accounted(Put(pcs, t, pc), objs, held)
  {
    hide Put, PcOf, Referenced;
    var pcs' := Put(pcs, t, pc);
    forall o: nat
      ensures (exists u: nat :: PcOf(pcs', u) == Constructing(o)) <==> exists u: nat :: PcOf(pcs, u) == Constructing(o)
      ensures (exists u: nat :: PcOf(pcs', u) == Deleting(o)) <==> exists u: nat :: PcOf(pcs, u) == Deleting(o)
    {
      forall u: nat ensures PcOf(pcs', u) == Constructing(o) <==> PcOf(pcs, u) == Constructing(o) {
      }
      forall u: nat ensures PcOf(pcs', u) == Deleting(o) <==> PcOf(pcs, u) == Deleting(o) {
      }
    }
  }

  lemma HoldAccounted(pcs: Pcs, objs: seq<Life>, held: multiset<(nat, nat)>, t: nat, o: nat)
    requires Accounted(pcs, objs, held) && Referenced(held, o)
    ensures Accounted(pcs, objs, held + multiset{(t, o)})
  {
    hide PcOf, Works;
  }

  lemma BeginAccounted(pcs: Pcs, objs: seq<Life>, held: multiset<(nat, nat)>, t: nat)
    requires Accounted(pcs, objs, held) && !OnObject(PcOf(pcs, t))
    ensures Accounted(Put(pcs, t, Constructing(|objs|)), objs + [Building], held)
  {
    hide Put, PcOf;
    var n, pcs', objs' := |objs|, Put(pcs, t, Constructing(|objs|)), objs + [Building];
    assert PcOf(pcs', t) == Constructing(n);
    forall u: nat ensures PcOf(pcs', u) != Deleting(n) {
      assert u != t ==> !Works(PcOf(pcs, u), n);
    }
    forall o: nat | o < n
      ensures (exists u: nat :: PcOf(pcs', u) == Constructing(o)) <==> exists u: nat :: PcOf(pcs, u) == Constructing(o)
      ensures (exists u: nat :: PcOf(pcs', u) == Deleting(o)) <==> exists u: nat :: PcOf(pcs, u) == Deleting(o)
    {
      forall u: nat ensures PcOf(pcs', u) == Constructing(o) <==> PcOf(pcs, u) == Constructing(o) {
        assert PcOf(pcs, u) == Constructing(o) ==> u != t;
      }
      forall u: nat ensures PcOf(pcs', u) == Deleting(o) <==> PcOf(pcs, u) == Deleting(o) {
      }
    }
  }

  lemma BuiltAccounted(pcs: Pcs, objs: seq<Life>, held: multiset<(nat, nat)>, t: nat, o: nat)
    requires Accounted(pcs, objs, held) && PcOf(pcs, t) == Constructing(o) && o < |objs|
    requires forall u: nat :: PcOf(pcs, u).Constructing? ==> u == t
    ensures Accounted(Put(pcs, t, Constructed(o)), objs[o := Alive], held + multiset{(t, o)})
  {
    hide Put, PcOf;
    var pcs', held' := Put(pcs, t, Constructed(o)), held + multiset{(t, o)};
    assert (t, o) in held';
    assert objs[o] == Building;
    forall p: nat
      ensures (exists u: nat :: PcOf(pcs', u) == Deleting(p)) <==> exists u: nat :: PcOf(pcs, u) == Deleting(p)
    {
      forall u: nat ensures PcOf(pcs', u) == Deleting(p) <==> PcOf(pcs, u) == Deleting(p) {
      }
    }
    forall p: nat ensures p != o ==> (Referenced(held', p) <==> Referenced(held, p)) {
      forall u: nat ensures p != o ==> ((u, p) in held' <==> (u, p) in held) {
      }
    }
    forall u: nat, p: nat ensures (u, p) in held' <==> (u, p) in held || (u, p) == (t, o) {
    }
  }

  lemma DestroyedAccounted(pcs: Pcs, objs: seq<Life>, held: multiset<(nat, nat)>, t: nat, o: nat)
    requires Accounted(pcs, objs, held) && DeletedOnce(pcs) && PcOf(pcs, t) == Deleting(o) && o < |objs|
    ensures Accounted(Put(pcs, t, Deleted(o)), objs[o := Dead], held)
  {
    hide Put, PcOf, Referenced;
    var pcs' := Put(pcs, t, Deleted(o));
    assert objs[o] == Dying;
    forall p: nat
      ensures (exists u: nat :: PcOf(pcs', u) == Constructing(p)) <==> exists u: nat :: PcOf(pcs, u) == Constructing(p)
      ensures p != o ==> ((exists u: nat :: PcOf(pcs', u) == Deleting(p)) <==>
        exists u: nat :: PcOf(pcs, u) == Deleting(p))
    {
      forall u: nat ensures PcOf(pcs', u) == Constructing(p) <==> PcOf(pcs, u) == Constructing(p) {
      }
      forall u: nat ensures p != o ==> (PcOf(pcs', u) == Deleting(p) <==> PcOf(pcs, u) == Deleting(p)) {
      }
    }
    forall u: nat ensures PcOf(pcs', u) != Deleting(o) {
    }
  }

  /** One pointer fewer, and it was not the last. */
  lemma DropAccounted(pcs: Pcs, objs: seq<Life>, held: multiset<(nat, nat)>, t: nat, o: nat)
    requires Accounted(pcs, objs, held) && PcOf(pcs, t).Idle? && (t, o) in held
    requires Referenced(held - multiset{(t, o)}, o)
    ensures Accounted(pcs, objs, held - multiset{(t, o)})
  {
    hide PcOf;
    var held' := held - multiset{(t, o)};
    forall u: nat, p: nat ensures (u, p) in held' ==> (u, p) in held
      ensures (u, p) in held && (u, p) != (t, o) ==> (u, p) in held'
    {
    }
    forall p: nat ensures Referenced(held', p) <==> Referenced(held, p) {
    }
  }

  lemma LastDropAccounted(pcs: Pcs, objs: seq<Life>, held: multiset<(nat, nat)>, t: nat, o: nat)
    requires Accounted(pcs, objs, held) && PcOf(pcs, t).Idle? && (t, o) in held && o < |objs|
    requires !Referenced(held - multiset{(t, o)}, o)
    ensures objs[o] == Alive
    ensures Accounted(Put(pcs, t, Deleting(o)), objs[o := Dying], held - multiset{(t, o)})
  {
    hide Put, PcOf;
    var pcs', held' := Put(pcs, t, Deleting(o)), held - multiset{(t, o)};
    assert objs[o] == Alive && PcOf(pcs', t) == Deleting(o);
    forall u: nat, p: nat ensures (u, p) in held' ==> (u, p) in held
      ensures (u, p) in held && (u, p) != (t, o) ==> (u, p) in held'
    {
    }
    forall p: nat ensures p != o ==> (Referenced(held', p) <==> Referenced(held, p)) {
    }
    forall p: nat
      ensures (exists u: nat :: PcOf(pcs', u) == Constructing(p)) <==> exists u: nat :: PcOf(pcs, u) == Constructing(p)
      ensures p != o ==> ((exists u: nat :: PcOf(pcs', u) == Deleting(p)) <==>
        exists u: nat :: PcOf(pcs, u) == Deleting(p))
    {
      forall u: nat ensures PcOf(pcs', u) == Constructing(p) <==> PcOf(pcs, u) == Constructing(p) {
      }
      forall u: nat ensures p != o ==> (PcOf(pcs', u) == Deleting(p) <==> PcOf(pcs, u) == Deleting(p)) {
      }
    }
    forall u: nat ensures PcOf(pcs', u) == Constructed(o) ==> u != t && (u, o) in held {
    }
  }

  lemma GiveAccounted(pcs: Pcs, objs: seq<Life>, held: multiset<(nat, nat)>, t: nat, u: nat, o: nat)
    requires Accounted(pcs, objs, held) && PcOf(pcs, t).Idle? && (t, o) in held
    ensures Accounted(pcs, objs, held - multiset{(t, o)} + multiset{(u, o)})
  {
    hide PcOf;
    var held' := held - multiset{(t, o)} + multiset{(u, o)};
    assert (u, o) in held';
    forall v: nat, p: nat ensures (v, p) in held' ==> (v, p) in held || (v, p) == (u, o)
      ensures (v, p) in held && (v, p) != (t, o) ==> (v, p) in held'
    {
    }
    forall p: nat ensures Referenced(held', p) <==> Referenced(held, p) {
    }
  }

  ghost predicate Accounts(s: State) {
    Accounted(s.pcs, s.objs, s.held) && DeletedOnce(s.pcs)
  }

  lemma PutDeletedOnce(pcs: Pcs, t: nat, pc: Pc)
    requires DeletedOnce(pcs)
    requires pc.Deleting? ==> forall u: nat :: PcOf(pcs, u) != pc
    ensures DeletedOnce(Put(pcs, t, pc))
  {
    hide Put, PcOf;
  }

  lemma OnlyConstructor(s: State, t: nat)
    requires Exclusive(s.pcs, s.wptrMtx, s.existsMtx) && InWptrMtx(PcOf(s.pcs, t))
    ensures forall u: nat :: InWptrMtx(PcOf(s.pcs, u)) ==> u == t
    ensures forall u: nat :: PcOf(s.pcs, u).Constructing? ==> u == t
  {
    hide PcOf;
    forall u: nat ensures InWptrMtx(PcOf(s.pcs, u)) ==> u == t ensures PcOf(s.pcs, u).Constructing? ==> u == t {
      assert s.wptrMtx == Some(t);
    }
  }

  lemma AdvanceAccounts(s: State, t: nat, pick: Choice)
    requires Exclusive(s.pcs, s.wptrMtx, s.existsMtx) && Accounts(s) && CanAdvance(s, t)
    ensures Accounts(AdvanceFrom(s, t, pick))
  {
    hide Put, PcOf, Exclusive, Accounted, DeletedOnce, NobodyWaits;
    var s' := AdvanceFrom(s, t, pick);
    match PcOf(s.pcs, t) {
      case Locked =>
        PutDeletedOnce(s.pcs, t, PcOf(s'.pcs, t));
        PutAccounted(s.pcs, s.objs, s.held, t, PcOf(s'.pcs, t));
        if Lockable(s) {
          HoldAccounted(s'.pcs, s.objs, s.held, t, s.wptr.value);
        }
      case Reserved =>
        PutDeletedOnce(s.pcs, t, Constructing(|s.objs|));
        BeginAccounted(s.pcs, s.objs, s.held, t);
      case Constructing(o) =>
        OnlyConstructor(s, t);
        PutDeletedOnce(s.pcs, t, Constructed(o));
        BuiltAccounted(s.pcs, s.objs, s.held, t, o);
      case Deleting(o) =>
        PutDeletedOnce(s.pcs, t, Deleted(o));
        DestroyedAccounted(s.pcs, s.objs, s.held, t, o);
      case Cleared =>
        var woken :=
          if PcOf(s.pcs, pick.waiter) == Waiting(false) then Put(s.pcs, pick.waiter, Waiting(true)) else s.pcs;
        PutDeletedOnce(s.pcs, pick.waiter, Waiting(true));
        if PcOf(s.pcs, pick.waiter) == Waiting(false) {
          PutAccounted(s.pcs, s.objs, s.held, pick.waiter, Waiting(true));
        }
        PutDeletedOnce(woken, t, Notified);
        PutAccounted(woken, s.objs, s.held, t, Notified);
      case _ =>
        PutDeletedOnce(s.pcs, t, PcOf(s'.pcs, t));
        PutAccounted(s.pcs, s.objs, s.held, t, PcOf(s'.pcs, t));
    }
  }

  lemma DroppedAccounts(s: State, t: nat, o: nat)
    requires Accounts(s) && PcOf(s.pcs, t).Idle? && (t, o) in s.held && o < |s.objs|
    ensures Accounts(Dropped(s, t, o))
  {
    assert s.objs[o] == Alive && forall u: nat :: PcOf(s.pcs, u) != Deleting(o) by { HeldIsReferenced(s.held, t, o); }
    hide Put, PcOf, Accounted, DeletedOnce, Referenced;
    if Referenced(s.held - multiset{(t, o)}, o) {
      DropAccounted(s.pcs, s.objs, s.held, t, o);
    } else {
      PutDeletedOnce(s.pcs, t, Deleting(o));
      LastDropAccounted(s.pcs, s.objs, s.held, t, o);
    }
  }

  lemma StepAccounts(s: State, move: Move)
    requires Exclusive(s.pcs, s.wptrMtx, s.existsMtx) && Accounts(s)
    ensures Accounts(Next(s, move))
  {
    hide Put, PcOf, Exclusive, Accounted, DeletedOnce, AdvanceFrom, Referenced, Dropped;
    match move
    case Advance(t, pick) => if CanAdvance(s, t) { AdvanceAccounts(s, t, pick); }
    case Get(t) =>
      if Lockable(s) {
        HoldAccounted(s.pcs, s.objs, s.held, t, s.wptr.value);
      } else if PcOf(s.pcs, t).Idle? {
        PutDeletedOnce(s.pcs, t, FastFailed);
        PutAccounted(s.pcs, s.objs, s.held, t, FastFailed);
      }
    case Copy(t, o) =>
      if (t, o) in s.held {
        assert Referenced(s.held, o) by { HeldIsReferenced(s.held, t, o); }
        HoldAccounted(s.pcs, s.objs, s.held, t, o);
      }
    case Give(t, u, o) => if PcOf(s.pcs, t).Idle? && (t, o) in s.held { GiveAccounted(s.pcs, s.objs, s.held, t, u, o); }
    case Release(t, o) =>
      if PcOf(s.pcs, t).Idle? && (t, o) in s.held && o < |s.objs| { DroppedAccounts(s, t, o); }
    case Spurious(t) =>
      if PcOf(s.pcs, t).Waiting? {
        PutDeletedOnce(s.pcs, t, WantExists);
        PutAccounted(s.pcs, s.objs, s.held, t, WantExists);
      }
    case End(t) =>
      if PcOf(s.pcs, t).Idle? {
        PutDeletedOnce(s.pcs, t, Ended);
        PutAccounted(s.pcs, s.objs, s.held, t, Ended);
      }
  }

  lemma HeldIsReferenced(held: multiset<(nat, nat)>, t: nat, o: nat)
    requires (t, o) in held
    ensures Referenced(held, o)
  {
  }

  // ---- Claims ---------------------------------------------------------------

  /** Everything that keeps another manager from being built. */
  datatype Claim = Reservation(thread: nat) | Object(obj: nat) | Cleanup(thread: nat)

  predicate Claims(pcs: Pcs, objs: seq<Life>, c: Claim) {
    match c
    case Reservation(t) => PcOf(pcs, t).Marked? || PcOf(pcs, t).Reserved?
    case Object(o) => o < |objs| && objs[o] != Dead
    case Cleanup(t) => PcOf(pcs, t).Deleted? || PcOf(pcs, t).Finishing?
  }

  /** There is at most one claim, and `mgr_exists` says whether there is one. */
  ghost predicate Claimed(pcs: Pcs, objs: seq<Life>, mgrExists: bool) {
    && (forall c, d :: Claims(pcs, objs, c) && Claims(pcs, objs, d) ==> c == d)
    && (mgrExists <==> exists c :: Claims(pcs, objs, c))
    && (forall t: nat :: PcOf(pcs, t).SawFree? ==> !mgrExists)
  }

  /** A step that puts one claim in place of another, or creates or drops one. */
  lemma Reclaimed(s: State, s': State, old': Option<Claim>, new': Option<Claim>)
    requires Claimed(s.pcs, s.objs, s.mgrExists)
    requires if old'.Some? then Claims(s.pcs, s.objs, old'.value) else !s.mgrExists
    requires forall c :: Claims(s'.pcs, s'.objs, c) <==>
      new' == Some(c) || (Claims(s.pcs, s.objs, c) && old' != Some(c))
    requires s'.mgrExists <==> new'.Some?
    requires s'.mgrExists ==> forall t: nat :: !PcOf(s'.pcs, t).SawFree?
    ensures Claimed(s'.pcs, s'.objs, s'.mgrExists)
  {
    hide Claims;
  }

  lemma SameClaims(s: State, s': State)
    requires Claimed(s.pcs, s.objs, s.mgrExists)
    requires forall c :: Claims(s'.pcs, s'.objs, c) <==> Claims(s.pcs, s.objs, c)
    requires s'.mgrExists == s.mgrExists
    requires s'.mgrExists ==> forall t: nat :: !PcOf(s'.pcs, t).SawFree?
    ensures Claimed(s'.pcs, s'.objs, s'.mgrExists)
  {
    hide Claims;
  }

  /** Moving a thread changes no claim but its own. */
  lemma PutClaims(pcs: Pcs, objs: seq<Life>, t: nat, pc: Pc)
    ensures forall c :: c != Reservation(t) && c != Cleanup(t) ==>
      (Claims(Put(pcs, t, pc), objs, c) <==> Claims(pcs, objs, c))
    ensures Claims(Put(pcs, t, pc), objs, Reservation(t)) <==> Reserves(pc)
    ensures Claims(Put(pcs, t, pc), objs, Cleanup(t)) <==> CleansUp(pc)
    ensures Claims(pcs, objs, Reservation(t)) <==> Reserves(PcOf(pcs, t))
    ensures Claims(pcs, objs, Cleanup(t)) <==> CleansUp(PcOf(pcs, t))
  {
    hide Put, PcOf;
  }

  /** A life that changes changes no claim but its own. */
  lemma LifeClaims(pcs: Pcs, objs: seq<Life>, objs': seq<Life>, o: nat)
    requires |objs| <= |objs'| && o < |objs'|
    requires forall p: nat :: p < |objs'| && p != o ==> p < |objs| && objs'[p] == objs[p]
    ensures forall c :: c != Object(o) ==> (Claims(pcs, objs', c) <==> Claims(pcs, objs, c))
    ensures Claims(pcs, objs', Object(o)) <==> objs'[o] != Dead
    ensures Claims(pcs, objs, Object(o)) <==> o < |objs| && objs[o] != Dead
  {
    hide PcOf;
  }

  lemma PutClaimed(s: State, t: nat, pc: Pc)
    requires Claimed(s.pcs, s.objs, s.mgrExists)
    requires Reserves(pc) == Reserves(PcOf(s.pcs, t)) && CleansUp(pc) == CleansUp(PcOf(s.pcs, t))
    requires pc.SawFree? ==> !s.mgrExists
    ensures Claimed(Put(s.pcs, t, pc), s.objs, s.mgrExists)
  {
    PutClaims(s.pcs, s.objs, t, pc);
    hide Put, PcOf, Claims, Reserves, CleansUp;
    SameClaims(s, s.(pcs := Put(s.pcs, t, pc)));
  }

  lemma LifeClaimed(s: State, o: nat, life: Life)
    requires Claimed(s.pcs, s.objs, s.mgrExists)
    requires o < |s.objs| && life != Dead && s.objs[o] != Dead
    ensures Claimed(s.pcs, s.objs[o := life], s.mgrExists)
  {
    LifeClaims(s.pcs, s.objs, s.objs[o := life], o);
    hide PcOf, Claims;
    SameClaims(s, s.(objs := s.objs[o := life]));
  }

  /** The steps at which a claim comes, goes, or changes hands. */
  lemma ReclaimSteps(s: State, t: nat, pick: Choice)
    requires Exclusive(s.pcs, s.wptrMtx, s.existsMtx) && Claimed(s.pcs, s.objs, s.mgrExists) && Accounts(s)
    requires CanAdvance(s, t)
    requires var pc := PcOf(s.pcs, t); pc.SawFree? || pc.Reserved? || pc.Deleting? || pc.Finishing?
    ensures var s' := AdvanceFrom(s, t, pick); Claimed(s'.pcs, s'.objs, s'.mgrExists)
  {
    var s' := AdvanceFrom(s, t, pick);
    assert PcOf(s.pcs, t).SawFree? ==> forall u: nat :: PcOf(s.pcs, u).SawFree? ==> u == t by {
      if PcOf(s.pcs, t).SawFree? {
        assert s.existsMtx == Some(t);
      }
    }
    assert PcOf(s.pcs, t).Deleting? ==> s.objs[PcOf(s.pcs, t).obj] == Dying;
    PutClaims(s.pcs, s.objs, t, PcOf(s'.pcs, t));
    hide Put, PcOf, Exclusive, Accounted, DeletedOnce, Claims;
    match PcOf(s.pcs, t) {
      case SawFree => Reclaimed(s, s', None, Some(Reservation(t)));
      case Reserved =>
        LifeClaims(s'.pcs, s.objs, s'.objs, |s.objs|);
        Reclaimed(s, s', Some(Reservation(t)), Some(Object(|s.objs|)));
      case Deleting(o) =>
        LifeClaims(s'.pcs, s.objs, s'.objs, o);
        Reclaimed(s, s', Some(Object(o)), Some(Cleanup(t)));
      case Finishing => Reclaimed(s, s', Some(Cleanup(t)), None);
    }
  }

  lemma AdvanceClaimed(s: State, t: nat, pick: Choice)
    requires Exclusive(s.pcs, s.wptrMtx, s.existsMtx) && Claimed(s.pcs, s.objs, s.mgrExists) && Accounts(s)
    requires CanAdvance(s, t)
    ensures var s' := AdvanceFrom(s, t, pick); Claimed(s'.pcs, s'.objs, s'.mgrExists)
  {
    assert PcOf(s.pcs, t).Constructing? ==> s.objs[PcOf(s.pcs, t).obj] == Building;
    hide Put, PcOf, Exclusive, Accounted, DeletedOnce, Claimed;
    var s' := AdvanceFrom(s, t, pick);
    match PcOf(s.pcs, t) {
      case SawFree => ReclaimSteps(s, t, pick);
      case Reserved => ReclaimSteps(s, t, pick);
      case Deleting(o) => ReclaimSteps(s, t, pick);
      case Finishing => ReclaimSteps(s, t, pick);
      case Constructing(o) =>
        PutClaimed(s, t, Constructed(o));
        LifeClaimed(s.(pcs := s'.pcs), o, Alive);
      case Cleared =>
        var woken :=
          if PcOf(s.pcs, pick.waiter) == Waiting(false) then Put(s.pcs, pick.waiter, Waiting(true)) else s.pcs;
        if PcOf(s.pcs, pick.waiter) == Waiting(false) {
          PutClaimed(s, pick.waiter, Waiting(true));
        }
        PutClaimed(s.(pcs := woken), t, Notified);
      case Constructed(_) => PutClaimed(s, t, Leaving);
      case _ =>
        PlainStep(s, t, pick);
        hide AdvanceFrom, Reserves, CleansUp;
        PutClaimed(s, t, PcOf(s'.pcs, t));
    }
  }

  lemma StepClaimed(s: State, move: Move)
    requires Exclusive(s.pcs, s.wptrMtx, s.existsMtx) && Claimed(s.pcs, s.objs, s.mgrExists) && Accounts(s)
    ensures var s' := Next(s, move); Claimed(s'.pcs, s'.objs, s'.mgrExists)
  {
    hide Put, PcOf, Exclusive, Accounts, AdvanceFrom, Lockable, Dropped, Claimed;
    match move
    case Advance(t, pick) => if CanAdvance(s, t) { AdvanceClaimed(s, t, pick); }
    case Get(t) => if PcOf(s.pcs, t).Idle? { PutClaimed(s, t, FastFailed); }
    case Release(t, o) =>
      if PcOf(s.pcs, t).Idle? && (t, o) in s.held && o < |s.objs| { ReleaseClaimed(s, t, o); }
    case Spurious(t) => if PcOf(s.pcs, t).Waiting? { PutClaimed(s, t, WantExists); }
    case End(t) => if PcOf(s.pcs, t).Idle? { PutClaimed(s, t, Ended); }
    case _ =>
  }

  lemma ReleaseClaimed(s: State, t: nat, o: nat)
    requires Claimed(s.pcs, s.objs, s.mgrExists) && Accounts(s)
    requires PcOf(s.pcs, t).Idle? && (t, o) in s.held && o < |s.objs|
    ensures var s' := Dropped(s, t, o); Claimed(s'.pcs, s'.objs, s'.mgrExists)
  {
    HeldIsReferenced(s.held, t, o);
    assert s.objs[o] == Alive;
    hide Put, PcOf, Accounts, Referenced, Claimed;
    PutClaimed(s, t, Deleting(o));
    LifeClaimed(s.(pcs := Put(s.pcs, t, Deleting(o))), o, Dying);
  }

  // ---- The weak pointer and the waiters -------------------------------------

  /** A live object is the one the weak pointer points to, or is about to be. */
  ghost predicate Published(pcs: Pcs, objs: seq<Life>, wptr: Option<nat>) {
    forall o: nat :: o < |objs| && objs[o] == Alive && wptr != Some(o) ==>
      exists t: nat :: PcOf(pcs, t) == Constructed(o)
  }

  /** While such a thread waits its turn, there is no object to find. */
  ghost predicate NoneToFind(pcs: Pcs, objs: seq<Life>) {
    forall t: nat, o: nat :: FoundNone(PcOf(pcs, t)) && o < |objs| ==> objs[o] == Dying || objs[o] == Dead
  }

  /** A waiter nobody has notified will be: the reason to wait stands, or a notification is due. */
  ghost predicate WakeupDue(pcs: Pcs, mgrExists: bool) {
    forall t: nat :: PcOf(pcs, t) == Waiting(false) ==> mgrExists || exists u: nat :: PcOf(pcs, u).Cleared?
  }

  /** Before it is published, an object is known only to the thread that constructed it. */
  ghost predicate Private(pcs: Pcs, objs: seq<Life>, held: multiset<(nat, nat)>, wptr: Option<nat>) {
    && (wptr.Some? ==> wptr.value < |objs|)
    && (forall t: nat, o: nat :: PcOf(pcs, t) == Constructing(o) || PcOf(pcs, t) == Constructed(o) ==> wptr != Some(o))
    && (forall t: nat, u: nat, o: nat :: PcOf(pcs, t) == Constructed(o) && (u, o) in held ==> u == t)
  }

  ghost predicate Inv(s: State) {
    && Exclusive(s.pcs, s.wptrMtx, s.existsMtx)
    && Accounts(s)
    && Claimed(s.pcs, s.objs, s.mgrExists)
    && Published(s.pcs, s.objs, s.wptr)
    && NoneToFind(s.pcs, s.objs)
    && WakeupDue(s.pcs, s.mgrExists)
    && Private(s.pcs, s.objs, s.held, s.wptr)
  }

  lemma PutPublished(s: State, t: nat, pc: Pc)
    requires Published(s.pcs, s.objs, s.wptr) && !PcOf(s.pcs, t).Constructed?
    ensures Published(Put(s.pcs, t, pc), s.objs, s.wptr)
  {
    hide Put, PcOf;
    var pcs' := Put(s.pcs, t, pc);
    forall o: nat | o < |s.objs| && s.objs[o] == Alive && s.wptr != Some(o)
      ensures exists u: nat :: PcOf(pcs', u) == Constructed(o)
    {
      var u: nat :| PcOf(s.pcs, u) == Constructed(o);
      assert PcOf(pcs', u) == Constructed(o);
    }
  }

  /** Two objects that are not dead are the same one. */
  lemma OnlyObject(s: State, o: nat, p: nat)
    requires Claimed(s.pcs, s.objs, s.mgrExists)
    requires o < |s.objs| && s.objs[o] != Dead && p < |s.objs| && s.objs[p] != Dead
    ensures o == p && s.mgrExists
  {
    hide PcOf;
    assert Claims(s.pcs, s.objs, Object(o)) && Claims(s.pcs, s.objs, Object(p));
  }

  lemma LifePublished(s: State, o: nat, life: Life)
    requires Published(s.pcs, s.objs, s.wptr) && o < |s.objs|
    requires life == Alive ==> exists t: nat :: PcOf(s.pcs, t) == Constructed(o)
    ensures Published(s.pcs, s.objs[o := life], s.wptr)
  {
    hide PcOf;
  }

  lemma NotifyPublished(s: State, t: nat, pick: Choice)
    requires Published(s.pcs, s.objs, s.wptr) && CanAdvance(s, t) && PcOf(s.pcs, t).Cleared?
    ensures var s' := AdvanceFrom(s, t, pick); Published(s'.pcs, s'.objs, s'.wptr)
  {
    hide Put, PcOf, Published, NobodyWaits, Inside;
    var s' := s;
    if PcOf(s.pcs, pick.waiter) == Waiting(false) {
      PutPublished(s, pick.waiter, Waiting(true));
      s' := s.(pcs := Put(s.pcs, pick.waiter, Waiting(true)));
    }
    PutPublished(s', t, Notified);
  }

  lemma AdvancePublished(s: State, t: nat, pick: Choice)
    requires Inv(s) && CanAdvance(s, t)
    ensures var s' := AdvanceFrom(s, t, pick); Published(s'.pcs, s'.objs, s'.wptr)
  {
    var s' := AdvanceFrom(s, t, pick);
    if PcOf(s.pcs, t).Constructed? {
      PublishPublished(s, t, PcOf(s.pcs, t).obj);
    } else {
      hide Put, PcOf, Exclusive, Accounts, Claimed, Published, NoneToFind, WakeupDue, Private, Lockable;
      match PcOf(s.pcs, t) {
        case Constructing(o) =>
          PutPublished(s, t, Constructed(o));
          assert PcOf(s'.pcs, t) == Constructed(o);
          LifePublished(s.(pcs := s'.pcs), o, Alive);
        case Deleting(o) =>
          PutPublished(s, t, Deleted(o));
          LifePublished(s.(pcs := s'.pcs), o, Dead);
        case Reserved =>
          PutPublished(s, t, Constructing(|s.objs|));
          GrowPublished(s.(pcs := s'.pcs));
        case Cleared => NotifyPublished(s, t, pick);
        case SawFree => PutPublished(s, t, Marked);
        case Finishing => PutPublished(s, t, Cleared);
        case _ =>
          PlainStep(s, t, pick);
          hide AdvanceFrom, Reserves, CleansUp, FoundNone, OnObject;
          PutPublished(s, t, PcOf(s'.pcs, t));
      }
    }
  }

  lemma PublishPublished(s: State, t: nat, o: nat)
    requires Inv(s) && PcOf(s.pcs, t) == Constructed(o)
    ensures Published(Put(s.pcs, t, Leaving), s.objs, Some(o))
  {
    assert (t, o) in s.held;
    HeldIsReferenced(s.held, t, o);
    assert o < |s.objs| && s.objs[o] == Alive;
    hide Put, PcOf, Exclusive, Accounts, NoneToFind, WakeupDue, Private;
    forall p: nat | p < |s.objs| && s.objs[p] == Alive ensures p == o {
      OnlyObject(s, o, p);
    }
  }

  lemma GrowPublished(s: State)
    requires Published(s.pcs, s.objs, s.wptr)
    ensures Published(s.pcs, s.objs + [Building], s.wptr)
  {
    hide PcOf;
  }

  lemma PutNoneToFind(s: State, t: nat, pc: Pc)
    requires NoneToFind(s.pcs, s.objs)
    requires FoundNone(pc) ==> FoundNone(PcOf(s.pcs, t)) || forall o: nat :: o < |s.objs| ==>
      s.objs[o] == Dying || s.objs[o] == Dead
    ensures NoneToFind(Put(s.pcs, t, pc), s.objs)
  {
    hide Put, PcOf;
  }

  /** Inside the wptr mutex, with no object to lock, there is none under construction or alive. */
  lemma FailedLock(s: State, t: nat)
    requires Inv(s) && PcOf(s.pcs, t).Locked? && !Lockable(s)
    ensures forall o: nat :: o < |s.objs| ==> s.objs[o] == Dying || s.objs[o] == Dead
  {
    OnlyConstructor(s, t);
    hide PcOf, Put;
    forall u: nat ensures !PcOf(s.pcs, u).Constructing? && !PcOf(s.pcs, u).Constructed? {
      assert InWptrMtx(PcOf(s.pcs, u)) ==> u == t;
    }
    forall o: nat | o < |s.objs| ensures s.objs[o] == Dying || s.objs[o] == Dead {
      assert s.objs[o] != Building;
      assert s.objs[o] == Alive ==> Referenced(s.held, o) && s.wptr == Some(o);
    }
  }

  lemma OnlyFinder(s: State, t: nat)
    requires Exclusive(s.pcs, s.wptrMtx, s.existsMtx) && InWptrMtx(PcOf(s.pcs, t))
    ensures forall u: nat :: FoundNone(PcOf(s.pcs, u)) ==> u == t
  {
    OnlyConstructor(s, t);
  }

  lemma NotifyNoneToFind(s: State, t: nat, pick: Choice)
    requires NoneToFind(s.pcs, s.objs) && CanAdvance(s, t) && PcOf(s.pcs, t).Cleared?
    ensures var s' := AdvanceFrom(s, t, pick); NoneToFind(s'.pcs, s'.objs)
  {
    hide Put, PcOf, NoneToFind, NobodyWaits, Inside;
    var s' := s;
    if PcOf(s.pcs, pick.waiter) == Waiting(false) {
      PutNoneToFind(s, pick.waiter, Waiting(true));
      s' := s.(pcs := Put(s.pcs, pick.waiter, Waiting(true)));
    }
    PutNoneToFind(s', t, Notified);
  }

  lemma PlainNoneToFind(s: State, t: nat, pick: Choice)
    requires Inv(s) && CanAdvance(s, t) && Plain(PcOf(s.pcs, t))
    ensures var s' := AdvanceFrom(s, t, pick); NoneToFind(s'.pcs, s'.objs)
  {
    if PcOf(s.pcs, t).Locked? && !Lockable(s) {
      FailedLock(s, t);
    }
    PlainStep(s, t, pick);
    hide Put, PcOf, Exclusive, Accounts, Claimed, Published, NoneToFind, WakeupDue, Private, Lockable;
    hide AdvanceFrom, FoundNone, CanAdvance, Plain, Reserves, CleansUp, OnObject;
    PutNoneToFind(s, t, PcOf(AdvanceFrom(s, t, pick).pcs, t));
  }

  lemma AdvanceNoneToFind(s: State, t: nat, pick: Choice)
    requires Inv(s) && CanAdvance(s, t)
    ensures var s' := AdvanceFrom(s, t, pick); NoneToFind(s'.pcs, s'.objs)
  {
    var s' := AdvanceFrom(s, t, pick);
    if InWptrMtx(PcOf(s.pcs, t)) {
      OnlyFinder(s, t);
    }
    hide Put, PcOf, Exclusive, Accounts, Claimed, Published, NoneToFind, WakeupDue, Private, Lockable, Inside;
    match PcOf(s.pcs, t) {
      case Reserved => NobodyFinds(s'.pcs, s'.objs);
      case Constructing(o) => NobodyFinds(s'.pcs, s'.objs);
      case Deleting(o) =>
        PutNoneToFind(s, t, Deleted(o));
        EndNoneToFind(s.(pcs := s'.pcs), o, Dead);
      case Cleared => NotifyNoneToFind(s, t, pick);
      case SawFree => PutNoneToFind(s, t, Marked);
      case Finishing => PutNoneToFind(s, t, Cleared);
      case Constructed(_) => PutNoneToFind(s, t, Leaving);
      case _ => PlainNoneToFind(s, t, pick);
    }
  }

  lemma NobodyFinds(pcs: Pcs, objs: seq<Life>)
    requires forall u: nat :: !FoundNone(PcOf(pcs, u))
    ensures NoneToFind(pcs, objs)
  {
    hide PcOf;
  }

  lemma EndNoneToFind(s: State, o: nat, life: Life)
    requires NoneToFind(s.pcs, s.objs) && o < |s.objs| && (life == Dying || life == Dead)
    ensures NoneToFind(s.pcs, s.objs[o := life])
  {
    hide PcOf;
  }

  lemma PutWakeupDue(s: State, t: nat, pc: Pc)
    requires WakeupDue(s.pcs, s.mgrExists) && !PcOf(s.pcs, t).Cleared?
    requires pc == Waiting(false) ==> s.mgrExists
    ensures WakeupDue(Put(s.pcs, t, pc), s.mgrExists)
  {
    hide Put, PcOf;
    var pcs' := Put(s.pcs, t, pc);
    forall v: nat | PcOf(pcs', v) == Waiting(false) && !s.mgrExists ensures exists u: nat :: PcOf(pcs', u).Cleared? {
      var u: nat :| PcOf(s.pcs, u).Cleared?;
      assert PcOf(pcs', u).Cleared?;
    }
  }

  /** The one waiter there can be is the one the notification wakes. */
  lemma NotifyWakes(s: State, t: nat, pick: nat)
    requires Exclusive(s.pcs, s.wptrMtx, s.existsMtx) && PcOf(s.pcs, t).Cleared?
    requires PcOf(s.pcs, pick) == Waiting(false)
    ensures NobodyWaits(Put(Put(s.pcs, pick, Waiting(true)), t, Notified))
  {
    OnlyConstructor(s, pick);
    hide Put, PcOf, Exclusive;
    assert forall u: nat :: PcOf(s.pcs, u) == Waiting(false) ==> InWptrMtx(PcOf(s.pcs, u));
  }

  lemma NobodyDue(pcs: Pcs, t: nat, pc: Pc, mgrExists: bool)
    requires NobodyWaits(pcs) && !pc.Waiting?
    ensures NobodyWaits(Put(pcs, t, pc)) && WakeupDue(pcs, mgrExists) && WakeupDue(Put(pcs, t, pc), mgrExists)
  {
    hide Put, PcOf;
  }

  lemma AdvanceWakeupDue(s: State, t: nat, pick: Choice)
    requires Exclusive(s.pcs, s.wptrMtx, s.existsMtx) && WakeupDue(s.pcs, s.mgrExists) && CanAdvance(s, t)
    ensures var s' := AdvanceFrom(s, t, pick); WakeupDue(s'.pcs, s'.mgrExists)
  {
    var s' := AdvanceFrom(s, t, pick);
    hide Put, PcOf, Exclusive, WakeupDue, Lockable, NobodyWaits;
    match PcOf(s.pcs, t) {
      case Finishing => ClearedIsDue(s'.pcs, t);
      case SawFree =>
        PutWakeupDue(s, t, Marked);
        ExistsIsDue(s'.pcs);
      case Cleared =>
        if PcOf(s.pcs, pick.waiter) == Waiting(false) {
          NotifyWakes(s, t, pick.waiter);
          NobodyDue(s'.pcs, t, Notified, s.mgrExists);
        } else if NobodyWaits(s.pcs) {
          NobodyDue(s.pcs, t, Notified, s.mgrExists);
        }
      case _ => PutWakeupDue(s, t, PcOf(s'.pcs, t));
    }
  }

  lemma ClearedIsDue(pcs: Pcs, t: nat)
    requires PcOf(pcs, t).Cleared?
    ensures WakeupDue(pcs, false)
  {
    hide PcOf;
  }

  lemma ExistsIsDue(pcs: Pcs)
    ensures WakeupDue(pcs, true)
  {
  }

  lemma StepRest(s: State, move: Move)
    requires Inv(s)
    ensures var s' := Next(s, move);
      Published(s'.pcs, s'.objs, s'.wptr) && NoneToFind(s'.pcs, s'.objs) && WakeupDue(s'.pcs, s'.mgrExists)
  {
    hide Put, PcOf, Exclusive, Accounts, Claimed, Published, NoneToFind, WakeupDue, AdvanceFrom, Referenced, Lockable;
    match move
    case Advance(t, pick) =>
      if CanAdvance(s, t) {
        AdvancePublished(s, t, pick);
        AdvanceNoneToFind(s, t, pick);
        AdvanceWakeupDue(s, t, pick);
      }
    case Get(t) => if PcOf(s.pcs, t).Idle? { PutRest(s, t, FastFailed); }
    case Release(t, o) =>
      if PcOf(s.pcs, t).Idle? && (t, o) in s.held && o < |s.objs| {
        PutRest(s, t, Deleting(o));
        LifePublished(s.(pcs := Put(s.pcs, t, Deleting(o))), o, Dying);
        EndNoneToFind(s.(pcs := Put(s.pcs, t, Deleting(o))), o, Dying);
      }
    case Spurious(t) => if PcOf(s.pcs, t).Waiting? { PutRest(s, t, WantExists); }
    case End(t) => if PcOf(s.pcs, t).Idle? { PutRest(s, t, Ended); }
    case _ =>
  }

  lemma PutRest(s: State, t: nat, pc: Pc)
    requires Inv(s) && !PcOf(s.pcs, t).Constructed? && !PcOf(s.pcs, t).Cleared? && !pc.Waiting?
    requires FoundNone(pc) ==> FoundNone(PcOf(s.pcs, t))
    ensures Published(Put(s.pcs, t, pc), s.objs, s.wptr)
    ensures NoneToFind(Put(s.pcs, t, pc), s.objs) && WakeupDue(Put(s.pcs, t, pc), s.mgrExists)
  {
    hide Put, PcOf, Exclusive, Accounts, Claimed, Published, NoneToFind, WakeupDue;
    PutPublished(s, t, pc);
    PutNoneToFind(s, t, pc);
    PutWakeupDue(s, t, pc);
  }

  lemma PutPrivate(s: State, t: nat, pc: Pc, objs: seq<Life>)
    requires Private(s.pcs, s.objs, s.held, s.wptr) && !pc.Constructing? && !pc.Constructed? && |objs| >= |s.objs|
    ensures Private(Put(s.pcs, t, pc), objs, s.held, s.wptr)
  {
    hide Put, PcOf;
  }

  lemma HoldPrivate(s: State, t: nat)
    requires Private(s.pcs, s.objs, s.held, s.wptr) && s.wptr.Some?
    ensures Private(s.pcs, s.objs, s.held + multiset{(t, s.wptr.value)}, s.wptr)
  {
    hide PcOf;
  }

  lemma BeginPrivate(s: State, t: nat)
    requires Private(s.pcs, s.objs, s.held, s.wptr)
    ensures Private(Put(s.pcs, t, Constructing(|s.objs|)), s.objs + [Building], s.held, s.wptr)
  {
    hide Put, PcOf;
  }

  lemma PublishPrivate(s: State, t: nat, o: nat)
    requires Private(s.pcs, s.objs, s.held, s.wptr) && PcOf(s.pcs, t) == Constructed(o) && o < |s.objs|
    requires forall u: nat :: InWptrMtx(PcOf(s.pcs, u)) ==> u == t
    ensures Private(Put(s.pcs, t, Leaving), s.objs, s.held, Some(o))
  {
    hide Put, PcOf;
    assert forall u: nat :: PcOf(s.pcs, u).Constructed? || PcOf(s.pcs, u).Constructing? ==> InWptrMtx(PcOf(s.pcs, u));
  }

  lemma AdvancePrivate(s: State, t: nat, pick: Choice)
    requires Inv(s) && CanAdvance(s, t)
    ensures var s' := AdvanceFrom(s, t, pick); Private(s'.pcs, s'.objs, s'.held, s'.wptr)
  {
    var s' := AdvanceFrom(s, t, pick);
    if InWptrMtx(PcOf(s.pcs, t)) {
      OnlyConstructor(s, t);
    }
    if PcOf(s.pcs, t).Constructing? {
      ConstructedPrivate(s, t, PcOf(s.pcs, t).obj);
    }
    assert PcOf(s.pcs, t).Constructed? ==> Works(PcOf(s.pcs, t), PcOf(s.pcs, t).obj);
    hide Put, PcOf, Exclusive, Accounts, Claimed, Published, NoneToFind, WakeupDue, Private, InWptrMtx, Lockable;
    match PcOf(s.pcs, t) {
      case Locked =>
        PutPrivate(s, t, PcOf(s'.pcs, t), s.objs);
        if Lockable(s) {
          assert s.wptr.Some? by { LockableHas(s); }
          HoldPrivate(s.(pcs := s'.pcs), t);
        }
      case Reserved => BeginPrivate(s, t);
      case Constructing(o) =>
      case Constructed(o) => PublishPrivate(s, t, o);
      case Cleared =>
        var woken :=
          if PcOf(s.pcs, pick.waiter) == Waiting(false) then Put(s.pcs, pick.waiter, Waiting(true)) else s.pcs;
        PutPrivate(s, pick.waiter, Waiting(true), s.objs);
        PutPrivate(s.(pcs := woken), t, Notified, s.objs);
      case _ => PutPrivate(s, t, PcOf(s'.pcs, t), s'.objs);
    }
  }

  lemma LockableHas(s: State)
    requires Lockable(s)
    ensures s.wptr.Some?
  {
  }

  lemma ConstructedPrivate(s: State, t: nat, o: nat)
    requires Inv(s) && PcOf(s.pcs, t) == Constructing(o) && o < |s.objs|
    ensures Private(Put(s.pcs, t, Constructed(o)), s.objs[o := Alive], s.held + multiset{(t, o)}, s.wptr)
  {
    OnlyConstructor(s, t);
    assert forall u: nat :: PcOf(s.pcs, u).Constructed? ==> InWptrMtx(PcOf(s.pcs, u));
    assert !Referenced(s.held, o) by {
      assert s.objs[o] == Building;
    }
    hide Put, PcOf, Exclusive, Accounts, Claimed, Published, NoneToFind, WakeupDue, InWptrMtx;
  }

  /** A thread outside the helper can do what it likes with its pointers. */
  lemma SharePrivate(s: State, t: nat, o: nat, held: multiset<(nat, nat)>)
    requires Private(s.pcs, s.objs, s.held, s.wptr) && PcOf(s.pcs, t).Idle? && (t, o) in s.held
    requires forall u: nat, p: nat :: p != o && (u, p) in held ==> (u, p) in s.held
    ensures Private(s.pcs, s.objs, held, s.wptr)
  {
    hide PcOf;
  }

  lemma ReleasePrivate(s: State, t: nat, o: nat)
    requires Private(s.pcs, s.objs, s.held, s.wptr) && PcOf(s.pcs, t).Idle? && (t, o) in s.held && o < |s.objs|
    ensures var s' := Dropped(s, t, o); Private(s'.pcs, s'.objs, s'.held, s'.wptr)
  {
    var held := s.held - multiset{(t, o)};
    SharePrivate(s, t, o, held);
    hide Put, PcOf, Private, Referenced;
    PutPrivate(s.(held := held), t, Deleting(o), s.objs[o := Dying]);
  }

  lemma StepPrivate(s: State, move: Move)
    requires Inv(s)
    ensures var s' := Next(s, move); Private(s'.pcs, s'.objs, s'.held, s'.wptr)
  {
    hide Put, PcOf, Exclusive, Accounts, Claimed, Published, NoneToFind, WakeupDue, AdvanceFrom, Lockable, Private;
    hide Dropped;
    match move
    case Advance(t, pick) => if CanAdvance(s, t) { AdvancePrivate(s, t, pick); }
    case Get(t) =>
      if Lockable(s) {
        assert s.wptr.Some? by { LockableHas(s); }
        HoldPrivate(s, t);
      }
      PutPrivate(s, t, FastFailed, s.objs);
    case Release(t, o) => if PcOf(s.pcs, t).Idle? && (t, o) in s.held && o < |s.objs| { ReleasePrivate(s, t, o); }
    case Copy(t, o) =>
      if PcOf(s.pcs, t).Idle? && (t, o) in s.held { SharePrivate(s, t, o, s.held + multiset{(t, o)}); }
    case Give(t, u, o) =>
      if PcOf(s.pcs, t).Idle? && (t, o) in s.held {
        SharePrivate(s, t, o, s.held - multiset{(t, o)} + multiset{(u, o)});
      }
    case Spurious(t) => PutPrivate(s, t, WantExists, s.objs);
    case End(t) => PutPrivate(s, t, Ended, s.objs);
  }

  lemma StepInv(s: State, move: Move)
    requires Inv(s)
    ensures Inv(Next(s, move))
  {
    hide Exclusive, Accounts, Claimed, Published, NoneToFind, WakeupDue, Private, Next;
    StepExclusive(s, move);
    StepPrivate(s, move);
    StepAccounts(s, move);
    StepClaimed(s, move);
    StepRest(s, move);
  }

  lemma {:induction false} RunInv(moves: seq<Move>)
    ensures Inv(After(START, moves))
  {
    if moves == [] {
      StartInv();
    } else {
      hide Inv, Next;
      RunInv(moves[..|moves| - 1]);
      StepInv(After(START, moves[..|moves| - 1]), moves[|moves| - 1]);
    }
  }

  lemma StartInv()
    ensures Inv(START)
  {
  }

  lemma AlwaysInv(s: State)
    requires Reachable(s)
    ensures Inv(s)
  {
    var moves :| After(START, moves) == s;
    hide Inv, After;
    RunInv(moves);
  }

  /** What comes after what comes after. */
  lemma {:induction false} LeadsOn(s: State, s': State, moves: seq<Move>)
    requires Leads(s, s')
    ensures Leads(s, After(s', moves))
  {
    if moves == [] {
    } else {
      var before := After(s', moves[..|moves| - 1]);
      LeadsOn(s, s', moves[..|moves| - 1]);
      var ms :| After(s, ms) == before;
      var ms' := ms + [moves[|moves| - 1]];
      assert ms'[..|ms|] == ms;
      assert After(s, ms') == After(s', moves);
    }
  }

  // ---- What every run keeps -------------------------------------------------

  predicate InLifetime(s: State, o: nat) {
    o < |s.objs| && s.objs[o] != Dead
  }

  /**
   * Lifetimes exclude each other: in every run of any number of threads, at
   * most one manager is between the start of its construction and the end of
   * its destruction, and while there is one, nobody else may construct.
   */
  lemma LifetimesExclude(s: State, o: nat, p: nat)
    requires Reachable(s) && InLifetime(s, o) && InLifetime(s, p)
    ensures o == p
    ensures forall t: nat :: !Reserves(PcOf(s.pcs, t)) && !CleansUp(PcOf(s.pcs, t))
  {
    AlwaysInv(s);
    hide Reachable;
    OnlyObject(s, o, p);
    forall t: nat ensures !Reserves(PcOf(s.pcs, t)) && !CleansUp(PcOf(s.pcs, t)) {
      assert Claims(s.pcs, s.objs, Object(o));
      assert Reserves(PcOf(s.pcs, t)) ==> Claims(s.pcs, s.objs, Reservation(t));
      assert CleansUp(PcOf(s.pcs, t)) ==> Claims(s.pcs, s.objs, Cleanup(t));
    }
  }

  /** `mgr_exists` is true exactly while a manager is reserved, in its lifetime, or waiting to be signed off. */
  lemma ExistsIffClaimed(s: State)
    requires Reachable(s)
    ensures s.mgrExists <==>
      || (exists t: nat :: Reserves(PcOf(s.pcs, t)))
      || (exists o: nat :: InLifetime(s, o))
      || (exists t: nat :: CleansUp(PcOf(s.pcs, t)))
  {
    AlwaysInv(s);
    hide Reachable, PcOf, Exclusive, Accounts, Published, NoneToFind, WakeupDue;
    if s.mgrExists {
      var c :| Claims(s.pcs, s.objs, c);
      match c {
        case Reservation(t) => assert Reserves(PcOf(s.pcs, t));
        case Object(o) => assert InLifetime(s, o);
        case Cleanup(t) => assert CleansUp(PcOf(s.pcs, t));
      }
    }
    forall t: nat ensures Reserves(PcOf(s.pcs, t)) ==> s.mgrExists ensures CleansUp(PcOf(s.pcs, t)) ==> s.mgrExists {
      assert Reserves(PcOf(s.pcs, t)) ==> Claims(s.pcs, s.objs, Reservation(t));
      assert CleansUp(PcOf(s.pcs, t)) ==> Claims(s.pcs, s.objs, Cleanup(t));
    }
    forall o: nat ensures InLifetime(s, o) ==> s.mgrExists {
      assert InLifetime(s, o) ==> Claims(s.pcs, s.objs, Object(o));
    }
  }

  /** Every pointer that any thread has is to the one live object; once it is returned, that is the weak pointer's. */
  lemma PointersAreCurrent(s: State, t: nat, o: nat)
    requires Reachable(s) && (t, o) in s.held
    ensures o < |s.objs| && s.objs[o] == Alive
    ensures forall u: nat, p: nat :: (u, p) in s.held ==> p == o
    ensures PcOf(s.pcs, t) == Constructed(o) || s.wptr == Some(o)
  {
    AlwaysInv(s);
    hide Reachable, PcOf;
    HeldIsReferenced(s.held, t, o);
    forall u: nat, p: nat | (u, p) in s.held ensures p == o {
      HeldIsReferenced(s.held, u, p);
      OnlyObject(s, o, p);
    }
  }

  /** With every thread outside and no pointer left, every manager ever built is gone and a new one may be built. */
  lemma NothingLeftOver(s: State)
    requires Reachable(s) && s.held == multiset{} && forall t: nat :: !Inside(PcOf(s.pcs, t))
    ensures !s.mgrExists && forall o: nat :: o < |s.objs| ==> s.objs[o] == Dead
  {
    AlwaysInv(s);
    ExistsIffClaimed(s);
    hide Reachable, PcOf, Claimed;
    forall o: nat | o < |s.objs| ensures s.objs[o] == Dead {
      assert Referenced(s.held, o) ==> exists u: nat :: (u, o) in s.held;
    }
  }

  predicate Advances(before: Life, after: Life) {
    || after == before
    || (before == Building && after == Alive)
    || (before == Alive && after == Dying)
    || (before == Dying && after == Dead)
  }

  /** A life only goes forward, one stage at a time, and ends only by the release of the last pointer. */
  lemma LivesAdvance(s: State, move: Move, o: nat)
    requires Reachable(s) && o < |s.objs|
    ensures var s' := Next(s, move);
      && o < |s'.objs| && Advances(s.objs[o], s'.objs[o])
      && (s'.objs[o] == Dying && s.objs[o] == Alive <==>
            move.Release? && move.obj == o && PcOf(s.pcs, move.t).Idle? && s.held[(move.t, o)] == 1
            && forall u: nat :: (u, o) in s.held ==> u == move.t)
  {
    AlwaysInv(s);
    hide Reachable, Next, Accounts;
    LifeStep(s, move, o);
  }

  lemma AdvanceLife(s: State, t: nat, pick: Choice, o: nat)
    requires Accounts(s) && CanAdvance(s, t) && o < |s.objs|
    ensures var objs := AdvanceFrom(s, t, pick).objs;
      o < |objs| && Advances(s.objs[o], objs[o]) && !(s.objs[o] == Alive && objs[o] == Dying)
  {
    assert PcOf(s.pcs, t).Constructing? ==> s.objs[PcOf(s.pcs, t).obj] == Building;
    assert PcOf(s.pcs, t).Deleting? ==> s.objs[PcOf(s.pcs, t).obj] == Dying;
    hide Put, PcOf, Accounts, Lockable, NobodyWaits;
  }

  lemma LifeStep(s: State, move: Move, o: nat)
    requires Accounts(s) && o < |s.objs|
    ensures var s' := Next(s, move);
      && o < |s'.objs| && Advances(s.objs[o], s'.objs[o])
      && (s'.objs[o] == Dying && s.objs[o] == Alive <==>
            move.Release? && move.obj == o && PcOf(s.pcs, move.t).Idle? && s.held[(move.t, o)] == 1
            && forall u: nat :: (u, o) in s.held ==> u == move.t)
  {
    match move
    case Release(t, p) =>
      if (t, o) in s.held {
        HeldIsReferenced(s.held, t, o);
        LastPointer(s.held, t, o);
      }
      assert (t, o) in s.held ==> s.objs[o] == Alive;
      hide Put, PcOf, Accounts, Referenced, AdvanceFrom;
    case Advance(t, pick) =>
      if CanAdvance(s, t) {
        AdvanceLife(s, t, pick, o);
      }
      hide Put, PcOf, Accounts, AdvanceFrom;
    case _ =>
      hide Put, PcOf, Accounts, AdvanceFrom, Lockable;
  }

  lemma LastPointer(held: multiset<(nat, nat)>, t: nat, o: nat)
    requires (t, o) in held
    ensures !Referenced(held - multiset{(t, o)}, o) <==> held[(t, o)] == 1 && forall u: nat :: (u, o) in held ==> u == t
  {
    var held' := held - multiset{(t, o)};
    assert held'[(t, o)] == held[(t, o)] - 1;
    forall u: nat ensures u != t ==> ((u, o) in held' <==> (u, o) in held) {
    }
  }
}
