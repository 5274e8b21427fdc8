/**
 * The reactor of src/rpcz/reactor.cc: it polls sockets, dispatches, runs timers
 * and deletes sockets between polls. What one turn of its loop does is said by
 * functions of its state; class `Reactor` has the program's own loops and is
 * proved to do just that.
 */
module Reactor {
  import opened ReactorTimers
  import opened ReactorSockets

  /** One run of a handler: what poll reported, what was stored there, and how much had been deleted by then. */
  datatype Dispatch = Dispatch(polled: Sock, stored: Owned, deletedBefore: nat)

  /** What handlers do to the reactor. Sockets are created fresh. */
  datatype Action =
    | AddNew(handler: Closure)
    | Delete(sock: Sock, callback: Closure)
    | RunAt(at: nat, closure: Closure)
    | SetQuit

  /** One turn of the loop as the outside world makes it. */
  datatype Turn = Turn(now: nat, terminated: bool, ready: set<nat>, handlers: nat -> seq<Action>)

  // ---- What a turn does -----------------------------------------------------

  /** The reactor, and all that it has added, deleted, scheduled and run since the start. */
  datatype State = State(
    quit: bool,
    dirty: bool,
    sockets: seq<Owned>,
    del: Scheduled,
    poll: seq<Sock>,
    queue: seq<Entry>,
    added: seq<Owned>,
    deleted: seq<Owned>,
    callbacks: seq<CallbackRun>,
    scheduled: seq<Entry>,
    fired: seq<Firing>,
    dispatched: seq<Dispatch>)

  /** Handlers neither delete nor poll: that is for the next turn. */
  predicate Extends(s: State, t: State) {
    s.sockets <= t.sockets && t.poll == s.poll && t.deleted == s.deleted && t.fired == s.fired
      && t.callbacks == s.callbacks
  }

  function Act(s: State, action: Action): (t: State)
    ensures Extends(s, t) && t.dispatched == s.dispatched
  {
    match action
    case AddNew(handler) =>
      var e := Owned(|s.added|, handler);
      s.(sockets := s.sockets + [e], added := s.added + [e], dirty := true)
    case Delete(sock, callback) => s.(del := Noted(s.del, sock, callback), dirty := true)
    case RunAt(at, closure) =>
      s.(queue := Enqueue(s.queue, Entry(at, closure)), scheduled := s.scheduled + [Entry(at, closure)])
    case SetQuit => s.(quit := true)
  }

  /** A deletion noted behind those already noted for the socket. */
  function Noted(del: Scheduled, sock: Sock, callback: Closure): Scheduled {
    del[sock := (if sock in del then del[sock] else []) + [callback]]
  }

  function Acts(s: State, actions: seq<Action>): (t: State)
    ensures Extends(s, t) && t.dispatched == s.dispatched
  {
    if actions == [] then s else Act(Acts(s, actions[..|actions| - 1]), actions[|actions| - 1])
  }

  /** The scan over the poll items, as far as index `n`: exactly the reported sockets' handlers run, in order. */
  function Handled(s: State, turn: Turn, n: nat): (t: State)
    requires n <= |s.poll| <= |s.sockets|
    ensures Extends(s, t)
    decreases n
  {
    if n == 0 then s
    else
      var before := Handled(s, turn, n - 1);
      if n - 1 in turn.ready then Acts(Dispatches(before, n - 1), turn.handlers(n - 1)) else before
  }

  function Dispatches(s: State, i: nat): (t: State)
    requires i < |s.poll| <= |s.sockets|
  {
    s.(dispatched := s.dispatched + [Dispatch(s.poll[i], s.sockets[i], |s.deleted|)])
  }

  /** What a clean-up may leave: all but the sockets to delete, in any order but with the first in place. */
  ghost predicate Stays(s: State, kept: seq<Owned>) {
    if !s.dirty then kept == s.sockets
    else if s.sockets == [] then kept == []
    else kept != [] && kept[0] == s.sockets[0] && multiset(kept[1..]) == multiset(Kept(s.sockets, s.del, 1))
  }

  /** A dirty reactor deletes what was noted and polls exactly what is left. */
  function Cleaned(s: State, kept: seq<Owned>): State {
    if !s.dirty then s
    else
      var gone := Removed(s.sockets, s.del, 1);
      s.(dirty := false, sockets := kept, del := map[], poll := Numbers(kept),
         deleted := s.deleted + gone, callbacks := s.callbacks + Callbacks(gone, s.del))
  }

  /** The due timers fire. */
  function Passed(s: State, now: nat): State {
    var n := Due(s.queue, now);
    s.(queue := s.queue[n..], fired := s.fired + Fire(s.queue[..n], now))
  }

  /** One turn of the loop, from `s` to `t`. */
  ghost predicate TurnDone(turn: Turn, s: State, kept: seq<Owned>, t: State) {
    && Stays(s, kept)
    && var p := Passed(Cleaned(s, kept), turn.now);
    && |p.poll| <= |p.sockets|
    && t == if turn.terminated then p else Handled(p, turn, |p.poll|)
  }

  /**
   * A run of the loop: it makes the turns one after the other, from the state
   * it finds, until it is told to quit, poll fails, or the world ends.
   */
  ghost predicate LoopDone(turns: seq<Turn>, s: State, t: State, rc: int, states: seq<State>, kepts: seq<seq<Owned>>) {
    var n := |kepts|;
    && n <= |turns| && |states| == n + 1 && states[0] == s && states[n] == t
    && (forall k :: 0 <= k < n ==> !states[k].quit && TurnDone(turns[k], states[k], kepts[k], states[k + 1]))
    && (forall k :: 0 <= k < n - 1 ==> !turns[k].terminated)
    && (if n > 0 && turns[n - 1].terminated then rc == -1 else rc == 0 && (t.quit || n == |turns|))
  }

  function Numbers(owned: seq<Owned>): (ns: seq<Sock>)
    ensures |ns| == |owned| && forall i :: 0 <= i < |ns| ==> ns[i] == owned[i].sock
  {
    seq(|owned|, i requires 0 <= i < |owned| => owned[i].sock)
  }

  /** The indices below `n` that poll reports, in order. */
  function Ready(polled: seq<Sock>, ready: set<nat>, n: nat): seq<Sock>
    requires n <= |polled|
  {
    if n == 0 then [] else Ready(polled, ready, n - 1) + if n - 1 in ready then [polled[n - 1]] else []
  }

  function Polls(ds: seq<Dispatch>): seq<Sock> {
    seq(|ds|, i requires 0 <= i < |ds| => ds[i].polled)
  }

  lemma PollsGrow(ds: seq<Dispatch>, d: Dispatch)
    ensures Polls(ds + [d]) == Polls(ds) + [d.polled]
  {
  }

  /** The scan handles exactly the sockets that poll reports, whatever the handlers do. */
  lemma {:induction false} HandledAreReady(s: State, turn: Turn, n: nat)
    requires n <= |s.poll| <= |s.sockets|
    ensures Polls(Handled(s, turn, n).dispatched) == Polls(s.dispatched) + Ready(s.poll, turn.ready, n)
    decreases n
  {
    if n > 0 {
      HandledAreReady(s, turn, n - 1);
      var before := Handled(s, turn, n - 1);
      PollsGrow(before.dispatched, Dispatch(before.poll[n - 1], before.sockets[n - 1], |before.deleted|));
      hide Polls, Acts;
      Joins(Polls(s.dispatched), Ready(s.poll, turn.ready, n - 1), if n - 1 in turn.ready then [s.poll[n - 1]] else []);
    } else {
      Joins(Polls(s.dispatched), [], []);
    }
  }

  // ---- The reactor ----------------------------------------------------------

  /** Poll entry and socket list agree on every polled index. */
  ghost predicate Aligned(polled: seq<Sock>, sockets: seq<Owned>) {
    |polled| <= |sockets| && forall i :: 0 <= i < |polled| ==> polled[i] == sockets[i].sock
  }

  /** The handler that ran was the one added with the polled socket, which was not deleted. */
  ghost predicate DispatchedWell(d: Dispatch, added: seq<Owned>, deleted: seq<Owned>) {
    && d.polled == d.stored.sock < |added|
    && added[d.polled] == d.stored
    && d.deletedBefore <= |deleted|
    && forall k :: 0 <= k < d.deletedBefore ==> deleted[k].sock != d.polled
  }

  ghost predicate NeverEarly(fired: seq<Firing>) {
    forall i :: 0 <= i < |fired| ==> fired[i].entry.at <= fired[i].now
  }

  class Reactor {
    var shouldQuit: bool
    var isDirty: bool
    var sockets: seq<Owned>
    var delSockets: Scheduled
    var pollItems: seq<Sock>
    var timers: seq<Slot>
    var created: nat    // sockets created so far; stands for fresh addresses

    // What has been added, deleted, scheduled and run since the start.
    ghost var added: seq<Owned>
    ghost var deleted: seq<Owned>
    ghost var callbacksRun: seq<CallbackRun>
    ghost var scheduled: seq<Entry>
    ghost var fired: seq<Firing>
    ghost var dispatched: seq<Dispatch>

    ghost function Now(): State
      reads this
    {
      State(shouldQuit, isDirty, sockets, delSockets, pollItems, Queue(timers),
        added, deleted, callbacksRun, scheduled, fired, dispatched)
    }

    ghost predicate SocketsValid()
      reads this`created, this`added, this`sockets, this`deleted, this`dispatched
    {
      && created == |added|
      && AllOwned(added, sockets, deleted)
      && forall i :: 0 <= i < |dispatched| ==> DispatchedWell(dispatched[i], added, deleted)
    }

    ghost predicate TimersValid()
      reads this`timers, this`fired, this`scheduled
    {
      && IsMap(timers)
      && multiset(Entries(fired)) + multiset(Queue(timers)) == multiset(scheduled)
      && NeverEarly(fired)
    }

    ghost predicate Valid()
      reads this
    {
      && SocketsValid() && TimersValid()
      && Aligned(pollItems, sockets)
      && (!isDirty ==> |pollItems| == |sockets| && delSockets == map[])
      && (forall sock :: sock in delSockets ==> delSockets[sock] != [])
    }

    /** `isDirty` starts with any value: the program does not initialise it. */
    constructor (isDirty: bool)
      ensures Valid() && Now() == State(false, isDirty, [], map[], [], [], [], [], [], [], [], [])
    {
      shouldQuit, this.isDirty, created := false, isDirty, 0;
      sockets, delSockets, pollItems, timers := [], map[], [], [];
      added, deleted, callbacksRun, scheduled, fired, dispatched := [], [], [], [], [], [];
    }

    /** A new socket goes to the end of the list; poll will know it after the next rebuild. */
    method AddSocket(handler: Closure) returns (sock: Sock)
      requires Valid()
      modifies this`sockets, this`isDirty, this`created, this`added
      ensures Valid() && Now() == Act(old(Now()), AddNew(handler)) && sock == |old(added)|
    {
      hide AllOwned, DispatchedWell, TimersValid;
      sock := created;
      created := created + 1;
      ghost var e := Owned(sock, handler);
      AddsOne(added, sockets, deleted, e);
      DispatchesStay(dispatched, added, [e], deleted, []);
      Joins(deleted, [], []);
      sockets := sockets + [Owned(sock, handler)];
      added := added + [e];
      isDirty := true;
    }

    /** Deletion is only noted; it happens at the next rebuild. */
    method DelSocket(sock: Sock, callback: Closure)
      requires Valid()
      modifies this`delSockets, this`isDirty
      ensures Valid() && Now() == Act(old(Now()), Delete(sock, callback))
    {
      delSockets := delSockets[sock := (if sock in delSockets then delSockets[sock] else []) + [callback]];
      isDirty := true;
    }

    /**
     * The backward scan: exactly the scheduled sockets above index 0 go, each
     * callback runs once, the others stay as a permutation with index 0 in
     * place.
     */
    method ProcessDelSockets()
      requires SocketsValid()
      modifies this`sockets, this`delSockets, this`deleted, this`callbacksRun
      ensures SocketsValid()
      ensures deleted == old(deleted) + Removed(old(sockets), old(delSockets), 1)
      ensures callbacksRun == old(callbacksRun) + Callbacks(Removed(old(sockets), old(delSockets), 1), old(delSockets))
      ensures old(sockets) == [] ==> sockets == []
      ensures old(sockets) != [] ==> sockets != [] && sockets[0] == old(sockets)[0]
      ensures old(sockets) != [] ==> multiset(sockets[1..]) == multiset(Kept(old(sockets), old(delSockets), 1))
    {
      ghost var s0, d0, deleted0 := sockets, delSockets, deleted;
      assert Distinct(s0) by { OwnedOnce(added, sockets, deleted); }
      hide AllOwned, DispatchedWell, Removed, Kept, Callbacks, Distinct;
      if delSockets == map[] || sockets == [] {
        NothingToScan(s0, d0);
        Joins(deleted0, [], []);
        return;
      }
      ScanBackwards();
      ScanOwned(added, s0, d0, sockets, deleted0);
      DispatchesStay(dispatched, added, [], deleted0, Removed(s0, d0, 1));
      Joins(added, [], []);
    }

    /** The loop, from the last index down to 1. */
    method ScanBackwards()
      requires sockets != [] && Distinct(sockets)
      modifies this`sockets, this`delSockets, this`deleted, this`callbacksRun
      ensures deleted == old(deleted) + Removed(old(sockets), old(delSockets), 1)
      ensures callbacksRun == old(callbacksRun) + Callbacks(Removed(old(sockets), old(delSockets), 1), old(delSockets))
      ensures sockets != [] && sockets[0] == old(sockets)[0]
      ensures multiset(sockets[1..]) == multiset(Kept(old(sockets), old(delSockets), 1))
    {
      ghost var s0, d0, gone := sockets, delSockets, [];
      hide Scanned, Removed, Kept, Callbacks, Distinct;
      ScanStarts(s0, d0);
      NoCallbacks(d0);
      var i := |sockets| - 1;
      while i > 0 && delSockets != map[]
        invariant 0 <= i < |sockets|
        invariant Scanned(s0, d0, i, sockets, delSockets, gone)
        invariant deleted == old(deleted) + gone && callbacksRun == old(callbacksRun) + Callbacks(gone, d0)
      {
        if sockets[i].sock in delSockets {
          ghost var e := sockets[i];
          ScanRemoves(s0, d0, i, sockets, delSockets, gone);
          ScheduledSame(s0, d0, i, sockets, delSockets, gone, e.sock);
          MoreCallbacks(gone, e, d0);
          Joins(old(deleted), gone, [e]);
          Joins(old(callbacksRun), Callbacks(gone, d0), Runs(e.sock, d0[e.sock]));
          gone := gone + [e];
          RemoveAt(i);
        } else {
          ScanKeeps(s0, d0, i, sockets, delSockets, gone);
        }
        i := i - 1;
      }
      ScanEnds(s0, d0, i, sockets, delSockets, gone);
    }

    /** Poll entry and socket list agree again; what was scheduled and not found is forgotten. */
    method RebuildPollItems()
      requires SocketsValid() && TimersValid()
      modifies this`sockets, this`delSockets, this`deleted, this`callbacksRun, this`pollItems
      ensures Valid() && |pollItems| == |sockets| && delSockets == map[]
      ensures deleted == old(deleted) + Removed(old(sockets), old(delSockets), 1)
      ensures callbacksRun == old(callbacksRun) + Callbacks(Removed(old(sockets), old(delSockets), 1), old(delSockets))
      ensures old(sockets) == [] ==> sockets == []
      ensures old(sockets) != [] ==> sockets != [] && sockets[0] == old(sockets)[0]
      ensures old(sockets) != [] ==> multiset(sockets[1..]) == multiset(Kept(old(sockets), old(delSockets), 1))
    {
      hide SocketsValid, TimersValid, Removed, Kept, Callbacks;
      ProcessDelSockets();
      delSockets := map[];
      pollItems := seq(|sockets|, _ => 0);
      for i := 0 to |sockets|
        invariant |pollItems| == |sockets| && forall k :: 0 <= k < i ==> pollItems[k] == sockets[k].sock
        modifies this`pollItems
      {
        pollItems := pollItems[i := sockets[i].sock];
      }
    }

    /** Scheduling is queueing in a stable sorted queue. */
    method RunClosureAt(at: nat, closure: Closure)
      requires TimersValid()
      modifies this`timers, this`scheduled
      ensures TimersValid()
      ensures Queue(timers) == Enqueue(Queue(old(timers)), Entry(at, closure))
      ensures scheduled == old(scheduled) + [Entry(at, closure)]
    {
      FileKeeps(timers, at, closure);
      FileEnqueues(timers, at, closure);
      EnqueueHolds(Queue(timers), Entry(at, closure));
      hide File, Enqueue, Queue, IsMap, Entries;
      OneMore(Entries(fired), Queue(timers), Queue(File(timers, at, closure)), scheduled, Entry(at, closure));
      timers := File(timers, at, closure);
      scheduled := scheduled + [Entry(at, closure)];
    }

    /**
     * One pass runs exactly the due closures in queue order and leaves the
     * others; -1 means that none is left, otherwise the result is the positive
     * time to the earliest.
     */
    method ProcessClosureRunMap(now: nat) returns (wait: int)
      requires TimersValid()
      modifies this`timers, this`fired
      ensures TimersValid()
      ensures var q, n := Queue(old(timers)), Due(Queue(old(timers)), now);
        fired == old(fired) + Fire(q[..n], now) && Queue(timers) == q[n..]
      ensures wait == -1 <==> Queue(timers) == []
      ensures Queue(timers) != [] ==> wait == Queue(timers)[0].at - now > 0
    {
      var ub := UpperBound(timers, now);
      PassIs(timers, ub, now, scheduled, fired);
      hide IsMap, Due, Queue, Fire, Entries, NeverEarly;
      RunSlots(ub, now);
      wait := -1;
      if ub != |timers| {
        wait := timers[ub].at - now;
      }
      timers := timers[ub..];
      QueueEmpty(timers);
    }

    /** The loop over the slots before `ub`. */
    method RunSlots(ub: nat, now: nat)
      requires ub <= |timers|
      modifies this`fired
      ensures fired == old(fired) + Fire(Queue(timers[..ub]), now)
    {
      assert Queue(timers[..0]) == [] && old(fired) + Fire([], now) == old(fired);
      hide Queue, Fire, SlotEntries;
      for it := 0 to ub
        invariant fired == old(fired) + Fire(Queue(timers[..it]), now)
      {
        RunSlot(timers[it], now);
        PassedSlot(timers, it, now);
        Joins(old(fired), Fire(Queue(timers[..it]), now), Fire(SlotEntries(timers[it].at, timers[it].closures), now));
      }
    }

    method RunSlot(slot: Slot, now: nat)
      modifies this`fired
      ensures fired == old(fired) + Fire(SlotEntries(slot.at, slot.closures), now)
    {
      for v := 0 to |slot.closures|
        invariant fired == old(fired) + Fire(SlotEntries(slot.at, slot.closures)[..v], now)
      {
        fired := fired + [Firing(Entry(slot.at, slot.closures[v]), now)];
      }
      assert SlotEntries(slot.at, slot.closures)[..|slot.closures|] == SlotEntries(slot.at, slot.closures);
    }

    /** What a handler does to the reactor while the loop is at work. */
    method Handle(actions: seq<Action>)
      requires Valid()
      modifies this`shouldQuit, this`isDirty, this`sockets, this`delSockets, this`timers, this`created, this`added
      modifies this`scheduled
      ensures Valid() && Now() == Acts(old(Now()), actions)
    {
      hide SocketsValid, TimersValid, Queue, Enqueue;
      for a := 0 to |actions|
        invariant Valid() && Now() == Acts(old(Now()), actions[..a])
      {
        assert actions[..a + 1][..a] == actions[..a];
        match actions[a] {
          case AddNew(handler) => var _ := AddSocket(handler);
          case Delete(sock, callback) => DelSocket(sock, callback);
          case RunAt(at, closure) => RunClosureAt(at, closure);
          case SetQuit => shouldQuit := true;
        }
      }
      assert actions[..|actions|] == actions;
    }

    /** Runs the handler stored at `i`, which is that of the socket polled at `i`. */
    method RunHandler(i: nat, actions: seq<Action>)
      requires Valid() && i < |pollItems|
      modifies this`shouldQuit, this`isDirty, this`sockets, this`delSockets, this`timers, this`created, this`added
      modifies this`scheduled, this`dispatched
      ensures Valid() && Now() == Acts(Dispatches(old(Now()), i), actions)
    {
      StoredIsAlive(added, sockets, deleted, i);
      hide Acts, Queue;
      dispatched := dispatched + [Dispatch(pollItems[i], sockets[i], |deleted|)];
      Handle(actions);
    }

    /** One scan over the poll items: exactly the reported sockets are handled, in order. */
    method DispatchReady(turn: Turn)
      requires Valid()
      modifies this`shouldQuit, this`isDirty, this`sockets, this`delSockets, this`timers, this`created, this`added
      modifies this`scheduled, this`dispatched
      ensures Valid() && Now() == Handled(old(Now()), turn, |pollItems|)
      ensures Polls(dispatched) == Polls(old(dispatched)) + Ready(pollItems, turn.ready, |pollItems|)
    {
      hide SocketsValid, TimersValid, Queue, Acts, Dispatches;
      for i := 0 to |pollItems|
        invariant Valid() && Now() == Handled(old(Now()), turn, i)
      {
        if i in turn.ready {
          RunHandler(i, turn.handlers(i));
        }
      }
      HandledAreReady(old(Now()), turn, |pollItems|);
    }

    /** One turn of the loop. */
    method MakeTurn(turn: Turn) returns (ghost kept: seq<Owned>)
      requires Valid()
      modifies this
      ensures Valid() && TurnDone(turn, old(Now()), kept, Now())
    {
      hide SocketsValid, TimersValid, Removed, Kept, Callbacks, Queue, Due, Fire, Handled, Stays, Cleaned;
      kept := RebuildIfDirty();
      var _ := ProcessClosureRunMap(turn.now);
      if !turn.terminated {
        DispatchReady(turn);
      }
    }

    /** After this, poll covers exactly the sockets that are left. */
    method RebuildIfDirty() returns (ghost kept: seq<Owned>)
      requires Valid()
      modifies this`isDirty, this`sockets, this`delSockets, this`deleted, this`callbacksRun, this`pollItems
      ensures Valid() && Stays(old(Now()), kept) && Now() == Cleaned(old(Now()), kept)
      ensures |pollItems| == |sockets|
    {
      hide SocketsValid, TimersValid, Removed, Kept, Callbacks, Queue;
      if isDirty {
        RebuildPollItems();
        isDirty := false;
      }
      kept := sockets;
      assert pollItems == Numbers(kept);
    }

    /**
     * The loop makes its turns, each just as `TurnDone` says, from the state it
     * finds to the state it leaves. By `Valid`, however handlers add and delete
     * sockets while it scans, every handler that ever ran belongs to the socket
     * that was polled, no socket is deleted twice, and of all timers ever
     * scheduled none is lost, early or repeated.
     */
    method Loop(turns: seq<Turn>) returns (rc: int, ghost states: seq<State>, ghost kepts: seq<seq<Owned>>)
      requires Valid()
      modifies this
      ensures Valid() && LoopDone(turns, old(Now()), Now(), rc, states, kepts)
    {
      hide SocketsValid, TimersValid, Queue, TurnDone;
      states, kepts := [Now()], [];
      for k := 0 to |turns|
        invariant Valid() && |kepts| == k && |states| == k + 1 && states[0] == old(Now()) && states[k] == Now()
        invariant forall i :: 0 <= i < k ==> !states[i].quit && TurnDone(turns[i], states[i], kepts[i], states[i + 1])
        invariant forall i :: 0 <= i < k ==> !turns[i].terminated
      {
        if shouldQuit {
          return 0, states, kepts;
        }
        ghost var kept := MakeTurn(turns[k]);
        states, kepts := states + [Now()], kepts + [kept];
        if turns[k].terminated {
          return -1, states, kepts;
        }
      }
      return 0, states, kepts;
    }

    /** Whatever is still owned is deleted: every socket ever added has then been deleted exactly once. */
    method Destroy()
      requires Valid()
      modifies this`sockets, this`deleted
      ensures sockets == [] && multiset(deleted) == multiset(added) && Distinct(deleted)
    {
      ghost var s0 := sockets;
      for i := 0 to |sockets|
        invariant deleted == old(deleted) + s0[..i]
        modifies this`deleted
      {
        deleted := deleted + [sockets[i]];
      }
      assert s0[..|s0|] == s0;
      sockets := [];
      assert multiset(deleted) == multiset(old(deleted)) + multiset(s0);
      OwnedOnce(added, [], deleted);
    }

    /** Deletes the socket at `i`, fills its place with the last one and runs its callbacks. */
    method RemoveAt(i: nat)
      requires i < |sockets| && sockets[i].sock in delSockets
      modifies this`sockets, this`delSockets, this`deleted, this`callbacksRun
      ensures sockets == old(sockets)[i := old(sockets)[|old(sockets)| - 1]][..|old(sockets)| - 1]
      ensures deleted == old(deleted) + [old(sockets)[i]]
      ensures callbacksRun ==
        old(callbacksRun) + Runs(old(sockets)[i].sock, old(delSockets)[old(sockets)[i].sock])
      ensures delSockets == old(delSockets) - {old(sockets)[i].sock}
    {
      var sock := sockets[i].sock;
      deleted := deleted + [sockets[i]];
      var nSize := |sockets| - 1;
      sockets := sockets[i := sockets[nSize]];
      sockets := sockets[..nSize];
      var callbacks := delSockets[sock];
      var c := 0;
      while c < |callbacks|
        invariant 0 <= c <= |callbacks| && callbacksRun == old(callbacksRun) + Runs(sock, callbacks)[..c]
        modifies this`callbacksRun
      {
        callbacksRun := callbacksRun + [CallbackRun(sock, callbacks[c])];
        c := c + 1;
      }
      assert Runs(sock, callbacks)[..|callbacks|] == Runs(sock, callbacks);
      delSockets := delSockets - {sock};
    }
  }

  lemma QueueEmpty(slots: seq<Slot>)
    requires IsMap(slots)
    ensures Queue(slots) == [] <==> slots == []
    ensures slots != [] ==> Queue(slots)[0].at == slots[0].at
  {
    if slots != [] {
      QueueHead(slots);
    }
  }

  lemma DispatchesStay(dispatched: seq<Dispatch>, added: seq<Owned>, newer: seq<Owned>, deleted: seq<Owned>,
      more: seq<Owned>)
    requires forall i :: 0 <= i < |dispatched| ==> DispatchedWell(dispatched[i], added, deleted)
    ensures forall i :: 0 <= i < |dispatched| ==> DispatchedWell(dispatched[i], added + newer, deleted + more)
  {
    forall i | 0 <= i < |dispatched| ensures DispatchedWell(dispatched[i], added + newer, deleted + more) {
      assert DispatchedWell(dispatched[i], added, deleted);
    }
  }

  /** The first slot later than `now`. */
  function UpperBound(slots: seq<Slot>, now: nat): (k: nat)
    ensures k <= |slots|
    ensures forall i :: 0 <= i < k ==> slots[i].at <= now
    ensures k < |slots| ==> now < slots[k].at
  {
    if slots == [] || now < slots[0].at then 0 else 1 + UpperBound(slots[1..], now)
  }

  /** A pass splits the queue at the upper bound, and both parts stay sound. */
  lemma PassIs(timers: seq<Slot>, ub: nat, now: nat, scheduled: seq<Entry>, fired: seq<Firing>)
    requires IsMap(timers) && NeverEarly(fired)
      && multiset(Entries(fired)) + multiset(Queue(timers)) == multiset(scheduled)
    requires ub == UpperBound(timers, now)
    ensures var q, n, fired' := Queue(timers), Due(Queue(timers), now), fired + Fire(Queue(timers[..ub]), now);
      && q[..n] == Queue(timers[..ub]) && q[n..] == Queue(timers[ub..])
      && IsMap(timers[ub..]) && NeverEarly(fired')
      && multiset(Entries(fired')) + multiset(Queue(timers[ub..])) == multiset(scheduled)
  {
    var q := Queue(timers);
    DueSlots(timers, ub, now);
    MapSuffix(timers, ub);
    PassConserves(fired, q, Due(q, now), now, scheduled);
    DuesNotLate(q, now);
    NeverEarlyGrows(fired, q[..Due(q, now)], now);
  }

  lemma PassedSlot(slots: seq<Slot>, k: nat, now: nat)
    requires k < |slots|
    ensures Fire(Queue(slots[..k + 1]), now)
         == Fire(Queue(slots[..k]), now) + Fire(SlotEntries(slots[k].at, slots[k].closures), now)
  {
    assert slots[..k + 1] == slots[..k] + [slots[k]];
    QueueAppend(slots[..k], [slots[k]]);
    assert Queue([slots[k]]) == SlotEntries(slots[k].at, slots[k].closures) + Queue([]);
    Joins(SlotEntries(slots[k].at, slots[k].closures), [], []);
    FireJoins(Queue(slots[..k]), SlotEntries(slots[k].at, slots[k].closures), now);
  }

  lemma FireJoins(p: seq<Entry>, q: seq<Entry>, now: nat)
    ensures Fire(p + q, now) == Fire(p, now) + Fire(q, now)
  {
  }

  lemma FiredAre(fired: seq<Firing>, ran: seq<Entry>, now: nat)
    ensures Entries(fired + Fire(ran, now)) == Entries(fired) + ran
  {
  }

  lemma {:induction false} DuesNotLate(q: seq<Entry>, now: nat)
    ensures forall i :: 0 <= i < Due(q, now) ==> q[i].at <= now
    decreases |q|
  {
    if q != [] && q[0].at <= now {
      DuesNotLate(q[1..], now);
    }
  }

  lemma NeverEarlyGrows(fired: seq<Firing>, ran: seq<Entry>, now: nat)
    requires NeverEarly(fired) && forall i :: 0 <= i < |ran| ==> ran[i].at <= now
    ensures NeverEarly(fired + Fire(ran, now))
  {
  }

  lemma PassConserves(fired: seq<Firing>, q: seq<Entry>, n: nat, now: nat, scheduled: seq<Entry>)
    requires n <= |q| && multiset(Entries(fired)) + multiset(q) == multiset(scheduled)
    ensures multiset(Entries(fired + Fire(q[..n], now))) + multiset(q[n..]) == multiset(scheduled)
  {
    FiredAre(fired, q[..n], now);
    assert q == q[..n] + q[n..];
    assert multiset(q) == multiset(q[..n]) + multiset(q[n..]);
    Reassociates(Entries(fired), q[..n], q[n..]);
  }
}
