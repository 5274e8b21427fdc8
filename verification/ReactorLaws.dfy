/** What handlers do to the reactor, over a scan and over whole runs of the loop. */
module ReactorLaws {
  import opened Sequences
  import opened ReactorTimers
  import opened ReactorSockets
  import opened Reactor

  // ---- The actions of handlers ----------------------------------------------

  /** The handlers of the sockets that are added. */
  function NewHandlers(actions: seq<Action>): seq<Closure> {
    if actions == [] then []
    else (if actions[0].AddNew? then [actions[0].handler] else []) + NewHandlers(actions[1..])
  }

  /** The timers that are scheduled. */
  function NewTimers(actions: seq<Action>): seq<Entry> {
    if actions == [] then []
    else (if actions[0].RunAt? then [Entry(actions[0].at, actions[0].closure)] else []) + NewTimers(actions[1..])
  }

  /** The callbacks noted with a socket's deletion. */
  function NewCallbacks(actions: seq<Action>, sock: Sock): seq<Closure> {
    if actions == [] then []
    else
      (if actions[0].Delete? && actions[0].sock == sock then [actions[0].callback] else [])
      + NewCallbacks(actions[1..], sock)
  }

  lemma {:induction false} HandlersAppend(actions: seq<Action>, a: Action)
    ensures NewHandlers(actions + [a]) == NewHandlers(actions) + if a.AddNew? then [a.handler] else []
    decreases |actions|
  {
    if actions == [] {
      assert [a][1..] == [] && [] + [a] == [a];
    } else {
      assert (actions + [a])[1..] == actions[1..] + [a];
      HandlersAppend(actions[1..], a);
      Assoc(if actions[0].AddNew? then [actions[0].handler] else [], NewHandlers(actions[1..]),
        if a.AddNew? then [a.handler] else []);
    }
  }

  lemma {:induction false} TimersAppend(actions: seq<Action>, a: Action)
    ensures NewTimers(actions + [a]) == NewTimers(actions) + if a.RunAt? then [Entry(a.at, a.closure)] else []
    decreases |actions|
  {
    if actions == [] {
      assert [a][1..] == [] && [] + [a] == [a];
    } else {
      assert (actions + [a])[1..] == actions[1..] + [a];
      TimersAppend(actions[1..], a);
      Assoc(if actions[0].RunAt? then [Entry(actions[0].at, actions[0].closure)] else [], NewTimers(actions[1..]),
        if a.RunAt? then [Entry(a.at, a.closure)] else []);
    }
  }

  lemma {:induction false} CallbacksAppend(actions: seq<Action>, a: Action, sock: Sock)
    ensures NewCallbacks(actions + [a], sock) ==
      NewCallbacks(actions, sock) + if a.Delete? && a.sock == sock then [a.callback] else []
    decreases |actions|
  {
    if actions == [] {
      assert [a][1..] == [] && [] + [a] == [a];
    } else {
      assert (actions + [a])[1..] == actions[1..] + [a];
      CallbacksAppend(actions[1..], a, sock);
      Assoc(if actions[0].Delete? && actions[0].sock == sock then [actions[0].callback] else [],
        NewCallbacks(actions[1..], sock), if a.Delete? && a.sock == sock then [a.callback] else []);
    }
  }

  lemma {:induction false} NotedIn(actions: seq<Action>, sock: Sock)
    ensures forall callback :: callback in NewCallbacks(actions, sock) <==> Delete(sock, callback) in actions
    decreases |actions|
  {
    if actions != [] {
      NotedIn(actions[1..], sock);
      assert actions == [actions[0]] + actions[1..];
    }
  }

  /** What is noted for a socket. */
  function NotedFor(del: Scheduled, sock: Sock): seq<Closure> {
    if sock in del then del[sock] else []
  }

  /** New sockets, numbered on, with their handlers. */
  function Fresh(n: nat, handlers: seq<Closure>): (es: seq<Owned>)
    ensures |es| == |handlers| && forall i :: 0 <= i < |es| ==> es[i] == Owned(n + i, handlers[i])
  {
    seq(|handlers|, i requires 0 <= i < |handlers| => Owned(n + i, handlers[i]))
  }

  lemma LastOf(actions: seq<Action>)
    requires actions != []
    ensures actions == actions[..|actions| - 1] + [actions[|actions| - 1]]
    ensures forall a :: a in actions <==> a in actions[..|actions| - 1] || a == actions[|actions| - 1]
  {
    var n := |actions| - 1;
    assert actions == actions[..n] + [actions[n]];
  }

  /** One fresh socket for every one added, with its handler, at the end of the list. */
  lemma {:induction false} SocketsAdded(s: State, actions: seq<Action>)
    ensures Acts(s, actions).sockets == s.sockets + Fresh(|s.added|, NewHandlers(actions))
    ensures Acts(s, actions).added == s.added + Fresh(|s.added|, NewHandlers(actions))
    decreases |actions|
  {
    if actions != [] {
      var init, a := actions[..|actions| - 1], actions[|actions| - 1];
      SocketsAdded(s, init);
      LastOf(actions);
      HandlersAppend(init, a);
      hide NewHandlers;
      var before := Fresh(|s.added|, NewHandlers(init));
      if a.AddNew? {
        var e := Owned(|s.added + before|, a.handler);
        assert Fresh(|s.added|, NewHandlers(actions)) == before + [e];
        Assoc(s.sockets, before, [e]);
        Assoc(s.added, before, [e]);
      }
    }
  }

  /** The timers scheduled are recorded in order, and wait in the queue with those that did. */
  lemma {:induction false} TimersAdded(s: State, actions: seq<Action>)
    ensures Acts(s, actions).scheduled == s.scheduled + NewTimers(actions)
    ensures multiset(Acts(s, actions).queue) == multiset(s.queue) + multiset(NewTimers(actions))
    decreases |actions|
  {
    if actions != [] {
      var init, a := actions[..|actions| - 1], actions[|actions| - 1];
      TimersAdded(s, init);
      LastOf(actions);
      TimersAppend(init, a);
      ActsUnfold(s, actions);
      hide NewTimers, Acts, Enqueue;
      if a.RunAt? {
        OneMoreTimer(s.queue, NewTimers(init), Acts(s, init).queue, Entry(a.at, a.closure));
        Assoc(s.scheduled, NewTimers(init), [Entry(a.at, a.closure)]);
      }
    }
  }

  lemma OneMoreTimer(q: seq<Entry>, new': seq<Entry>, q': seq<Entry>, e: Entry)
    requires multiset(q') == multiset(q) + multiset(new')
    ensures multiset(Enqueue(q', e)) == multiset(q) + multiset(new' + [e])
  {
    EnqueueHolds(q', e);
    hide Enqueue;
    assert multiset(new' + [e]) == multiset(new') + multiset{e};
  }

  /** A socket is noted if and only if it was or is now, with the callbacks behind those already noted for it. */
  lemma {:induction false} DeletionsNoted(s: State, actions: seq<Action>, sock: Sock)
    ensures NotedFor(Acts(s, actions).del, sock) == NotedFor(s.del, sock) + NewCallbacks(actions, sock)
    ensures sock in Acts(s, actions).del <==> sock in s.del || exists callback :: Delete(sock, callback) in actions
    decreases |actions|
  {
    if actions != [] {
      var init, a := actions[..|actions| - 1], actions[|actions| - 1];
      DeletionsNoted(s, init, sock);
      LastOf(actions);
      CallbacksAppend(init, a, sock);
      hide NewCallbacks, Acts;
      assert Acts(s, actions) == Act(Acts(s, init), a) by { ActsUnfold(s, actions); }
      if a.Delete? && a.sock == sock {
        Assoc(NotedFor(s.del, sock), NewCallbacks(init, sock), [a.callback]);
      }
    }
  }

  lemma ActsUnfold(s: State, actions: seq<Action>)
    requires actions != []
    ensures Acts(s, actions) == Act(Acts(s, actions[..|actions| - 1]), actions[|actions| - 1])
  {
  }

  /** The end is called for, and the list changed, by exactly the actions that do so. */
  lemma {:induction false} FlagsSet(s: State, actions: seq<Action>)
    ensures Acts(s, actions).quit <==> s.quit || SetQuit in actions
    ensures Acts(s, actions).dirty <==> s.dirty || exists a :: a in actions && (a.AddNew? || a.Delete?)
    decreases |actions|
  {
    if actions != [] {
      FlagsSet(s, actions[..|actions| - 1]);
      LastOf(actions);
    }
  }

  /** What is noted takes nothing away from what was done before, and nothing is done twice. */
  lemma {:induction false} ActsJoin(s: State, first: seq<Action>, more: seq<Action>)
    ensures Acts(s, first + more) == Acts(Acts(s, first), more)
    decreases |more|
  {
    if more == [] {
      assert first + more == first;
    } else {
      var init, a := more[..|more| - 1], more[|more| - 1];
      ActsJoin(s, first, init);
      assert (first + more)[..|first + more| - 1] == first + init;
      hide Act;
    }
  }

  // ---- A scan ---------------------------------------------------------------

  /** What the handlers of the sockets that poll reports do, in order. */
  function Done(turn: Turn, n: nat): seq<Action> {
    if n == 0 then [] else Done(turn, n - 1) + if n - 1 in turn.ready then turn.handlers(n - 1) else []
  }

  lemma {:induction false} DoneHas(turn: Turn, n: nat, i: nat)
    requires i < n && i in turn.ready
    ensures forall a :: a in turn.handlers(i) ==> a in Done(turn, n)
    decreases n
  {
    if i < n - 1 {
      DoneHas(turn, n - 1, i);
    }
  }

  /** Without the record of dispatches. */
  function Bare(s: State): State {
    s.(dispatched := [])
  }

  lemma {:induction false} ActsBare(s: State, actions: seq<Action>)
    ensures Bare(Acts(s, actions)) == Acts(Bare(s), actions)
    decreases |actions|
  {
    if actions != [] {
      ActsBare(s, actions[..|actions| - 1]);
    }
  }

  /** A scan does just what its handlers do, one after the other. */
  lemma {:induction false} ScanActs(s: State, turn: Turn, n: nat)
    requires n <= |s.poll| <= |s.sockets|
    ensures Bare(Handled(s, turn, n)) == Acts(Bare(s), Done(turn, n))
    decreases n
  {
    if n > 0 {
      ScanActs(s, turn, n - 1);
      var before := Handled(s, turn, n - 1);
      if n - 1 in turn.ready {
        ActsBare(Dispatches(before, n - 1), turn.handlers(n - 1));
        ActsJoin(Bare(s), Done(turn, n - 1), turn.handlers(n - 1));
        assert Bare(Dispatches(before, n - 1)) == Bare(before);
      } else {
        assert Done(turn, n - 1) + [] == Done(turn, n - 1);
      }
    }
  }

  // ---- Turns ----------------------------------------------------------------

  predicate Ascending(q: seq<Entry>) {
    forall i, j :: 0 <= i < j < |q| ==> q[i].at <= q[j].at
  }

  /** What every turn keeps of the reactor's state. */
  ghost predicate Sound(s: State) {
    && AllOwned(s.added, s.sockets, s.deleted)
    && Ascending(s.queue)
    && |s.poll| <= |s.sockets|
    && (!s.dirty ==> s.del == map[] && |s.poll| == |s.sockets|)
  }

  lemma {:induction false} EnqueueAscends(q: seq<Entry>, e: Entry)
    requires Ascending(q)
    ensures Ascending(Enqueue(q, e))
    decreases |q|
  {
    if q != [] && q[0].at <= e.at {
      EnqueueAscends(q[1..], e);
      EnqueueHolds(q[1..], e);
      var rest := Enqueue(q[1..], e);
      forall j | 0 <= j < |rest| ensures q[0].at <= rest[j].at {
        assert rest[j] in multiset(rest);
        assert rest[j] in q[1..] || rest[j] == e;
      }
    }
  }

  lemma {:induction false} DueAscending(q: seq<Entry>, now: nat)
    requires Ascending(q)
    ensures forall i :: 0 <= i < |q| ==> (i < Due(q, now) <==> q[i].at <= now)
    decreases |q|
  {
    if q != [] && q[0].at <= now {
      DueAscending(q[1..], now);
    }
  }

  lemma ActKeeps(s: State, a: Action)
    requires Sound(s)
    ensures Sound(Act(s, a))
  {
    match a
    case AddNew(handler) => AddsOne(s.added, s.sockets, s.deleted, Owned(|s.added|, handler));
    case RunAt(at, closure) => EnqueueAscends(s.queue, Entry(at, closure));
    case _ =>
  }

  lemma {:induction false} ActsKeep(s: State, actions: seq<Action>)
    requires Sound(s)
    ensures Sound(Acts(s, actions))
    decreases |actions|
  {
    if actions != [] {
      hide Sound, Act;
      ActsKeep(s, actions[..|actions| - 1]);
      ActKeeps(Acts(s, actions[..|actions| - 1]), actions[|actions| - 1]);
    }
  }

  lemma CleanKeeps(s: State, kept: seq<Owned>)
    requires Sound(s) && Stays(s, kept)
    ensures Sound(Cleaned(s, kept)) && |Cleaned(s, kept).poll| == |kept|
  {
    if s.dirty {
      if s.sockets != [] {
        ScanOwned(s.added, s.sockets, s.del, kept, s.deleted);
      }
      hide AllOwned, Kept, Ascending;
    }
  }

  lemma PassKeeps(s: State, now: nat)
    requires Sound(s)
    ensures Sound(Passed(s, now))
  {
    hide AllOwned, Due, Fire;
  }

  /** What a turn's handlers find: what was noted is cleaned up and what was due has fired. */
  ghost function Found(turn: Turn, s: State, kept: seq<Owned>): State {
    Passed(Cleaned(s, kept), turn.now)
  }

  lemma TurnKeeps(turn: Turn, s: State, kept: seq<Owned>, t: State)
    requires Sound(s) && TurnDone(turn, s, kept, t)
    ensures Sound(Found(turn, s, kept)) && |Found(turn, s, kept).poll| == |kept| && Sound(t)
    ensures Bare(t) == if turn.terminated then Bare(Found(turn, s, kept))
      else Acts(Bare(Found(turn, s, kept)), Done(turn, |kept|))
  {
    CleanKeeps(s, kept);
    hide Sound, Stays, Cleaned, Handled, Acts, Done;
    PassKeeps(Cleaned(s, kept), turn.now);
    var p := Found(turn, s, kept);
    if !turn.terminated {
      ScanActs(p, turn, |p.poll|);
      BareSound(p);
      ActsKeep(Bare(p), Done(turn, |p.poll|));
      BareSound(t);
    }
  }

  lemma BareSound(s: State)
    ensures Sound(Bare(s)) <==> Sound(s)
  {
    hide AllOwned, Ascending;
  }

  /** Every state between turns is sound. */
  lemma {:induction false} LoopSound(turns: seq<Turn>, s: State, t: State, rc: int, states: seq<State>,
      kepts: seq<seq<Owned>>, k: nat)
    requires LoopDone(turns, s, t, rc, states, kepts) && Sound(s) && k <= |kepts|
    ensures Sound(states[k])
    decreases k
  {
    if k > 0 {
      LoopSound(turns, s, t, rc, states, kepts, k - 1);
      assert TurnDone(turns[k - 1], states[k - 1], kepts[k - 1], states[k - 1 + 1]);
      hide Sound, TurnDone;
      TurnKeeps(turns[k - 1], states[k - 1], kepts[k - 1], states[k]);
    }
  }

  lemma {:induction false} MapAscends(slots: seq<Slot>)
    requires IsMap(slots)
    ensures Ascending(Queue(slots))
    decreases |slots|
  {
    if slots != [] {
      MapAscends(slots[1..]);
      if slots[1..] != [] {
        QueueHead(slots[1..]);
      }
    }
  }

  /** A reactor's state is sound. */
  lemma ValidIsSound(reactor: Reactor)
    requires reactor.Valid()
    ensures Sound(reactor.Now())
  {
    MapAscends(reactor.timers);
    hide Queue, AllOwned;
  }

  // ---- Whole runs -----------------------------------------------------------

  /** In turn `k`, which another one follows, some handler does this. */
  ghost predicate HandlerDoes(turns: seq<Turn>, kepts: seq<seq<Owned>>, k: nat, action: Action) {
    && k < |kepts| <= |turns| && !turns[k].terminated
    && exists i :: 0 <= i < |kepts[k]| && i in turns[k].ready && action in turns[k].handlers(i)
  }

  /** From one turn to the next. */
  lemma TurnAt(turns: seq<Turn>, s: State, t: State, rc: int, states: seq<State>, kepts: seq<seq<Owned>>, k: nat)
    requires LoopDone(turns, s, t, rc, states, kepts) && Sound(s) && k < |kepts|
    ensures TurnDone(turns[k], states[k], kepts[k], states[k + 1]) && Sound(states[k]) && Sound(states[k + 1])
    ensures Sound(Found(turns[k], states[k], kepts[k])) && Found(turns[k], states[k], kepts[k]).del == map[]
    ensures !turns[k].terminated ==>
      Bare(states[k + 1]) == Acts(Bare(Found(turns[k], states[k], kepts[k])), Done(turns[k], |kepts[k]|))
  {
    LoopSound(turns, s, t, rc, states, kepts, k);
    LoopSound(turns, s, t, rc, states, kepts, k + 1);
    hide TurnDone, Acts, Done;
    TurnKeeps(turns[k], states[k], kepts[k], states[k + 1]);
  }

  lemma DoneDoes(turns: seq<Turn>, kepts: seq<seq<Owned>>, k: nat, action: Action)
    requires HandlerDoes(turns, kepts, k, action)
    ensures action in Done(turns[k], |kepts[k]|)
  {
    var i :| 0 <= i < |kepts[k]| && i in turns[k].ready && action in turns[k].handlers(i);
    DoneHas(turns[k], |kepts[k]|, i);
  }

  /** How often handlers ask in a turn for the socket to be deleted, with that callback. */
  ghost function Asked(turns: seq<Turn>, kepts: seq<seq<Owned>>, k: nat, sock: Sock, callback: Closure): nat
    requires k < |kepts| && k < |turns|
  {
    multiset(NewCallbacks(Done(turns[k], |kepts[k]|), sock))[callback]
  }

  /**
   * A deletion that a handler asks for is made by the next turn. The socket, if
   * it is listed then and not first, is deleted, once and for all, and the
   * callback runs as often as it was asked for.
   */
  lemma DeletionIsMade(turns: seq<Turn>, s: State, t: State, rc: int, states: seq<State>, kepts: seq<seq<Owned>>,
      k: nat, sock: Sock, callback: Closure)
    requires LoopDone(turns, s, t, rc, states, kepts) && Sound(s) && k + 1 < |kepts|
    requires HandlerDoes(turns, kepts, k, Delete(sock, callback)) && Listed(states[k + 1].sockets, sock)
    ensures sock in Socks(states[k + 2].deleted) && Distinct(states[k + 2].deleted)
    ensures sock !in Socks(states[k + 2].sockets)
    ensures Asked(turns, kepts, k, sock, callback) > 0
    ensures var run := CallbackRun(sock, callback);
      multiset(states[k + 2].callbacks)[run] ==
        multiset(states[k + 1].callbacks)[run] + Asked(turns, kepts, k, sock, callback)
  {
    TurnAt(turns, s, t, rc, states, kepts, k);
    TurnAt(turns, s, t, rc, states, kepts, k + 1);
    DoneDoes(turns, kepts, k, Delete(sock, callback));
    hide LoopDone, Sound, HandlerDoes, TurnDone, Done;
    var actions := Done(turns[k], |kepts[k]|);
    DeletionsNoted(Bare(Found(turns[k], states[k], kepts[k])), actions, sock);
    NotedIn(actions, sock);
    FlagsSet(Bare(Found(turns[k], states[k], kepts[k])), actions);
    hide Acts, Found, NewCallbacks;
    NextDeletes(turns[k + 1], states[k + 1], kepts[k + 1], states[k + 2], sock, callback);
  }

  /** The clean-up of a turn. */
  lemma NextDeletes(turn: Turn, s: State, kept: seq<Owned>, t: State, sock: Sock, callback: Closure)
    requires TurnDone(turn, s, kept, t) && Sound(s) && Sound(t) && s.dirty && sock in s.del && Listed(s.sockets, sock)
    ensures sock in Socks(t.deleted) && Distinct(t.deleted) && sock !in Socks(t.sockets)
    ensures var run := CallbackRun(sock, callback);
      multiset(t.callbacks)[run] == multiset(s.callbacks)[run] + multiset(s.del[sock])[callback]
  {
    var gone := Removed(s.sockets, s.del, 1);
    TurnCleans(turn, s, kept, t);
    OwnedOnce(s.added, s.sockets, s.deleted);
    OwnedOnce(t.added, t.sockets, t.deleted);
    hide TurnDone, Sound, Removed, Callbacks, AllOwned;
    DeletionIsExact(s.sockets, s.del);
    hide Listed;
    var j :| 0 <= j < |gone| && gone[j].sock == sock;
    assert t.deleted[|s.deleted| + j].sock == sock;
    assert multiset(t.callbacks) == multiset(s.callbacks) + multiset(Callbacks(gone, s.del));
  }

  lemma TurnCleans(turn: Turn, s: State, kept: seq<Owned>, t: State)
    requires TurnDone(turn, s, kept, t) && s.dirty
    ensures var gone := Removed(s.sockets, s.del, 1);
      t.deleted == s.deleted + gone && t.callbacks == s.callbacks + Callbacks(gone, s.del)
  {
    hide Removed, Callbacks, Due, Fire, Stays;
  }

  lemma QuitSeen(p: State, actions: seq<Action>, t: State)
    requires Bare(t) == Acts(Bare(p), actions) && SetQuit in actions
    ensures t.quit
  {
    FlagsSet(Bare(p), actions);
    hide Acts;
    assert Bare(t).quit;
  }

  /** A handler that ends the loop ends it: its turn is the last. */
  lemma QuitIsLast(turns: seq<Turn>, s: State, t: State, rc: int, states: seq<State>, kepts: seq<seq<Owned>>, k: nat)
    requires LoopDone(turns, s, t, rc, states, kepts) && Sound(s) && HandlerDoes(turns, kepts, k, SetQuit)
    ensures |kepts| == k + 1 && rc == 0 && t.quit
  {
    assert states[k + 1].quit by {
      hide LoopDone, Sound, TurnDone, Done, Acts, Found;
      TurnAt(turns, s, t, rc, states, kepts, k);
      DoneDoes(turns, kepts, k, SetQuit);
      QuitSeen(Found(turns[k], states[k], kepts[k]), Done(turns[k], |kepts[k]|), states[k + 1]);
    }
    hide Sound, TurnDone;
  }

  /** A timer that a handler schedules waits in the queue, and fires in the next turn that is not before its time. */
  lemma TimerFires(turns: seq<Turn>, s: State, t: State, rc: int, states: seq<State>, kepts: seq<seq<Owned>>,
      k: nat, m: nat, e: Entry)
    requires LoopDone(turns, s, t, rc, states, kepts) && Sound(s) && k < m < |kepts|
    requires HandlerDoes(turns, kepts, k, RunAt(e.at, e.closure))
    requires e.at <= turns[m].now && forall i :: k < i < m ==> turns[i].now < e.at
    ensures forall i :: k < i <= m ==> e in states[i].queue
    ensures Firing(e, turns[m].now) in states[m + 1].fired
  {
    TurnAt(turns, s, t, rc, states, kepts, k);
    DoneDoes(turns, kepts, k, RunAt(e.at, e.closure));
    TimersAdded(Bare(Found(turns[k], states[k], kepts[k])), Done(turns[k], |kepts[k]|));
    TimerIn(Done(turns[k], |kepts[k]|), e);
    assert e in states[k + 1].queue by {
      hide *;
      assert e in multiset(Bare(states[k + 1]).queue);
    }
    hide Sound, HandlerDoes, TurnDone, Done, Acts, Found;
    for i := k + 1 to m
      invariant forall j :: k < j <= i ==> e in states[j].queue
    {
      TurnAt(turns, s, t, rc, states, kepts, i);
      TimerWaits(turns[i], states[i], kepts[i], states[i + 1], e);
    }
    TurnAt(turns, s, t, rc, states, kepts, m);
    TimerGoes(turns[m], states[m], kepts[m], states[m + 1], e);
  }

  lemma {:induction false} TimerIn(actions: seq<Action>, e: Entry)
    requires RunAt(e.at, e.closure) in actions
    ensures e in NewTimers(actions)
    decreases |actions|
  {
    if actions[0] != RunAt(e.at, e.closure) {
      TimerIn(actions[1..], e);
    }
  }

  lemma TimerWaits(turn: Turn, s: State, kept: seq<Owned>, t: State, e: Entry)
    requires TurnDone(turn, s, kept, t) && Sound(s) && e in s.queue && turn.now < e.at
    ensures e in t.queue
  {
    var p := Found(turn, s, kept);
    TurnKeeps(turn, s, kept, t);
    StillQueued(s, kept, turn.now, e);
    hide TurnDone, Sound, Done, Found;
    if !turn.terminated {
      TimersAdded(Bare(p), Done(turn, |kept|));
      hide Acts;
      assert e in multiset(Bare(p).queue) && e in multiset(Bare(t).queue);
    } else {
      assert Bare(t).queue == t.queue && Bare(p).queue == p.queue;
    }
  }

  lemma StillQueued(s: State, kept: seq<Owned>, now: nat, e: Entry)
    requires Sound(s) && e in s.queue && now < e.at
    ensures e in Passed(Cleaned(s, kept), now).queue
  {
    DueAscending(s.queue, now);
    hide Due, Fire, Removed, Callbacks;
    var n := Due(s.queue, now);
    var i :| 0 <= i < |s.queue| && s.queue[i] == e;
    assert s.queue[n..][i - n] == e;
  }

  lemma TimerGoes(turn: Turn, s: State, kept: seq<Owned>, t: State, e: Entry)
    requires TurnDone(turn, s, kept, t) && Sound(s) && e in s.queue && e.at <= turn.now
    ensures Firing(e, turn.now) in t.fired
  {
    DueAscending(s.queue, turn.now);
    hide Due, Sound;
    var i :| 0 <= i < |s.queue| && s.queue[i] == e;
    var n := Due(s.queue, turn.now);
    assert t.fired == s.fired + Fire(s.queue[..n], turn.now);
    assert t.fired[|s.fired| + i] == Firing(e, turn.now);
  }

  /** A socket that a handler adds is polled from the next turn on, unless its deletion was asked for as well. */
  lemma AddedIsPolled(turns: seq<Turn>, s: State, t: State, rc: int, states: seq<State>, kepts: seq<seq<Owned>>,
      k: nat, handler: Closure) returns (sock: Sock)
    requires LoopDone(turns, s, t, rc, states, kepts) && Sound(s) && k + 1 < |kepts|
    requires HandlerDoes(turns, kepts, k, AddNew(handler))
    ensures sock >= |states[k].added| && Owned(sock, handler) in states[k + 1].sockets
    ensures sock in states[k + 1].del || sock in states[k + 2].poll
  {
    TurnAt(turns, s, t, rc, states, kepts, k);
    TurnAt(turns, s, t, rc, states, kepts, k + 1);
    DoneDoes(turns, kepts, k, AddNew(handler));
    FoundAdded(turns[k], states[k], kepts[k]);
    hide LoopDone, Sound, HandlerDoes, Done, Found, TurnDone;
    sock := AddedIn(Found(turns[k], states[k], kepts[k]), Done(turns[k], |kepts[k]|), states[k + 1], handler);
    hide Acts;
    if sock !in states[k + 1].del {
      NextPolls(turns[k + 1], states[k + 1], kepts[k + 1], states[k + 2], Owned(sock, handler));
    }
  }

  lemma FoundAdded(turn: Turn, s: State, kept: seq<Owned>)
    ensures Found(turn, s, kept).added == s.added
  {
  }

  lemma AddedIn(p: State, actions: seq<Action>, t: State, handler: Closure) returns (sock: Sock)
    requires Bare(t) == Acts(Bare(p), actions) && AddNew(handler) in actions
    ensures sock >= |p.added| && Owned(sock, handler) in t.sockets && t.dirty
  {
    SocketsAdded(Bare(p), actions);
    FlagsSet(Bare(p), actions);
    HandlerIn(actions, handler);
    hide Acts, NewHandlers;
    assert Bare(t).dirty && Bare(t).sockets == t.sockets;
    var handlers := NewHandlers(actions);
    var i :| 0 <= i < |handlers| && handlers[i] == handler;
    sock := |p.added| + i;
    assert t.sockets[|p.sockets| + i] == Owned(sock, handler);
  }

  lemma {:induction false} HandlerIn(actions: seq<Action>, handler: Closure)
    requires AddNew(handler) in actions
    ensures handler in NewHandlers(actions)
    decreases |actions|
  {
    if actions[0] != AddNew(handler) {
      HandlerIn(actions[1..], handler);
    }
  }

  lemma NextPolls(turn: Turn, s: State, kept: seq<Owned>, t: State, e: Owned)
    requires TurnDone(turn, s, kept, t) && s.dirty && e in s.sockets && e.sock !in s.del
    ensures e.sock in t.poll
  {
    assert t.poll == Numbers(kept);
    hide TurnDone;
    assert e in kept by {
      var i :| 0 <= i < |s.sockets| && s.sockets[i] == e;
      if i > 0 {
        KeptHas(s.sockets, s.del, 1, i);
        assert e in multiset(kept[1..]);
      }
    }
    var j :| 0 <= j < |kept| && kept[j] == e;
    assert Numbers(kept)[j] == e.sock;
  }

  lemma {:induction false} KeptHas(sockets: seq<Owned>, del: Scheduled, lo: nat, i: nat)
    requires lo <= i < |sockets| && sockets[i].sock !in del
    ensures sockets[i] in Kept(sockets, del, lo)
    decreases |sockets| - lo
  {
    var first := if sockets[lo].sock in del then [] else [sockets[lo]];
    var later := Kept(sockets, del, lo + 1);
    assert Kept(sockets, del, lo) == first + later;
    if lo < i {
      KeptHas(sockets, del, lo + 1, i);
      hide Kept;
      var j :| 0 <= j < |later| && later[j] == sockets[i];
      assert (first + later)[|first| + j] == sockets[i];
    } else {
      hide Kept;
      assert (first + later)[0] == sockets[i];
    }
  }
}
