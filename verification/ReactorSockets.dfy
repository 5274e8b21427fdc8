/**
 * The socket list of src/rpcz/reactor.cc: who owns a socket, and what the
 * deferred, backward swap-with-last deletion takes out of the list.
 */
module ReactorSockets {
  import opened Sequences
  import opened ReactorTimers

  type Sock = nat

  /** A socket and the closure that handles it; both are owned. */
  datatype Owned = Owned(sock: Sock, handler: Closure)

  // ---- Deletion -------------------------------------------------------------

  type Scheduled = map<Sock, seq<Closure>>

  /** The sockets at index `lo` or above that are scheduled, last first. */
  function Removed(sockets: seq<Owned>, scheduled: Scheduled, lo: nat): seq<Owned>
    decreases |sockets| - lo
  {
    if lo >= |sockets| then []
    else Removed(sockets, scheduled, lo + 1) + if sockets[lo].sock in scheduled then [sockets[lo]] else []
  }

  /** The others. */
  function Kept(sockets: seq<Owned>, scheduled: Scheduled, lo: nat): seq<Owned>
    decreases |sockets| - lo
  {
    if lo >= |sockets| then []
    else (if sockets[lo].sock in scheduled then [] else [sockets[lo]]) + Kept(sockets, scheduled, lo + 1)
  }

  /** A deletion callback that ran, and the socket it was scheduled with. */
  datatype CallbackRun = CallbackRun(sock: Sock, closure: Closure)

  function Runs(sock: Sock, closures: seq<Closure>): (runs: seq<CallbackRun>)
    ensures |runs| == |closures| && forall i :: 0 <= i < |runs| ==> runs[i] == CallbackRun(sock, closures[i])
  {
    seq(|closures|, i requires 0 <= i < |closures| => CallbackRun(sock, closures[i]))
  }

  /** The callbacks of removed sockets, in the order they were scheduled. */
  function Callbacks(removed: seq<Owned>, scheduled: Scheduled): seq<CallbackRun> {
    if removed == [] then []
    else
      var sock := removed[|removed| - 1].sock;
      Callbacks(removed[..|removed| - 1], scheduled) + if sock in scheduled then Runs(sock, scheduled[sock]) else []
  }

  function Socks(owned: seq<Owned>): set<Sock> {
    set k | 0 <= k < |owned| :: owned[k].sock
  }

  ghost predicate Distinct(sockets: seq<Owned>) {
    forall i, j :: 0 <= i < j < |sockets| ==> sockets[i].sock != sockets[j].sock
  }

  lemma {:induction false} RemovedAre(sockets: seq<Owned>, scheduled: Scheduled, lo: nat)
    ensures forall e :: e in Removed(sockets, scheduled, lo) <==>
      exists k :: lo <= k < |sockets| && sockets[k] == e && e.sock in scheduled
    decreases |sockets| - lo
  {
    if lo < |sockets| {
      RemovedAre(sockets, scheduled, lo + 1);
      forall e ensures e in Removed(sockets, scheduled, lo) <==>
        exists k :: lo <= k < |sockets| && sockets[k] == e && e.sock in scheduled
      {
        assert e in Removed(sockets, scheduled, lo) <==>
          e in Removed(sockets, scheduled, lo + 1) || (e == sockets[lo] && e.sock in scheduled);
      }
    }
  }

  lemma HeadCounts(r: seq<Owned>, k: seq<Owned>, x: Owned, rest: seq<Owned>)
    requires multiset(r) + multiset(k) == multiset(rest)
    ensures multiset(r + [x]) + multiset(k) == multiset([x] + rest)
    ensures multiset(r) + multiset([x] + k) == multiset([x] + rest)
  {
    assert multiset(r + [x]) == multiset(r) + multiset{x};
    assert multiset([x] + k) == multiset{x} + multiset(k);
    assert multiset([x] + rest) == multiset{x} + multiset(rest);
  }

  lemma Joins<T>(x: seq<T>, a: seq<T>, b: seq<T>)
    ensures x + (a + b) == x + a + b
    ensures x + [] == x && [] + x == x
  {
  }

  /** Nothing is skipped and nothing is counted twice. */
  lemma {:induction false} RemovedAndKept(sockets: seq<Owned>, scheduled: Scheduled, lo: nat)
    requires lo <= |sockets|
    ensures multiset(Removed(sockets, scheduled, lo)) + multiset(Kept(sockets, scheduled, lo)) ==
      multiset(sockets[lo..])
    decreases |sockets| - lo
  {
    if lo < |sockets| {
      RemovedAndKept(sockets, scheduled, lo + 1);
      assert sockets[lo..] == [sockets[lo]] + sockets[lo + 1..];
      var r, k := Removed(sockets, scheduled, lo + 1), Kept(sockets, scheduled, lo + 1);
      Joins(r, [], []);
      Joins(k, [], []);
      hide Removed, Kept;
      HeadCounts(r, k, sockets[lo], sockets[lo + 1..]);
    }
    assert lo == |sockets| ==> sockets[lo..] == [];
  }

  lemma {:induction false} NothingScheduled(sockets: seq<Owned>, scheduled: Scheduled, lo: nat)
    requires lo <= |sockets| && forall k :: lo <= k < |sockets| ==> sockets[k].sock !in scheduled
    ensures Removed(sockets, scheduled, lo) == [] && Kept(sockets, scheduled, lo) == sockets[lo..]
    decreases |sockets| - lo
  {
    if lo < |sockets| {
      NothingScheduled(sockets, scheduled, lo + 1);
      assert sockets[lo..] == [sockets[lo]] + sockets[lo + 1..];
    }
  }

  /** With nothing left to remove below `hi`, the scan could as well go on to the start. */
  lemma {:induction false} RestUnscheduled(sockets: seq<Owned>, scheduled: Scheduled, lo: nat, hi: nat)
    requires lo <= hi <= |sockets| && forall k :: lo <= k < hi ==> sockets[k].sock !in scheduled
    ensures Removed(sockets, scheduled, lo) == Removed(sockets, scheduled, hi)
    ensures Kept(sockets, scheduled, lo) == sockets[lo..hi] + Kept(sockets, scheduled, hi)
    decreases hi - lo
  {
    if lo < hi {
      RestUnscheduled(sockets, scheduled, lo + 1, hi);
      Joins(Removed(sockets, scheduled, lo + 1), [], []);
      assert Kept(sockets, scheduled, lo) == [sockets[lo]] + Kept(sockets, scheduled, lo + 1);
      hide Removed, Kept;
      assert sockets[lo..hi] == [sockets[lo]] + sockets[lo + 1..hi];
      Joins([sockets[lo]], sockets[lo + 1..hi], Kept(sockets, scheduled, hi));
    } else {
      Joins(Kept(sockets, scheduled, hi), [], []);
    }
  }

  /** Filling place `i` with the last element and dropping the last. */
  function SwapRemove(s: seq<Owned>, i: nat): (s': seq<Owned>)
    requires i < |s|
    ensures |s'| == |s| - 1
  {
    s[i := s[|s| - 1]][..|s| - 1]
  }

  /** That loses just what was there. */
  lemma SwapOut(s: seq<Owned>, i: nat)
    requires i < |s|
    ensures SwapRemove(s, i)[..i] == s[..i]
    ensures multiset(SwapRemove(s, i)[i..]) == multiset(s[i + 1..])
  {
    var n := |s| - 1;
    if i == n {
      assert SwapRemove(s, i)[i..] == s[i + 1..] == [];
    } else {
      assert SwapRemove(s, i)[i..] == [s[n]] + s[i + 1..n];
      assert s[i + 1..] == s[i + 1..n] + [s[n]];
      hide SwapRemove;
      SwapCounts(s[i + 1..n], s[n]);
    }
  }

  lemma SwapCounts(b: seq<Owned>, y: Owned)
    ensures multiset([y] + b) == multiset(b + [y])
  {
    assert multiset([y] + b) == multiset{y} + multiset(b);
    assert multiset(b + [y]) == multiset(b) + multiset{y};
  }

  /**
   * How far the backward scan of `s0` has come when it is about to look at
   * index `i`: what is left of the list, of the schedule, and what is gone.
   */
  ghost predicate Scanned(s0: seq<Owned>, d0: Scheduled, i: nat, sockets: seq<Owned>, del: Scheduled,
      gone: seq<Owned>) {
    && i < |sockets| && i < |s0|
    && sockets[..i + 1] == s0[..i + 1]
    && gone == Removed(s0, d0, i + 1)
    && multiset(sockets[i + 1..]) == multiset(Kept(s0, d0, i + 1))
    && (forall sock :: sock in del <==> sock in d0 && sock !in Socks(gone))
    && (forall sock :: sock in del ==> del[sock] == d0[sock])
  }

  lemma ScanStarts(s0: seq<Owned>, d0: Scheduled)
    requires s0 != []
    ensures Scanned(s0, d0, |s0| - 1, s0, d0, [])
  {
  }

  /** What has not been reached is scheduled as it was at the start. */
  lemma StillScheduled(s0: seq<Owned>, d0: Scheduled, i: nat, sockets: seq<Owned>, del: Scheduled, gone: seq<Owned>,
      k: nat)
    requires Scanned(s0, d0, i, sockets, del, gone) && Distinct(s0) && k <= i
    ensures sockets[k] == s0[k] && (s0[k].sock in del <==> s0[k].sock in d0)
  {
    assert sockets[k] == sockets[..i + 1][k] == s0[..i + 1][k];
    RemovedAre(s0, d0, i + 1);
    hide Removed, Kept;
    forall m | 0 <= m < |gone| ensures gone[m].sock != s0[k].sock {
      assert gone[m] in gone;
    }
  }

  lemma PrefixShrinks(a: seq<Owned>, b: seq<Owned>, i: nat)
    requires i < |a| && i < |b| && a[..i + 1] == b[..i + 1]
    ensures a[..i] == b[..i]
  {
    assert a[..i] == a[..i + 1][..i] && b[..i] == b[..i + 1][..i];
  }

  lemma SameHead(x: Owned, a: seq<Owned>, b: seq<Owned>)
    requires multiset(a) == multiset(b)
    ensures multiset([x] + a) == multiset([x] + b)
  {
    assert multiset([x] + a) == multiset{x} + multiset(a) && multiset([x] + b) == multiset{x} + multiset(b);
  }

  lemma SameTail(a: seq<Owned>, i: nat, x: Owned, b: seq<Owned>)
    requires i < |a| && a[i] == x && multiset(a[i + 1..]) == multiset(b)
    ensures multiset(a[i..]) == multiset([x] + b)
  {
    SameHead(x, a[i + 1..], b);
    assert a[i..] == [x] + a[i + 1..];
  }

  /** One turn of the scan, on the lists of what goes and what stays. */
  lemma ScanUnfolds(s0: seq<Owned>, d0: Scheduled, i: nat)
    requires i < |s0|
    ensures s0[i].sock in d0 ==>
      Removed(s0, d0, i) == Removed(s0, d0, i + 1) + [s0[i]] && Kept(s0, d0, i) == Kept(s0, d0, i + 1)
    ensures s0[i].sock !in d0 ==>
      Removed(s0, d0, i) == Removed(s0, d0, i + 1) && Kept(s0, d0, i) == [s0[i]] + Kept(s0, d0, i + 1)
  {
    Joins(Removed(s0, d0, i + 1), [], []);
    Joins([], Kept(s0, d0, i + 1), []);
    Joins(Kept(s0, d0, i + 1), [], []);
  }

  lemma ScanKeeps(s0: seq<Owned>, d0: Scheduled, i: nat, sockets: seq<Owned>, del: Scheduled, gone: seq<Owned>)
    requires Scanned(s0, d0, i, sockets, del, gone) && Distinct(s0) && i > 0
    requires sockets[i].sock !in del
    ensures Scanned(s0, d0, i - 1, sockets, del, gone)
  {
    hide Removed, Kept, Socks, Distinct;
    StillScheduled(s0, d0, i, sockets, del, gone, i);
    ScanUnfolds(s0, d0, i);
    PrefixShrinks(sockets, s0, i);
    SameTail(sockets, i, s0[i], Kept(s0, d0, i + 1));
  }

  lemma ScanRemoves(s0: seq<Owned>, d0: Scheduled, i: nat, sockets: seq<Owned>, del: Scheduled, gone: seq<Owned>)
    requires Scanned(s0, d0, i, sockets, del, gone) && Distinct(s0) && i > 0
    requires sockets[i].sock in del
    ensures Scanned(s0, d0, i - 1, sockets[i := sockets[|sockets| - 1]][..|sockets| - 1],
              del - {sockets[i].sock}, gone + [sockets[i]])
  {
    assert SwapRemove(sockets, i) == sockets[i := sockets[|sockets| - 1]][..|sockets| - 1];
    hide Removed, Kept, SwapRemove, Distinct;
    StillScheduled(s0, d0, i, sockets, del, gone, i);
    SwapOut(sockets, i);
    ScanUnfolds(s0, d0, i);
    PrefixShrinks(sockets, s0, i);
    SocksGrow(gone, sockets[i]);
  }

  lemma SocksGrow(gone: seq<Owned>, e: Owned)
    ensures Socks(gone + [e]) == Socks(gone) + {e.sock}
  {
    forall sock ensures sock in Socks(gone + [e]) <==> sock in Socks(gone) + {e.sock} {
      if sock in Socks(gone) {
        var k :| 0 <= k < |gone| && gone[k].sock == sock;
        assert (gone + [e])[k].sock == sock;
      }
      if sock == e.sock {
        assert (gone + [e])[|gone|].sock == sock;
      }
    }
  }

  lemma MiddleCounts(a: seq<Owned>, b: seq<Owned>, i: nat, tail: seq<Owned>)
    requires i < |a| && i < |b| && a[..i + 1] == b[..i + 1] && multiset(a[i + 1..]) == multiset(tail)
    ensures multiset(a[1..]) == multiset(b[1..i + 1] + tail)
  {
    var mid := b[1..i + 1];
    assert mid == b[..i + 1][1..] == a[..i + 1][1..];
    assert a[1..] == mid + a[i + 1..];
    assert multiset(mid + a[i + 1..]) == multiset(mid) + multiset(a[i + 1..]);
    assert multiset(mid + tail) == multiset(mid) + multiset(tail);
  }

  /** The scan may stop early once nothing is scheduled any more. */
  lemma ScanEnds(s0: seq<Owned>, d0: Scheduled, i: nat, sockets: seq<Owned>, del: Scheduled, gone: seq<Owned>)
    requires Scanned(s0, d0, i, sockets, del, gone) && Distinct(s0) && (i == 0 || del == map[])
    ensures gone == Removed(s0, d0, 1) && sockets[0] == s0[0]
    ensures multiset(sockets[1..]) == multiset(Kept(s0, d0, 1))
  {
    StillScheduled(s0, d0, i, sockets, del, gone, 0);
    if i > 0 {
      forall k | 1 <= k < i + 1 ensures s0[k].sock !in d0 {
        StillScheduled(s0, d0, i, sockets, del, gone, k);
      }
      RestUnscheduled(s0, d0, 1, i + 1);
      hide Removed, Kept, Socks;
      MiddleCounts(sockets, s0, i, Kept(s0, d0, i + 1));
    }
  }

  // ---- Ownership ------------------------------------------------------------

  /**
   * Every socket ever added is in the list or deleted, in one place and once.
   * `added[k]` is the socket numbered `k`.
   */
  ghost predicate AllOwned(added: seq<Owned>, sockets: seq<Owned>, deleted: seq<Owned>) {
    && (forall k :: 0 <= k < |added| ==> added[k].sock == k)
    && multiset(sockets) + multiset(deleted) == multiset(added)
  }

  lemma CountsOnce(added: seq<Owned>, e: Owned)
    requires forall k :: 0 <= k < |added| ==> added[k].sock == k
    ensures multiset(added)[e] <= 1
  {
    if e in multiset(added) {
      var k :| 0 <= k < |added| && added[k] == e;
      var left, right := added[..k], added[k + 1..];
      assert added == left + [e] + right;
      assert e !in left && e !in right;
      assert multiset(added) == multiset(left) + multiset{e} + multiset(right);
    }
  }

  lemma SameSockSame(added: seq<Owned>, a: Owned, b: Owned)
    requires (forall k :: 0 <= k < |added| ==> added[k].sock == k)
    requires a in multiset(added) && b in multiset(added) && a.sock == b.sock
    ensures a == b
  {
  }

  /** No socket is deleted twice, and none that is still in the list has been deleted. */
  lemma OwnedOnce(added: seq<Owned>, sockets: seq<Owned>, deleted: seq<Owned>)
    requires AllOwned(added, sockets, deleted)
    ensures Distinct(sockets) && Distinct(deleted)
    ensures forall i, j :: 0 <= i < |sockets| && 0 <= j < |deleted| ==> sockets[i].sock != deleted[j].sock
  {
    forall i, j | 0 <= i < j < |sockets| ensures sockets[i].sock != sockets[j].sock {
      NotTwice(added, sockets, deleted, i, j);
    }
    forall i, j | 0 <= i < j < |deleted| ensures deleted[i].sock != deleted[j].sock {
      NotTwice(added, deleted, sockets, i, j);
    }
    forall i, j | 0 <= i < |sockets| && 0 <= j < |deleted| ensures sockets[i].sock != deleted[j].sock {
      assert sockets[i] in multiset(sockets) && deleted[j] in multiset(deleted);
      CountsOnce(added, sockets[i]);
      assert sockets[i] != deleted[j];
      if sockets[i].sock == deleted[j].sock {
        SameSockSame(added, sockets[i], deleted[j]);
      }
    }
  }

  lemma NotTwice(added: seq<Owned>, here: seq<Owned>, there: seq<Owned>, i: nat, j: nat)
    requires AllOwned(added, here, there) || AllOwned(added, there, here)
    requires i < j < |here|
    ensures here[i].sock != here[j].sock
  {
    assert here[i] in multiset(here) && here[j] in multiset(here);
    CountsOnce(added, here[i]);
    assert here[i] != here[j] by {
      if here[i] == here[j] {
        TwiceIn(here, i, j);
      }
    }
    if here[i].sock == here[j].sock {
      SameSockSame(added, here[i], here[j]);
    }
  }

  lemma NothingToScan(s0: seq<Owned>, d0: Scheduled)
    requires d0 == map[] || s0 == []
    ensures Removed(s0, d0, 1) == [] && Callbacks([], d0) == []
    ensures s0 != [] ==> Kept(s0, d0, 1) == s0[1..]
  {
    if s0 != [] {
      NothingScheduled(s0, d0, 1);
    }
  }

  lemma NoCallbacks(d0: Scheduled)
    ensures Callbacks([], d0) == []
  {
  }

  lemma MoreCallbacks(gone: seq<Owned>, e: Owned, d0: Scheduled)
    requires e.sock in d0
    ensures Callbacks(gone + [e], d0) == Callbacks(gone, d0) + Runs(e.sock, d0[e.sock])
  {
    assert (gone + [e])[..|gone|] == gone;
  }

  lemma ScheduledSame(s0: seq<Owned>, d0: Scheduled, i: nat, sockets: seq<Owned>, del: Scheduled, gone: seq<Owned>,
      sock: Sock)
    requires Scanned(s0, d0, i, sockets, del, gone) && sock in del
    ensures sock in d0 && del[sock] == d0[sock]
  {
  }

  /** The scan moves sockets from the list to the deleted ones and does nothing else. */
  lemma ScanOwned(added: seq<Owned>, s0: seq<Owned>, d0: Scheduled, sockets: seq<Owned>, deleted: seq<Owned>)
    requires AllOwned(added, s0, deleted) && s0 != [] && sockets != [] && sockets[0] == s0[0]
    requires multiset(sockets[1..]) == multiset(Kept(s0, d0, 1))
    ensures AllOwned(added, sockets, deleted + Removed(s0, d0, 1))
  {
    hide Removed, Kept;
    ScanCounts(s0, d0, sockets);
    OwnedMoves(added, s0, sockets, deleted, Removed(s0, d0, 1));
  }

  lemma ScanCounts(s0: seq<Owned>, d0: Scheduled, sockets: seq<Owned>)
    requires s0 != [] && sockets != [] && sockets[0] == s0[0]
    requires multiset(sockets[1..]) == multiset(Kept(s0, d0, 1))
    ensures multiset(Removed(s0, d0, 1)) + multiset(sockets) == multiset(s0)
  {
    RemovedAndKept(s0, d0, 1);
    hide Removed, Kept;
    TailCounts(Removed(s0, d0, 1), sockets, s0);
  }

  lemma TailCounts(gone: seq<Owned>, a: seq<Owned>, b: seq<Owned>)
    requires a != [] && b != [] && a[0] == b[0] && multiset(gone) + multiset(a[1..]) == multiset(b[1..])
    ensures multiset(gone) + multiset(a) == multiset(b)
  {
    HeadCounts(gone, a[1..], a[0], b[1..]);
    HeadTail(a);
    HeadTail(b);
  }

  lemma HeadTail(a: seq<Owned>)
    requires a != []
    ensures [a[0]] + a[1..] == a
  {
  }

  lemma OwnedMoves(added: seq<Owned>, before: seq<Owned>, left: seq<Owned>, deleted: seq<Owned>, gone: seq<Owned>)
    requires AllOwned(added, before, deleted) && multiset(gone) + multiset(left) == multiset(before)
    ensures AllOwned(added, left, deleted + gone)
  {
    assert multiset(deleted + gone) == multiset(deleted) + multiset(gone);
  }

  /** What is in the list was added and has not been deleted. */
  lemma StoredIsAlive(added: seq<Owned>, sockets: seq<Owned>, deleted: seq<Owned>, i: nat)
    requires AllOwned(added, sockets, deleted) && i < |sockets|
    ensures sockets[i].sock < |added| && added[sockets[i].sock] == sockets[i]
    ensures forall k :: 0 <= k < |deleted| ==> deleted[k].sock != sockets[i].sock
  {
    OwnedOnce(added, sockets, deleted);
    assert sockets[i] in multiset(sockets);
    assert sockets[i] in multiset(added);
  }

  lemma AddsOne(added: seq<Owned>, sockets: seq<Owned>, deleted: seq<Owned>, e: Owned)
    requires AllOwned(added, sockets, deleted) && e.sock == |added|
    ensures AllOwned(added + [e], sockets + [e], deleted)
  {
    assert multiset(sockets + [e]) == multiset(sockets) + multiset{e};
    assert multiset(added + [e]) == multiset(added) + multiset{e};
  }

  lemma {:induction false} RemovedDistinct(s0: seq<Owned>, d0: Scheduled, lo: nat)
    requires Distinct(s0)
    ensures Distinct(Removed(s0, d0, lo))
    decreases |s0| - lo
  {
    if lo < |s0| {
      RemovedDistinct(s0, d0, lo + 1);
      RemovedAre(s0, d0, lo + 1);
      var later := Removed(s0, d0, lo + 1);
      forall i | 0 <= i < |later| ensures later[i].sock != s0[lo].sock {
        assert later[i] in later;
      }
    }
  }

  // ---- What deletion does and does not do -----------------------------------

  /** The socket is in the list, and not first. */
  predicate Listed(s0: seq<Owned>, sock: Sock) {
    exists i :: 1 <= i < |s0| && s0[i].sock == sock
  }

  lemma {:induction false} RunsCount(sock: Sock, closures: seq<Closure>, run: CallbackRun)
    ensures multiset(Runs(sock, closures))[run] == if run.sock == sock then multiset(closures)[run.closure] else 0
    decreases |closures|
  {
    if closures != [] {
      var n := |closures| - 1;
      RunsCount(sock, closures[..n], run);
      assert closures == closures[..n] + [closures[n]];
      assert Runs(sock, closures) == Runs(sock, closures[..n]) + [CallbackRun(sock, closures[n])];
    }
  }

  lemma {:induction false} CallbacksCount(removed: seq<Owned>, d0: Scheduled, run: CallbackRun)
    requires Distinct(removed)
    ensures multiset(Callbacks(removed, d0))[run] ==
      if run.sock in Socks(removed) && run.sock in d0 then multiset(d0[run.sock])[run.closure] else 0
    decreases |removed|
  {
    if removed != [] {
      var n := |removed| - 1;
      var sock := removed[n].sock;
      CallbacksCount(removed[..n], d0, run);
      assert removed == removed[..n] + [removed[n]];
      SocksGrow(removed[..n], removed[n]);
      assert sock !in Socks(removed[..n]);
      var before := Callbacks(removed[..n], d0);
      var more := if sock in d0 then Runs(sock, d0[sock]) else [];
      assert Callbacks(removed, d0) == before + more;
      if sock in d0 {
        RunsCount(sock, d0[sock], run);
      }
      hide Callbacks, Runs;
      assert multiset(before + more) == multiset(before) + multiset(more);
    }
  }

  /** How often a callback should run: as often as it was scheduled, if its socket goes. */
  function Share(s0: seq<Owned>, d0: Scheduled, run: CallbackRun): nat {
    if run.sock in d0 && Listed(s0, run.sock) then multiset(d0[run.sock])[run.closure] else 0
  }

  lemma RemovedSocks(s0: seq<Owned>, d0: Scheduled, sock: Sock)
    ensures sock in Socks(Removed(s0, d0, 1)) <==> sock in d0 && Listed(s0, sock)
  {
    RemovedAre(s0, d0, 1);
    var gone := Removed(s0, d0, 1);
    hide Removed;
    if sock in Socks(gone) {
      var k :| 0 <= k < |gone| && gone[k].sock == sock;
      assert gone[k] in gone;
    }
    if sock in d0 && Listed(s0, sock) {
      var i :| 1 <= i < |s0| && s0[i].sock == sock;
      assert s0[i] in gone;
      var k :| 0 <= k < |gone| && gone[k] == s0[i];
    }
  }

  /**
   * Deferred deletion is exact. A scheduled socket is deleted if and only if it
   * is in the list and not first; nothing else is, and nothing twice. Just the
   * callbacks scheduled with deleted sockets run, as often as each was
   * scheduled; those of other sockets never do.
   */
  lemma DeletionIsExact(s0: seq<Owned>, d0: Scheduled)
    requires Distinct(s0)
    ensures forall k :: 0 <= k < |s0| ==> (s0[k] in Removed(s0, d0, 1) <==> k >= 1 && s0[k].sock in d0)
    ensures Distinct(Removed(s0, d0, 1))
    ensures forall sock :: sock in Socks(Removed(s0, d0, 1)) <==> sock in d0 && Listed(s0, sock)
    ensures forall run :: multiset(Callbacks(Removed(s0, d0, 1), d0))[run] == Share(s0, d0, run)
  {
    RemovedAre(s0, d0, 1);
    RemovedDistinct(s0, d0, 1);
    hide Removed, Callbacks, Socks;
    forall k | 0 <= k < |s0| ensures s0[k] in Removed(s0, d0, 1) <==> k >= 1 && s0[k].sock in d0 {
      if s0[k] in Removed(s0, d0, 1) {
        var m :| 1 <= m < |s0| && s0[m] == s0[k];
      }
    }
    forall sock ensures sock in Socks(Removed(s0, d0, 1)) <==> sock in d0 && Listed(s0, sock) {
      RemovedSocks(s0, d0, sock);
    }
    forall run ensures multiset(Callbacks(Removed(s0, d0, 1), d0))[run] == Share(s0, d0, run) {
      CallbacksCount(Removed(s0, d0, 1), d0, run);
    }
  }

  /** A callback runs if and only if its socket is listed and not first. */
  lemma CallbackRunsIffListed(s0: seq<Owned>, d0: Scheduled, sock: Sock, i: nat)
    requires Distinct(s0) && sock in d0 && i < |d0[sock]|
    ensures CallbackRun(sock, d0[sock][i]) in Callbacks(Removed(s0, d0, 1), d0) <==> Listed(s0, sock)
  {
    DeletionIsExact(s0, d0);
    var runs, run := Callbacks(Removed(s0, d0, 1), d0), CallbackRun(sock, d0[sock][i]);
    hide Removed, Callbacks, Listed, Distinct;
    assert d0[sock][i] in multiset(d0[sock]);
    assert run in runs <==> run in multiset(runs);
    assert multiset(runs)[run] == Share(s0, d0, run);
  }

  /** Every callback of the schedule has run. */
  ghost predicate AllRan(runs: seq<CallbackRun>, d0: Scheduled) {
    forall sock, i :: sock in d0 && 0 <= i < |d0[sock]| ==> CallbackRun(sock, d0[sock][i]) in runs
  }

  /**
   * Every deletion asked for is made, and every callback runs, if and only if
   * every socket asked for is listed and not first.
   */
  lemma AllGoIffAllListed(s0: seq<Owned>, d0: Scheduled)
    requires Distinct(s0) && forall sock :: sock in d0 ==> d0[sock] != []
    ensures d0.Keys <= Socks(Removed(s0, d0, 1)) <==> forall sock :: sock in d0 ==> Listed(s0, sock)
    ensures AllRan(Callbacks(Removed(s0, d0, 1), d0), d0) <==> forall sock :: sock in d0 ==> Listed(s0, sock)
  {
    DeletionIsExact(s0, d0);
    var runs := Callbacks(Removed(s0, d0, 1), d0);
    hide Removed, Callbacks, Socks, Listed, Distinct;
    forall sock, i: int | sock in d0 && 0 <= i < |d0[sock]|
      ensures CallbackRun(sock, d0[sock][i]) in runs <==> Listed(s0, sock)
    {
      CallbackRunsIffListed(s0, d0, sock, i);
    }
    if AllRan(runs, d0) {
      forall sock | sock in d0 ensures Listed(s0, sock) {
        assert CallbackRun(sock, d0[sock][0]) in runs;
      }
    }
  }

  /** A deletion of a socket that is not listed, and one of the first socket, are forgotten. */
  lemma ForgottenDeletions()
    ensures var s0, unlisted, first := [Owned(0, 7), Owned(1, 8)], map[5 := [9]], map[0 := [9]];
      && Removed(s0, unlisted, 1) == [] && Callbacks(Removed(s0, unlisted, 1), unlisted) == []
      && Removed(s0, first, 1) == [] && Callbacks(Removed(s0, first, 1), first) == []
  {
  }
}
