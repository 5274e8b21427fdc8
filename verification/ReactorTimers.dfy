/** The timer map of src/rpcz/reactor.cc and the stable sorted queue it implements. */
module ReactorTimers {
  import opened Sequences

  type Closure = nat

  /** One key of the map with the closures filed under it, oldest first. */
  datatype Slot = Slot(at: nat, closures: seq<Closure>)

  datatype Entry = Entry(at: nat, closure: Closure)

  /** Keys ascend, and no key is without closures. */
  predicate IsMap(slots: seq<Slot>) {
    slots == [] ||
    (&& slots[0].closures != []
     && (|slots| > 1 ==> slots[0].at < slots[1].at)
     && IsMap(slots[1..]))
  }

  /** `map[at].push_back(closure)`. */
  function File(slots: seq<Slot>, at: nat, closure: Closure): seq<Slot> {
    if slots == [] || at < slots[0].at then [Slot(at, [closure])] + slots
    else if slots[0].at == at then [Slot(at, slots[0].closures + [closure])] + slots[1..]
    else [slots[0]] + File(slots[1..], at, closure)
  }

  lemma {:induction false} FileKeeps(slots: seq<Slot>, at: nat, closure: Closure)
    requires IsMap(slots)
    ensures File(slots, at, closure) != [] && IsMap(File(slots, at, closure))
    ensures File(slots, at, closure)[0].at == if slots == [] || at < slots[0].at then at else slots[0].at
    decreases |slots|
  {
    if slots == [] || at < slots[0].at {
      assert ([Slot(at, [closure])] + slots)[1..] == slots;
    } else if slots[0].at == at {
      assert ([Slot(at, slots[0].closures + [closure])] + slots[1..])[1..] == slots[1..];
    } else {
      FileKeeps(slots[1..], at, closure);
      assert ([slots[0]] + File(slots[1..], at, closure))[1..] == File(slots[1..], at, closure);
    }
  }

  lemma {:induction false} MapSuffix(slots: seq<Slot>, k: nat)
    requires IsMap(slots) && k <= |slots|
    ensures IsMap(slots[k..])
    decreases k
  {
    if k > 0 {
      MapSuffix(slots[1..], k - 1);
      assert slots[1..][k - 1..] == slots[k..];
    } else {
      assert slots[0..] == slots;
    }
  }

  // ---- The queue ------------------------------------------------------------

  function SlotEntries(at: nat, closures: seq<Closure>): (q: seq<Entry>)
    ensures |q| == |closures| && forall i :: 0 <= i < |q| ==> q[i] == Entry(at, closures[i])
  {
    seq(|closures|, i requires 0 <= i < |closures| => Entry(at, closures[i]))
  }

  /** The closures of the map in the order in which they would run. */
  function Queue(slots: seq<Slot>): seq<Entry> {
    if slots == [] then [] else SlotEntries(slots[0].at, slots[0].closures) + Queue(slots[1..])
  }

  /** A stable sorted queue takes a new entry behind every entry that is not later. */
  function Enqueue(q: seq<Entry>, e: Entry): seq<Entry> {
    if q == [] || e.at < q[0].at then [e] + q else [q[0]] + Enqueue(q[1..], e)
  }

  /** The entries at the front that are not later than `now`. */
  function Due(q: seq<Entry>, now: nat): (n: nat)
    ensures n <= |q|
  {
    if q == [] || now < q[0].at then 0 else 1 + Due(q[1..], now)
  }

  /** An entry passes by whatever is not later than it. */
  lemma {:induction false} EnqueuePasses(p: seq<Entry>, q: seq<Entry>, e: Entry)
    requires forall i :: 0 <= i < |p| ==> p[i].at <= e.at
    ensures Enqueue(p + q, e) == p + Enqueue(q, e)
    decreases |p|
  {
    if p == [] {
      assert p + q == q;
    } else {
      assert (p + q)[1..] == p[1..] + q;
      EnqueuePasses(p[1..], q, e);
    }
  }

  lemma QueueHead(slots: seq<Slot>)
    requires IsMap(slots) && slots != []
    ensures Queue(slots) != [] && Queue(slots)[0].at == slots[0].at
  {
  }

  /** Filing in the map is queueing in the stable queue. */
  lemma {:induction false} FileEnqueues(slots: seq<Slot>, at: nat, closure: Closure)
    requires IsMap(slots)
    ensures Queue(File(slots, at, closure)) == Enqueue(Queue(slots), Entry(at, closure))
    decreases |slots|
  {
    var e := Entry(at, closure);
    if slots == [] || at < slots[0].at {
      if slots != [] {
        QueueHead(slots);
      }
      assert ([Slot(at, [closure])] + slots)[1..] == slots;
      assert SlotEntries(at, [closure]) == [e];
    } else {
      var first, rest := SlotEntries(slots[0].at, slots[0].closures), slots[1..];
      EnqueuePasses(first, Queue(rest), e);
      if slots[0].at == at {
        if rest != [] {
          QueueHead(rest);
        }
        assert SlotEntries(at, slots[0].closures + [closure]) == first + [e];
        assert first + [e] + Queue(rest) == first + ([e] + Queue(rest));
        assert ([Slot(at, slots[0].closures + [closure])] + rest)[1..] == rest;
      } else {
        FileEnqueues(rest, at, closure);
        assert ([slots[0]] + File(rest, at, closure))[1..] == File(rest, at, closure);
      }
    }
  }

  lemma {:induction false} QueueAppend(slots: seq<Slot>, more: seq<Slot>)
    ensures Queue(slots + more) == Queue(slots) + Queue(more)
    decreases |slots|
  {
    if slots == [] {
      assert slots + more == more;
    } else {
      assert (slots + more)[1..] == slots[1..] + more;
      QueueAppend(slots[1..], more);
      assert SlotEntries(slots[0].at, slots[0].closures) + (Queue(slots[1..]) + Queue(more))
          == SlotEntries(slots[0].at, slots[0].closures) + Queue(slots[1..]) + Queue(more);
    }
  }

  /** The due entries are the ones of the slots up to `now`. */
  lemma {:induction false} DueSlots(slots: seq<Slot>, k: nat, now: nat)
    requires IsMap(slots) && k <= |slots|
    requires forall i :: 0 <= i < k ==> slots[i].at <= now
    requires k < |slots| ==> now < slots[k].at
    ensures Queue(slots)[..Due(Queue(slots), now)] == Queue(slots[..k])
    ensures Queue(slots)[Due(Queue(slots), now)..] == Queue(slots[k..])
  {
    assert slots == slots[..k] + slots[k..];
    QueueAppend(slots[..k], slots[k..]);
    QueueTimes(slots[..k], now);
    if k < |slots| {
      MapSuffix(slots, k);
      QueueHead(slots[k..]);
    }
    DueAt(Queue(slots[..k]), Queue(slots[k..]), now);
  }

  lemma {:induction false} QueueTimes(slots: seq<Slot>, now: nat)
    requires forall i :: 0 <= i < |slots| ==> slots[i].at <= now
    ensures forall i :: 0 <= i < |Queue(slots)| ==> Queue(slots)[i].at <= now
    decreases |slots|
  {
    if slots != [] {
      QueueTimes(slots[1..], now);
    }
  }

  lemma {:induction false} DueAt(p: seq<Entry>, q: seq<Entry>, now: nat)
    requires forall i :: 0 <= i < |p| ==> p[i].at <= now
    requires q != [] ==> now < q[0].at
    ensures Due(p + q, now) == |p|
    decreases |p|
  {
    if p == [] {
      assert p + q == q;
    } else {
      assert (p + q)[1..] == p[1..] + q;
      DueAt(p[1..], q, now);
    }
  }

  // ---- Whole runs -----------------------------------------------------------

  /** What happens to the map: something is scheduled, or the loop makes a pass. */
  datatype Event = Schedule(at: nat) | Pass(now: nat)

  /** One closure that ran: when it was due, which one, and when it ran. */
  datatype Firing = Firing(entry: Entry, now: nat)

  /** Closures are numbered as they are scheduled. */
  datatype History = History(scheduled: seq<Entry>, queue: seq<Entry>, fired: seq<Firing>)

  function Fire(q: seq<Entry>, now: nat): (f: seq<Firing>)
    ensures |f| == |q| && forall i :: 0 <= i < |f| ==> f[i] == Firing(q[i], now)
  {
    seq(|q|, i requires 0 <= i < |q| => Firing(q[i], now))
  }

  function Happens(h: History, e: Event): History {
    match e
    case Schedule(at) =>
      var entry := Entry(at, |h.scheduled|);
      History(h.scheduled + [entry], Enqueue(h.queue, entry), h.fired)
    case Pass(now) =>
      var n := Due(h.queue, now);
      History(h.scheduled, h.queue[n..], h.fired + Fire(h.queue[..n], now))
  }

  function Run(es: seq<Event>): History {
    if es == [] then History([], [], []) else Happens(Run(es[..|es| - 1]), es[|es| - 1])
  }

  /** Timestamp order, then the order of scheduling. */
  predicate Before(a: Entry, b: Entry) {
    a.at < b.at || (a.at == b.at && a.closure < b.closure)
  }

  ghost predicate InOrder(q: seq<Entry>) {
    forall i, j :: 0 <= i < j < |q| ==> Before(q[i], q[j])
  }

  function Entries(fired: seq<Firing>): (q: seq<Entry>)
    ensures |q| == |fired| && forall i :: 0 <= i < |q| ==> q[i] == fired[i].entry
  {
    seq(|fired|, i requires 0 <= i < |fired| => fired[i].entry)
  }

  lemma {:induction false} EnqueueHolds(q: seq<Entry>, e: Entry)
    ensures multiset(Enqueue(q, e)) == multiset(q) + multiset{e}
    decreases |q|
  {
    if q == [] || e.at < q[0].at {
      assert [e] + q == [e] + q[..];
    } else {
      EnqueueHolds(q[1..], e);
      assert q == [q[0]] + q[1..];
    }
  }

  lemma {:induction false} EnqueueOrders(q: seq<Entry>, e: Entry)
    requires InOrder(q) && forall i :: 0 <= i < |q| ==> q[i].closure < e.closure
    ensures InOrder(Enqueue(q, e))
    decreases |q|
  {
    if q != [] && q[0].at <= e.at {
      EnqueueOrders(q[1..], e);
      EnqueueHolds(q[1..], e);
      var rest := Enqueue(q[1..], e);
      forall j | 0 <= j < |rest| ensures Before(q[0], rest[j]) {
        assert rest[j] in multiset(rest);
        assert rest[j] in multiset(q[1..]) || rest[j] == e;
        if rest[j] != e {
          var k :| 0 <= k < |q[1..]| && q[1..][k] == rest[j];
          assert q[k + 1] == rest[j];
        }
      }
    }
  }

  lemma {:induction false} DueExactly(q: seq<Entry>, now: nat)
    requires InOrder(q)
    ensures var n := Due(q, now);
      (forall i :: 0 <= i < n ==> q[i].at <= now) && (forall i :: n <= i < |q| ==> now < q[i].at)
    decreases |q|
  {
    if q != [] {
      if q[0].at <= now {
        DueExactly(q[1..], now);
      } else {
        forall i | 0 <= i < |q| ensures now < q[i].at {
          assert i > 0 ==> Before(q[0], q[i]);
        }
      }
    }
  }

  /** What holds after any events. */
  ghost predicate Sound(h: History) {
    && (forall i :: 0 <= i < |h.scheduled| ==> h.scheduled[i].closure == i)
    && multiset(Entries(h.fired)) + multiset(h.queue) == multiset(h.scheduled)
    && InOrder(h.queue)
    && (forall i :: 0 <= i < |h.queue| ==> h.queue[i].closure < |h.scheduled|)
    && (forall i :: 0 <= i < |h.fired| ==> h.fired[i].entry.at <= h.fired[i].now)
  }

  lemma OneMore(fired: seq<Entry>, q: seq<Entry>, q': seq<Entry>, all: seq<Entry>, e: Entry)
    requires multiset(fired) + multiset(q) == multiset(all) && multiset(q') == multiset(q) + multiset{e}
    ensures multiset(fired) + multiset(q') == multiset(all + [e])
  {
    assert multiset(all + [e]) == multiset(all) + multiset{e};
  }

  lemma ScheduleSound(h: History, at: nat)
    requires Sound(h)
    ensures Sound(Happens(h, Schedule(at)))
  {
    var entry := Entry(at, |h.scheduled|);
    EnqueueHolds(h.queue, entry);
    EnqueueOrders(h.queue, entry);
    var q := Enqueue(h.queue, entry);
    hide InOrder, Enqueue, Entries;
    OneMore(Entries(h.fired), h.queue, q, h.scheduled, entry);
    forall i | 0 <= i < |q| ensures q[i].closure <= |h.scheduled| {
      assert q[i] in multiset(h.queue) + multiset{entry};
      assert q[i] in h.queue || q[i] == entry;
    }
  }

  lemma PassSound(h: History, now: nat)
    requires Sound(h)
    ensures Sound(Happens(h, Pass(now)))
  {
    DueExactly(h.queue, now);
    var n := Due(h.queue, now);
    hide Due;
    var fired := h.fired + Fire(h.queue[..n], now);
    assert Entries(fired) == Entries(h.fired) + h.queue[..n];
    assert h.queue == h.queue[..n] + h.queue[n..];
    assert multiset(h.queue) == multiset(h.queue[..n]) + multiset(h.queue[n..]);
    Reassociates(Entries(h.fired), h.queue[..n], h.queue[n..]);
    assert InOrder(h.queue[n..]);
  }

  lemma Reassociates(a: seq<Entry>, b: seq<Entry>, c: seq<Entry>)
    ensures multiset(a + b) + multiset(c) == multiset(a) + (multiset(b) + multiset(c))
  {
  }

  lemma StepSound(h: History, e: Event)
    requires Sound(h)
    ensures Sound(Happens(h, e))
  {
    hide Sound, Happens;
    match e
    case Schedule(at) => ScheduleSound(h, at);
    case Pass(now) => PassSound(h, now);
  }

  /** Over any run no closure is lost, none runs twice and none runs before its time. */
  lemma {:induction false} AlwaysSound(es: seq<Event>)
    ensures Sound(Run(es))
    decreases |es|
  {
    if es != [] {
      AlwaysSound(es[..|es| - 1]);
      StepSound(Run(es[..|es| - 1]), es[|es| - 1]);
    }
  }

  /** One pass runs exactly what is due, in timestamp order and then in the order of scheduling. */
  lemma PassRunsDue(es: seq<Event>, now: nat)
    ensures var before, h := Run(es), Run(es + [Pass(now)]);
      && |h.queue| <= |before.queue|
      && var ran := before.queue[..|before.queue| - |h.queue|];
      && before.queue == ran + h.queue
      && h.fired == before.fired + Fire(ran, now)
      && InOrder(ran)
      && (forall i :: 0 <= i < |ran| ==> ran[i].at <= now)
      && (forall i :: 0 <= i < |h.queue| ==> now < h.queue[i].at)
  {
    AlwaysSound(es);
    var before := Run(es);
    assert (es + [Pass(now)])[..|es|] == es;
    assert Run(es + [Pass(now)]) == Happens(before, Pass(now));
    hide Run, Fire;
    DueExactly(before.queue, now);
    var n := Due(before.queue, now);
    assert InOrder(before.queue[..n]);
    hide Due, InOrder, Sound, Before;
    assert before.queue == before.queue[..n] + before.queue[n..];
  }

  /** A number occurs once among the closures that ran and those that wait. */
  lemma RunsOnce(es: seq<Event>, i: nat, j: nat)
    requires i < j < |Run(es).fired|
    ensures Run(es).fired[i].entry.closure != Run(es).fired[j].entry.closure
    ensures Run(es).fired[i].entry !in Run(es).queue
  {
    AlwaysSound(es);
    var h := Run(es);
    hide Run;
    var fired := Entries(h.fired);
    var a, b := fired[i], fired[j];
    assert a in multiset(fired) && b in multiset(fired);
    assert a in multiset(h.scheduled) && b in multiset(h.scheduled);
    CountsOnce(h.scheduled, a);
    assert multiset(fired)[a] + multiset(h.queue)[a] <= 1;
    assert a != b by {
      if a == b {
        TwiceIn(fired, i, j);
      }
    }
  }

  lemma CountsOnce(scheduled: seq<Entry>, a: Entry)
    requires forall i :: 0 <= i < |scheduled| ==> scheduled[i].closure == i
    ensures multiset(scheduled)[a] <= 1
  {
    if a in multiset(scheduled) {
      var k :| 0 <= k < |scheduled| && scheduled[k] == a;
      var left, right := scheduled[..k], scheduled[k + 1..];
      assert scheduled == left + [a] + right;
      assert a !in left && a !in right;
      assert multiset(scheduled) == multiset(left) + multiset{a} + multiset(right);
    }
  }
}
