/** Counting the controllers held by the parts of a system. */
module Bags {
  import opened Rpc

  type Bag = multiset<Ctrl>

  function Sum<T>(xs: seq<T>, f: T -> Bag): Bag {
    if xs == [] then multiset{} else Sum(xs[..|xs| - 1], f) + f(xs[|xs| - 1])
  }

  lemma SumAppend<T>(xs: seq<T>, x: T, f: T -> Bag)
    ensures Sum(xs + [x], f) == Sum(xs, f) + f(x)
  {
    assert (xs + [x])[..|xs|] == xs;
  }

  lemma {:induction false} SumConcat<T>(xs: seq<T>, ys: seq<T>, f: T -> Bag)
    ensures Sum(xs + ys, f) == Sum(xs, f) + Sum(ys, f)
    decreases |ys|
  {
    if ys == [] {
      assert xs + ys == xs;
    } else {
      SumConcat(xs, ys[..|ys| - 1], f);
      assert (xs + ys)[..|xs + ys| - 1] == xs + ys[..|ys| - 1];
    }
  }

  lemma SumSplit<T>(xs: seq<T>, i: nat, f: T -> Bag)
    requires i < |xs|
    ensures Sum(xs, f) == Sum(xs[..i], f) + f(xs[i]) + Sum(xs[i + 1..], f)
  {
    assert xs == xs[..i] + [xs[i]] + xs[i + 1..];
    SumConcat(xs[..i] + [xs[i]], xs[i + 1..], f);
    SumAppend(xs[..i], xs[i], f);
  }

  lemma SumUpdate<T>(xs: seq<T>, i: nat, y: T, f: T -> Bag)
    requires i < |xs|
    ensures Sum(xs[i := y], f) + f(xs[i]) == Sum(xs, f) + f(y)
  {
    SumSplit(xs, i, f);
    SumSplit(xs[i := y], i, f);
    assert xs[i := y][..i] == xs[..i] && xs[i := y][i + 1..] == xs[i + 1..];
  }

  /** Replacing an element by one that holds `more` adds just that. */
  lemma SumGrow<T>(xs: seq<T>, i: nat, y: T, f: T -> Bag, more: Bag)
    requires i < |xs| && f(y) == f(xs[i]) + more
    ensures Sum(xs[i := y], f) == Sum(xs, f) + more
  {
    SumUpdate(xs, i, y, f);
    var left, old', here := Sum(xs[i := y], f), Sum(xs, f), f(xs[i]);
    forall c ensures left[c] == (old' + more)[c] {
      assert (left + here)[c] == (old' + (here + more))[c];
    }
  }

  lemma SumRemove<T>(xs: seq<T>, i: nat, f: T -> Bag)
    requires i < |xs|
    ensures Sum(xs[..i] + xs[i + 1..], f) + f(xs[i]) == Sum(xs, f)
  {
    SumSplit(xs, i, f);
    SumConcat(xs[..i], xs[i + 1..], f);
  }

  lemma {:induction false} SumBelow<T>(xs: seq<T>, f: T -> Bag, g: T -> Bag)
    requires forall i :: 0 <= i < |xs| ==> f(xs[i]) <= g(xs[i])
    ensures Sum(xs, f) <= Sum(xs, g)
    decreases |xs|
  {
    if xs != [] {
      SumBelow(xs[..|xs| - 1], f, g);
    }
  }

  lemma {:induction false} SumSame<T>(xs: seq<T>, f: T -> Bag, g: T -> Bag)
    requires forall i :: 0 <= i < |xs| ==> f(xs[i]) == g(xs[i])
    ensures Sum(xs, f) == Sum(xs, g)
    decreases |xs|
  {
    if xs != [] {
      SumSame(xs[..|xs| - 1], f, g);
    }
  }

  lemma SumHas<T>(xs: seq<T>, i: nat, f: T -> Bag)
    requires i < |xs|
    ensures f(xs[i]) <= Sum(xs, f)
  {
    SumSplit(xs, i, f);
  }

  /** A controller found at two places is counted twice. */
  lemma SumTwice<T>(xs: seq<T>, i: nat, j: nat, f: T -> Bag, c: Ctrl)
    requires i < j < |xs| && c in f(xs[i]) && c in f(xs[j])
    ensures Sum(xs, f)[c] >= 2
  {
    SumSplit(xs, j, f);
    SumHas(xs[..j], i, f);
  }

  /** Every controller of the map is filed under its own event id, so each occurs once. */
  ghost predicate Keyed(m: map<nat, Ctrl>) {
    forall e :: e in m ==> m[e].eventId == e
  }

  function Held(m: map<nat, Ctrl>): set<Ctrl> {
    set e | e in m :: m[e]
  }

  /** What a map from event ids holds. */
  function MapBag(m: map<nat, Ctrl>): Bag {
    multiset(Held(m))
  }

  lemma HeldPut(m: map<nat, Ctrl>, c: Ctrl)
    requires Keyed(m)
    ensures Held(m[c.eventId := c]) == Held(m - {c.eventId}) + {c}
    ensures c !in Held(m - {c.eventId})
  {
    var after, before := m[c.eventId := c], m - {c.eventId};
    assert c.eventId in after && after[c.eventId] == c;
    forall d | d in Held(before) ensures d in Held(after) {
      assert d.eventId in before && before[d.eventId] == d;
      assert d.eventId in after && after[d.eventId] == d;
    }
    forall d | d in Held(after) ensures d in Held(before) + {c} {
      var e :| e in after && after[e] == d;
      if e != c.eventId {
        assert e in before && before[e] == d;
      }
    }
  }

  lemma MapBagPut(m: map<nat, Ctrl>, c: Ctrl)
    requires Keyed(m)
    ensures Keyed(m[c.eventId := c])
    ensures MapBag(m[c.eventId := c]) == MapBag(m - {c.eventId}) + multiset{c}
  {
    HeldPut(m, c);
  }

  lemma MapBagTake(m: map<nat, Ctrl>, e: nat)
    requires Keyed(m) && e in m
    ensures MapBag(m) == MapBag(m - {e}) + multiset{m[e]}
  {
    MapBagPut(m, m[e]);
    assert m[e := m[e]] == m;
  }
}
