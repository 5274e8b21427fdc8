/**
 * The services of a connection: who owns them, which one answers, and the
 * per-connection cache of request handlers.
 */
module Services {
  import opened Wrappers
  import opened Rpc
  import opened Worker

  /** Stands for a service object's address. */
  type Service = nat

  type ServiceMap = map<string, Service>

  // ---- Ownership ------------------------------------------------------------

  /** The names under which a map has a service. */
  function Names(m: ServiceMap, svc: Service): (names: set<string>)
    ensures forall name :: name in names <==> name in m && m[name] == svc
  {
    set name | name in m && m[name] == svc
  }

  /** Every service ever given is still under a name or has been deleted, as often as it was given. */
  ghost predicate Accounted(m: ServiceMap, deleted: seq<Service>, given: seq<Service>) {
    forall svc :: |Names(m, svc)| + multiset(deleted)[svc] == multiset(given)[svc]
  }

  lemma GiveAccounted(m: ServiceMap, deleted: seq<Service>, given: seq<Service>, name: string, svc: Service)
    requires Accounted(m, deleted, given) && name !in m
    ensures Accounted(m[name := svc], deleted, given + [svc])
  {
    assert multiset(given + [svc]) == multiset(given) + multiset{svc};
    forall s ensures |Names(m[name := svc], s)| + multiset(deleted)[s] == multiset(given + [svc])[s] {
      assert Names(m[name := svc], s) == Names(m, s) + if s == svc then {name} else {};
    }
  }

  lemma DeleteAccounted(m: ServiceMap, deleted: seq<Service>, given: seq<Service>, name: string)
    requires Accounted(m, deleted, given) && name in m
    ensures Accounted(m - {name}, deleted + [m[name]], given)
  {
    assert multiset(deleted + [m[name]]) == multiset(deleted) + multiset{m[name]};
    forall s ensures |Names(m - {name}, s)| + multiset(deleted + [m[name]])[s] == multiset(given)[s] {
      assert Names(m, s) == Names(m - {name}, s) + if s == m[name] then {name} else {};
    }
  }

  ghost predicate Distinct(s: seq<Service>) {
    forall svc :: multiset(s)[svc] <= 1
  }

  /** A service that was given once is the value of exactly one name or was deleted exactly once, never both. */
  lemma OneOwnerOrDeleted(m: ServiceMap, deleted: seq<Service>, given: seq<Service>, svc: Service)
    requires Accounted(m, deleted, given) && multiset(given)[svc] == 1
    ensures (exists name :: name in m && m[name] == svc) <==> svc !in deleted
    ensures forall a, b :: a in m && b in m && m[a] == svc && m[b] == svc ==> a == b
    ensures svc in deleted ==> multiset(deleted)[svc] == 1
  {
    var names := Names(m, svc);
    assert |names| + multiset(deleted)[svc] == 1;
    forall a, b | a in m && b in m && m[a] == svc && m[b] == svc ensures a == b {
      assert names == {a} + (names - {a});
      assert names - {a} == {};
    }
    assert svc in deleted <==> multiset(deleted)[svc] > 0;
    if svc !in deleted {
      assert names != {};
      var name :| name in names;
    } else {
      assert names == {};
    }
  }

  /** With nothing left in the map, nothing was deleted twice if and only if nothing was given twice. */
  lemma DeletedOnceIffGivenOnce(deleted: seq<Service>, given: seq<Service>)
    requires Accounted(map[], deleted, given)
    ensures multiset(deleted) == multiset(given)
    ensures Distinct(deleted) <==> Distinct(given)
  {
    forall svc ensures multiset(deleted)[svc] == multiset(given)[svc] {
      assert Names(map[], svc) == {};
    }
  }

  lemma PutOverwrites(m: ServiceMap, name: string, svc: Service)
    ensures (m - {name})[name := svc] == m[name := svc]
  {
  }

  lemma NothingYet()
    ensures Accounted(map[], [], [])
  {
    assert forall svc :: Names(map[], svc) == {};
  }

  // ---- Dispatch -------------------------------------------------------------

  datatype Handled = NoSuchService(eventId: nat) | Dispatched(svc: Service, rpcMethod: string)

  /** What registrations among the deliveries make of the map. */
  function Replay(m: ServiceMap, ds: seq<Delivery>): ServiceMap {
    if ds == [] then m
    else
      var before, last := Replay(m, ds[..|ds| - 1]), ds[|ds| - 1];
      if last.Service? then before[last.name := last.svc] else before
  }

  /** The services that deliveries hand over. */
  function Given(ds: seq<Delivery>): seq<Service> {
    if ds == [] then []
    else Given(ds[..|ds| - 1]) + if ds[|ds| - 1].Service? then [ds[|ds| - 1].svc] else []
  }

  /** The services that deliveries replace, and that are deleted for it. */
  function Replaced(m: ServiceMap, ds: seq<Delivery>): seq<Service> {
    if ds == [] then []
    else
      var before, last := Replay(m, ds[..|ds| - 1]), ds[|ds| - 1];
      Replaced(m, ds[..|ds| - 1]) + if last.Service? && last.name in before then [before[last.name]] else []
  }

  /** The deliveries register `ds[k]` under the name, and nothing under it later. */
  predicate LastUnder(ds: seq<Delivery>, k: nat, name: string) {
    && k < |ds| && ds[k].Service? && ds[k].name == name
    && NoneUnder(ds, k + 1, name)
  }

  predicate NoneUnder(ds: seq<Delivery>, lo: nat, name: string) {
    forall j :: lo <= j < |ds| && ds[j].Service? ==> ds[j].name != name
  }

  /** The service of a name is the one last registered under it, or else the one it had at first. */
  lemma {:induction false} LastRegistrationWins(m: ServiceMap, ds: seq<Delivery>, name: string)
    ensures forall k: nat :: LastUnder(ds, k, name) ==> name in Replay(m, ds) && Replay(m, ds)[name] == ds[k].svc
    ensures NoneUnder(ds, 0, name) ==>
      (name in Replay(m, ds) <==> name in m) && (name in m ==> Replay(m, ds)[name] == m[name])
    decreases |ds|
  {
    if ds != [] {
      var n := |ds| - 1;
      var init := ds[..n];
      LastRegistrationWins(m, init, name);
      forall k: nat | LastUnder(ds, k, name) ensures name in Replay(m, ds) && Replay(m, ds)[name] == ds[k].svc {
        if k < n {
          assert init[k] == ds[k];
          assert LastUnder(init, k, name);
          assert ds[n].Service? ==> ds[n].name != name;
        }
      }
      if NoneUnder(ds, 0, name) {
        assert NoneUnder(init, 0, name);
        assert ds[n].Service? ==> ds[n].name != name;
      }
    }
  }

  class RequestHandler {
    const info: ConnInfo
    var serviceMap: ServiceMap
    ghost var given: seq<Service>
    ghost var deleted: seq<Service>

    ghost predicate Valid()
      reads this
    {
      Accounted(serviceMap, deleted, given)
    }

    /** `created` is what the factories of the router make, name by name, if it has any. */
    constructor (info: ConnInfo, created: Option<seq<(string, Service)>>)
      ensures Valid() && this.info == info
      ensures given == if info.isRouter && created.Some? then Made(created.value) else []
      ensures serviceMap ==
        if info.isRouter && created.Some? then Replay(map[], Registrations(created.value)) else map[]
    {
      this.info := info;
      serviceMap, given, deleted := map[], [], [];
      new;
      NothingYet();
      CreateServices(created);
    }

    method CreateServices(created: Option<seq<(string, Service)>>)
      requires Valid() && serviceMap == map[] && given == []
      modifies this
      ensures Valid()
      ensures given == if info.isRouter && created.Some? then Made(created.value) else []
      ensures serviceMap ==
        if info.isRouter && created.Some? then Replay(map[], Registrations(created.value)) else map[]
    {
      if !info.isRouter {
        return;
      }
      if created.None? {
        return;
      }
      var all := created.value;
      for i := 0 to |all|
        invariant Valid() && given == Made(all[..i]) && serviceMap == Replay(map[], Registrations(all[..i]))
      {
        RegisterService(all[i].0, all[i].1);
        assert all[..i + 1] == all[..i] + [all[i]];
        assert Made(all[..i + 1]) == Made(all[..i]) + [all[i].1];
        ReplayMore(map[], Registrations(all[..i]), Delivery.Service(all[i].0, all[i].1));
        assert Registrations(all[..i + 1]) == Registrations(all[..i]) + [Delivery.Service(all[i].0, all[i].1)];
      }
      assert all[..|all|] == all;
    }

    /** Takes the service over; the one it replaces is deleted. */
    method RegisterService(name: string, svc: Service)
      requires Valid()
      modifies this
      ensures Valid()
      ensures serviceMap == old(serviceMap)[name := svc] && given == old(given) + [svc]
      ensures deleted == old(deleted) + if name in old(serviceMap) then [old(serviceMap)[name]] else []
    {
      hide Accounted;
      UnregisterService(name);
      GiveAccounted(serviceMap, deleted, given, name, svc);
      PutOverwrites(old(serviceMap), name, svc);
      serviceMap := serviceMap[name := svc];
      given := given + [svc];
    }

    method UnregisterService(name: string)
      requires Valid()
      modifies this`serviceMap, this`deleted
      ensures Valid() && serviceMap == old(serviceMap) - {name}
      ensures deleted == old(deleted) + if name in old(serviceMap) then [old(serviceMap)[name]] else []
    {
      hide Accounted;
      if name !in serviceMap {
        return;
      }
      DeleteAccounted(serviceMap, deleted, given, name);
      deleted := deleted + [serviceMap[name]];
      serviceMap := serviceMap - {name};
    }

    method HandleRequest(header: ReqHeader) returns (handled: Handled)
      ensures handled == if header.service in serviceMap then Dispatched(serviceMap[header.service], header.rpcMethod)
        else NoSuchService(header.eventId)
    {
      if header.service !in serviceMap {
        return NoSuchService(header.eventId);
      }
      return Dispatched(serviceMap[header.service], header.rpcMethod);
    }

    /** The connection's deliveries, in order: each request meets the services registered before it. */
    method HandleAll(ds: seq<Delivery>) returns (handled: seq<Handled>)
      requires Valid()
      modifies this
      ensures Valid() && serviceMap == Replay(old(serviceMap), ds)
      ensures handled == Answers(old(serviceMap), ds)
      ensures given == old(given) + Given(ds) && deleted == old(deleted) + Replaced(old(serviceMap), ds)
    {
      handled := [];
      for i := 0 to |ds|
        invariant Valid() && serviceMap == Replay(old(serviceMap), ds[..i])
        invariant handled == Answers(old(serviceMap), ds[..i])
        invariant given == old(given) + Given(ds[..i])
        invariant deleted == old(deleted) + Replaced(old(serviceMap), ds[..i])
      {
        assert ds[..i + 1][..i] == ds[..i];
        match ds[i] {
          case Service(name, svc) => RegisterService(name, svc);
          case Invocation(header, _) =>
            var h := HandleRequest(header);
            handled := handled + [h];
        }
      }
      assert ds[..|ds|] == ds;
    }

    /** The destructor: unregisters every name of a copy of the map, and the map ends empty. */
    method Destroy()
      requires Valid()
      modifies this
      ensures serviceMap == map[] && multiset(deleted) == multiset(given) && given == old(given)
    {
      var mapCopy := serviceMap;
      while mapCopy != map[]
        invariant Valid() && serviceMap == mapCopy && given == old(given)
        decreases |mapCopy|
      {
        var name :| name in mapCopy;
        UnregisterService(name);
        mapCopy := mapCopy - {name};
      }
      DeletedOnceIffGivenOnce(deleted, given);
    }
  }

  function Made(created: seq<(string, Service)>): (s: seq<Service>)
    ensures |s| == |created| && forall i :: 0 <= i < |s| ==> s[i] == created[i].1
  {
    seq(|created|, i requires 0 <= i < |created| => created[i].1)
  }

  function Registrations(created: seq<(string, Service)>): (ds: seq<Delivery>)
    ensures |ds| == |created| && forall i :: 0 <= i < |ds| ==> ds[i] == Delivery.Service(created[i].0, created[i].1)
  {
    seq(|created|, i requires 0 <= i < |created| => Delivery.Service(created[i].0, created[i].1))
  }

  lemma ReplayMore(m: ServiceMap, ds: seq<Delivery>, d: Delivery)
    ensures Replay(m, ds + [d]) == if d.Service? then Replay(m, ds)[d.name := d.svc] else Replay(m, ds)
  {
    assert (ds + [d])[..|ds|] == ds;
  }

  /** What each invocation among the deliveries leads to. */
  function Answers(m: ServiceMap, ds: seq<Delivery>): seq<Handled> {
    if ds == [] then []
    else
      var init, last := ds[..|ds| - 1], ds[|ds| - 1];
      Answers(m, init) +
        match last
        case Service(_, _) => []
        case Invocation(header, _) =>
          [if header.service in Replay(m, init) then Dispatched(Replay(m, init)[header.service], header.rpcMethod)
           else NoSuchService(header.eventId)]
  }

  /** How many of the deliveries are requests. */
  function Requests(ds: seq<Delivery>): nat {
    if ds == [] then 0 else (if ds[0].Invocation? then 1 else 0) + Requests(ds[1..])
  }

  lemma {:induction false} RequestsAppend(ds: seq<Delivery>, d: Delivery)
    ensures Requests(ds + [d]) == Requests(ds) + if d.Invocation? then 1 else 0
    decreases |ds|
  {
    if ds == [] {
      assert [d][1..] == [];
    } else {
      assert (ds + [d])[1..] == ds[1..] + [d];
      RequestsAppend(ds[1..], d);
    }
  }

  lemma {:induction false} AnswersGrow(m: ServiceMap, ds: seq<Delivery>, k: nat)
    requires k <= |ds|
    ensures |Answers(m, ds[..k])| == Requests(ds[..k]) && Answers(m, ds[..k]) <= Answers(m, ds)
    decreases |ds|
  {
    if ds == [] {
    } else if k == |ds| {
      assert ds[..k] == ds;
      AnswersGrow(m, ds[..k - 1], k - 1);
      assert ds[..k - 1][..k - 1] == ds[..k - 1];
      assert ds == ds[..k - 1] + [ds[k - 1]];
      RequestsAppend(ds[..k - 1], ds[k - 1]);
    } else {
      var init := ds[..|ds| - 1];
      AnswersGrow(m, init, k);
      assert init[..k] == ds[..k];
    }
  }

  /**
   * Each request is answered, in order. It goes to the service last registered
   * before it under the name it asks for, or else to the one there was at first,
   * with the method it asks for; with no such service the answer to its event is
   * that there is none.
   */
  lemma EachIsAnswered(m: ServiceMap, ds: seq<Delivery>, k: nat)
    requires k < |ds| && ds[k].Invocation?
    ensures |Answers(m, ds)| == Requests(ds) && Requests(ds[..k]) < Requests(ds)
    ensures var h, answer := ds[k].header, Answers(m, ds)[Requests(ds[..k])];
      && (forall j: nat :: LastUnder(ds[..k], j, h.service) ==> answer == Dispatched(ds[j].svc, h.rpcMethod))
      && (NoneUnder(ds[..k], 0, h.service) ==>
            answer == if h.service in m then Dispatched(m[h.service], h.rpcMethod) else NoSuchService(h.eventId))
  {
    var before, upTo := ds[..k], ds[..k + 1];
    AnswersGrow(m, ds, k);
    AnswersGrow(m, ds, k + 1);
    AnswersGrow(m, ds, |ds|);
    assert ds[..|ds|] == ds && upTo == before + [ds[k]] && upTo[..k] == before;
    RequestsAppend(before, ds[k]);
    LastRegistrationWins(m, before, ds[k].header.service);
    var answer := Answers(m, upTo)[Requests(before)];
    assert Answers(m, ds)[Requests(before)] == answer;
    hide Requests, LastUnder, NoneUnder;
    forall j: nat | LastUnder(before, j, ds[k].header.service)
      ensures answer == Dispatched(ds[j].svc, ds[k].header.rpcMethod)
    {
      assert j < k && before[j] == ds[j] by { LastIsIn(before, j, ds[k].header.service); }
    }
  }

  lemma LastIsIn(ds: seq<Delivery>, j: nat, name: string)
    requires LastUnder(ds, j, name)
    ensures j < |ds| && ds[j].Service?
  {
  }

  // ---- The cache of handlers ------------------------------------------------

  class RequestHandlerMap {
    var handlerMap: map<ConnInfo, RequestHandler>

    /** Each connection has a handler of its own. */
    ghost predicate Valid()
      reads this, handlerMap.Values
    {
      && (forall i :: i in handlerMap ==> handlerMap[i].info == i && handlerMap[i].Valid())
      && (forall i, j :: i in handlerMap && j in handlerMap && handlerMap[i] == handlerMap[j] ==> i == j)
    }

    constructor ()
      ensures Valid() && handlerMap == map[]
    {
      handlerMap := map[];
    }

    /** A connection that has a handler keeps it; another one gets a new handler, which is cached. */
    method GetHandler(info: ConnInfo, created: Option<seq<(string, Service)>>) returns (handler: RequestHandler)
      requires Valid()
      modifies this
      ensures Valid() && handlerMap == old(handlerMap)[info := handler]
      ensures if info in old(handlerMap) then handler == old(handlerMap)[info] else fresh(handler)
    {
      if info in handlerMap {
        return handlerMap[info];
      }
      handler := new RequestHandler(info, created);
      handlerMap := handlerMap[info := handler];
    }
  }
}
