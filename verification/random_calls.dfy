/**
 * `createRandomCalls` of Topology.java: three passes over a synthesized
 * topology, each appending edges of one kind. Every random pick takes the
 * next draw of the random source; a pick from an empty collection is where
 * the source throws, and the two retry loops, which the source leaves
 * unbounded, share a round budget.
 */
module RandomCalls {
  import opened Common
  import opened Model
  import opened Operations
  import opened Arena

  /** The positions 0 .. n-1 of a service's operations: `new ArrayList<>(ops.values())`. */
  function Indices(n: nat): (r: seq<nat>)
    ensures |r| == n && Distinct(r)
    ensures forall i :: i in r <==> 0 <= i < n
  {
    var r := seq(n, i requires 0 <= i < n => i as nat);
    assert forall i :: 0 <= i < n ==> r[i] == i;
    forall i | 0 <= i < n
      ensures i in r
    {
      assert r[i] == i;
    }
    r
  }

  /** One round of the internal pass: the new edge is internal and the service holds one call more. */
  lemma InternalStep(apps: Apps, r: Apps, a: string, s: string, o: nat, t: nat)
    requires Grown(apps, r, Internal)
    requires a in apps && s in apps[a].services
    requires o < |apps[a].services[s].operations| && t < |apps[a].services[s].operations| && o != t
    ensures Lookup(r, OpRef(a, s, o)).Some?
    ensures var next := AddCallAt(r, OpRef(a, s, o), OpRef(a, s, t));
      && Grown(apps, next, Internal)
      && a in next && s in next[a].services
      && CallCount(next[a].services[s].operations) == CallCount(r[a].services[s].operations) + 1
  {
    var from, to := OpRef(a, s, o), OpRef(a, s, t);
    SameShapeLookup(apps, r, from);
    assert EdgeOk(apps, Internal, from, to);
    GrowOne(apps, r, Internal, from, to);
    var ops := r[a].services[s].operations;
    CallCountGrows(ops, o, AddCall(ops[o], Bound(to)));
    assert AddCallAt(r, from, to)[a].services[s].operations == ops[o := AddCall(ops[o], Bound(to))];
  }

  /**
   * The internal pass for one service: up to `n` rounds while two or more
   * operations are still available. Each round a random operation of the
   * service, available or not, leaves the available list and calls a random
   * one of those still available, so never itself.
   */
  method InternalCalls(apps: Apps, a: string, s: string, n: int, rnd: RandomSource) returns (r: Apps)
    requires a in apps && s in apps[a].services
    modifies rnd
    ensures Grown(apps, r, Internal)
    ensures CallCount(r[a].services[s].operations) <= CallCount(apps[a].services[s].operations) + Max0(n)
    ensures forall x :: x in apps && x != a ==> r[x] == apps[x]
    ensures forall t :: t in apps[a].services && t != s ==> r[a].services[t] == apps[a].services[t]
  {
    var size := |apps[a].services[s].operations|;
    var available: seq<nat> := Indices(size);
    r := apps;
    GrownRefl(apps, Internal);
    var i := 0;
    while i < n && |available| > 1
      invariant Distinct(available) && |available| <= size
      invariant forall x :: x in available ==> x < size
      invariant Grown(apps, r, Internal)
      invariant a in r && s in r[a].services
      invariant 0 <= i <= Max0(n)
      invariant CallCount(r[a].services[s].operations) == CallCount(apps[a].services[s].operations) + i
      invariant forall x :: x in apps && x != a ==> r[x] == apps[x]
      invariant forall t :: t in apps[a].services && t != s ==> r[a].services[t] == apps[a].services[t]
    {
      var o := rnd.NextInt(size);
      available := RemoveFirst(available, o);
      var tPick := rnd.NextInt(|available|);
      var t := available[tPick];
      assert t in available;
      InternalStep(apps, r, a, s, o, t);
      r := AddCallAt(r, OpRef(a, s, o), OpRef(a, s, t));
      i := i + 1;
    }
  }

  /** Internal edges only, and at most `n` new calls in any one service. */
  ghost predicate InternalGrown(before: Apps, after: Apps, n: int) {
    && Grown(before, after, Internal)
    && forall a, s :: a in before && s in before[a].services ==>
         CallCount(after[a].services[s].operations) <= CallCount(before[a].services[s].operations) + Max0(n)
  }

  /** The counts of one application within bounds and every other application untouched: internally grown. */
  lemma InternalGrownFromApp(apps: Apps, r: Apps, a: string, n: int)
    requires Grown(apps, r, Internal) && a in apps
    requires forall t :: t in apps[a].services ==>
      CallCount(r[a].services[t].operations) <= CallCount(apps[a].services[t].operations) + Max0(n)
    requires forall x :: x in apps && x != a ==> r[x] == apps[x]
    ensures InternalGrown(apps, r, n)
  {
    forall x, t | x in apps && t in apps[x].services
      ensures CallCount(r[x].services[t].operations) <= CallCount(apps[x].services[t].operations) + Max0(n)
    {
      if x != a {
        assert r[x] == apps[x];
      }
    }
  }

  /** One service of the application done: the bounds that held still hold, now for that service too. */
  lemma InternalAppStep(apps: Apps, r: Apps, next: Apps, a: string, s: string, n: int, todo: set<string>)
    requires a in apps && s in todo && todo <= apps[a].services.Keys
    requires Grown(apps, r, Internal) && Grown(r, next, Internal)
    requires forall t :: t in apps[a].services && t !in todo ==>
      CallCount(r[a].services[t].operations) <= CallCount(apps[a].services[t].operations) + Max0(n)
    requires forall t :: t in todo ==> r[a].services[t] == apps[a].services[t]
    requires forall x :: x in apps && x != a ==> r[x] == apps[x]
    requires CallCount(next[a].services[s].operations) <= CallCount(r[a].services[s].operations) + Max0(n)
    requires forall x :: x in r && x != a ==> next[x] == r[x]
    requires forall t :: t in r[a].services && t != s ==> next[a].services[t] == r[a].services[t]
    ensures Grown(apps, next, Internal)
    ensures forall t :: t in apps[a].services && t !in todo - {s} ==>
      CallCount(next[a].services[t].operations) <= CallCount(apps[a].services[t].operations) + Max0(n)
    ensures forall t :: t in todo - {s} ==> next[a].services[t] == apps[a].services[t]
    ensures forall x :: x in apps && x != a ==> next[x] == apps[x]
  {
    GrownTrans(apps, r, next, Internal);
  }

  /** The internal pass over every service of one application. */
  method InternalCallsForApp(apps: Apps, a: string, n: int, rnd: RandomSource) returns (r: Apps)
    requires a in apps
    modifies rnd
    ensures InternalGrown(apps, r, n)
    ensures forall x :: x in apps && x != a ==> r[x] == apps[x]
  {
    r := apps;
    GrownRefl(apps, Internal);
    var todo := apps[a].services.Keys;
    while todo != {}
      invariant todo <= apps[a].services.Keys
      invariant Grown(apps, r, Internal)
      invariant forall t :: t in apps[a].services && t !in todo ==>
        CallCount(r[a].services[t].operations) <= CallCount(apps[a].services[t].operations) + Max0(n)
      invariant forall t :: t in todo ==> r[a].services[t] == apps[a].services[t]
      invariant forall x :: x in apps && x != a ==> r[x] == apps[x]
      decreases todo
    {
      var s :| s in todo;
      var next := InternalCalls(r, a, s, n, rnd);
      InternalAppStep(apps, r, next, a, s, n, todo);
      r := next;
      todo := todo - {s};
    }
    InternalGrownFromApp(apps, r, a, n);
  }

  /** The internal pass of `createRandomCalls`: every service of every application. */
  method AllInternalCalls(apps: Apps, n: int, rnd: RandomSource) returns (r: Apps)
    modifies rnd
    ensures InternalGrown(apps, r, n)
  {
    r := apps;
    GrownRefl(apps, Internal);
    var todo := apps.Keys;
    while todo != {}
      invariant todo <= apps.Keys
      invariant Grown(apps, r, Internal)
      invariant forall a, s :: a in apps && a !in todo && s in apps[a].services ==>
        CallCount(r[a].services[s].operations) <= CallCount(apps[a].services[s].operations) + Max0(n)
      invariant forall a :: a in todo ==> r[a] == apps[a]
      decreases todo
    {
      var a :| a in todo;
      var next := InternalCallsForApp(r, a, n, rnd);
      GrownTrans(apps, r, next, Internal);
      r := next;
      todo := todo - {a};
    }
  }

  /** One round of the cross-service pass: the new edge leaves the service for another one of the same application. */
  lemma CrossServiceStep(apps: Apps, cur: Apps, a: string, sk: string, o: nat, tk: string, t: nat)
    requires Grown(apps, cur, CrossService)
    requires a in apps && sk in apps[a].services && tk in apps[a].services && sk != tk
    requires o < |apps[a].services[sk].operations| && t < |apps[a].services[tk].operations|
    ensures Lookup(cur, OpRef(a, sk, o)).Some?
    ensures var next := AddCallAt(cur, OpRef(a, sk, o), OpRef(a, tk, t));
      && Grown(apps, next, CrossService)
      && forall x :: x in cur && x != a ==> next[x] == cur[x]
  {
    var from, to := OpRef(a, sk, o), OpRef(a, tk, t);
    assert EdgeOk(apps, CrossService, from, to);
    SameShapeLookup(apps, cur, from);
    GrowOne(apps, cur, CrossService, from, to);
  }

  /**
   * The cross-service pass for one application: while two or more services
   * are still available, a random service (available or not) picks a random
   * operation, leaves the available list, and that operation calls a random
   * operation of a random service still available, so of another service.
   */
  method CrossServiceCalls(apps: Apps, a: string, rnd: RandomSource, fuel: nat) returns (r: Result<Apps>)
    requires a in apps
    modifies rnd
    ensures r.Ok? ==> Grown(apps, r.value, CrossService)
    ensures r.Ok? ==> forall x :: x in apps && x != a ==> r.value[x] == apps[x]
    ensures r.Err? ==> r.error == EmptyChoice || r.error == RetriesExhausted
  {
    var services := KeysOf(apps[a].services);
    var available := services;
    var cur := apps;
    GrownRefl(apps, CrossService);
    var rounds := fuel;
    while |available| > 1
      invariant Distinct(available) && |available| <= |services|
      invariant forall x :: x in available ==> x in apps[a].services
      invariant Grown(apps, cur, CrossService)
      invariant forall x :: x in apps && x != a ==> cur[x] == apps[x]
      decreases rounds
    {
      if rounds == 0 {
        return Err(RetriesExhausted);
      }
      rounds := rounds - 1;
      var skPick := rnd.NextInt(|services|);
      var sk := services[skPick];
      if |apps[a].services[sk].operations| == 0 {
        return Err(EmptyChoice);
      }
      var o := rnd.NextInt(|apps[a].services[sk].operations|);
      available := RemoveFirst(available, sk);
      var tkPick := rnd.NextInt(|available|);
      var tk := available[tkPick];
      if |apps[a].services[tk].operations| == 0 {
        return Err(EmptyChoice);
      }
      var t := rnd.NextInt(|apps[a].services[tk].operations|);
      assert sk !in available && tk in available;
      CrossServiceStep(apps, cur, a, sk, o, tk, t);
      cur := AddCallAt(cur, OpRef(a, sk, o), OpRef(a, tk, t));
    }
    r := Ok(cur);
  }

  /** The cross-service pass of `createRandomCalls`: every application in turn. */
  method AllCrossServiceCalls(apps: Apps, rnd: RandomSource, fuel: nat) returns (r: Result<Apps>)
    modifies rnd
    ensures r.Ok? ==> Grown(apps, r.value, CrossService)
    ensures r.Err? ==> r.error == EmptyChoice || r.error == RetriesExhausted
  {
    var cur := apps;
    GrownRefl(apps, CrossService);
    var todo := apps.Keys;
    while todo != {}
      invariant todo <= apps.Keys
      invariant Grown(apps, cur, CrossService)
      decreases todo
    {
      var a :| a in todo;
      var next := CrossServiceCalls(cur, a, rnd, fuel);
      if next.Err? {
        return next;
      }
      GrownTrans(apps, cur, next.value, CrossService);
      cur := next.value;
      todo := todo - {a};
    }
    r := Ok(cur);
  }

  /** `getRandom(getRandom(getRandom(apps).getServices()).getOperations())`: a random application, service and operation. */
  method RandomOperation(apps: Apps, rnd: RandomSource) returns (r: Result<OpRef>)
    requires |apps| > 0
    modifies rnd
    ensures r.Ok? ==> Lookup(apps, r.value).Some?
    ensures r.Err? ==> r.error == EmptyChoice
  {
    var appKeys := KeysOf(apps);
    var aPick := rnd.NextInt(|appKeys|);
    var a := appKeys[aPick];
    var svcKeys := KeysOf(apps[a].services);
    if |svcKeys| == 0 {
      return Err(EmptyChoice);
    }
    var sPick := rnd.NextInt(|svcKeys|);
    var s := svcKeys[sPick];
    if |apps[a].services[s].operations| == 0 {
      return Err(EmptyChoice);
    }
    var k := rnd.NextInt(|apps[a].services[s].operations|);
    r := Ok(OpRef(a, s, k));
  }

  /**
   * The cross-application pass: as many rounds as there are applications;
   * each picks a random caller and redraws its target until the target's
   * application differs from the caller's.
   */
  method CrossAppCalls(apps: Apps, rnd: RandomSource, fuel: nat) returns (r: Result<Apps>)
    modifies rnd
    ensures r.Ok? ==> Grown(apps, r.value, CrossApp)
    ensures r.Err? ==> r.error == EmptyChoice || r.error == RetriesExhausted
  {
    var cur := apps;
    GrownRefl(apps, CrossApp);
    var rounds := fuel;
    var i := 0;
    while i < |apps|
      invariant Grown(apps, cur, CrossApp)
      decreases |apps| - i
    {
      assert cur.Keys == apps.Keys;
      assert |cur| == |cur.Keys| == |apps.Keys| == |apps|;
      var from := RandomOperation(cur, rnd);
      if from.Err? {
        return Err(from.error);
      }
      var to := RandomOperation(cur, rnd);
      if to.Err? {
        return Err(to.error);
      }
      while Lookup(cur, to.value).value.application == Lookup(cur, from.value).value.application
        invariant to.Ok? && Lookup(cur, to.value).Some?
        decreases rounds
      {
        if rounds == 0 {
          return Err(RetriesExhausted);
        }
        rounds := rounds - 1;
        to := RandomOperation(cur, rnd);
        if to.Err? {
          return Err(to.error);
        }
      }
      SameShapeLookup(apps, cur, from.value);
      SameShapeLookup(apps, cur, to.value);
      assert EdgeOk(apps, CrossApp, from.value, to.value);
      GrowOne(apps, cur, CrossApp, from.value, to.value);
      cur := AddCallAt(cur, from.value, to.value);
      i := i + 1;
    }
    r := Ok(cur);
  }

  /**
   * `createRandomCalls(apps)`: the internal pass, the cross-service pass,
   * then the cross-application pass, each appending edges of its own kind
   * to what the previous one left.
   */
  method CreateRandomCalls(apps: Apps, internalCallsPerApp: int, rnd: RandomSource, fuel: nat) returns (r: Result<Apps>)
    modifies rnd
    ensures r.Ok? ==> SameShape(apps, r.value)
    ensures r.Ok? ==> exists internal, crossService ::
      && InternalGrown(apps, internal, internalCallsPerApp)
      && Grown(internal, crossService, CrossService)
      && Grown(crossService, r.value, CrossApp)
    ensures r.Err? ==> r.error == EmptyChoice || r.error == RetriesExhausted
  {
    var internal := AllInternalCalls(apps, internalCallsPerApp, rnd);
    var crossService := AllCrossServiceCalls(internal, rnd, fuel);
    if crossService.Err? {
      return crossService;
    }
    r := CrossAppCalls(crossService.value, rnd, fuel);
    if r.Ok? {
      SameShapeTrans(apps, internal, crossService.value);
      SameShapeTrans(apps, crossService.value, r.value);
    }
  }
}
