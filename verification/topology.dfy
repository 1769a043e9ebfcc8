/**
 * Topology.java: the object that holds the parsed configuration, fills in
 * its defaults (or synthesizes a random topology when none is configured),
 * checks the call graph, and answers for applications and entrypoints.
 */
module Topologies {
  import opened Common
  import opened Model
  import opened Services
  import opened Arena
  import opened RandomCalls
  import opened References
  import opened Synthesis

  /** `RawConfig` as the YAML parser leaves it; an absent list or map is empty. */
  datatype RawConfig = RawConfig(entrypoints: seq<string>, applications: map<string, RawApplication>)

  // ---------------------------------------------------------------------------
  // The call-graph check

  /** The check `checkCallGraph` runs for position `r` passes. */
  ghost predicate CheckedAt(apps: Apps, r: OpRef) {
    Lookup(apps, r).Some? ==> CheckCalls(apps, Lookup(apps, r).value, {r}) == Pass
  }

  /** Every check passes exactly when no operation reaches itself. */
  lemma AllChecksPassIffAcyclic(apps: Apps)
    ensures (forall r: OpRef :: CheckedAt(apps, r)) <==> Acyclic(apps)
  {
    if forall r: OpRef :: CheckedAt(apps, r) {
      forall r, n | Lookup(apps, r).Some?
        ensures !Reaches(apps, Lookup(apps, r).value, r, n)
      {
        assert CheckedAt(apps, r);
        CheckedFromItselfMeansNoCycle(apps, r, n);
      }
    } else {
      var r :| !CheckedAt(apps, r);
      FailingCheckMeansCycle(apps, r);
    }
  }

  /**
   * An acyclic topology is one the trace generators accept: every
   * operation of every service passes the check from an empty path.
   */
  lemma AcyclicMeansServicesChecked(apps: Apps)
    requires Acyclic(apps)
    ensures forall a, s :: a in apps && s in apps[a].services ==> ServiceChecked(apps, apps[a].services[s])
  {
    AllChecksPassIffAcyclic(apps);
    forall a, s, k | a in apps && s in apps[a].services && 0 <= k < |apps[a].services[s].operations|
      ensures CheckCalls(apps, apps[a].services[s].operations[k], {}) == Pass
    {
      var r := OpRef(a, s, k);
      assert CheckedAt(apps, r);
      PassOnSmallerPath(apps, Lookup(apps, r).value, {r}, {});
    }
  }

  /**
   * `checkCallGraph()`: every operation of every service of every
   * application checked from its own position, stopping at the first
   * failure.
   */
  method CheckCallGraph(apps: Apps) returns (outcome: Outcome)
    ensures outcome.Pass? <==> Acyclic(apps)
    ensures outcome.Fail? ==> outcome.error.CircularReference?
  {
    var appKeys := KeysOf(apps);
    var i := 0;
    while i < |appKeys|
      invariant 0 <= i <= |appKeys|
      invariant forall r: OpRef :: r.app in appKeys[..i] ==> CheckedAt(apps, r)
    {
      var a := appKeys[i];
      var svcKeys := KeysOf(apps[a].services);
      var j := 0;
      while j < |svcKeys|
        invariant 0 <= j <= |svcKeys|
        invariant forall r: OpRef :: r.app in appKeys[..i] || (r.app == a && r.svc in svcKeys[..j]) ==> CheckedAt(apps, r)
      {
        var s := svcKeys[j];
        var ops := apps[a].services[s].operations;
        var k := 0;
        while k < |ops|
          invariant 0 <= k <= |ops|
          invariant forall r: OpRef ::
            r.app in appKeys[..i] || (r.app == a && r.svc in svcKeys[..j]) || (r.app == a && r.svc == s && r.index < k)
            ==> CheckedAt(apps, r)
        {
          var here := OpRef(a, s, k);
          var result := CheckCalls(apps, ops[k], {here});
          if result.Fail? {
            FailingCheckMeansCycle(apps, here);
            return result;
          }
          k := k + 1;
        }
        assert forall r: OpRef :: r.app == a && r.svc == s && r.index >= k ==> Lookup(apps, r).None?;
        assert svcKeys[..j + 1] == svcKeys[..j] + [s];
        j := j + 1;
      }
      assert forall r: OpRef :: r.app == a && r.svc !in svcKeys ==> Lookup(apps, r).None?;
      assert appKeys[..i + 1] == appKeys[..i] + [a];
      i := i + 1;
    }
    assert forall r: OpRef :: r.app !in appKeys ==> Lookup(apps, r).None?;
    assert appKeys[..i] == appKeys;
    AllChecksPassIffAcyclic(apps);
    outcome := Pass;
  }

  // ---------------------------------------------------------------------------
  // Entrypoints

  /** The slug `entrypoints()` matches: application, service and operation names joined by dots. */
  function EntrySlug(apps: Apps, r: OpRef): string
    requires Lookup(apps, r).Some?
  {
    apps[r.app].name + "." + apps[r.app].services[r.svc].name + "." + Lookup(apps, r).value.name
  }

  /** An operation `entrypoints()` returns: every one when no list is configured, otherwise one whose slug is listed. */
  predicate Selected(apps: Apps, slugs: seq<string>, r: OpRef)
    requires Lookup(apps, r).Some?
  {
    |slugs| == 0 || EntrySlug(apps, r) in slugs
  }

  /** `entries` are the operations at the distinct positions `refs`, each selected. */
  ghost predicate Listed(apps: Apps, slugs: seq<string>, entries: seq<Operation>, refs: seq<OpRef>) {
    && |entries| == |refs| && Distinct(refs)
    && forall n :: 0 <= n < |refs| ==> Lookup(apps, refs[n]) == Some(entries[n]) && Selected(apps, slugs, refs[n])
  }

  lemma ListedAppend(apps: Apps, slugs: seq<string>, e1: seq<Operation>, r1: seq<OpRef>, e2: seq<Operation>, r2: seq<OpRef>)
    requires Listed(apps, slugs, e1, r1) && Listed(apps, slugs, e2, r2)
    requires forall x :: x in r1 ==> x !in r2
    ensures Listed(apps, slugs, e1 + e2, r1 + r2)
  {
    var r := r1 + r2;
    forall i, j | 0 <= i < j < |r|
      ensures r[i] != r[j]
    {
      if j < |r1| {
      } else if i >= |r1| {
        assert r[i] == r2[i - |r1|] && r[j] == r2[j - |r1|];
      } else {
        assert r[i] in r1 && r[j] in r2;
      }
    }
  }

  /** The operations of one service that `entrypoints()` takes, in list order. */
  method ServiceEntrypoints(apps: Apps, slugs: seq<string>, a: string, s: string)
    returns (entries: seq<Operation>, ghost refs: seq<OpRef>)
    requires a in apps && s in apps[a].services
    ensures Listed(apps, slugs, entries, refs)
    ensures forall n :: 0 <= n < |refs| ==> refs[n].app == a && refs[n].svc == s
    ensures forall r: OpRef :: r.app == a && r.svc == s && Lookup(apps, r).Some? && Selected(apps, slugs, r) ==> r in refs
  {
    var app := apps[a];
    var svc := app.services[s];
    entries := [];
    refs := [];
    var k := 0;
    while k < |svc.operations|
      invariant 0 <= k <= |svc.operations|
      invariant Listed(apps, slugs, entries, refs)
      invariant forall n :: 0 <= n < |refs| ==> refs[n].app == a && refs[n].svc == s && refs[n].index < k
      invariant forall r: OpRef :: r.app == a && r.svc == s && r.index < k && Lookup(apps, r).Some? && Selected(apps, slugs, r) ==> r in refs
    {
      var op := svc.operations[k];
      var slug := app.name + "." + svc.name + "." + op.name;
      var here := OpRef(a, s, k);
      assert EntrySlug(apps, here) == slug;
      if |slugs| == 0 || slug in slugs {
        ListedAppend(apps, slugs, entries, refs, [op], [here]);
        entries, refs := entries + [op], refs + [here];
      }
      k := k + 1;
    }
  }

  /** The operations of one application that `entrypoints()` takes, service by service. */
  method ApplicationEntrypoints(apps: Apps, slugs: seq<string>, a: string)
    returns (entries: seq<Operation>, ghost refs: seq<OpRef>)
    requires a in apps
    ensures Listed(apps, slugs, entries, refs)
    ensures forall n :: 0 <= n < |refs| ==> refs[n].app == a
    ensures forall r: OpRef :: r.app == a && Lookup(apps, r).Some? && Selected(apps, slugs, r) ==> r in refs
  {
    entries := [];
    refs := [];
    var svcKeys := KeysOf(apps[a].services);
    var j := 0;
    while j < |svcKeys|
      invariant 0 <= j <= |svcKeys|
      invariant Listed(apps, slugs, entries, refs)
      invariant forall n :: 0 <= n < |refs| ==> refs[n].app == a && refs[n].svc in svcKeys[..j]
      invariant forall r: OpRef :: r.app == a && r.svc in svcKeys[..j] && Lookup(apps, r).Some? && Selected(apps, slugs, r) ==> r in refs
    {
      var s := svcKeys[j];
      var more, moreRefs := ServiceEntrypoints(apps, slugs, a, s);
      assert s !in svcKeys[..j];
      ListedAppend(apps, slugs, entries, refs, more, moreRefs);
      entries, refs := entries + more, refs + moreRefs;
      assert svcKeys[..j + 1] == svcKeys[..j] + [s];
      j := j + 1;
    }
    assert forall r: OpRef :: r.app == a && r.svc !in svcKeys ==> Lookup(apps, r).None?;
  }

  // ---------------------------------------------------------------------------
  // What `fixReferences` leaves

  /**
   * After `fixReferences`, every application, service and operation is
   * named by its key, whatever name the configuration gave it.
   */
  lemma ConfiguredNamesAreKeys(raw: map<string, RawApplication>, defaults: Apps, apps: Apps)
    requires AppsDefaulted(raw, defaults) && AppsResolved(defaults, apps)
    ensures apps.Keys == raw.Keys
    ensures forall a :: a in apps ==> apps[a].name == a && apps[a].services.Keys == raw[a].services.Keys
    ensures forall a, s :: a in apps && s in apps[a].services ==>
      && apps[a].services[s].name == s
      && |apps[a].services[s].operations| == |raw[a].services[s].operations|
      && forall k :: 0 <= k < |raw[a].services[s].operations| ==>
           apps[a].services[s].operations[k].name == raw[a].services[s].operations[k].0
  {
    forall a, s | a in apps && s in apps[a].services
      ensures apps[a].services[s].name == s
      ensures |apps[a].services[s].operations| == |raw[a].services[s].operations|
      ensures forall k :: 0 <= k < |raw[a].services[s].operations| ==>
           apps[a].services[s].operations[k].name == raw[a].services[s].operations[k].0
    {
      assert ApplicationDefaulted(raw[a], a, defaults[a]);
      assert ServiceDefaulted(raw[a].services[s], s, a, defaults[a].services[s]);
      assert ApplicationResolved(defaults, defaults[a], apps[a]);
      var svc := apps[a].services[s];
      assert ServiceResolved(defaults, defaults[a].services[s], svc);
      forall k | 0 <= k < |raw[a].services[s].operations|
        ensures svc.operations[k].name == raw[a].services[s].operations[k].0
      {
        assert OperationResolved(defaults, defaults[a].services[s].operations[k], svc.operations[k]);
      }
    }
  }

  /**
   * What a resolved slot holds: an edge to an operation of the service the
   * placeholder names, carrying its name when it has one, exactly when the
   * application, the service and (for a named placeholder) an operation of
   * that name exist; otherwise the placeholder itself.
   */
  lemma ResolvedSlotMeaning(apps: Apps, c: Operation, slot: Call)
    requires SlotResolved(apps, Pending(c), slot)
    ensures slot.Bound? <==>
      && c.application in apps && c.service in apps[c.application].services
      && (IsBlank(c.name) || exists k :: 0 <= k < |apps[c.application].services[c.service].operations| &&
                                         apps[c.application].services[c.service].operations[k].name == c.name)
    ensures slot.Bound? ==>
      && Lookup(apps, slot.target).Some?
      && slot.target.app == c.application && slot.target.svc == c.service
      && (!IsBlank(c.name) ==> Lookup(apps, slot.target).value.name == c.name)
    ensures slot.Pending? ==> slot == Pending(c)
  {
    if c.application in apps && c.service in apps[c.application].services && !IsBlank(c.name) {
      var ops := apps[c.application].services[c.service].operations;
      if exists k :: 0 <= k < |ops| && ops[k].name == c.name {
        var k :| 0 <= k < |ops| && ops[k].name == c.name;
        assert FindOperation(ops, c.name).Some?;
      }
    }
  }

  /** Resolution only rewrites call lists: every position holds the same operation, calls aside. */
  lemma ResolutionKeepsShape(defaults: Apps, apps: Apps)
    requires AppsResolved(defaults, apps)
    ensures SameShape(defaults, apps)
  {
    forall a, s | a in defaults && s in defaults[a].services
      ensures SameOperations(defaults[a].services[s], apps[a].services[s])
    {
      assert ApplicationResolved(defaults, defaults[a], apps[a]);
      var before := defaults[a].services[s];
      var after := apps[a].services[s];
      assert ServiceResolved(defaults, before, after);
      forall k | 0 <= k < |before.operations|
        ensures after.operations[k].(calls := before.operations[k].calls) == before.operations[k]
      {
        assert OperationResolved(defaults, before.operations[k], after.operations[k]);
      }
    }
  }

  /** What the topology has been loaded with: the configuration, then defaults or a random topology. */
  ghost predicate Built(config: RawConfig, internalCallsPerApp: int, configured: Apps, apps: Apps) {
    if |config.applications| > 0 then
      AppsResolved(configured, apps)
    else
      && SameShape(configured, apps)
      && exists internal, crossService ::
           && InternalGrown(configured, internal, internalCallsPerApp)
           && Grown(internal, crossService, CrossService)
           && Grown(crossService, apps, CrossApp)
  }

  /**
   * `new ArrayList<>(applications.values())`: the application under each
   * key once, in an order a hash map leaves open; `keys` says which key
   * each entry comes from.
   */
  method ValuesOf(apps: Apps) returns (r: seq<Application>, ghost keys: seq<string>)
    ensures |r| == |apps|
    ensures forall x :: x in r <==> x in apps.Values
    ensures |keys| == |r| && Distinct(keys)
    ensures forall k :: k in keys <==> k in apps
    ensures forall n :: 0 <= n < |r| ==> keys[n] in apps && r[n] == apps[keys[n]]
  {
    var ks := KeysOf(apps);
    keys := ks;
    r := seq(|ks|, n requires 0 <= n < |ks| => apps[ks[n]]);
    forall x | x in apps.Values
      ensures x in r
    {
      var k :| k in apps && apps[k] == x;
      var n :| 0 <= n < |ks| && ks[n] == k;
      assert r[n] == x;
    }
  }

  /** `applications.get(name)`: the application under that key, none when absent. */
  function ApplicationNamed(apps: Apps, name: string): (r: Option<Application>)
    ensures r.Some? <==> name in apps
    ensures r.Some? ==> r.value == apps[name]
  {
    if name in apps then Some(apps[name]) else None
  }

  class Topology {
    const desiredRandomApps: int
    const servicesPerApp: int
    const operationsPerService: int
    const internalCallsPerApp: int
    /** `raw.entrypoints` */
    var entrypointSlugs: seq<string>
    /** `raw.applications` */
    var applications: Apps
    /** The topology once defaulted (or synthesized), before calls are resolved (or added). */
    ghost var configured: Apps

    /** `new Topology(desiredRandomApps, servicesPerApp, operationsPerService, internalCallsPerApp)` */
    constructor (desiredRandomApps: int, servicesPerApp: int, operationsPerService: int, internalCallsPerApp: int)
      ensures this.desiredRandomApps == desiredRandomApps && this.servicesPerApp == servicesPerApp
      ensures this.operationsPerService == operationsPerService && this.internalCallsPerApp == internalCallsPerApp
      ensures entrypointSlugs == [] && applications == map[]
    {
      this.desiredRandomApps := desiredRandomApps;
      this.servicesPerApp := servicesPerApp;
      this.operationsPerService := operationsPerService;
      this.internalCallsPerApp := internalCallsPerApp;
      entrypointSlugs := [];
      applications := map[];
      configured := map[];
    }

    /**
     * `load(stream)` on an already-parsed configuration: `setDefaults()`
     * (a random topology from the word lists when no application is
     * configured, otherwise `fixReferences`), then `checkCallGraph()`.
     * Fails with a circular reference exactly when the built topology has a
     * cycle; fails earlier when a draw has nothing to draw from or a retry
     * loop runs out of `fuel`.
     */
    method Load(config: RawConfig, words: WordLists, errorPercentage: real, rnd: RandomSource, fuel: nat)
      returns (outcome: Outcome)
      modifies this, rnd
      ensures entrypointSlugs == config.entrypoints
      ensures |config.applications| > 0 ==> AppsDefaulted(config.applications, configured)
      ensures |config.applications| > 0 ==>
        (outcome == Fail(EmptyChoice) <==> exists a :: a in configured && ApplicationDrawsFromEmpty(configured, configured[a]))
      ensures |config.applications| == 0 ==>
        && Labelled(configured, words, servicesPerApp, operationsPerService) && Uncalled(configured)
        && (Distinct(words.applications) ==> |configured| == Max0(Min(desiredRandomApps, |words.applications|)))
      ensures |config.applications| > 0 && !(exists a :: a in configured && ApplicationDrawsFromEmpty(configured, configured[a])) ==>
        (outcome.Pass? <==> Acyclic(applications))
      ensures |config.applications| > 0 ==> outcome != Fail(RetriesExhausted)
      ensures outcome.Pass? ==> Built(config, internalCallsPerApp, configured, applications) && Acyclic(applications)
      ensures outcome.Pass? ==> forall a, s :: a in applications && s in applications[a].services ==>
        ServiceChecked(applications, applications[a].services[s])
      ensures outcome.Fail? && outcome.error.CircularReference? ==>
        Built(config, internalCallsPerApp, configured, applications) && !Acyclic(applications)
      ensures outcome.Fail? && !outcome.error.CircularReference? ==>
        && (outcome.error == EmptyChoice || outcome.error == RetriesExhausted)
        && applications == (if |config.applications| > 0 then configured else map[])
    {
      entrypointSlugs := config.entrypoints;
      var built: Result<Apps>;
      if |config.applications| == 0 {
        var labelled;
        built, labelled := CreateRandomApps(words, desiredRandomApps, servicesPerApp, operationsPerService,
                                            internalCallsPerApp, errorPercentage, rnd, fuel);
        configured := labelled;
        applications := map[];
      } else {
        var defaults;
        built, defaults := FixReferences(config.applications, rnd);
        configured := defaults;
        applications := defaults;
      }
      if built.Err? {
        return Fail(built.error);
      }
      applications := built.value;
      outcome := CheckCallGraph(applications);
      if outcome.Pass? {
        AcyclicMeansServicesChecked(applications);
      }
    }

    /** `applications()`: the configured applications, none when there are none; `keys` says which key each comes from. */
    method Applications() returns (r: seq<Application>, ghost keys: seq<string>)
      ensures |r| == |applications|
      ensures forall x :: x in r <==> x in applications.Values
      ensures |keys| == |r| && Distinct(keys)
      ensures forall k :: k in keys <==> k in applications
      ensures forall n :: 0 <= n < |r| ==> keys[n] in applications && r[n] == applications[keys[n]]
    {
      r, keys := ValuesOf(applications);
    }

    /**
     * `entrypoints()`: every operation whose slug is listed, or every
     * operation when no list is configured, each once; `refs` says where
     * each one sits.
     */
    method Entrypoints() returns (entries: seq<Operation>, ghost refs: seq<OpRef>)
      ensures Listed(applications, entrypointSlugs, entries, refs)
      ensures forall r: OpRef :: Lookup(applications, r).Some? && Selected(applications, entrypointSlugs, r) ==> r in refs
    {
      entries := [];
      refs := [];
      var appKeys := KeysOf(applications);
      var i := 0;
      while i < |appKeys|
        invariant 0 <= i <= |appKeys|
        invariant Listed(applications, entrypointSlugs, entries, refs)
        invariant forall n :: 0 <= n < |refs| ==> refs[n].app in appKeys[..i]
        invariant forall r: OpRef :: Lookup(applications, r).Some? && Selected(applications, entrypointSlugs, r) && r.app in appKeys[..i] ==> r in refs
      {
        var a := appKeys[i];
        var more, moreRefs := ApplicationEntrypoints(applications, entrypointSlugs, a);
        assert a !in appKeys[..i];
        ListedAppend(applications, entrypointSlugs, entries, refs, more, moreRefs);
        entries, refs := entries + more, refs + moreRefs;
        assert appKeys[..i + 1] == appKeys[..i] + [a];
        i := i + 1;
      }
      assert appKeys[..i] == appKeys;
    }

    /** `getApplication(name)`: plain lookup by key. */
    function GetApplication(name: string): (r: Option<Application>)
      reads this
      ensures r.Some? <==> name in applications
      ensures r.Some? ==> r.value == applications[name]
    {
      ApplicationNamed(applications, name)
    }
  }
}
