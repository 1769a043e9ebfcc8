/**
 * Configuration.java, the older builder over list-based services: defaults
 * filled in where blank (service names included, operation names never),
 * then every call reference resolved to the first operation of that name
 * or, failing that, to a random operation of the service it names.
 */
module Configurations {
  import opened Common
  import opened Model
  import opened Services
  import opened Arena
  import References
  import Topologies

  // ---------------------------------------------------------------------------
  // Defaults

  /**
   * An operation of a service after `setServiceDefaults`: its application
   * is the service's when the `setApplication` cascade ran or its own was
   * blank, its service the service's name when blank; the name, tags and
   * error chance stay; each call reference gets the same defaults.
   */
  predicate OperationDefaulted(op: Operation, cascaded: bool, app: string, svc: string, r: Operation) {
    && r.name == op.name
    && r.application == (if cascaded || IsBlank(op.application) then app else op.application)
    && r.service == (if IsBlank(op.service) then svc else op.service)
    && r.tags == op.tags && r.errorChance == op.errorChance
    && |r.calls| == |op.calls|
    && forall i :: 0 <= i < |op.calls| ==> References.CallDefaulted(op.calls[i], app, svc, r.calls[i])
  }

  /** A service after `setServiceDefaults(svc, key, appKey)`: name and application set only where blank. */
  predicate ServiceDefaulted(svc: Service, key: string, appKey: string, r: Service) {
    && r.name == (if IsBlank(svc.name) then key else svc.name)
    && r.application == (if IsBlank(svc.application) then appKey else svc.application)
    && r.tags == svc.tags && r.baseLatency == svc.baseLatency
    && |r.operations| == |svc.operations|
    && forall k :: 0 <= k < |svc.operations| ==>
         OperationDefaulted(svc.operations[k], IsBlank(svc.application), r.application, r.name, r.operations[k])
  }

  ghost predicate AppsDefaulted(raw: Apps, r: Apps) {
    && r.Keys == raw.Keys
    && forall a :: a in raw ==>
         && r[a].name == a
         && r[a].services.Keys == raw[a].services.Keys
         && forall s :: s in raw[a].services ==> ServiceDefaulted(raw[a].services[s], s, a, r[a].services[s])
  }

  /** `setOperationDefaults(op, app, svc)`: application and service only where blank. */
  method SetOperationDefaults(op: Operation, app: string, svc: string) returns (r: Operation)
    ensures r.application == (if IsBlank(op.application) then app else op.application)
    ensures r.service == (if IsBlank(op.service) then svc else op.service)
    ensures r.(application := op.application, service := op.service) == op
  {
    r := op;
    if IsBlank(r.application) {
      r := r.(application := app);
    }
    if IsBlank(r.service) {
      r := r.(service := svc);
    }
  }

  /** `setServiceDefaults(svc, serviceName, defaultApplication)`. */
  method SetServiceDefaults(svc: Service, serviceName: string, defaultApplication: string) returns (r: Service)
    ensures ServiceDefaulted(svc, serviceName, defaultApplication, r)
  {
    var s := svc;
    if IsBlank(s.name) {
      s := s.(name := serviceName);
    }
    var cascaded := IsBlank(s.application);
    if cascaded {
      s := SetApplication(s, defaultApplication);
    }
    var fixed: seq<Operation> := [];
    var k := 0;
    while k < |s.operations|
      invariant |s.operations| == |svc.operations| && 0 <= k <= |s.operations| && |fixed| == k
      invariant s.name == (if IsBlank(svc.name) then serviceName else svc.name)
      invariant s.application == (if cascaded then defaultApplication else svc.application)
      invariant s.tags == svc.tags && s.baseLatency == svc.baseLatency
      invariant forall j :: 0 <= j < |s.operations| ==>
        s.operations[j] == if cascaded then svc.operations[j].(application := defaultApplication) else svc.operations[j]
      invariant forall j :: 0 <= j < k ==> OperationDefaulted(svc.operations[j], cascaded, s.application, s.name, fixed[j])
    {
      var op := SetOperationDefaults(s.operations[k], s.application, s.name);
      var calls := References.SetCallsAttributes(op.calls, s.application, s.name);
      fixed := fixed + [op.(calls := calls)];
      k := k + 1;
    }
    r := s.(operations := fixed);
  }

  /** The first loop of `setDefaults()`: every application named by its key, every service defaulted under its key. */
  method SetDefaults(raw: Apps) returns (r: Apps)
    ensures AppsDefaulted(raw, r)
  {
    r := map[];
    var todo := raw.Keys;
    while todo != {}
      invariant todo <= raw.Keys
      invariant r.Keys == raw.Keys - todo
      invariant forall a :: a in r ==>
        && r[a].name == a
        && r[a].services.Keys == raw[a].services.Keys
        && forall s :: s in raw[a].services ==> ServiceDefaulted(raw[a].services[s], s, a, r[a].services[s])
      decreases todo
    {
      var a :| a in todo;
      var services: map<string, Service> := map[];
      var left := raw[a].services.Keys;
      while left != {}
        invariant left <= raw[a].services.Keys
        invariant services.Keys == raw[a].services.Keys - left
        invariant forall s :: s in services ==> ServiceDefaulted(raw[a].services[s], s, a, services[s])
        decreases left
      {
        var s :| s in left;
        var fixed := SetServiceDefaults(raw[a].services[s], s, a);
        services := services[s := fixed];
        left := left - {s};
      }
      r := r[a := Application(a, services)];
      todo := todo - {a};
    }
  }

  // ---------------------------------------------------------------------------
  // Resolution

  /** A reference into an existing service without operations: the draw `getOperationOrRandom` always makes has nothing to draw from. */
  predicate DrawsFromEmpty(apps: Apps, c: Operation) {
    && c.application in apps && c.service in apps[c.application].services
    && |apps[c.application].services[c.service].operations| == 0
  }

  /**
   * A slot after `fixOperationReferences`: a placeholder naming an existing
   * application and service becomes an edge into that service, to the first
   * operation with the placeholder's name when there is one; otherwise the
   * slot stays as it was.
   */
  predicate SlotResolved(apps: Apps, call: Call, slot: Call) {
    match call
    case Bound(_) => slot == call
    case Pending(c) =>
      if c.application in apps && c.service in apps[c.application].services then
        var ops := apps[c.application].services[c.service].operations;
        && slot.Bound? && slot.target.app == c.application && slot.target.svc == c.service && slot.target.index < |ops|
        && ((exists j :: 0 <= j < |ops| && ops[j].name == c.name) ==> FirstNamed(ops, c.name, slot.target.index))
      else slot == call
  }

  /** `k` is the first position of `ops` holding an operation with that name. */
  predicate FirstNamed(ops: seq<Operation>, name: string, k: nat) {
    k < |ops| && ops[k].name == name && forall j :: 0 <= j < k ==> ops[j].name != name
  }

  /**
   * `getOperationOrRandom(c, svc)`: the first operation with the name, else
   * a random one. The argument of `orElse` is evaluated in any case, so the
   * draw is always made, even when the name is found, and a service without
   * operations fails.
   */
  method GetOperationOrRandom(c: Operation, ops: seq<Operation>, rnd: RandomSource) returns (r: Result<nat>)
    modifies rnd
    ensures r.Err? <==> |ops| == 0
    ensures r.Err? ==> r.error == EmptyChoice
    ensures r.Ok? ==> r.value < |ops|
    ensures r.Ok? && (exists j :: 0 <= j < |ops| && ops[j].name == c.name) ==> FirstNamed(ops, c.name, r.value)
  {
    if |ops| == 0 {
      return Err(EmptyChoice);
    }
    var found := FindOperation(ops, c.name);
    var draw := rnd.NextInt(|ops|);
    if found.Some? {
      return Ok(found.value);
    }
    return Ok(draw);
  }

  /** `existingOperation(c)`. */
  method ExistingOperation(apps: Apps, c: Operation, rnd: RandomSource) returns (r: Result<Option<OpRef>>)
    modifies rnd
    ensures r.Err? <==> DrawsFromEmpty(apps, c)
    ensures r.Err? ==> r.error == EmptyChoice
    ensures r.Ok? ==> SlotResolved(apps, Pending(c), if r.value.Some? then Bound(r.value.value) else Pending(c))
  {
    if c.application !in apps {
      return Ok(None);
    }
    var app := apps[c.application];
    if c.service !in app.services {
      return Ok(None);
    }
    var k := GetOperationOrRandom(c, app.services[c.service].operations, rnd);
    if k.Err? {
      return Err(k.error);
    }
    return Ok(Some(OpRef(c.application, c.service, k.value)));
  }

  predicate CallsDrawFromEmpty(apps: Apps, calls: seq<Call>) {
    exists i :: 0 <= i < |calls| && calls[i].Pending? && DrawsFromEmpty(apps, calls[i].placeholder)
  }

  /** `fixOperationReferences(calls)`: each slot replaced in place by what it names, or left as it was. */
  method FixOperationReferences(apps: Apps, calls: seq<Call>, rnd: RandomSource) returns (r: Result<seq<Call>>)
    modifies rnd
    ensures r.Err? <==> CallsDrawFromEmpty(apps, calls)
    ensures r.Err? ==> r.error == EmptyChoice
    ensures r.Ok? ==> |r.value| == |calls| && forall i :: 0 <= i < |calls| ==> SlotResolved(apps, calls[i], r.value[i])
  {
    var fixed := calls;
    var i := 0;
    while i < |fixed|
      invariant |fixed| == |calls| && 0 <= i <= |fixed|
      invariant forall j :: 0 <= j < i ==> SlotResolved(apps, calls[j], fixed[j])
      invariant forall j :: i <= j < |fixed| ==> fixed[j] == calls[j]
      invariant forall j :: 0 <= j < i ==> !(calls[j].Pending? && DrawsFromEmpty(apps, calls[j].placeholder))
    {
      if fixed[i].Pending? {
        var e := ExistingOperation(apps, fixed[i].placeholder, rnd);
        if e.Err? {
          return Err(e.error);
        }
        if e.value.Some? {
          fixed := fixed[i := Bound(e.value.value)];
        }
      }
      i := i + 1;
    }
    r := Ok(fixed);
  }

  predicate ServiceDrawsFromEmpty(apps: Apps, svc: Service) {
    exists k :: 0 <= k < |svc.operations| && CallsDrawFromEmpty(apps, svc.operations[k].calls)
  }

  /** Every call list of the service resolved; nothing else changes. */
  predicate ServiceResolved(apps: Apps, before: Service, after: Service) {
    && after.(operations := before.operations) == before
    && |after.operations| == |before.operations|
    && forall k :: 0 <= k < |before.operations| ==>
         && after.operations[k].(calls := before.operations[k].calls) == before.operations[k]
         && |after.operations[k].calls| == |before.operations[k].calls|
         && forall i :: 0 <= i < |before.operations[k].calls| ==>
              SlotResolved(apps, before.operations[k].calls[i], after.operations[k].calls[i])
  }

  /** The innermost loop of the second half of `setDefaults()`: one service's operation list. */
  method FixServiceReferences(apps: Apps, svc: Service, rnd: RandomSource) returns (r: Result<Service>)
    modifies rnd
    ensures r.Err? <==> ServiceDrawsFromEmpty(apps, svc)
    ensures r.Err? ==> r.error == EmptyChoice
    ensures r.Ok? ==> ServiceResolved(apps, svc, r.value)
  {
    var ops := svc.operations;
    var k := 0;
    while k < |ops|
      invariant |ops| == |svc.operations| && 0 <= k <= |ops|
      invariant forall j :: 0 <= j < k ==>
        && ops[j].(calls := svc.operations[j].calls) == svc.operations[j]
        && |ops[j].calls| == |svc.operations[j].calls|
        && forall i :: 0 <= i < |svc.operations[j].calls| ==> SlotResolved(apps, svc.operations[j].calls[i], ops[j].calls[i])
      invariant forall j :: k <= j < |ops| ==> ops[j] == svc.operations[j]
      invariant forall j :: 0 <= j < k ==> !CallsDrawFromEmpty(apps, svc.operations[j].calls)
    {
      var calls := FixOperationReferences(apps, ops[k].calls, rnd);
      if calls.Err? {
        return Err(calls.error);
      }
      ops := ops[k := ops[k].(calls := calls.value)];
      k := k + 1;
    }
    r := Ok(svc.(operations := ops));
  }

  ghost predicate AppsDrawFromEmpty(apps: Apps) {
    exists a, s :: a in apps && s in apps[a].services && ServiceDrawsFromEmpty(apps, apps[a].services[s])
  }

  /** Every service of `apps` resolved against `apps` itself; names and keys untouched. */
  ghost predicate AppsResolved(apps: Apps, after: Apps) {
    && after.Keys == apps.Keys
    && forall a :: a in apps ==>
         && after[a].name == apps[a].name
         && after[a].services.Keys == apps[a].services.Keys
         && forall s :: s in apps[a].services ==> ServiceResolved(apps, apps[a].services[s], after[a].services[s])
  }

  /** The second loop of `setDefaults()`: every service of every application. */
  method FixAllReferences(apps: Apps, rnd: RandomSource) returns (r: Result<Apps>)
    modifies rnd
    ensures r.Err? <==> AppsDrawFromEmpty(apps)
    ensures r.Err? ==> r.error == EmptyChoice
    ensures r.Ok? ==> AppsResolved(apps, r.value)
  {
    var fixed := apps;
    var todo := apps.Keys;
    while todo != {}
      invariant todo <= apps.Keys && fixed.Keys == apps.Keys
      invariant forall a :: a in apps && a !in todo ==>
        && fixed[a].name == apps[a].name
        && fixed[a].services.Keys == apps[a].services.Keys
        && forall s :: s in apps[a].services ==> ServiceResolved(apps, apps[a].services[s], fixed[a].services[s])
      invariant forall a :: a in todo ==> fixed[a] == apps[a]
      invariant forall a, s :: a in apps && a !in todo && s in apps[a].services ==> !ServiceDrawsFromEmpty(apps, apps[a].services[s])
      decreases todo
    {
      var a :| a in todo;
      var services := apps[a].services;
      var left := apps[a].services.Keys;
      while left != {}
        invariant left <= apps[a].services.Keys && services.Keys == apps[a].services.Keys
        invariant forall s :: s in apps[a].services && s !in left ==> ServiceResolved(apps, apps[a].services[s], services[s])
        invariant forall s :: s in left ==> services[s] == apps[a].services[s]
        invariant forall s :: s in apps[a].services && s !in left ==> !ServiceDrawsFromEmpty(apps, apps[a].services[s])
        decreases left
      {
        var s :| s in left;
        var svc := FixServiceReferences(apps, services[s], rnd);
        if svc.Err? {
          return Err(svc.error);
        }
        services := services[s := svc.value];
        left := left - {s};
      }
      fixed := fixed[a := apps[a].(services := services)];
      todo := todo - {a};
    }
    r := Ok(fixed);
  }

  // ---------------------------------------------------------------------------
  // The configuration

  class Configuration {
    /** `raw.entrypoints` */
    var entrypointSlugs: seq<string>
    /** `raw.applications`, defaulted and resolved */
    var applications: Apps

    constructor (entrypointSlugs: seq<string>, applications: Apps)
      ensures this.entrypointSlugs == entrypointSlugs && this.applications == applications
    {
      this.entrypointSlugs := entrypointSlugs;
      this.applications := applications;
    }

    /** `applications()`: the application values; `keys` says which key each comes from. */
    method Applications() returns (r: seq<Application>, ghost keys: seq<string>)
      ensures |r| == |applications|
      ensures forall x :: x in r <==> x in applications.Values
      ensures |keys| == |r| && Distinct(keys)
      ensures forall k :: k in keys <==> k in applications
      ensures forall n :: 0 <= n < |r| ==> keys[n] in applications && r[n] == applications[keys[n]]
    {
      r, keys := Topologies.ValuesOf(applications);
    }

    /** `entrypoints()`: the same slug rule as the topology's. */
    method Entrypoints() returns (entries: seq<Operation>, ghost refs: seq<OpRef>)
      ensures Topologies.Listed(applications, entrypointSlugs, entries, refs)
      ensures forall r: OpRef :: Lookup(applications, r).Some? && Topologies.Selected(applications, entrypointSlugs, r) ==> r in refs
    {
      entries := [];
      refs := [];
      var appKeys := KeysOf(applications);
      var i := 0;
      while i < |appKeys|
        invariant 0 <= i <= |appKeys|
        invariant Topologies.Listed(applications, entrypointSlugs, entries, refs)
        invariant forall n :: 0 <= n < |refs| ==> refs[n].app in appKeys[..i]
        invariant forall r: OpRef ::
          Lookup(applications, r).Some? && Topologies.Selected(applications, entrypointSlugs, r) && r.app in appKeys[..i] ==> r in refs
      {
        var a := appKeys[i];
        var more, moreRefs := Topologies.ApplicationEntrypoints(applications, entrypointSlugs, a);
        assert a !in appKeys[..i];
        Topologies.ListedAppend(applications, entrypointSlugs, entries, refs, more, moreRefs);
        entries, refs := entries + more, refs + moreRefs;
        assert appKeys[..i + 1] == appKeys[..i] + [a];
        i := i + 1;
      }
      assert appKeys[..i] == appKeys;
    }

    /** `getApplication(name)`: plain lookup by key. */
    function GetApplication(name: string): (r: Option<Application>)
      reads this
      ensures r.Some? <==> name in applications
      ensures r.Some? ==> r.value == applications[name]
    {
      Topologies.ApplicationNamed(applications, name)
    }
  }

  /**
   * `new Configuration(stream)` on an already-parsed configuration:
   * `setDefaults()` (defaults, then resolution); the constructor throws when
   * a reference draws from a service without operations.
   */
  method NewConfiguration(entrypointSlugs: seq<string>, raw: Apps, rnd: RandomSource)
    returns (r: Result<Configuration>, ghost defaults: Apps)
    modifies rnd
    ensures AppsDefaulted(raw, defaults)
    ensures r.Err? <==> AppsDrawFromEmpty(defaults)
    ensures r.Err? ==> r.error == EmptyChoice
    ensures r.Ok? ==> fresh(r.value) && r.value.entrypointSlugs == entrypointSlugs && AppsResolved(defaults, r.value.applications)
  {
    var d := SetDefaults(raw);
    defaults := d;
    var resolved := FixAllReferences(d, rnd);
    if resolved.Err? {
      return Err(resolved.error), defaults;
    }
    var c := new Configuration(entrypointSlugs, resolved.value);
    r := Ok(c);
  }
}
