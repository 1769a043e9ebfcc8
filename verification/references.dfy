/**
 * The configured half of Topology.java's `fixReferences`: every name is
 * taken from its map key, blank application and service fields are filled
 * in from the enclosing service, and then every call placeholder naming an
 * operation of the topology is replaced by that operation.
 */
module References {
  import opened Common
  import opened Spans
  import opened Model
  import opened Services

  /** A service as the configuration gives it: its operations keyed by name, in document order. */
  datatype RawService = RawService(
    name: string,
    application: string,
    operations: seq<(string, Operation)>,
    tags: seq<Tag>,
    baseLatency: int)

  datatype RawApplication = RawApplication(name: string, services: map<string, RawService>)

  // ---------------------------------------------------------------------------
  // Defaults

  /** A call reference after `setOperationAttributes(o, o.getName(), ...)`: blank application and service filled in, nothing else touched. */
  predicate CallDefaulted(c: Call, app: string, svc: string, r: Call) {
    match c
    case Bound(_) => r == c
    case Pending(p) =>
      && r.Pending?
      && r.placeholder.application == (if IsBlank(p.application) then app else p.application)
      && r.placeholder.service == (if IsBlank(p.service) then svc else p.service)
      && r.placeholder.(application := p.application, service := p.service) == p
  }

  /**
   * An operation of a service after `setServiceAttributes`: named by its key;
   * its application is the service's when the service had none (the
   * `setApplication` cascade overrides it) or when its own was blank; its
   * service is the service's name when blank; its call references are
   * defaulted the same way; tags and error chance are untouched.
   */
  predicate OperationDefaulted(op: Operation, key: string, cascaded: bool, app: string, svc: string, r: Operation) {
    && r.name == key
    && r.application == (if cascaded || IsBlank(op.application) then app else op.application)
    && r.service == (if IsBlank(op.service) then svc else op.service)
    && r.tags == op.tags && r.errorChance == op.errorChance
    && |r.calls| == |op.calls|
    && forall i :: 0 <= i < |op.calls| ==> CallDefaulted(op.calls[i], app, svc, r.calls[i])
  }

  /** A service after `setServiceAttributes(svc, key, appKey)`: its name is always the key, its application the application key when blank. */
  predicate ServiceDefaulted(svc: RawService, key: string, appKey: string, r: Service) {
    && r.name == key
    && r.application == (if IsBlank(svc.application) then appKey else svc.application)
    && r.tags == svc.tags && r.baseLatency == svc.baseLatency
    && |r.operations| == |svc.operations|
    && forall k :: 0 <= k < |svc.operations| ==>
         OperationDefaulted(svc.operations[k].1, svc.operations[k].0, IsBlank(svc.application), r.application, key, r.operations[k])
  }

  /** An application after the first half of `fixReferences`: named by its key, each service defaulted under its own key. */
  predicate ApplicationDefaulted(app: RawApplication, key: string, r: Application) {
    && r.name == key
    && r.services.Keys == app.services.Keys
    && forall s :: s in app.services ==> ServiceDefaulted(app.services[s], s, key, r.services[s])
  }

  ghost predicate AppsDefaulted(raw: map<string, RawApplication>, r: Apps) {
    r.Keys == raw.Keys && forall a :: a in raw ==> ApplicationDefaulted(raw[a], a, r[a])
  }

  /** `setOperationAttributes(op, name, app, svc)`: the name always, application and service only where blank. */
  method SetOperationAttributes(op: Operation, name: string, app: string, svc: string) returns (r: Operation)
    ensures r.name == name
    ensures !IsBlank(op.application) ==> r.application == op.application
    ensures IsBlank(op.application) ==> r.application == app
    ensures !IsBlank(op.service) ==> r.service == op.service
    ensures IsBlank(op.service) ==> r.service == svc
    ensures r.(name := op.name, application := op.application, service := op.service) == op
  {
    r := op.(name := name);
    if IsBlank(r.application) {
      r := r.(application := app);
    }
    if IsBlank(r.service) {
      r := r.(service := svc);
    }
  }

  /** The inner loop of `setServiceAttributes`: every call reference of one operation, under its own name. */
  method SetCallsAttributes(calls: seq<Call>, app: string, svc: string) returns (r: seq<Call>)
    ensures |r| == |calls|
    ensures forall i :: 0 <= i < |calls| ==> CallDefaulted(calls[i], app, svc, r[i])
  {
    r := [];
    var i := 0;
    while i < |calls|
      invariant 0 <= i <= |calls| && |r| == i
      invariant forall j :: 0 <= j < i ==> CallDefaulted(calls[j], app, svc, r[j])
    {
      var slot := calls[i];
      if slot.Pending? {
        var p := SetOperationAttributes(slot.placeholder, slot.placeholder.name, app, svc);
        slot := Pending(p);
      }
      r := r + [slot];
      i := i + 1;
    }
  }

  /**
   * `setServiceAttributes(svc, serviceName, defaultApplication)`: the name,
   * then the application through `setApplication` (which stamps every
   * operation), then each operation under its key and each of its call
   * references under its own name.
   */
  method SetServiceAttributes(svc: RawService, serviceName: string, defaultApplication: string) returns (r: Service)
    ensures ServiceDefaulted(svc, serviceName, defaultApplication, r)
  {
    var ops := seq(|svc.operations|, k requires 0 <= k < |svc.operations| => svc.operations[k].1);
    var s := Service(serviceName, svc.application, ops, svc.tags, svc.baseLatency);
    var cascaded := IsBlank(svc.application);
    if cascaded {
      s := SetApplication(s, defaultApplication);
    }
    var fixed: seq<Operation> := [];
    var k := 0;
    while k < |s.operations|
      invariant |s.operations| == |svc.operations| && 0 <= k <= |s.operations| && |fixed| == k
      invariant s.name == serviceName && s.application == (if cascaded then defaultApplication else svc.application)
      invariant s.tags == svc.tags && s.baseLatency == svc.baseLatency
      invariant forall j :: 0 <= j < |s.operations| ==>
        s.operations[j] == if cascaded then ops[j].(application := defaultApplication) else ops[j]
      invariant forall j :: 0 <= j < k ==>
        OperationDefaulted(svc.operations[j].1, svc.operations[j].0, cascaded, s.application, serviceName, fixed[j])
    {
      var op := SetOperationAttributes(s.operations[k], svc.operations[k].0, s.application, s.name);
      var calls := SetCallsAttributes(op.calls, s.application, s.name);
      fixed := fixed + [op.(calls := calls)];
      k := k + 1;
    }
    r := s.(operations := fixed);
  }

  /** The first half of `fixReferences` for one application: its name, then every service under its key. */
  method SetApplicationAttributes(app: RawApplication, appName: string) returns (r: Application)
    ensures ApplicationDefaulted(app, appName, r)
  {
    var services: map<string, Service> := map[];
    var todo := app.services.Keys;
    while todo != {}
      invariant todo <= app.services.Keys
      invariant services.Keys == app.services.Keys - todo
      invariant forall s :: s in services ==> ServiceDefaulted(app.services[s], s, appName, services[s])
      decreases todo
    {
      var s :| s in todo;
      var fixed := SetServiceAttributes(app.services[s], s, appName);
      services := services[s := fixed];
      todo := todo - {s};
    }
    r := Application(appName, services);
  }

  /** The first half of `fixReferences` over every application. */
  method SetAllAttributes(raw: map<string, RawApplication>) returns (r: Apps)
    ensures AppsDefaulted(raw, r)
  {
    r := map[];
    var todo := raw.Keys;
    while todo != {}
      invariant todo <= raw.Keys
      invariant r.Keys == raw.Keys - todo
      invariant forall a :: a in r ==> ApplicationDefaulted(raw[a], a, r[a])
      decreases todo
    {
      var a :| a in todo;
      var fixed := SetApplicationAttributes(raw[a], a);
      r := r[a := fixed];
      todo := todo - {a};
    }
  }

  // ---------------------------------------------------------------------------
  // Resolution

  /** A blank-named reference into an existing service that has no operations: the random pick has nothing to pick from. */
  predicate DrawsFromEmpty(apps: Apps, c: Operation) {
    && c.application in apps && c.service in apps[c.application].services
    && IsBlank(c.name) && |apps[c.application].services[c.service].operations| == 0
  }

  /**
   * A slot of a call list after `fixOperationReferences`, given what it
   * held: a placeholder naming an existing application and service becomes
   * an edge to the operation of that name, or to some operation of that
   * service when the name is blank; otherwise it stays as it was.
   */
  predicate SlotResolved(apps: Apps, call: Call, slot: Call) {
    match call
    case Bound(_) => slot == call
    case Pending(c) =>
      if c.application in apps && c.service in apps[c.application].services then
        var ops := apps[c.application].services[c.service].operations;
        if IsBlank(c.name) then
          slot.Bound? && slot.target.app == c.application && slot.target.svc == c.service && slot.target.index < |ops|
        else
          match FindOperation(ops, c.name)
          case None => slot == call
          case Some(k) => slot == Bound(OpRef(c.application, c.service, k))
      else slot == call
  }

  /** `existingOperation(c)`: the operation a reference names, if the topology has it. */
  method ExistingOperation(apps: Apps, c: Operation, rnd: RandomSource) returns (r: Result<Option<OpRef>>)
    modifies rnd
    ensures r.Err? <==> DrawsFromEmpty(apps, c)
    ensures r.Err? ==> r.error == EmptyChoice
    ensures r.Ok? ==> SlotResolved(apps, Pending(c), if r.value.Some? then Bound(r.value.value) else Pending(c))
  {
    if c.application !in apps {
      return Ok(None);
    }
    var app := apps[c.application];
    if c.service !in app.services {
      return Ok(None);
    }
    var svc := app.services[c.service];
    if IsBlank(c.name) {
      if |svc.operations| == 0 {
        return Err(EmptyChoice);
      }
      var k := rnd.NextInt(|svc.operations|);
      return Ok(Some(OpRef(c.application, c.service, k)));
    }
    var found := FindOperation(svc.operations, c.name);
    if found.Some? {
      return Ok(Some(OpRef(c.application, c.service, found.value)));
    }
    return Ok(None);
  }

  /** Some placeholder of the list draws from an empty service. */
  predicate CallsDrawFromEmpty(apps: Apps, calls: seq<Call>) {
    exists i :: 0 <= i < |calls| && calls[i].Pending? && DrawsFromEmpty(apps, calls[i].placeholder)
  }

  /** `fixOperationReferences(calls)`: each slot in turn replaced by what it names; length and order kept. */
  method FixOperationReferences(apps: Apps, calls: seq<Call>, rnd: RandomSource) returns (r: Result<seq<Call>>)
    modifies rnd
    ensures r.Err? <==> CallsDrawFromEmpty(apps, calls)
    ensures r.Err? ==> r.error == EmptyChoice
    ensures r.Ok? ==> |r.value| == |calls| && forall i :: 0 <= i < |calls| ==> SlotResolved(apps, calls[i], r.value[i])
  {
    var fixed := calls;
    var i := 0;
    while i < |fixed|
      invariant |fixed| == |calls| && 0 <= i <= |fixed|
      invariant forall j :: 0 <= j < i ==> SlotResolved(apps, calls[j], fixed[j])
      invariant forall j :: i <= j < |fixed| ==> fixed[j] == calls[j]
      invariant forall j :: 0 <= j < i ==> !(calls[j].Pending? && DrawsFromEmpty(apps, calls[j].placeholder))
    {
      if fixed[i].Pending? {
        var e := ExistingOperation(apps, fixed[i].placeholder, rnd);
        if e.Err? {
          return Err(e.error);
        }
        if e.value.Some? {
          fixed := fixed[i := Bound(e.value.value)];
        }
      }
      i := i + 1;
    }
    r := Ok(fixed);
  }

  /** Every call list of the operation resolved; nothing else about it changes. */
  predicate OperationResolved(apps: Apps, before: Operation, after: Operation) {
    && after.(calls := before.calls) == before
    && |after.calls| == |before.calls|
    && forall i :: 0 <= i < |before.calls| ==> SlotResolved(apps, before.calls[i], after.calls[i])
  }

  predicate ServiceResolved(apps: Apps, before: Service, after: Service) {
    && after.(operations := before.operations) == before
    && |after.operations| == |before.operations|
    && forall k :: 0 <= k < |before.operations| ==> OperationResolved(apps, before.operations[k], after.operations[k])
  }

  predicate ApplicationResolved(apps: Apps, before: Application, after: Application) {
    && after.name == before.name
    && after.services.Keys == before.services.Keys
    && forall s :: s in before.services ==> ServiceResolved(apps, before.services[s], after.services[s])
  }

  /** Every application of `apps` resolved against `apps` itself. */
  ghost predicate AppsResolved(apps: Apps, after: Apps) {
    after.Keys == apps.Keys && forall a :: a in apps ==> ApplicationResolved(apps, apps[a], after[a])
  }

  predicate ServiceDrawsFromEmpty(apps: Apps, svc: Service) {
    exists k :: 0 <= k < |svc.operations| && CallsDrawFromEmpty(apps, svc.operations[k].calls)
  }

  predicate ApplicationDrawsFromEmpty(apps: Apps, app: Application) {
    exists s :: s in app.services && ServiceDrawsFromEmpty(apps, app.services[s])
  }

  /** The loop of the second half of `fixReferences` over one service's operations. */
  method FixServiceReferences(apps: Apps, svc: Service, rnd: RandomSource) returns (r: Result<Service>)
    modifies rnd
    ensures r.Err? <==> ServiceDrawsFromEmpty(apps, svc)
    ensures r.Err? ==> r.error == EmptyChoice
    ensures r.Ok? ==> ServiceResolved(apps, svc, r.value)
  {
    var ops := svc.operations;
    var k := 0;
    while k < |ops|
      invariant |ops| == |svc.operations| && 0 <= k <= |ops|
      invariant forall j :: 0 <= j < k ==> OperationResolved(apps, svc.operations[j], ops[j])
      invariant forall j :: k <= j < |ops| ==> ops[j] == svc.operations[j]
      invariant forall j :: 0 <= j < k ==> !CallsDrawFromEmpty(apps, svc.operations[j].calls)
    {
      var calls := FixOperationReferences(apps, ops[k].calls, rnd);
      if calls.Err? {
        return Err(calls.error);
      }
      ops := ops[k := ops[k].(calls := calls.value)];
      k := k + 1;
    }
    r := Ok(svc.(operations := ops));
  }

  /** The second half of `fixReferences` for one application, against the whole topology. */
  method FixApplicationReferences(apps: Apps, app: Application, rnd: RandomSource) returns (r: Result<Application>)
    modifies rnd
    ensures r.Err? <==> ApplicationDrawsFromEmpty(apps, app)
    ensures r.Err? ==> r.error == EmptyChoice
    ensures r.Ok? ==> ApplicationResolved(apps, app, r.value)
  {
    var services := app.services;
    var todo := app.services.Keys;
    while todo != {}
      invariant todo <= app.services.Keys && services.Keys == app.services.Keys
      invariant forall s :: s in app.services && s !in todo ==> ServiceResolved(apps, app.services[s], services[s])
      invariant forall s :: s in todo ==> services[s] == app.services[s]
      invariant forall s :: s in app.services && s !in todo ==> !ServiceDrawsFromEmpty(apps, app.services[s])
      decreases todo
    {
      var s :| s in todo;
      var fixed := FixServiceReferences(apps, services[s], rnd);
      if fixed.Err? {
        return Err(fixed.error);
      }
      services := services[s := fixed.value];
      todo := todo - {s};
    }
    r := Ok(app.(services := services));
  }

  /** The second half of `fixReferences` over every application; lookups read keys and names, which it never changes. */
  method FixAllReferences(apps: Apps, rnd: RandomSource) returns (r: Result<Apps>)
    modifies rnd
    ensures r.Err? <==> exists a :: a in apps && ApplicationDrawsFromEmpty(apps, apps[a])
    ensures r.Err? ==> r.error == EmptyChoice
    ensures r.Ok? ==> AppsResolved(apps, r.value)
  {
    var fixed := apps;
    var todo := apps.Keys;
    while todo != {}
      invariant todo <= apps.Keys && fixed.Keys == apps.Keys
      invariant forall a :: a in apps && a !in todo ==> ApplicationResolved(apps, apps[a], fixed[a])
      invariant forall a :: a in todo ==> fixed[a] == apps[a]
      invariant forall a :: a in apps && a !in todo ==> !ApplicationDrawsFromEmpty(apps, apps[a])
      decreases todo
    {
      var a :| a in todo;
      var app := FixApplicationReferences(apps, apps[a], rnd);
      if app.Err? {
        return Err(app.error);
      }
      fixed := fixed[a := app.value];
      todo := todo - {a};
    }
    r := Ok(fixed);
  }

  /**
   * `fixReferences(apps)` on a configured topology: defaults for every
   * application, then resolution of every call list. A blank-named
   * reference into an existing service without operations makes it throw.
   */
  method FixReferences(raw: map<string, RawApplication>, rnd: RandomSource) returns (r: Result<Apps>, defaults: Apps)
    modifies rnd
    ensures AppsDefaulted(raw, defaults)
    ensures r.Err? <==> exists a :: a in defaults && ApplicationDrawsFromEmpty(defaults, defaults[a])
    ensures r.Err? ==> r.error == EmptyChoice
    ensures r.Ok? ==> AppsResolved(defaults, r.value)
  {
    defaults := SetAllAttributes(raw);
    r := FixAllReferences(defaults, rnd);
  }
}
