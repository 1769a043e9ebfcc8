/**
 * A service (Service.java): it dispatches to one of its operations by name,
 * then decorates every span of the resulting trace with its base latency
 * and its tags. Its setters stamp its operations with its name and
 * application.
 */
module Services {
  import opened Common
  import opened Spans
  import opened Model
  import opened Operations
  import opened TraceShape

  /** One span after decoration: the base latency added to its duration, the service tags appended. */
  function Decorate(s: Span, latency: int, tags: seq<Tag>): Span {
    s.(duration := s.duration + latency, tags := s.tags + tags)
  }

  /** Every span of the trace decorated, in place. */
  function Decorated(spans: seq<Span>, latency: int, tags: seq<Tag>): (r: seq<Span>)
    ensures |r| == |spans|
  {
    seq(|spans|, k requires 0 <= k < |spans| => Decorate(spans[k], latency, tags))
  }

  /** The decoration loop of `generateTrace(traceId, operation)`: each span in turn, each service tag in turn. */
  method DecorateAll(spans: seq<Span>, latency: int, tags: seq<Tag>) returns (r: seq<Span>)
    ensures r == Decorated(spans, latency, tags)
  {
    r := spans;
    var k := 0;
    while k < |r|
      invariant |r| == |spans| && 0 <= k <= |r|
      invariant forall j :: 0 <= j < k ==> r[j] == Decorate(spans[j], latency, tags)
      invariant forall j :: k <= j < |r| ==> r[j] == spans[j]
    {
      var s := r[k];
      var spanTags := s.tags;
      var j := 0;
      while j < |tags|
        invariant 0 <= j <= |tags|
        invariant spanTags == s.tags + tags[..j]
      {
        spanTags := spanTags + [tags[j]];
        j := j + 1;
      }
      assert tags[..j] == tags;
      r := r[k := s.(duration := s.duration + latency, tags := spanTags)];
      k := k + 1;
    }
  }

  /**
   * Decoration neither adds, drops nor reorders spans: span `k` keeps every
   * field but two, its duration grows by exactly the base latency, and its
   * tags are its old tags followed by the service tags.
   */
  lemma DecorationKeepsSpans(spans: seq<Span>, latency: int, tags: seq<Tag>)
    ensures var r := Decorated(spans, latency, tags);
      && |r| == |spans|
      && forall k :: 0 <= k < |r| ==>
        && r[k].duration == spans[k].duration + latency
        && |r[k].tags| == |spans[k].tags| + |tags|
        && r[k].tags[..|spans[k].tags|] == spans[k].tags
        && r[k].tags[|spans[k].tags|..] == tags
        && r[k].(duration := spans[k].duration, tags := spans[k].tags) == spans[k]
  {
    var r := Decorated(spans, latency, tags);
    forall k | 0 <= k < |r|
      ensures r[k].tags[..|spans[k].tags|] == spans[k].tags && r[k].tags[|spans[k].tags|..] == tags
    {
      assert r[k].tags == spans[k].tags + tags;
    }
  }

  /** Adding the same latency to every span keeps each child inside its parent's window. */
  lemma DecorationKeepsNesting(spans: seq<Span>, latency: int, tags: seq<Tag>)
    requires Nested(spans)
    ensures Nested(Decorated(spans, latency, tags))
  {
    ShiftedNested(spans, Decorated(spans, latency, tags), latency);
  }

  /** Appending tags keeps every span the span of its operation. */
  lemma DecorationKeepsFollows(spans: seq<Span>, ops: seq<Operation>, traceId: Uuid, latency: int, tags: seq<Tag>)
    requires Follows(spans, ops, traceId)
    ensures Follows(Decorated(spans, latency, tags), ops, traceId)
  {
    var r := Decorated(spans, latency, tags);
    forall k | 0 <= k < |r|
      ensures SpanOf(r[k], ops[k], traceId)
    {
      var s := spans[k];
      assert r[k].tags == s.tags + tags;
      assert r[k].tags[..|ops[k].tags|] == s.tags[..|ops[k].tags|];
      forall key | key in IdentityKeys
        ensures Tagged(r[k].tags, key)
      {
        var i :| 0 <= i < |s.tags| && s.tags[i].key == key;
        assert r[k].tags[i] == s.tags[i];
      }
    }
  }

  /** `getName().equals(operation)` over the list from `i` on: the first operation with that name. */
  function FindOperationFrom(ops: seq<Operation>, name: string, i: nat): (r: Option<nat>)
    requires i <= |ops|
    ensures r.Some? ==> i <= r.value < |ops| && ops[r.value].name == name
    ensures r.Some? ==> forall j :: i <= j < r.value ==> ops[j].name != name
    ensures r.None? ==> forall j :: i <= j < |ops| ==> ops[j].name != name
    decreases |ops| - i
  {
    if i == |ops| then None
    else if ops[i].name == name then Some(i)
    else FindOperationFrom(ops, name, i + 1)
  }

  /** The first operation of the list with that name, if any. */
  function FindOperation(ops: seq<Operation>, name: string): (r: Option<nat>)
    ensures r.Some? ==> r.value < |ops| && ops[r.value].name == name
    ensures r.Some? ==> forall j :: 0 <= j < r.value ==> ops[j].name != name
    ensures r.None? ==> forall j :: 0 <= j < |ops| ==> ops[j].name != name
  {
    FindOperationFrom(ops, name, 0)
  }

  /** Every operation of the service passes the call-graph check, as a loaded topology guarantees (`Topologies.AcyclicMeansServicesChecked`). */
  predicate ServiceChecked(apps: Apps, svc: Service) {
    forall k :: 0 <= k < |svc.operations| ==> CheckCalls(apps, svc.operations[k], {}) == Pass
  }

  /** The spans of `generateTrace(traceId, operation)`: empty when no operation has that name. */
  function ServiceTrace(apps: Apps, svc: Service, name: string, env: TraceEnv): (t: seq<Span>)
    requires ServiceChecked(apps, svc)
    ensures t == [] <==> forall k :: 0 <= k < |svc.operations| ==> svc.operations[k].name != name
  {
    match FindOperation(svc.operations, name)
    case None => []
    case Some(k) => Decorated(RootTrace(apps, svc.operations[k], env), svc.baseLatency, svc.tags)
  }

  /** `generateTrace(traceId, operation)`: the first operation with that name generates, the service decorates. */
  method GenerateNamedTrace(apps: Apps, svc: Service, env: TraceEnv, name: string) returns (spans: seq<Span>)
    requires ServiceChecked(apps, svc)
    ensures spans == ServiceTrace(apps, svc, name, env)
  {
    var k := 0;
    while k < |svc.operations|
      invariant 0 <= k <= |svc.operations|
      invariant forall j :: 0 <= j < k ==> svc.operations[j].name != name
    {
      var op := svc.operations[k];
      if op.name == name {
        assert FindOperation(svc.operations, name) == Some(k);
        var trace := Operations.GenerateTrace(apps, op, env);
        spans := DecorateAll(trace, svc.baseLatency, svc.tags);
        return;
      }
      k := k + 1;
    }
    spans := [];
  }

  /** `generateTrace(traceId)`: the name of a random operation; an empty list has none to pick. */
  function RandomTrace(apps: Apps, svc: Service, pick: nat, env: TraceEnv): (r: Result<seq<Span>>)
    requires ServiceChecked(apps, svc)
    ensures r.Err? <==> |svc.operations| == 0
    ensures r.Err? ==> r.error == EmptyChoice
    ensures r.Ok? ==> |r.value| >= 1
  {
    if |svc.operations| == 0 then Err(EmptyChoice)
    else Ok(ServiceTrace(apps, svc, svc.operations[pick % |svc.operations|].name, env))
  }

  /** `generateTrace(traceId)`, with the random index drawn from `pick`. */
  method GenerateTrace(apps: Apps, svc: Service, env: TraceEnv, pick: nat) returns (r: Result<seq<Span>>)
    requires ServiceChecked(apps, svc)
    ensures r == RandomTrace(apps, svc, pick, env)
  {
    if |svc.operations| == 0 {
      return Err(EmptyChoice);
    }
    var name := svc.operations[pick % |svc.operations|].name;
    var spans := GenerateNamedTrace(apps, svc, env, name);
    r := Ok(spans);
  }

  /**
   * A service's trace for a name it has: the decorated root trace of the
   * first operation with that name, one span per operation of its call tree
   * in pre-order, each child still inside its parent's window, every duration
   * grown by the base latency and every span ending in the service tags.
   */
  lemma ServiceTraceShape(apps: Apps, svc: Service, name: string, env: TraceEnv)
    requires ServiceChecked(apps, svc)
    ensures FindOperation(svc.operations, name).None? ==> ServiceTrace(apps, svc, name, env) == []
    ensures FindOperation(svc.operations, name).Some? ==>
      var op := svc.operations[FindOperation(svc.operations, name).value];
      var base := RootTrace(apps, op, env);
      var t := ServiceTrace(apps, svc, name, env);
      && op.name == name
      && Follows(t, PreOrder(apps, op, {}), env.traceId)
      && t[0].parents == None
      && Nested(t)
      && (forall k :: 0 <= k < |t| ==> t[k].duration == base[k].duration + svc.baseLatency)
      && (forall k :: 0 <= k < |t| ==> t[k].tags[|base[k].tags|..] == svc.tags)
  {
    if FindOperation(svc.operations, name).Some? {
      var op := svc.operations[FindOperation(svc.operations, name).value];
      var base := RootTrace(apps, op, env);
      RootTraceShape(apps, op, env);
      DecorationKeepsSpans(base, svc.baseLatency, svc.tags);
      DecorationKeepsNesting(base, svc.baseLatency, svc.tags);
      DecorationKeepsFollows(base, PreOrder(apps, op, {}), env.traceId, svc.baseLatency, svc.tags);
    }
  }

  /** On a service with operations, the random pick always names one of them, so the trace is never empty. */
  lemma RandomTraceFindsOperation(apps: Apps, svc: Service, pick: nat, env: TraceEnv)
    requires ServiceChecked(apps, svc)
    ensures RandomTrace(apps, svc, pick, env).Err? <==> |svc.operations| == 0
    ensures |svc.operations| > 0 ==>
      var name := svc.operations[pick % |svc.operations|].name;
      && FindOperation(svc.operations, name).Some?
      && FindOperation(svc.operations, name).value <= pick % |svc.operations|
      && |RandomTrace(apps, svc, pick, env).value| >= 1
  {
    if |svc.operations| > 0 {
      var i := pick % |svc.operations|;
      var name := svc.operations[i].name;
      var k := FindOperation(svc.operations, name);
      assert k.Some?;
      RootTraceShape(apps, svc.operations[k.value], env);
      DecorationKeepsSpans(RootTrace(apps, svc.operations[k.value], env), svc.baseLatency, svc.tags);
    }
  }

  /** `setOperations`: every operation is stamped with this service's name and application, in list order. */
  method SetOperations(svc: Service, ops: seq<Operation>) returns (r: Service)
    ensures r.(operations := svc.operations) == svc
    ensures |r.operations| == |ops|
    ensures forall k :: 0 <= k < |ops| ==>
      && r.operations[k].service == r.name && r.operations[k].application == r.application
      && r.operations[k].(service := ops[k].service, application := ops[k].application) == ops[k]
  {
    var stamped := ops;
    var k := 0;
    while k < |stamped|
      invariant |stamped| == |ops| && 0 <= k <= |stamped|
      invariant forall j :: 0 <= j < k ==> stamped[j] == ops[j].(service := svc.name, application := svc.application)
      invariant forall j :: k <= j < |stamped| ==> stamped[j] == ops[j]
    {
      stamped := stamped[k := stamped[k].(service := svc.name)];
      stamped := stamped[k := stamped[k].(application := svc.application)];
      k := k + 1;
    }
    r := svc.(operations := stamped);
  }

  /** `setApplication`: the service and every one of its operations move to the new application. */
  method SetApplication(svc: Service, application: string) returns (r: Service)
    ensures r.application == application
    ensures r.(application := svc.application, operations := svc.operations) == svc
    ensures |r.operations| == |svc.operations|
    ensures forall k :: 0 <= k < |r.operations| ==>
      r.operations[k].application == application && r.operations[k].(application := svc.operations[k].application) == svc.operations[k]
  {
    var ops := svc.operations;
    var k := 0;
    while k < |ops|
      invariant |ops| == |svc.operations| && 0 <= k <= |ops|
      invariant forall j :: 0 <= j < k ==> ops[j] == svc.operations[j].(application := application)
      invariant forall j :: k <= j < |ops| ==> ops[j] == svc.operations[j]
    {
      ops := ops[k := ops[k].(application := application)];
      k := k + 1;
    }
    r := svc.(application := application, operations := ops);
  }

  /** `Service.Builder`: name, application and operations, with no tags and no base latency. */
  class ServiceBuilder {
    var operations: seq<Operation>
    var name: string
    var application: string

    constructor ()
      ensures operations == [] && IsBlank(name) && IsBlank(application)
    {
      operations := [];
      name := "";
      application := "";
    }

    /** `operations(...)`: stamped with the name and application the builder holds now, set later or not. */
    method Operations(ops: seq<Operation>)
      modifies this`operations
      ensures |operations| == |ops|
      ensures forall k :: 0 <= k < |ops| ==>
        && operations[k].service == name && operations[k].application == application
        && operations[k].(service := ops[k].service, application := ops[k].application) == ops[k]
    {
      var stamped := ops;
      var k := 0;
      while k < |stamped|
        invariant |stamped| == |ops| && 0 <= k <= |stamped|
        invariant forall j :: 0 <= j < k ==> stamped[j] == ops[j].(service := name, application := application)
        invariant forall j :: k <= j < |stamped| ==> stamped[j] == ops[j]
      {
        stamped := stamped[k := stamped[k].(service := name, application := application)];
        k := k + 1;
      }
      operations := stamped;
    }

    method Name(name: string)
      modifies this`name
      ensures this.name == name
    {
      this.name := name;
    }

    method Application(application: string)
      modifies this`application
      ensures this.application == application
    {
      this.application := application;
    }

    /** `build()`: operations stamped earlier keep the name and application they were given then. */
    method Build() returns (s: Service)
      ensures s == Service(name, application, operations, [], 0)
    {
      s := Service(name, application, operations, [], 0);
    }
  }
}
