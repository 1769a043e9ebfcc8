/**
 * An application (Application.java): services by name, and a trace from a
 * service chosen by name or at random.
 */
module Applications {
  import opened Common
  import opened Spans
  import opened Model
  import opened Operations
  import opened TraceShape
  import opened Services

  /** `getService(name)`: plain map lookup; an absent name gives null. */
  function GetService(app: Application, name: string): (r: Option<Service>)
    ensures r.Some? <==> name in app.services
    ensures r.Some? ==> r.value == app.services[name]
  {
    if name in app.services then Some(app.services[name]) else None
  }

  /** Every service of the application passes the call-graph check. */
  predicate AppChecked(apps: Apps, app: Application) {
    forall s :: s in app.services ==> ServiceChecked(apps, app.services[s])
  }

  /** `generateTrace(traceId, service)`: that service's random-operation trace, or an empty list for an absent key. */
  function NamedTrace(apps: Apps, app: Application, service: string, opPick: nat, env: TraceEnv): (r: Result<seq<Span>>)
    requires AppChecked(apps, app)
    ensures service !in app.services ==> r == Ok([])
    ensures service in app.services ==> r == RandomTrace(apps, app.services[service], opPick, env)
    ensures r.Err? <==> service in app.services && |app.services[service].operations| == 0
    ensures service in app.services && |app.services[service].operations| > 0 ==> r.Ok? && |r.value| >= 1
  {
    if service in app.services then
      RandomTraceFindsOperation(apps, app.services[service], opPick, env);
      RandomTrace(apps, app.services[service], opPick, env)
    else Ok([])
  }

  /** The key set in some order: `new ArrayList<>(services.keySet())`, whose order a hash map leaves open. */
  ghost function KeyList(keys: set<string>): (s: seq<string>)
    ensures ListsKeys(s, keys)
    decreases |keys|
  {
    if keys == {} then []
    else
      var k :| k in keys;
      var rest := KeyList(keys - {k});
      assert forall j :: 0 <= j < |rest| ==> rest[j] != k;
      [k] + rest
  }

  /** `getRandomService`: a key picked from the key list; an empty map has none to pick. */
  ghost function RandomService(app: Application, pick: nat): (r: Result<string>)
    ensures r.Err? <==> |app.services| == 0
    ensures r.Err? ==> r.error == EmptyChoice
    ensures r.Ok? ==> r.value in app.services
  {
    var keys := KeyList(app.services.Keys);
    if |keys| == 0 then Err(EmptyChoice) else Ok(keys[pick % |keys|])
  }

  /** `generateTrace(traceId)`: a trace from a random service. */
  ghost function RandomAppTrace(apps: Apps, app: Application, servicePick: nat, opPick: nat, env: TraceEnv): Result<seq<Span>>
    requires AppChecked(apps, app)
  {
    match RandomService(app, servicePick)
    case Err(e) => Err(e)
    case Ok(name) => NamedTrace(apps, app, name, opPick, env)
  }

  /**
   * A random service is always one of the application's, so a non-empty
   * application never takes the empty branch: its trace is the chosen
   * service's trace.
   */
  lemma RandomServiceIsPresent(apps: Apps, app: Application, servicePick: nat, opPick: nat, env: TraceEnv)
    requires AppChecked(apps, app)
    ensures |app.services| == 0 ==> RandomAppTrace(apps, app, servicePick, opPick, env) == Err(EmptyChoice)
    ensures |app.services| > 0 ==>
      var name := RandomService(app, servicePick).value;
      && name in app.services
      && RandomAppTrace(apps, app, servicePick, opPick, env) == RandomTrace(apps, app.services[name], opPick, env)
  {
  }

  /** An application with one service holding one operation that calls nothing yields exactly one span, with the trace id. */
  lemma SingleOperationSingleSpan(apps: Apps, app: Application, key: string, svc: Service, op: Operation,
                                  servicePick: nat, opPick: nat, env: TraceEnv)
    requires app.services == map[key := svc] && svc.operations == [op] && op.calls == []
    ensures AppChecked(apps, app)
    ensures var r := RandomAppTrace(apps, app, servicePick, opPick, env);
      r.Ok? && |r.value| == 1 && r.value[0].traceId == Some(env.traceId)
  {
    assert CheckCalls(apps, op, {}) == Pass;
    assert ServiceChecked(apps, svc);
    assert RandomService(app, servicePick).value == key;
    RandomTraceFindsOperation(apps, svc, opPick, env);
    var found := FindOperation(svc.operations, op.name);
    assert found == Some(0);
    ServiceTraceShape(apps, svc, op.name, env);
    assert PreOrderCalls(apps, op, 0, {}) == [];
  }
}
