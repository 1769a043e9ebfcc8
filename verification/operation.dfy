/**
 * Trace generation for one operation (Operation.java): the operation emits
 * its own span, then the traces of its calls in declared order, each inside
 * the timing window of the span that called it.
 */
module Operations {
  import opened Common
  import opened Spans
  import opened Model

  /** The error percentage a new operation starts with when `generator.error_percentage` is unset. */
  const DefaultErrorPercentage: real := 5.0

  /** The source every generated span carries. */
  const TraceSource: string := "trace-generator"

  /** The draws the span at one pre-order position consumes: its duration, its offset, and `build`. */
  datatype SpanDraws = SpanDraws(durationDraw: nat, offsetDraw: nat, build: BuildDraws)

  /**
   * What one trace is generated with: the trace id, the wall clock (read
   * once per trace), the draw for the root budget, and the draws of the span
   * at each pre-order position.
   */
  datatype TraceEnv = TraceEnv(traceId: Uuid, now: int, budgetDraw: nat, draws: nat -> SpanDraws)

  /** `new Operation(name)`; `errorPercentage` stands for the system property read at construction. */
  function NewOperation(name: string, errorPercentage: real): Operation {
    Operation(name, "", "", [], [], errorPercentage)
  }

  /** `setErrorChance`: a percentage outside [0, 100] is refused, any other is stored as given. */
  function SetErrorChance(op: Operation, chance: real): (r: Result<Operation>)
    ensures r.Err? <==> chance < 0.0 || chance > 100.0
    ensures r.Err? ==> r.error == ErrorChanceOutOfRange(chance)
    ensures r.Ok? ==> r.value.errorChance == chance && r.value.(errorChance := op.errorChance) == op
  {
    if chance < 0.0 || chance > 100.0 then Err(ErrorChanceOutOfRange(chance))
    else Ok(op.(errorChance := chance))
  }

  /** `addCall`: the call goes to the end of the list; nothing else changes. */
  function AddCall(op: Operation, call: Call): (r: Operation)
    ensures |r.calls| == |op.calls| + 1 && r.calls[..|op.calls|] == op.calls && r.calls[|op.calls|] == call
    ensures r.(calls := op.calls) == op
  {
    op.(calls := op.calls + [call])
  }

  /** `getRandomDuration(max)`: `max` itself below 10, otherwise a value in [max/2, max). */
  function RandomDuration(max: int, draw: nat): (d: int)
    ensures max < 10 ==> d == max
    ensures max >= 10 ==> max / 2 <= d <= max / 2 + max / 2 - 1 && d < max
  {
    if max < 10 then max else draw % (max / 2) + max / 2
  }

  /** The budget of a root trace: `getRandomDuration(1200)`. */
  function RootBudget(budgetDraw: nat): (b: int)
    ensures 600 <= b <= 1199
  {
    RandomDuration(1200, budgetDraw)
  }

  /**
   * The (offset, duration) a span gets inside its caller's window
   * (offsetMillis, durationMillis): first the duration, then the offset
   * within what is left. A non-negative window contains it.
   */
  function Window(offsetMillis: int, durationMillis: int, d: SpanDraws): (w: (int, int))
    ensures durationMillis >= 0 ==> 0 <= w.1 && offsetMillis <= w.0 && w.0 + w.1 <= offsetMillis + durationMillis
  {
    var duration := RandomDuration(durationMillis, d.durationDraw);
    var offset := RandomDuration(durationMillis - duration, d.offsetDraw) + offsetMillis;
    (offset, duration)
  }

  /** The identity `getSpan` hands to the builder. */
  function SpanIdentity(op: Operation): Identity {
    Identity(op.application, "cluster", op.service, "shard")
  }

  /** The span `getSpan` builds for `op` at (offset, duration). */
  function SpanFor(op: Operation, env: TraceEnv, parentId: Option<Uuid>, offset: int, duration: int, d: BuildDraws): Span {
    Span(NameOrDefault(op.name, d.namePick), env.now + offset, duration, TraceSource, Some(env.traceId), d.freshId,
         if parentId.Some? then Some([parentId.value]) else None, None,
         BuiltTags(op.tags, SpanIdentity(op), op.errorChance, d), [])
  }

  /** The first half of `getSpan`: a builder holding the operation's name, window, parent, chance, identity and tags. */
  method SpanBuilderFor(op: Operation, env: TraceEnv, parentId: Option<Uuid>, offset: int, duration: int, freshId: Uuid)
    returns (builder: Builder)
    ensures fresh(builder)
    ensures builder.operationName == op.name && builder.source == TraceSource
    ensures builder.startMillis == env.now + offset && builder.durationMillis == duration
    ensures builder.spanId == Some(freshId) && builder.traceId == None
    ensures builder.parents == (if parentId.Some? then Some([parentId.value]) else None)
    ensures builder.followsFrom == None && builder.spanLogs == []
    ensures builder.tags == op.tags && builder.Id() == SpanIdentity(op) && builder.errorChance == op.errorChance
  {
    builder := new Builder(op.name, env.now + offset, duration, TraceSource, freshId);
    if parentId.Some? {
      builder.SetParents([parentId.value]);
    }
    builder.ErrorChance(op.errorChance);
    builder.SetIdentityTags(op.application, "cluster", op.service, "shard");
    var i := 0;
    while i < |op.tags|
      invariant 0 <= i <= |op.tags|
      invariant builder.tags == op.tags[..i]
      modifies builder`tags
    {
      builder.AddTag(op.tags[i].key, op.tags[i].value);
      i := i + 1;
    }
    assert op.tags[..i] == op.tags;
  }

  /** `getSpan`: the span is assembled through `Span.Builder`, then stamped with the trace id. */
  method GetSpan(op: Operation, env: TraceEnv, parentId: Option<Uuid>, offset: int, duration: int, d: BuildDraws)
    returns (span: Span)
    ensures span == SpanFor(op, env, parentId, offset, duration, d)
  {
    var builder := SpanBuilderFor(op, env, parentId, offset, duration, d.freshId);
    span := builder.Build(d);
    span := span.(traceId := Some(env.traceId));
  }

  /**
   * The spans `generateTrace(traceId, parentId, offsetMillis, durationMillis)`
   * returns for `op` reached along `path`; `from` is the pre-order position of
   * its own span, whose draws it consumes.
   */
  function TraceSpec(apps: Apps, op: Operation, path: set<OpRef>, env: TraceEnv, parentId: Option<Uuid>,
                     offsetMillis: int, durationMillis: int, from: nat): seq<Span>
    requires CheckCalls(apps, op, path) == Pass
    decreases |AllRefs(apps) - path|, op, 1, 0
  {
    var w := Window(offsetMillis, durationMillis, env.draws(from));
    var span := SpanFor(op, env, parentId, w.0, w.1, env.draws(from).build);
    [span] + TraceCalls(apps, op, 0, path, env, span.spanId, w.0, w.1, from + 1)
  }

  /** The traces of calls `i..` of `op`, concatenated, each a child of span `spanId` at (offset, duration). */
  function TraceCalls(apps: Apps, op: Operation, i: nat, path: set<OpRef>, env: TraceEnv, spanId: Uuid,
                      offset: int, duration: int, from: nat): (u: seq<Span>)
    requires i <= |op.calls|
    requires CheckCallsFrom(apps, op, i, path) == Pass
    decreases |AllRefs(apps) - path|, op, 0, |op.calls| - i
  {
    if i == |op.calls| then []
    else
      var here := TraceCall(apps, op, i, path, env, spanId, offset, duration, from);
      here + TraceCalls(apps, op, i + 1, path, env, spanId, offset, duration, from + |here|)
  }

  /** The trace of call `i` of `op`; an edge to a position the arena lacks contributes nothing. */
  function TraceCall(apps: Apps, op: Operation, i: nat, path: set<OpRef>, env: TraceEnv, spanId: Uuid,
                     offset: int, duration: int, from: nat): (u: seq<Span>)
    requires i < |op.calls|
    requires CheckCall(apps, op, i, path) == Pass
    decreases |AllRefs(apps) - path|, op, 0, 0
  {
    match op.calls[i]
    case Pending(p) => TraceSpec(apps, p, path, env, Some(spanId), offset, duration, from)
    case Bound(r) =>
      match Lookup(apps, r)
      case None => []
      case Some(t) =>
        assert |AllRefs(apps) - (path + {r})| < |AllRefs(apps) - path| by { MeasureShrinks(apps, path, r); }
        TraceSpec(apps, t, path + {r}, env, Some(spanId), offset, duration, from)
  }

  /** One step of the loop over the calls: call `i` passes its check, and its trace comes first. */
  lemma TraceCallsStep(apps: Apps, op: Operation, i: nat, path: set<OpRef>, env: TraceEnv, spanId: Uuid,
                       offset: int, duration: int, from: nat)
    requires i < |op.calls|
    requires CheckCallsFrom(apps, op, i, path) == Pass
    ensures CheckCall(apps, op, i, path) == Pass && CheckCallsFrom(apps, op, i + 1, path) == Pass
    ensures TraceCalls(apps, op, i, path, env, spanId, offset, duration, from)
      == TraceCall(apps, op, i, path, env, spanId, offset, duration, from)
         + TraceCalls(apps, op, i + 1, path, env, spanId, offset, duration,
                      from + |TraceCall(apps, op, i, path, env, spanId, offset, duration, from)|)
  {
  }

  /** The loop over the calls keeps its invariant when it appends the trace of call `i`. */
  lemma CallsLoopStep(apps: Apps, op: Operation, i: nat, path: set<OpRef>, env: TraceEnv, spanId: Uuid,
                      offset: int, duration: int, from: nat, next: nat, trace: seq<Span>, sub: seq<Span>)
    requires i < |op.calls|
    requires CheckCallsFrom(apps, op, 0, path) == Pass && CheckCallsFrom(apps, op, i, path) == Pass
    requires CheckCall(apps, op, i, path) == Pass && CheckCallsFrom(apps, op, i + 1, path) == Pass
    requires sub == TraceCall(apps, op, i, path, env, spanId, offset, duration, next)
    requires TraceCalls(apps, op, i, path, env, spanId, offset, duration, next)
      == sub + TraceCalls(apps, op, i + 1, path, env, spanId, offset, duration, next + |sub|)
    requires trace + TraceCalls(apps, op, i, path, env, spanId, offset, duration, next)
      == TraceCalls(apps, op, 0, path, env, spanId, offset, duration, from)
    ensures (trace + sub) + TraceCalls(apps, op, i + 1, path, env, spanId, offset, duration, next + |sub|)
      == TraceCalls(apps, op, 0, path, env, spanId, offset, duration, from)
  {
    var later := TraceCalls(apps, op, i + 1, path, env, spanId, offset, duration, next + |sub|);
    assert trace + (sub + later) == (trace + sub) + later;
  }

  /**
   * `generateTrace(traceId, parentId, offsetMillis, durationMillis)`: the own
   * span first, then each call's trace appended in declared order.
   */
  method GenerateTraceFrom(apps: Apps, op: Operation, path: set<OpRef>, env: TraceEnv, parentId: Option<Uuid>,
                           offsetMillis: int, durationMillis: int, from: nat) returns (trace: seq<Span>)
    requires CheckCalls(apps, op, path) == Pass
    ensures trace == TraceSpec(apps, op, path, env, parentId, offsetMillis, durationMillis, from)
    decreases |AllRefs(apps) - path|, op, 2
  {
    var d := env.draws(from);
    var duration := RandomDuration(durationMillis, d.durationDraw);
    var offset := RandomDuration(durationMillis - duration, d.offsetDraw) + offsetMillis;
    assert (offset, duration) == Window(offsetMillis, durationMillis, d);
    var span := GetSpan(op, env, parentId, offset, duration, d.build);
    var children := GenerateCallsTrace(apps, op, path, env, span.spanId, offset, duration, from + 1);
    trace := [span] + children;
  }

  /** The `forEach` over the calls: each call's trace appended to what came before, in declared order. */
  method GenerateCallsTrace(apps: Apps, op: Operation, path: set<OpRef>, env: TraceEnv, spanId: Uuid,
                            offset: int, duration: int, from: nat) returns (trace: seq<Span>)
    requires CheckCalls(apps, op, path) == Pass
    ensures trace == TraceCalls(apps, op, 0, path, env, spanId, offset, duration, from)
    decreases |AllRefs(apps) - path|, op, 1
  {
    trace := [];
    var i, next := 0, from;
    while i < |op.calls|
      invariant 0 <= i <= |op.calls|
      invariant CheckCallsFrom(apps, op, i, path) == Pass
      invariant next == from + |trace|
      invariant trace + TraceCalls(apps, op, i, path, env, spanId, offset, duration, next)
                == TraceCalls(apps, op, 0, path, env, spanId, offset, duration, from)
    {
      TraceCallsStep(apps, op, i, path, env, spanId, offset, duration, next);
      var sub := GenerateCallTrace(apps, op, i, path, env, spanId, offset, duration, next);
      CallsLoopStep(apps, op, i, path, env, spanId, offset, duration, from, next, trace, sub);
      trace, i, next := trace + sub, i + 1, next + |sub|;
    }
  }

  /** The body of the loop over the calls: the trace of call `i`, as a child of span `spanId`. */
  method GenerateCallTrace(apps: Apps, op: Operation, i: nat, path: set<OpRef>, env: TraceEnv, spanId: Uuid,
                           offset: int, duration: int, from: nat) returns (sub: seq<Span>)
    requires i < |op.calls|
    requires CheckCall(apps, op, i, path) == Pass
    ensures sub == TraceCall(apps, op, i, path, env, spanId, offset, duration, from)
    decreases |AllRefs(apps) - path|, op, 0
  {
    match op.calls[i] {
      case Pending(p) =>
        sub := GenerateTraceFrom(apps, p, path, env, Some(spanId), offset, duration, from);
      case Bound(r) =>
        if Lookup(apps, r).Some? {
          MeasureShrinks(apps, path, r);
          sub := GenerateTraceFrom(apps, Lookup(apps, r).value, path + {r}, env, Some(spanId), offset, duration, from);
        } else {
          sub := [];
        }
    }
  }

  /** A root trace: `generateTrace(traceId)` starts with no parent, at offset 0, within the root budget. */
  function RootTrace(apps: Apps, op: Operation, env: TraceEnv): (t: seq<Span>)
    requires CheckCalls(apps, op, {}) == Pass
    ensures |t| >= 1
  {
    TraceSpec(apps, op, {}, env, None, 0, RootBudget(env.budgetDraw), 0)
  }

  /** `generateTrace(traceId)`. */
  method GenerateTrace(apps: Apps, op: Operation, env: TraceEnv) returns (trace: seq<Span>)
    requires CheckCalls(apps, op, {}) == Pass
    ensures trace == RootTrace(apps, op, env)
  {
    var budget := RandomDuration(1200, env.budgetDraw);
    trace := GenerateTraceFrom(apps, op, {}, env, None, 0, budget, 0);
  }
}
