/**
 * What a generated trace looks like (Operation.java): one span per operation
 * of the call tree, in pre-order, each carrying the trace id, and each span
 * but the first a child of an earlier span whose window contains it.
 */
module TraceShape {
  import opened Common
  import opened Spans
  import opened Model
  import opened Operations

  /** The operations of the call tree below `op`, in pre-order: `op`, then each call's subtree in declared order. */
  function PreOrder(apps: Apps, op: Operation, path: set<OpRef>): seq<Operation>
    requires CheckCalls(apps, op, path) == Pass
    decreases |AllRefs(apps) - path|, op, 1, 0
  {
    [op] + PreOrderCalls(apps, op, 0, path)
  }

  function PreOrderCalls(apps: Apps, op: Operation, i: nat, path: set<OpRef>): seq<Operation>
    requires i <= |op.calls|
    requires CheckCallsFrom(apps, op, i, path) == Pass
    decreases |AllRefs(apps) - path|, op, 0, |op.calls| - i
  {
    if i == |op.calls| then []
    else PreOrderCall(apps, op, i, path) + PreOrderCalls(apps, op, i + 1, path)
  }

  function PreOrderCall(apps: Apps, op: Operation, i: nat, path: set<OpRef>): seq<Operation>
    requires i < |op.calls|
    requires CheckCall(apps, op, i, path) == Pass
    decreases |AllRefs(apps) - path|, op, 0, 0
  {
    match op.calls[i]
    case Pending(p) => PreOrder(apps, p, path)
    case Bound(r) =>
      match Lookup(apps, r)
      case None => []
      case Some(t) =>
        assert |AllRefs(apps) - (path + {r})| < |AllRefs(apps) - path| by { MeasureShrinks(apps, path, r); }
        PreOrder(apps, t, path + {r})
  }

  /**
   * The span of `op` within trace `traceId`: its name (or the literal
   * default), the generator's source, the trace id, the operation's tags as a
   * prefix, and every identity key, with the values `getSpan` supplies when
   * the operation's own tags do not already hold that key.
   */
  predicate SpanOf(s: Span, op: Operation, traceId: Uuid) {
    && s.operationName == NameOrDefault(op.name, 0)
    && s.source == TraceSource
    && s.traceId == Some(traceId)
    && |op.tags| <= |s.tags| && s.tags[..|op.tags|] == op.tags
    && (forall k :: k in IdentityKeys ==> Tagged(s.tags, k))
    && (!Tagged(op.tags, "cluster") ==> Tag("cluster", "cluster") in s.tags)
    && (!Tagged(op.tags, "shard") ==> Tag("shard", "shard") in s.tags)
    && (!Tagged(op.tags, "application") && !IsBlank(op.application) ==> Tag("application", op.application) in s.tags)
    && (!Tagged(op.tags, "service") && !IsBlank(op.service) ==> Tag("service", op.service) in s.tags)
  }

  /** Span `k` of the trace is the span of operation `k`. */
  predicate Follows(t: seq<Span>, ops: seq<Operation>, traceId: Uuid) {
    |t| == |ops| && forall k :: 0 <= k < |t| ==> SpanOf(t[k], ops[k], traceId)
  }

  /** `getSpan` produces the span of its operation. */
  lemma SpanForIsSpanOf(op: Operation, env: TraceEnv, parentId: Option<Uuid>, offset: int, duration: int, d: BuildDraws)
    ensures SpanOf(SpanFor(op, env, parentId, offset, duration, d), op, env.traceId)
  {
    var id := SpanIdentity(op);
    BuiltTagsKeepPrefix(op.tags, id, op.errorChance, d);
    forall k | k in IdentityKeys
      ensures Tagged(BuiltTags(op.tags, id, op.errorChance, d), k)
    {
      BuiltTagsHaveIdentity(op.tags, id, op.errorChance, d, k);
    }
    if !Tagged(op.tags, "application") {
      MissingIdentityTagAdded(op.tags, id, op.errorChance, d, "application");
    }
    if !Tagged(op.tags, "cluster") {
      MissingIdentityTagAdded(op.tags, id, op.errorChance, d, "cluster");
    }
    if !Tagged(op.tags, "service") {
      MissingIdentityTagAdded(op.tags, id, op.errorChance, d, "service");
    }
    if !Tagged(op.tags, "shard") {
      MissingIdentityTagAdded(op.tags, id, op.errorChance, d, "shard");
    }
  }

  lemma FollowsAppend(a: seq<Span>, x: seq<Operation>, b: seq<Span>, y: seq<Operation>, traceId: Uuid)
    requires Follows(a, x, traceId) && Follows(b, y, traceId)
    ensures Follows(a + b, x + y, traceId)
  {
    forall k | 0 <= k < |a + b|
      ensures SpanOf((a + b)[k], (x + y)[k], traceId)
    {
      if k >= |a| {
        assert (a + b)[k] == b[k - |a|] && (x + y)[k] == y[k - |a|];
      }
    }
  }

  /**
   * The trace of `op` holds exactly one span per operation of its call tree,
   * in pre-order, each the span of that operation within this trace.
   */
  lemma {:induction false} TraceFollowsPreOrder(apps: Apps, op: Operation, path: set<OpRef>, env: TraceEnv,
                                                parentId: Option<Uuid>, offsetMillis: int, durationMillis: int, from: nat)
    requires CheckCalls(apps, op, path) == Pass
    ensures Follows(TraceSpec(apps, op, path, env, parentId, offsetMillis, durationMillis, from), PreOrder(apps, op, path), env.traceId)
    decreases |AllRefs(apps) - path|, op, 1, 0
  {
    var w := Window(offsetMillis, durationMillis, env.draws(from));
    var span := SpanFor(op, env, parentId, w.0, w.1, env.draws(from).build);
    SpanForIsSpanOf(op, env, parentId, w.0, w.1, env.draws(from).build);
    CallsFollowPreOrder(apps, op, 0, path, env, span.spanId, w.0, w.1, from + 1);
    FollowsAppend([span], [op], TraceCalls(apps, op, 0, path, env, span.spanId, w.0, w.1, from + 1),
                  PreOrderCalls(apps, op, 0, path), env.traceId);
  }

  lemma {:induction false} CallsFollowPreOrder(apps: Apps, op: Operation, i: nat, path: set<OpRef>, env: TraceEnv,
                                               spanId: Uuid, offset: int, duration: int, from: nat)
    requires i <= |op.calls|
    requires CheckCallsFrom(apps, op, i, path) == Pass
    ensures Follows(TraceCalls(apps, op, i, path, env, spanId, offset, duration, from), PreOrderCalls(apps, op, i, path), env.traceId)
    decreases |AllRefs(apps) - path|, op, 0, |op.calls| - i
  {
    if i < |op.calls| {
      var here := TraceCall(apps, op, i, path, env, spanId, offset, duration, from);
      CallFollowsPreOrder(apps, op, i, path, env, spanId, offset, duration, from);
      CallsFollowPreOrder(apps, op, i + 1, path, env, spanId, offset, duration, from + |here|);
      FollowsAppend(here, PreOrderCall(apps, op, i, path),
                    TraceCalls(apps, op, i + 1, path, env, spanId, offset, duration, from + |here|),
                    PreOrderCalls(apps, op, i + 1, path), env.traceId);
    }
  }

  lemma {:induction false} CallFollowsPreOrder(apps: Apps, op: Operation, i: nat, path: set<OpRef>, env: TraceEnv,
                                              spanId: Uuid, offset: int, duration: int, from: nat)
    requires i < |op.calls|
    requires CheckCall(apps, op, i, path) == Pass
    ensures Follows(TraceCall(apps, op, i, path, env, spanId, offset, duration, from), PreOrderCall(apps, op, i, path), env.traceId)
    decreases |AllRefs(apps) - path|, op, 0, 0
  {
    match op.calls[i]
    case Pending(p) =>
      TraceFollowsPreOrder(apps, p, path, env, Some(spanId), offset, duration, from);
    case Bound(r) =>
      if Lookup(apps, r).Some? {
        MeasureShrinks(apps, path, r);
        TraceFollowsPreOrder(apps, Lookup(apps, r).value, path + {r}, env, Some(spanId), offset, duration, from);
      }
  }

  /** The span lies inside the window that starts at `start` and lasts `duration`. */
  predicate Within(s: Span, start: int, duration: int) {
    start <= s.startTime && s.startTime + s.duration <= start + duration
  }

  /** `c` names `p` as its only parent and lies inside `p`'s window. */
  predicate ChildOf(c: Span, p: Span) {
    c.parents == Some([p.spanId]) && Within(c, p.startTime, p.duration)
  }

  /**
   * Every span of `u` is a child of the span (`parentId`, `start`,
   * `duration`) outside `u`, or of an earlier span of `u`.
   */
  ghost predicate Hangs(u: seq<Span>, parentId: Uuid, start: int, duration: int) {
    forall k :: 0 <= k < |u| ==>
      || (u[k].parents == Some([parentId]) && Within(u[k], start, duration))
      || exists j :: 0 <= j < k && ChildOf(u[k], u[j])
  }

  /** Span `k` is a child of an earlier span of `t`. */
  ghost predicate ChildOfEarlier(t: seq<Span>, k: int)
    requires 0 <= k < |t|
  {
    exists j :: 0 <= j < k && ChildOf(t[k], t[j])
  }

  /** Each span after the first is a child of an earlier span, inside that span's window. */
  ghost predicate Nested(t: seq<Span>) {
    forall k :: 0 < k < |t| ==> ChildOfEarlier(t, k)
  }

  predicate NonNegative(t: seq<Span>) {
    forall k :: 0 <= k < |t| ==> t[k].duration >= 0
  }

  lemma HangsAppend(a: seq<Span>, b: seq<Span>, parentId: Uuid, start: int, duration: int)
    requires Hangs(a, parentId, start, duration) && Hangs(b, parentId, start, duration)
    ensures Hangs(a + b, parentId, start, duration)
  {
    var u := a + b;
    forall k | 0 <= k < |u| && !(u[k].parents == Some([parentId]) && Within(u[k], start, duration))
      ensures exists j :: 0 <= j < k && ChildOf(u[k], u[j])
    {
      if k < |a| {
        assert u[k] == a[k];
        var j :| 0 <= j < k && ChildOf(a[k], a[j]);
        assert u[j] == a[j];
      } else {
        assert u[k] == b[k - |a|];
        var j :| 0 <= j < k - |a| && ChildOf(b[k - |a|], b[j]);
        assert u[j + |a|] == b[j];
      }
    }
  }

  /** A subtree whose root is a child of the span (`parentId`, `start`, `duration`) hangs below that span. */
  lemma SubtreeHangs(t: seq<Span>, parentId: Uuid, start: int, duration: int)
    requires |t| >= 1 && t[0].parents == Some([parentId]) && Within(t[0], start, duration)
    requires Hangs(t[1..], t[0].spanId, t[0].startTime, t[0].duration)
    ensures Hangs(t, parentId, start, duration)
  {
    forall k | 0 < k < |t|
      ensures ChildOfEarlier(t, k)
    {
      assert t[k] == t[1..][k - 1];
      if !ChildOf(t[k], t[0]) {
        var j :| 0 <= j < k - 1 && ChildOf(t[1..][k - 1], t[1..][j]);
        assert t[j + 1] == t[1..][j];
      }
    }
  }

  lemma NonNegativeAppend(a: seq<Span>, b: seq<Span>)
    requires NonNegative(a) && NonNegative(b)
    ensures NonNegative(a + b)
  {
    forall k | 0 <= k < |a + b|
      ensures (a + b)[k].duration >= 0
    {
      if k >= |a| {
        assert (a + b)[k] == b[k - |a|];
      }
    }
  }

  /**
   * Window nesting: given a non-negative window, the own span lies inside it
   * and carries `parentId` as its parent, every later span is a child of an
   * earlier one inside that one's window, and no duration is negative.
   */
  lemma {:induction false} TraceNests(apps: Apps, op: Operation, path: set<OpRef>, env: TraceEnv,
                                      parentId: Option<Uuid>, offsetMillis: int, durationMillis: int, from: nat)
    requires CheckCalls(apps, op, path) == Pass
    requires durationMillis >= 0
    ensures var t := TraceSpec(apps, op, path, env, parentId, offsetMillis, durationMillis, from);
      && |t| >= 1
      && t[0].parents == (if parentId.Some? then Some([parentId.value]) else None)
      && Within(t[0], env.now + offsetMillis, durationMillis)
      && Hangs(t[1..], t[0].spanId, t[0].startTime, t[0].duration)
      && NonNegative(t)
    decreases |AllRefs(apps) - path|, op, 1, 0
  {
    var w := Window(offsetMillis, durationMillis, env.draws(from));
    var span := SpanFor(op, env, parentId, w.0, w.1, env.draws(from).build);
    var rest := TraceCalls(apps, op, 0, path, env, span.spanId, w.0, w.1, from + 1);
    CallsNest(apps, op, 0, path, env, span.spanId, w.0, w.1, from + 1);
    NonNegativeAppend([span], rest);
    assert ([span] + rest)[1..] == rest;
  }

  lemma {:induction false} CallsNest(apps: Apps, op: Operation, i: nat, path: set<OpRef>, env: TraceEnv,
                                     spanId: Uuid, offset: int, duration: int, from: nat)
    requires i <= |op.calls|
    requires CheckCallsFrom(apps, op, i, path) == Pass
    requires duration >= 0
    ensures var u := TraceCalls(apps, op, i, path, env, spanId, offset, duration, from);
      Hangs(u, spanId, env.now + offset, duration) && NonNegative(u)
    decreases |AllRefs(apps) - path|, op, 0, |op.calls| - i
  {
    if i < |op.calls| {
      var here := TraceCall(apps, op, i, path, env, spanId, offset, duration, from);
      var rest := TraceCalls(apps, op, i + 1, path, env, spanId, offset, duration, from + |here|);
      CallNests(apps, op, i, path, env, spanId, offset, duration, from);
      CallsNest(apps, op, i + 1, path, env, spanId, offset, duration, from + |here|);
      HangsAppend(here, rest, spanId, env.now + offset, duration);
      NonNegativeAppend(here, rest);
    }
  }

  lemma {:induction false} CallNests(apps: Apps, op: Operation, i: nat, path: set<OpRef>, env: TraceEnv,
                                     spanId: Uuid, offset: int, duration: int, from: nat)
    requires i < |op.calls|
    requires CheckCall(apps, op, i, path) == Pass
    requires duration >= 0
    ensures var u := TraceCall(apps, op, i, path, env, spanId, offset, duration, from);
      Hangs(u, spanId, env.now + offset, duration) && NonNegative(u)
    decreases |AllRefs(apps) - path|, op, 0, 0
  {
    match op.calls[i]
    case Pending(p) =>
      ChildTraceHangs(apps, p, path, env, spanId, offset, duration, from);
    case Bound(r) =>
      if Lookup(apps, r).Some? {
        MeasureShrinks(apps, path, r);
        ChildTraceHangs(apps, Lookup(apps, r).value, path + {r}, env, spanId, offset, duration, from);
      }
  }

  /** The trace of a callee hangs below the calling span. */
  lemma {:induction false} ChildTraceHangs(apps: Apps, op: Operation, path: set<OpRef>, env: TraceEnv,
                                           spanId: Uuid, offset: int, duration: int, from: nat)
    requires CheckCalls(apps, op, path) == Pass
    requires duration >= 0
    ensures var t := TraceSpec(apps, op, path, env, Some(spanId), offset, duration, from);
      Hangs(t, spanId, env.now + offset, duration) && NonNegative(t)
    decreases |AllRefs(apps) - path|, op, 2
  {
    TraceNests(apps, op, path, env, Some(spanId), offset, duration, from);
    SubtreeHangs(TraceSpec(apps, op, path, env, Some(spanId), offset, duration, from), spanId, env.now + offset, duration);
  }

  /** Below the first span, hanging below it is being nested. */
  lemma HangsMeansNested(t: seq<Span>)
    requires |t| >= 1 && Hangs(t[1..], t[0].spanId, t[0].startTime, t[0].duration)
    ensures Nested(t)
  {
    forall k | 0 < k < |t|
      ensures ChildOfEarlier(t, k)
    {
      assert t[k] == t[1..][k - 1];
      if !ChildOf(t[k], t[0]) {
        var j :| 0 <= j < k - 1 && ChildOf(t[1..][k - 1], t[1..][j]);
        assert t[j + 1] == t[1..][j];
      }
    }
  }

  /** Spans whose ids, parents and start times are kept and whose durations all grow by `latency` keep their nesting. */
  lemma ShiftedNested(spans: seq<Span>, r: seq<Span>, latency: int)
    requires Nested(spans)
    requires |r| == |spans|
    requires forall k :: 0 <= k < |r| ==>
      r[k].parents == spans[k].parents && r[k].spanId == spans[k].spanId &&
      r[k].startTime == spans[k].startTime && r[k].duration == spans[k].duration + latency
    ensures Nested(r)
  {
    forall k | 0 < k < |r|
      ensures ChildOfEarlier(r, k)
    {
      assert ChildOfEarlier(spans, k);
      var j :| 0 <= j < k && ChildOf(spans[k], spans[j]);
      assert ChildOf(r[k], r[j]);
    }
  }

  /**
   * `generateTrace(traceId)` on an operation whose call graph passed the
   * check: one span per operation of the call tree in pre-order, all with
   * this trace id; the first has no parent and lies inside the root budget,
   * which is between 600 and 1199 milliseconds; every other span is a child
   * of an earlier one and lies inside its window.
   */
  lemma RootTraceShape(apps: Apps, op: Operation, env: TraceEnv)
    requires CheckCalls(apps, op, {}) == Pass
    ensures var t := RootTrace(apps, op, env);
      && Follows(t, PreOrder(apps, op, {}), env.traceId)
      && t[0].parents == None
      && 600 <= RootBudget(env.budgetDraw) <= 1199
      && Within(t[0], env.now, RootBudget(env.budgetDraw))
      && Nested(t)
      && NonNegative(t)
  {
    var t := RootTrace(apps, op, env);
    TraceFollowsPreOrder(apps, op, {}, env, None, 0, RootBudget(env.budgetDraw), 0);
    TraceNests(apps, op, {}, env, None, 0, RootBudget(env.budgetDraw), 0);
    HangsMeansNested(t);
  }
}
