/**
 * The topology as an arena: applications own services, services own an
 * ordered list of operations, and a call edge names its target by position
 * (application key, service key, index) instead of holding a reference.
 * The call-graph check of Topology.java lives here too, with its meaning:
 * it passes exactly when no operation reaches itself.
 */
module Model {
  import opened Common
  import opened Spans

  /** Where an operation sits in the arena: application key, service key, position in the service. */
  datatype OpRef = OpRef(app: string, svc: string, index: nat)

  /**
   * One entry of an operation's call list: a placeholder as the
   * configuration wrote it (an operation owned by the caller), or an edge to
   * an operation of the arena, which is then shared by every caller.
   */
  datatype Call = Pending(placeholder: Operation) | Bound(target: OpRef)

  datatype Operation = Operation(
    name: string,
    service: string,
    application: string,
    calls: seq<Call>,
    tags: seq<Tag>,
    errorChance: real)

  datatype Service = Service(
    name: string,
    application: string,
    operations: seq<Operation>,
    tags: seq<Tag>,
    baseLatency: int)

  datatype Application = Application(name: string, services: map<string, Service>)

  /** All applications by key. */
  type Apps = map<string, Application>

  /** The operation an edge points at, if the arena has it. */
  function Lookup(apps: Apps, r: OpRef): Option<Operation> {
    if r.app in apps && r.svc in apps[r.app].services && r.index < |apps[r.app].services[r.svc].operations|
    then Some(apps[r.app].services[r.svc].operations[r.index])
    else None
  }

  /** Every position of the arena. */
  ghost function AllRefs(apps: Apps): set<OpRef> {
    set a, s, i | a in apps && s in apps[a].services && 0 <= i < |apps[a].services[s].operations| :: OpRef(a, s, i)
  }

  lemma LookupInAllRefs(apps: Apps, r: OpRef)
    ensures Lookup(apps, r).Some? <==> r in AllRefs(apps)
  {
  }

  /** Following an edge to an operation not yet on the path leaves fewer positions off the path. */
  lemma MeasureShrinks(apps: Apps, path: set<OpRef>, r: OpRef)
    requires Lookup(apps, r).Some? && r !in path
    ensures |AllRefs(apps) - (path + {r})| < |AllRefs(apps) - path|
  {
    LookupInAllRefs(apps, r);
    assert AllRefs(apps) - path == (AllRefs(apps) - (path + {r})) + {r};
  }

  /** `app.service.name` of an operation, as error messages and entrypoint slugs spell it. */
  function Slug(op: Operation): string {
    op.application + "." + op.service + "." + op.name
  }

  /**
   * `checkCalls(operation, callGraph)`: depth-first over the calls, in
   * declared order; `path` holds the arena positions on the ancestor path,
   * this operation's own included. A placeholder is an object of its own that
   * no edge can point back at, so it never meets itself on the path.
   */
  function CheckCalls(apps: Apps, op: Operation, path: set<OpRef>): (r: Outcome)
    ensures r.Fail? ==> r.error.CircularReference?
    decreases |AllRefs(apps) - path|, op, 1, 0
  {
    CheckCallsFrom(apps, op, 0, path)
  }

  /** The loop of `checkCalls` from call `i` on; it stops at the first failing call. */
  function CheckCallsFrom(apps: Apps, op: Operation, i: nat, path: set<OpRef>): (r: Outcome)
    requires i <= |op.calls|
    ensures r.Fail? ==> r.error.CircularReference?
    decreases |AllRefs(apps) - path|, op, 0, |op.calls| - i
  {
    if i == |op.calls| then Pass
    else
      var here := CheckCall(apps, op, i, path);
      if here.Fail? then here else CheckCallsFrom(apps, op, i + 1, path)
  }

  /** The body of the loop of `checkCalls` for call `i`: the membership test, then the descent. */
  function CheckCall(apps: Apps, op: Operation, i: nat, path: set<OpRef>): (r: Outcome)
    requires i < |op.calls|
    ensures r.Fail? ==> r.error.CircularReference?
    decreases |AllRefs(apps) - path|, op, 0, 0
  {
    match op.calls[i]
    case Pending(p) => CheckCalls(apps, p, path)
    case Bound(r) =>
      match Lookup(apps, r)
      case None => Pass
      case Some(t) =>
        if r in path then Fail(CircularReference(Slug(op), Slug(t)))
        else
          assert |AllRefs(apps) - (path + {r})| < |AllRefs(apps) - path| by { MeasureShrinks(apps, path, r); }
          CheckCalls(apps, t, path + {r})
  }

  /** `r` is the target of an edge of `op`, directly or from one of its placeholders. */
  predicate CallsRef(apps: Apps, op: Operation, r: OpRef)
    decreases op
  {
    exists i :: 0 <= i < |op.calls| &&
      match op.calls[i]
      case Bound(t) => t == r && Lookup(apps, r).Some?
      case Pending(p) => CallsRef(apps, p, r)
  }

  /** Starting at `op`, some chain of at most `n + 1` edges ends at position `r`. */
  ghost predicate Reaches(apps: Apps, op: Operation, r: OpRef, n: nat)
    decreases n
  {
    || CallsRef(apps, op, r)
    || (n > 0 && exists j :: CallsRef(apps, op, j) && Lookup(apps, j).Some? && Reaches(apps, Lookup(apps, j).value, r, n - 1))
  }

  /** No operation of the arena reaches itself. */
  ghost predicate Acyclic(apps: Apps) {
    forall r, n :: Lookup(apps, r).Some? ==> !Reaches(apps, Lookup(apps, r).value, r, n)
  }

  /** What a passing check says about one call. */
  lemma PassAt(apps: Apps, op: Operation, i0: nat, path: set<OpRef>, i: nat)
    requires i0 <= i < |op.calls|
    requires CheckCallsFrom(apps, op, i0, path) == Pass
    ensures op.calls[i].Pending? ==> CheckCalls(apps, op.calls[i].placeholder, path) == Pass
    ensures op.calls[i].Bound? && Lookup(apps, op.calls[i].target).Some? ==>
      op.calls[i].target !in path &&
      CheckCalls(apps, Lookup(apps, op.calls[i].target).value, path + {op.calls[i].target}) == Pass
    decreases i - i0
  {
    if i0 < i {
      PassAt(apps, op, i0 + 1, path, i);
    }
  }

  /** A passing check never meets a path position as an edge target, and passes below every edge. */
  lemma {:induction false} PassEdge(apps: Apps, op: Operation, path: set<OpRef>, r: OpRef)
    requires CheckCalls(apps, op, path) == Pass
    requires CallsRef(apps, op, r)
    ensures Lookup(apps, r).Some? && r !in path
    ensures CheckCalls(apps, Lookup(apps, r).value, path + {r}) == Pass
    decreases op
  {
    var i :| 0 <= i < |op.calls| &&
      match op.calls[i]
      case Bound(t) => t == r && Lookup(apps, r).Some?
      case Pending(p) => CallsRef(apps, p, r);
    PassAt(apps, op, 0, path, i);
    if op.calls[i].Pending? {
      PassEdge(apps, op.calls[i].placeholder, path, r);
    }
  }

  /** A passing check means no position on the path can be reached from `op`. */
  lemma {:induction false} PassMeansUnreachable(apps: Apps, op: Operation, path: set<OpRef>, r: OpRef, n: nat)
    requires CheckCalls(apps, op, path) == Pass
    requires r in path
    ensures !Reaches(apps, op, r, n)
    decreases n
  {
    if CallsRef(apps, op, r) {
      PassEdge(apps, op, path, r);
    }
    if n > 0 && exists j :: CallsRef(apps, op, j) && Lookup(apps, j).Some? && Reaches(apps, Lookup(apps, j).value, r, n - 1) {
      var j :| CallsRef(apps, op, j) && Lookup(apps, j).Some? && Reaches(apps, Lookup(apps, j).value, r, n - 1);
      PassEdge(apps, op, path, j);
      PassMeansUnreachable(apps, Lookup(apps, j).value, path + {j}, r, n - 1);
    }
  }

  /** Edges of a placeholder are edges of the operation that owns it. */
  lemma {:induction false} PlaceholderReaches(apps: Apps, op: Operation, i: nat, r: OpRef, n: nat)
    requires i < |op.calls| && op.calls[i].Pending?
    requires Reaches(apps, op.calls[i].placeholder, r, n)
    ensures Reaches(apps, op, r, n)
  {
    var p := op.calls[i].placeholder;
    if CallsRef(apps, p, r) {
      assert CallsRef(apps, op, r);
    } else {
      var j :| CallsRef(apps, p, j) && Lookup(apps, j).Some? && Reaches(apps, Lookup(apps, j).value, r, n - 1);
      assert CallsRef(apps, op, j);
    }
  }

  /** A failing check found a path position reachable from `op`, or a cycle elsewhere. */
  lemma {:induction false} FailMeansCycle(apps: Apps, op: Operation, path: set<OpRef>)
    requires CheckCalls(apps, op, path).Fail?
    ensures || (exists r, n :: r in path && Reaches(apps, op, r, n))
            || (exists r, n :: Lookup(apps, r).Some? && Reaches(apps, Lookup(apps, r).value, r, n))
    decreases |AllRefs(apps) - path|, op, 1, 0
  {
    FailFromMeansCycle(apps, op, 0, path);
  }

  lemma {:induction false} FailFromMeansCycle(apps: Apps, op: Operation, i: nat, path: set<OpRef>)
    requires i <= |op.calls|
    requires CheckCallsFrom(apps, op, i, path).Fail?
    ensures || (exists r, n :: r in path && Reaches(apps, op, r, n))
            || (exists r, n :: Lookup(apps, r).Some? && Reaches(apps, Lookup(apps, r).value, r, n))
    decreases |AllRefs(apps) - path|, op, 0, |op.calls| - i
  {
    match op.calls[i]
    case Pending(p) =>
      if CheckCalls(apps, p, path).Fail? {
        FailMeansCycle(apps, p, path);
        if exists r, n :: r in path && Reaches(apps, p, r, n) {
          var r: OpRef, n: nat :| r in path && Reaches(apps, p, r, n);
          PlaceholderReaches(apps, op, i, r, n);
          assert r in path && Reaches(apps, op, r, n);
        }
      } else {
        FailFromMeansCycle(apps, op, i + 1, path);
      }
    case Bound(r) =>
      match Lookup(apps, r)
      case None =>
        FailFromMeansCycle(apps, op, i + 1, path);
      case Some(t) =>
        assert CallsRef(apps, op, r);
        if r in path {
          assert Reaches(apps, op, r, 0);
        } else {
          MeasureShrinks(apps, path, r);
          if CheckCalls(apps, t, path + {r}).Fail? {
            FailMeansCycle(apps, t, path + {r});
            if exists q, n :: q in path + {r} && Reaches(apps, t, q, n) {
              var q: OpRef, n: nat :| q in path + {r} && Reaches(apps, t, q, n);
              if q == r {
                assert Lookup(apps, r).Some? && Reaches(apps, Lookup(apps, r).value, r, n);
              } else {
                assert Reaches(apps, op, q, n + 1);
              }
            }
          } else {
            FailFromMeansCycle(apps, op, i + 1, path);
          }
        }
  }

  /**
   * Checked from its own position, as `checkCallGraph` does, an operation
   * passes exactly when it does not reach itself and no operation it reaches
   * lies on a cycle; over the whole arena: every check passes exactly when
   * the arena is acyclic.
   */
  lemma CheckedFromItselfMeansNoCycle(apps: Apps, r: OpRef, n: nat)
    requires Lookup(apps, r).Some?
    requires CheckCalls(apps, Lookup(apps, r).value, {r}) == Pass
    ensures !Reaches(apps, Lookup(apps, r).value, r, n)
  {
    PassMeansUnreachable(apps, Lookup(apps, r).value, {r}, r, n);
  }

  lemma FailingCheckMeansCycle(apps: Apps, r: OpRef)
    requires Lookup(apps, r).Some?
    requires CheckCalls(apps, Lookup(apps, r).value, {r}).Fail?
    ensures !Acyclic(apps)
  {
    FailMeansCycle(apps, Lookup(apps, r).value, {r});
  }

  /** A check that passes on a path still passes on any part of that path. */
  lemma {:induction false} PassOnSmallerPath(apps: Apps, op: Operation, path: set<OpRef>, smaller: set<OpRef>)
    requires smaller <= path
    requires CheckCalls(apps, op, path) == Pass
    ensures CheckCalls(apps, op, smaller) == Pass
    decreases |AllRefs(apps) - smaller|, op, 1, 0
  {
    PassFromOnSmallerPath(apps, op, 0, path, smaller);
  }

  lemma {:induction false} PassFromOnSmallerPath(apps: Apps, op: Operation, i: nat, path: set<OpRef>, smaller: set<OpRef>)
    requires i <= |op.calls|
    requires smaller <= path
    requires CheckCallsFrom(apps, op, i, path) == Pass
    ensures CheckCallsFrom(apps, op, i, smaller) == Pass
    decreases |AllRefs(apps) - smaller|, op, 0, |op.calls| - i
  {
    if i < |op.calls| {
      PassAt(apps, op, i, path, i);
      match op.calls[i] {
        case Pending(p) =>
          PassOnSmallerPath(apps, p, path, smaller);
        case Bound(r) =>
          if Lookup(apps, r).Some? {
            MeasureShrinks(apps, smaller, r);
            PassOnSmallerPath(apps, Lookup(apps, r).value, path + {r}, smaller + {r});
          }
      }
      assert CheckCallsFrom(apps, op, i + 1, path) == Pass;
      PassFromOnSmallerPath(apps, op, i + 1, path, smaller);
    }
  }
}
