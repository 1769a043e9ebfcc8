/**
 * Editing the topology arena one call at a time, as the random synthesis of
 * Topology.java does with `addCall`: what stays fixed (the applications,
 * services and operations, every field but the call lists) and what grows
 * (call lists, only at their ends, only with edges of one kind).
 */
module Arena {
  import opened Common
  import opened Model
  import opened Operations

  /** Same service with the same operations in the same order; only call lists may differ. */
  predicate SameOperations(s: Service, t: Service) {
    && t.(operations := s.operations) == s
    && |t.operations| == |s.operations|
    && forall k :: 0 <= k < |s.operations| ==> t.operations[k].(calls := s.operations[k].calls) == s.operations[k]
  }

  /** Two arenas with the same applications, services and operations, differing at most in call lists. */
  ghost predicate SameShape(a: Apps, b: Apps) {
    && a.Keys == b.Keys
    && forall x :: x in a ==>
      && b[x].name == a[x].name
      && b[x].services.Keys == a[x].services.Keys
      && forall s :: s in a[x].services ==> SameOperations(a[x].services[s], b[x].services[s])
  }

  lemma SameShapeLookup(a: Apps, b: Apps, r: OpRef)
    requires SameShape(a, b)
    ensures Lookup(a, r).Some? <==> Lookup(b, r).Some?
    ensures Lookup(a, r).Some? ==> Lookup(b, r).value.(calls := Lookup(a, r).value.calls) == Lookup(a, r).value
  {
    if r.app in a && r.svc in a[r.app].services {
      assert SameOperations(a[r.app].services[r.svc], b[r.app].services[r.svc]);
    }
  }

  lemma SameShapeTrans(a: Apps, b: Apps, c: Apps)
    requires SameShape(a, b) && SameShape(b, c)
    ensures SameShape(a, c)
  {
    forall x | x in a
      ensures forall s :: s in a[x].services ==> SameOperations(a[x].services[s], c[x].services[s])
    {
      forall s | s in a[x].services
        ensures SameOperations(a[x].services[s], c[x].services[s])
      {
        assert SameOperations(a[x].services[s], b[x].services[s]);
        assert SameOperations(b[x].services[s], c[x].services[s]);
      }
    }
  }

  /** `addCall` on the operation at `r`: an edge to `t` at the end of its call list. */
  function AddCallAt(apps: Apps, r: OpRef, t: OpRef): (after: Apps)
    requires Lookup(apps, r).Some?
    ensures SameShape(apps, after)
    ensures Lookup(after, r) == Some(AddCall(Lookup(apps, r).value, Bound(t)))
    ensures forall q :: q != r ==> Lookup(after, q) == Lookup(apps, q)
    ensures forall x :: x in apps && x != r.app ==> after[x] == apps[x]
    ensures forall x, s :: x in apps && s in apps[x].services && (x != r.app || s != r.svc) ==>
      after[x].services[s] == apps[x].services[s]
  {
    var app := apps[r.app];
    var svc := app.services[r.svc];
    var op := svc.operations[r.index];
    var svc' := svc.(operations := svc.operations[r.index := AddCall(op, Bound(t))]);
    var after := apps[r.app := app.(services := app.services[r.svc := svc'])];
    assert SameOperations(svc, svc');
    after
  }

  /** The kinds of edge the random synthesis adds. */
  datatype Edge = Internal | CrossService | CrossApp

  /**
   * An edge of that kind from `from` to `to`: to another operation of the
   * same service, to an operation of another service of the same
   * application, or to an operation whose application differs.
   */
  predicate EdgeOk(apps: Apps, kind: Edge, from: OpRef, to: OpRef) {
    && Lookup(apps, from).Some? && Lookup(apps, to).Some?
    && match kind
       case Internal => to.app == from.app && to.svc == from.svc && to.index != from.index
       case CrossService => to.app == from.app && to.svc != from.svc
       case CrossApp => Lookup(apps, to).value.application != Lookup(apps, from).value.application
  }

  /** `after` is `before` followed by edges of that kind out of `r`. */
  predicate Extends(apps: Apps, kind: Edge, r: OpRef, before: seq<Call>, after: seq<Call>) {
    && |before| <= |after| && after[..|before|] == before
    && forall i :: |before| <= i < |after| ==> after[i].Bound? && EdgeOk(apps, kind, r, after[i].target)
  }

  /** `after` is `before` with edges of that kind appended to call lists, and nothing else changed. */
  ghost predicate Grown(before: Apps, after: Apps, kind: Edge) {
    && SameShape(before, after)
    && forall r :: Lookup(before, r).Some? ==>
         Extends(before, kind, r, Lookup(before, r).value.calls, Lookup(after, r).value.calls)
  }

  lemma GrownRefl(apps: Apps, kind: Edge)
    ensures Grown(apps, apps, kind)
  {
    forall r | Lookup(apps, r).Some?
      ensures Extends(apps, kind, r, Lookup(apps, r).value.calls, Lookup(apps, r).value.calls)
    {
      var c := Lookup(apps, r).value.calls;
      assert c[..|c|] == c;
    }
  }

  lemma EdgeOkShape(a: Apps, b: Apps, kind: Edge, from: OpRef, to: OpRef)
    requires SameShape(a, b)
    ensures EdgeOk(a, kind, from, to) <==> EdgeOk(b, kind, from, to)
  {
    SameShapeLookup(a, b, from);
    SameShapeLookup(a, b, to);
  }

  lemma ExtendsAppend(apps: Apps, kind: Edge, r: OpRef, b: seq<Call>, c: seq<Call>, t: OpRef)
    requires Extends(apps, kind, r, b, c) && EdgeOk(apps, kind, r, t)
    ensures Extends(apps, kind, r, b, c + [Bound(t)])
  {
    assert (c + [Bound(t)])[..|b|] == c[..|b|];
  }

  /** Adding one edge of the kind keeps the arena grown from `before`. */
  lemma GrowOne(before: Apps, cur: Apps, kind: Edge, r: OpRef, t: OpRef)
    requires Grown(before, cur, kind)
    requires Lookup(cur, r).Some? && EdgeOk(before, kind, r, t)
    ensures Grown(before, AddCallAt(cur, r, t), kind)
  {
    var after := AddCallAt(cur, r, t);
    SameShapeTrans(before, cur, after);
    forall q | Lookup(before, q).Some?
      ensures Extends(before, kind, q, Lookup(before, q).value.calls, Lookup(after, q).value.calls)
    {
      assert Extends(before, kind, q, Lookup(before, q).value.calls, Lookup(cur, q).value.calls);
      if q == r {
        ExtendsAppend(before, kind, r, Lookup(before, q).value.calls, Lookup(cur, q).value.calls, t);
      }
    }
  }

  lemma {:induction false} GrownTrans(a: Apps, b: Apps, c: Apps, kind: Edge)
    requires Grown(a, b, kind) && Grown(b, c, kind)
    ensures Grown(a, c, kind)
  {
    SameShapeTrans(a, b, c);
    forall r | Lookup(a, r).Some?
      ensures Extends(a, kind, r, Lookup(a, r).value.calls, Lookup(c, r).value.calls)
    {
      SameShapeLookup(a, b, r);
      var x := Lookup(a, r).value.calls;
      var y := Lookup(b, r).value.calls;
      var z := Lookup(c, r).value.calls;
      assert Extends(a, kind, r, x, y);
      assert Extends(b, kind, r, y, z);
      assert z[..|x|] == y[..|x|];
      forall i | |x| <= i < |z|
        ensures z[i].Bound? && EdgeOk(a, kind, r, z[i].target)
      {
        if i < |y| {
          assert z[i] == y[i];
        } else {
          EdgeOkShape(a, b, kind, r, z[i].target);
        }
      }
    }
  }

  /** The number of calls the operations hold together. */
  function CallCount(ops: seq<Operation>): nat {
    if ops == [] then 0 else |ops[0].calls| + CallCount(ops[1..])
  }

  /** Replacing one operation by one with a call more raises the count by one. */
  lemma {:induction false} CallCountGrows(ops: seq<Operation>, k: nat, op: Operation)
    requires k < |ops| && |op.calls| == |ops[k].calls| + 1
    ensures CallCount(ops[k := op]) == CallCount(ops) + 1
  {
    if k > 0 {
      assert ops[k := op][1..] == ops[1..][k - 1 := op];
      CallCountGrows(ops[1..], k - 1, op);
    } else {
      assert ops[k := op][1..] == ops[1..];
    }
  }

  /** The loop over `map.keySet()` that `KeyList` specifies: every key once, in an order a hash map leaves open. */
  method KeysOf<V>(m: map<string, V>) returns (keys: seq<string>)
    ensures ListsKeys(keys, m.Keys)
  {
    keys := [];
    var todo := m.Keys;
    while todo != {}
      invariant todo <= m.Keys
      invariant forall k :: k in keys <==> k in m && k !in todo
      invariant Distinct(keys) && |keys| + |todo| == |m|
      decreases todo
    {
      var k :| k in todo;
      keys := keys + [k];
      todo := todo - {k};
    }
  }
}
