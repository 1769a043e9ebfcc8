/**
 * The random topology of Topology.java (`createRandomApps`,
 * `createRandomApp`, `createRandomService`): names drawn without
 * replacement from word lists, defaults as for a configured topology, then
 * the random calls.
 */
module Synthesis {
  import opened Common
  import opened Model
  import opened Operations
  import opened Services
  import opened Arena
  import opened RandomCalls
  import opened References

  /** The word lists the random topology draws its names from. */
  datatype WordLists = WordLists(applications: seq<string>, services: seq<string>, operations: seq<string>)

  predicate NamesDistinct(ops: seq<Operation>) {
    forall j, k :: 0 <= j < k < |ops| ==> ops[j].name != ops[k].name
  }

  /** `operations.put(op.getName(), op)`: an operation of the same name is replaced where it stands, otherwise `op` goes last. */
  function PutOperation(ops: seq<Operation>, op: Operation): (r: seq<Operation>)
    ensures (forall k :: 0 <= k < |ops| ==> ops[k].name != op.name) ==> r == ops + [op]
    ensures |r| <= |ops| + 1 && op in r
    ensures forall k :: 0 <= k < |r| ==> r[k] == op || r[k] in ops
    ensures NamesDistinct(ops) ==> NamesDistinct(r)
  {
    match FindOperation(ops, op.name)
    case None => ops + [op]
    case Some(k) => assert ops[k := op][k] == op; ops[k := op]
  }

  /**
   * A service as `createRandomService` leaves it: no name, application,
   * tags or latency yet; operations with distinct names from the word list,
   * fresh (no calls, no tags, the default error chance), as many as asked
   * for and the list allows when the list has no repeats.
   */
  predicate Synthesized(s: Service, words: seq<string>, perService: int, errorPercentage: real) {
    && s.name == "" && s.application == "" && s.tags == [] && s.baseLatency == 0
    && NamesDistinct(s.operations)
    && (forall k :: 0 <= k < |s.operations| ==>
          s.operations[k] == NewOperation(s.operations[k].name, errorPercentage) && s.operations[k].name in words)
    && |s.operations| <= Max0(Min(perService, |words|))
    && (Distinct(words) ==> |s.operations| == Max0(Min(perService, |words|)))
  }

  /** `createRandomService(operationNames)`: `min(operationsPerService, |names|)` names drawn without replacement. */
  method CreateRandomService(operationNames: seq<string>, operationsPerService: int, errorPercentage: real, rnd: RandomSource)
    returns (s: Service)
    modifies rnd
    ensures Synthesized(s, operationNames, operationsPerService, errorPercentage)
  {
    var names := operationNames;
    var ops: seq<Operation> := [];
    var desired := Min(operationsPerService, |names|);
    var i := 0;
    while i < desired
      invariant 0 <= i <= Max0(desired)
      invariant |names| == |operationNames| - i
      invariant forall x :: x in names ==> x in operationNames
      invariant NamesDistinct(ops) && |ops| <= i
      invariant forall k :: 0 <= k < |ops| ==> ops[k] == NewOperation(ops[k].name, errorPercentage) && ops[k].name in operationNames
      invariant Distinct(operationNames) ==>
        && Distinct(names) && |ops| == i
        && forall k :: 0 <= k < |ops| ==> ops[k].name !in names
    {
      var idx := rnd.NextInt(|names|);
      var name := names[idx];
      names := RemoveAt(names, idx);
      ops := PutOperation(ops, NewOperation(name, errorPercentage));
      i := i + 1;
    }
    s := SetOperations(Service("", "", [], [], 0), ops);
  }

  /** An application as `createRandomApp` leaves it: unnamed, its services keyed by distinct words, each synthesized. */
  predicate SynthesizedApp(a: Application, words: WordLists, perApp: int, perService: int, errorPercentage: real) {
    && a.name == ""
    && (forall s :: s in a.services ==> s in words.services && Synthesized(a.services[s], words.operations, perService, errorPercentage))
    && (Distinct(words.services) ==> |a.services| == Max0(Min(perApp, |words.services|)))
  }

  /** `createRandomApp(svcNames, opNames)`: `min(servicesPerApp, |svcNames|)` service names drawn without replacement. */
  method CreateRandomApp(words: WordLists, servicesPerApp: int, operationsPerService: int, errorPercentage: real, rnd: RandomSource)
    returns (a: Application)
    modifies rnd
    ensures SynthesizedApp(a, words, servicesPerApp, operationsPerService, errorPercentage)
  {
    var names := words.services;
    var services: map<string, Service> := map[];
    var desired := Min(servicesPerApp, |names|);
    var i := 0;
    while i < desired
      invariant 0 <= i <= Max0(desired)
      invariant |names| == |words.services| - i
      invariant forall x :: x in names ==> x in words.services
      invariant forall s :: s in services ==> s in words.services && Synthesized(services[s], words.operations, operationsPerService, errorPercentage)
      invariant Distinct(words.services) ==>
        && Distinct(names) && |services| == i
        && forall s :: s in services ==> s !in names
    {
      var idx := rnd.NextInt(|names|);
      var name := names[idx];
      names := RemoveAt(names, idx);
      var service := CreateRandomService(words.operations, operationsPerService, errorPercentage, rnd);
      services := services[name := service];
      i := i + 1;
    }
    a := Application("", services);
  }

  /** The loop of `createRandomApps`: `min(desiredRandomApps, |names|)` application names drawn without replacement. */
  method CreateApps(words: WordLists, desiredRandomApps: int, servicesPerApp: int, operationsPerService: int,
                    errorPercentage: real, rnd: RandomSource)
    returns (apps: Apps)
    modifies rnd
    ensures forall a :: a in apps ==>
      a in words.applications && SynthesizedApp(apps[a], words, servicesPerApp, operationsPerService, errorPercentage)
    ensures Distinct(words.applications) ==> |apps| == Max0(Min(desiredRandomApps, |words.applications|))
  {
    var names := words.applications;
    apps := map[];
    var i := 0;
    while i < desiredRandomApps && |names| > 0
      invariant 0 <= i <= Max0(desiredRandomApps)
      invariant |names| == |words.applications| - i
      invariant forall x :: x in names ==> x in words.applications
      invariant forall a :: a in apps ==>
        a in words.applications && SynthesizedApp(apps[a], words, servicesPerApp, operationsPerService, errorPercentage)
      invariant Distinct(words.applications) ==>
        && Distinct(names) && |apps| == i
        && forall a :: a in apps ==> a !in names
    {
      var idx := rnd.NextInt(|names|);
      var name := names[idx];
      names := RemoveAt(names, idx);
      var app := CreateRandomApp(words, servicesPerApp, operationsPerService, errorPercentage, rnd);
      apps := apps[name := app];
      i := i + 1;
    }
  }

  /** A service handed to `fixReferences`: its operations keyed by their names, as `createRandomService` put them. */
  function RawOf(svc: Service): RawService {
    RawService(svc.name, svc.application,
      seq(|svc.operations|, k requires 0 <= k < |svc.operations| => (svc.operations[k].name, svc.operations[k])),
      svc.tags, svc.baseLatency)
  }

  function RawApps(apps: Apps): map<string, RawApplication> {
    map a | a in apps :: RawApplication(apps[a].name, map s | s in apps[a].services :: RawOf(apps[a].services[s]))
  }

  /**
   * A random topology after `fixReferences`: names from the word lists,
   * every name equal to its key, every operation stamped with its
   * application and service keys, and the sizes asked for when the lists
   * have no repeats.
   */
  ghost predicate Labelled(apps: Apps, words: WordLists, perApp: int, perService: int) {
    forall a :: a in apps ==>
      && a in words.applications && apps[a].name == a
      && (Distinct(words.services) ==> |apps[a].services| == Max0(Min(perApp, |words.services|)))
      && forall s :: s in apps[a].services ==>
        var svc := apps[a].services[s];
        && s in words.services && svc.name == s && svc.application == a
        && NamesDistinct(svc.operations)
        && (Distinct(words.operations) ==> |svc.operations| == Max0(Min(perService, |words.operations|)))
        && forall k :: 0 <= k < |svc.operations| ==>
             svc.operations[k].name in words.operations && svc.operations[k].application == a && svc.operations[k].service == s
  }

  /** No operation has calls yet. */
  ghost predicate Uncalled(apps: Apps) {
    forall r :: Lookup(apps, r).Some? ==> Lookup(apps, r).value.calls == []
  }

  /** Defaulting a synthesized topology labels it, and calls nothing. */
  lemma DefaultedIsLabelled(apps: Apps, defaults: Apps, words: WordLists, perApp: int, perService: int, errorPercentage: real)
    requires forall a :: a in apps ==>
      a in words.applications && SynthesizedApp(apps[a], words, perApp, perService, errorPercentage)
    requires AppsDefaulted(RawApps(apps), defaults)
    ensures Labelled(defaults, words, perApp, perService)
    ensures Uncalled(defaults)
  {
    forall a | a in defaults
      ensures a in words.applications && defaults[a].name == a
      ensures Distinct(words.services) ==> |defaults[a].services| == Max0(Min(perApp, |words.services|))
      ensures forall s :: s in defaults[a].services ==> ServiceLabelled(defaults[a].services[s], a, s, words, perService)
    {
      var raw := RawApps(apps)[a];
      assert ApplicationDefaulted(raw, a, defaults[a]);
      assert defaults[a].services.Keys == apps[a].services.Keys;
      forall s | s in defaults[a].services
        ensures ServiceLabelled(defaults[a].services[s], a, s, words, perService)
      {
        ServiceDefaultedIsLabelled(apps[a].services[s], defaults[a].services[s], a, s, words, perService, errorPercentage);
      }
    }
  }

  predicate ServiceLabelled(svc: Service, a: string, s: string, words: WordLists, perService: int) {
    && s in words.services && svc.name == s && svc.application == a
    && NamesDistinct(svc.operations)
    && (Distinct(words.operations) ==> |svc.operations| == Max0(Min(perService, |words.operations|)))
    && forall k :: 0 <= k < |svc.operations| ==>
         && svc.operations[k].name in words.operations && svc.operations[k].application == a && svc.operations[k].service == s
         && svc.operations[k].calls == []
  }

  lemma ServiceDefaultedIsLabelled(svc: Service, r: Service, a: string, s: string, words: WordLists, perService: int, errorPercentage: real)
    requires s in words.services && Synthesized(svc, words.operations, perService, errorPercentage)
    requires ServiceDefaulted(RawOf(svc), s, a, r)
    ensures ServiceLabelled(r, a, s, words, perService)
  {
    var raw := RawOf(svc);
    forall k | 0 <= k < |r.operations|
      ensures r.operations[k].name == svc.operations[k].name
      ensures r.operations[k].application == a && r.operations[k].service == s && r.operations[k].calls == []
    {
      assert raw.operations[k] == (svc.operations[k].name, svc.operations[k]);
      assert OperationDefaulted(svc.operations[k], svc.operations[k].name, true, a, s, r.operations[k]);
    }
  }

  /** Adding calls keeps a topology labelled: the labels live outside the call lists. */
  lemma LabelledShape(a: Apps, b: Apps, words: WordLists, perApp: int, perService: int)
    requires Labelled(a, words, perApp, perService) && SameShape(a, b)
    ensures Labelled(b, words, perApp, perService)
  {
    forall x, s | x in b && s in b[x].services
      ensures SameOperations(a[x].services[s], b[x].services[s])
    {
    }
  }

  /**
   * `createRandomApps()`: the applications drawn from the word lists, named
   * and stamped as `fixReferences` does (which finds no call references to
   * resolve in them), then `createRandomCalls`. `labelled` is the topology
   * before any call is added.
   */
  method CreateRandomApps(words: WordLists, desiredRandomApps: int, servicesPerApp: int, operationsPerService: int,
                          internalCallsPerApp: int, errorPercentage: real, rnd: RandomSource, fuel: nat)
    returns (r: Result<Apps>, labelled: Apps)
    modifies rnd
    ensures Labelled(labelled, words, servicesPerApp, operationsPerService) && Uncalled(labelled)
    ensures Distinct(words.applications) ==> |labelled| == Max0(Min(desiredRandomApps, |words.applications|))
    ensures r.Ok? ==> Labelled(r.value, words, servicesPerApp, operationsPerService) && SameShape(labelled, r.value)
    ensures r.Ok? ==> exists internal, crossService ::
      && InternalGrown(labelled, internal, internalCallsPerApp)
      && Grown(internal, crossService, CrossService)
      && Grown(crossService, r.value, CrossApp)
    ensures r.Err? ==> r.error == EmptyChoice || r.error == RetriesExhausted
  {
    var apps := CreateApps(words, desiredRandomApps, servicesPerApp, operationsPerService, errorPercentage, rnd);
    labelled := SetAllAttributes(RawApps(apps));
    DefaultedIsLabelled(apps, labelled, words, servicesPerApp, operationsPerService, errorPercentage);
    assert labelled.Keys == apps.Keys;
    r := CreateRandomCalls(labelled, internalCallsPerApp, rnd, fuel);
    if r.Ok? {
      LabelledShape(labelled, r.value, words, servicesPerApp, operationsPerService);
    }
  }
}
