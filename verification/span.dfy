/**
 * Spans and the span builder: required identity tags, default names and
 * randomized error injection (Span.java).
 */
module Spans {
  import opened Common

  /** A UUID, drawn from the random source. */
  type Uuid = nat

  /** One tag pair; a span's tags are a list, so keys may repeat. */
  datatype Tag = Tag(key: string, value: string)

  /** Structured span-log entries are passed through untouched. */
  datatype SpanLog = SpanLog(timestamp: int, fields: map<string, string>)

  datatype Span = Span(
    operationName: string,
    startTime: int,
    duration: int,
    source: string,
    traceId: Option<Uuid>,
    spanId: Uuid,
    parents: Option<seq<Uuid>>,
    followsFrom: Option<seq<Uuid>>,
    tags: seq<Tag>,
    spanLogs: seq<SpanLog>)

  /** The identity values handed to `setIdentityTags`; blank stands for null. */
  datatype Identity = Identity(application: string, cluster: string, service: string, shard: string)

  /** The draws one call of `build` may consume: a fresh span id, pool picks, the error roll. */
  datatype BuildDraws = BuildDraws(
    freshId: Uuid,
    namePick: nat,
    sourcePick: nat,
    applicationPick: nat,
    clusterPick: nat,
    servicePick: nat,
    shardPick: nat,
    roll: nat)

  const IdentityKeys: seq<string> := ["application", "cluster", "service", "shard"]
  const ErrorTag: Tag := Tag("error", "true")

  /** The `randomNames` pools; a key without a pool falls back to the key itself. */
  function Pool(key: string): (p: seq<string>)
    ensures |p| > 0
    ensures !IsBlank(key) ==> forall v :: v in p ==> !IsBlank(v)
  {
    if key == "source" || key == "application" then ["coffee", "tea", "mate", "cocoa"]
    else if key == "cluster" then ["us-east", "us-west", "eu-north", "isolated"]
    else if key == "service" then ["Order", "Purchase", "Queue", "Brew", "Delivery"]
    else if key == "shard" then ["shard-1", "shard-2", "shard-3"]
    else [key]
  }

  /** `randomValue(key)`: one value of the key's pool, chosen by `pick`. */
  function RandomValue(key: string, pick: nat): (v: string)
    ensures v in Pool(key)
    ensures !IsBlank(key) ==> !IsBlank(v)
  {
    Pool(key)[pick % |Pool(key)|]
  }

  /** The operation name `build` keeps: a blank one becomes the literal "operationName", which has no pool. */
  function NameOrDefault(name: string, pick: nat): (n: string)
    ensures !IsBlank(n)
    ensures !IsBlank(name) ==> n == name
    ensures IsBlank(name) ==> n == "operationName"
  {
    if IsBlank(name) then RandomValue("operationName", pick) else name
  }

  /** The source `build` keeps: a blank one becomes a value of the "source" pool. */
  function SourceOrDefault(source: string, pick: nat): (s: string)
    ensures !IsBlank(s)
    ensures !IsBlank(source) ==> s == source
    ensures IsBlank(source) ==> s in ["coffee", "tea", "mate", "cocoa"]
  {
    if IsBlank(source) then RandomValue("source", pick) else source
  }

  /** Some tag of the list has this key. */
  predicate Tagged(tags: seq<Tag>, key: string) {
    exists i :: 0 <= i < |tags| && tags[i].key == key
  }

  /** How many tags of the list have this key. */
  function Count(tags: seq<Tag>, key: string): nat {
    if tags == [] then 0
    else (if tags[0].key == key then 1 else 0) + Count(tags[1..], key)
  }

  /** The value an identity tag gets: the supplied component, or a pool value when it is blank. */
  function IdentityValue(key: string, given: string, pick: nat): (v: string)
    ensures !IsBlank(v) || IsBlank(key)
    ensures !IsBlank(given) ==> v == given
    ensures IsBlank(given) ==> v in Pool(key)
  {
    if IsBlank(given) then RandomValue(key, pick) else given
  }

  /** One step of `addIdentityTags`: the tag is appended only when no tag has its key yet. */
  function AddIfAbsent(tags: seq<Tag>, key: string, given: string, pick: nat): seq<Tag> {
    if Tagged(tags, key) then tags else tags + [Tag(key, IdentityValue(key, given, pick))]
  }

  /** The tags after `addIdentityTags`: application, cluster, service and shard, in that order. */
  function WithIdentityTags(tags: seq<Tag>, id: Identity, d: BuildDraws): seq<Tag> {
    var t1 := AddIfAbsent(tags, "application", id.application, d.applicationPick);
    var t2 := AddIfAbsent(t1, "cluster", id.cluster, d.clusterPick);
    var t3 := AddIfAbsent(t2, "service", id.service, d.servicePick);
    AddIfAbsent(t3, "shard", id.shard, d.shardPick)
  }

  /** `Math.random() * 100`: the error roll, in [0, 100). */
  function Roll(d: BuildDraws): (r: real)
    ensures 0.0 <= r < 100.0
  {
    Unit(d.roll) * 100.0
  }

  /** The tags after error injection: `error=true` is appended when the chance exceeds the roll. */
  function WithError(tags: seq<Tag>, chance: real, d: BuildDraws): (r: seq<Tag>)
    ensures r == tags || r == tags + [ErrorTag]
    ensures r == tags + [ErrorTag] <==> chance > Roll(d)
    ensures chance >= 100.0 ==> r == tags + [ErrorTag]
    ensures chance <= 0.0 ==> r == tags
  {
    if chance > Roll(d) then tags + [ErrorTag] else tags
  }

  /** All tags `build` produces from the builder's tags, identity and error chance. */
  function BuiltTags(tags: seq<Tag>, id: Identity, chance: real, d: BuildDraws): seq<Tag> {
    WithError(WithIdentityTags(tags, id, d), chance, d)
  }

  lemma {:induction false} CountAppend(a: seq<Tag>, b: seq<Tag>, key: string)
    ensures Count(a + b, key) == Count(a, key) + Count(b, key)
  {
    if a == [] {
      assert a + b == b;
    } else {
      assert (a + b)[1..] == a[1..] + b;
      CountAppend(a[1..], b, key);
    }
  }

  lemma {:induction false} CountTagged(tags: seq<Tag>, key: string)
    ensures Count(tags, key) > 0 <==> Tagged(tags, key)
  {
    if tags != [] {
      CountTagged(tags[1..], key);
      if Tagged(tags[1..], key) {
        var i :| 0 <= i < |tags[1..]| && tags[1..][i].key == key;
        assert tags[i + 1].key == key;
      }
      if Tagged(tags, key) && tags[0].key != key {
        var i :| 0 <= i < |tags| && tags[i].key == key;
        assert tags[1..][i - 1].key == key;
      }
    }
  }

  lemma AddIfAbsentCount(tags: seq<Tag>, key: string, given: string, pick: nat, k: string)
    ensures var r := AddIfAbsent(tags, key, given, pick);
      Count(r, k) == if k == key && Count(tags, k) == 0 then 1 else Count(tags, k)
  {
    CountTagged(tags, key);
    CountAppend(tags, [Tag(key, IdentityValue(key, given, pick))], k);
  }

  /** The tag `addIdentityTags` would append for `key`. */
  function IdentityTag(id: Identity, d: BuildDraws, key: string): Tag {
    if key == "application" then Tag(key, IdentityValue(key, id.application, d.applicationPick))
    else if key == "cluster" then Tag(key, IdentityValue(key, id.cluster, d.clusterPick))
    else if key == "service" then Tag(key, IdentityValue(key, id.service, d.servicePick))
    else Tag(key, IdentityValue(key, id.shard, d.shardPick))
  }

  /** One step of `addIdentityTags` keeps a prefix and appends at most its candidate tag. */
  lemma AddIfAbsentExtends(base: seq<Tag>, tags: seq<Tag>, key: string, given: string, pick: nat, cands: seq<Tag>)
    requires |base| <= |tags| && tags[..|base|] == base
    requires forall t :: t in tags[|base|..] ==> t in cands
    requires Tag(key, IdentityValue(key, given, pick)) in cands
    ensures var r := AddIfAbsent(tags, key, given, pick);
      |base| <= |r| && r[..|base|] == base && forall t :: t in r[|base|..] ==> t in cands
  {
    var r := AddIfAbsent(tags, key, given, pick);
    assert r[..|tags|] == tags;
    assert forall t :: t in r[|base|..] ==> t in tags[|base|..] || t in r[|tags|..];
  }

  /**
   * `addIdentityTags` only appends, and every appended tag is an identity
   * tag carrying the supplied value or, when that is blank, a pool value.
   */
  lemma IdentityTagsAppended(tags: seq<Tag>, id: Identity, d: BuildDraws)
    ensures var r := WithIdentityTags(tags, id, d);
      && |r| >= |tags| && r[..|tags|] == tags
      && forall t :: t in r[|tags|..] ==> t.key in IdentityKeys && t == IdentityTag(id, d, t.key)
  {
    var t1 := AddIfAbsent(tags, "application", id.application, d.applicationPick);
    var t2 := AddIfAbsent(t1, "cluster", id.cluster, d.clusterPick);
    var t3 := AddIfAbsent(t2, "service", id.service, d.servicePick);
    var cands := [IdentityTag(id, d, "application"), IdentityTag(id, d, "cluster"),
                  IdentityTag(id, d, "service"), IdentityTag(id, d, "shard")];
    AddIfAbsentExtends(tags, tags, "application", id.application, d.applicationPick, cands);
    AddIfAbsentExtends(tags, t1, "cluster", id.cluster, d.clusterPick, cands);
    AddIfAbsentExtends(tags, t2, "service", id.service, d.servicePick, cands);
    AddIfAbsentExtends(tags, t3, "shard", id.shard, d.shardPick, cands);
  }

  /**
   * After `addIdentityTags` each identity key occurs as often as before, or
   * exactly once if it was missing; every other key keeps its count.
   */
  lemma IdentityTagCounts(tags: seq<Tag>, id: Identity, d: BuildDraws, k: string)
    ensures var r := WithIdentityTags(tags, id, d);
      && (k in IdentityKeys ==> Count(r, k) == if Count(tags, k) == 0 then 1 else Count(tags, k))
      && (k !in IdentityKeys ==> Count(r, k) == Count(tags, k))
  {
    var t1 := AddIfAbsent(tags, "application", id.application, d.applicationPick);
    var t2 := AddIfAbsent(t1, "cluster", id.cluster, d.clusterPick);
    var t3 := AddIfAbsent(t2, "service", id.service, d.servicePick);
    AddIfAbsentCount(tags, "application", id.application, d.applicationPick, k);
    AddIfAbsentCount(t1, "cluster", id.cluster, d.clusterPick, k);
    AddIfAbsentCount(t2, "service", id.service, d.servicePick, k);
    AddIfAbsentCount(t3, "shard", id.shard, d.shardPick, k);
  }

  /**
   * A builder with no tags of its own produces exactly one tag for each
   * identity key, whatever the error roll.
   */
  lemma FreshTagsHaveEachIdentityOnce(id: Identity, chance: real, d: BuildDraws, k: string)
    requires k in IdentityKeys
    ensures Count(BuiltTags([], id, chance, d), k) == 1
  {
    IdentityTagCounts([], id, d, k);
    var t := WithIdentityTags([], id, d);
    CountAppend(t, [ErrorTag], k);
  }

  /** `build` only appends: the builder's own tags, duplicates included, stay a prefix in order. */
  lemma BuiltTagsKeepPrefix(tags: seq<Tag>, id: Identity, chance: real, d: BuildDraws)
    ensures |BuiltTags(tags, id, chance, d)| >= |tags|
    ensures BuiltTags(tags, id, chance, d)[..|tags|] == tags
  {
    IdentityTagsAppended(tags, id, d);
    var t := WithIdentityTags(tags, id, d);
    assert (t + [ErrorTag])[..|tags|] == t[..|tags|];
  }

  /** Whatever the builder held, the built tags carry every identity key. */
  lemma BuiltTagsHaveIdentity(tags: seq<Tag>, id: Identity, chance: real, d: BuildDraws, k: string)
    requires k in IdentityKeys
    ensures Tagged(BuiltTags(tags, id, chance, d), k)
  {
    var t := WithIdentityTags(tags, id, d);
    IdentityTagCounts(tags, id, d, k);
    CountTagged(t, k);
    CountAppend(t, [ErrorTag], k);
    CountTagged(BuiltTags(tags, id, chance, d), k);
  }

  /** An identity key the builder did not hold gets the supplied value, or a pool value when that is blank. */
  lemma MissingIdentityTagAdded(tags: seq<Tag>, id: Identity, chance: real, d: BuildDraws, k: string)
    requires k in IdentityKeys && !Tagged(tags, k)
    ensures IdentityTag(id, d, k) in BuiltTags(tags, id, chance, d)
  {
    var t := WithIdentityTags(tags, id, d);
    IdentityTagCounts(tags, id, d, k);
    IdentityTagsAppended(tags, id, d);
    CountTagged(tags, k);
    CountTagged(t, k);
    var i :| 0 <= i < |t| && t[i].key == k;
    assert i >= |tags|;
    assert t[i] == t[|tags|..][i - |tags|];
    assert t[i] == IdentityTag(id, d, k);
    assert t[i] in BuiltTags(tags, id, chance, d);
  }

  /** `hasTag`: a linear scan for a tag with the given key. */
  method HasTag(tagName: string, tags: seq<Tag>) returns (found: bool)
    ensures found <==> Tagged(tags, tagName)
  {
    var i := 0;
    while i < |tags|
      invariant 0 <= i <= |tags|
      invariant forall j :: 0 <= j < i ==> tags[j].key != tagName
    {
      if tags[i].key == tagName {
        return true;
      }
      i := i + 1;
    }
    return false;
  }

  /** `Span.Builder`: the fields a span is assembled from. */
  class Builder {
    var traceId: Option<Uuid>
    var spanId: Option<Uuid>
    var operationName: string
    var startMillis: int
    var durationMillis: int
    var source: string
    var application: string
    var cluster: string
    var service: string
    var shard: string
    var parents: Option<seq<Uuid>>
    var followsFrom: Option<seq<Uuid>>
    var tags: seq<Tag>
    var spanLogs: seq<SpanLog>
    var errorChance: real

    /** The builder's identity values, as `build` reads them. */
    function Id(): Identity
      reads this`application, this`cluster, this`service, this`shard
    {
      Identity(application, cluster, service, shard)
    }

    /** `Builder(operationName, startMillis, durationMillis, source)`: the span id is drawn at once. */
    constructor (operationName: string, startMillis: int, durationMillis: int, source: string, freshId: Uuid)
      ensures this.operationName == operationName && this.startMillis == startMillis
      ensures this.durationMillis == durationMillis && this.source == source
      ensures spanId == Some(freshId) && traceId == None
      ensures Id() == Identity("", "", "", "")
      ensures parents == None && followsFrom == None
      ensures tags == [] && spanLogs == [] && errorChance == 0.0
    {
      this.operationName := operationName;
      this.startMillis := startMillis;
      this.durationMillis := durationMillis;
      this.source := source;
      spanId := Some(freshId);
      traceId := None;
      application, cluster, service, shard := "", "", "", "";
      parents, followsFrom := None, None;
      tags, spanLogs := [], [];
      errorChance := 0.0;
    }

    /** `Builder()`: operation "operation", source "source", start `now`, a random duration below 500. */
    constructor Default(now: int, durationDraw: nat, freshId: Uuid)
      ensures operationName == "operation" && source == "source"
      ensures startMillis == now && 0 <= durationMillis < 500
      ensures spanId == Some(freshId) && traceId == None
      ensures Id() == Identity("", "", "", "")
      ensures parents == None && followsFrom == None
      ensures tags == [] && spanLogs == [] && errorChance == 0.0
    {
      operationName := "operation";
      startMillis := now;
      durationMillis := (Unit(durationDraw) * 500.0).Floor;
      source := "source";
      spanId := Some(freshId);
      traceId := None;
      application, cluster, service, shard := "", "", "", "";
      parents, followsFrom := None, None;
      tags, spanLogs := [], [];
      errorChance := 0.0;
    }

    method SetParents(parents: seq<Uuid>)
      modifies this`parents
      ensures this.parents == Some(parents)
    {
      this.parents := Some(parents);
    }

    method SetFollowsFrom(followsFrom: seq<Uuid>)
      modifies this`followsFrom
      ensures this.followsFrom == Some(followsFrom)
    {
      this.followsFrom := Some(followsFrom);
    }

    method SetSpanLogs(spanLogs: seq<SpanLog>)
      modifies this`spanLogs
      ensures this.spanLogs == spanLogs
    {
      this.spanLogs := spanLogs;
    }

    /** `addTag`: appends, even when the key is already present. */
    method AddTag(key: string, value: string)
      modifies this`tags
      ensures tags == old(tags) + [Tag(key, value)]
    {
      tags := tags + [Tag(key, value)];
    }

    method SetIdentityTags(application: string, cluster: string, service: string, shard: string)
      modifies this`application, this`cluster, this`service, this`shard
      ensures Id() == Identity(application, cluster, service, shard)
    {
      this.application := application;
      this.cluster := cluster;
      this.service := service;
      this.shard := shard;
    }

    method ErrorChance(percentage: real)
      modifies this`errorChance
      ensures errorChance == percentage
    {
      errorChance := percentage;
    }

    /** `addIdentityTags`: each identity key is appended only when no tag has it yet. */
    method AddIdentityTags(d: BuildDraws)
      modifies this`tags
      ensures tags == WithIdentityTags(old(tags), Id(), d)
    {
      var has := HasTag("application", tags);
      if !has {
        AddTag("application", IdentityValue("application", application, d.applicationPick));
      }
      has := HasTag("cluster", tags);
      if !has {
        AddTag("cluster", IdentityValue("cluster", cluster, d.clusterPick));
      }
      has := HasTag("service", tags);
      if !has {
        AddTag("service", IdentityValue("service", service, d.servicePick));
      }
      has := HasTag("shard", tags);
      if !has {
        AddTag("shard", IdentityValue("shard", shard, d.shardPick));
      }
    }

    /** `build`: fills in a missing id, name and source, adds identity tags and maybe `error=true`. */
    method Build(d: BuildDraws) returns (s: Span)
      modifies this`spanId, this`operationName, this`source, this`tags
      ensures spanId == Some(if old(spanId).Some? then old(spanId).value else d.freshId)
      ensures operationName == NameOrDefault(old(operationName), d.namePick)
      ensures source == SourceOrDefault(old(source), d.sourcePick)
      ensures tags == BuiltTags(old(tags), Id(), errorChance, d)
      ensures s == Span(operationName, startMillis, durationMillis, source, traceId, spanId.value,
                        parents, followsFrom, tags, spanLogs)
    {
      spanId := if spanId.None? then Some(d.freshId) else spanId;
      operationName := NameOrDefault(operationName, d.namePick);
      source := SourceOrDefault(source, d.sourcePick);
      AddIdentityTags(d);
      if errorChance > Roll(d) {
        AddTag(ErrorTag.key, ErrorTag.value);
      }
      s := Span(operationName, startMillis, durationMillis, source, traceId, spanId.value,
                parents, followsFrom, tags, spanLogs);
    }
  }
}
