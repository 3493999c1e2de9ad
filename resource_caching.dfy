/** ResourceCaching.cs: the per-endpoint cache of the resources remote
    processing services advertise (ResourceCache) and the dispatch of one poll
    result into it (ResourceCacheUpdater.Refresh). */
module ResourceCaching {
  import opened Primitives
  import opened Messages
  import opened DateTimeExtensions
  import opened ResourceDescriptors

  /** ValueHolder: the advertised resources as a set, when they were last
      detected, and how many polls have failed since. The holder is private
      to the cache and never handed out, so it is held as a value. */
  datatype ValueHolder = ValueHolder(resources: set<TaskPerformerInfo>, lastDetection: DateTime, failures: nat)

  type ResourceMap = map<Uri, ValueHolder>

  /** ResourceCacheSelection: the predicate Search applies to each entry. */
  type Selection = (Uri, set<TaskPerformerInfo>) -> bool

  function ResourceSet(resources: seq<TaskPerformerInfo>): (r: set<TaskPerformerInfo>)
    ensures forall x :: x in r <==> x in resources
  {
    set x | x in resources
  }

  /** UpdateOnDetection on the map: a null uri or list changes nothing;
      otherwise the entry is replaced wholesale with a zero failure count. */
  function Detect(c: ResourceMap, uri: Option<Uri>, resources: Option<seq<TaskPerformerInfo>>, detection: DateTime): (r: ResourceMap)
    ensures uri.None? || resources.None? ==> r == c
    ensures uri.Some? && resources.Some? ==>
              r == c[uri.value := ValueHolder(ResourceSet(resources.value), detection, 0)]
  {
    if uri.None? || resources.None? then c
    else c[uri.value := ValueHolder(ResourceSet(resources.value), detection, 0)]
  }

  /** UpdateOnFailure on the map: whether the entry was evicted, and the map. */
  datatype Failed = Failed(evicted: bool, cache: ResourceMap)

  function Fail(c: ResourceMap, uri: Option<Uri>, limit: nat): (r: Failed)
    ensures uri.None? || uri.value !in c ==> r == Failed(false, c)
    ensures uri.Some? && uri.value in c ==>
              var n := c[uri.value].failures;
              var n' := if n < limit then n + 1 else n;
              (r.evicted <==> n' == limit) &&
              (r.evicted ==> r.cache == c - {uri.value}) &&
              (!r.evicted ==> r.cache == c[uri.value := c[uri.value].(failures := n')])
  {
    if uri.None? || uri.value !in c then Failed(false, c)
    else
      var h := c[uri.value];
      var h' := if h.failures < limit then h.(failures := h.failures + 1) else h;
      if h'.failures == limit then Failed(true, c - {uri.value})
      else Failed(false, c[uri.value := h'])
  }

  /** `k` failed polls of `uri` in a row. */
  function FailTimes(c: ResourceMap, uri: Uri, limit: nat, k: nat): ResourceMap
  {
    if k == 0 then c else Fail(FailTimes(c, uri, limit, k - 1), Some(uri), limit).cache
  }

  /** From a fresh detection, the entry survives exactly `limit - 1`
      consecutive failures, counting them, and the `limit`-th evicts it. */
  lemma {:induction false} FailuresUntilEviction(c: ResourceMap, uri: Uri, resources: seq<TaskPerformerInfo>,
                                                  detection: DateTime, limit: nat, k: nat)
    requires 1 <= limit
    ensures var c0 := Detect(c, Some(uri), Some(resources), detection);
            var ck := FailTimes(c0, uri, limit, k);
            (uri in ck <==> k < limit) &&
            (k < limit ==> ck[uri] == ValueHolder(ResourceSet(resources), detection, k))
  {
    var c0 := Detect(c, Some(uri), Some(resources), detection);
    if k > 0 {
      FailuresUntilEviction(c, uri, resources, detection, limit, k - 1);
    }
  }

  /** The eviction is reported exactly once: the failure that reaches the
      limit returns true, and the next finds no entry. */
  lemma EvictedOnce(c: ResourceMap, uri: Uri, limit: nat)
    requires uri in c && c[uri].failures + 1 == limit
    ensures Fail(c, Some(uri), limit).evicted
    ensures Fail(Fail(c, Some(uri), limit).cache, Some(uri), limit) == Failed(false, c - {uri})
  {
  }

  /** With a limit of zero the first failure evicts a freshly detected entry. */
  lemma ZeroLimitEvictsAtOnce(c: ResourceMap, uri: Uri, resources: seq<TaskPerformerInfo>, detection: DateTime)
    ensures var c0 := Detect(c, Some(uri), Some(resources), detection);
            Fail(c0, Some(uri), 0) == Failed(true, c0 - {uri})
  {
  }

  /** A detection between failures resets the count: the entry again
      survives `limit - 1` failures. */
  lemma DetectionResetsCount(c: ResourceMap, uri: Uri, resources: seq<TaskPerformerInfo>,
                             detection: DateTime, limit: nat, j: nat, k: nat)
    requires 1 <= limit && k < limit
    ensures var c1 := FailTimes(Detect(c, Some(uri), Some(resources), detection), uri, limit, j);
            var c2 := FailTimes(Detect(c1, Some(uri), Some(resources), detection), uri, limit, k);
            uri in c2 && c2[uri].failures == k
  {
    var c1 := FailTimes(Detect(c, Some(uri), Some(resources), detection), uri, limit, j);
    FailuresUntilEviction(c1, uri, resources, detection, limit, k);
  }

  /** Duplicates in a poll result collapse: listing a resource twice stores
      the same entry as listing it once. */
  lemma DetectCollapsesDuplicates(c: ResourceMap, uri: Uri, resources: seq<TaskPerformerInfo>,
                                  detection: DateTime, i: nat)
    requires i < |resources|
    ensures Detect(c, Some(uri), Some(resources + [resources[i]]), detection)
         == Detect(c, Some(uri), Some(resources), detection)
  {
    assert ResourceSet(resources + [resources[i]]) == ResourceSet(resources);
  }

  /** The endpoints Search(select) reports. */
  function Selected(c: ResourceMap, select: Option<Selection>): (r: set<Uri>)
    ensures select.None? ==> r == {}
    ensures forall u :: u in r <==> select.Some? && u in c && select.value(u, c[u].resources)
  {
    if select.None? then {} else set u | u in c && select.value(u, c[u].resources)
  }

  /** The predicate both the answer path and the client search pass: some
      advertised resource has exactly this Name and Version. */
  function ExactMatch(options: SearchOptions): (p: Selection)
    ensures forall u, rs :: p(u, rs) <==> TaskPerformerInfo(options.name, options.version) in rs
  {
    (u: Uri, rs: set<TaskPerformerInfo>) => exists r :: r in rs && r.name == options.name && r.version == options.version
  }

  /** ResourceCache: the endpoint dictionary. */
  class ResourceCache {
    var cache: ResourceMap

    constructor ()
      ensures cache == map[]
    {
      cache := map[];
    }

    method UpdateOnDetection(uri: Option<Uri>, resources: Option<seq<TaskPerformerInfo>>, detection: DateTime)
      modifies this
      ensures cache == Detect(old(cache), uri, resources, detection)
    {
      if uri.None? || resources.None? {
        return;
      }
      cache := cache[uri.value := ValueHolder(ResourceSet(resources.value), detection, 0)];
    }

    method UpdateOnFailure(uri: Option<Uri>, limit: nat) returns (evicted: bool)
      modifies this
      ensures var f := Fail(old(cache), uri, limit);
              evicted == f.evicted && cache == f.cache
    {
      if uri.None? {
        return false;
      }
      var u := uri.value;
      if u in cache {
        var holder := cache[u];
        if holder.failures < limit {
          holder := holder.(failures := holder.failures + 1);
          cache := cache[u := holder];
        }
        if holder.failures == limit {
          cache := cache - {u};
          return true;
        }
      }
      return false;
    }

    /** Search: the matching endpoints, each once; the cache is unchanged. */
    method Search(select: Option<Selection>) returns (result: seq<Uri>)
      ensures forall u :: u in result <==> u in Selected(cache, select)
      ensures forall i, j :: 0 <= i < j < |result| ==> result[i] != result[j]
    {
      result := [];
      if select.None? {
        return;
      }
      var rest := cache.Keys;
      while rest != {}
        invariant rest <= cache.Keys
        invariant forall u :: u in result <==> u in cache && u !in rest && select.value(u, cache[u].resources)
        invariant forall i, j :: 0 <= i < j < |result| ==> result[i] != result[j]
        decreases rest
      {
        var u :| u in rest;
        if select.value(u, cache[u].resources) {
          result := result + [u];
        }
        rest := rest - {u};
      }
    }
  }

  /** What a poll of a processing service returned (TryGetResources). */
  datatype Poll = Detected(resources: seq<TaskPerformerInfo>, detection: DateTime) | NoAnswer

  /** ResourceCacheUpdater.Refresh: a successful poll replaces the entry, a
      failed one counts a failure, never both. */
  method Refresh(rc: ResourceCache, uri: Uri, poll: Poll, limit: nat) returns (evicted: bool)
    modifies rc
    ensures poll.Detected? ==> !evicted && rc.cache == Detect(old(rc.cache), Some(uri), Some(poll.resources), poll.detection)
    ensures poll.NoAnswer? ==> var f := Fail(old(rc.cache), Some(uri), limit);
                               evicted == f.evicted && rc.cache == f.cache
  {
    match poll {
      case Detected(resources, detection) =>
        rc.UpdateOnDetection(Some(uri), Some(resources), detection);
        evicted := false;
      case NoAnswer =>
        evicted := rc.UpdateOnFailure(Some(uri), limit);
    }
  }
}
