/** SearchManager.cs: the search key (SearchData), the endpoints found for a
    search (SearchResult) and the per-criteria cache of the searches this node
    started (SearchManager). */
module Searching {
  import opened Primitives
  import opened Messages
  import opened DateTimeExtensions
  import opened Expiry

  /** SearchData: an immutable search key, equal by (Name, Version). */
  datatype SearchData = SearchData(name: string, version: string)

  /** new SearchData(options): a null options object gives empty strings. */
  function FromOptions(options: Option<SearchOptions>): (d: SearchData)
    ensures options.None? ==> d == SearchData("", "")
    ensures options.Some? ==> d.name == options.value.name && d.version == options.value.version
  {
    match options
    case None => SearchData("", "")
    case Some(o) => SearchData(o.name, o.version)
  }

  /** SearchData.TryCreate: only non-null options give a key. */
  function TryCreate(options: Option<SearchOptions>): (r: Option<SearchData>)
    ensures r.Some? <==> options.Some?
    ensures r.Some? ==> r.value == FromOptions(options)
  {
    if options.Some? then Some(FromOptions(options)) else None
  }

  /** GetSearchOptions: the options a query for this key carries. */
  function GetSearchOptions(d: SearchData): (o: SearchOptions)
    ensures FromOptions(Some(o)) == d
  {
    SearchOptions(d.name, d.version)
  }

  /** Equals(SearchData): false against null, otherwise by Name and Version. */
  function Equals(d: SearchData, other: Option<SearchData>): (r: bool)
    ensures r <==> other == Some(d)
  {
    other.Some? && d.name == other.value.name && d.version == other.value.version
  }

  /** ToString(): "Name-Version". */
  function ToString(d: SearchData): (s: string)
    ensures |s| == |d.name| + 1 + |d.version| && s[|d.name|] == '-'
    ensures s[..|d.name|] == d.name && s[|d.name| + 1..] == d.version
  {
    d.name + "-" + d.version
  }

  /** The elements of a list of endpoints, as the HashSet built from it. */
  function Elements(s: seq<Uri>): (r: set<Uri>)
    ensures forall u :: u in r <==> u in s
  {
    set u | u in s
  }

  /** SearchResult: the starting time of a search and the set of endpoints
      found so far; Add and Remove change that set in place. */
  class SearchResult {
    var startingTime: DateTime
    var foundServices: set<Uri>

    /** SearchResult(services, starting): a null list gives an empty set. */
    constructor (services: Option<seq<Uri>>, starting: DateTime)
      ensures startingTime == starting
      ensures foundServices == if services.Some? then Elements(services.value) else {}
    {
      startingTime := starting;
      foundServices := if services.Some? then Elements(services.value) else {};
    }

    /** Add(Uri): false for null or an endpoint already present. */
    method Add(service: Option<Uri>) returns (added: bool)
      modifies this
      ensures added <==> service.Some? && service.value !in old(foundServices)
      ensures foundServices == if service.Some? then old(foundServices) + {service.value} else old(foundServices)
      ensures startingTime == old(startingTime)
    {
      if service.None? {
        return false;
      }
      added := service.value !in foundServices;
      foundServices := foundServices + {service.value};
    }

    /** Add(IEnumerable<Uri>): set union, true iff the set grew. */
    method AddAll(services: Option<seq<Uri>>) returns (grew: bool)
      modifies this
      ensures services.None? ==> !grew && foundServices == old(foundServices)
      ensures services.Some? ==> foundServices == old(foundServices) + Elements(services.value)
      ensures grew <==> !(foundServices <= old(foundServices))
      ensures startingTime == old(startingTime)
    {
      if services.None? {
        return false;
      }
      var s := services.value;
      var countBefore := |foundServices|;
      var i := 0;
      while i < |s|
        invariant 0 <= i <= |s|
        invariant foundServices == old(foundServices) + Elements(s[..i])
        invariant startingTime == old(startingTime)
      {
        assert Elements(s[..i + 1]) == Elements(s[..i]) + {s[i]} by {
          assert s[..i + 1] == s[..i] + [s[i]];
        }
        foundServices := foundServices + {s[i]};
        i := i + 1;
      }
      assert s[..i] == s;
      grew := countBefore < |foundServices|;
      GrowsIffNotSubset(old(foundServices), foundServices);
    }

    /** Remove(Uri): false for null, otherwise whether it was present. */
    method Remove(service: Option<Uri>) returns (removed: bool)
      modifies this
      ensures removed <==> service.Some? && service.value in old(foundServices)
      ensures foundServices == if service.Some? then old(foundServices) - {service.value} else old(foundServices)
      ensures startingTime == old(startingTime)
    {
      if service.None? {
        return false;
      }
      removed := service.value in foundServices;
      foundServices := foundServices - {service.value};
    }

    /** Copy(): a new object with the same starting time and its own set. */
    method Copy() returns (c: SearchResult)
      ensures fresh(c)
      ensures c.startingTime == startingTime && c.foundServices == foundServices
    {
      var list := SetToSeq(foundServices);
      c := new SearchResult(Some(list), startingTime);
    }
  }

  /** The array copy made by ToArray() in Copy. */
  method SetToSeq(s: set<Uri>) returns (r: seq<Uri>)
    ensures Elements(r) == s
  {
    r := [];
    var rest := s;
    while rest != {}
      invariant rest <= s
      invariant Elements(r) == s - rest
      decreases rest
    {
      var u :| u in rest;
      r := r + [u];
      rest := rest - {u};
    }
  }

  /** A superset is strictly larger exactly when it is a proper superset. */
  lemma GrowsIffNotSubset(before: set<Uri>, after: set<Uri>)
    requires before <= after
    ensures |before| < |after| <==> !(after <= before)
  {
    if after <= before {
      assert after == before;
    } else {
      var x :| x in after && x !in before;
      assert before <= after - {x};
      SubsetSize(before, after - {x});
    }
  }

  lemma {:induction false} SubsetSize(a: set<Uri>, b: set<Uri>)
    requires a <= b
    ensures |a| <= |b|
  {
    if a != {} {
      var x :| x in a;
      SubsetSize(a - {x}, b - {x});
    }
  }

  /** The value the cache keeps for a search: when it started and what it
      has found. The cached SearchResult object never leaves the cache (only
      copies do), so it is held here as a value. */
  datatype Pending = Pending(startingTime: DateTime, found: set<Uri>)

  function StartedAt(p: Pending): int { p.startingTime }

  type Cache = map<SearchData, Pending>

  /** TryEnqueueNewSearch on the cache: (true, new cache) when the search is
      new, (false, the live entry) otherwise. */
  datatype Enqueued = Enqueued(isNew: bool, existing: Option<Pending>, cache: Cache)

  function EnqueueNewSearch(c: Cache, data: Option<SearchData>, expiry: nat, now: DateTime): (r: Enqueued)
    ensures data.None? ==> r == Enqueued(false, None, c)
    ensures data.Some? && Find(c, data.value, StartedAt, expiry, now).Some? ==>
              r == Enqueued(false, Some(c[data.value]), c)
    ensures data.Some? && Find(c, data.value, StartedAt, expiry, now).None? ==>
              r == Enqueued(true, None, c[data.value := Pending(now, {})])
  {
    if data.None? then Enqueued(false, None, c)
    else
      var d := data.value;
      var found := Find(c, d, StartedAt, expiry, now);
      if found.Some? then Enqueued(false, found, c)
      else Enqueued(true, None, Prune(c, d, StartedAt, expiry, now)[d := Pending(now, {})])
  }

  /** UpdateResult on the cache: whether a live entry was found, and the
      cache after merging `services` into it. */
  datatype Updated = Updated(ok: bool, cache: Cache)

  function Merge(c: Cache, data: Option<SearchData>, services: Option<seq<Uri>>, expiry: nat, now: DateTime): (r: Updated)
    ensures data.None? ==> r == Updated(false, c)
    ensures data.Some? ==> (r.ok <==> Find(c, data.value, StartedAt, expiry, now).Some?)
    ensures data.Some? && r.ok ==>
              r.cache == c[data.value := Pending(c[data.value].startingTime,
                                                  c[data.value].found + (if services.Some? then Elements(services.value) else {}))]
    ensures data.Some? && !r.ok ==> r.cache == Prune(c, data.value, StartedAt, expiry, now) && data.value !in r.cache
  {
    if data.None? then Updated(false, c)
    else
      var d := data.value;
      if Find(c, d, StartedAt, expiry, now).Some? then
        var added := if services.Some? then Elements(services.value) else {};
        Updated(true, c[d := Pending(c[d].startingTime, c[d].found + added)])
      else Updated(false, Prune(c, d, StartedAt, expiry, now))
  }

  /** A second identical search inside the expiry window is not new, and
      leaves the cache as the first one left it. */
  lemma EnqueueTwice(c: Cache, d: SearchData, expiry: nat, t1: DateTime, t2: DateTime)
    requires Find(c, d, StartedAt, expiry, t1).None?
    requires t1 <= t2 <= t1 + expiry
    ensures EnqueueNewSearch(c, Some(d), expiry, t1).isNew
    ensures var c1 := EnqueueNewSearch(c, Some(d), expiry, t1).cache;
            EnqueueNewSearch(c1, Some(d), expiry, t2) == Enqueued(false, Some(Pending(t1, {})), c1)
  {
  }

  /** Merging the same endpoints twice gives the same found set as merging
      them once. */
  lemma {:induction false} MergeIdempotent(c: Cache, d: SearchData, services: seq<Uri>, expiry: nat, now: DateTime)
    ensures var once := Merge(c, Some(d), Some(services), expiry, now);
            Merge(once.cache, Some(d), Some(services), expiry, now) == once
  {
    var once := Merge(c, Some(d), Some(services), expiry, now);
    if once.ok {
      var p := once.cache[d];
      assert p.found + Elements(services) == p.found;
      assert once.cache[d := Pending(p.startingTime, p.found + Elements(services))] == once.cache;
    }
  }

  /** A reply that arrives after its search expired is refused, and the
      search is not brought back by a second attempt. */
  lemma MergeAfterExpiry(c: Cache, d: SearchData, services: seq<Uri>, expiry: nat, now: DateTime)
    requires d in c && Expired(c[d].startingTime, expiry, now)
    ensures var first := Merge(c, Some(d), Some(services), expiry, now);
            !first.ok && d !in first.cache &&
            Merge(first.cache, Some(d), Some(services), expiry, now) == first
  {
  }

  /** SearchManager: the cache of searches this node started, keyed by
      criteria, each expiring `expiryInterval` after it started. */
  class SearchManager {
    const expiryInterval: nat
    var cache: Cache

    constructor (expiry: nat)
      ensures expiryInterval == expiry && cache == map[]
    {
      expiryInterval := expiry;
      cache := map[];
    }

    /** TryGetResult: the live entry for `data`, deleting it if expired. */
    method TryGetResult(data: SearchData, now: DateTime) returns (result: Option<Pending>)
      modifies this
      ensures result == Find(old(cache), data, StartedAt, expiryInterval, now)
      ensures cache == Prune(old(cache), data, StartedAt, expiryInterval, now)
    {
      if data in cache {
        if Expired(cache[data].startingTime, expiryInterval, now) {
          cache := cache - {data};
        } else {
          return Some(cache[data]);
        }
      }
      return None;
    }

    /** TryEnqueueNewSearch: false with a copy of a live identical search,
        or true after storing an empty entry started at `now`. */
    method TryEnqueueNewSearch(data: Option<SearchData>, now: DateTime) returns (isNew: bool, result: SearchResult?)
      modifies this
      ensures var e := EnqueueNewSearch(old(cache), data, expiryInterval, now);
              isNew == e.isNew && cache == e.cache &&
              (e.existing.None? ==> result == null) &&
              (e.existing.Some? ==>
                 (result != null && fresh(result) &&
                  result.startingTime == e.existing.value.startingTime &&
                  result.foundServices == e.existing.value.found))
    {
      if data.None? {
        return false, null;
      }
      var found := TryGetResult(data.value, now);
      if found.Some? {
        result := CopyOf(found.value);
        return false, result;
      }
      cache := cache[data.value := Pending(now, {})];
      return true, null;
    }

    /** UpdateResult: true iff a live entry exists, after merging into it. */
    method UpdateResult(data: Option<SearchData>, services: Option<seq<Uri>>, now: DateTime) returns (ok: bool)
      modifies this
      ensures var u := Merge(old(cache), data, services, expiryInterval, now);
              ok == u.ok && cache == u.cache
    {
      if data.None? {
        return false;
      }
      var found := TryGetResult(data.value, now);
      if found.Some? {
        var p := found.value;
        if services.Some? {
          cache := cache[data.value := Pending(p.startingTime, p.found + Elements(services.value))];
        } else {
          assert data.value in cache && cache[data.value] == p;
          assert p.found + {} == p.found;
          assert cache[data.value := Pending(p.startingTime, p.found + {})] == cache;
        }
        return true;
      }
      return false;
    }

    /** TryGetResultCopy: a copy of the live entry for `data`, if any. */
    method TryGetResultCopy(data: Option<SearchData>, now: DateTime) returns (found: bool, result: SearchResult?)
      modifies this
      ensures data.None? ==> !found && result == null && cache == old(cache)
      ensures data.Some? ==>
                var f := Find(old(cache), data.value, StartedAt, expiryInterval, now);
                cache == Prune(old(cache), data.value, StartedAt, expiryInterval, now) &&
                found == f.Some? &&
                (f.None? ==> result == null) &&
                (f.Some? ==>
                   (result != null && fresh(result) &&
                    result.startingTime == f.value.startingTime && result.foundServices == f.value.found))
    {
      if data.None? {
        return false, null;
      }
      var p := TryGetResult(data.value, now);
      if p.Some? {
        result := CopyOf(p.value);
        return true, result;
      }
      return false, null;
    }

    /** Remove: true iff the key was present; only that key goes. */
    method Remove(data: Option<SearchData>) returns (removed: bool)
      modifies this
      ensures data.None? ==> !removed && cache == old(cache)
      ensures data.Some? ==> removed == (data.value in old(cache)) && cache == old(cache) - {data.value}
    {
      if data.None? {
        return false;
      }
      removed := data.value in cache;
      cache := cache - {data.value};
    }

    /** Clean: the periodic sweep of searches started before now - expiry. */
    method Clean(now: DateTime) returns (removed: nat)
      modifies this
      ensures cache == SweepAt(old(cache), StartedAt, expiryInterval, now)
      ensures removed == |old(cache)| - |cache|
    {
      var limit := TrySubtract(now, expiryInterval);
      if !limit.ok {
        return 0;
      }
      var keysToRemove := CollectKeys(cache, (d: SearchData, p: Pending) => limit.result > p.startingTime);
      RemoveCollected(cache, (d: SearchData, p: Pending) => limit.result > p.startingTime, keysToRemove);
      removed := |keysToRemove|;
      cache := cache - keysToRemove;
    }
  }

  /** SearchResult.Copy applied to the cached value. */
  method CopyOf(p: Pending) returns (r: SearchResult)
    ensures fresh(r) && r.startingTime == p.startingTime && r.foundServices == p.found
  {
    var list := SetToSeq(p.found);
    r := new SearchResult(Some(list), p.startingTime);
  }
}
