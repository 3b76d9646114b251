/** `RelationshipsQuery.query`: resolve the source and target resources of a
    list of relationships, fetching every referenced resource once per type,
    and emit the relationships whose endpoints both resolve and pass the
    source and target filters, in their original order. */
module Query {

  import opened Wrappers
  import opened Resources
  import opened Filters

  /** The resource types that have a registered fetcher. */
  const Fetchers: set<string> := {"asset", "timeSeries", "file", "event", "sequence"}

  /** Why a query raised: a referenced type without a fetcher (the `KeyError`
      of `self.fetchers[type]`), or an error raised by the retrieve call. */
  datatype FetchError =
    | NoFetcher(resourceType: string)
    | ServiceError(resourceType: string, message: string)

  /** The retrieve call of the service for one type: the resources it returns
      for the requested external ids, or the error it raises. */
  type Retrieve = (string, seq<string>) -> Result<seq<Resource>, string>

  ghost predicate NoDuplicates<T>(s: seq<T>)
  {
    forall i, j :: 0 <= i < j < |s| ==> s[i] != s[j]
  }

  // ---------------------------------------------------------------------
  // Collecting and grouping the references
  // ---------------------------------------------------------------------

  /** The set of source and target references of all relations. */
  function ReferencedRefs(relations: seq<Relation>): (refs: set<ResourceRef>)
    ensures forall rel :: rel in relations ==> SourceRef(rel) in refs && TargetRef(rel) in refs
    ensures forall ref :: ref in refs ==>
      exists rel :: rel in relations && (ref == SourceRef(rel) || ref == TargetRef(rel))
  {
    (set rel | rel in relations :: SourceRef(rel)) + (set rel | rel in relations :: TargetRef(rel))
  }

  /** `ids` lists, each once, exactly the external ids that `refs` holds
      under type `t`. */
  ghost predicate IdsOfType(ids: seq<string>, refs: set<ResourceRef>, t: string)
  {
    NoDuplicates(ids) && forall id :: id in ids <==> ResourceRef(t, id) in refs
  }

  /** `byType` partitions `refs` by type: its keys are the types that occur,
      and under each it lists that type's external ids, each once. */
  ghost predicate GroupedByType(byType: map<string, seq<string>>, refs: set<ResourceRef>)
  {
    && (forall t :: t in byType <==> exists ref :: ref in refs && ref.resourceType == t)
    && (forall t :: t in byType ==> IdsOfType(byType[t], refs, t))
  }

  /** The `defaultdict(list)` loop: append every reference's external id to
      the list of its type. The set is walked in an unspecified order. */
  method GroupByType(refs: set<ResourceRef>) returns (byType: map<string, seq<string>>)
    ensures GroupedByType(byType, refs)
  {
    byType := map[];
    var remaining := refs;
    while remaining != {}
      invariant remaining <= refs
      invariant forall t :: t in byType <==> exists ref :: ref in refs - remaining && ref.resourceType == t
      invariant forall t :: t in byType ==> IdsOfType(byType[t], refs - remaining, t)
      decreases remaining
    {
      var ref :| ref in remaining;
      var ids := if ref.resourceType in byType then byType[ref.resourceType] else [];
      byType := byType[ref.resourceType := ids + [ref.externalId]];
      remaining := remaining - {ref};
    }
  }

  // ---------------------------------------------------------------------
  // Fetching per type
  // ---------------------------------------------------------------------

  /** `fetch_per_type`: look up the fetcher of the type and call it, tagging
      every returned resource with the type. */
  function FetchPerType(t: string, ids: seq<string>, retrieve: Retrieve): (r: Result<seq<(string, Resource)>, FetchError>)
    ensures t !in Fetchers ==> r == Err(NoFetcher(t))
    ensures t in Fetchers && retrieve(t, ids).Err? ==> r == Err(ServiceError(t, retrieve(t, ids).error))
    ensures r.Ok? <==> t in Fetchers && retrieve(t, ids).Ok?
    ensures r.Ok? ==> forall p :: p in r.value <==> p.0 == t && p.1 in retrieve(t, ids).value
  {
    if t !in Fetchers then Err(NoFetcher(t))
    else
      match retrieve(t, ids)
      case Err(message) => Err(ServiceError(t, message))
      case Ok(resources) =>
        var tagged := seq(|resources|, i requires 0 <= i < |resources| => (t, resources[i]));
        assert forall p :: p in resources ==> (t, p) in tagged by {
          forall p | p in resources ensures (t, p) in tagged {
            var i :| 0 <= i < |resources| && resources[i] == p;
            assert tagged[i] == (t, p);
          }
        }
        Ok(tagged)
  }

  /** The fetched pairs are exactly what the per-type calls returned. */
  ghost predicate FetchedFrom(fetched: seq<(string, Resource)>, byType: map<string, seq<string>>, types: set<string>, retrieve: Retrieve)
    requires types <= byType.Keys
    requires forall t :: t in types ==> FetchPerType(t, byType[t], retrieve).Ok?
  {
    forall p :: p in fetched <==> p.0 in types && p in FetchPerType(p.0, byType[p.0], retrieve).value
  }

  /** Run the per-type fetch for every type and join the results, or report
      the first error. The types are taken in an unspecified order. */
  method FetchAll(byType: map<string, seq<string>>, retrieve: Retrieve)
    returns (r: Result<seq<(string, Resource)>, FetchError>)
    ensures r.Ok? <==> forall t :: t in byType ==> FetchPerType(t, byType[t], retrieve).Ok?
    ensures r.Err? ==> exists t :: t in byType && FetchPerType(t, byType[t], retrieve) == Err(r.error)
    ensures r.Ok? ==> FetchedFrom(r.value, byType, byType.Keys, retrieve)
  {
    var joined: seq<(string, Resource)> := [];
    var remaining := byType.Keys;
    while remaining != {}
      invariant remaining <= byType.Keys
      invariant forall t :: t in byType.Keys - remaining ==> FetchPerType(t, byType[t], retrieve).Ok?
      invariant FetchedFrom(joined, byType, byType.Keys - remaining, retrieve)
      decreases remaining
    {
      var t :| t in remaining;
      var fetched := FetchPerType(t, byType[t], retrieve);
      if fetched.Err? {
        return Err(fetched.error);
      }
      joined := joined + fetched.value;
      remaining := remaining - {t};
    }
    r := Ok(joined);
  }

  // ---------------------------------------------------------------------
  // The lookup table
  // ---------------------------------------------------------------------

  /** The key under which a fetched resource is stored. */
  function RefOf(p: (string, Resource)): ResourceRef
  {
    ResourceRef(p.0, p.1.externalId)
  }

  /** No later pair in `fetched[..n]` has the same key as `fetched[i]`. */
  ghost predicate LastWithKey(fetched: seq<(string, Resource)>, i: int, n: int)
    requires 0 <= i < n <= |fetched|
  {
    forall j :: i < j < n ==> RefOf(fetched[j]) != RefOf(fetched[i])
  }

  /** `lookup` is the dictionary filled from `fetched[..n]`: one key per
      fetched resource, and under each key the last resource stored there. */
  ghost predicate LookupOf(lookup: map<ResourceRef, Resource>, fetched: seq<(string, Resource)>, n: int)
    requires 0 <= n <= |fetched|
  {
    && lookup.Keys == (set i | 0 <= i < n :: RefOf(fetched[i]))
    && (forall i :: 0 <= i < n && LastWithKey(fetched, i, n) ==> lookup[RefOf(fetched[i])] == fetched[i].1)
  }

  /** The `resources_by_ext_id` loop. */
  method BuildLookup(fetched: seq<(string, Resource)>) returns (lookup: map<ResourceRef, Resource>)
    ensures LookupOf(lookup, fetched, |fetched|)
    ensures forall k :: k in lookup ==> (k.resourceType, lookup[k]) in fetched && lookup[k].externalId == k.externalId
  {
    lookup := map[];
    var n := 0;
    while n < |fetched|
      invariant 0 <= n <= |fetched|
      invariant LookupOf(lookup, fetched, n)
      invariant forall k :: k in lookup ==> (k.resourceType, lookup[k]) in fetched[..n] && lookup[k].externalId == k.externalId
    {
      var p := fetched[n];
      lookup := lookup[RefOf(p) := p.1];
      forall i | 0 <= i < n + 1 && LastWithKey(fetched, i, n + 1)
        ensures lookup[RefOf(fetched[i])] == fetched[i].1
      {
        if i < n {
          assert LastWithKey(fetched, i, n);
        }
      }
      assert fetched[..n + 1] == fetched[..n] + [p];
      n := n + 1;
    }
    assert fetched[..n] == fetched;
  }

  // ---------------------------------------------------------------------
  // Emitting the resolved relationships
  // ---------------------------------------------------------------------

  /** `dict.get`. */
  function Get(lookup: map<ResourceRef, Resource>, ref: ResourceRef): (r: Option<Resource>)
    ensures r.Some? <==> ref in lookup
    ensures r.Some? ==> r.value == lookup[ref]
  {
    if ref in lookup then Some(lookup[ref]) else None
  }

  /** The condition under which the query yields a relation. */
  ghost predicate Emits(rel: Relation, lookup: map<ResourceRef, Resource>, sourcesFilter: RelationshipFilter, targetsFilter: RelationshipFilter)
  {
    && SourceRef(rel) in lookup && IsInside(sourcesFilter, lookup[SourceRef(rel)])
    && TargetRef(rel) in lookup && IsInside(targetsFilter, lookup[TargetRef(rel)])
  }

  /** One step of the yield loop: look both endpoints up and test them. */
  function Resolve(rel: Relation, lookup: map<ResourceRef, Resource>, sourcesFilter: RelationshipFilter, targetsFilter: RelationshipFilter)
    : (r: Option<RelationshipWithResource>)
    ensures r.Some? <==> Emits(rel, lookup, sourcesFilter, targetsFilter)
    ensures r.Some? ==> r.value.relationship == rel
    ensures r.Some? ==> r.value.sourceResource == lookup[SourceRef(rel)]
    ensures r.Some? ==> r.value.targetResource == lookup[TargetRef(rel)]
  {
    var source := Get(lookup, SourceRef(rel));
    var target := Get(lookup, TargetRef(rel));
    if source.Some? && IsInside(sourcesFilter, source.value)
       && target.Some? && IsInside(targetsFilter, target.value)
    then Some(RelationshipWithResource(rel, source.value, target.value))
    else None
  }

  /** What the yield loop produces over a prefix of the relations. */
  function Matching(relations: seq<Relation>, lookup: map<ResourceRef, Resource>, sourcesFilter: RelationshipFilter, targetsFilter: RelationshipFilter)
    : (out: seq<RelationshipWithResource>)
    ensures |out| <= |relations|
  {
    if relations == [] then []
    else
      var last := relations[|relations| - 1];
      var front := Matching(relations[..|relations| - 1], lookup, sourcesFilter, targetsFilter);
      match Resolve(last, lookup, sourcesFilter, targetsFilter)
      case Some(item) => front + [item]
      case None => front
  }

  /** The `for rel in relations: ... yield` loop. */
  method Emit(relations: seq<Relation>, lookup: map<ResourceRef, Resource>, sourcesFilter: RelationshipFilter, targetsFilter: RelationshipFilter)
    returns (out: seq<RelationshipWithResource>)
    ensures out == Matching(relations, lookup, sourcesFilter, targetsFilter)
  {
    out := [];
    var i := 0;
    while i < |relations|
      invariant 0 <= i <= |relations|
      invariant out == Matching(relations[..i], lookup, sourcesFilter, targetsFilter)
    {
      var rel := relations[i];
      assert relations[..i + 1][..i] == relations[..i];
      var item := Resolve(rel, lookup, sourcesFilter, targetsFilter);
      if item.Some? {
        out := out + [item.value];
      }
      i := i + 1;
    }
    assert relations[..i] == relations;
  }

  /** `idx` picks out, in increasing order, the positions of the relations
      that `out` carries, each once. */
  ghost predicate SelectsInOrder(out: seq<RelationshipWithResource>, relations: seq<Relation>, idx: seq<int>)
  {
    && |idx| == |out|
    && (forall k :: 0 <= k < |idx| ==> 0 <= idx[k] < |relations| && out[k].relationship == relations[idx[k]])
    && (forall k, l :: 0 <= k < l < |idx| ==> idx[k] < idx[l])
  }

  /** The output is an order-preserving subsequence of the relations, at most
      one item per relation; a relation is present iff it `Emits`. */
  lemma {:induction false} MatchingSelects(relations: seq<Relation>, lookup: map<ResourceRef, Resource>, sourcesFilter: RelationshipFilter, targetsFilter: RelationshipFilter)
    returns (idx: seq<int>)
    ensures SelectsInOrder(Matching(relations, lookup, sourcesFilter, targetsFilter), relations, idx)
    ensures forall i :: 0 <= i < |relations| ==> (i in idx <==> Emits(relations[i], lookup, sourcesFilter, targetsFilter))
  {
    var out := Matching(relations, lookup, sourcesFilter, targetsFilter);
    if relations == [] {
      idx := [];
    } else {
      var n := |relations| - 1;
      var front := relations[..n];
      var frontIdx := MatchingSelects(front, lookup, sourcesFilter, targetsFilter);
      var frontOut := Matching(front, lookup, sourcesFilter, targetsFilter);
      assert forall k :: 0 <= k < |frontIdx| ==> frontIdx[k] < n;
      if Emits(relations[n], lookup, sourcesFilter, targetsFilter) {
        idx := frontIdx + [n];
        assert out == frontOut + [Resolve(relations[n], lookup, sourcesFilter, targetsFilter).value];
      } else {
        idx := frontIdx;
        assert out == frontOut;
      }
      forall i | 0 <= i < |relations|
        ensures i in idx <==> Emits(relations[i], lookup, sourcesFilter, targetsFilter)
      {
        if i < n {
          assert relations[i] == front[i];
        }
      }
    }
  }

  /** Each item carries the resources stored under its two references. */
  lemma {:induction false} MatchingItemsResolved(relations: seq<Relation>, lookup: map<ResourceRef, Resource>, sourcesFilter: RelationshipFilter, targetsFilter: RelationshipFilter)
    ensures forall item :: item in Matching(relations, lookup, sourcesFilter, targetsFilter) ==>
      && SourceRef(item.relationship) in lookup && item.sourceResource == lookup[SourceRef(item.relationship)]
      && TargetRef(item.relationship) in lookup && item.targetResource == lookup[TargetRef(item.relationship)]
  {
    if relations != [] {
      MatchingItemsResolved(relations[..|relations| - 1], lookup, sourcesFilter, targetsFilter);
    }
  }

  /** With the default filters and every endpoint resolved, the query yields
      every relation, in order. */
  lemma {:induction false} MatchingAllResolved(relations: seq<Relation>, lookup: map<ResourceRef, Resource>)
    requires forall rel :: rel in relations ==> SourceRef(rel) in lookup && TargetRef(rel) in lookup
    ensures |Matching(relations, lookup, AllFilter, AllFilter)| == |relations|
    ensures forall k :: 0 <= k < |relations| ==> Matching(relations, lookup, AllFilter, AllFilter)[k].relationship == relations[k]
  {
    if relations != [] {
      var n := |relations| - 1;
      assert forall rel :: rel in relations[..n] ==> rel in relations;
      MatchingAllResolved(relations[..n], lookup);
    }
  }

  /** A source filter that rejects every resource makes the query yield
      nothing, whatever the lookup. */
  lemma {:induction false} MatchingRejectingFilter(relations: seq<Relation>, lookup: map<ResourceRef, Resource>, targetsFilter: RelationshipFilter)
    ensures Matching(relations, lookup, LabelsFilter([]), targetsFilter) == []
    ensures Matching(relations, lookup, BaseFilter, targetsFilter) == []
  {
    if relations != [] {
      MatchingRejectingFilter(relations[..|relations| - 1], lookup, targetsFilter);
    }
  }

  // ---------------------------------------------------------------------
  // The whole query
  // ---------------------------------------------------------------------

  /** `lookup` holds, for every fetched type, exactly the resources the
      per-type call returned, keyed by type and external id. */
  ghost predicate ServedBy(lookup: map<ResourceRef, Resource>, byType: map<string, seq<string>>, retrieve: Retrieve)
  {
    && (forall k :: k in lookup ==>
          && k.resourceType in byType
          && lookup[k].externalId == k.externalId
          && retrieve(k.resourceType, byType[k.resourceType]).Ok?
          && lookup[k] in retrieve(k.resourceType, byType[k.resourceType]).value)
    && (forall t, res :: t in byType && retrieve(t, byType[t]).Ok? && res in retrieve(t, byType[t]).value ==>
          ResourceRef(t, res.externalId) in lookup)
  }

  /** `RelationshipsQuery.query` after the list call: `relations` is what the
      list call returned and `retrieve` stands for the fetchers' calls.
      `byType` and `lookup` are the intermediate tables of the query. */
  method Query(
    relations: seq<Relation>,
    sourcesFilter: Option<RelationshipFilter>,
    targetsFilter: Option<RelationshipFilter>,
    retrieve: Retrieve)
    returns (r: Result<seq<RelationshipWithResource>, FetchError>,
             ghost byType: map<string, seq<string>>,
             ghost lookup: map<ResourceRef, Resource>)
    ensures GroupedByType(byType, ReferencedRefs(relations))
    ensures r.Ok? <==> forall t :: t in byType ==> FetchPerType(t, byType[t], retrieve).Ok?
    ensures (exists rel :: rel in relations && (rel.sourceType !in Fetchers || rel.targetType !in Fetchers)) ==> r.Err?
    ensures r.Err? ==> exists t :: t in byType && FetchPerType(t, byType[t], retrieve) == Err(r.error)
    ensures r.Ok? ==> ServedBy(lookup, byType, retrieve)
    ensures r.Ok? ==> r.value == Matching(relations, lookup, OrAcceptAll(sourcesFilter), OrAcceptAll(targetsFilter))
  {
    var sf := OrAcceptAll(sourcesFilter);
    var tf := OrAcceptAll(targetsFilter);
    var refs := ReferencedRefs(relations);
    var groups := GroupByType(refs);
    byType := groups;
    lookup := map[];
    forall rel | rel in relations
      ensures rel.sourceType in byType && rel.targetType in byType
    {
      assert SourceRef(rel) in refs && TargetRef(rel) in refs;
    }
    var fetched := FetchAll(groups, retrieve);
    if fetched.Err? {
      r := Err(fetched.error);
      return;
    }
    var table := BuildLookup(fetched.value);
    lookup := table;
    forall t, res | t in byType && retrieve(t, byType[t]).Ok? && res in retrieve(t, byType[t]).value
      ensures ResourceRef(t, res.externalId) in lookup
    {
      assert (t, res) in FetchPerType(t, byType[t], retrieve).value;
      var i :| 0 <= i < |fetched.value| && fetched.value[i] == (t, res);
      assert RefOf(fetched.value[i]) in lookup;
    }
    forall k | k in lookup
      ensures k.resourceType in byType && retrieve(k.resourceType, byType[k.resourceType]).Ok?
      ensures lookup[k] in retrieve(k.resourceType, byType[k.resourceType]).value
    {
      assert (k.resourceType, lookup[k]) in fetched.value;
    }
    var items := Emit(relations, table, sf, tf);
    r := Ok(items);
  }
}
