# Relationship query with resolved resources

A Dafny model of `RelationshipsQuery.query` from the experimental Cognite
Python SDK, with the label filters it uses. The query takes the relationships
returned by the list call, collects the distinct `(type, external id)`
references of their sources and targets, groups them by resource type, fetches
each type's resources once, builds a lookup keyed by `(type, external id)`,
and yields, in the original order, every relationship whose source and target
both resolve and pass the source and target filters.

Layout:

- `wrappers.dfy`: `Option` and `Result`.
- `resources.dfy`: labels, resources, relationships, resource references and
  the emitted `(relationship, source, target)` triple.
- `filters.dfy`: the three filter classes as one datatype
  (`BaseFilter`, `LabelsFilter`, `AllFilter`), their `is_inside`, and the
  accept-all default for a missing filter.
- `query.dfy`: the pipeline. The loops of the source are methods with loop
  invariants: `GroupByType` (the `defaultdict(list)` loop), `BuildLookup`
  (the `resources_by_ext_id` loop) and `Emit` (the `yield` loop). Each is
  proved against a specification (`GroupedByType`, `LookupOf`, `Matching`),
  and the lemmas about `Matching` state the order and selection guarantees.
  `Query` composes the steps.

Environment and unspecified behaviour:

- The result of `client.relationships.list` is the `relations` input of
  `Query`. Its `limit`, `data_set_ids`, `labels`, `sources`, `targets` and
  type arguments are only passed to the service, so they are not modelled.
- The fetchers' network calls are one function parameter,
  `retrieve(type, external_ids)`, returning the resources or an error message.
  The service may return fewer resources than requested.
- The references are collected into a Python set (lines 146-149), whose
  iteration order is unspecified; the model walks it in an arbitrary order
  (`:|`). The grouping table is filled while walking that set (lines
  151-153), so its insertion order, and with it the order of ids within a
  type's request and the order in which the types are fetched (line 160),
  is not fixed either.
- A lookup key is a type with an external id, and each type is fetched once,
  so two fetched resources share a key only when one type's response lists
  the same external id twice. The tagged list keeps the response order
  (line 157) and the dictionary overwrites (line 169), so the later entry of
  that response wins; `LookupOf` states this last-one-wins rule over the
  joined fetch results.
- The concurrent fetch (`execute_tasks_concurrently`, five workers) is a
  sequential loop over the types, in arbitrary order. It stops at the first
  failing type and reports that error. With concurrent workers, "first" means
  first recorded, and that is just as unspecified. The retrieve calls are
  reads, so running the remaining tasks changes nothing observable.
- `Query` returns the intermediate grouping and lookup as ghost outputs so
  its contract can speak about them.

## Model

| member | source | states |
|---|---|---|
| `Filters.IsInside` | cognite/experimental/_relationships_query.py:15-34 | the base filter rejects every resource, the all-filter accepts every resource, a label filter accepts a resource iff the resource has a label list and some label's external id is among the filter's labels; so labels that are `None` are always rejected, and a label filter with an empty label list accepts no resource |
| `Filters.DecodeLabels` | cognite/experimental/_relationships_query.py:26 | the decoded list has one entry per label, the label's external id, in order |
| `Filters.AnyIn` | cognite/experimental/_relationships_query.py:27 | `any(x in accepted for x in xs)` is true iff some element of `xs` occurs in `accepted` |
| `Filters.OrAcceptAll` | cognite/experimental/_relationships_query.py:133-134 | a given filter is kept unchanged; a missing filter becomes one that accepts every resource |
| `Query.ReferencedRefs` | cognite/experimental/_relationships_query.py:146-149 | the reference set holds the source and target reference of every relation and nothing else |
| `Query.GroupByType` | cognite/experimental/_relationships_query.py:151-153 | the table's keys are exactly the types that occur in the reference set; under each type it lists, each once, exactly the external ids that the set holds for that type |
| `Query.FetchPerType` | cognite/experimental/_relationships_query.py:155-157 | a type without a registered fetcher (one of the five at lines 59-65) fails with a missing-fetcher error; otherwise the service error is passed on, or the result is exactly the returned resources, each tagged with the type |
| `Query.FetchAll` | cognite/experimental/_relationships_query.py:159-164 | succeeds iff every type's fetch succeeds; on failure the error is one that some type's fetch raised; on success the joined list holds exactly the tagged resources of all the types |
| `Query.BuildLookup` | cognite/experimental/_relationships_query.py:166-169 | the lookup's keys are exactly the `(type, external id)` keys of the fetched resources; each key holds the last resource fetched under it; every stored resource was fetched under its key's type and has the key's external id |
| `Query.Get` | cognite/experimental/_relationships_query.py:173 | `dict.get` gives the stored resource iff the key is present |
| `Query.Resolve` | cognite/experimental/_relationships_query.py:172-182 | a relation yields an item iff both references are in the lookup, the source passes the source filter and the target passes the target filter; the item carries the relation unchanged and the resources stored under its source and target references |
| `Query.Emit` | cognite/experimental/_relationships_query.py:171-182 | the loop produces exactly `Matching` of the relations |
| `Query.MatchingSelects` | cognite/experimental/_relationships_query.py:171-182 | the output is an order-preserving subsequence of the relations with at most one item per relation; a relation is present iff it resolves and passes both filters |
| `Query.MatchingItemsResolved` | cognite/experimental/_relationships_query.py:172-182 | every item carries exactly the resources stored under its relation's source and target references |
| `Query.MatchingAllResolved` | cognite/experimental/_relationships_query.py:133-134 | with the default accept-all filters and every endpoint resolved, every relation is yielded, in its original order |
| `Query.MatchingRejectingFilter` | cognite/experimental/_relationships_query.py:15-29 | a source filter that rejects everything (the base filter, or a label filter with no labels) makes the query yield nothing |
| `Query.Query` | cognite/experimental/_relationships_query.py:133-182 | the grouping partitions the references by type; the query fails iff some type's fetch fails, and it always fails when a relation names a type without a fetcher; an error raised is one that some type's fetch raised; on success the lookup holds exactly the resources the service returned, keyed by type and external id, and the items are `Matching` of the relations under the defaulted filters |

## Left out

- `client.relationships.list` (lines 136-144) is a network call; its result is an input.
- `execute_tasks_concurrently` (lines 159-161): concurrency is replaced by a sequential loop over the types, in arbitrary order, that stops at the first error.
- `Fetcher` (lines 44-53): the instance attribute set at line 47 shadows the method at lines 49-53, so `ignore_unknown_ids=True` is never passed. The model keeps no such branch: `retrieve` is called with the external ids alone.
- What the service does with unknown ids (omit them or raise) is behaviour of the client library, which is not part of this model; `retrieve` may do either.
- A label without an `externalId` key would raise `KeyError` at line 26; `Label` always has an external id, so that error is not modelled.
- Query.ServedBy: says that every stored resource is one the service returned under its key, but not which one is kept when a response lists the same external id twice; `BuildLookup` states that rule over the joined list, and connecting it back to each response's own order is not carried through to `Query`.
- The generator is lazy: the model returns the whole list. Any error is raised before the first item either way.
- `RelationshipWithResource` is a plain datatype; `CogniteResource` serialisation (lines 37-41) is not modelled.
- cognite/experimental/_api/pnid_object_detection.py is a single job-submission HTTP call. The job polling it delegates to (`ContextAPI._run_job`) is not part of this model.
