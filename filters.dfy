/** Label filters applied to the source and target resources of a
    relationship, and the accept-all default used when no filter is given. */
module Filters {

  import opened Wrappers
  import opened Resources

  /** `RelationshipFilterBase` rejects everything, `RelationshipFilter`
      accepts a resource carrying one of its labels, `RelationshipFilterAll`
      accepts everything. */
  datatype RelationshipFilter =
    | BaseFilter
    | LabelsFilter(labels: seq<string>)
    | AllFilter

  /** The external ids of a label list, in order. */
  function DecodeLabels(labels: seq<Label>): (ids: seq<string>)
    ensures |ids| == |labels|
    ensures forall i :: 0 <= i < |labels| ==> ids[i] == labels[i].externalId
  {
    seq(|labels|, i requires 0 <= i < |labels| => labels[i].externalId)
  }

  /** Python's `any(x in accepted for x in xs)`. */
  function AnyIn(xs: seq<string>, accepted: seq<string>): (b: bool)
    ensures b <==> exists i :: 0 <= i < |xs| && xs[i] in accepted
  {
    if xs == [] then false
    else if xs[0] in accepted then true
    else
      assert forall i :: 1 <= i < |xs| ==> xs[i] == xs[1..][i - 1];
      AnyIn(xs[1..], accepted)
  }

  /** True when some label of the resource has an external id in `accepted`. */
  ghost predicate HasLabelIn(res: Resource, accepted: seq<string>)
  {
    res.labels.Some? && exists l :: l in res.labels.value && l.externalId in accepted
  }

  /** `is_inside` of the three filter classes. */
  function IsInside(f: RelationshipFilter, res: Resource): (inside: bool)
    ensures f.BaseFilter? ==> !inside
    ensures f.AllFilter? ==> inside
    ensures f.LabelsFilter? ==> (inside <==> HasLabelIn(res, f.labels))
    ensures f.LabelsFilter? && res.labels.None? ==> !inside
    ensures f == LabelsFilter([]) ==> !inside
  {
    match f
    case BaseFilter => false
    case AllFilter => true
    case LabelsFilter(accepted) =>
      if res.labels.Some? then
        var decoded := DecodeLabels(res.labels.value);
        assert AnyIn(decoded, accepted) ==> HasLabelIn(res, accepted) by {
          if AnyIn(decoded, accepted) {
            var i :| 0 <= i < |decoded| && decoded[i] in accepted;
            assert res.labels.value[i] in res.labels.value;
          }
        }
        assert HasLabelIn(res, accepted) ==> AnyIn(decoded, accepted) by {
          if HasLabelIn(res, accepted) {
            var l :| l in res.labels.value && l.externalId in accepted;
            var i :| 0 <= i < |res.labels.value| && res.labels.value[i] == l;
            assert decoded[i] in accepted;
          }
        }
        AnyIn(decoded, accepted)
      else
        false
  }

  /** A missing filter is replaced by `RelationshipFilterAll`. */
  function OrAcceptAll(f: Option<RelationshipFilter>): (g: RelationshipFilter)
    ensures f.Some? ==> g == f.value
    ensures f.None? ==> forall res :: IsInside(g, res)
  {
    if f.Some? then f.value else AllFilter
  }
}
