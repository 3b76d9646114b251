/** The entities the relationship query works on: relationships as returned by
    the list call, the resources they point at, and the references that
    identify a resource by its type and external id. */
module Resources {

  import opened Wrappers

  /** A label attached to a resource; only its external id is read. */
  datatype Label = Label(externalId: string)

  /** An asset, time series, event, file or sequence, as far as the query
      looks at it: its external id and its (possibly absent) label list. */
  datatype Resource = Resource(externalId: string, labels: Option<seq<Label>>)

  /** A relationship between a source and a target resource, each named by a
      resource type and an external id. */
  datatype Relation = Relation(
    sourceType: string,
    sourceExternalId: string,
    targetType: string,
    targetExternalId: string)

  /** The `ResourceRef` named tuple: a resource type and an external id. */
  datatype ResourceRef = ResourceRef(resourceType: string, externalId: string)

  /** One item produced by the query: the relationship with both endpoints. */
  datatype RelationshipWithResource = RelationshipWithResource(
    relationship: Relation,
    sourceResource: Resource,
    targetResource: Resource)

  function SourceRef(rel: Relation): ResourceRef
  {
    ResourceRef(rel.sourceType, rel.sourceExternalId)
  }

  function TargetRef(rel: Relation): ResourceRef
  {
    ResourceRef(rel.targetType, rel.targetExternalId)
  }
}
