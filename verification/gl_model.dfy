/**
 * The Graylog query configuration read from JSON: which MBeans to query,
 * which of their attributes (and which key of a composite attribute) to
 * keep, and under which alias.
 */
module GLModel {
  import opened Outcomes

  /** One configured attribute: its name, an optional composite key and an optional alias. */
  datatype GLAttribute = GLAttribute(name: string, key: Option<string>, alias: Option<string>)

  /** One configured query: an object-name pattern and its attributes, in order. */
  datatype GLQuery = GLQuery(obj: string, attributes: seq<GLAttribute>)

  /** The whole configuration: the object type reported with each event, and the queries. */
  datatype GLQueryConfig = GLQueryConfig(objectType: Option<string>, queries: seq<GLQuery>)
}
