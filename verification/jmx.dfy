/**
 * The JMX vocabulary the core works with, and an abstract MBean server that
 * stands for a remote `MBeanServerConnection`: which names a pattern
 * matches, each MBean's attribute schema and values, and the failures each
 * remote call can raise.
 */
module Jmx {
  import opened Outcomes
  import Text

  /** An MBean name; `text` is what `ObjectName.toString()` returns. */
  datatype ObjectName = ObjectName(text: string) {
    /** `ObjectName.getDomain()`: the part before the first ':'. */
    function Domain(): string {
      if ':' in text then text[..Text.FirstIndex(text, ':')] else text
    }
  }

  /** An attribute value as the event carries it. */
  datatype Value = Null | Str(s: string) | Data(repr: string)

  /** One `javax.management.Attribute` of an `AttributeList`. */
  datatype Attribute = Attribute(name: string, value: Value)

  /** One `MBeanAttributeInfo` of an MBean's schema. */
  datatype AttributeInfo = AttributeInfo(name: string)

  /** `MBeanInfo`: the MBean's class name and its attribute schema, in order. */
  datatype MBeanInfo = MBeanInfo(className: string, attributes: seq<AttributeInfo>)

  /** A jmxtrans query: an object-name pattern and the attribute names to fetch (empty: all). */
  datatype Query = Query(obj: string, attr: seq<string>)

  /** A flattened jmxtrans result: one attribute of one MBean and its key/value pairs. */
  datatype Result = Result(attributeName: string, className: string, domain: string, values: map<string, Value>)

  /** One MBean as the remote server holds it, with the failure each call on it raises, if any. */
  datatype MBean = MBean(
    info: MBeanInfo,
    values: map<string, Value>,
    infoFailure: Option<Failure>,
    instanceFailure: Option<Failure>,
    fetchFailure: Option<Failure>)

  /**
   * The remote MBean server. `malformed` holds the pattern texts that the
   * `ObjectName` constructor rejects; `matches` gives the names a pattern
   * matches (a pattern it does not list matches nothing); `down` makes
   * every remote call throw an IOException, as on a dead connection.
   */
  datatype MBeanServer = MBeanServer(
    down: bool,
    malformed: set<string>,
    matches: map<string, seq<ObjectName>>,
    queryFailure: Option<Failure>,
    beans: map<ObjectName, MBean>)

  /** `new ObjectName(text)`. */
  function ParsePattern(mbs: MBeanServer, text: string): Outcome<ObjectName> {
    if text in mbs.malformed then Thrown(MalformedObjectName) else Ok(ObjectName(text))
  }

  /** `queryNames(pattern, null)`, in the order the connection returns them. */
  function QueryNames(mbs: MBeanServer, pattern: ObjectName): Outcome<seq<ObjectName>> {
    if mbs.down then Thrown(IO)
    else if mbs.queryFailure.Some? then Thrown(mbs.queryFailure.value)
    else if pattern.text in mbs.matches then Ok(mbs.matches[pattern.text])
    else Ok([])
  }

  /** `getMBeanInfo(name)`. */
  function GetMBeanInfo(mbs: MBeanServer, name: ObjectName): Outcome<MBeanInfo> {
    if mbs.down then Thrown(IO)
    else if name !in mbs.beans then Thrown(InstanceNotFound)
    else if mbs.beans[name].infoFailure.Some? then Thrown(mbs.beans[name].infoFailure.value)
    else Ok(mbs.beans[name].info)
  }

  /** `getObjectInstance(name)`; only its failure matters to the core. */
  function GetObjectInstance(mbs: MBeanServer, name: ObjectName): Outcome<ObjectName> {
    if mbs.down then Thrown(IO)
    else if name !in mbs.beans then Thrown(InstanceNotFound)
    else if mbs.beans[name].instanceFailure.Some? then Thrown(mbs.beans[name].instanceFailure.value)
    else Ok(name)
  }

  /** The requested attributes the MBean has a value for, in request order. */
  function Readable(names: seq<string>, values: map<string, Value>): seq<Attribute> {
    if names == [] then []
    else if names[0] in values then [Attribute(names[0], values[names[0]])] + Readable(names[1..], values)
    else Readable(names[1..], values)
  }

  /** `getAttributes(name, names)`: like JMX, attributes that cannot be read are left out of the list. */
  function GetAttributes(mbs: MBeanServer, name: ObjectName, names: seq<string>): Outcome<seq<Attribute>> {
    if mbs.down then Thrown(IO)
    else if name !in mbs.beans then Thrown(InstanceNotFound)
    else if mbs.beans[name].fetchFailure.Some? then Thrown(mbs.beans[name].fetchFailure.value)
    else Ok(Readable(names, mbs.beans[name].values))
  }
}
