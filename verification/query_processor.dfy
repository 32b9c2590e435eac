/**
 * JmxQueryProcessor: run one query against an MBean server and group the
 * flattened results under the object name they were fetched for.
 */
module QueryProcessor {
  import opened Outcomes
  import opened Jmx

  /**
   * `new JmxResultProcessor(query, instance, attributes, className, domain).getResults()`.
   * The flattening rules are not part of this model: they are a parameter.
   */
  type Flattener = (Query, seq<Attribute>, string, string) -> seq<Result>

  /** One entry of the `HashMultimap<ObjectName, Result>`. */
  type Entry = (ObjectName, Result)

  /** The names of the MBean's schema, in schema order. */
  function SchemaNames(info: MBeanInfo): (names: seq<string>)
    ensures |names| == |info.attributes|
    ensures forall i :: 0 <= i < |names| ==> names[i] == info.attributes[i].name
  {
    seq(|info.attributes|, i requires 0 <= i < |info.attributes| => info.attributes[i].name)
  }

  /** The attributes fetched for one MBean: the query's own, or the whole schema when it names none. */
  function ToFetch(q: Query, info: MBeanInfo): (names: seq<string>)
    // a query without attributes fetches every attribute of the schema, in schema order
    ensures q.attr == [] ==>
      |names| == |info.attributes| && forall i :: 0 <= i < |names| ==> names[i] == info.attributes[i].name
    // otherwise exactly the query's attributes, in the query's order
    ensures q.attr != [] ==> names == q.attr
    // nothing is fetched only when the query names nothing and the schema is empty
    ensures names == [] <==> q.attr == [] && info.attributes == []
  {
    if q.attr == [] then SchemaNames(info) else q.attr
  }

  /** What `fetchResults` returns or throws for one matched name. */
  function FetchOutcome(mbs: MBeanServer, q: Query, name: ObjectName, flatten: Flattener): (r: Outcome<seq<Result>>)
    // failures of getMBeanInfo and getObjectInstance propagate
    ensures GetMBeanInfo(mbs, name).Thrown? ==> r == Thrown(GetMBeanInfo(mbs, name).failure)
    ensures GetMBeanInfo(mbs, name).Ok? && GetObjectInstance(mbs, name).Thrown? ==>
      r == Thrown(GetObjectInstance(mbs, name).failure)
    ensures GetMBeanInfo(mbs, name).Ok? && GetObjectInstance(mbs, name).Ok? ==>
      var info := GetMBeanInfo(mbs, name).value;
      var fetched := GetAttributes(mbs, name, ToFetch(q, info));
      // nothing to fetch: no remote call, no result, whatever getAttributes would have done
      && (ToFetch(q, info) == [] ==> r == Ok([]))
      // an UnmarshalException is swallowed whatever its cause; any other failure propagates
      && (ToFetch(q, info) != [] && fetched.Thrown? && fetched.failure.Unmarshal? ==> r == Ok([]))
      && (ToFetch(q, info) != [] && fetched.Thrown? && !fetched.failure.Unmarshal? ==> r == Thrown(fetched.failure))
      // otherwise the results are the flattening of exactly the fetched attribute list
      && (ToFetch(q, info) != [] && fetched.Ok? ==> r == Ok(flatten(q, fetched.value, info.className, name.Domain())))
  {
    match GetMBeanInfo(mbs, name)
    case Thrown(f) => Thrown(f)
    case Ok(info) =>
      match GetObjectInstance(mbs, name)
      case Thrown(f) => Thrown(f)
      case Ok(_) =>
        var attributes := ToFetch(q, info);
        if attributes == [] then Ok([])
        else
          match GetAttributes(mbs, name, attributes)
          case Thrown(Unmarshal(_)) => Ok([])
          case Thrown(f) => Thrown(f)
          case Ok(al) => Ok(flatten(q, al, info.className, name.Domain()))
  }

  /** The entries a list of results files under one name: duplicates collapse. */
  function Filed(name: ObjectName, results: seq<Result>): set<Entry> {
    set res | res in results :: (name, res)
  }

  /** The multimap after visiting `names` in order, or the first failure met. */
  function Collect(mbs: MBeanServer, q: Query, names: seq<ObjectName>, flatten: Flattener): Outcome<set<Entry>>
    decreases |names|
  {
    if names == [] then Ok({})
    else
      match Collect(mbs, q, names[..|names| - 1], flatten)
      case Thrown(f) => Thrown(f)
      case Ok(acc) =>
        match FetchOutcome(mbs, q, names[|names| - 1], flatten)
        case Thrown(f) => Thrown(f)
        case Ok(results) => Ok(acc + Filed(names[|names| - 1], results))
  }

  /** What `processQuery` returns or throws. */
  function QueryOutcome(mbs: MBeanServer, q: Query, flatten: Flattener): Outcome<set<Entry>> {
    match ParsePattern(mbs, q.obj)
    case Thrown(f) => Thrown(f)
    case Ok(pattern) =>
      match QueryNames(mbs, pattern)
      case Thrown(f) => Thrown(f)
      case Ok(names) => Collect(mbs, q, names, flatten)
  }

  /** The loop of `fetchResults` that lists the schema's attribute names. */
  method AttributeNames(info: MBeanInfo) returns (names: seq<string>)
    ensures |names| == |info.attributes|
    ensures forall i :: 0 <= i < |names| ==> names[i] == info.attributes[i].name
  {
    names := [];
    for i := 0 to |info.attributes|
      invariant |names| == i
      invariant forall j :: 0 <= j < i ==> names[j] == info.attributes[j].name
    {
      names := names + [info.attributes[i].name];
    }
  }

  /** `fetchResults(mbeanServer, query, queryName)`. */
  method FetchResults(mbs: MBeanServer, q: Query, name: ObjectName, flatten: Flattener)
    returns (r: Outcome<seq<Result>>)
    ensures r == FetchOutcome(mbs, q, name, flatten)
  {
    var info := GetMBeanInfo(mbs, name);
    if info.Thrown? {
      return Thrown(info.failure);
    }
    var instance := GetObjectInstance(mbs, name);
    if instance.Thrown? {
      return Thrown(instance.failure);
    }
    var attributes: seq<string>;
    if q.attr == [] {
      attributes := AttributeNames(info.value);
    } else {
      attributes := q.attr;
    }
    assert attributes == ToFetch(q, info.value);
    r := Ok([]);
    if |attributes| > 0 {
      var al := GetAttributes(mbs, name, attributes);
      if al.Ok? {
        r := Ok(flatten(q, al.value, info.value.className, name.Domain()));
      } else if !al.failure.Unmarshal? {
        r := Thrown(al.failure);
      }
    }
  }

  /** The inner loop of `processQuery`: every result is put into the multimap under the name it was fetched for. */
  method FileResults(objectResults: set<Entry>, name: ObjectName, results: seq<Result>) returns (out: set<Entry>)
    ensures out == objectResults + Filed(name, results)
  {
    out := objectResults;
    for j := 0 to |results|
      invariant out == objectResults + Filed(name, results[..j])
    {
      assert results[..j + 1] == results[..j] + [results[j]];
      out := out + {(name, results[j])};
    }
    assert results[..|results|] == results;
  }

  /** `processQuery(mbeanServer, query)`. */
  method ProcessQuery(mbs: MBeanServer, q: Query, flatten: Flattener) returns (r: Outcome<set<Entry>>)
    ensures r == QueryOutcome(mbs, q, flatten)
  {
    var pattern := ParsePattern(mbs, q.obj);
    if pattern.Thrown? {
      return Thrown(pattern.failure);
    }
    var names := QueryNames(mbs, pattern.value);
    if names.Thrown? {
      return Thrown(names.failure);
    }
    var objectResults: set<Entry> := {};
    var i := 0;
    while i < |names.value|
      invariant 0 <= i <= |names.value|
      invariant Collect(mbs, q, names.value[..i], flatten) == Ok(objectResults)
    {
      var results := FetchResults(mbs, q, names.value[i], flatten);
      assert names.value[..i + 1][..i] == names.value[..i];
      if results.Thrown? {
        assert names.value[..|names.value|] == names.value;
        CollectStopsAtFailure(mbs, q, names.value, flatten, i);
        return Thrown(results.failure);
      }
      objectResults := FileResults(objectResults, names.value[i], results.value);
      i := i + 1;
    }
    assert names.value[..i] == names.value;
    r := Ok(objectResults);
  }

  /** The first name whose fetch fails decides the failure of the whole query. */
  lemma {:induction false} CollectStopsAtFailure(mbs: MBeanServer, q: Query, names: seq<ObjectName>, flatten: Flattener, i: nat)
    requires i < |names|
    requires Collect(mbs, q, names[..i], flatten).Ok?
    requires FetchOutcome(mbs, q, names[i], flatten).Thrown?
    ensures Collect(mbs, q, names, flatten) == Thrown(FetchOutcome(mbs, q, names[i], flatten).failure)
    decreases |names|
  {
    var init := names[..|names| - 1];
    if i < |names| - 1 {
      assert init[..i] == names[..i];
      CollectStopsAtFailure(mbs, q, init, flatten, i);
    } else {
      assert init == names[..i];
    }
  }

  /**
   * Exactly the pairs (name, result) with name matched and result fetched for
   * it are in the multimap: every key is a matched name, and a result
   * fetched twice for one name is filed once.
   */
  lemma {:induction false} CollectContents(mbs: MBeanServer, q: Query, names: seq<ObjectName>, flatten: Flattener)
    requires Collect(mbs, q, names, flatten).Ok?
    ensures forall e <- Collect(mbs, q, names, flatten).value ::
      && e.0 in names
      && FetchOutcome(mbs, q, e.0, flatten).Ok?
      && e.1 in FetchOutcome(mbs, q, e.0, flatten).value
    ensures forall n, res ::
      n in names && FetchOutcome(mbs, q, n, flatten).Ok? && res in FetchOutcome(mbs, q, n, flatten).value ==>
      (n, res) in Collect(mbs, q, names, flatten).value
    decreases |names|
  {
    if names != [] {
      var init := names[..|names| - 1];
      CollectContents(mbs, q, init, flatten);
      assert forall n :: n in names <==> n in init || n == names[|names| - 1];
    }
  }

  /** A query fails exactly when some matched name's fetch fails. */
  lemma {:induction false} CollectFailsIff(mbs: MBeanServer, q: Query, names: seq<ObjectName>, flatten: Flattener)
    ensures Collect(mbs, q, names, flatten).Thrown? <==>
      exists j :: 0 <= j < |names| && FetchOutcome(mbs, q, names[j], flatten).Thrown?
    decreases |names|
  {
    if names != [] {
      var init := names[..|names| - 1];
      CollectFailsIff(mbs, q, init, flatten);
      if exists j :: 0 <= j < |names| && FetchOutcome(mbs, q, names[j], flatten).Thrown? {
        var j :| 0 <= j < |names| && FetchOutcome(mbs, q, names[j], flatten).Thrown?;
        if j < |names| - 1 {
          assert init[j] == names[j];
        }
      } else {
        assert forall j :: 0 <= j < |init| ==> init[j] == names[j];
      }
    }
  }

  /** A pattern that matches nothing yields an empty multimap, not an error. */
  lemma NoMatchIsEmpty(mbs: MBeanServer, q: Query, flatten: Flattener)
    requires q.obj !in mbs.malformed && !mbs.down && mbs.queryFailure.None?
    requires q.obj !in mbs.matches || mbs.matches[q.obj] == []
    ensures QueryOutcome(mbs, q, flatten) == Ok({})
  {
  }

  /** Every key of the multimap `processQuery` returns is a name the pattern matched. */
  lemma KeysAreMatchedNames(mbs: MBeanServer, q: Query, flatten: Flattener)
    requires QueryOutcome(mbs, q, flatten).Ok?
    ensures q.obj !in mbs.malformed && QueryNames(mbs, ObjectName(q.obj)).Ok?
    ensures forall e <- QueryOutcome(mbs, q, flatten).value :: e.0 in QueryNames(mbs, ObjectName(q.obj)).value
  {
    CollectContents(mbs, q, QueryNames(mbs, ObjectName(q.obj)).value, flatten);
  }

  /** Through a dead connection every query fails with an IOException, unless its pattern is malformed. */
  lemma DownServerFails(mbs: MBeanServer, q: Query, flatten: Flattener)
    requires mbs.down
    ensures QueryOutcome(mbs, q, flatten).Thrown?
    ensures q.obj !in mbs.malformed ==> QueryOutcome(mbs, q, flatten) == Thrown(IO)
  {
  }
}
