/**
 * How a poll task turns the Graylog query configuration into jmxtrans
 * queries and a lookup table of configured attributes, and which event
 * fields the results of a poll write.
 */
module ConfiguredAttributes {
  import opened Outcomes
  import opened Jmx
  import opened GLModel
  import opened Events
  import QueryProcessor

  /** The key a configured attribute is stored under: object pattern, attribute name, then its key if any. */
  function MapKey(obj: string, a: GLAttribute): string {
    obj + a.name + (if a.key.Some? then a.key.value else "")
  }

  /** The table entries one configured query contributes, in attribute order. */
  function QueryEntries(obj: string, attrs: seq<GLAttribute>): (es: seq<(string, GLAttribute)>)
    ensures |es| == |attrs|
    ensures forall j :: 0 <= j < |es| ==> es[j] == (MapKey(obj, attrs[j]), attrs[j])
  {
    if attrs == [] then []
    else QueryEntries(obj, attrs[..|attrs| - 1]) + [(MapKey(obj, attrs[|attrs| - 1]), attrs[|attrs| - 1])]
  }

  /** The table entries of all configured queries, in query order. */
  function AttributeEntries(qs: seq<GLQuery>): seq<(string, GLAttribute)> {
    if qs == [] then []
    else AttributeEntries(qs[..|qs| - 1]) + QueryEntries(qs[|qs| - 1].obj, qs[|qs| - 1].attributes)
  }

  /** The map the entries build when put one after another: a later key overwrites an earlier one. */
  function MapOf(es: seq<(string, GLAttribute)>): map<string, GLAttribute> {
    if es == [] then map[]
    else MapOf(es[..|es| - 1])[es[|es| - 1].0 := es[|es| - 1].1]
  }

  /** The attribute names of a configured query, in order. */
  function AttributeNames(attrs: seq<GLAttribute>): (names: seq<string>)
    ensures |names| == |attrs|
    ensures forall j :: 0 <= j < |names| ==> names[j] == attrs[j].name
  {
    if attrs == [] then [] else AttributeNames(attrs[..|attrs| - 1]) + [attrs[|attrs| - 1].name]
  }

  /** The jmxtrans queries: one per configured query, in order. */
  function QueriesOf(qs: seq<GLQuery>): (queries: seq<Query>)
    ensures |queries| == |qs|
    ensures forall i :: 0 <= i < |qs| ==> queries[i] == Query(qs[i].obj, AttributeNames(qs[i].attributes))
  {
    if qs == [] then [] else QueriesOf(qs[..|qs| - 1]) + [Query(qs[|qs| - 1].obj, AttributeNames(qs[|qs| - 1].attributes))]
  }

  lemma QueryEntriesSnoc(obj: string, attrs: seq<GLAttribute>, j: int)
    requires 0 <= j < |attrs|
    ensures QueryEntries(obj, attrs[..j + 1]) == QueryEntries(obj, attrs[..j]) + [(MapKey(obj, attrs[j]), attrs[j])]
    ensures AttributeNames(attrs[..j + 1]) == AttributeNames(attrs[..j]) + [attrs[j].name]
  {
    assert attrs[..j + 1][..j] == attrs[..j];
  }

  lemma AttributeEntriesSnoc(qs: seq<GLQuery>, i: int)
    requires 0 <= i < |qs|
    ensures AttributeEntries(qs[..i + 1]) == AttributeEntries(qs[..i]) + QueryEntries(qs[i].obj, qs[i].attributes)
    ensures QueriesOf(qs[..i + 1]) == QueriesOf(qs[..i]) + [Query(qs[i].obj, AttributeNames(qs[i].attributes))]
  {
    assert qs[..i + 1][..i] == qs[..i];
  }

  lemma MapOfSnoc(es: seq<(string, GLAttribute)>, e: (string, GLAttribute))
    ensures MapOf(es + [e]) == MapOf(es)[e.0 := e.1]
  {
    assert (es + [e])[..|es|] == es;
  }

  /** The table holds a key exactly when some entry has it. */
  lemma {:induction false} MapOfKeys(es: seq<(string, GLAttribute)>)
    ensures forall k :: k in MapOf(es) <==> exists j :: 0 <= j < |es| && es[j].0 == k
  {
    if es != [] {
      var init := es[..|es| - 1];
      MapOfKeys(init);
      forall k | k in MapOf(es)
        ensures exists j :: 0 <= j < |es| && es[j].0 == k
      {
        if k != es[|es| - 1].0 {
          assert k in MapOf(init);
          var j :| 0 <= j < |init| && init[j].0 == k;
          assert es[j] == init[j];
        }
      }
      forall k, j | 0 <= j < |es| && es[j].0 == k
        ensures k in MapOf(es)
      {
        if j < |es| - 1 {
          assert init[j] == es[j];
        }
      }
    }
  }

  /** Under each key the table holds the attribute of the last entry with that key. */
  lemma {:induction false} MapOfLastWins(es: seq<(string, GLAttribute)>, j: int)
    requires 0 <= j < |es|
    requires forall i :: j < i < |es| ==> es[i].0 != es[j].0
    ensures es[j].0 in MapOf(es) && MapOf(es)[es[j].0] == es[j].1
  {
    if j < |es| - 1 {
      var init := es[..|es| - 1];
      assert init[j] == es[j];
      MapOfLastWins(init, j);
    }
  }

  /** Every configured attribute has an entry under its own key. */
  lemma {:induction false} AttributeEntriesHold(qs: seq<GLQuery>, i: int, a: GLAttribute)
    requires 0 <= i < |qs| && a in qs[i].attributes
    ensures (MapKey(qs[i].obj, a), a) in AttributeEntries(qs)
  {
    var init := qs[..|qs| - 1];
    if i < |qs| - 1 {
      assert init[i] == qs[i];
      AttributeEntriesHold(init, i, a);
    } else {
      var j :| 0 <= j < |qs[i].attributes| && qs[i].attributes[j] == a;
      assert QueryEntries(qs[i].obj, qs[i].attributes)[j] == (MapKey(qs[i].obj, a), a);
    }
  }

  /** Every entry comes from a configured attribute of some configured query. */
  lemma {:induction false} AttributeEntriesFrom(qs: seq<GLQuery>, e: (string, GLAttribute))
    requires e in AttributeEntries(qs)
    ensures exists i :: 0 <= i < |qs| && e.1 in qs[i].attributes && e.0 == MapKey(qs[i].obj, e.1)
  {
    var init := qs[..|qs| - 1];
    var last := qs[|qs| - 1];
    if e in AttributeEntries(init) {
      AttributeEntriesFrom(init, e);
      var i :| 0 <= i < |init| && e.1 in init[i].attributes && e.0 == MapKey(init[i].obj, e.1);
      assert qs[i] == init[i];
    } else {
      var j :| 0 <= j < |last.attributes| && QueryEntries(last.obj, last.attributes)[j] == e;
      assert e.1 in last.attributes;
    }
  }

  /** The table's keys are exactly the keys of the configured attributes. */
  lemma ConfiguredKeys(qs: seq<GLQuery>, k: string)
    ensures k in MapOf(AttributeEntries(qs)) <==>
      exists i, a :: 0 <= i < |qs| && a in qs[i].attributes && k == MapKey(qs[i].obj, a)
  {
    var es := AttributeEntries(qs);
    MapOfKeys(es);
    if k in MapOf(es) {
      var j :| 0 <= j < |es| && es[j].0 == k;
      AttributeEntriesFrom(qs, es[j]);
    }
    if exists i, a :: 0 <= i < |qs| && a in qs[i].attributes && k == MapKey(qs[i].obj, a) {
      var i, a :| 0 <= i < |qs| && a in qs[i].attributes && k == MapKey(qs[i].obj, a);
      AttributeEntriesHold(qs, i, a);
      var j :| 0 <= j < |es| && es[j] == (k, a);
    }
  }

  /**
   * The key a result's value is looked up under: the matched object name's
   * text and the attribute name, then the value key when it differs from the
   * attribute name.
   */
  function LookupKey(name: ObjectName, attr: string, key: string): string {
    if key == attr then name.text + attr else name.text + attr + key
  }

  /** The event field a configured value is written to: "_" and the alias, or a name made from attribute and key. */
  function FieldName(a: GLAttribute, attr: string, key: string): (f: string)
    ensures |f| >= 1 && f[0] == '_'
  {
    "_" + (if a.alias.Some? then a.alias.value else if key == attr then attr else attr + "." + key)
  }

  /** The writes made for the value keys `keys` of one result. */
  function KeyWrites(configured: map<string, GLAttribute>, name: ObjectName, r: Result, keys: set<string>): (ws: set<Write>)
    requires keys <= r.values.Keys
    ensures forall w <- ws :: |w.field| >= 1 && w.field[0] == '_'
  {
    set key <- keys | LookupKey(name, r.attributeName, key) in configured ::
      Write(FieldName(configured[LookupKey(name, r.attributeName, key)], r.attributeName, key), r.values[key])
  }

  /** The writes `processResult` makes for one (name, result) entry. */
  function ResultWrites(configured: map<string, GLAttribute>, name: ObjectName, r: Result): set<Write> {
    KeyWrites(configured, name, r, r.values.Keys)
  }

  lemma KeyWritesStep(configured: map<string, GLAttribute>, name: ObjectName, r: Result, done: set<string>, key: string)
    requires done <= r.values.Keys && key in r.values
    ensures KeyWrites(configured, name, r, done + {key}) ==
      KeyWrites(configured, name, r, done) +
      (if LookupKey(name, r.attributeName, key) in configured
       then {Write(FieldName(configured[LookupKey(name, r.attributeName, key)], r.attributeName, key), r.values[key])}
       else {})
  {
  }

  /** A configured value of the result is written, to its field. */
  lemma ConfiguredValueWritten(configured: map<string, GLAttribute>, name: ObjectName, r: Result, key: string)
    requires key in r.values && LookupKey(name, r.attributeName, key) in configured
    ensures Write(FieldName(configured[LookupKey(name, r.attributeName, key)], r.attributeName, key), r.values[key])
      in ResultWrites(configured, name, r)
  {
  }

  /** Every write of a result carries one of its values, for a key whose lookup key is configured. */
  lemma WritesAreConfiguredValues(configured: map<string, GLAttribute>, name: ObjectName, r: Result, w: Write)
    requires w in ResultWrites(configured, name, r)
    ensures exists key :: key in r.values && LookupKey(name, r.attributeName, key) in configured && w.value == r.values[key]
  {
  }

  /**
   * A result is written only if some configured key starts with the object
   * name's text and the attribute name: if none does, it writes nothing.
   */
  lemma UnmatchedObjectWritesNothing(configured: map<string, GLAttribute>, name: ObjectName, r: Result)
    requires forall k <- configured :: !(name.text + r.attributeName <= k)
    ensures ResultWrites(configured, name, r) == {}
  {
    forall key | key in r.values
      ensures LookupKey(name, r.attributeName, key) !in configured
    {
      var lk := LookupKey(name, r.attributeName, key);
      assert name.text + r.attributeName <= lk;
    }
  }

  /** A key of the table starts with the object pattern of the query that configured it. */
  lemma {:induction false} ConfiguredKeyStartsWithPattern(qs: seq<GLQuery>, k: string)
    requires k in MapOf(AttributeEntries(qs))
    ensures exists i :: 0 <= i < |qs| && qs[i].obj <= k
  {
    ConfiguredKeys(qs, k);
    var i, a :| 0 <= i < |qs| && a in qs[i].attributes && k == MapKey(qs[i].obj, a);
    assert qs[i].obj <= k;
  }

  /** When every configured pattern holds a '*', so does every key of the table. */
  lemma {:induction false} StarPatternsStarKeys(qs: seq<GLQuery>)
    requires forall i :: 0 <= i < |qs| ==> '*' in qs[i].obj
    ensures forall k <- MapOf(AttributeEntries(qs)) :: '*' in k
  {
    forall k | k in MapOf(AttributeEntries(qs))
      ensures '*' in k
    {
      ConfiguredKeyStartsWithPattern(qs, k);
      var i :| 0 <= i < |qs| && qs[i].obj <= k;
      var j :| 0 <= j < |qs[i].obj| && qs[i].obj[j] == '*';
      assert k[j] == '*';
    }
  }

  /**
   * Lookup keys are written with the configured object pattern but read
   * with the matched name, so a wildcard pattern configures nothing: when
   * every configured pattern holds a '*' and neither the matched name, nor
   * the attribute name, nor any value key does, a result writes nothing.
   */
  lemma {:induction false} WildcardPatternWritesNothing(qs: seq<GLQuery>, name: ObjectName, r: Result)
    requires forall i :: 0 <= i < |qs| ==> '*' in qs[i].obj
    requires '*' !in name.text && '*' !in r.attributeName
    requires forall key <- r.values :: '*' !in key
    ensures ResultWrites(MapOf(AttributeEntries(qs)), name, r) == {}
  {
    StarPatternsStarKeys(qs);
    forall key | key in r.values
      ensures '*' !in LookupKey(name, r.attributeName, key)
    {
    }
  }

  /**
   * A query configured with the exact name of an MBean writes the value of a
   * plain attribute: the table holds a key for it, and the value goes to that
   * key's field.
   */
  lemma ExactNameIsWritten(qs: seq<GLQuery>, i: int, a: GLAttribute, name: ObjectName, r: Result)
    requires 0 <= i < |qs| && a in qs[i].attributes && a.key.None?
    requires qs[i].obj == name.text && a.name == r.attributeName && r.attributeName in r.values
    ensures var configured := MapOf(AttributeEntries(qs));
      exists w <- ResultWrites(configured, name, r) :: w.value == r.values[r.attributeName]
  {
    var configured := MapOf(AttributeEntries(qs));
    ConfiguredKeys(qs, MapKey(qs[i].obj, a));
    assert LookupKey(name, r.attributeName, r.attributeName) == MapKey(qs[i].obj, a);
    ConfiguredValueWritten(configured, name, r, r.attributeName);
  }

  /** The writes of a set of (name, result) entries. */
  function EntryWrites(configured: map<string, GLAttribute>, es: set<QueryProcessor.Entry>): (ws: set<Write>)
    ensures forall w <- ws :: |w.field| >= 1 && w.field[0] == '_'
  {
    set e, w | e in es && w in ResultWrites(configured, e.0, e.1) :: w
  }

  lemma EntryWritesStep(configured: map<string, GLAttribute>, done: set<QueryProcessor.Entry>, e: QueryProcessor.Entry)
    ensures EntryWrites(configured, done + {e}) == EntryWrites(configured, done) + ResultWrites(configured, e.0, e.1)
  {
  }

  /** The writes of one poll over the queries `qs`, or the first failure of a query. */
  function TickWrites(configured: map<string, GLAttribute>, qs: seq<Query>, mbs: MBeanServer,
                      flatten: QueryProcessor.Flattener): (r: Outcome<set<Write>>)
    ensures r.Ok? ==> forall w <- r.value :: |w.field| >= 1 && w.field[0] == '_'
  {
    if qs == [] then Ok({})
    else
      match TickWrites(configured, qs[..|qs| - 1], mbs, flatten)
      case Thrown(f) => Thrown(f)
      case Ok(ws) =>
        match QueryProcessor.QueryOutcome(mbs, qs[|qs| - 1], flatten)
        case Thrown(f) => Thrown(f)
        case Ok(es) => Ok(ws + EntryWrites(configured, es))
  }

  /** The first query that fails makes the whole poll fail with its failure. */
  lemma {:induction false} TickStopsAtFailure(configured: map<string, GLAttribute>, qs: seq<Query>, mbs: MBeanServer,
                                              flatten: QueryProcessor.Flattener, i: nat)
    requires i < |qs|
    requires TickWrites(configured, qs[..i], mbs, flatten).Ok?
    requires QueryProcessor.QueryOutcome(mbs, qs[i], flatten).Thrown?
    ensures TickWrites(configured, qs, mbs, flatten) == Thrown(QueryProcessor.QueryOutcome(mbs, qs[i], flatten).failure)
    decreases |qs|
  {
    var init := qs[..|qs| - 1];
    if i < |qs| - 1 {
      assert init[..i] == qs[..i];
      TickStopsAtFailure(configured, init, mbs, flatten, i);
    } else {
      assert init == qs[..i];
    }
  }

  /** A poll fails exactly when one of its queries fails. */
  lemma {:induction false} TickFailsIff(configured: map<string, GLAttribute>, qs: seq<Query>, mbs: MBeanServer,
                                        flatten: QueryProcessor.Flattener)
    ensures TickWrites(configured, qs, mbs, flatten).Thrown? <==>
      exists j :: 0 <= j < |qs| && QueryProcessor.QueryOutcome(mbs, qs[j], flatten).Thrown?
    decreases |qs|
  {
    if qs != [] {
      var init := qs[..|qs| - 1];
      TickFailsIff(configured, init, mbs, flatten);
      if exists j :: 0 <= j < |qs| && QueryProcessor.QueryOutcome(mbs, qs[j], flatten).Thrown? {
        var j :| 0 <= j < |qs| && QueryProcessor.QueryOutcome(mbs, qs[j], flatten).Thrown?;
        if j < |qs| - 1 {
          assert init[j] == qs[j];
        }
      } else {
        assert forall j :: 0 <= j < |init| ==> init[j] == qs[j];
      }
    }
  }

  /** A Java string that may be null, as an event value. */
  function Nullable(s: Option<string>): Value {
    if s.Some? then Str(s.value) else Null
  }

  /** The fixed fields every published event starts with. */
  function Envelope(objectType: Option<string>, host: string, eventLabel: Option<string>): (e: Event)
    ensures e.Keys == {"version", "_object", "host", "_label", "short_message"}
  {
    map["version" := Str("1.1"), "_object" := Nullable(objectType), "host" := Str(host),
        "_label" := Nullable(eventLabel), "short_message" := Str("JMX")]
  }

  /**
   * Attribute fields all start with '_', so a poll never overwrites the
   * version, the host or the short message of its envelope; the object type
   * and the label can be overwritten by an alias named "object" or "label".
   */
  lemma EnvelopeKept(e: Event, objectType: Option<string>, host: string, eventLabel: Option<string>, ws: set<Write>)
    requires Explains(e, Envelope(objectType, host, eventLabel), ws)
    requires forall w <- ws :: |w.field| >= 1 && w.field[0] == '_'
    ensures "version" in e && e["version"] == Str("1.1")
    ensures "host" in e && e["host"] == Str(host)
    ensures "short_message" in e && e["short_message"] == Str("JMX")
    ensures "_object" in e && "_label" in e
  {
    forall w <- ws
      ensures w.field != "version" && w.field != "host" && w.field != "short_message"
    {
      assert w.field[0] == '_';
    }
    UnwrittenUnchanged(e, Envelope(objectType, host, eventLabel), ws, "version");
    UnwrittenUnchanged(e, Envelope(objectType, host, eventLabel), ws, "host");
    UnwrittenUnchanged(e, Envelope(objectType, host, eventLabel), ws, "short_message");
  }
}
