/**
 * The event map a poll fills, described by the writes made to it. The order
 * in which a poll visits results and value keys is the iteration order of
 * hash-based collections, which Java leaves unspecified; so an event is
 * specified by the set of writes made to it, not by their order: every field
 * written holds the value of some write to it, every other field keeps its
 * earlier value.
 */
module Events {
  import opened Jmx

  /** The event: field name to value. */
  type Event = map<string, Value>

  /** One `eventData.put(field, value)`. */
  datatype Write = Write(field: string, value: Value)

  /** The fields a set of writes touches. */
  function Fields(ws: set<Write>): (fs: set<string>)
    ensures forall f :: f in fs <==> exists v :: Write(f, v) in ws
  {
    set w <- ws :: w.field
  }

  /**
   * `e` is what `base` becomes after the writes `ws`, in some order: its
   * fields are those of `base` and those written, an unwritten field keeps
   * its value, and a written field holds the value of one of its writes.
   */
  predicate Explains(e: Event, base: Event, ws: set<Write>) {
    && e.Keys == base.Keys + Fields(ws)
    && (forall f :: f in base && f !in Fields(ws) ==> e[f] == base[f])
    && (forall f :: f in Fields(ws) ==> Write(f, e[f]) in ws)
  }

  /** With no writes, the event is its base. */
  lemma ExplainsNothing(e: Event)
    ensures Explains(e, e, {})
  {
  }

  /** Doing one more write keeps the description. */
  lemma ExplainsPut(e: Event, base: Event, ws: set<Write>, f: string, v: Value)
    requires Explains(e, base, ws)
    ensures Explains(e[f := v], base, ws + {Write(f, v)})
  {
    var ws' := ws + {Write(f, v)};
    assert Fields(ws') == Fields(ws) + {f};
  }

  /** Writes made after other writes: the event is described by all of them. */
  lemma {:induction false} ExplainsThen(e1: Event, e2: Event, base: Event, ws1: set<Write>, ws2: set<Write>)
    requires Explains(e1, base, ws1) && Explains(e2, e1, ws2)
    ensures Explains(e2, base, ws1 + ws2)
  {
    assert Fields(ws1 + ws2) == Fields(ws1) + Fields(ws2);
    forall f | f in Fields(ws1 + ws2)
      ensures Write(f, e2[f]) in ws1 + ws2
    {
      if f !in Fields(ws2) {
        assert e2[f] == e1[f];
      }
    }
  }

  /** A field that only one value is written to holds that value, whatever the order. */
  lemma SoleWriterWins(e: Event, base: Event, ws: set<Write>, f: string, v: Value)
    requires Explains(e, base, ws)
    requires Write(f, v) in ws
    requires forall w <- ws :: w.field == f ==> w.value == v
    ensures f in e && e[f] == v
  {
    assert f in Fields(ws);
  }

  /** A field nobody writes keeps its value, or stays absent. */
  lemma UnwrittenUnchanged(e: Event, base: Event, ws: set<Write>, f: string)
    requires Explains(e, base, ws)
    requires forall w <- ws :: w.field != f
    ensures f in e <==> f in base
    ensures f in base ==> e[f] == base[f]
  {
  }
}
