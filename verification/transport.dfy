/**
 * The JMX transport of the Graylog input: `launch` builds one Server per
 * configured host, loads the query configuration and, if that worked,
 * schedules one poll task per server; each poll task fetches its queries'
 * results through the shared connection cache and publishes one event.
 */
module JmxTransport {
  import opened Outcomes
  import opened Text
  import opened Jmx
  import opened GLModel
  import opened Events
  import opened Servers
  import opened Settings
  import opened ConfiguredAttributes
  import opened Connections
  import QueryProcessor

  /** The start-up delay in whole seconds, `Math.round(Math.random() * 60)`. */
  type Jitter = s: int | 0 <= s <= 60

  /** The Server `launch` builds for one host entry: that host, and the configured port and credentials. */
  function HostServer(host: string, cfg: Configuration): Description {
    Blank.(host := Some(host), port := Some(DecimalString(cfg.port)), username := cfg.username, password := cfg.password)
  }

  /** One `scheduleAtFixedRate(task, initialDelay, period, MILLISECONDS)`. */
  datatype Schedule = Schedule(task: PollTask, initialDelayMillis: int, periodMillis: int)

  /** The loop of `launch` that builds one Server per host entry. */
  method BuildServers(hosts: seq<string>, cfg: Configuration) returns (built: seq<Server>)
    ensures |built| == |hosts|
    ensures forall i :: 0 <= i < |hosts| ==> fresh(built[i]) && built[i].Fields() == HostServer(hosts[i], cfg)
  {
    built := [];
    for i := 0 to |hosts|
      invariant |built| == i
      invariant forall j :: 0 <= j < i ==> fresh(built[j]) && built[j].Fields() == HostServer(hosts[j], cfg)
    {
      var builder := new Builder();
      builder.SetHost(Some(hosts[i]));
      builder.SetPort(Some(DecimalString(cfg.port)));
      builder.SetUsername(cfg.username);
      builder.SetPassword(cfg.password);
      var server := builder.Build();
      built := built + [server];
    }
  }

  class Transport {
    var servers: seq<Server>
    var queryConfig: Option<GLQueryConfig>
    var futures: seq<Schedule>
    var executionInterval: Int32
    var intervalUnit: Option<TimeUnit>
    var labelText: Option<string>
    var connections: map<string, Connection>

    constructor ()
      ensures servers == [] && queryConfig.None? && futures == [] && connections == map[]
      ensures intervalUnit.None? && labelText.None?
    {
      servers, queryConfig, futures := [], None, [];
      executionInterval, intervalUnit, labelText := 0, None, None;
      connections := map[];
    }

    /**
     * One task per server, in server order, all with the same initial delay
     * of whole seconds and the same period, each over this transport and
     * the loaded configuration and with its lookup table built.
     */
    predicate Scheduled(jitter: Jitter, period: int)
      reads this, set s <- futures :: s.task
    {
      && queryConfig.Some?
      && |futures| == |servers|
      && forall i :: 0 <= i < |futures| ==>
        && futures[i].initialDelayMillis == jitter * 1000
        && futures[i].periodMillis == period
        && futures[i].task.transport == this
        && futures[i].task.server == servers[i]
        && futures[i].task.queryConfig == queryConfig.value
        && futures[i].task.labelText == labelText
        && futures[i].task.Populated()
    }

    /** `launch`: `started` tells whether monitoring began. */
    method Launch(cfg: Configuration, files: map<string, string>, resources: map<string, string>,
                  read: JsonReader, jitter: Jitter) returns (r: Outcome<bool>)
      modifies this
      ensures executionInterval == cfg.interval
      // an unknown or missing interval unit throws before anything else is done
      ensures ParseTimeUnit(cfg.intervalUnit).Thrown? ==>
        && r == Thrown(ParseTimeUnit(cfg.intervalUnit).failure)
        && servers == old(servers) && futures == old(futures) && connections == old(connections)
      ensures ParseTimeUnit(cfg.intervalUnit).Ok? ==>
        intervalUnit == Some(ParseTimeUnit(cfg.intervalUnit).value) && labelText == cfg.labelText
      // a missing host list throws
      ensures ParseTimeUnit(cfg.intervalUnit).Ok? && cfg.hosts.None? ==>
        && r == Thrown(NullPointer)
        && servers == old(servers) && futures == old(futures) && connections == old(connections)
      // otherwise one new Server per comma-separated entry, in order, sharing port and credentials
      ensures ParseTimeUnit(cfg.intervalUnit).Ok? && cfg.hosts.Some? ==>
        var hosts := Split(cfg.hosts.value, ',');
        && |servers| == |hosts|
        && forall i :: 0 <= i < |hosts| ==> fresh(servers[i]) && servers[i].Fields() == HostServer(hosts[i], cfg)
      // monitoring starts only when the query configuration loaded
      ensures ParseTimeUnit(cfg.intervalUnit).Ok? && cfg.hosts.Some? ==>
        var loading := LoadQueryConfigAsWritten(cfg, files, resources, read);
        && (loading.LoadThrew? ==> r == Thrown(loading.failure) && futures == old(futures) && connections == old(connections))
        && (loading.LoadFailed? ==> r == Ok(false) && futures == old(futures) && connections == old(connections))
        && (loading.Loaded? ==>
          var period := ToMillis(cfg.interval, ParseTimeUnit(cfg.intervalUnit).value);
          && queryConfig == Some(loading.config)
          && (servers != [] && period <= 0 ==> r == Thrown(IllegalArgument) && futures == [] && connections == map[])
          && (servers == [] || period > 0 ==> r == Ok(true) && Scheduled(jitter, period)))
      ensures forall s <- futures :: s in old(futures) || fresh(s.task)
    {
      executionInterval := cfg.interval;
      var unit := ParseTimeUnit(cfg.intervalUnit);
      if unit.Thrown? {
        return Thrown(unit.failure);
      }
      intervalUnit := Some(unit.value);
      labelText := cfg.labelText;
      if cfg.hosts.None? {
        return Thrown(NullPointer);
      }
      servers := BuildServers(Split(cfg.hosts.value, ','), cfg);
      var loading := LoadQueryConfigAsWritten(cfg, files, resources, read);
      match loading
      case LoadThrew(f) =>
        r := Thrown(f);
      case LoadFailed =>
        r := Ok(false);
      case Loaded(config) =>
        queryConfig := Some(config);
        var failure := StartMonitoring(jitter);
        r := if failure.Some? then Thrown(failure.value) else Ok(true);
    }

    /** `startMonitoring`: schedules one poll task per server. */
    method StartMonitoring(jitter: Jitter) returns (failure: Option<Failure>)
      requires intervalUnit.Some? && queryConfig.Some?
      modifies this
      ensures servers == old(servers) && queryConfig == old(queryConfig) && labelText == old(labelText)
      ensures intervalUnit == old(intervalUnit) && executionInterval == old(executionInterval)
      ensures forall s <- futures :: fresh(s.task)
      ensures var period := ToMillis(executionInterval, intervalUnit.value);
        // scheduleAtFixedRate rejects a period that is not positive, after the first task was built
        && (failure.Some? <==> servers != [] && period <= 0)
        && (failure.Some? ==> failure.value == IllegalArgument && futures == [] && connections == map[])
        && (failure.None? ==> Scheduled(jitter, period))
        && (failure.None? && servers != [] ==> connections == map[])
        && (servers == [] ==> connections == old(connections))
    {
      futures := [];
      ExactForInt(jitter, Seconds);
      var initialDelay := ToMillis(jitter, Seconds);
      var period := ToMillis(executionInterval, intervalUnit.value);
      for i := 0 to |servers|
        invariant servers == old(servers) && queryConfig == old(queryConfig) && labelText == old(labelText)
        invariant intervalUnit == old(intervalUnit) && executionInterval == old(executionInterval)
        invariant |futures| == i
        invariant period <= 0 ==> i == 0
        invariant forall s <- futures :: fresh(s.task)
        invariant forall j :: 0 <= j < i ==>
          && futures[j].initialDelayMillis == jitter * 1000
          && futures[j].periodMillis == period
          && futures[j].task.transport == this
          && futures[j].task.server == servers[j]
          && futures[j].task.queryConfig == queryConfig.value
          && futures[j].task.labelText == labelText
          && futures[j].task.Populated()
        invariant i > 0 ==> connections == map[]
        invariant i == 0 ==> connections == old(connections)
      {
        var task := new PollTask(this, servers[i], queryConfig.value, labelText);
        if period <= 0 {
          return Some(IllegalArgument);
        }
        futures := futures + [Schedule(task, initialDelay, period)];
      }
      failure := None;
    }

    /** `getConnection(server)`: probe the cached connection, re-open if needed, store what was opened. */
    method GetConnection(server: Server, net: Network) returns (r: Outcome<Option<Connection>>)
      modifies this`connections
      ensures server.GetUrl().Thrown? ==> r == Thrown(Runtime) && connections == old(connections)
      ensures server.GetUrl().Ok? ==>
        var a := Acquire(old(connections), server.GetUrl().value, net);
        connections == a.table && r == Ok(a.connection)
    {
      var url := server.GetUrl();
      if url.Thrown? {
        return Thrown(url.failure);
      }
      var connection: Option<Connection> := None;
      var create := false;
      if url.value in connections {
        connection := Some(connections[url.value]);
        if connection.value !in net.alive {
          // getMBeanCount threw an IOException
          create := true;
        }
      } else {
        create := true;
      }
      if create && net.newConnection.Some? {
        connection := net.newConnection;
        connections := connections[url.value := net.newConnection.value];
      }
      r := Ok(connection);
    }
  }

  /** A task that polls one server with the configured queries. */
  class PollTask {
    const transport: Transport
    const server: Server
    const queryConfig: GLQueryConfig
    const labelText: Option<string>
    var configuredAttributes: map<string, GLAttribute>
    var queries: seq<Query>

    /** The lookup table and the query list are those the configuration defines. */
    predicate Populated()
      reads this
    {
      && configuredAttributes == MapOf(AttributeEntries(queryConfig.queries))
      && queries == QueriesOf(queryConfig.queries)
    }

    /** The constructor: it also replaces the transport's shared connection table with an empty one. */
    constructor (transport: Transport, server: Server, queryConfig: GLQueryConfig, labelText: Option<string>)
      modifies transport`connections
      ensures this.transport == transport && this.server == server
      ensures this.queryConfig == queryConfig && this.labelText == labelText
      ensures transport.connections == map[]
      ensures Populated()
    {
      this.transport := transport;
      this.server := server;
      this.queryConfig := queryConfig;
      this.labelText := labelText;
      configuredAttributes := map[];
      queries := [];
      new;
      transport.connections := map[];
      PopulateConfiguredAttributes();
    }

    /** `populateConfiguredAttributes`: one query per configured query, and the lookup table. */
    method PopulateConfiguredAttributes()
      modifies this`configuredAttributes, this`queries
      ensures Populated()
    {
      var qs := queryConfig.queries;
      configuredAttributes := map[];
      queries := [];
      ghost var entries: seq<(string, GLAttribute)> := [];
      for i := 0 to |qs|
        invariant entries == AttributeEntries(qs[..i])
        invariant configuredAttributes == MapOf(entries)
        invariant queries == QueriesOf(qs[..i])
      {
        PopulateQuery(qs[i], entries);
        AttributeEntriesSnoc(qs, i);
        entries := entries + QueryEntries(qs[i].obj, qs[i].attributes);
      }
      assert qs[..|qs|] == qs;
    }

    /** The body of the outer loop of `populateConfiguredAttributes`, for one configured query. */
    method PopulateQuery(q: GLQuery, ghost entries: seq<(string, GLAttribute)>)
      requires configuredAttributes == MapOf(entries)
      modifies this`configuredAttributes, this`queries
      ensures configuredAttributes == MapOf(entries + QueryEntries(q.obj, q.attributes))
      ensures queries == old(queries) + [Query(q.obj, AttributeNames(q.attributes))]
    {
      var names: seq<string> := [];
      ghost var added: seq<(string, GLAttribute)> := [];
      assert entries + added == entries;
      for j := 0 to |q.attributes|
        invariant names == AttributeNames(q.attributes[..j])
        invariant added == QueryEntries(q.obj, q.attributes[..j])
        invariant configuredAttributes == MapOf(entries + added)
        invariant queries == old(queries)
      {
        var attribute := q.attributes[j];
        QueryEntriesSnoc(q.obj, q.attributes, j);
        names := names + [attribute.name];
        var mapKey := q.obj + attribute.name;
        if attribute.key.Some? {
          mapKey := mapKey + attribute.key.value;
        }
        assert mapKey == MapKey(q.obj, attribute);
        configuredAttributes := configuredAttributes[mapKey := attribute];
        MapOfSnoc(entries + added, (mapKey, attribute));
        assert entries + added + [(mapKey, attribute)] == entries + (added + [(mapKey, attribute)]);
        added := added + [(mapKey, attribute)];
      }
      assert q.attributes[..|q.attributes|] == q.attributes;
      queries := queries + [Query(q.obj, names)];
    }

    /** `processResult`: writes each configured value of one result to its field. */
    method ProcessResult(event: Event, name: ObjectName, r: Result) returns (out: Event)
      ensures Explains(out, event, ResultWrites(configuredAttributes, name, r))
    {
      out := event;
      var keys := r.values.Keys;
      ghost var done: set<string> := {};
      ExplainsNothing(event);
      while keys != {}
        invariant keys + done == r.values.Keys && keys !! done
        invariant Explains(out, event, KeyWrites(configuredAttributes, name, r, done))
        decreases keys
      {
        var key :| key in keys;
        KeyWritesStep(configuredAttributes, name, r, done, key);
        var fieldAlias := r.attributeName;
        var attrKey := name.text + r.attributeName;
        if r.attributeName == key {
          if attrKey in configuredAttributes {
            if configuredAttributes[attrKey].alias.Some? {
              fieldAlias := configuredAttributes[attrKey].alias.value;
            }
            ExplainsPut(out, event, KeyWrites(configuredAttributes, name, r, done), "_" + fieldAlias, r.values[key]);
            out := out["_" + fieldAlias := r.values[key]];
          }
        } else {
          fieldAlias := r.attributeName + "." + key;
          attrKey := attrKey + key;
          if attrKey in configuredAttributes {
            if configuredAttributes[attrKey].alias.Some? {
              fieldAlias := configuredAttributes[attrKey].alias.value;
            }
            ExplainsPut(out, event, KeyWrites(configuredAttributes, name, r, done), "_" + fieldAlias, r.values[key]);
            out := out["_" + fieldAlias := r.values[key]];
          }
        }
        keys := keys - {key};
        done := done + {key};
      }
      assert done == r.values.Keys;
    }

    /** The loop of `fetchData` over the entries of one query's results. */
    method ProcessEntries(event: Event, es: set<QueryProcessor.Entry>) returns (out: Event)
      ensures Explains(out, event, EntryWrites(configuredAttributes, es))
    {
      out := event;
      var rest := es;
      ExplainsNothing(event);
      assert es - rest == {};
      while rest != {}
        invariant rest <= es
        invariant Explains(out, event, EntryWrites(configuredAttributes, es - rest))
        decreases rest
      {
        var entry :| entry in rest;
        var next := ProcessResult(out, entry.0, entry.1);
        ExplainsThen(out, next, event, EntryWrites(configuredAttributes, es - rest),
                     ResultWrites(configuredAttributes, entry.0, entry.1));
        EntryWritesStep(configuredAttributes, es - rest, entry);
        assert es - (rest - {entry}) == (es - rest) + {entry};
        out := next;
        rest := rest - {entry};
      }
      assert es - rest == es;
    }

    /**
     * `fetchData`: the event published for one poll (`None` when nothing is
     * published), through the network as this poll sees it.
     */
    method FetchData(net: Network, flatten: QueryProcessor.Flattener) returns (published: Option<Event>)
      modifies transport`connections
      ensures server.GetUrl().Thrown? ==> published.None? && transport.connections == old(transport.connections)
      ensures server.GetUrl().Ok? ==>
        var a := Acquire(old(transport.connections), server.GetUrl().value, net);
        && transport.connections == a.table
        // published exactly when a connection was obtained and every query succeeded through it
        && (published.Some? <==>
              && a.connection.Some? && server.GetHost().Ok?
              && TickWrites(configuredAttributes, queries, Answering(net, a.connection.value), flatten).Ok?)
        // the event is the envelope after the writes of every configured value of every result
        && (published.Some? ==>
              Explains(published.value, Envelope(queryConfig.objectType, server.GetHost().value, labelText),
                       TickWrites(configuredAttributes, queries, Answering(net, a.connection.value), flatten).value))
    {
      var connection := transport.GetConnection(server, net);
      if connection.Thrown? || connection.value.None? {
        return None;
      }
      var mbs := Answering(net, connection.value.value);
      var host := server.GetHost();
      if host.Thrown? {
        return None;
      }
      var eventData: Event := map[];
      eventData := eventData["version" := Str("1.1")];
      eventData := eventData["_object" := Nullable(queryConfig.objectType)];
      eventData := eventData["host" := Str(host.value)];
      eventData := eventData["_label" := Nullable(labelText)];
      eventData := eventData["short_message" := Str("JMX")];
      assert eventData == Envelope(queryConfig.objectType, host.value, labelText);
      published := PollQueries(eventData, mbs, flatten);
    }

    /**
     * The loop of `fetchData` over the queries: the event after every
     * query's results were processed, or `None` once a query throws.
     */
    method PollQueries(envelope: Event, mbs: MBeanServer, flatten: QueryProcessor.Flattener) returns (out: Option<Event>)
      ensures out.Some? <==> TickWrites(configuredAttributes, queries, mbs, flatten).Ok?
      ensures out.Some? ==> Explains(out.value, envelope, TickWrites(configuredAttributes, queries, mbs, flatten).value)
    {
      var eventData := envelope;
      ghost var acc: set<Write> := {};
      ExplainsNothing(envelope);
      var i := 0;
      while i < |queries|
        invariant 0 <= i <= |queries|
        invariant TickWrites(configuredAttributes, queries[..i], mbs, flatten) == Ok(acc)
        invariant Explains(eventData, envelope, acc)
      {
        var results := QueryProcessor.ProcessQuery(mbs, queries[i], flatten);
        assert queries[..i + 1][..i] == queries[..i];
        if results.Thrown? {
          TickStopsAtFailure(configuredAttributes, queries, mbs, flatten, i);
          return None;
        }
        var next := ProcessEntries(eventData, results.value);
        ExplainsThen(eventData, next, envelope, acc, EntryWrites(configuredAttributes, results.value));
        eventData := next;
        acc := acc + EntryWrites(configuredAttributes, results.value);
        i := i + 1;
      }
      assert queries[..i] == queries;
      out := Some(eventData);
    }
  }
}
