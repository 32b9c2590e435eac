# JMX input for Graylog — a verified model

The Graylog JMX input polls a list of JVMs over JMX and publishes one GELF-style
event per server and poll. This project models three parts of it in Dafny:

- **jmxtrans `Server`**: the immutable description of one JMX endpoint. It covers
  the url derived from host and port, host and port parsed back out of an
  explicit url, the lazy failures when they are missing, and the connection
  environment's keys. Its `Builder` is modelled too. Both `Server` and `Builder`
  are classes, because the builder's setters and the server's two trust-store
  setters update fields in place.
- **`JmxQueryProcessor`**: one jmxtrans query against a remote MBean server.
  - It decides which attributes to fetch and skips the remote call when there are none.
  - It swallows an `UnmarshalException` and lets every other failure propagate.
  - It files each result under the object name it was fetched for, with set semantics.
  - The MBean server is an abstract datatype: which names a pattern matches, each
    MBean's schema, values and failures, and a `down` flag for a dead connection.
  - Attribute flattening (`JmxResultProcessor`) is a function parameter.
- **`JMXTransport`**:
  - `launch`: the interval unit, one `Server` per comma-separated host, and loading
    of the query configuration, which gates everything after it.
  - `startMonitoring`: the period in milliseconds, and one poll task per server.
  - Each poll task's `populateConfiguredAttributes`: the query list and the table
    of configured attributes.
  - `fetchData` and `processResult`: the event envelope and the configured values
    written into it.
  - `getConnection`: the url-keyed connection cache shared by all poll tasks.

`fetchData` visits a hash multimap, whose iteration order Java leaves
unspecified, and the model treats the order in which `processResult` visits a
result's values as unspecified too. So an event is described by the set of writes made
to it (`Events.Explains`):

- its fields are the base fields plus the written ones;
- an unwritten field keeps its value;
- a written field holds the value of one of its writes.

Modules, one per file: `Outcomes` (Option, the outcome of a call that can throw),
`Text` (the `java.lang.String` operations the code relies on), `Jmx`, `GLModel`,
`Events`, `QueryProcessor`, `Servers`, `ConfiguredAttributes`, `Settings`,
`Connections` and `JmxTransport`.

## Model

| member | source | states |
|---|---|---|
| Text.LastIndexOf | src/main/java/com/googlecode/jmxtrans/model/Server.java:219 | `lastIndexOf` is -1 or an occurrence, and no occurrence lies after it |
| Text.IndexOf | src/main/java/com/googlecode/jmxtrans/model/Server.java:235-236 | `indexOf` is -1 or an occurrence, and no occurrence lies before it |
| Text.Split | src/main/java/org/graylog/inputs/jmx/JMXTransport.java:95 | no piece of `hosts.split(",")` holds a comma |
| Text.SplitPieces | src/main/java/org/graylog/inputs/jmx/JMXTransport.java:95 | `split` keeps the pieces between commas in order, up to the last non-empty one, and drops only empty trailing pieces |
| Text.JoinSplitAll | src/main/java/org/graylog/inputs/jmx/JMXTransport.java:95 | joining the comma-separated pieces with commas gives back the hosts text |
| Text.SplitAllJoin | src/main/java/org/graylog/inputs/jmx/JMXTransport.java:95 | pieces without commas, joined and split again, are the same pieces |
| Text.DecimalString | src/main/java/org/graylog/inputs/jmx/JMXTransport.java:101 | `String.valueOf(port)` is a minus sign exactly for a negative number, followed by one or more decimal digits |
| Text.DecimalRoundTrip | src/main/java/org/graylog/inputs/jmx/JMXTransport.java:101 | `String.valueOf(port)` is the decimal numeral of the port: reading it back gives the number |
| Text.NegativeRoundTrip | src/main/java/org/graylog/inputs/jmx/JMXTransport.java:101 | for a negative number the text is a minus sign followed by the digits of its magnitude, and reads back as the number |
| QueryProcessor.ToFetch | src/main/java/com/googlecode/jmxtrans/jmx/JmxQueryProcessor.java:38-46 | a query without attributes fetches every attribute name of the schema, in schema order; otherwise exactly the query's attributes; nothing is fetched only when both are empty |
| QueryProcessor.AttributeNames | src/main/java/com/googlecode/jmxtrans/jmx/JmxQueryProcessor.java:39-43 | the loop collects exactly the schema's attribute names, in schema order |
| QueryProcessor.FetchOutcome | src/main/java/com/googlecode/jmxtrans/jmx/JmxQueryProcessor.java:34-63 | `getMBeanInfo` and `getObjectInstance` failures propagate. With nothing to fetch there is no result. An `UnmarshalException` of any cause gives no result; any other fetch failure propagates. Otherwise the result is the flattening of the fetched list |
| QueryProcessor.FetchResults | src/main/java/com/googlecode/jmxtrans/jmx/JmxQueryProcessor.java:34-64 | the method returns or throws what `FetchOutcome` says |
| QueryProcessor.ProcessQuery | src/main/java/com/googlecode/jmxtrans/jmx/JmxQueryProcessor.java:22-32 | the multimap built by the loop over matched names, or the first failure, as `QueryOutcome` says |
| QueryProcessor.FileResults | src/main/java/com/googlecode/jmxtrans/jmx/JmxQueryProcessor.java:27-29 | putting each fetched result into the multimap adds exactly the pairs of the matched name with each result, and keeps what was there |
| QueryProcessor.CollectStopsAtFailure | src/main/java/com/googlecode/jmxtrans/jmx/JmxQueryProcessor.java:25-30 | the first matched name whose fetch fails decides the failure of the query |
| QueryProcessor.CollectContents | src/main/java/com/googlecode/jmxtrans/jmx/JmxQueryProcessor.java:23-30 | the multimap holds exactly the pairs (matched name, result fetched for it); duplicates collapse |
| QueryProcessor.CollectFailsIff | src/main/java/com/googlecode/jmxtrans/jmx/JmxQueryProcessor.java:25-30 | a query fails if and only if the fetch for some matched name fails |
| QueryProcessor.NoMatchIsEmpty | src/main/java/com/googlecode/jmxtrans/jmx/JmxQueryProcessor.java:22-31 | a pattern that matches nothing gives an empty multimap, not an error |
| QueryProcessor.KeysAreMatchedNames | src/main/java/com/googlecode/jmxtrans/jmx/JmxQueryProcessor.java:22-31 | every key of the returned multimap is a name the pattern matched |
| QueryProcessor.DownServerFails | src/main/java/com/googlecode/jmxtrans/jmx/JmxQueryProcessor.java:24-25 | through a dead connection every query throws: an IOException unless the pattern is malformed |
| Events.ExplainsPut | src/main/java/org/graylog/inputs/jmx/JMXTransport.java:268-296 | one more `put` on the event keeps it described by its writes plus that write |
| Events.ExplainsThen | src/main/java/org/graylog/inputs/jmx/JMXTransport.java:238-243 | writes made after other writes: the event is described by all of them together |
| Events.SoleWriterWins | src/main/java/org/graylog/inputs/jmx/JMXTransport.java:268-296 | a field written with only one value holds that value, in whatever order the writes came |
| Events.UnwrittenUnchanged | src/main/java/org/graylog/inputs/jmx/JMXTransport.java:268-296 | a field nobody writes keeps its value, or stays absent |
| Servers.Distinct | src/main/java/com/googlecode/jmxtrans/model/Server.java:124 | `copyOf(queries)` has the same members as the list and no duplicates, and leaves a duplicate-free list unchanged |
| Servers.HostFromUrl | src/main/java/com/googlecode/jmxtrans/model/Server.java:219 | the host substring throws `IndexOutOfBounds` exactly when the position after the last "//" lies beyond the last ':', and always for a url without ':'; otherwise it is the text strictly between the last "//" and the last ':' |
| Servers.PortFromUrl | src/main/java/com/googlecode/jmxtrans/model/Server.java:233-239 | the port is a prefix of the text after the last ':' (the whole url when there is none): all of it, or the part before its first '/'; it holds neither ':' nor '/' |
| Servers.StandardUrlLastSlashes | src/main/java/com/googlecode/jmxtrans/model/Server.java:63-64 | in a standard url the last "//" is the one that closes the fixed front part |
| Servers.StandardUrlLastColon | src/main/java/com/googlecode/jmxtrans/model/Server.java:63-64 | in a standard url the last ':' is the one right after the host |
| Servers.UrlRoundTrip | src/main/java/com/googlecode/jmxtrans/model/Server.java:204-239 | host and port extracted from the standard url built from h and p are h and p |
| Servers.Server.constructor | src/main/java/com/googlecode/jmxtrans/model/Server.java:99-127 | every field is the argument given, except the query list, which becomes a duplicate-free set; construction never fails |
| Servers.Server.SetTrustStorePath | src/main/java/com/googlecode/jmxtrans/model/Server.java:82-84 | only the trust-store path changes |
| Servers.Server.SetTrustStorePass | src/main/java/com/googlecode/jmxtrans/model/Server.java:90-92 | only the trust-store passphrase changes |
| Servers.Server.GetUrl | src/main/java/com/googlecode/jmxtrans/model/Server.java:266-274 | an explicit url is returned unchanged. Without one, the result is the front part, host, ':', port and back part. It throws a RuntimeException exactly when the url and one of host or port are missing |
| Servers.Server.GetHost | src/main/java/com/googlecode/jmxtrans/model/Server.java:204-220 | the explicit host wins; without host and url it throws `IllegalState`; otherwise it is parsed from the url |
| Servers.Server.GetPort | src/main/java/com/googlecode/jmxtrans/model/Server.java:222-231 | the explicit port wins; without port and url it throws `IllegalState`; otherwise it is extracted from the url |
| Servers.BuiltMultiThreaded | src/main/java/com/googlecode/jmxtrans/model/Server.java:281-284 | a server built with a thread count queries in several threads exactly when the count is positive; one built by a blank builder does not |
| Servers.Server.GetEnvironment | src/main/java/com/googlecode/jmxtrans/model/Server.java:133-156 | credentials entry iff username and password are set. The three WebLogic entries are present iff the packages contain "weblogic" and both are set. Socket-factory entry iff a trust store is set. Each present entry holds its value, and there are no other keys |
| Servers.DerivedUrlRoundTrip | src/main/java/com/googlecode/jmxtrans/model/Server.java:204-274 | the url a server derives parses back, through `getHost` and `getPort`, to its own host and port |
| Servers.UrlOnlyServerSameAddress | src/main/java/com/googlecode/jmxtrans/model/Server.java:204-274 | a server given only the url another server derives reports the same host and port |
| Servers.Builder.constructor | src/main/java/com/googlecode/jmxtrans/model/Server.java:356-357 | a new builder has every field null, false or empty |
| Servers.Builder.FromServer | src/main/java/com/googlecode/jmxtrans/model/Server.java:359-373 | `builder(server)` copies every field and all queries |
| Servers.Builder.SetAlias | src/main/java/com/googlecode/jmxtrans/model/Server.java:375-378 | only the alias changes |
| Servers.Builder.SetHost | src/main/java/com/googlecode/jmxtrans/model/Server.java:380-383 | only the host changes |
| Servers.Builder.SetPort | src/main/java/com/googlecode/jmxtrans/model/Server.java:385-388 | only the port changes |
| Servers.Builder.SetUsername | src/main/java/com/googlecode/jmxtrans/model/Server.java:390-393 | only the username changes |
| Servers.Builder.SetPassword | src/main/java/com/googlecode/jmxtrans/model/Server.java:395-398 | only the password changes |
| Servers.Builder.SetProtocolProviderPackages | src/main/java/com/googlecode/jmxtrans/model/Server.java:400-403 | only the protocol provider packages change |
| Servers.Builder.SetUrl | src/main/java/com/googlecode/jmxtrans/model/Server.java:405-408 | only the url changes |
| Servers.Builder.SetCronExpression | src/main/java/com/googlecode/jmxtrans/model/Server.java:410-413 | only the cron expression changes |
| Servers.Builder.SetNumQueryThreads | src/main/java/com/googlecode/jmxtrans/model/Server.java:415-418 | only the thread count changes |
| Servers.Builder.SetLocal | src/main/java/com/googlecode/jmxtrans/model/Server.java:420-423 | only the local flag changes |
| Servers.Builder.SetTrustStorePath | src/main/java/com/googlecode/jmxtrans/model/Server.java:343-346 | only the trust-store path changes |
| Servers.Builder.SetTrustStorePass | src/main/java/com/googlecode/jmxtrans/model/Server.java:348-351 | only the trust-store passphrase changes |
| Servers.Builder.AddQuery | src/main/java/com/googlecode/jmxtrans/model/Server.java:425-428 | the query is appended; nothing else changes |
| Servers.Builder.AddQueries | src/main/java/com/googlecode/jmxtrans/model/Server.java:430-433 | the queries are appended in argument order; nothing else changes |
| Servers.Builder.AddQuerySet | src/main/java/com/googlecode/jmxtrans/model/Server.java:435-438 | each query of the set is appended exactly once, after the existing ones, which are kept; nothing else changes |
| Servers.Builder.Build | src/main/java/com/googlecode/jmxtrans/model/Server.java:440-455 | a new server with the builder's fields, its query list made a set |
| Servers.Rebuild | src/main/java/com/googlecode/jmxtrans/model/Server.java:359-455 | rebuilding a server through `builder(server).build()` gives a server with the same fields |
| ConfiguredAttributes.QueryEntries | src/main/java/org/graylog/inputs/jmx/JMXTransport.java:207-214 | one table entry per configured attribute, in order, under object + name (+ key when non-null) |
| ConfiguredAttributes.AttributeNames | src/main/java/org/graylog/inputs/jmx/JMXTransport.java:207-208 | a query's attribute list is the configured attribute names, in order |
| ConfiguredAttributes.QueriesOf | src/main/java/org/graylog/inputs/jmx/JMXTransport.java:205-217 | one jmxtrans query per configured query, in order, with that query's pattern and attribute names |
| ConfiguredAttributes.MapOfKeys | src/main/java/org/graylog/inputs/jmx/JMXTransport.java:213-214 | the table holds a key exactly when some entry put it |
| ConfiguredAttributes.MapOfLastWins | src/main/java/org/graylog/inputs/jmx/JMXTransport.java:213-214 | under a repeated key the table holds the attribute put last |
| ConfiguredAttributes.AttributeEntriesHold | src/main/java/org/graylog/inputs/jmx/JMXTransport.java:205-214 | every configured attribute is put under its own key |
| ConfiguredAttributes.AttributeEntriesFrom | src/main/java/org/graylog/inputs/jmx/JMXTransport.java:205-214 | every entry comes from a configured attribute of a configured query |
| ConfiguredAttributes.ConfiguredKeys | src/main/java/org/graylog/inputs/jmx/JMXTransport.java:202-218 | the table's keys are exactly object + name (+ key) of the configured attributes |
| ConfiguredAttributes.FieldName | src/main/java/org/graylog/inputs/jmx/JMXTransport.java:274-291 | every field a value is written to starts with '_' |
| ConfiguredAttributes.KeyWrites | src/main/java/org/graylog/inputs/jmx/JMXTransport.java:273-295 | every write of a result goes to a field starting with '_' |
| ConfiguredAttributes.ConfiguredValueWritten | src/main/java/org/graylog/inputs/jmx/JMXTransport.java:276-291 | a value whose lookup key (name + attribute, + key when it differs) is configured is written to its field |
| ConfiguredAttributes.WritesAreConfiguredValues | src/main/java/org/graylog/inputs/jmx/JMXTransport.java:276-291 | every write carries the value of a key whose lookup key is configured; unconfigured keys are dropped |
| ConfiguredAttributes.UnmatchedObjectWritesNothing | src/main/java/org/graylog/inputs/jmx/JMXTransport.java:273-291 | a result whose matched name and attribute start no configured key writes nothing |
| ConfiguredAttributes.ConfiguredKeyStartsWithPattern | src/main/java/org/graylog/inputs/jmx/JMXTransport.java:209-214 | every key of the table starts with the object pattern of a configured query |
| ConfiguredAttributes.StarPatternsStarKeys | src/main/java/org/graylog/inputs/jmx/JMXTransport.java:209-214 | when every configured object pattern holds a '*', so does every key of the table |
| ConfiguredAttributes.WildcardPatternWritesNothing | src/main/java/org/graylog/inputs/jmx/JMXTransport.java:209-285 | keys are stored under the configured pattern and looked up under the matched name: when every pattern holds a '*' and the matched name, attribute name and value keys hold none, a result writes nothing |
| ConfiguredAttributes.ExactNameIsWritten | src/main/java/org/graylog/inputs/jmx/JMXTransport.java:209-281 | a query configured with an MBean's exact name has its plain attribute's value written |
| ConfiguredAttributes.EntryWrites | src/main/java/org/graylog/inputs/jmx/JMXTransport.java:240-242 | every write of a query's entries goes to a field starting with '_' |
| ConfiguredAttributes.TickWrites | src/main/java/org/graylog/inputs/jmx/JMXTransport.java:238-243 | every write of a poll goes to a field starting with '_' |
| ConfiguredAttributes.TickStopsAtFailure | src/main/java/org/graylog/inputs/jmx/JMXTransport.java:238-251 | the first query that throws ends the poll with its failure |
| ConfiguredAttributes.TickFailsIff | src/main/java/org/graylog/inputs/jmx/JMXTransport.java:238-251 | a poll fails if and only if one of its queries throws |
| ConfiguredAttributes.Envelope | src/main/java/org/graylog/inputs/jmx/JMXTransport.java:231-237 | the envelope has exactly the fields version, _object, host, _label and short_message |
| ConfiguredAttributes.EnvelopeKept | src/main/java/org/graylog/inputs/jmx/JMXTransport.java:231-290 | a poll's writes never change version, host or short_message, and _object and _label stay present |
| Settings.ParseTimeUnit | src/main/java/org/graylog/inputs/jmx/JMXTransport.java:93 | `TimeUnit.valueOf` gives the unit of exactly that name; null throws `NullPointer`, any other name `IllegalArgument` |
| Settings.ParseUnitName | src/main/java/org/graylog/inputs/jmx/JMXTransport.java:93 | every unit is parsed back from its own name |
| Settings.Quot | src/main/java/org/graylog/inputs/jmx/JMXTransport.java:146 | the conversion to coarser units rounds toward zero: the quotient times the divisor has the sign of the interval and lies less than one divisor from it |
| Settings.ExactForInt | src/main/java/org/graylog/inputs/jmx/JMXTransport.java:145-146 | an `int` interval in milliseconds or coarser converts exactly, with no saturation |
| Settings.PeriodPositiveIff | src/main/java/org/graylog/inputs/jmx/JMXTransport.java:146-149 | the period is positive exactly when the interval is at least one millisecond's worth of its unit |
| Settings.Caught | src/main/java/org/graylog/inputs/jmx/JMXTransport.java:132-134 | an IOException becomes a logged failure; any other exception leaves `launch` |
| Settings.LoadQueryConfigAsWritten | src/main/java/org/graylog/inputs/jmx/JMXTransport.java:108-134 | as written, a custom configuration that loads needs an entered path to an existing file and is the parse of the path itself; any other type loads the bundled resource of that name; an IOException never leaves `launch` |
| Settings.LoadQueryConfig | src/main/java/org/graylog/inputs/jmx/JMXTransport.java:108-134 | a custom configuration loads only from an entered path to an existing file; another type loads the bundled resource; only a non-IO exception escapes |
| Settings.LoadersAgreeOffCustom | src/main/java/org/graylog/inputs/jmx/JMXTransport.java:126-131 | for any type other than custom, the loader as written and the corrected loader agree |
| Settings.AsWrittenIgnoresContents | src/main/java/org/graylog/inputs/jmx/JMXTransport.java:117-118 | as written, only which files exist matters, not what they hold |
| Settings.CustomFileIsNotRead | src/main/java/org/graylog/inputs/jmx/JMXTransport.java:118 | a valid custom file fails to load as written and loads when corrected |
| Connections.Acquire | src/main/java/org/graylog/inputs/jmx/JMXTransport.java:299-325 | a live cached connection is returned with the table unchanged. On a miss or a failed probe a new connection is stored and returned. If opening fails, the table is unchanged and the stale connection or null is returned. No other url's entry changes |
| Connections.StaleConnectionPollFails | src/main/java/org/graylog/inputs/jmx/JMXTransport.java:238-325 | after a failed probe and a failed re-open the stale connection is returned, and a poll through it fails |
| JmxTransport.BuildServers | src/main/java/org/graylog/inputs/jmx/JMXTransport.java:97-106 | one new server per host entry, in order, with that host and the shared port and credentials |
| JmxTransport.Transport.constructor | src/main/java/org/graylog/inputs/jmx/JMXTransport.java:76-82 | a transport starts with no servers, configuration, tasks or connections |
| JmxTransport.Transport.Launch | src/main/java/org/graylog/inputs/jmx/JMXTransport.java:90-139 | A bad interval unit or a missing host list throws before anything is built. Otherwise there is one new server per comma-separated host, in order. Monitoring starts exactly when the configuration loads as the code is written (a custom file's path, not its contents, is parsed); an IOException while loading leaves nothing scheduled |
| JmxTransport.Transport.StartMonitoring | src/main/java/org/graylog/inputs/jmx/JMXTransport.java:142-154 | One task per server, in server order, with one initial delay of whole seconds and the period in milliseconds. A period that is not positive throws `IllegalArgument` after the first task was built |
| JmxTransport.Transport.GetConnection | src/main/java/org/graylog/inputs/jmx/JMXTransport.java:299-325 | the table and the returned connection are what `Acquire` gives; a server without a url throws |
| JmxTransport.PollTask.constructor | src/main/java/org/graylog/inputs/jmx/JMXTransport.java:186-196 | the task keeps its server, configuration and label, builds its queries and table, and replaces the shared connection table with an empty one |
| JmxTransport.PollTask.PopulateConfiguredAttributes | src/main/java/org/graylog/inputs/jmx/JMXTransport.java:202-218 | the queries are `QueriesOf` and the table is `MapOf` the configured entries |
| JmxTransport.PollTask.PopulateQuery | src/main/java/org/graylog/inputs/jmx/JMXTransport.java:206-216 | one configured query appends its jmxtrans query and puts its attributes' entries into the table |
| JmxTransport.PollTask.ProcessResult | src/main/java/org/graylog/inputs/jmx/JMXTransport.java:268-296 | the event after one result is the event before it, described by exactly the result's configured-value writes |
| JmxTransport.PollTask.ProcessEntries | src/main/java/org/graylog/inputs/jmx/JMXTransport.java:240-242 | the event after one query's entries is described by the writes of all of them |
| JmxTransport.PollTask.PollQueries | src/main/java/org/graylog/inputs/jmx/JMXTransport.java:238-243 | the loop over the queries gives the event explained by every query's writes exactly when no query throws |
| JmxTransport.PollTask.FetchData | src/main/java/org/graylog/inputs/jmx/JMXTransport.java:227-254 | The connection table changes as `Acquire` says. An event is published exactly when a connection was obtained, the host is known and every query succeeded. The published event is the envelope after the writes of every configured value |

## Left out

- The TLS trust manager, the SSL socket factory and the SSL context (Server.java:158-178,478-543): keystore I/O and JSSE calls. Only the presence of the socket-factory key is modelled.
- `getServerConnection`, `getJmxServiceURL`, `getLocalMBeanServer` and `main`: library calls and a demo program. Opening a connection is the `newConnection` field of `Connections.Network`.
- `resolveProps` (`PropertyResolver` is not part of this model): the constructor keeps its arguments unchanged.
- `JmxResultProcessor`, which flattens fetched attributes into results, is not part of this model. It is the `Flattener` parameter.
- ObjectName pattern matching: which names a pattern matches is the `matches` map of the abstract MBean server. `getDomain` is the text before the first ':'.
- Jackson: reading a `GLQueryConfig` is the `JsonReader` parameter, and a missing resource is a null stream handed to it. JSON serialisation and publishing in `publishToGLServer` are left out; an IOException there is not modelled.
- `GLAttribute.java` is not part of this model. The attribute is a datatype of name, optional key and optional alias.
- Null lists in the query configuration (`getQueries()` or `getAttributes()` returning null) and null elements in a server's query list: the model's lists are never null.
- Null strings and a null configuration from Jackson: `GLQuery.obj` is a plain string (only the configuration's type may be null), although in Java a null `object` makes `populateConfiguredAttributes` store keys beginning with "null". `readValue` is modelled as returning a configuration, although for the JSON text `null` it returns null and `getQueries()` then throws a NullPointerException.
- `Math.random`: the start-up delay is the `Jitter` parameter, a whole number of seconds from 0 to 60.
- The executor, `stop`, thread naming in `run`, the `synchronized` publish block, and the concurrency between poll tasks that share the connection table.
- Logging, and the Graylog `Config` form fields.
- A missing integer setting: `Configuration.getInt` is assumed to give an `int`.
- JmxTransport.PollTask.FetchData: when two different queries write the same field, the model allows the value of either write. In Java the later query's write wins, because queries run in list order. Within one query the order is that of a hash multimap, which Java leaves unspecified.
- JmxTransport.PollTask.FetchData: when the poll fails and the host cannot be computed, the `catch` block calls `getHost` again and that exception escapes `run`. The model only says that nothing is published. Servers built by `launch` always have a host.

## Findings

| source | as written | input that shows it | evidently intended | confidence | as-written member | corrected member |
|---|---|---|---|---|---|---|
| src/main/java/org/graylog/inputs/jmx/JMXTransport.java:118 | for the custom object type, the file's path is handed to `readValue(String, Class)`, which parses its argument as JSON text, so the file's contents are never read | object type "custom", path "/etc/graylog/jmx.json", an existing file holding `{"type":"app","queries":[]}`: the path does not parse, loading fails and monitoring never starts (`Settings.CustomFileIsNotRead`) | parse the contents of the file at that path | high, not executed | Settings.LoadQueryConfigAsWritten | Settings.LoadQueryConfig |

`JmxTransport.Transport.Launch` loads the configuration as the code is written. `Settings.LoadersAgreeOffCustom` shows that the corrected loader gives the same outcome for every object type other than "custom".
