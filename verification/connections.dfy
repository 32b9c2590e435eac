/**
 * The url-keyed cache of MBean server connections that the poll tasks
 * share: a cached connection is probed and reused while it answers; else a
 * new one is opened and stored; if that fails too, the stale one stays.
 */
module Connections {
  import opened Outcomes
  import opened Jmx
  import GLModel
  import ConfiguredAttributes
  import QueryProcessor

  /** A remote `MBeanServerConnection`, by identity. */
  datatype Connection = Connection(id: nat)

  /**
   * The network as one poll sees it: the connections that still answer
   * (`getMBeanCount` succeeds), the connection that opening one now would
   * give (`None` when `getServerConnection` throws), and the MBean server
   * behind a connection that answers.
   */
  datatype Network = Network(alive: set<Connection>, newConnection: Option<Connection>, endpoint: MBeanServer)

  /** The MBean server seen through `c`: calls through a dead connection throw an IOException. */
  function Answering(net: Network, c: Connection): MBeanServer {
    if c in net.alive || net.newConnection == Some(c) then net.endpoint else net.endpoint.(down := true)
  }

  /** The table after `getConnection` for the url, and the connection it returns (`None` for null). */
  datatype Acquisition = Acquisition(table: map<string, Connection>, connection: Option<Connection>)

  /** What `getConnection` does to the table and returns, for a server whose url is `url`. */
  function Acquire(table: map<string, Connection>, url: string, net: Network): (a: Acquisition)
    // no entry other than the server's own url is touched
    ensures forall u :: u != url ==> (u in a.table <==> u in table)
    ensures forall u :: u != url && u in table ==> a.table[u] == table[u]
    // a cached connection that answers the probe is returned, and the table is unchanged
    ensures url in table && table[url] in net.alive ==> a == Acquisition(table, Some(table[url]))
    // on a miss or a failed probe, a newly opened connection is stored and returned
    ensures (url !in table || table[url] !in net.alive) && net.newConnection.Some? ==>
      a == Acquisition(table[url := net.newConnection.value], net.newConnection)
    // if opening fails the table is unchanged and the stale connection, if any, is returned
    ensures (url !in table || table[url] !in net.alive) && net.newConnection.None? ==>
      a.table == table && a.connection == (if url in table then Some(table[url]) else None)
    // a connection is returned exactly when one was cached or one could be opened
    ensures a.connection.Some? <==> url in table || net.newConnection.Some?
    // what is returned is what the table holds for the url
    ensures a.connection.Some? ==> url in a.table && a.table[url] == a.connection.value
  {
    if url in table && table[url] in net.alive then Acquisition(table, Some(table[url]))
    else if net.newConnection.Some? then Acquisition(table[url := net.newConnection.value], net.newConnection)
    else Acquisition(table, if url in table then Some(table[url]) else None)
  }

  /**
   * After a failed probe and a failed re-open, the stale connection is
   * returned; every query through it throws, so a poll with at least one
   * query publishes nothing.
   */
  lemma StaleConnectionPollFails(table: map<string, Connection>, url: string, net: Network,
                                 configured: map<string, GLModel.GLAttribute>, qs: seq<Query>,
                                 flatten: QueryProcessor.Flattener)
    requires url in table && table[url] !in net.alive && net.newConnection.None?
    requires qs != []
    ensures Acquire(table, url, net).connection == Some(table[url])
    ensures ConfiguredAttributes.TickWrites(configured, qs, Answering(net, table[url]), flatten).Thrown?
  {
    var mbs := Answering(net, table[url]);
    QueryProcessor.DownServerFails(mbs, qs[0], flatten);
    ConfiguredAttributes.TickFailsIff(configured, qs, mbs, flatten);
  }
}
