/**
 * jmxtrans's Server: an immutable description of one JMX endpoint, with the
 * url derived from host and port (or host and port parsed back out of an
 * explicit url), the connection environment, and the Builder that makes
 * one.
 */
module Servers {
  import opened Outcomes
  import opened Text
  import opened Jmx

  const Front: string := "service:jmx:rmi:///jndi/rmi://"
  const Back: string := "/jmxrmi"

  /** `JMXConnectorFactory.PROTOCOL_PROVIDER_PACKAGES` */
  const ProtocolProviderPackagesKey: string := "jmx.remote.protocol.provider.pkgs"
  /** `javax.naming.Context.SECURITY_PRINCIPAL` */
  const SecurityPrincipalKey: string := "java.naming.security.principal"
  /** `javax.naming.Context.SECURITY_CREDENTIALS` */
  const SecurityCredentialsKey: string := "java.naming.security.credentials"
  /** `JMXConnector.CREDENTIALS` */
  const CredentialsKey: string := "jmx.remote.credentials"
  /** The RMI client socket factory key, set when a trust store is configured. */
  const SocketFactoryKey: string := "com.sun.jndi.rmi.factory.socket"

  /** A value of the connection environment. */
  datatype EnvValue =
    | Setting(s: string)
    | Credentials(username: string, password: string)  // the String[]{username, password}
    | SslSocketFactory                                  // the SslRMIClientSocketFactory built from the trust store

  /** Every field of a Server (or of a Builder), in constructor order. */
  datatype Description = Description(
    alias: Option<string>,
    host: Option<string>,
    port: Option<string>,
    username: Option<string>,
    password: Option<string>,
    protocolProviderPackages: Option<string>,
    url: Option<string>,
    cronExpression: Option<string>,
    numQueryThreads: Option<int>,
    local: bool,
    queries: seq<Query>,
    trustStorePath: Option<string>,
    trustStorePass: Option<string>)

  /** A description with every field null, false or empty, as `Server.builder()` starts. */
  const Blank: Description :=
    Description(None, None, None, None, None, None, None, None, None, false, [], None, None)

  /** Every element of `xs` appears once. */
  predicate NoDuplicates(xs: seq<Query>) {
    forall i, j :: 0 <= i < j < |xs| ==> xs[i] != xs[j]
  }

  /** `ImmutableSet.copyOf(list)`: the first occurrence of each element, in list order. */
  function Distinct(xs: seq<Query>): (r: seq<Query>)
    ensures forall x :: x in r <==> x in xs
    ensures NoDuplicates(r)
    ensures NoDuplicates(xs) ==> r == xs
    decreases |xs|
  {
    if xs == [] then []
    else
      var init := xs[..|xs| - 1];
      var last := xs[|xs| - 1];
      assert forall x :: x in xs <==> x in init || x == last;
      if last in init then Distinct(init) else Distinct(init) + [last]
  }

  /** The url `getUrl` derives from host and port. */
  function StandardUrl(host: string, port: string): string {
    Front + host + ":" + port + Back
  }

  /** `url.substring(url.lastIndexOf("//") + 2, url.lastIndexOf(':'))`, which throws when the bounds cross. */
  function HostFromUrl(url: string): (r: Outcome<string>)
    ensures r.Thrown? <==> LastIndexOf(url, "//") + 2 > LastIndexOf(url, ":")
    ensures r.Thrown? ==> r.failure == IndexOutOfBounds
    ensures ':' !in url ==> r.Thrown?
    // otherwise the host is the text strictly between the last "//" and the last ':'
    ensures r.Ok? ==>
      && 0 <= LastIndexOf(url, "//") + 2 <= LastIndexOf(url, ":") < |url|
      && r.value == url[LastIndexOf(url, "//") + 2..LastIndexOf(url, ":")]
  {
    var begin := LastIndexOf(url, "//") + 2;
    var end := LastIndexOf(url, ":");
    ContainsSingle(url, ':');
    if begin <= end then Ok(url[begin..end]) else Thrown(IndexOutOfBounds)
  }

  /** `extractPortFromUrl`: the text after the last ':', cut at its first '/'. */
  function PortFromUrl(url: string): (p: string)
    ensures ':' !in p && '/' !in p
    // the port is the text after the last ':' (the whole url if there is none), up to its first '/'
    ensures LastIndexOf(url, ":") + 1 <= |url|
    ensures var rest := url[LastIndexOf(url, ":") + 1..];
      p <= rest && (p == rest || rest[|p|] == '/')
  {
    var i := LastIndexOf(url, ":");
    var computed := url[i + 1..];
    assert ':' !in computed by {
      if ':' in computed {
        var k :| 0 <= k < |computed| && computed[k] == ':';
        OccursSingle(url, ':', i + 1 + k);
      }
    }
    ContainsSingle(computed, '/');
    if Contains(computed, "/") then computed[..FirstIndex(computed, '/')] else computed
  }

  /** A host that survives the round trip through the standard url. */
  predicate UrlSafeHost(h: string) {
    ':' !in h && !Contains(h, "//") && (h == [] || h[0] != '/')
  }

  /** A port that survives the round trip through the standard url. */
  predicate UrlSafePort(p: string) {
    ':' !in p && '/' !in p
  }

  /** No two consecutive slashes. */
  predicate NoDoubleSlash(s: string) {
    forall i :: 0 <= i < |s| - 1 ==> !(s[i] == '/' && s[i + 1] == '/')
  }

  lemma NoDoubleSlashConcat(a: string, b: string)
    requires NoDoubleSlash(a) && NoDoubleSlash(b)
    requires a == [] || b == [] || a[|a| - 1] != '/' || b[0] != '/'
    ensures NoDoubleSlash(a + b)
  {
    var s := a + b;
    forall i | 0 <= i < |s| - 1
      ensures !(s[i] == '/' && s[i + 1] == '/')
    {
      if i + 1 < |a| {
        assert s[i] == a[i] && s[i + 1] == a[i + 1];
      } else if i >= |a| {
        assert s[i] == b[i - |a|] && s[i + 1] == b[i - |a| + 1];
      }
    }
  }

  lemma NoDoubleSlashFromContains(h: string)
    requires !Contains(h, "//")
    ensures NoDoubleSlash(h)
  {
    forall i | 0 <= i < |h| - 1
      ensures !(h[i] == '/' && h[i + 1] == '/')
    {
      assert !OccursAt(h, "//", i);
      assert h[i..i + 2] == [h[i], h[i + 1]];
    }
  }

  lemma NoSlashNoDoubleSlash(p: string)
    requires '/' !in p
    ensures NoDoubleSlash(p)
  {
    forall i | 0 <= i < |p| - 1
      ensures !(p[i] == '/' && p[i + 1] == '/')
    {
      assert p[i] in p;
    }
  }

  /** An occurrence with none after it is the last one. */
  lemma LastIndexIs(s: string, t: string, k: int)
    requires OccursAt(s, t, k)
    requires forall j :: k < j ==> !OccursAt(s, t, j)
    ensures LastIndexOf(s, t) == k
  {
    var last := LastIndexOf(s, t);
    assert last < k ==> !OccursAt(s, t, k);
  }

  /** In the standard url the last "//" is the one that closes Front. */
  lemma StandardUrlLastSlashes(h: string, p: string)
    requires UrlSafeHost(h) && UrlSafePort(p)
    ensures LastIndexOf(StandardUrl(h, p), "//") == |Front| - 2
  {
    var url := StandardUrl(h, p);
    var tail := "/" + h + ":" + p + Back;
    assert url == Front[..29] + tail;
    NoDoubleSlashFromContains(h);
    NoSlashNoDoubleSlash(p);
    NoDoubleSlashConcat("/", h);
    NoDoubleSlashConcat("/" + h, ":");
    NoDoubleSlashConcat("/" + h + ":", p);
    assert NoDoubleSlash(Back);
    NoDoubleSlashConcat("/" + h + ":" + p, Back);
    assert url[28..30] == "//";
    forall k | 28 < k && k + 2 <= |url|
      ensures !OccursAt(url, "//", k)
    {
      assert url[k] == tail[k - 29] && url[k + 1] == tail[k - 28];
      assert !(tail[k - 29] == '/' && tail[k - 28] == '/');
      var pair := url[k..k + 2];
      assert pair[0] == url[k] && pair[1] == url[k + 1];
    }
    LastIndexIs(url, "//", 28);
  }

  /** In the standard url the last ':' is the one before the port. */
  lemma StandardUrlLastColon(h: string, p: string)
    requires UrlSafeHost(h) && UrlSafePort(p)
    ensures LastIndexOf(StandardUrl(h, p), ":") == |Front| + |h|
  {
    var url := StandardUrl(h, p);
    var colon := |Front| + |h|;
    assert url[colon] == ':';
    OccursSingle(url, ':', colon);
    forall k | k > colon
      ensures !OccursAt(url, ":", k)
    {
      OccursSingle(url, ':', k);
      if colon < k < colon + 1 + |p| {
        assert url[k] == p[k - colon - 1];
      } else if k >= colon + 1 + |p| && k < |url| {
        assert url[k] == Back[k - colon - 1 - |p|];
      }
    }
    LastIndexIs(url, ":", colon);
  }

  /**
   * A url built by `getUrl` from a host and port gives back that host and that
   * port when parsed by `getHost` and `getPort`.
   */
  lemma UrlRoundTrip(h: string, p: string)
    requires UrlSafeHost(h) && UrlSafePort(p)
    ensures HostFromUrl(StandardUrl(h, p)) == Ok(h)
    ensures PortFromUrl(StandardUrl(h, p)) == p
  {
    var url := StandardUrl(h, p);
    StandardUrlLastSlashes(h, p);
    StandardUrlLastColon(h, p);
    var colon := |Front| + |h|;
    assert url[|Front|..colon] == h;
    var computed := url[colon + 1..];
    assert computed == p + Back;
    assert computed[|p|] == '/';
    assert computed[..|p|] == p;
    FirstIndexAt(computed, '/', |p|);
    ContainsSingle(computed, '/');
  }

  /** One JMX endpoint. Every field is final except the trust-store path and passphrase. */
  class Server {
    const alias: Option<string>
    const host: Option<string>
    const port: Option<string>
    const username: Option<string>
    const password: Option<string>
    const protocolProviderPackages: Option<string>
    const url: Option<string>
    const cronExpression: Option<string>
    const numQueryThreads: Option<int>
    const local: bool
    const queries: seq<Query>
    var trustStorePath: Option<string>
    var trustStorePass: Option<string>

    function Fields(): Description
      reads this
    {
      Description(alias, host, port, username, password, protocolProviderPackages, url,
                  cronExpression, numQueryThreads, local, queries, trustStorePath, trustStorePass)
    }

    /** The queries form a set. */
    predicate Valid() {
      NoDuplicates(queries)
    }

    /** The JSON creator: the query list becomes a set; construction never checks host, port or url. */
    constructor (d: Description)
      ensures Fields() == d.(queries := Distinct(d.queries))
      ensures Valid()
    {
      alias := d.alias;
      host := d.host;
      port := d.port;
      username := d.username;
      password := d.password;
      protocolProviderPackages := d.protocolProviderPackages;
      url := d.url;
      cronExpression := d.cronExpression;
      numQueryThreads := d.numQueryThreads;
      local := d.local;
      queries := Distinct(d.queries);
      trustStorePath := d.trustStorePath;
      trustStorePass := d.trustStorePass;
    }

    method SetTrustStorePath(path: Option<string>)
      modifies this
      ensures Fields() == old(Fields()).(trustStorePath := path)
    {
      trustStorePath := path;
    }

    method SetTrustStorePass(pass: Option<string>)
      modifies this
      ensures Fields() == old(Fields()).(trustStorePass := pass)
    {
      trustStorePass := pass;
    }

    /** `getUrl`: an explicit url wins; otherwise it is derived, and without host or port that fails. */
    function GetUrl(): (r: Outcome<string>)
      ensures url.Some? ==> r == Ok(url.value)
      ensures r.Thrown? <==> url.None? && (host.None? || port.None?)
      ensures r.Thrown? ==> r.failure == Runtime
      ensures url.None? && r.Ok? ==> r.value == StandardUrl(host.value, port.value)
    {
      if url.Some? then Ok(url.value)
      else if host.None? || port.None? then Thrown(Runtime)
      else Ok(StandardUrl(host.value, port.value))
    }

    /** `getHost`: the explicit host, or the one parsed out of the url. */
    function GetHost(): (r: Outcome<string>)
      ensures host.Some? ==> r == Ok(host.value)
      ensures host.None? && url.None? ==> r == Thrown(IllegalState)
      ensures host.None? && url.Some? ==> r == HostFromUrl(url.value)
    {
      if host.None? && url.None? then Thrown(IllegalState)
      else if host.Some? then Ok(host.value)
      else HostFromUrl(url.value)
    }

    /** `getPort`: the explicit port, or the one parsed out of the url. */
    function GetPort(): (r: Outcome<string>)
      ensures port.Some? ==> r == Ok(port.value)
      ensures port.None? && url.None? ==> r == Thrown(IllegalState)
      ensures port.None? && url.Some? ==> r == Ok(PortFromUrl(url.value))
    {
      if port.None? && url.None? then Thrown(IllegalState)
      else if port.Some? then Ok(port.value)
      else Ok(PortFromUrl(url.value))
    }

    /** `isQueriesMultiThreaded`. */
    function IsQueriesMultiThreaded(): (b: bool)
      ensures b <==> numQueryThreads.Some? && numQueryThreads.value > 0
    {
      numQueryThreads.Some? && numQueryThreads.value > 0
    }

    /** `getEnvironment`: the credentials and socket-factory entries of the connection environment. */
    method GetEnvironment() returns (env: map<string, EnvValue>)
      ensures env.Keys <= {ProtocolProviderPackagesKey, SecurityPrincipalKey, SecurityCredentialsKey,
                           CredentialsKey, SocketFactoryKey}
      ensures CredentialsKey in env <==> username.Some? && password.Some?
      ensures CredentialsKey in env ==> env[CredentialsKey] == Credentials(username.value, password.value)
      ensures ProtocolProviderPackagesKey in env <==>
        && protocolProviderPackages.Some? && Contains(protocolProviderPackages.value, "weblogic")
        && username.Some? && password.Some?
      ensures SecurityPrincipalKey in env <==> ProtocolProviderPackagesKey in env
      ensures SecurityCredentialsKey in env <==> ProtocolProviderPackagesKey in env
      ensures ProtocolProviderPackagesKey in env ==>
        && env[ProtocolProviderPackagesKey] == Setting(protocolProviderPackages.value)
        && env[SecurityPrincipalKey] == Setting(username.value)
        && env[SecurityCredentialsKey] == Setting(password.value)
      ensures SocketFactoryKey in env <==> trustStorePath.Some?
    {
      env := map[];
      if protocolProviderPackages.Some? && Contains(protocolProviderPackages.value, "weblogic") {
        if username.Some? && password.Some? {
          env := env[ProtocolProviderPackagesKey := Setting(protocolProviderPackages.value)];
          env := env[SecurityPrincipalKey := Setting(username.value)];
          env := env[SecurityCredentialsKey := Setting(password.value)];
        }
      }
      if username.Some? && password.Some? {
        env := env[CredentialsKey := Credentials(username.value, password.value)];
      }
      if trustStorePath.Some? {
        env := env[SocketFactoryKey := SslSocketFactory];
      }
    }
  }

  /** The url `getUrl` derives parses back, through `getHost` and `getPort`, to the server's own host and port. */
  lemma DerivedUrlRoundTrip(s: Server)
    requires s.url.None? && s.host.Some? && s.port.Some?
    requires UrlSafeHost(s.host.value) && UrlSafePort(s.port.value)
    ensures s.GetUrl().Ok?
    ensures HostFromUrl(s.GetUrl().value) == s.GetHost()
    ensures Ok(PortFromUrl(s.GetUrl().value)) == s.GetPort()
  {
    UrlRoundTrip(s.host.value, s.port.value);
  }

  /**
   * A server that has only the url another server derives has the same host
   * and port as that server.
   */
  lemma UrlOnlyServerSameAddress(s: Server, t: Server)
    requires s.url.None? && s.host.Some? && s.port.Some?
    requires UrlSafeHost(s.host.value) && UrlSafePort(s.port.value)
    requires t.host.None? && t.port.None? && t.url == Some(StandardUrl(s.host.value, s.port.value))
    ensures t.GetHost() == s.GetHost() && t.GetPort() == s.GetPort()
  {
    UrlRoundTrip(s.host.value, s.port.value);
  }

  /** `Server.Builder`: a mutable copy of every field, with the queries as a list. */
  class Builder {
    var alias: Option<string>
    var host: Option<string>
    var port: Option<string>
    var username: Option<string>
    var password: Option<string>
    var protocolProviderPackages: Option<string>
    var url: Option<string>
    var cronExpression: Option<string>
    var numQueryThreads: Option<int>
    var local: bool
    var queries: seq<Query>
    var trustStorePath: Option<string>
    var trustStorePass: Option<string>

    function Fields(): Description
      reads this
    {
      Description(alias, host, port, username, password, protocolProviderPackages, url,
                  cronExpression, numQueryThreads, local, queries, trustStorePath, trustStorePass)
    }

    /** `Server.builder()`. */
    constructor ()
      ensures Fields() == Blank
    {
      alias, host, port, username, password := None, None, None, None, None;
      protocolProviderPackages, url, cronExpression, numQueryThreads := None, None, None, None;
      local, queries, trustStorePath, trustStorePass := false, [], None, None;
    }

    /** `Server.builder(server)`: copies every field and all queries. */
    constructor FromServer(server: Server)
      ensures Fields() == server.Fields()
    {
      alias, host, port := server.alias, server.host, server.port;
      username, password := server.username, server.password;
      protocolProviderPackages, url := server.protocolProviderPackages, server.url;
      cronExpression, numQueryThreads, local := server.cronExpression, server.numQueryThreads, server.local;
      trustStorePath, trustStorePass := server.trustStorePath, server.trustStorePass;
      queries := [] + server.queries;
    }

    method SetAlias(v: Option<string>)
      modifies this
      ensures Fields() == old(Fields()).(alias := v)
    {
      alias := v;
    }

    method SetHost(v: Option<string>)
      modifies this
      ensures Fields() == old(Fields()).(host := v)
    {
      host := v;
    }

    method SetPort(v: Option<string>)
      modifies this
      ensures Fields() == old(Fields()).(port := v)
    {
      port := v;
    }

    method SetUsername(v: Option<string>)
      modifies this
      ensures Fields() == old(Fields()).(username := v)
    {
      username := v;
    }

    method SetPassword(v: Option<string>)
      modifies this
      ensures Fields() == old(Fields()).(password := v)
    {
      password := v;
    }

    method SetProtocolProviderPackages(v: Option<string>)
      modifies this
      ensures Fields() == old(Fields()).(protocolProviderPackages := v)
    {
      protocolProviderPackages := v;
    }

    method SetUrl(v: Option<string>)
      modifies this
      ensures Fields() == old(Fields()).(url := v)
    {
      url := v;
    }

    method SetCronExpression(v: Option<string>)
      modifies this
      ensures Fields() == old(Fields()).(cronExpression := v)
    {
      cronExpression := v;
    }

    method SetNumQueryThreads(v: Option<int>)
      modifies this
      ensures Fields() == old(Fields()).(numQueryThreads := v)
    {
      numQueryThreads := v;
    }

    method SetLocal(v: bool)
      modifies this
      ensures Fields() == old(Fields()).(local := v)
    {
      local := v;
    }

    method SetTrustStorePath(v: Option<string>)
      modifies this
      ensures Fields() == old(Fields()).(trustStorePath := v)
    {
      trustStorePath := v;
    }

    method SetTrustStorePass(v: Option<string>)
      modifies this
      ensures Fields() == old(Fields()).(trustStorePass := v)
    {
      trustStorePass := v;
    }

    /** `addQuery`: appends one query. */
    method AddQuery(q: Query)
      modifies this
      ensures Fields() == old(Fields()).(queries := old(queries) + [q])
    {
      queries := queries + [q];
    }

    /** `addQueries(Query...)`: appends the queries in argument order. */
    method AddQueries(qs: seq<Query>)
      modifies this
      ensures Fields() == old(Fields()).(queries := old(queries) + qs)
    {
      queries := queries + qs;
    }

    /** `addQueries(Set<Query>)`: appends each query of the set once, in the set's iteration order. */
    method AddQuerySet(qs: set<Query>)
      modifies this
      ensures Fields() == old(Fields()).(queries := queries)
      ensures |queries| == |old(queries)| + |qs| && queries[..|old(queries)|] == old(queries)
      ensures forall q :: q in queries[|old(queries)|..] <==> q in qs
      ensures NoDuplicates(queries[|old(queries)|..])
    {
      var rest := qs;
      ghost var added: seq<Query> := [];
      while rest != {}
        invariant rest <= qs
        invariant queries == old(queries) + added
        invariant |added| + |rest| == |qs|
        invariant forall q :: q in added <==> q in qs - rest
        invariant NoDuplicates(added)
        invariant Fields() == old(Fields()).(queries := queries)
        decreases rest
      {
        var q :| q in rest;
        assert q !in added;
        queries := queries + [q];
        added := added + [q];
        rest := rest - {q};
      }
      assert queries[|old(queries)|..] == added;
    }

    /** `build()`: a new Server with this builder's fields; the query list becomes a set. */
    method Build() returns (s: Server)
      ensures fresh(s)
      ensures s.Fields() == Fields().(queries := Distinct(queries))
    {
      s := new Server(Fields());
    }
  }

  /**
   * Whether a built server queries in several threads is decided by the
   * thread count given to its builder: a positive count, yes; a count of
   * zero or less, or none (a blank builder), no.
   */
  method BuiltMultiThreaded(n: Option<int>) returns (threaded: bool, blankThreaded: bool)
    ensures threaded <==> n.Some? && n.value > 0
    ensures !blankThreaded
  {
    var b := new Builder();
    b.SetNumQueryThreads(n);
    var server := b.Build();
    threaded := server.IsQueriesMultiThreaded();
    var blank := new Builder();
    var plain := blank.Build();
    blankThreaded := plain.IsQueriesMultiThreaded();
  }

  /** Building from a copy of a server gives a server with the same fields: the query set survives unchanged. */
  method Rebuild(server: Server) returns (copy: Server)
    requires server.Valid()
    ensures fresh(copy)
    ensures copy.Fields() == server.Fields()
  {
    var b := new Builder.FromServer(server);
    copy := b.Build();
  }
}
