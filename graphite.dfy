/** The Graphite client of index.js.

    A client is built once from an identity (environment, application,
    server name) and caches the metric path prefix `apps.<env>.<app>.<server>`.
    Each `Write` validates its per-call tokens and value and then submits a
    one-entry mapping `{prefix.source.type.client: value}`, a timestamp and
    the caller's callback to the metric sink.

    The sink (the `graphite` library's client) is modelled as a log of the
    submissions it receives; the wall clock (`Date.now()`) is a parameter.
 */
module Graphite {
  import opened MetricPaths

  const ParamErrorMsg: string := "Graphite initialization parameters are missing or malformed"
  const MetricErrorMsg: string :=
    "Unable to upload metric into Graphite because some parameters were missing or malformed"
  const DefaultServerName: string := "bbserver"
  /** The top-level path token every prefix starts with. */
  const Namespace: string := "apps"

  datatype Result<+T, +E> = Ok(value: T) | Err(error: E)

  /** The three construction-time path tokens of one client. */
  datatype Identity = Identity(environment: string, application: string, serverName: string) {
    predicate Valid() {
      IsToken(Some(environment)) && IsToken(Some(application)) && IsToken(Some(serverName))
    }

    /** `['apps', env, app, server].join('.')`: it starts with `apps.`, and
        for a valid identity it holds exactly three separators. */
    function Prefix(): (r: string)
      ensures Namespace + [Separator] <= r
      ensures Valid() ==> Dots(r) == 3
    {
      JoinOfFour(Namespace, environment, application, serverName);
      assert Dots(Namespace) == 0;
      Join([Namespace, environment, application, serverName])
    }
  }

  /** The server name the constructor goes on with: the default when the
      argument is falsy.  It is never falsy itself, and it passes the naming
      rule unless a dotted name was given. */
  function ResolveServerName(metricServerName: Option<string>): (r: Option<string>)
    ensures !Falsy(r)
    ensures IsToken(r) <==> Falsy(metricServerName) || DotFree(metricServerName.value)
  {
    assert DotFree(DefaultServerName);
    if Falsy(metricServerName) then Some(DefaultServerName) else metricServerName
  }

  /** What the constructor decides: the identity it caches, or the error it
      throws.  Construction fails exactly when the environment or the
      application is falsy or dotted, or a server name is given that is
      dotted (a falsy one is replaced by the default, which passes). */
  function ResolveIdentity(
    metricEnvironment: Option<string>,
    metricApplication: Option<string>,
    metricServerName: Option<string>
  ): (r: Result<Identity, string>)
    ensures r.Err? <==>
      || Falsy(metricEnvironment) || Separator in metricEnvironment.value
      || Falsy(metricApplication) || Separator in metricApplication.value
      || (!Falsy(metricServerName) && Separator in metricServerName.value)
    ensures r.Err? ==> r.error == ParamErrorMsg
    ensures r.Ok? ==> r.value.Valid()
    ensures r.Ok? ==>
      && r.value.environment == metricEnvironment.value
      && r.value.application == metricApplication.value
      && r.value.serverName == (if Falsy(metricServerName) then DefaultServerName else metricServerName.value)
  {
    var server := ResolveServerName(metricServerName);
    if !IsToken(metricEnvironment) || !IsToken(metricApplication) || !IsToken(server) then
      Err(ParamErrorMsg)
    else
      Ok(Identity(metricEnvironment.value, metricApplication.value, server.value))
  }

  /** A successfully built client's prefix reads back, split on `.`, as the
      namespace followed by the three identity tokens, with the default server
      name when none was given. */
  lemma ResolvedPrefix(
    metricEnvironment: Option<string>,
    metricApplication: Option<string>,
    metricServerName: Option<string>
  )
    requires ResolveIdentity(metricEnvironment, metricApplication, metricServerName).Ok?
    ensures var id := ResolveIdentity(metricEnvironment, metricApplication, metricServerName).value;
      Split(id.Prefix()) ==
        [Namespace, metricEnvironment.value, metricApplication.value,
         if Falsy(metricServerName) then DefaultServerName else metricServerName.value]
  {
    PrefixSegments(ResolveIdentity(metricEnvironment, metricApplication, metricServerName).value);
  }

  /** Leaving the server name out is the same as passing the default. */
  lemma AbsentServerIsDefault(metricEnvironment: Option<string>, metricApplication: Option<string>,
                              metricServerName: Option<string>)
    requires Falsy(metricServerName)
    ensures ResolveIdentity(metricEnvironment, metricApplication, metricServerName)
         == ResolveIdentity(metricEnvironment, metricApplication, Some(DefaultServerName))
  {
  }

  /** The prefix of a valid identity splits into its four tokens. */
  lemma PrefixSegments(id: Identity)
    requires id.Valid()
    ensures Split(id.Prefix()) == [Namespace, id.environment, id.application, id.serverName]
  {
    assert DotFree(Namespace);
    SplitJoin([Namespace, id.environment, id.application, id.serverName]);
  }

  /** Distinct valid identities never share a prefix. */
  lemma PrefixInjective(a: Identity, b: Identity)
    requires a.Valid() && b.Valid()
    requires a.Prefix() == b.Prefix()
    ensures a == b
  {
    PrefixSegments(a);
    PrefixSegments(b);
  }

  /** JavaScript `typeof metricValue`: only a number passes. */
  datatype MetricValue = Number(n: real) | NotNumber

  /** An opaque caller-supplied callback, compared only for identity. */
  datatype Callback = Callback(id: nat)

  /** One call of the sink's `write(metric, timestamp, callback)`. */
  datatype Submission = Submission(metric: map<string, real>, timestamp: int, callback: Callback)

  /** How a `Write` call ends: it throws, it reports an error through the
      callback without touching the sink, or it hands the metric to the sink. */
  datatype WriteOutcome = Threw(message: string) | Reported(callback: Callback, message: string) | Submitted

  /** The per-call validation of `write` (the callback aside). */
  predicate WriteArgumentsValid(metricType: Option<string>, metricClient: Option<string>, metricValue: MetricValue) {
    IsToken(metricClient) && IsToken(metricType) && metricValue.Number?
  }

  /** `[prefix, source, type, client].join('.')`: the key is filed under the
      client's prefix, and with dot-free source, type and client it adds
      exactly three separators to those of the prefix. */
  function MetricKey(prefix: string, metricSource: Option<string>, metricType: string, metricClient: string): (r: string)
    ensures prefix + [Separator] <= r
    ensures DotFree(JoinElement(metricSource)) && DotFree(metricType) && DotFree(metricClient) ==>
      Dots(r) == Dots(prefix) + 3
  {
    JoinOfFour(prefix, JoinElement(metricSource), metricType, metricClient);
    Join([prefix, JoinElement(metricSource), metricType, metricClient])
  }

  /** The key of a metric splits into the seven tokens it is built from
      whenever the (unchecked) source token is dot-free. */
  lemma KeySegments(id: Identity, metricSource: Option<string>, metricType: string, metricClient: string)
    requires id.Valid()
    requires IsToken(Some(metricType)) && IsToken(Some(metricClient))
    requires DotFree(JoinElement(metricSource))
    ensures Split(MetricKey(id.Prefix(), metricSource, metricType, metricClient)) ==
      [Namespace, id.environment, id.application, id.serverName,
       JoinElement(metricSource), metricType, metricClient]
  {
    var prefix, src := id.Prefix(), JoinElement(metricSource);
    var head := KeySplitsAtTail(prefix, metricSource, metricType, metricClient);
    SplitConcat(prefix, src);
    PrefixSegments(id);
    SplitToken(src);
  }

  /** The key has seven segments plus one per dot in the source, so exactly
      seven if and only if the unchecked source is dot-free; a dotted source
      shifts the positions of the segments that follow it. */
  lemma KeySegmentCount(id: Identity, metricSource: Option<string>, metricType: string, metricClient: string)
    requires id.Valid()
    requires IsToken(Some(metricType)) && IsToken(Some(metricClient))
    ensures |Split(MetricKey(id.Prefix(), metricSource, metricType, metricClient))|
         == 7 + Dots(JoinElement(metricSource))
    ensures |Split(MetricKey(id.Prefix(), metricSource, metricType, metricClient))| == 7
        <==> DotFree(JoinElement(metricSource))
  {
    var key, src := MetricKey(id.Prefix(), metricSource, metricType, metricClient), JoinElement(metricSource);
    JoinOfFour(id.Prefix(), src, metricType, metricClient);
    DotFreeHasNoDots(metricType);
    DotFreeHasNoDots(metricClient);
    DotFreeHasNoDots(src);
    SplitPieces(key);
  }

  /** A four-element join spelled out, with its separator count. */
  lemma JoinOfFour(a: string, b: string, c: string, d: string)
    ensures Join([a, b, c, d]) == a + [Separator] + b + [Separator] + c + [Separator] + d
    ensures Dots(Join([a, b, c, d])) == Dots(a) + Dots(b) + Dots(c) + Dots(d) + 3
  {
    var sep := [Separator];
    assert [a, b, c, d][1..] == [b, c, d];
    assert [b, c, d][1..] == [c, d];
    assert [c, d][1..] == [d];
    assert Join([c, d]) == c + sep + d;
    assert Join([b, c, d]) == b + sep + (c + sep + d);
    assert Join([a, b, c, d]) == a + sep + (b + sep + (c + sep + d));
    var j := a + sep + b + sep + c + sep + d;
    assert j == a + sep + (b + sep + (c + sep + d));
    assert multiset(j) == multiset(a) + multiset(sep) + multiset(b) + multiset(sep)
                        + multiset(c) + multiset(sep) + multiset(d);
  }

  /** Under one prefix, a key determines the (source, type, client) triple it
      was built from, whether or not the unchecked source contains dots: a
      dotted source only shifts where the segments fall. */
  lemma KeyInjective(prefix: string, s1: Option<string>, t1: string, c1: string,
                     s2: Option<string>, t2: string, c2: string)
    requires IsToken(Some(t1)) && IsToken(Some(c1))
    requires IsToken(Some(t2)) && IsToken(Some(c2))
    requires MetricKey(prefix, s1, t1, c1) == MetricKey(prefix, s2, t2, c2)
    ensures JoinElement(s1) == JoinElement(s2) && t1 == t2 && c1 == c2
  {
    var a1 := KeySplitsAtTail(prefix, s1, t1, c1);
    var a2 := KeySplitsAtTail(prefix, s2, t2, c2);
    var x1, x2 := Split(a1), Split(a2);
    assert x1 + [t1, c1] == x2 + [t2, c2];
    assert |x1| == |x2|;
    assert x1 == (x1 + [t1, c1])[..|x1|];
    assert x2 == (x2 + [t2, c2])[..|x2|];
    JoinSplit(a1);
    JoinSplit(a2);
    var n := |prefix| + 1;
    assert JoinElement(s1) == a1[n..] && JoinElement(s2) == a2[n..];
    assert (x1 + [t1, c1])[|x1|] == t1 && (x1 + [t1, c1])[|x1| + 1] == c1;
  }

  /** Splitting a key whose type and client are dot-free ends with those two
      segments, after the pieces of `prefix.source`, which is returned. */
  lemma KeySplitsAtTail(prefix: string, metricSource: Option<string>, metricType: string, metricClient: string)
    returns (head: string)
    requires DotFree(metricType) && DotFree(metricClient)
    ensures head == prefix + [Separator] + JoinElement(metricSource)
    ensures Split(MetricKey(prefix, metricSource, metricType, metricClient)) == Split(head) + [metricType, metricClient]
  {
    var sep, src := [Separator], JoinElement(metricSource);
    head := prefix + sep + src;
    JoinOfFour(prefix, src, metricType, metricClient);
    var rest := metricType + sep + metricClient;
    assert MetricKey(prefix, metricSource, metricType, metricClient) == head + sep + rest;
    SplitConcat(head, rest);
    SplitCons(metricType, metricClient);
    SplitToken(metricClient);
  }

  /** The external metric sink: the connection `graphite.createClient`
      returns, reduced to the log of what was written to it. */
  class Sink {
    var submissions: seq<Submission>

    constructor ()
      ensures submissions == []
    {
      submissions := [];
    }

    method Write(metric: map<string, real>, timestamp: int, callback: Callback)
      modifies this
      ensures submissions == old(submissions) + [Submission(metric, timestamp, callback)]
    {
      submissions := submissions + [Submission(metric, timestamp, callback)];
    }
  }

  class GraphiteClient {
    const client: Sink
    const metricPathPrefix: string
    ghost const identity: Identity

    /** The cached prefix is that of a valid identity. */
    ghost predicate Valid() {
      identity.Valid() && metricPathPrefix == identity.Prefix()
    }

    constructor (id: Identity)
      requires id.Valid()
      ensures Valid() && identity == id
      ensures fresh(client) && client.submissions == []
    {
      client := new Sink();
      identity := id;
      metricPathPrefix := Join([Namespace, id.environment, id.application, id.serverName]);
    }

    /** `new GraphiteClient(env, app, server)`: throws `ParamErrorMsg`
        (an `Err`) or gives a fresh client whose prefix is cached. */
    static method Create(
      metricEnvironment: Option<string>,
      metricApplication: Option<string>,
      metricServerName: Option<string>
    ) returns (r: Result<GraphiteClient, string>)
      ensures ResolveIdentity(metricEnvironment, metricApplication, metricServerName).Err? ==>
        r == Err(ParamErrorMsg)
      ensures ResolveIdentity(metricEnvironment, metricApplication, metricServerName).Ok? ==>
        && r.Ok?
        && r.value.Valid()
        && r.value.identity == ResolveIdentity(metricEnvironment, metricApplication, metricServerName).value
        && fresh(r.value) && fresh(r.value.client) && r.value.client.submissions == []
    {
      var server := metricServerName;
      if Falsy(server) {
        server := Some(DefaultServerName);
      }
      if !IsToken(metricEnvironment) || !IsToken(metricApplication) || !IsToken(server) {
        return Err(ParamErrorMsg);
      }
      var c := new GraphiteClient(Identity(metricEnvironment.value, metricApplication.value, server.value));
      return Ok(c);
    }

    /** `write(source, type, client, value, callback)` at wall-clock time
        `now`.  A missing callback throws before anything else is looked at;
        invalid arguments are reported through the callback and leave the sink
        alone; otherwise the sink receives exactly one submission: the
        one-entry mapping from the composed key to the value, `now`, and the
        caller's callback unchanged. */
    method Write(
      metricSource: Option<string>,
      metricType: Option<string>,
      metricClient: Option<string>,
      metricValue: MetricValue,
      callback: Option<Callback>,
      now: int
    ) returns (outcome: WriteOutcome)
      requires Valid()
      modifies client
      ensures callback.None? ==>
        outcome == Threw(MetricErrorMsg) && client.submissions == old(client.submissions)
      ensures callback.Some? && !WriteArgumentsValid(metricType, metricClient, metricValue) ==>
        outcome == Reported(callback.value, MetricErrorMsg) && client.submissions == old(client.submissions)
      ensures callback.Some? && WriteArgumentsValid(metricType, metricClient, metricValue) ==>
        && outcome == Submitted
        && client.submissions == old(client.submissions) + [Submission(
             map[MetricKey(identity.Prefix(), metricSource, metricType.value, metricClient.value) := metricValue.n],
             now, callback.value)]
    {
      if callback.None? {
        return Threw(MetricErrorMsg);
      }
      if !IsToken(metricClient) || !IsToken(metricType) || !metricValue.Number? {
        return Reported(callback.value, MetricErrorMsg);
      }
      var metric: map<string, real> := map[];
      var path := Join([metricPathPrefix, JoinElement(metricSource), metricType.value, metricClient.value]);
      metric := metric[path := metricValue.n];
      client.Write(metric, now, callback.value);
      return Submitted;
    }
  }

  /** Two identical `Write` calls on one client end the same way and, when
      they submit, append two entries with the same mapping that differ only
      in their timestamps, keeping all earlier entries: `Write` reads the
      cached prefix and changes no state of the client itself. */
  method RepeatedWrites(
    c: GraphiteClient,
    metricSource: Option<string>,
    metricType: Option<string>,
    metricClient: Option<string>,
    metricValue: MetricValue,
    callback: Option<Callback>,
    first: int,
    second: int
  ) returns (o1: WriteOutcome, o2: WriteOutcome)
    requires c.Valid()
    modifies c.client
    ensures o1 == o2
    ensures o1.Submitted? ==>
      && |c.client.submissions| == |old(c.client.submissions)| + 2
      && c.client.submissions[|c.client.submissions| - 2].metric
         == c.client.submissions[|c.client.submissions| - 1].metric
    ensures !o1.Submitted? ==> c.client.submissions == old(c.client.submissions)
    ensures o1.Submitted? <==> callback.Some? && WriteArgumentsValid(metricType, metricClient, metricValue)
    ensures callback.Some? && WriteArgumentsValid(metricType, metricClient, metricValue) ==>
      var m := map[MetricKey(c.identity.Prefix(), metricSource, metricType.value, metricClient.value) := metricValue.n];
      c.client.submissions == old(c.client.submissions)
        + [Submission(m, first, callback.value), Submission(m, second, callback.value)]
  {
    o1 := c.Write(metricSource, metricType, metricClient, metricValue, callback, first);
    o2 := c.Write(metricSource, metricType, metricClient, metricValue, callback, second);
  }

  /** A client built without a server name uses the default one, and a
      valid write submits one value under the seven-token key. */
  method ExampleSubmission(now: int) {
    var id := Identity("stage", "appName", DefaultServerName);
    assert id.Valid() && IsToken(Some("eventType")) && IsToken(Some("clientName"));
    var r := GraphiteClient.Create(Some("stage"), Some("appName"), None);
    assert ResolveIdentity(Some("stage"), Some("appName"), None) == Ok(id);
    var c := r.value;
    var ok := c.Write(Some("web"), Some("eventType"), Some("clientName"), Number(5.0), Some(Callback(1)), now);
    var key := MetricKey(id.Prefix(), Some("web"), "eventType", "clientName");
    assert ok == Submitted;
    assert c.client.submissions == [Submission(map[key := 5.0], now, Callback(1))];
    KeySegments(id, Some("web"), "eventType", "clientName");
    assert Split(key) == ["apps", "stage", "appName", "bbserver", "web", "eventType", "clientName"];
  }

  /** A dotted client token is reported through the callback and nothing
      reaches the sink. */
  method ExampleReportedError(now: int) {
    assert !IsToken(Some("client.name")) by { assert "client.name"[6] == Separator; }
    var r := GraphiteClient.Create(Some("stage"), Some("appName"), Some("serverName"));
    assert ResolveIdentity(Some("stage"), Some("appName"), Some("serverName")).Ok?;
    var c := r.value;
    var bad := c.Write(Some("web"), Some("eventType"), Some("client.name"), Number(5.0), Some(Callback(2)), now);
    assert bad == Reported(Callback(2), MetricErrorMsg);
    assert c.client.submissions == [];
  }

  /** A dotted server name fails construction. */
  method ExampleRejectedServer() {
    var rejected := GraphiteClient.Create(Some("stage"), Some("appName"), Some("server.name"));
    assert "server.name"[6] == Separator;
    assert rejected == Err(ParamErrorMsg);
  }
}
