/** The capability registry, the `Dataset` class: it normalises the dataset
    identifier, fetches the dataset's metadata once, registers one client per
    declared endpoint in the capability map, and forwards each high-level call
    to the first client registered for the capability it needs. */
module Datasets {
  import opened Core
  import opened Rdf
  import opened Http
  import opened Apis
  import SparqlResults

  const DataHost := "data.kasabi.com"
  const BetaHost := "beta.kasabi.com"
  /** "http://data.kasabi.com/dataset/", 31 characters. */
  const DataPrefix := "http://" + DataHost + "/dataset/"
  /** "http://beta.kasabi.com/dataset/". */
  const BetaPrefix := "http://" + BetaHost + "/dataset/"

  // ---------------------------------------------------------------------
  // Dataset identifiers

  datatype Identifier = Identifier(uid: string, uri: string)

  /** The `uid`/`uri` pair `Dataset.__init__` derives from a bare slug or a
      full dataset URI. */
  function Normalise(id: string): (r: Identifier)
    ensures r.uri == DataPrefix + r.uid
    ensures StartsWith(r.uri, DataPrefix)
    ensures StartsWith(id, DataPrefix) ==> r.uri == id
    ensures !StartsWith(id, DataPrefix) ==> r.uid == id
  {
    assert |DataPrefix| == 31;
    if StartsWith(id, DataPrefix) then
      assert id == id[..31] + id[31..];
      Identifier(id[31..], id)
    else
      assert (DataPrefix + id)[..31] == DataPrefix;
      Identifier(id, DataPrefix + id)
  }

  /** The slug and the full URI of a dataset name the same dataset. */
  lemma NormaliseBothSpellings(slug: string)
    requires !StartsWith(slug, DataPrefix)
    ensures Normalise(DataPrefix + slug) == Normalise(slug) == Identifier(slug, DataPrefix + slug)
  {
  }

  /** Normalising the URI of a normalised identifier changes nothing. */
  lemma NormaliseIdempotent(id: string)
    ensures Normalise(Normalise(id).uri) == Normalise(id)
  {
  }

  /** The subject `fetch_meta` looks for: the dataset URI with the host
      rewritten for the beta platform. */
  function BetaUri(uri: string): string
  {
    ReplaceAll(uri, DataHost, BetaHost)
  }

  /** For a normalised dataset URI the rewrite changes the prefix's host and
      then only occurrences of the host inside the slug. */
  lemma BetaUriOfDataset(uid: string)
    ensures BetaUri(DataPrefix + uid) == BetaPrefix + ReplaceAll(uid, DataHost, BetaHost)
  {
    var tail := ReplaceAll(uid, DataHost, BetaHost);
    UriSpelling(uid, tail);
    RewriteAfterScheme(uid);
  }

  /** The scheme is copied, the host rewritten, the path handled below. */
  lemma RewriteAfterScheme(uid: string)
    ensures ReplaceAll("http://" + (DataHost + ("/dataset/" + uid)), DataHost, BetaHost)
         == "http://" + (BetaHost + ("/dataset/" + ReplaceAll(uid, DataHost, BetaHost)))
  {
    RewritePath(uid);
    ReplaceAllAtMatch("/dataset/" + uid, DataHost, BetaHost);
    SchemeSpelling();
    ReplaceAllKeepsHead("http://", DataHost + ("/dataset/" + uid), DataHost, BetaHost);
  }

  /** The path part of a dataset URI holds no occurrence of the host before
      the slug. */
  lemma RewritePath(uid: string)
    ensures ReplaceAll("/dataset/" + uid, DataHost, BetaHost) == "/dataset/" + ReplaceAll(uid, DataHost, BetaHost)
  {
    var tail := ReplaceAll(uid, DataHost, BetaHost);
    PathSpelling(uid, tail);
    RewriteSegment(uid);
    ReplaceAllKeepsHead(['/'], "dataset/" + uid, DataHost, BetaHost);
  }

  /** "dataset/" begins like the host but differs from it at offset 4. */
  lemma RewriteSegment(uid: string)
    ensures ReplaceAll("dataset/" + uid, DataHost, BetaHost) == "dataset/" + ReplaceAll(uid, DataHost, BetaHost)
  {
    var tail := ReplaceAll(uid, DataHost, BetaHost);
    SegmentSpelling(uid, tail);
    ReplaceAllSkipsMismatch(['d'] + ("ataset/" + uid), DataHost, BetaHost, 4);
    ReplaceAllKeepsHead("ataset/", uid, DataHost, BetaHost);
  }

  // The spelling facts the rewrite proofs use, kept apart from them.

  lemma UriSpelling(uid: string, tail: string)
    ensures DataPrefix + uid == "http://" + (DataHost + ("/dataset/" + uid))
    ensures BetaPrefix + tail == "http://" + (BetaHost + ("/dataset/" + tail))
  {
  }

  lemma SchemeSpelling()
    ensures forall i :: 0 <= i < |"http://"| ==> "http://"[i] != DataHost[0]
  {
  }

  lemma PathSpelling(uid: string, tail: string)
    ensures "/dataset/" + uid == ['/'] + ("dataset/" + uid)
    ensures "/dataset/" + tail == ['/'] + ("dataset/" + tail)
    ensures DataHost[0] != '/'
  {
  }

  lemma SegmentSpelling(uid: string, tail: string)
    ensures "dataset/" + uid == ['d'] + ("ataset/" + uid)
    ensures "dataset/" + tail == ['d'] + ("ataset/" + tail)
    ensures (['d'] + ("ataset/" + uid))[4] != DataHost[4]
    ensures (['d'] + ("ataset/" + uid))[1..] == "ataset/" + uid
    ensures forall i :: 0 <= i < |"ataset/"| ==> "ataset/"[i] != DataHost[0]
  {
  }

  /** The data host occurs in every dataset URI, right after the scheme. */
  lemma PrefixHoldsHost(u: string)
    requires StartsWith(u, DataPrefix)
    ensures StartsWith(u[7..], DataHost)
  {
  }

  /** A slug that does not mention the data host is looked up on the beta
      host under the same slug. */
  lemma BetaUriOfPlainSlug(uid: string)
    requires forall i :: 0 <= i < |uid| ==> !StartsWith(uid[i..], DataHost)
    ensures BetaUri(Normalise(uid).uri) == BetaPrefix + Normalise(uid).uid
  {
    BetaUriOfDataset(Normalise(uid).uid);
    if StartsWith(uid, DataPrefix) {
      PrefixHoldsHost(uid);
      assert false;
    }
    ReplaceAllIdentity(uid, DataHost, BetaHost);
  }

  // ---------------------------------------------------------------------
  // The service-type table and the capability map

  /** `Dataset.service_types`: predicate URI to client class. */
  const ServiceTypes: map<string, ApiClass> := map[
    "http://rdfs.org/ns/void#sparqlEndpoint" := SparqlApi,
    "http://rdfs.org/ns/void#uriLookupEndpoint" := LookupApi,
    "http://labs.kasabi.com/ns/services#searchEndpoint" := SearchApi,
    "http://labs.kasabi.com/ns/services#augmentationEndpoint" := AugmentationApi,
    "http://labs.kasabi.com/ns/services#reconciliationEndpoint" := ReconciliationApi,
    "http://labs.kasabi.com/ns/services#storeEndpoint" := UpdateApi,
    "http://labs.kasabi.com/ns/services#statusEndpoint" := StatusApi,
    "http://labs.kasabi.com/ns/services#jobsEndpoint" := JobsApi,
    "http://labs.kasabi.com/ns/services#attributionEndpoint" := AttributionApi
  ]

  /** Every client class is the target of some predicate of the table. */
  lemma ServiceTypesCoverEveryClass(c: ApiClass)
    ensures c in ServiceTypes.Values
  {
    var p := match c
      case SparqlApi => "http://rdfs.org/ns/void#sparqlEndpoint"
      case LookupApi => "http://rdfs.org/ns/void#uriLookupEndpoint"
      case SearchApi => "http://labs.kasabi.com/ns/services#searchEndpoint"
      case AugmentationApi => "http://labs.kasabi.com/ns/services#augmentationEndpoint"
      case ReconciliationApi => "http://labs.kasabi.com/ns/services#reconciliationEndpoint"
      case UpdateApi => "http://labs.kasabi.com/ns/services#storeEndpoint"
      case StatusApi => "http://labs.kasabi.com/ns/services#statusEndpoint"
      case JobsApi => "http://labs.kasabi.com/ns/services#jobsEndpoint"
      case AttributionApi => "http://labs.kasabi.com/ns/services#attributionEndpoint";
    assert p in ServiceTypes && ServiceTypes[p] == c;
  }

  /** Short name to the clients registered under it, in registration order. */
  type Entries = map<string, seq<Api>>

  /** What the capability map always satisfies: every list is non-empty and
      holds only clients of the class its key names. */
  ghost predicate WellKeyed(m: Entries)
  {
    forall k :: k in m ==> m[k] != [] && forall i :: 0 <= i < |m[k]| ==> ShortName(m[k][i].cls) == k
  }

  /** The triple declares an endpoint of the dataset with this subject. */
  predicate Declares(t: Triple, subject: string)
  {
    t.s == Term(UriKind, subject) && t.p.text in ServiceTypes
  }

  /** `clazz(str(o), self.apikey, self.client)`. */
  function ApiFor(t: Triple, apikey: string, client: Transport): Api
    requires t.p.text in ServiceTypes
  {
    Api(ServiceTypes[t.p.text], t.o.text, apikey, client)
  }

  /** What one triple registers: its short name and client when it declares
      an endpoint of the dataset with this subject. */
  function Registration(t: Triple, subject: string, apikey: string, client: Transport): (e: Option<(string, Api)>)
    ensures e.Some? <==> Declares(t, subject)
    ensures e.Some? ==> ShortName(e.value.1.cls) == e.value.0
    ensures e.Some? ==>
              && e.value.1.cls == ServiceTypes[t.p.text] && e.value.1.uri == t.o.text
              && e.value.1.apikey == apikey && e.value.1.client == client
  {
    if Declares(t, subject) then Some((ShortName(ServiceTypes[t.p.text]), ApiFor(t, apikey, client))) else None
  }

  /** One registration: a new key gets a one-element list, an existing one is
      appended to. */
  function Append(m: Entries, k: string, api: Api): Entries
  {
    if k !in m then m[k := [api]] else m[k := m[k] + [api]]
  }

  /** One iteration of the `fetch_meta` loop. */
  function Step(m: Entries, t: Triple, subject: string, apikey: string, client: Transport): Entries
  {
    match Registration(t, subject, apikey, client)
    case None => m
    case Some(e) => Append(m, e.0, e.1)
  }

  /** The capability map after the `fetch_meta` loop over graph `g`, starting
      from `m`. */
  function Register(m: Entries, g: Graph, subject: string, apikey: string, client: Transport): (r: Entries)
    ensures WellKeyed(m) ==> WellKeyed(r)
    decreases |g|
  {
    if g == [] then m
    else Register(Step(m, g[0], subject, apikey, client), g[1..], subject, apikey, client)
  }

  /** The client one triple registers under `k`, if any. */
  function Here(t: Triple, subject: string, apikey: string, client: Transport, k: string): seq<Api>
  {
    match Registration(t, subject, apikey, client)
    case Some(e) => if e.0 == k then [e.1] else []
    case None => []
  }

  /** The clients the triples of `g` register under short name `k`: one per
      declaring triple, in iteration order. */
  function Endpoints(g: Graph, subject: string, apikey: string, client: Transport, k: string): seq<Api>
    decreases |g|
  {
    if g == [] then []
    else Here(g[0], subject, apikey, client, k) + Endpoints(g[1..], subject, apikey, client, k)
  }

  /** The list under `k`, empty when `k` is absent. */
  function Get(m: Entries, k: string): seq<Api>
  {
    if k in m then m[k] else []
  }

  /** `get_api`'s choice: the first client under `k`, None when `k` is absent. */
  function First(m: Entries, k: string): (r: Option<Api>)
    requires WellKeyed(m)
    ensures r.Some? ==> ShortName(r.value.cls) == k
  {
    if k in m then Some(m[k][0]) else None
  }

  /** One iteration appends under `k` exactly what the triple registers
      there. */
  lemma StepAppends(m: Entries, t: Triple, subject: string, apikey: string, client: Transport, k: string)
    ensures Get(Step(m, t, subject, apikey, client), k) == Get(m, k) + Here(t, subject, apikey, client, k)
    ensures k in Step(m, t, subject, apikey, client) <==> k in m || Here(t, subject, apikey, client, k) != []
  {
  }

  /** The capability map after discovery: each declaring triple appended
      exactly one client under its short name, in iteration order; nothing was
      removed; a key is present exactly when it was before or some triple
      declares it. */
  lemma {:induction false} RegisterAppends(m: Entries, g: Graph, subject: string, apikey: string, client: Transport, k: string)
    ensures Get(Register(m, g, subject, apikey, client), k) == Get(m, k) + Endpoints(g, subject, apikey, client, k)
    ensures k in Register(m, g, subject, apikey, client) <==> k in m || Endpoints(g, subject, apikey, client, k) != []
    decreases |g|
  {
    if g != [] {
      var m' := Step(m, g[0], subject, apikey, client);
      var here := Here(g[0], subject, apikey, client, k);
      var later := Endpoints(g[1..], subject, apikey, client, k);
      assert Register(m, g, subject, apikey, client) == Register(m', g[1..], subject, apikey, client);
      assert Endpoints(g, subject, apikey, client, k) == here + later;
      StepAppends(m, g[0], subject, apikey, client, k);
      RegisterAppends(m', g[1..], subject, apikey, client, k);
      assert Get(m, k) + here + later == Get(m, k) + (here + later);
    }
  }

  /** The clients registered under `k` are exactly those of the triples that
      register under `k`. */
  lemma {:induction false} EndpointsDeclared(g: Graph, subject: string, apikey: string, client: Transport, k: string, a: Api)
    ensures a in Endpoints(g, subject, apikey, client, k) <==>
              exists t :: t in g && Registration(t, subject, apikey, client) == Some((k, a))
    decreases |g|
  {
    if g != [] {
      var rest := g[1..];
      EndpointsDeclared(rest, subject, apikey, client, k, a);
      assert g == [g[0]] + rest;
      assert a in Here(g[0], subject, apikey, client, k) <==> Registration(g[0], subject, apikey, client) == Some((k, a));
    }
  }

  /** The capability map is one dictionary shared by every Dataset, and
      registration only appends: once any dataset has registered a client
      under `k`, that client stays the one `get_api(k)` returns, whatever the
      metadata of this or any later dataset declares. */
  lemma FirstRegisteredWins(m: Entries, g: Graph, subject: string, apikey: string, client: Transport, k: string)
    requires WellKeyed(m) && k in m
    ensures First(Register(m, g, subject, apikey, client), k) == First(m, k)
  {
    RegisterAppends(m, g, subject, apikey, client, k);
  }

  /** A client registered under a class's short name is of that class. */
  lemma ClassOf(m: Entries, k: string, c: ApiClass)
    requires WellKeyed(m) && First(m, k).Some? && k == ShortName(c)
    ensures First(m, k).value.cls == c
  {
  }

  /** `Dataset.api_map`. It is a class attribute, so there is ONE such object
      and every Dataset refers to it: entries registered while discovering one
      dataset leak into every other, and the first endpoint registered under a
      short name shadows those of datasets discovered later. */
  class ApiMap {
    var entries: Entries

    constructor ()
      ensures entries == map[]
    {
      entries := map[];
    }
  }

  /** What one `get_api` call does to the state before any forwarded request:
      the metadata, the capability map, the request log of the dataset's own
      transport, and the error `fetch_meta` raised, if any. */
  datatype Discovery = Discovery(meta: Option<Graph>, entries: Entries, sent: seq<HttpRequest>, failure: Option<Error>)

  /** The metadata request: GET `{uri}.ttl` as Turtle. */
  function MetaRequest(uri: string, apikey: string): HttpRequest
  {
    HttpRequest(uri + ".ttl", "GET", Headers(Turtle, apikey), None)
  }

  class Dataset {
    const client: Transport
    const apikey: string
    const uid: string
    const uri: string
    /** The class attribute `api_map`: the same object for every Dataset. */
    const apiMap: ApiMap
    const codecs: Codecs
    var meta: Option<Graph>

    ghost predicate Valid()
      reads apiMap
    {
      WellKeyed(apiMap.entries) && uri == DataPrefix + uid
    }

    /** `Dataset(uri, apikey, client)`; `apiMap` is the one shared map. */
    constructor (id: string, apikey: string, client: Transport, apiMap: ApiMap, codecs: Codecs)
      requires WellKeyed(apiMap.entries)
      ensures Valid()
      ensures Identifier(uid, uri) == Normalise(id)
      ensures uri == DataPrefix + uid && StartsWith(uri, DataPrefix)
      ensures meta == None
      ensures this.apikey == apikey && this.client == client && this.apiMap == apiMap && this.codecs == codecs
    {
      this.client := client;
      this.apikey := apikey;
      this.meta := None;
      var n := Normalise(id);
      this.uid := n.uid;
      this.uri := n.uri;
      this.apiMap := apiMap;
      this.codecs := codecs;
    }

    /** The effect of `get_api`'s discovery step from the given state: nothing
        when metadata is already there; otherwise the metadata request, and
        then either the parse error (metadata stays unset, the map unchanged)
        or the graph (empty for a failure status) and its registrations. */
    function Discover(meta0: Option<Graph>, entries0: Entries, sent0: seq<HttpRequest>): (d: Discovery)
      ensures WellKeyed(entries0) ==> WellKeyed(d.entries)
    {
      if meta0.Some? then Discovery(meta0, entries0, sent0, None)
      else
        var req := MetaRequest(uri, apikey);
        match BodyAsGraph(codecs, client.server(sent0, req), "n3")
        case Err(e) => Discovery(None, entries0, sent0 + [req], Some(e))
        case Ok(g) => Discovery(Some(g), Register(entries0, g, BetaUri(uri), apikey, client), sent0 + [req], None)
    }

    /** Discovery runs at most once: it sends at most one request, and once it
        has completed (even on a failure status) the metadata is set and a
        second discovery does nothing. */
    lemma DiscoverOnce(meta0: Option<Graph>, entries0: Entries, sent0: seq<HttpRequest>)
      ensures |Discover(meta0, entries0, sent0).sent| <= |sent0| + 1
      ensures var d := Discover(meta0, entries0, sent0);
              d.failure.None? ==> d.meta.Some? && Discover(d.meta, d.entries, d.sent) == d
      ensures meta0.Some? ==> Discover(meta0, entries0, sent0) == Discovery(meta0, entries0, sent0, None)
    {
    }

    /** A metadata fetch with a failure status registers nothing and still
        marks discovery as done, with the empty graph. */
    lemma FailedFetchRegistersNothing(entries0: Entries, sent0: seq<HttpRequest>)
      requires !IsSuccess(client.server(sent0, MetaRequest(uri, apikey)).status)
      ensures Discover(None, entries0, sent0) == Discovery(Some([]), entries0, sent0 + [MetaRequest(uri, apikey)], None)
    {
    }

    /** The loop of `fetch_meta` over the triples of the metadata. */
    method RegisterAll(triples: Graph, subject: string)
      requires WellKeyed(apiMap.entries)
      modifies apiMap
      ensures apiMap.entries == Register(old(apiMap.entries), triples, subject, apikey, client)
    {
      var i := 0;
      while i < |triples|
        invariant 0 <= i <= |triples|
        invariant WellKeyed(apiMap.entries)
        invariant Register(apiMap.entries, triples[i..], subject, apikey, client)
                  == Register(old(apiMap.entries), triples, subject, apikey, client)
      {
        var t := triples[i];
        ghost var before := apiMap.entries;
        assert triples[i..][0] == t && triples[i..][1..] == triples[i + 1..];
        assert Register(before, triples[i..], subject, apikey, client)
            == Register(Step(before, t, subject, apikey, client), triples[i + 1..], subject, apikey, client);
        if t.s == Term(UriKind, subject) && t.p.text in ServiceTypes {
          var shortName := ShortName(ServiceTypes[t.p.text]);
          var api := Api(ServiceTypes[t.p.text], t.o.text, apikey, client);
          if shortName !in apiMap.entries {
            apiMap.entries := apiMap.entries[shortName := [api]];
          } else {
            apiMap.entries := apiMap.entries[shortName := apiMap.entries[shortName] + [api]];
          }
        }
        assert apiMap.entries == Step(before, t, subject, apikey, client);
        i := i + 1;
      }
      assert triples[i..] == [];
    }

    /** fetch_meta. */
    method FetchMeta() returns (r: Result<()>)
      requires Valid()
      modifies this, apiMap, client
      ensures Valid()
      ensures client.sent == old(client.sent) + [MetaRequest(uri, apikey)]
      ensures var g := BodyAsGraph(codecs, client.server(old(client.sent), MetaRequest(uri, apikey)), "n3");
              if g.Err? then r == Err(g.error) && meta == old(meta) && apiMap.entries == old(apiMap.entries)
              else r == Ok(()) && meta == Some(g.value)
                   && apiMap.entries == Register(old(apiMap.entries), g.value, BetaUri(uri), apikey, client)
    {
      var resp := client.Request(MetaRequest(uri, apikey));
      var parsed := BodyAsGraph(codecs, resp, "n3");
      if parsed.Err? {
        return Err(parsed.error);
      }
      meta := Some(parsed.value);
      // pytassium's workaround for a bug in the beta platform: the subject is
      // the dataset URI with its host rewritten.
      var subject := BetaUri(uri);
      RegisterAll(parsed.value, subject);
      r := Ok(());
    }

    /** get_api: discovery on first use, then the first client under `t`. */
    method GetApi(t: string) returns (r: Result<Option<Api>>)
      requires Valid()
      modifies this, apiMap, client
      ensures Valid()
      ensures var d := Discover(old(meta), old(apiMap.entries), old(client.sent));
              && meta == d.meta && apiMap.entries == d.entries && client.sent == d.sent
              && r == if d.failure.Some? then Err(d.failure.value) else Ok(First(d.entries, t))
    {
      if meta.None? {
        var fetched := FetchMeta();
        if fetched.Err? {
          return Err(fetched.error);
        }
      }
      r := Ok(First(apiMap.entries, t));
    }

    /** The client a forwarder for short name `k` will use, judged from the
        current state. */
    function Target(k: string): Option<Api>
      requires Valid()
      reads this, apiMap, client
    {
      var d := Discover(meta, apiMap.entries, client.sent);
      if d.failure.Some? then None else First(d.entries, k)
    }

    /** The transports a forwarder for `k` may use: the dataset's own and that
        of the client it forwards to, which the shared map may have taken from
        another dataset. */
    function Frame(k: string): set<object>
      requires Valid()
      reads this, apiMap, client
    {
      {this, apiMap, client} + if Target(k).Some? then {Target(k).value.client} else {}
    }

    /** The log an operation on `api` appends to, as it stands after discovery. */
    ghost function LogBefore(api: Api, d: Discovery, earlier: seq<HttpRequest>): seq<HttpRequest>
    {
      if api.client == client then d.sent else earlier
    }

    /** After a forwarder for `k`: discovery happened as Discover says; when it
        failed, or no client is registered under `k`, nothing else was sent. */
    ghost predicate Routed<T>(k: string, d: Discovery, r: Result<T>)
      requires WellKeyed(d.entries)
      reads this, apiMap, client
    {
      && meta == d.meta && apiMap.entries == d.entries
      && (d.failure.Some? ==> r == Err(d.failure.value) && client.sent == d.sent)
      && (d.failure.None? && First(d.entries, k).None? ==> r == Err(MissingApi(k)) && client.sent == d.sent)
      && (d.failure.None? && First(d.entries, k).Some? && First(d.entries, k).value.client != client ==>
            client.sent == d.sent)
    }

    /** The opening every forwarder shares: `get_api(k)`, and the
        PytassiumError naming the capability when no client is registered. */
    method Require(k: string) returns (r: Result<Api>)
      requires Valid()
      modifies this, apiMap, client
      ensures Valid()
      ensures var d := Discover(old(meta), old(apiMap.entries), old(client.sent));
              && meta == d.meta && apiMap.entries == d.entries && client.sent == d.sent
              && (d.failure.Some? ==> r == Err(d.failure.value))
              && (d.failure.None? && First(d.entries, k).None? ==> r == Err(MissingApi(k)))
              && (d.failure.None? && First(d.entries, k).Some? ==> r == Ok(First(d.entries, k).value))
              && (r.Ok? ==> r.value.client.sent == LogBefore(r.value, d, old(r.value.client.sent)))
    {
      var a := GetApi(k);
      if a.Err? {
        return Err(a.error);
      }
      if a.value.None? {
        return Err(MissingApi(k));
      }
      ghost var d := Discover(old(meta), old(apiMap.entries), old(client.sent));
      assert a.value.value.client.sent == LogBefore(a.value.value, d, old(a.value.value.client.sent));
      r := Ok(a.value.value);
    }

    // -------------------------------------------------------------------
    // Forwarders

    /** Dataset.describe. */
    method Describe(resource: string, raw: bool := false) returns (r: Result<Outcome<Graph>>)
      requires Valid()
      modifies Frame("sparql")
      ensures Valid()
      ensures var d := Discover(old(meta), old(apiMap.entries), old(client.sent));
              && Routed("sparql", d, r)
              && (d.failure.None? && First(d.entries, "sparql").Some? ==>
                    var api := First(d.entries, "sparql").value;
                    var before := LogBefore(api, d, old(api.client.sent));
                    var req := SparqlRequest(api, codecs, DescribeQuery(resource), Turtle);
                    api.client.sent == before + [req] && r == DescribeReply(codecs, api.client.server(before, req), raw))
    {
      var a := Require("sparql");
      if a.Err? {
        return Err(a.error);
      }
      ClassOf(apiMap.entries, "sparql", SparqlApi);
      r := Apis.Describe(a.value, codecs, resource, raw);
    }

    /** Dataset.sparql. */
    method Sparql(query: string, mediaType: string) returns (r: Result<Response>)
      requires Valid()
      modifies Frame("sparql")
      ensures Valid()
      ensures var d := Discover(old(meta), old(apiMap.entries), old(client.sent));
              && Routed("sparql", d, r)
              && (d.failure.None? && First(d.entries, "sparql").Some? ==>
                    var api := First(d.entries, "sparql").value;
                    var before := LogBefore(api, d, old(api.client.sent));
                    var req := SparqlRequest(api, codecs, query, mediaType);
                    api.client.sent == before + [req] && r == Ok(api.client.server(before, req)))
    {
      var a := Require("sparql");
      if a.Err? {
        return Err(a.error);
      }
      ClassOf(apiMap.entries, "sparql", SparqlApi);
      var resp := Apis.Sparql(a.value, codecs, query, mediaType);
      r := Ok(resp);
    }

    /** Dataset.ask. */
    method Ask(query: string, raw: bool := false) returns (r: Result<Outcome<bool>>)
      requires Valid()
      modifies Frame("sparql")
      ensures Valid()
      ensures var d := Discover(old(meta), old(apiMap.entries), old(client.sent));
              && Routed("sparql", d, r)
              && (d.failure.None? && First(d.entries, "sparql").Some? ==>
                    var api := First(d.entries, "sparql").value;
                    var before := LogBefore(api, d, old(api.client.sent));
                    var req := SparqlRequest(api, codecs, query, ResultsXml);
                    api.client.sent == before + [req] && r == AskReply(codecs, api.client.server(before, req), raw))
    {
      var a := Require("sparql");
      if a.Err? {
        return Err(a.error);
      }
      ClassOf(apiMap.entries, "sparql", SparqlApi);
      r := Apis.Ask(a.value, codecs, query, raw);
    }

    /** Dataset.select. */
    method Select(query: string, raw: bool := false) returns (r: Result<Outcome<SparqlResults.Table>>)
      requires Valid()
      modifies Frame("sparql")
      ensures Valid()
      ensures var d := Discover(old(meta), old(apiMap.entries), old(client.sent));
              && Routed("sparql", d, r)
              && (d.failure.None? && First(d.entries, "sparql").Some? ==>
                    var api := First(d.entries, "sparql").value;
                    var before := LogBefore(api, d, old(api.client.sent));
                    var req := SparqlRequest(api, codecs, query, ResultsXml);
                    api.client.sent == before + [req] && r == SelectReply(codecs, api.client.server(before, req), raw))
    {
      var a := Require("sparql");
      if a.Err? {
        return Err(a.error);
      }
      ClassOf(apiMap.entries, "sparql", SparqlApi);
      r := Apis.Select(a.value, codecs, query, raw);
    }

    /** Dataset.lookup. */
    method Lookup(resource: string, raw: bool := false) returns (r: Result<Outcome<Graph>>)
      requires Valid()
      modifies Frame("lookup")
      ensures Valid()
      ensures var d := Discover(old(meta), old(apiMap.entries), old(client.sent));
              && Routed("lookup", d, r)
              && (d.failure.None? && First(d.entries, "lookup").Some? ==>
                    var api := First(d.entries, "lookup").value;
                    var before := LogBefore(api, d, old(api.client.sent));
                    var req := LookupRequest(api, codecs, resource);
                    api.client.sent == before + [req] && r == LookupReply(codecs, api.client.server(before, req), raw))
    {
      var a := Require("lookup");
      if a.Err? {
        return Err(a.error);
      }
      ClassOf(apiMap.entries, "lookup", LookupApi);
      r := Apis.Lookup(a.value, codecs, resource, raw);
    }

    /** Dataset.attribution. */
    method Attribution(raw: bool := false) returns (r: Result<Outcome<Json>>)
      requires Valid()
      modifies Frame("attribution")
      ensures Valid()
      ensures var d := Discover(old(meta), old(apiMap.entries), old(client.sent));
              && Routed("attribution", d, r)
              && (d.failure.None? && First(d.entries, "attribution").Some? ==>
                    var api := First(d.entries, "attribution").value;
                    var before := LogBefore(api, d, old(api.client.sent));
                    api.client.sent == before + [JsonRequest(api)]
                    && r == JsonReply(codecs, api.client.server(before, JsonRequest(api)), raw))
    {
      var a := Require("attribution");
      if a.Err? {
        return Err(a.error);
      }
      ClassOf(apiMap.entries, "attribution", AttributionApi);
      r := Apis.GetJson(a.value, codecs, raw);
    }

    /** Dataset.status. */
    method Status(raw: bool := false) returns (r: Result<Outcome<Json>>)
      requires Valid()
      modifies Frame("status")
      ensures Valid()
      ensures var d := Discover(old(meta), old(apiMap.entries), old(client.sent));
              && Routed("status", d, r)
              && (d.failure.None? && First(d.entries, "status").Some? ==>
                    var api := First(d.entries, "status").value;
                    var before := LogBefore(api, d, old(api.client.sent));
                    api.client.sent == before + [JsonRequest(api)]
                    && r == JsonReply(codecs, api.client.server(before, JsonRequest(api)), raw))
    {
      var a := Require("status");
      if a.Err? {
        return Err(a.error);
      }
      ClassOf(apiMap.entries, "status", StatusApi);
      r := Apis.GetJson(a.value, codecs, raw);
    }

    /** Dataset.store_data. */
    method StoreData(data: string, graphUri: Option<string> := None, mediaType: string := Turtle) returns (r: Result<Response>)
      requires Valid()
      modifies Frame("update")
      ensures Valid()
      ensures var d := Discover(old(meta), old(apiMap.entries), old(client.sent));
              && Routed("update", d, r)
              && (d.failure.None? && First(d.entries, "update").Some? ==>
                    var api := First(d.entries, "update").value;
                    var before := LogBefore(api, d, old(api.client.sent));
                    var req := StoreRequest(api, data, mediaType);
                    if graphUri.Some? then r == Err(GraphUriNotSupported) && api.client.sent == before
                    else api.client.sent == before + [req] && r == Ok(api.client.server(before, req)))
    {
      var a := Require("update");
      if a.Err? {
        return Err(a.error);
      }
      ClassOf(apiMap.entries, "update", UpdateApi);
      r := Apis.StoreData(a.value, data, graphUri, mediaType);
    }

    /** Dataset.store_file, given the file's contents. */
    method StoreFile(filename: string, contents: string, graphUri: Option<string> := None, mediaType: Option<string> := None)
      returns (r: Result<Response>)
      requires Valid()
      modifies Frame("update")
      ensures Valid()
      ensures var d := Discover(old(meta), old(apiMap.entries), old(client.sent));
              && Routed("update", d, r)
              && (d.failure.None? && First(d.entries, "update").Some? ==>
                    var api := First(d.entries, "update").value;
                    var before := LogBefore(api, d, old(api.client.sent));
                    var req := StoreRequest(api, contents, StoreFileMediaType(filename, mediaType));
                    if graphUri.Some? then r == Err(GraphUriNotSupported) && api.client.sent == before
                    else api.client.sent == before + [req] && r == Ok(api.client.server(before, req)))
    {
      var a := Require("update");
      if a.Err? {
        return Err(a.error);
      }
      ClassOf(apiMap.entries, "update", UpdateApi);
      r := Apis.StoreFile(a.value, filename, contents, graphUri, mediaType);
    }

    /** Dataset.store_graph. */
    method StoreGraph(g: Graph, graphUri: Option<string> := None) returns (r: Result<Response>)
      requires Valid()
      modifies Frame("update")
      ensures Valid()
      ensures var d := Discover(old(meta), old(apiMap.entries), old(client.sent));
              && Routed("update", d, r)
              && (d.failure.None? && First(d.entries, "update").Some? ==>
                    var api := First(d.entries, "update").value;
                    var before := LogBefore(api, d, old(api.client.sent));
                    var req := StoreRequest(api, codecs.serializeRdf(g, "nt"), Turtle);
                    if graphUri.Some? then r == Err(GraphUriNotSupported) && api.client.sent == before
                    else api.client.sent == before + [req] && r == Ok(api.client.server(before, req)))
    {
      var a := Require("update");
      if a.Err? {
        return Err(a.error);
      }
      ClassOf(apiMap.entries, "update", UpdateApi);
      r := Apis.StoreGraph(a.value, codecs, g, graphUri);
    }

    /** Dataset.apply_changeset, given the change-set's graph. */
    method ApplyChangeset(changeset: Graph, graphUri: Option<string> := None) returns (r: Result<Response>)
      requires Valid()
      modifies Frame("update")
      ensures Valid()
      ensures var d := Discover(old(meta), old(apiMap.entries), old(client.sent));
              && Routed("update", d, r)
              && (d.failure.None? && First(d.entries, "update").Some? ==>
                    var api := First(d.entries, "update").value;
                    var before := LogBefore(api, d, old(api.client.sent));
                    var req := StoreRequest(api, codecs.serializeRdf(changeset, "xml"), ChangesetXml);
                    if graphUri.Some? then r == Err(GraphUriNotSupported) && api.client.sent == before
                    else api.client.sent == before + [req] && r == Ok(api.client.server(before, req)))
    {
      var a := Require("update");
      if a.Err? {
        return Err(a.error);
      }
      ClassOf(apiMap.entries, "update", UpdateApi);
      r := Apis.ApplyChangeset(a.value, codecs, changeset, graphUri);
    }
  }
}
