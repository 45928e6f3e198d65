/** The capability clients (KasabiApi and its subclasses): each is bound to one
    endpoint URI, the API key and the transport, builds one fixed request per
    operation and hands status and body to the matching decoder, or back to
    the caller unchanged when the caller asks for the raw reply or the status
    is outside the success band. */
module Apis {
  import opened Core
  import opened Rdf
  import opened Http
  import SparqlResults

  /** Which KasabiApi subclass a client is an instance of. */
  datatype ApiClass =
    | SparqlApi | LookupApi | SearchApi | AugmentationApi | ReconciliationApi
    | UpdateApi | StatusApi | JobsApi | AttributionApi

  /** The short name a client class is registered under in the capability map. */
  function ShortName(c: ApiClass): string
  {
    match c
    case SparqlApi => "sparql"
    case LookupApi => "lookup"
    case SearchApi => "search"
    case AugmentationApi => "augmentation"
    case ReconciliationApi => "reconciliation"
    case UpdateApi => "update"
    case StatusApi => "status"
    case JobsApi => "jobs"
    case AttributionApi => "attribution"
  }

  /** Different client classes are registered under different names. */
  lemma ShortNameInjective(a: ApiClass, b: ApiClass)
    ensures ShortName(a) == ShortName(b) ==> a == b
  {
  }

  /** A client object. Its fields are set once, by `KasabiApi.__init__`, so
      it is a value here; the transport it holds is the object it shares with
      the Dataset that created it. */
  datatype Api = Api(cls: ApiClass, uri: string, apikey: string, client: Transport)

  /** A value `json.loads` returns. */
  datatype Json =
    | JNull
    | JBool(b: bool)
    | JNumber(lexical: string)
    | JString(s: string)
    | JArray(items: seq<Json>)
    | JObject(members: seq<(string, Json)>)

  /** The foreign libraries the client calls, which are outside the model:
      `urllib.quote_plus`, rdflib's `Graph.parse(StringInputSource(body),
      format=...)` (None when it raises), ElementTree's `fromstring` (None when
      it raises), `json.loads` (None when it raises) and rdflib's
      `Graph.serialize(format=...)`. */
  datatype Codecs = Codecs(
    quotePlus: string -> string,
    parseRdf: (string, string) -> Option<Graph>,
    parseResults: string -> Option<SparqlResults.ResultsDoc>,
    parseJson: string -> Option<Json>,
    serializeRdf: (Graph, string) -> string)

  /** What an operation hands back: `(response, body)` unchanged, or
      `(response, decoded value)`. */
  datatype Outcome<+T> = Raw(response: Response) | Decoded(response: Response, value: T)

  const ResultsXml := "application/sparql-results+xml"
  const Turtle := "text/turtle"
  const RdfXml := "application/rdf+xml"
  const ChangesetXml := "application/vnd.talis.changeset+xml"

  /** The caller asked for the raw reply, or the status is outside the
      success band: the body goes back undecoded. */
  predicate PassesThrough(raw: bool, resp: Response)
  {
    raw || !IsSuccess(resp.status)
  }

  /** response_body_as_graph: outside the success band the graph is empty and
      nothing can fail; inside it, the body is parsed in the given format and a
      body that does not parse is an error. */
  function BodyAsGraph(codecs: Codecs, resp: Response, format: string): (r: Result<Graph>)
    ensures !IsSuccess(resp.status) ==> r == Ok([])
    ensures r.Err? <==> IsSuccess(resp.status) && codecs.parseRdf(resp.body, format).None?
    ensures r.Err? ==> r.error == ParseFailure("rdf")
    ensures IsSuccess(resp.status) && r.Ok? ==> Some(r.value) == codecs.parseRdf(resp.body, format)
  {
    if IsSuccess(resp.status) then
      match codecs.parseRdf(resp.body, format)
      case None => Err(ParseFailure("rdf"))
      case Some(g) => Ok(g)
    else Ok([])
  }

  // ---------------------------------------------------------------------
  // Requests

  function Headers(accept: string, apikey: string): map<string, string>
  {
    map["accept" := accept, ApiKeyHeader := apikey]
  }

  /** SparqlApi.sparql: GET `{uri}?query={quote_plus(query)}`. */
  function SparqlRequest(api: Api, codecs: Codecs, query: string, mediaType: string): HttpRequest
  {
    HttpRequest(api.uri + "?query=" + codecs.quotePlus(query), "GET", Headers(mediaType, api.apikey), None)
  }

  /** The query SparqlApi.describe sends for a resource. */
  function DescribeQuery(uri: string): string
  {
    "describe <" + uri + ">"
  }

  /** LookupApi.lookup: GET `{uri}?about={quote_plus(uri)}` as Turtle. */
  function LookupRequest(api: Api, codecs: Codecs, uri: string): HttpRequest
  {
    HttpRequest(api.uri + "?about=" + codecs.quotePlus(uri), "GET", Headers(Turtle, api.apikey), None)
  }

  /** AttributionApi.get and StatusApi.get: GET `{uri}?output=json`. */
  function JsonRequest(api: Api): HttpRequest
  {
    HttpRequest(api.uri + "?output=json", "GET", Headers("application/json", api.apikey), None)
  }

  /** UpdateApi.store_data: POST the data to the endpoint with its media type. */
  function StoreRequest(api: Api, data: string, mediaType: string): HttpRequest
  {
    HttpRequest(api.uri, "POST",
                map["accept" := "*/*", "content-type" := mediaType, ApiKeyHeader := api.apikey], Some(data))
  }

  // ---------------------------------------------------------------------
  // Replies: what each operation makes of the response it received

  /** SparqlApi.describe: the graph of a success reply, parsed as Turtle. */
  function DescribeReply(codecs: Codecs, resp: Response, raw: bool): (r: Result<Outcome<Graph>>)
    ensures PassesThrough(raw, resp) ==> r == Ok(Raw(resp))
    ensures r.Ok? ==> r.value.response == resp
    ensures r.Ok? && r.value.Decoded? <==> !PassesThrough(raw, resp) && codecs.parseRdf(resp.body, Turtle).Some?
    ensures r.Ok? && r.value.Decoded? ==> Some(r.value.value) == codecs.parseRdf(resp.body, Turtle)
    ensures r.Err? <==> !PassesThrough(raw, resp) && codecs.parseRdf(resp.body, Turtle).None?
    ensures r.Err? ==> r.error == ParseFailure("rdf")
  {
    if PassesThrough(raw, resp) then Ok(Raw(resp))
    else match BodyAsGraph(codecs, resp, Turtle)
      case Err(e) => Err(e)
      case Ok(g) => Ok(Decoded(resp, g))
  }

  /** SparqlApi.ask: a success reply decoded as an ASK result. */
  function AskReply(codecs: Codecs, resp: Response, raw: bool): (r: Result<Outcome<bool>>)
    ensures PassesThrough(raw, resp) ==> r == Ok(Raw(resp))
    ensures r.Ok? ==> r.value.response == resp
    ensures r.Ok? && r.value.Decoded? <==>
              !PassesThrough(raw, resp) && codecs.parseResults(resp.body).Some?
              && SparqlResults.AskOf(codecs.parseResults(resp.body).value).Ok?
    ensures r.Ok? && r.value.Decoded? ==>
              Ok(r.value.value) == SparqlResults.AskOf(codecs.parseResults(resp.body).value)
    ensures r.Err? <==>
              !PassesThrough(raw, resp)
              && (codecs.parseResults(resp.body).None? || SparqlResults.AskOf(codecs.parseResults(resp.body).value).Err?)
    ensures r.Err? ==>
              r.error == if codecs.parseResults(resp.body).None? then ParseFailure("xml")
                         else SparqlResults.AskOf(codecs.parseResults(resp.body).value).error
  {
    if PassesThrough(raw, resp) then Ok(Raw(resp))
    else match codecs.parseResults(resp.body)
      case None => Err(ParseFailure("xml"))
      case Some(doc) =>
        match SparqlResults.AskOf(doc)
        case Err(e) => Err(e)
        case Ok(b) => Ok(Decoded(resp, b))
  }

  /** SparqlApi.select: a success reply decoded as a SELECT result table. */
  function SelectReply(codecs: Codecs, resp: Response, raw: bool): (r: Result<Outcome<SparqlResults.Table>>)
    ensures PassesThrough(raw, resp) ==> r == Ok(Raw(resp))
    ensures r.Ok? ==> r.value.response == resp
    ensures r.Ok? && r.value.Decoded? <==>
              !PassesThrough(raw, resp) && codecs.parseResults(resp.body).Some?
              && SparqlResults.TableOf(codecs.parseResults(resp.body).value).Ok?
    ensures r.Ok? && r.value.Decoded? ==>
              Ok(r.value.value) == SparqlResults.TableOf(codecs.parseResults(resp.body).value)
    ensures r.Err? <==>
              !PassesThrough(raw, resp)
              && (codecs.parseResults(resp.body).None? || SparqlResults.TableOf(codecs.parseResults(resp.body).value).Err?)
    ensures r.Err? ==>
              r.error == if codecs.parseResults(resp.body).None? then ParseFailure("xml")
                         else SparqlResults.TableOf(codecs.parseResults(resp.body).value).error
  {
    if PassesThrough(raw, resp) then Ok(Raw(resp))
    else match codecs.parseResults(resp.body)
      case None => Err(ParseFailure("xml"))
      case Some(doc) =>
        match SparqlResults.TableOf(doc)
        case Err(e) => Err(e)
        case Ok(t) => Ok(Decoded(resp, t))
  }

  /** LookupApi.lookup: unless raw, the reply is always a graph (the default
      "n3" format), and the empty graph when the status is outside the success
      band. */
  function LookupReply(codecs: Codecs, resp: Response, raw: bool): (r: Result<Outcome<Graph>>)
    ensures raw ==> r == Ok(Raw(resp))
    ensures !raw ==> r.Err? || r.value.Decoded?
    ensures !raw && !IsSuccess(resp.status) ==> r == Ok(Decoded(resp, []))
    ensures r.Ok? ==> r.value.response == resp
    ensures r.Err? <==> !raw && IsSuccess(resp.status) && codecs.parseRdf(resp.body, "n3").None?
    ensures r.Err? ==> r.error == ParseFailure("rdf")
    ensures !raw && IsSuccess(resp.status) && r.Ok? && r.value.Decoded? ==>
              Some(r.value.value) == codecs.parseRdf(resp.body, "n3")
  {
    if raw then Ok(Raw(resp))
    else match BodyAsGraph(codecs, resp, "n3")
      case Err(e) => Err(e)
      case Ok(g) => Ok(Decoded(resp, g))
  }

  /** AttributionApi.get and StatusApi.get: a success reply decoded as JSON. */
  function JsonReply(codecs: Codecs, resp: Response, raw: bool): (r: Result<Outcome<Json>>)
    ensures PassesThrough(raw, resp) ==> r == Ok(Raw(resp))
    ensures r.Ok? ==> r.value.response == resp
    ensures r.Ok? && r.value.Decoded? <==> !PassesThrough(raw, resp) && codecs.parseJson(resp.body).Some?
    ensures r.Ok? && r.value.Decoded? ==> Some(r.value.value) == codecs.parseJson(resp.body)
    ensures r.Err? <==> !PassesThrough(raw, resp) && codecs.parseJson(resp.body).None?
    ensures r.Err? ==> r.error == ParseFailure("json")
  {
    if PassesThrough(raw, resp) then Ok(Raw(resp))
    else match codecs.parseJson(resp.body)
      case None => Err(ParseFailure("json"))
      case Some(j) => Ok(Decoded(resp, j))
  }

  /** The falsiness test `not media_type`: absent or empty. */
  predicate MediaTypeGiven(mediaType: Option<string>)
  {
    mediaType.Some? && mediaType.value != ""
  }

  /** The media type UpdateApi.store_file submits with: the one given, or else
      Turtle for `.nt` and `.ttl` files and RDF/XML for every other name. */
  function StoreFileMediaType(filename: string, mediaType: Option<string>): (mt: string)
    ensures MediaTypeGiven(mediaType) ==> mt == mediaType.value
    ensures !MediaTypeGiven(mediaType) ==>
              (mt == Turtle <==> EndsWith(filename, ".nt") || EndsWith(filename, ".ttl"))
    ensures !MediaTypeGiven(mediaType) ==> mt == Turtle || mt == RdfXml
  {
    if MediaTypeGiven(mediaType) then mediaType.value
    else if EndsWith(filename, ".nt") || EndsWith(filename, ".ttl") then Turtle
    else RdfXml
  }

  // ---------------------------------------------------------------------
  // Operations

  /** SparqlApi.sparql: one query round trip, the response returned as is. */
  method Sparql(api: Api, codecs: Codecs, query: string, mediaType: string) returns (resp: Response)
    requires api.cls == SparqlApi
    modifies api.client
    ensures api.client.sent == old(api.client.sent) + [SparqlRequest(api, codecs, query, mediaType)]
    ensures resp == api.client.server(old(api.client.sent), SparqlRequest(api, codecs, query, mediaType))
  {
    resp := api.client.Request(SparqlRequest(api, codecs, query, mediaType));
  }

  /** SparqlApi.describe. */
  method Describe(api: Api, codecs: Codecs, uri: string, raw: bool := false) returns (r: Result<Outcome<Graph>>)
    requires api.cls == SparqlApi
    modifies api.client
    ensures api.client.sent == old(api.client.sent) + [SparqlRequest(api, codecs, DescribeQuery(uri), Turtle)]
    ensures r == DescribeReply(codecs, api.client.server(old(api.client.sent),
                                                         SparqlRequest(api, codecs, DescribeQuery(uri), Turtle)), raw)
  {
    var resp := Sparql(api, codecs, DescribeQuery(uri), Turtle);
    if PassesThrough(raw, resp) {
      return Ok(Raw(resp));
    }
    var g := BodyAsGraph(codecs, resp, Turtle);
    if g.Err? {
      return Err(g.error);
    }
    r := Ok(Decoded(resp, g.value));
  }

  /** SparqlApi.ask. */
  method Ask(api: Api, codecs: Codecs, query: string, raw: bool := false) returns (r: Result<Outcome<bool>>)
    requires api.cls == SparqlApi
    modifies api.client
    ensures api.client.sent == old(api.client.sent) + [SparqlRequest(api, codecs, query, ResultsXml)]
    ensures r == AskReply(codecs, api.client.server(old(api.client.sent), SparqlRequest(api, codecs, query, ResultsXml)), raw)
  {
    var resp := Sparql(api, codecs, query, ResultsXml);
    if PassesThrough(raw, resp) {
      return Ok(Raw(resp));
    }
    var doc := codecs.parseResults(resp.body);
    if doc.None? {
      return Err(ParseFailure("xml"));
    }
    var b := SparqlResults.AskOf(doc.value);
    if b.Err? {
      return Err(b.error);
    }
    r := Ok(Decoded(resp, b.value));
  }

  /** SparqlApi.select, decoding with the loop of SparqlResults.DecodeSelect. */
  method Select(api: Api, codecs: Codecs, query: string, raw: bool := false) returns (r: Result<Outcome<SparqlResults.Table>>)
    requires api.cls == SparqlApi
    modifies api.client
    ensures api.client.sent == old(api.client.sent) + [SparqlRequest(api, codecs, query, ResultsXml)]
    ensures r == SelectReply(codecs, api.client.server(old(api.client.sent), SparqlRequest(api, codecs, query, ResultsXml)), raw)
  {
    var resp := Sparql(api, codecs, query, ResultsXml);
    if PassesThrough(raw, resp) {
      return Ok(Raw(resp));
    }
    var doc := codecs.parseResults(resp.body);
    if doc.None? {
      return Err(ParseFailure("xml"));
    }
    var table := SparqlResults.DecodeSelect(doc.value);
    if table.Err? {
      return Err(table.error);
    }
    r := Ok(Decoded(resp, table.value));
  }

  /** LookupApi.lookup. */
  method Lookup(api: Api, codecs: Codecs, uri: string, raw: bool := false) returns (r: Result<Outcome<Graph>>)
    requires api.cls == LookupApi
    modifies api.client
    ensures api.client.sent == old(api.client.sent) + [LookupRequest(api, codecs, uri)]
    ensures r == LookupReply(codecs, api.client.server(old(api.client.sent), LookupRequest(api, codecs, uri)), raw)
  {
    var resp := api.client.Request(LookupRequest(api, codecs, uri));
    if raw {
      return Ok(Raw(resp));
    }
    var g := BodyAsGraph(codecs, resp, "n3");
    if g.Err? {
      return Err(g.error);
    }
    r := Ok(Decoded(resp, g.value));
  }

  /** AttributionApi.get and StatusApi.get, whose code is the same. */
  method GetJson(api: Api, codecs: Codecs, raw: bool := false) returns (r: Result<Outcome<Json>>)
    requires api.cls == AttributionApi || api.cls == StatusApi
    modifies api.client
    ensures api.client.sent == old(api.client.sent) + [JsonRequest(api)]
    ensures r == JsonReply(codecs, api.client.server(old(api.client.sent), JsonRequest(api)), raw)
  {
    var resp := api.client.Request(JsonRequest(api));
    if PassesThrough(raw, resp) {
      return Ok(Raw(resp));
    }
    var data := codecs.parseJson(resp.body);
    if data.None? {
      return Err(ParseFailure("json"));
    }
    r := Ok(Decoded(resp, data.value));
  }

  /** UpdateApi.store_data: a named graph is refused before anything is sent. */
  method StoreData(api: Api, data: string, graphUri: Option<string> := None, mediaType: string := Turtle) returns (r: Result<Response>)
    requires api.cls == UpdateApi
    modifies api.client
    ensures graphUri.Some? ==> r == Err(GraphUriNotSupported) && api.client.sent == old(api.client.sent)
    ensures graphUri.None? ==>
              && api.client.sent == old(api.client.sent) + [StoreRequest(api, data, mediaType)]
              && r == Ok(api.client.server(old(api.client.sent), StoreRequest(api, data, mediaType)))
  {
    if graphUri.Some? {
      return Err(GraphUriNotSupported);
    }
    var resp := api.client.Request(StoreRequest(api, data, mediaType));
    r := Ok(resp);
  }

  /** UpdateApi.store_graph: the graph goes as N-Triples, labelled Turtle. */
  method StoreGraph(api: Api, codecs: Codecs, g: Graph, graphUri: Option<string> := None) returns (r: Result<Response>)
    requires api.cls == UpdateApi
    modifies api.client
    ensures graphUri.Some? ==> r == Err(GraphUriNotSupported) && api.client.sent == old(api.client.sent)
    ensures graphUri.None? ==>
              var req := StoreRequest(api, codecs.serializeRdf(g, "nt"), Turtle);
              api.client.sent == old(api.client.sent) + [req] && r == Ok(api.client.server(old(api.client.sent), req))
  {
    if graphUri.Some? {
      return Err(GraphUriNotSupported);
    }
    var data := codecs.serializeRdf(g, "nt");
    r := StoreData(api, data, graphUri, Turtle);
  }

  /** UpdateApi.store_file, given the file's contents (reading the file is
      outside the model). */
  method StoreFile(api: Api, filename: string, contents: string, graphUri: Option<string> := None, mediaType: Option<string> := None)
    returns (r: Result<Response>)
    requires api.cls == UpdateApi
    modifies api.client
    ensures graphUri.Some? ==> r == Err(GraphUriNotSupported) && api.client.sent == old(api.client.sent)
    ensures graphUri.None? ==>
              var req := StoreRequest(api, contents, StoreFileMediaType(filename, mediaType));
              api.client.sent == old(api.client.sent) + [req] && r == Ok(api.client.server(old(api.client.sent), req))
  {
    if graphUri.Some? {
      return Err(GraphUriNotSupported);
    }
    var mt := StoreFileMediaType(filename, mediaType);
    r := StoreData(api, contents, graphUri, mt);
  }

  /** UpdateApi.apply_changeset, given the change-set's graph (building it is
      outside the model): it goes as RDF/XML with the change-set media type. */
  method ApplyChangeset(api: Api, codecs: Codecs, changeset: Graph, graphUri: Option<string> := None) returns (r: Result<Response>)
    requires api.cls == UpdateApi
    modifies api.client
    ensures graphUri.Some? ==> r == Err(GraphUriNotSupported) && api.client.sent == old(api.client.sent)
    ensures graphUri.None? ==>
              var req := StoreRequest(api, codecs.serializeRdf(changeset, "xml"), ChangesetXml);
              api.client.sent == old(api.client.sent) + [req] && r == Ok(api.client.server(old(api.client.sent), req))
  {
    if graphUri.Some? {
      return Err(GraphUriNotSupported);
    }
    var data := codecs.serializeRdf(changeset, "xml");
    var resp := api.client.Request(StoreRequest(api, data, ChangesetXml));
    r := Ok(resp);
  }
}
