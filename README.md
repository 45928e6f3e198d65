# pytassium, modelled in Dafny

pytassium is a Python client for the Kasabi dataset platform. A `Dataset` is
named by a slug or a full `http://data.kasabi.com/dataset/...` URI. On first
use it fetches the dataset's metadata. It registers one capability client per
endpoint the metadata declares: SPARQL, lookup, update, status, attribution,
and four kinds with no behaviour. It then forwards each call to the first
client registered for the capability the call needs. The clients build one
HTTP request per operation. They decode successful replies into RDF graphs,
SPARQL ASK/SELECT results or JSON, and pass everything else back to the
caller untouched. `lookup` is the exception: without `raw` it returns the
empty graph when the status is a failure.

The model has six modules:

- `Core` (core.dfy): `Option`, `Result` and the library's error kinds.
  It also holds ElementTree's first-match `find` and the literal
  `re.sub` the dataset-URI rewrite uses.
- `Rdf` (rdf.dfy): terms, triples, and a graph as its triples in
  iteration order.
- `Http` (http.dfy): responses, requests, the success band
  `200 <= status < 300`, and a `Transport` class.
  - A transport logs every request sent through it.
  - It answers each request through a fixed function of that request and
    the log so far, so a contract can say exactly which requests a call sent.
- `SparqlResults` (sparql_results.dfy): the parsed SPARQL Query Results XML
  Format document (W3C) as a datatype, plus the ASK and SELECT decoders.
  - The decoders hold the binding classification (`uri` before `literal`
    before `bnode`, otherwise an error).
  - The SELECT decoding loop is a method proved against its specification
    function.
- `Apis` (apis.dfy): the capability clients as values, their request
  builders, and the reply decoders.
  - The reply decoders apply the raw/success-band passthrough rule.
  - The operations (`sparql`, `describe`, `ask`, `select`, `lookup`, `get`,
    `store_data`, `store_graph`, `store_file`, `apply_changeset`) are
    module-level methods. Each takes an `Api` value and modifies the
    transport it holds.
- `Datasets` (dataset.dfy): identifier normalisation and the
  data-to-beta host rewrite.
  - The `service_types` table.
  - The capability map and its registration function.
  - The `ApiMap` class: the one map shared by all datasets.
  - The `Dataset` class with `fetch_meta` (a loop), `get_api` and the
    eleven forwarders.

`api_map` is a class attribute in pytassium (pytassium/__init__.py:190).
So there is exactly one map. In the model, callers create one `ApiMap`
object and pass that same object to every `Dataset` they construct; the model
does not enforce this, and its proofs hold for whatever map a dataset is given.
Shared this way, endpoints registered while discovering one dataset are
visible to every other dataset. `Datasets.FirstRegisteredWins` proves that
the first client registered under a short name stays the one `get_api`
returns, whatever later metadata declares.

Foreign libraries appear as function fields of `Apis.Codecs`:
- rdflib's parser and serialiser;
- ElementTree's `fromstring`;
- `json.loads`;
- `urllib.quote_plus`.

The server's behaviour is the `server` function of a `Transport`.

The source's default arguments are Dafny default parameter values: `raw := false`,
`graphUri := None`, `mediaType := Turtle` for `store_data` and `mediaType := None`
for `store_file`.

When the HTTP status is a success, rdflib's `Graph.parse` raises on a bad
body. In `fetch_meta` that leaves `meta` unset, and the parser's exception
reaches the caller. The model does the same: `Discover` reports
the `ParseFailure` and leaves `meta` as `None`, so the next `get_api`
fetches again. A fetch with a failure status sets `meta` to the empty
graph, so discovery is never repeated (`Datasets.Dataset.DiscoverOnce`).

## Model

| member | source | states |
|---|---|---|
| Http.IsSuccess | pytassium/__init__.py:33 | the success band is exactly `200 <= status < 300` |
| Http.Transport.Request | pytassium/__init__.py:55 | one round trip: the request is appended to the transport's log and the response is the server's answer to it given the earlier log |
| Core.Find | pytassium/__init__.py:106-110 | ElementTree `find`: the index of the first child satisfying the test, no earlier child satisfies it, None only when no child does |
| Core.ReplaceAll | pytassium/__init__.py:292 | definition of the literal `re.sub` (every non-overlapping occurrence, left to right); specified by ReplaceAllIdentity and the lemmas behind BetaUriOfDataset |
| Core.ReplaceAllIdentity | pytassium/__init__.py:292 | `re.sub` leaves a string in which the pattern never occurs unchanged |
| Apis.ShortNameInjective | pytassium/__init__.py:191-201 | the nine client classes are registered under nine distinct short names |
| Apis.ShortName | pytassium/__init__.py:191-201 | definition: the short name `service_types` pairs with each client class; specified by ShortNameInjective |
| Apis.PassesThrough | pytassium/__init__.py:78 | definition of the guard `raw or response.status not in range(200, 300)` that describe, ask, select and get share; the reply decoders' contracts state its effect |
| Apis.SparqlRequest | pytassium/__init__.py:73 | definition of the SPARQL GET request; Apis.Sparql's contract states that exactly this request is sent |
| Apis.DescribeQuery | pytassium/__init__.py:76 | definition of the query `describe <uri>`; Apis.Describe's contract states that it is the query sent |
| Apis.LookupRequest | pytassium/__init__.py:130 | definition of the lookup GET request; Apis.Lookup's contract states that exactly this request is sent |
| Apis.JsonRequest | pytassium/__init__.py:55 | definition of the attribution/status GET request (the same at :64); Apis.GetJson's contract states that exactly this request is sent |
| Apis.StoreRequest | pytassium/__init__.py:146 | definition of the update POST request (the same shape at :183); the contracts of the four update operations state that exactly this request is sent |
| Apis.BodyAsGraph | pytassium/__init__.py:31-35 | outside the success band the graph is empty and nothing fails; inside it the result is the parsed body, and an unparsable body (and only that) is an error |
| Apis.DescribeReply | pytassium/__init__.py:75-81 | raw or non-success replies are returned unchanged; otherwise the body is decoded as Turtle exactly when it parses, the graph is the parsed one, and a body that does not parse is the `rdf` parse error; the response is always returned |
| Apis.AskReply | pytassium/__init__.py:83-90 | raw or non-success replies are returned unchanged; otherwise a value is decoded exactly when the XML parses and has a `boolean` element, and it is what `SparqlResults.AskOf` says; otherwise it is an error: the `xml` parse error for a body that does not parse, `AskOf`'s error for a document without `boolean` |
| Apis.SelectReply | pytassium/__init__.py:92-121 | raw or non-success replies are returned unchanged; otherwise a table is decoded exactly when the XML parses and `SparqlResults.TableOf` succeeds, and it is that table; otherwise it is an error: the `xml` parse error for a body that does not parse, `TableOf`'s error for a malformed document |
| Apis.LookupReply | pytassium/__init__.py:129-134 | only raw replies pass through; without raw the result is always a graph, empty for a non-success status and the graph the body parses to (format `n3`) for a success status; it fails, with the `rdf` parse error, exactly for an unparsable success body |
| Apis.JsonReply | pytassium/__init__.py:54-69 | raw or non-success replies are returned unchanged; otherwise the body is decoded as JSON exactly when it parses, the value is the parsed one, and a body that does not parse is the `json` parse error |
| Apis.StoreFileMediaType | pytassium/__init__.py:168-172 | a non-empty given media type is used as is; otherwise Turtle exactly for names ending in `.nt` or `.ttl`, RDF/XML for every other name |
| Apis.Sparql | pytassium/__init__.py:72-73 | one GET of `{uri}?query={quote_plus(query)}` with the given accept type and the API key; its response is returned |
| Apis.Describe | pytassium/__init__.py:75-81 | one SPARQL request for `describe <uri>` as Turtle; the result is `DescribeReply` of its response |
| Apis.Ask | pytassium/__init__.py:83-90 | one SPARQL request accepting SPARQL XML results; the result is `AskReply` of its response |
| Apis.Select | pytassium/__init__.py:92-121 | one SPARQL request accepting SPARQL XML results; the result is `SelectReply` of its response, decoded by the loop `SparqlResults.DecodeSelect` |
| Apis.Lookup | pytassium/__init__.py:128-134 | one GET of `{uri}?about={quote_plus(uri)}` as Turtle; the result is `LookupReply` of its response |
| Apis.GetJson | pytassium/__init__.py:53-69 | one GET of `{uri}?output=json` accepting JSON; the result is `JsonReply` of its response |
| Apis.StoreData | pytassium/__init__.py:141-146 | a graph URI is refused with nothing sent; otherwise exactly one POST of the data with its content type, whose response is returned |
| Apis.StoreGraph | pytassium/__init__.py:148-154 | a graph URI is refused with nothing sent; otherwise one POST of the graph serialised as N-Triples, labelled `text/turtle` |
| Apis.StoreFile | pytassium/__init__.py:156-174 | a graph URI is refused before anything is read or sent; otherwise one POST of the contents with the media type `StoreFileMediaType` chooses |
| Apis.ApplyChangeset | pytassium/__init__.py:176-183 | a graph URI is refused with nothing sent; otherwise one POST of the change-set graph as RDF/XML with the change-set media type |
| SparqlResults.BindingValue | pytassium/__init__.py:104-118 | a binding with a `uri` child is a URI, otherwise one with a `literal` child a literal, otherwise one with a `bnode` child a blank node, each with the text of the first such child; it is an error exactly when it has none of the three |
| SparqlResults.FindValue | pytassium/__init__.py:106-110 | definition: the first `uri`, `literal` or `bnode` child of a binding, as a term of that kind; specified through Core.Find and BindingValue |
| SparqlResults.AskOf | pytassium/__init__.py:88-90 | the answer is true exactly when the first `boolean` element's text is exactly `true`; a document without `boolean` is an error |
| SparqlResults.VariableNames | pytassium/__init__.py:98-99 | the headers are the names of exactly the `variable` items of `head`, no more of them than items |
| SparqlResults.VariableNamesAppend | pytassium/__init__.py:99 | headers keep document order |
| SparqlResults.HeadOf | pytassium/__init__.py:98 | definition: the items of the first `head` child, or none; SelectSucceeds states that a missing `head` is the `head` error |
| SparqlResults.ResultsOf | pytassium/__init__.py:101 | definition: the `result` children of the first `results` child, or none; SelectSucceeds states that a missing `results` is the `results` error |
| SparqlResults.RowFrom | pytassium/__init__.py:102-119 | definition of one row (the inner loop); specified by RowFromSucceeds, RowFromKeys, RowFromLastWins and RowShape |
| SparqlResults.RowFromSucceeds | pytassium/__init__.py:103-119 | a result's dict is built exactly when every binding can be classified, and otherwise fails with the unclassifiable-binding error |
| SparqlResults.RowFromKeys | pytassium/__init__.py:102-119 | nothing is defaulted: the dict's keys are exactly the binding names |
| SparqlResults.RowFromLastWins | pytassium/__init__.py:119 | a repeated name keeps the value of its last binding |
| SparqlResults.RowShape | pytassium/__init__.py:102-119 | one `result` element gives a dict exactly when all its bindings classify, and that dict has exactly their names as keys, each holding its last binding's value |
| SparqlResults.RowsFromSucceeds | pytassium/__init__.py:101-120 | the list of dicts is built exactly when every `result` gives a dict |
| SparqlResults.RowsFromContents | pytassium/__init__.py:100-120 | one dict per `result` element, in document order, each the one its bindings build |
| SparqlResults.UnclassifiableRowsFrom | pytassium/__init__.py:111-112 | building the rows can fail only with the unclassifiable-binding error |
| SparqlResults.RowsFrom | pytassium/__init__.py:100-120 | definition of the rows (the outer loop); specified by RowsFromSucceeds, RowsFromContents and UnclassifiableRowsFrom |
| SparqlResults.TableOf | pytassium/__init__.py:97-121 | definition of what `select` decodes; specified by SelectSucceeds and SelectContents, and computed by the loop DecodeSelect |
| SparqlResults.SelectSucceeds | pytassium/__init__.py:97-121 | a SELECT document decodes exactly when it has `head` and `results` and every binding classifies; any failure is a missing `head`, a missing `results` or the unclassifiable-binding error |
| SparqlResults.SelectContents | pytassium/__init__.py:98-121 | decoded headers are the head's variable names; one row per `result`, in order, each with exactly its bindings' names as keys and the last binding's value for each |
| SparqlResults.DecodeSelect | pytassium/__init__.py:97-121 | the nested loop appending one dict per `result` and setting one key per binding computes exactly `TableOf` |
| Datasets.Normalise | pytassium/__init__.py:213-219 | the URI is always the 31-character prefix followed by the uid; a full dataset URI is kept as the URI, a bare slug is kept as the uid |
| Datasets.NormaliseBothSpellings | pytassium/__init__.py:213-219 | a slug and the prefixed URI of that slug give the same uid and URI |
| Datasets.NormaliseIdempotent | pytassium/__init__.py:213-219 | constructing a dataset again from its own URI gives the same uid and URI |
| Datasets.BetaUri | pytassium/__init__.py:292 | definition: the host rewrite of the dataset URI; specified by BetaUriOfDataset and BetaUriOfPlainSlug |
| Datasets.BetaUriOfDataset | pytassium/__init__.py:292 | the subject looked up for a dataset is the beta-host prefix followed by the uid with any occurrences of the host rewritten |
| Datasets.BetaUriOfPlainSlug | pytassium/__init__.py:292 | for a slug that does not mention the data host, the subject looked up is the beta-host prefix followed by the uid |
| Datasets.ServiceTypesCoverEveryClass | pytassium/__init__.py:191-201 | every one of the nine client classes is the target of some predicate in `service_types` |
| Datasets.Registration | pytassium/__init__.py:294-297 | a triple registers something exactly when it declares an endpoint of the subject; what it registers is, under the class's short name, a client of the class `service_types` gives its predicate, bound to `str(o)`, the dataset's key and its transport |
| Datasets.Register | pytassium/__init__.py:293-302 | registration keeps every list non-empty and holding only clients of the class its key names |
| Datasets.RegisterAppends | pytassium/__init__.py:293-302 | after the scan each short name's list is its old list followed by one client per declaring triple, in iteration order; nothing is removed; a key is present exactly when it was before or some triple declares it |
| Datasets.EndpointsDeclared | pytassium/__init__.py:293-297 | the clients added under a short name are exactly those of the triples with the dataset's subject and a service-type predicate of that short name, bound to the triple's object |
| Datasets.FirstRegisteredWins | pytassium/__init__.py:298-309 | in the shared map the first client registered under a short name stays the one returned for it, whatever is discovered later |
| Datasets.First | pytassium/__init__.py:308-311 | the choice `get_api` makes: the first client registered under the name, or none when the name has no entry; a client it returns has that short name |
| Datasets.MetaRequest | pytassium/__init__.py:289 | definition of the metadata GET of `{uri}.ttl` as Turtle; FetchMeta's contract states that it is the one request `fetch_meta` sends, and FailedFetchRegistersNothing logs it |
| Datasets.ApiMap.constructor | pytassium/__init__.py:190 | the shared map starts empty |
| Datasets.Dataset.constructor | pytassium/__init__.py:203-219 | the new dataset has the normalised uid and URI, no metadata, the given key and transport, and refers to the shared map; given a well-keyed shared map, the dataset's invariant holds |
| Datasets.Dataset.Discover | pytassium/__init__.py:304-306 | discovery keeps the shared map well-formed |
| Datasets.Dataset.DiscoverOnce | pytassium/__init__.py:288-306 | discovery sends at most one request; after it completes the metadata is set and a second discovery changes nothing; with metadata present nothing is sent |
| Datasets.Dataset.FailedFetchRegistersNothing | pytassium/__init__.py:288-290 | a metadata fetch with a failure status sets the metadata to the empty graph and registers nothing |
| Datasets.Dataset.RegisterAll | pytassium/__init__.py:293-302 | the loop over the metadata's triples leaves the shared map exactly as `Register` describes |
| Datasets.Dataset.FetchMeta | pytassium/__init__.py:288-302 | one GET of `{uri}.ttl` as Turtle; an unparsable success body is an error with metadata and map unchanged; otherwise the metadata is the graph and the map is `Register` of the old map over it for the beta-rewritten subject |
| Datasets.Dataset.GetApi | pytassium/__init__.py:304-311 | the state after the call is what `Discover` says; the result is the discovery error, or the first client under the short name or None |
| Datasets.Dataset.Require | pytassium/__init__.py:223-225 | `get_api` followed by the PytassiumError naming the capability when no client is registered |
| Datasets.Dataset.Describe | pytassium/__init__.py:252-256 | discovery, an error when there is no SPARQL client, otherwise exactly the request and result of `Apis.Describe` on the first SPARQL client |
| Datasets.Dataset.Sparql | pytassium/__init__.py:258-262 | discovery, an error when there is no SPARQL client, otherwise exactly one SPARQL request through the first SPARQL client, whose response is returned |
| Datasets.Dataset.Ask | pytassium/__init__.py:264-268 | discovery, an error when there is no SPARQL client, otherwise exactly the request and result of `Apis.Ask` on the first SPARQL client |
| Datasets.Dataset.Select | pytassium/__init__.py:270-274 | discovery, an error when there is no SPARQL client, otherwise exactly the request and result of `Apis.Select` on the first SPARQL client |
| Datasets.Dataset.Lookup | pytassium/__init__.py:246-250 | discovery, an error when there is no lookup client, otherwise exactly the request and result of `Apis.Lookup` on the first lookup client |
| Datasets.Dataset.Attribution | pytassium/__init__.py:276-280 | discovery, an error when there is no attribution client, otherwise exactly one JSON GET and its `JsonReply` |
| Datasets.Dataset.Status | pytassium/__init__.py:282-286 | discovery, an error when there is no status client, otherwise exactly one JSON GET and its `JsonReply` |
| Datasets.Dataset.StoreData | pytassium/__init__.py:222-226 | discovery, an error when there is no update client; a graph URI is refused with nothing more sent; otherwise exactly the POST of `Apis.StoreData` |
| Datasets.Dataset.StoreFile | pytassium/__init__.py:228-232 | as `StoreData`, with the contents and the media type `StoreFileMediaType` chooses |
| Datasets.Dataset.StoreGraph | pytassium/__init__.py:234-238 | as `StoreData`, with the graph serialised as N-Triples and labelled Turtle |
| Datasets.Dataset.ApplyChangeset | pytassium/__init__.py:240-244 | as `StoreData`, with the change-set graph as RDF/XML and the change-set media type |

## Left out

- The HTTP transport (`httplib2.Http`, following redirects, the default client created when `client` is None): I/O. A `Transport` is always given, and its answers are a function of the request log.
- Exceptions raised by the transport itself (connection failures): I/O, not modelled.
- rdflib parsing and serialisation, ElementTree's `fromstring`, `json.loads` and `urllib.quote_plus`: foreign library calls. They are the uninterpreted function fields of `Apis.Codecs`, and a parse that raises is `None`.
- Reading the file in `store_file`: I/O. The file's contents are a parameter.
- `changeset.getGraph()` from the `rdfchangesets` library: a foreign call. `apply_changeset` is given the change-set's graph.
- Datasets.BetaUri: `re.sub('data.kasabi.com', ...)` treats each `.` as a wildcard. The model matches the text literally, so hosts that differ from `data.kasabi.com` only at the dots are not rewritten here.
- XML elements without text are given the empty text, where ElementTree gives `None`. A `binding` or `variable` without a `name` attribute is not modelled either.
- Literal language tags and datatypes: `Literal(literal.text)` keeps only the text, and so does the model.
- `SearchApi`, `AugmentationApi`, `ReconciliationApi` and `JobsApi` have no operations. Only their registration under their short names is modelled.
- The trailing `return response, body` of `select` (pytassium/__init__.py:122) cannot be reached, and it has no counterpart.
- Triple iteration order: rdflib's `triples` order is unspecified. The model takes the graph's sequence order as the iteration order.
- setup.py: packaging only.
