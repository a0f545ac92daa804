/**
 * The client: one call writes the query, asks the broker pool for an
 * address, posts the text, checks the answer for an engine-reported
 * error and reads it into the envelope the caller asked for. Rendering
 * JSON as text, the HTTP exchange and parsing text back into JSON are
 * collaborators passed in as functions; the model states how the client
 * classifies what they return. Each call hands back the client with its
 * pool's selection state advanced, and the requests it sent.
 */
module Client {
  import opened Json
  import Connection
  import opened Queries
  import opened StandaloneQueries
  import opened Response

  /** `DruidClientError`, restricted to the kinds the client produces. */
  datatype ClientError =
    | HttpConnection
    | ParsingError
    | ParsingResponseError
    | ServerError(response: string)

  datatype ClientResult<T> = Success(value: T) | Failure(error: ClientError)

  /** `DruidClient`: the broker pool (the HTTP client handle is a collaborator). */
  datatype DruidClient = DruidClient(pool: Connection.StaticPool)

  /** A POST of `body` to `url` with content type `application/json`. */
  datatype Request = Request(url: string, body: string)

  /** What the transport gives back: the whole body, or a failure at sending or at reading the body. */
  datatype Transport = Delivered(body: string) | TransportFailed

  /**
   * The collaborators: `render` writes JSON as text (`None` when the
   * serializer fails), `send` performs one exchange, `parse` reads text as
   * JSON (`None` when it is not valid JSON).
   */
  datatype Collaborators = Collaborators(
    render: Json -> Option<string>,
    send: Request -> Transport,
    parse: string -> Option<Json>)

  /** The result of a call, the client after it, and the requests it sent. */
  datatype Outcome<T> = Outcome(result: ClientResult<T>, client: DruidClient, sent: seq<Request>)

  /** `DruidClient::new`: the pool holds the nodes and the strategy `default_for` picks for them. */
  function NewClient(nodes: seq<string>): (c: DruidClient)
    ensures c.pool.brokers == nodes
    ensures c.pool.selection.Constant? <==> |nodes| == 1
    ensures c.pool.selection.RoundRobin? ==> c.pool.selection.index == 0
  {
    DruidClient(Connection.StaticPool(nodes, Connection.DefaultFor(nodes)))
  }

  const UrlPrefix := "http://"
  const UrlSuffix := "/druid/v2/?pretty"

  /** The address of the query endpoint of `broker`. */
  function EndpointOf(broker: string): (url: string)
    ensures |url| == |UrlPrefix| + |broker| + |UrlSuffix|
    ensures url[..|UrlPrefix|] == UrlPrefix && url[|UrlPrefix| + |broker|..] == UrlSuffix
    ensures url[|UrlPrefix|..|UrlPrefix| + |broker|] == broker
  {
    UrlPrefix + broker + UrlSuffix
  }

  /** Different brokers give different addresses, so the broker can be read off the address. */
  lemma EndpointInjective(a: string, b: string)
    requires EndpointOf(a) == EndpointOf(b)
    ensures a == b
  {
    assert |a| == |b|;
    assert a == EndpointOf(a)[|UrlPrefix|..|UrlPrefix| + |a|];
  }

  /** `url`: one broker selection, and the address of the broker selected. */
  datatype Addressed = Addressed(url: string, client: DruidClient)

  function Url(c: DruidClient): (r: Addressed)
    requires |c.pool.brokers| > 0
    ensures exists i :: 0 <= i < |c.pool.brokers| && r.url == EndpointOf(c.pool.brokers[i])
    ensures r.client.pool == Connection.Broker(c.pool).pool
    ensures r.url == EndpointOf(Connection.Broker(c.pool).broker)
  {
    var pick := Connection.Broker(c.pool);
    Addressed(EndpointOf(pick.broker), DruidClient(pick.pool))
  }

  /** Two addresses built in a row by a fresh client over two brokers go to the first broker, then to the second. */
  lemma UrlsAlternate(a: string, b: string)
    ensures var first := Url(NewClient([a, b]));
      && first.url == "http://" + a + "/druid/v2/?pretty"
      && Url(first.client).url == "http://" + b + "/druid/v2/?pretty"
  {
  }

  /** The engine reported a failure: the answer is an object with a top-level `"error"` key, whatever its value. */
  predicate IsServerError(j: Json)
  {
    j.Obj? && "error" in j.fields
  }

  /**
   * `http_query`: one request to the selected broker. A transport failure
   * gives `HttpConnection`, a body that is not JSON gives `ParsingError`,
   * an error object gives `ServerError` with the body; any other body is
   * handed back untouched.
   */
  function HttpQuery(c: DruidClient, request: string, env: Collaborators): (o: Outcome<string>)
    requires |c.pool.brokers| > 0
    ensures o.sent == [Request(Url(c).url, request)] && o.client == Url(c).client
    ensures env.send(o.sent[0]).TransportFailed? ==> o.result == Failure(HttpConnection)
    ensures env.send(o.sent[0]).Delivered? ==>
      var body := env.send(o.sent[0]).body;
      && (env.parse(body).None? ==> o.result == Failure(ParsingError))
      && (env.parse(body).Some? && IsServerError(env.parse(body).value) ==> o.result == Failure(ServerError(body)))
      && (env.parse(body).Some? && !IsServerError(env.parse(body).value) ==> o.result == Success(body))
  {
    var addressed := Url(c);
    var req := Request(addressed.url, request);
    var result :=
      match env.send(req)
      case TransportFailed => Failure(HttpConnection)
      case Delivered(body) =>
        match env.parse(body)
        case None => Failure(ParsingError)
        case Some(j) => if IsServerError(j) then Failure(ServerError(body)) else Success(body);
    Outcome(result, addressed.client, [req])
  }

  /**
   * `_query`: a request that cannot be written fails with `ParsingError`
   * before any broker is selected or anything is sent; otherwise the body
   * `http_query` hands back is read with `decode`, and a failure there
   * gives `ParsingResponseError`.
   */
  function RunQuery<T>(c: DruidClient, request: Json, env: Collaborators, decode: Json -> Result<T>): (o: Outcome<T>)
    requires env.render(request).Some? ==> |c.pool.brokers| > 0
    ensures env.render(request).None? ==> o.result == Failure(ParsingError) && o.client == c && o.sent == []
    ensures env.render(request).Some? ==> o.sent == [Request(Url(c).url, env.render(request).value)] && o.client == Url(c).client
    ensures o.result.Success? ==>
      && env.send(o.sent[0]).Delivered?
      && env.parse(env.send(o.sent[0]).body).Some?
      && !IsServerError(env.parse(env.send(o.sent[0]).body).value)
      && decode(env.parse(env.send(o.sent[0]).body).value) == Ok(o.result.value)
  {
    match env.render(request)
    case None => Outcome(Failure(ParsingError), c, [])
    case Some(text) =>
      var http := HttpQuery(c, text, env);
      var result :=
        match http.result
        case Failure(e) => Failure(e)
        case Success(body) =>
          match env.parse(body)
          case Some(j) => (match decode(j) case Ok(v) => Success(v) case Err(_) => Failure(ParsingResponseError))
          case None => Failure(ParsingResponseError);
      Outcome(result, http.client, http.sent)
  }

  // ---------------------------------------------------------------------------
  // How a call's result is classified
  // ---------------------------------------------------------------------------

  /** The body delivered by the one request a call sent, if it sent one and the exchange completed. */
  predicate DeliveredBody(env: Collaborators, sent: seq<Request>, body: string)
  {
    |sent| == 1 && env.send(sent[0]) == Delivered(body)
  }

  /** `HttpConnection` comes from the transport, and from nothing else. */
  lemma HttpConnectionExactly<T>(c: DruidClient, request: Json, env: Collaborators, decode: Json -> Result<T>)
    requires env.render(request).Some? ==> |c.pool.brokers| > 0
    ensures var o := RunQuery(c, request, env, decode);
      o.result == Failure(HttpConnection) <==> |o.sent| == 1 && env.send(o.sent[0]).TransportFailed?
  {
  }

  /**
   * `ParsingError` has two sources that the caller cannot tell apart: the
   * request could not be written, or the answer was not JSON.
   */
  lemma ParsingErrorExactly<T>(c: DruidClient, request: Json, env: Collaborators, decode: Json -> Result<T>)
    requires env.render(request).Some? ==> |c.pool.brokers| > 0
    ensures var o := RunQuery(c, request, env, decode);
      o.result == Failure(ParsingError) <==>
        env.render(request).None? || exists body :: DeliveredBody(env, o.sent, body) && env.parse(body).None?
  {
    var o := RunQuery(c, request, env, decode);
    if env.render(request).Some? && env.send(o.sent[0]).Delivered? {
      assert DeliveredBody(env, o.sent, env.send(o.sent[0]).body);
    }
  }

  /**
   * An error object is reported as `ServerError` carrying the body as it
   * arrived, and typed reading is never tried: two different decoders give
   * the same result.
   */
  lemma ServerErrorShortCircuits<T>(c: DruidClient, request: Json, env: Collaborators,
                                    decode: Json -> Result<T>, other: Json -> Result<T>, body: string)
    requires env.render(request).Some? && |c.pool.brokers| > 0
    requires env.send(Request(Url(c).url, env.render(request).value)) == Delivered(body)
    requires env.parse(body).Some? && IsServerError(env.parse(body).value)
    ensures RunQuery(c, request, env, decode).result == Failure(ServerError(body))
    ensures RunQuery(c, request, env, decode).result == RunQuery(c, request, env, other).result
  {
  }

  /** A body that is JSON and not an error object reaches typed reading unchanged; failing there gives `ParsingResponseError`. */
  lemma TypedReadingDecides<T>(c: DruidClient, request: Json, env: Collaborators, decode: Json -> Result<T>, body: string)
    requires env.render(request).Some? && |c.pool.brokers| > 0
    requires env.send(Request(Url(c).url, env.render(request).value)) == Delivered(body)
    requires env.parse(body).Some? && !IsServerError(env.parse(body).value)
    ensures decode(env.parse(body).value).Ok? ==> RunQuery(c, request, env, decode).result == Success(decode(env.parse(body).value).value)
    ensures decode(env.parse(body).value).Err? ==> RunQuery(c, request, env, decode).result == Failure(ParsingResponseError)
  {
  }

  /** A failed call leaves the client usable: only the selection state moved, by at most one step. */
  lemma FailureKeepsPool<T>(c: DruidClient, request: Json, env: Collaborators, decode: Json -> Result<T>)
    requires |c.pool.brokers| > 0
    ensures var o := RunQuery(c, request, env, decode);
      && o.client.pool.brokers == c.pool.brokers
      && (o.client == c || o.client.pool == Connection.Broker(c.pool).pool)
  {
  }

  // ---------------------------------------------------------------------------
  // One operation per query kind
  // ---------------------------------------------------------------------------

  /** Each answer is a JSON array of envelopes. */
  function DecodeEnvelopes<E>(j: Json, decodeEnvelope: Json -> Result<E>): Result<seq<E>>
  {
    DecodeSeq(j, decodeEnvelope)
  }

  /** `query`: any query, answered with bare rows. */
  function QueryRows<T>(c: DruidClient, q: Query, env: Collaborators, decodeRow: Json -> Result<T>): (o: Outcome<seq<T>>)
    requires env.render(EncodeQuery(q)).Some? ==> |c.pool.brokers| > 0
    ensures env.render(EncodeQuery(q)).None? ==> o.sent == []
    ensures env.render(EncodeQuery(q)).Some? ==> |o.sent| == 1 && o.sent[0].body == env.render(EncodeQuery(q)).value
  {
    RunQuery(c, EncodeQuery(q), env, (j: Json) => DecodeEnvelopes(j, decodeRow))
  }

  /** `top_n`: the struct itself is written, and the answer read as top-n envelopes. */
  function TopNCall<T>(c: DruidClient, q: TopN, env: Collaborators, decodeRow: Json -> Result<T>): (o: Outcome<seq<ListResponse<T>>>)
    requires env.render(EncodeTopN(q)).Some? ==> |c.pool.brokers| > 0
    ensures env.render(EncodeTopN(q)).None? ==> o.sent == []
    ensures env.render(EncodeTopN(q)).Some? ==> |o.sent| == 1 && o.sent[0].body == env.render(EncodeTopN(q)).value
  {
    RunQuery(c, EncodeTopN(q), env, (j: Json) => DecodeEnvelopes(j, (x: Json) => DecodeListResponse(x, decodeRow)))
  }

  /** `search`: the rows of a search answer are `DimValue`s, whatever row type the caller names. */
  function SearchCall(c: DruidClient, q: Search, env: Collaborators): (o: Outcome<seq<ListResponse<DimValue>>>)
    requires env.render(EncodeSearch(q)).Some? ==> |c.pool.brokers| > 0
    ensures env.render(EncodeSearch(q)).None? ==> o.sent == []
    ensures env.render(EncodeSearch(q)).Some? ==> |o.sent| == 1 && o.sent[0].body == env.render(EncodeSearch(q)).value
  {
    RunQuery(c, EncodeSearch(q), env, (j: Json) => DecodeEnvelopes(j, (x: Json) => DecodeListResponse(x, DecodeDimValue)))
  }

  function GroupByCall<T>(c: DruidClient, q: GroupBy, env: Collaborators, decodeEvent: Json -> Result<T>): (o: Outcome<seq<GroupByResponse<T>>>)
    requires env.render(EncodeGroupBy(q)).Some? ==> |c.pool.brokers| > 0
    ensures env.render(EncodeGroupBy(q)).None? ==> o.sent == []
    ensures env.render(EncodeGroupBy(q)).Some? ==> |o.sent| == 1 && o.sent[0].body == env.render(EncodeGroupBy(q)).value
  {
    RunQuery(c, EncodeGroupBy(q), env, (j: Json) => DecodeEnvelopes(j, (x: Json) => DecodeGroupByResponse(x, decodeEvent)))
  }

  function ScanCall<T>(c: DruidClient, q: Scan, env: Collaborators, decodeEvent: Json -> Result<T>): (o: Outcome<seq<ScanResponse<T>>>)
    requires env.render(EncodeScan(q)).Some? ==> |c.pool.brokers| > 0
    ensures env.render(EncodeScan(q)).None? ==> o.sent == []
    ensures env.render(EncodeScan(q)).Some? ==> |o.sent| == 1 && o.sent[0].body == env.render(EncodeScan(q)).value
  {
    RunQuery(c, EncodeScan(q), env, (j: Json) => DecodeEnvelopes(j, (x: Json) => DecodeScanResponse(x, decodeEvent)))
  }

  /** `time_boundary`: the row type the caller names is not used. */
  function TimeBoundaryCall(c: DruidClient, q: TimeBoundary, env: Collaborators): (o: Outcome<seq<TimeBoundaryResponse>>)
    requires env.render(EncodeTimeBoundary(q)).Some? ==> |c.pool.brokers| > 0
    ensures env.render(EncodeTimeBoundary(q)).None? ==> o.sent == []
    ensures env.render(EncodeTimeBoundary(q)).Some? ==> |o.sent| == 1 && o.sent[0].body == env.render(EncodeTimeBoundary(q)).value
  {
    RunQuery(c, EncodeTimeBoundary(q), env, (j: Json) => DecodeEnvelopes(j, DecodeTimeBoundaryResponse))
  }

  function SegmentMetadataCall(c: DruidClient, q: SegmentMetadata, env: Collaborators): (o: Outcome<seq<SegmentMetadataResponse>>)
    requires env.render(EncodeSegmentMetadata(q)).Some? ==> |c.pool.brokers| > 0
    ensures env.render(EncodeSegmentMetadata(q)).None? ==> o.sent == []
    ensures env.render(EncodeSegmentMetadata(q)).Some? ==> |o.sent| == 1 && o.sent[0].body == env.render(EncodeSegmentMetadata(q)).value
  {
    RunQuery(c, EncodeSegmentMetadata(q), env, (j: Json) => DecodeEnvelopes(j, DecodeSegmentMetadataResponse))
  }

  /** The query `datasource_metadata` sends: the given data source and an empty context. */
  function MetadataRequest(dataSource: DataSource): (m: DataSourceMetadata)
    ensures m.dataSource == dataSource && m.context == map[]
    ensures EncodeDataSourceMetadata(m).fields["queryType"] == Str("dataSourceMetadata")
    ensures EncodeDataSourceMetadata(m).fields["context"] == Obj(map[])
  {
    DataSourceMetadata(dataSource, map[])
  }

  /** `datasource_metadata`: answered with metadata envelopes whose result is a string-to-string map. */
  function DatasourceMetadataCall(c: DruidClient, dataSource: DataSource, env: Collaborators): (o: Outcome<seq<MetadataResponse<map<string, string>>>>)
    requires env.render(EncodeDataSourceMetadata(MetadataRequest(dataSource))).Some? ==> |c.pool.brokers| > 0
    ensures env.render(EncodeDataSourceMetadata(MetadataRequest(dataSource))).None? ==> o.sent == []
    ensures env.render(EncodeDataSourceMetadata(MetadataRequest(dataSource))).Some? ==>
      |o.sent| == 1 && o.sent[0].body == env.render(EncodeDataSourceMetadata(MetadataRequest(dataSource))).value
  {
    RunQuery(c, EncodeDataSourceMetadata(MetadataRequest(dataSource)), env,
             (j: Json) => DecodeEnvelopes(j, (x: Json) => DecodeMetadataResponse(x, DecodeStringMap)))
  }

  /**
   * The answer `{"error": "some failure"}` is a `ServerError` carrying the
   * body as it arrived, whichever query kind asked for it.
   */
  lemma ErrorBodyForEveryKind(c: DruidClient, q: Query, env: Collaborators, body: string)
    requires env.render(EncodeQuery(q)).Some? && |c.pool.brokers| > 0
    requires env.send(Request(Url(c).url, env.render(EncodeQuery(q)).value)) == Delivered(body)
    requires env.parse(body) == Some(Obj(map["error" := Str("some failure")]))
    ensures QueryRows(c, q, env, DecodeString).result == Failure(ServerError(body))
    ensures match q
      case TopNQuery(t) =>
        TopNCall(c, t, env, DecodeString).result == Failure(ServerError(body))
      case SearchQuery(s) =>
        SearchCall(c, s, env).result == Failure(ServerError(body))
      case GroupByQuery(g) =>
        GroupByCall(c, g, env, DecodeString).result == Failure(ServerError(body))
      case ScanQuery(s) =>
        ScanCall(c, s, env, DecodeString).result == Failure(ServerError(body))
      case TimeBoundaryQuery(t) =>
        TimeBoundaryCall(c, t, env).result == Failure(ServerError(body))
      case SegmentMetadataQuery(s) =>
        SegmentMetadataCall(c, s, env).result == Failure(ServerError(body))
  {
  }
}
