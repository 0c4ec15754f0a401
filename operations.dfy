/**
 * One call of the client end to end: build the request, hand it to the
 * server, and turn the reply into a typed response or an error. Which calls
 * look at the status code is a property of the call alone.
 */
module Operations {
  import opened Wrappers
  import opened Json
  import opened Porkbun
  import opened DnsRecords
  import PingCheck

  /** The operations of the client and their arguments. */
  datatype Call =
    | Create(domain: string, params: Record)
    | List(domain: string, subdomain: string, recordType: string)
    | GetById(domain: string, number: int)
    | Modify(domain: string, record: Record)
    | DeleteById(domain: string, id: string)
    | DeleteByLookup(domain: string, subdomain: string, recordType: string)
    | Ping

  /** The typed response of a successful call. */
  datatype Reply =
    | Created(created: CreateResponse)
    | Listed(listed: RecordsResponse)
    | Changed(changed: StatusResponse)
    | Pong(pong: PingCheck.PingResponse)

  /** What the transport brings back: a reply, or a failure to get one. */
  datatype Delivery = Delivered(response: HttpResponse) | Unreachable(reason: string)

  /** The request a call sent, if any, and what the caller gets back. */
  datatype Exchange = Exchange(sent: Option<Request>, result: Result<Reply, ClientError>)

  /** The request a call sends, or the error that stops it before sending. */
  function BuildRequest(c: Config, call: Call): (r: Result<Request, ClientError>)
    ensures r.Failure? <==>
              MissingCredential(c).Some? ||
              (call.Modify? && call.record.id == "" && call.record.recordType == "")
    ensures MissingCredential(c).Some? ==> r == Failure(MissingCredential(c).value)
    ensures r.Failure? && MissingCredential(c).None? ==> r.error == RecordTypeRequired
  {
    match call
    case Create(domain, params) => CreateDnsRecord(c, domain, params)
    case List(domain, subdomain, recordType) => ListDnsRecords(c, domain, subdomain, recordType)
    case GetById(domain, number) => GetDnsRecordById(c, domain, number)
    case Modify(domain, record) => ModifyDnsRecord(c, domain, record)
    case DeleteById(domain, id) => DeleteDnsRecordById(c, domain, id)
    case DeleteByLookup(domain, subdomain, recordType) => DeleteDnsRecordByLookup(c, domain, subdomain, recordType)
    case Ping => PingCheck.Ping(c)
  }

  /** The calls that report a reply outside 2xx as an API error: create, modify and both deletes. */
  predicate ChecksStatus(call: Call)
    ensures ChecksStatus(call) <==> !(call.List? || call.GetById? || call.Ping?)
  {
    call.Create? || call.Modify? || call.DeleteById? || call.DeleteByLookup?
  }

  predicate Successful(status: int)
  {
    200 <= status < 300
  }

  /** The reply body decoded into the response type of the call. */
  function Decode(call: Call, decoded: Option<Json>): (r: Option<Reply>)
    ensures r.Some? ==> decoded.Some? && (decoded.value.Object? || decoded.value.Null?)
    ensures call.Create? ==>
              (r.Some? <==> DecodeCreate(decoded).Some?) &&
              (r.Some? ==> r.value == Created(DecodeCreate(decoded).value))
    ensures call.List? || call.GetById? ==>
              (r.Some? <==> DecodeRecordsResponse(decoded).Some?) &&
              (r.Some? ==> r.value == Listed(DecodeRecordsResponse(decoded).value))
    ensures call.Modify? || call.DeleteById? || call.DeleteByLookup? ==>
              (r.Some? <==> DecodeStatus(decoded).Some?) &&
              (r.Some? ==> r.value == Changed(DecodeStatus(decoded).value))
    ensures call.Ping? ==>
              (r.Some? <==> PingCheck.DecodePing(decoded).Some?) &&
              (r.Some? ==> r.value == Pong(PingCheck.DecodePing(decoded).value))
  {
    match call
    case Create(_, _) =>
      var created :- DecodeCreate(decoded);
      Some(Created(created))
    case List(_, _, _) =>
      var listed :- DecodeRecordsResponse(decoded);
      Some(Listed(listed))
    case GetById(_, _) =>
      var listed :- DecodeRecordsResponse(decoded);
      Some(Listed(listed))
    case Ping =>
      var pong :- PingCheck.DecodePing(decoded);
      Some(Pong(pong))
    case _ =>
      var changed :- DecodeStatus(decoded);
      Some(Changed(changed))
  }

  /**
   * Classify a reply: a call that checks the status turns a code outside
   * 2xx into an API error holding the code and the raw text; every other
   * reply is decoded, and a body that does not decode is a decode error.
   */
  function Classify(call: Call, res: HttpResponse): (r: Result<Reply, ClientError>)
    ensures (r.Failure? && r.error.ApiError?) <==> ChecksStatus(call) && !Successful(res.status)
    ensures r.Failure? && r.error.ApiError? ==> r.error == ApiError(res.status, res.text)
    ensures r.Failure? && !r.error.ApiError? ==> r.error == ResponseDecode
    ensures r.Success? <==> (!ChecksStatus(call) || Successful(res.status)) && Decode(call, res.decoded).Some?
    ensures r.Success? ==> r.value == Decode(call, res.decoded).value
  {
    if ChecksStatus(call) && !Successful(res.status) then
      Failure(ApiError(res.status, res.text))
    else
      match Decode(call, res.decoded)
      case Some(reply) => Success(reply)
      case None => Failure(ResponseDecode)
  }

  /** Listing, fetching and pinging never look at the status: only the body decides. */
  lemma ReadsIgnoreStatus(call: Call, res: HttpResponse, status: int)
    requires !ChecksStatus(call)
    ensures Classify(call, res) == Classify(call, res.(status := status))
  {
  }

  /** Perform a call against `server`, which stands for the network and the remote API. */
  function Perform(c: Config, call: Call, server: Request -> Delivery): (e: Exchange)
    ensures e.sent.None? <==> BuildRequest(c, call).Failure?
    ensures e.sent.None? ==> e.result == Failure(BuildRequest(c, call).error)
    ensures e.sent.Some? ==> e.sent.value == BuildRequest(c, call).value
    ensures e.sent.Some? && server(e.sent.value).Unreachable? ==>
              e.result == Failure(TransportFailed(server(e.sent.value).reason))
    ensures e.sent.Some? && server(e.sent.value).Delivered? ==>
              e.result == Classify(call, server(e.sent.value).response)
  {
    match BuildRequest(c, call)
    case Failure(err) => Exchange(None, Failure(err))
    case Success(req) =>
      match server(req)
      case Unreachable(reason) => Exchange(Some(req), Failure(TransportFailed(reason)))
      case Delivered(res) => Exchange(Some(req), Classify(call, res))
  }

  /** A missing credential is reported before anything else and nothing reaches the server. */
  lemma CredentialsCheckedFirst(c: Config, call: Call, server: Request -> Delivery)
    requires MissingCredential(c).Some?
    ensures Perform(c, call, server) == Exchange(None, Failure(MissingCredential(c).value))
  {
  }

  /** Every request sent is a POST under the base URL that carries both credentials. */
  lemma EveryRequestAuthenticated(c: Config, call: Call)
    requires BuildRequest(c, call).Success?
    ensures BuildRequest(c, call).value.verb == "POST"
    ensures c.baseUrl + "/" <= BuildRequest(c, call).value.url
    ensures ApiKeyField in BuildRequest(c, call).value.body
    ensures BuildRequest(c, call).value.body[ApiKeyField] == Str(c.apiKey)
    ensures SecretKeyField in BuildRequest(c, call).value.body
    ensures BuildRequest(c, call).value.body[SecretKeyField] == Str(c.secretKey)
  {
    var req := BuildRequest(c, call).value;
    match call
    case Create(domain, params) =>
      assert req.url == c.baseUrl + "/" + "/api/json/v3/dns/create/" + domain;
    case List(domain, subdomain, recordType) =>
      assert req.url[..|c.baseUrl| + 1] == c.baseUrl + "/";
    case GetById(domain, number) =>
      assert req.url == c.baseUrl + "/" + "/api/json/v3/dns/retrieve/" + domain + "/" + Strings.Decimal(number);
    case Modify(domain, record) =>
      assert req.url == c.baseUrl + "/" + ModifyEndpoint(domain, record).value;
    case DeleteById(domain, id) =>
      assert req.url == c.baseUrl + "/" + "/api/json/v3/dns/delete/" + domain + "/" + id;
    case DeleteByLookup(domain, subdomain, recordType) =>
      assert req.url == c.baseUrl + "/" + "/api/json/v3/dns/deleteByNameType/" + domain + "/" + recordType + "/" + subdomain;
    case Ping =>
      assert req.url == c.baseUrl + "/" + "/api/json/v3/ping";
  }

  /**
   * An API error comes only from a call that checks the status, after its
   * request was sent and answered outside 2xx; it holds that code and text.
   */
  lemma ApiErrorMeansRejected(c: Config, call: Call, server: Request -> Delivery)
    requires Perform(c, call, server).result.Failure?
    requires Perform(c, call, server).result.error.ApiError?
    ensures ChecksStatus(call)
    ensures Perform(c, call, server).sent.Some?
    ensures server(Perform(c, call, server).sent.value).Delivered?
    ensures
      var res := server(Perform(c, call, server).sent.value).response;
      && !Successful(res.status)
      && Perform(c, call, server).result.error == ApiError(res.status, res.text)
  {
  }

  /**
   * The errors raised before sending and those raised after are disjoint:
   * a call that sent nothing failed on a credential or a missing record
   * type, and a call that sent its request never fails on either.
   */
  lemma LocalAndRemoteErrors(c: Config, call: Call, server: Request -> Delivery)
    ensures Perform(c, call, server).sent.None? ==>
              && Perform(c, call, server).result.Failure?
              && (Perform(c, call, server).result.error.MissingAccessKey? ||
                  Perform(c, call, server).result.error == RecordTypeRequired)
    ensures Perform(c, call, server).sent.Some? && Perform(c, call, server).result.Failure? ==>
              var err := Perform(c, call, server).result.error;
              err.ApiError? || err.TransportFailed? || err == ResponseDecode
  {
  }

  /** A create answered in 2xx with a create reply yields exactly that reply. */
  lemma CreateAccepted(c: Config, domain: string, params: Record, server: Request -> Delivery, resp: CreateResponse)
    requires MissingCredential(c).None?
    requires MinInt64 <= resp.id <= MaxInt64
    requires forall req :: server(req).Delivered? && Successful(server(req).response.status)
    requires forall req :: server(req).response.decoded == Some(Object(CreateFields(resp)))
    ensures Perform(c, Create(domain, params), server).result == Success(Created(resp))
  {
    CreateRoundTrip(resp);
  }

  /** A ping whose reply carries a status and an address yields exactly those. */
  lemma PingAnswered(c: Config, server: Request -> Delivery, resp: PingCheck.PingResponse, status: int, text: string)
    requires MissingCredential(c).None?
    requires forall req :: server(req) == Delivered(HttpResponse(status, text, Some(Object(PingCheck.PingFields(resp)))))
    ensures Perform(c, Ping, server).result == Success(Pong(resp))
  {
    PingCheck.PingRoundTrip(resp);
  }

  /** A modify or delete answered outside 2xx fails with that code and text, whatever the body decodes to. */
  lemma RejectedChange(c: Config, call: Call, server: Request -> Delivery, res: HttpResponse)
    requires BuildRequest(c, call).Success?
    requires ChecksStatus(call)
    requires server(BuildRequest(c, call).value) == Delivered(res)
    requires !Successful(res.status)
    ensures Perform(c, call, server).result == Failure(ApiError(res.status, res.text))
  {
  }

  /**
   * Listing and fetching do not check the status, so an error reply that
   * carries only a status, whatever its code, is a successful empty listing.
   */
  lemma StatusOnlyListing(c: Config, call: Call, server: Request -> Delivery, code: int, text: string, status: string)
    requires call.List? || call.GetById?
    requires BuildRequest(c, call).Success?
    requires server(BuildRequest(c, call).value) == Delivered(HttpResponse(code, text, Some(Object(map["status" := Str(status)]))))
    ensures Perform(c, call, server).result == Success(Listed(RecordsResponse(status, [])))
  {
  }

  /** Likewise a ping answered with only a status, at any code, succeeds with an empty address. */
  lemma StatusOnlyPing(c: Config, server: Request -> Delivery, code: int, text: string, status: string)
    requires MissingCredential(c).None?
    requires server(BuildRequest(c, Ping).value) == Delivered(HttpResponse(code, text, Some(Object(map["status" := Str(status)]))))
    ensures Perform(c, Ping, server).result == Success(Pong(PingCheck.PingResponse(status, "")))
  {
  }
}
