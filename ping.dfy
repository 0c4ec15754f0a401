/** The ping call: an authenticated request that reports the caller's address. */
module PingCheck {
  import opened Wrappers
  import opened Json
  import opened Porkbun

  datatype PingResponse = PingResponse(status: string, yourIp: string)

  /** POST just the two credentials to the ping endpoint. */
  function Ping(c: Config): (r: Result<Request, ClientError>)
    ensures MissingCredential(c).Some? ==> r == Failure(MissingCredential(c).value)
    ensures MissingCredential(c).None? ==> r.Success?
    ensures r.Success? ==> r.value.verb == "POST" && r.value.body == Credentials(c)
    ensures r.Success? ==> r.value.url == c.baseUrl + "/" + "/api/json/v3/ping"
  {
    var body :- WithAuthentication(c, Empty);
    Success(Do(c, "/api/json/v3/ping", body))
  }

  /** The ping reply: a status and the address the server saw. */
  function DecodePing(d: Option<Json>): (r: Option<PingResponse>)
    ensures r.Some? ==> d.Some? && (d.value.Object? || d.value.Null?)
    ensures d == Some(Null) ==> r == Some(PingResponse("", ""))
    ensures d.Some? && d.value.Object? ==>
              (r.Some? <==> StringField(d.value.fields, "status").Some? && StringField(d.value.fields, "yourIp").Some?)
    ensures r.Some? && d.value.Object? ==>
              r.value.status == StringField(d.value.fields, "status").value &&
              r.value.yourIp == StringField(d.value.fields, "yourIp").value
  {
    var j :- d;
    var fields :- StructFields(j);
    var status :- StringField(fields, "status");
    var yourIp :- StringField(fields, "yourIp");
    Some(PingResponse(status, yourIp))
  }

  /** The JSON object the server sends for a ping reply. */
  function PingFields(resp: PingResponse): map<string, Json>
  {
    map["status" := Str(resp.status), "yourIp" := Str(resp.yourIp)]
  }

  /** Every ping reply decodes to itself. */
  lemma PingRoundTrip(resp: PingResponse)
    ensures DecodePing(Some(Object(PingFields(resp)))) == Some(resp)
  {
    var fields := PingFields(resp);
    assert |"status"| == 6 && |"yourIp"| == 6 && "status"[0] != "yourIp"[0];
    assert StringField(fields, "status") == Some(resp.status);
    assert StringField(fields, "yourIp") == Some(resp.yourIp);
  }
}
