/**
 * The DNS record operations of the client: the record entity, the request
 * each operation sends (endpoint and body), the error an unsuccessful reply
 * becomes, and the typed decoding of the replies.
 */
module DnsRecords {
  import opened Wrappers
  import opened Strings
  import opened Json
  import opened Porkbun

  // ---- the record ----

  /** A DNS record as the API exchanges it; every field, even the TTL, is a string. */
  datatype Record = Record(
    id: string,
    notes: string,
    name: string,
    recordType: string,
    content: string,
    ttl: string,
    priority: string)

  const ZeroRecord: Record := Record("", "", "", "", "", "", "")

  /** The JSON tags of the record's fields. */
  const RecordKeys: set<string> := {"id", "notes", "name", "type", "content", "ttl", "prio"}

  /** The JSON object a record marshals to: every field under its tag, empty ones included. */
  function RecordFields(r: Record): (m: map<string, Json>)
    ensures m.Keys == RecordKeys
    ensures forall k :: k in m ==> m[k].Str?
  {
    map["id" := Str(r.id), "notes" := Str(r.notes), "name" := Str(r.name),
        "type" := Str(r.recordType), "content" := Str(r.content),
        "ttl" := Str(r.ttl), "prio" := Str(r.priority)]
  }

  /** A record decoded from a JSON value: `null` is the zero record, unknown members are ignored. */
  function DecodeRecord(j: Json): (r: Option<Record>)
    ensures r.Some? ==> j.Object? || j.Null?
    ensures j.Null? ==> r == Some(ZeroRecord)
    ensures j.Object? ==> (r.Some? <==> forall k :: k in RecordKeys ==> StringField(j.fields, k).Some?)
    ensures r.Some? && j.Object? ==>
              forall k :: k in RecordKeys ==> RecordFields(r.value)[k] == Str(StringField(j.fields, k).value)
  {
    var fields :- StructFields(j);
    var id :- StringField(fields, "id");
    var notes :- StringField(fields, "notes");
    var name :- StringField(fields, "name");
    var recordType :- StringField(fields, "type");
    var content :- StringField(fields, "content");
    var ttl :- StringField(fields, "ttl");
    var priority :- StringField(fields, "prio");
    Some(Record(id, notes, name, recordType, content, ttl, priority))
  }

  /** Neither credential name is a record tag, so adding credentials never hides a record field. */
  lemma CredentialsAreNotRecordKeys()
    ensures ApiKeyField !in RecordKeys && SecretKeyField !in RecordKeys
  {
    assert |ApiKeyField| == 6 && |SecretKeyField| == 12;
  }

  /** Marshalling a record and decoding it again gives the record back, whatever other members travel with it. */
  lemma RecordRoundTrip(r: Record, extra: map<string, Json>)
    requires extra.Keys !! RecordKeys
    ensures DecodeRecord(Object(extra + RecordFields(r))) == Some(r)
  {
    var fields := extra + RecordFields(r);
    assert StringField(fields, "id") == Some(r.id);
    assert StringField(fields, "notes") == Some(r.notes);
    assert StringField(fields, "name") == Some(r.name);
    assert StringField(fields, "type") == Some(r.recordType);
    assert StringField(fields, "content") == Some(r.content);
    assert StringField(fields, "ttl") == Some(r.ttl);
    assert StringField(fields, "prio") == Some(r.priority);
  }

  /** A records array decoded element by element: one bad element spoils the whole array. */
  function DecodeRecords(items: seq<Json>): (r: Option<seq<Record>>)
    ensures r.Some? <==> forall i :: 0 <= i < |items| ==> DecodeRecord(items[i]).Some?
    ensures r.Some? ==> |r.value| == |items|
    ensures r.Some? ==> forall i :: 0 <= i < |items| ==> DecodeRecord(items[i]) == Some(r.value[i])
    decreases |items|
  {
    if items == [] then Some([])
    else
      var head :- DecodeRecord(items[0]);
      var tail :- DecodeRecords(items[1..]);
      Some([head] + tail)
  }

  /** The JSON array a list of records marshals to. */
  function EncodeRecords(rs: seq<Record>): (items: seq<Json>)
    ensures |items| == |rs|
  {
    seq(|rs|, i requires 0 <= i < |rs| => Object(RecordFields(rs[i])))
  }

  /** Decoding a marshalled list of records gives the list back. */
  lemma RecordsRoundTrip(rs: seq<Record>)
    ensures DecodeRecords(EncodeRecords(rs)) == Some(rs)
  {
    var items := EncodeRecords(rs);
    forall i | 0 <= i < |rs|
      ensures DecodeRecord(items[i]) == Some(rs[i])
    {
      RecordRoundTrip(rs[i], map[]);
      assert map[] + RecordFields(rs[i]) == RecordFields(rs[i]);
    }
    var r := DecodeRecords(items);
    assert r.value == rs;
  }

  // ---- requests ----

  /**
   * A request body as the record operations send it: both credentials, and
   * every record field, which the server decodes back into `rec`.
   */
  predicate CarriesRecord(body: map<string, Json>, c: Config, rec: Record)
  {
    && body.Keys == {ApiKeyField, SecretKeyField} + RecordKeys
    && ApiKeyField in body && body[ApiKeyField] == Str(c.apiKey)
    && SecretKeyField in body && body[SecretKeyField] == Str(c.secretKey)
    && (forall k :: k in RecordKeys ==> body[k].Str?)
    && DecodeRecord(Object(body)) == Some(rec)
  }

  /** The credentials merged over by a marshalled record keep both credentials and the whole record. */
  lemma AuthenticatedRecord(c: Config, rec: Record)
    ensures MissingCredential(c).None? ==>
              && WithAuthentication(c, Document(Object(RecordFields(rec)))).Success?
              && CarriesRecord(WithAuthentication(c, Document(Object(RecordFields(rec)))).value, c, rec)
  {
    if MissingCredential(c).Some? {
      return;
    }
    CredentialsAreNotRecordKeys();
    RecordRoundTrip(rec, Credentials(c));
    assert Credentials(c).Keys == {ApiKeyField, SecretKeyField};
    assert WithAuthentication(c, Document(Object(RecordFields(rec)))).value == Credentials(c) + RecordFields(rec);
  }

  /** The body the create and modify operations send: the marshalled record with the credentials merged in. */
  function RecordBody(c: Config, rec: Record): (r: Result<map<string, Json>, ClientError>)
    ensures MissingCredential(c).Some? ==> r == Failure(MissingCredential(c).value)
    ensures MissingCredential(c).None? ==> r.Success? && CarriesRecord(r.value, c, rec)
  {
    AuthenticatedRecord(c, rec);
    WithAuthentication(c, Document(Object(RecordFields(rec))))
  }

  /** Create a record on `domain`: POST the marshalled record with the credentials to dns/create/{domain}. */
  function CreateDnsRecord(c: Config, domain: string, params: Record): (r: Result<Request, ClientError>)
    ensures MissingCredential(c).Some? ==> r == Failure(MissingCredential(c).value)
    ensures MissingCredential(c).None? ==> r.Success?
    ensures r.Success? ==> r.value.verb == "POST"
    ensures r.Success? ==> r.value.url == c.baseUrl + "/" + "/api/json/v3/dns/create/" + domain
    ensures r.Success? ==> CarriesRecord(r.value.body, c, params)
  {
    var body :- RecordBody(c, params);
    Success(Do(c, "/api/json/v3/dns/create/" + domain, body))
  }

  /**
   * List the records of `domain`: all of them when no type is given (the
   * subdomain is then ignored), else those with that type and subdomain.
   */
  function ListDnsRecords(c: Config, domain: string, subdomain: string, recordType: string): (r: Result<Request, ClientError>)
    ensures MissingCredential(c).Some? ==> r == Failure(MissingCredential(c).value)
    ensures MissingCredential(c).None? ==> r.Success? && r.value.body == Credentials(c)
    ensures r.Success? && recordType != "" ==>
              r.value.url == c.baseUrl + "/" + "/api/json/v3/dns/retrieveByNameType/" + domain + "/" + recordType + "/" + subdomain
    ensures r.Success? && recordType == "" ==>
              r.value.url == c.baseUrl + "/" + "/api/json/v3/dns/retrieve/" + domain
  {
    var body :- WithAuthentication(c, Empty);
    var url := if recordType != "" then
        "/api/json/v3/dns/retrieveByNameType/" + domain + "/" + recordType + "/" + subdomain
      else
        "/api/json/v3/dns/retrieve/" + domain;
    Success(Do(c, url, body))
  }

  /** Without a record type the subdomain plays no part in a listing. */
  lemma ListIgnoresSubdomainWithoutType(c: Config, domain: string, sub1: string, sub2: string)
    ensures ListDnsRecords(c, domain, sub1, "") == ListDnsRecords(c, domain, sub2, "")
  {
  }

  /** Fetch one record of `domain` by its numeric id, written in decimal into the path. */
  function GetDnsRecordById(c: Config, domain: string, id: int): (r: Result<Request, ClientError>)
    ensures MissingCredential(c).Some? ==> r == Failure(MissingCredential(c).value)
    ensures MissingCredential(c).None? ==> r.Success? && r.value.body == Credentials(c)
    ensures r.Success? ==> r.value.url == c.baseUrl + "/" + "/api/json/v3/dns/retrieve/" + domain + "/" + Decimal(id)
  {
    var body :- WithAuthentication(c, Empty);
    var path := "/api/json/v3/dns/retrieve/" + domain + "/" + Decimal(id);
    Success(Do(c, path, body))
  }

  /** Different ids never fetch through the same path. */
  lemma GetByIdDistinguishesIds(c: Config, domain: string, m: int, n: int)
    requires MissingCredential(c).None?
    requires GetDnsRecordById(c, domain, m).value.url == GetDnsRecordById(c, domain, n).value.url
    ensures m == n
  {
    var prefix := c.baseUrl + "/" + "/api/json/v3/dns/retrieve/" + domain + "/";
    assert prefix + Decimal(m) == prefix + Decimal(n);
    assert Decimal(m) == (prefix + Decimal(m))[|prefix|..];
    assert Decimal(n) == (prefix + Decimal(n))[|prefix|..];
    DecimalInjective(m, n);
  }

  /** The endpoint a modify goes to: by id when the record has one, else by type and name, which needs a type. */
  function ModifyEndpoint(domain: string, record: Record): (r: Result<string, ClientError>)
    ensures r.Failure? <==> record.id == "" && record.recordType == ""
    ensures r.Failure? ==> r.error == RecordTypeRequired
    ensures record.id != "" ==> r == Success("/api/json/v3/dns/edit/" + domain + "/" + record.id)
    ensures record.id == "" && record.recordType != "" ==>
              r == Success("/api/json/v3/dns/editByNameType/" + domain + "/" + record.recordType + "/" + record.name)
  {
    if record.id != "" then
      Success("/api/json/v3/dns/edit/" + domain + "/" + record.id)
    else if record.recordType == "" then
      Failure(RecordTypeRequired)
    else
      Success("/api/json/v3/dns/editByNameType/" + domain + "/" + record.recordType + "/" + record.name)
  }

  /**
   * Change a record, found by id or by type and name. The credentials are
   * checked first, then the lookup; nothing is sent when either fails.
   */
  function ModifyDnsRecord(c: Config, domain: string, record: Record): (r: Result<Request, ClientError>)
    ensures MissingCredential(c).Some? ==> r == Failure(MissingCredential(c).value)
    ensures MissingCredential(c).None? && ModifyEndpoint(domain, record).Failure? ==> r == Failure(RecordTypeRequired)
    ensures r.Success? <==> MissingCredential(c).None? && (record.id != "" || record.recordType != "")
    ensures r.Success? ==> r.value.url == c.baseUrl + "/" + ModifyEndpoint(domain, record).value
    ensures r.Success? ==> CarriesRecord(r.value.body, c, record)
  {
    var body :- RecordBody(c, record);
    var endpoint :- ModifyEndpoint(domain, record);
    Success(Do(c, endpoint, body))
  }

  /** A record with an id is modified by id, whatever its type and name say. */
  lemma ModifyByIdIgnoresLookup(c: Config, domain: string, record: Record, recordType: string, name: string)
    requires record.id != ""
    ensures ModifyDnsRecord(c, domain, record).Success? ==
            ModifyDnsRecord(c, domain, record.(recordType := recordType, name := name)).Success?
    ensures ModifyDnsRecord(c, domain, record).Success? ==>
              ModifyDnsRecord(c, domain, record).value.url ==
              ModifyDnsRecord(c, domain, record.(recordType := recordType, name := name)).value.url
  {
  }

  /** Delete one record of `domain` by its id. */
  function DeleteDnsRecordById(c: Config, domain: string, id: string): (r: Result<Request, ClientError>)
    ensures MissingCredential(c).Some? ==> r == Failure(MissingCredential(c).value)
    ensures MissingCredential(c).None? ==> r.Success? && r.value.body == Credentials(c)
    ensures r.Success? ==> r.value.url == c.baseUrl + "/" + "/api/json/v3/dns/delete/" + domain + "/" + id
  {
    var body :- WithAuthentication(c, Empty);
    Success(Do(c, "/api/json/v3/dns/delete/" + domain + "/" + id, body))
  }

  /** Delete the records of `domain` with a given type and subdomain; an empty type is sent as is. */
  function DeleteDnsRecordByLookup(c: Config, domain: string, subdomain: string, recordType: string): (r: Result<Request, ClientError>)
    ensures MissingCredential(c).Some? ==> r == Failure(MissingCredential(c).value)
    ensures MissingCredential(c).None? ==> r.Success? && r.value.body == Credentials(c)
    ensures r.Success? ==>
              r.value.url == c.baseUrl + "/" + "/api/json/v3/dns/deleteByNameType/" + domain + "/" + recordType + "/" + subdomain
  {
    var body :- WithAuthentication(c, Empty);
    Success(Do(c, "/api/json/v3/dns/deleteByNameType/" + domain + "/" + recordType + "/" + subdomain, body))
  }

  // ---- errors ----

  /** The message of an API error: its status code in decimal, then the raw reply text. */
  function ApiErrorMessage(code: int, body: string): (m: string)
    ensures "API error " <= m
    ensures m[|"API error "|..] == Decimal(code) + ": " + body
  {
    "API error " + Decimal(code) + ": " + body
  }

  /** Splitting "d: b" at its first colon, where `d` holds none, recovers `d` and `b`. */
  lemma SplitAtColon(d1: string, b1: string, d2: string, b2: string)
    requires ':' !in d1 && ':' !in d2
    requires d1 + ": " + b1 == d2 + ": " + b2
    ensures d1 == d2 && b1 == b2
  {
    var s := d1 + ": " + b1;
    var t := d2 + ": " + b2;
    assert s[|d1|] == ':';
    assert t[|d2|] == ':';
    if |d1| != |d2| {
      assert false;
    }
    assert d1 == s[..|d1|] && d2 == t[..|d2|];
    assert b1 == s[|d1| + 2..] && b2 == t[|d2| + 2..];
  }

  /** The message determines the error: two API errors with the same text have the same code and body. */
  lemma ApiErrorMessageInjective(code1: int, body1: string, code2: int, body2: string)
    requires ApiErrorMessage(code1, body1) == ApiErrorMessage(code2, body2)
    ensures code1 == code2 && body1 == body2
  {
    var n := |"API error "|;
    var m1 := ApiErrorMessage(code1, body1);
    assert m1[n..] == ApiErrorMessage(code2, body2)[n..];
    SplitAtColon(Decimal(code1), body1, Decimal(code2), body2);
    DecimalInjective(code1, code2);
  }

  // ---- replies ----

  datatype CreateResponse = CreateResponse(status: string, id: int)
  datatype RecordsResponse = RecordsResponse(status: string, records: seq<Record>)
  datatype StatusResponse = StatusResponse(status: string)

  /** The reply to a create: a status and the new record's id, which must fit an int64. */
  function DecodeCreate(d: Option<Json>): (r: Option<CreateResponse>)
    ensures r.Some? ==> d.Some? && (d.value.Object? || d.value.Null?)
    ensures r.Some? ==> MinInt64 <= r.value.id <= MaxInt64
    ensures d == Some(Null) ==> r == Some(CreateResponse("", 0))
    ensures d.Some? && d.value.Object? ==>
              (r.Some? <==> StringField(d.value.fields, "status").Some? && IntField(d.value.fields, "id").Some?)
    ensures r.Some? && d.value.Object? ==>
              r.value.status == StringField(d.value.fields, "status").value &&
              r.value.id == IntField(d.value.fields, "id").value
  {
    var j :- d;
    var fields :- StructFields(j);
    var status :- StringField(fields, "status");
    var id :- IntField(fields, "id");
    Some(CreateResponse(status, id))
  }

  /** The JSON object the server sends for a create reply. */
  function CreateFields(resp: CreateResponse): map<string, Json>
  {
    map["status" := Str(resp.status), "id" := Number(resp.id)]
  }

  /** Any create reply whose id fits an int64 decodes to itself. */
  lemma CreateRoundTrip(resp: CreateResponse)
    requires MinInt64 <= resp.id <= MaxInt64
    ensures DecodeCreate(Some(Object(CreateFields(resp)))) == Some(resp)
  {
    var fields := CreateFields(resp);
    assert StringField(fields, "status") == Some(resp.status);
    assert |"id"| == 2;
    assert IntField(fields, "id") == Some(resp.id);
  }

  /** The reply to a listing or fetch: a status and the records; a missing or null array is empty. */
  function DecodeRecordsResponse(d: Option<Json>): (r: Option<RecordsResponse>)
    ensures r.Some? ==> d.Some? && (d.value.Object? || d.value.Null?)
    ensures d == Some(Null) ==> r == Some(RecordsResponse("", []))
    ensures d.Some? && d.value.Object? ==>
              (r.Some? <==> StringField(d.value.fields, "status").Some? && RecordsMember(d.value.fields).Some?)
    ensures r.Some? && d.value.Object? ==>
              r.value.status == StringField(d.value.fields, "status").value &&
              r.value.records == RecordsMember(d.value.fields).value
  {
    var j :- d;
    var fields :- StructFields(j);
    var status :- StringField(fields, "status");
    var records :- RecordsMember(fields);
    Some(RecordsResponse(status, records))
  }

  /** The `records` member of a reply: absent or `null` is no records, an array is decoded, anything else is an error. */
  function RecordsMember(fields: map<string, Json>): (r: Option<seq<Record>>)
    ensures "records" !in fields ==> r == Some([])
    ensures "records" in fields && fields["records"].Null? ==> r == Some([])
    ensures "records" in fields && fields["records"].Array? ==> r == DecodeRecords(fields["records"].items)
    ensures r.None? <==>
              "records" in fields && !fields["records"].Null? &&
              (fields["records"].Array? ==> DecodeRecords(fields["records"].items).None?)
  {
    if "records" !in fields then Some([])
    else match fields["records"]
      case Null => Some([])
      case Array(items) => DecodeRecords(items)
      case _ => None
  }

  /** The JSON object the server sends for a records reply. */
  function RecordsFields(resp: RecordsResponse): map<string, Json>
  {
    map["status" := Str(resp.status), "records" := Array(EncodeRecords(resp.records))]
  }

  /** Every records reply decodes to itself. */
  lemma RecordsResponseRoundTrip(resp: RecordsResponse)
    ensures DecodeRecordsResponse(Some(Object(RecordsFields(resp)))) == Some(resp)
  {
    var fields := RecordsFields(resp);
    assert StringField(fields, "status") == Some(resp.status);
    assert |"records"| == 7;
    RecordsRoundTrip(resp.records);
  }

  /** The reply to a modify or delete: just a status. */
  function DecodeStatus(d: Option<Json>): (r: Option<StatusResponse>)
    ensures r.Some? ==> d.Some? && (d.value.Object? || d.value.Null?)
    ensures d == Some(Null) ==> r == Some(StatusResponse(""))
    ensures d.Some? && d.value.Object? ==> (r.Some? <==> StringField(d.value.fields, "status").Some?)
    ensures r.Some? && d.value.Object? ==> r.value.status == StringField(d.value.fields, "status").value
  {
    var j :- d;
    var fields :- StructFields(j);
    var status :- StringField(fields, "status");
    Some(StatusResponse(status))
  }

  /** Every status reply decodes to itself, whatever else the server adds. */
  lemma StatusRoundTrip(status: string, extra: map<string, Json>)
    ensures DecodeStatus(Some(Object(extra["status" := Str(status)]))) == Some(StatusResponse(status))
  {
  }
}
