/**
 * The client core: its configuration and the options that build it, the
 * missing-credential error, the injection of the two credentials into a JSON
 * request body, and the POST request addressed to `<base URL>/<endpoint>`.
 */
module Porkbun {
  import opened Wrappers
  import opened Strings
  import opened Json

  /** Names of the two environment variables that hold the default credentials. */
  const PorkbunApiKey: string := "PORKBUN_API_KEY"
  const PorkbunSecretKey: string := "PORKBUN_SECRET_KEY"

  /** The production endpoint. */
  const DefaultBaseUrl: string := "https://porkbun.com"

  /** The two body fields that carry the credentials. */
  const ApiKeyField: string := "apikey"
  const SecretKeyField: string := "secretapikey"

  /** Every way an operation of the client can fail. */
  datatype ClientError =
    | MissingAccessKey(key: string)     // a credential is empty; `key` names its variable
    | BodyDecode                        // the request payload is not a JSON object
    | RecordTypeRequired                // modify by name and type without a type
    | TransportFailed(reason: string)   // the request could not be issued or answered
    | ApiError(code: int, body: string) // the registrar answered outside 200-299
    | ResponseDecode                    // the response body does not decode to the expected shape

  // ---- the missing-credential error message ----

  /** The word the message uses for the missing key. */
  function KeyType(key: string): (t: string)
    ensures t == "api" <==> key == PorkbunApiKey
    ensures t == "secret" <==> key == PorkbunSecretKey
    ensures t == "" <==> key != PorkbunApiKey && key != PorkbunSecretKey
  {
    var t := if key == PorkbunApiKey then "api" else "";
    if key == PorkbunSecretKey then "secret" else t
  }

  /** `MissingAccessKeyError.Error`: the key word, then the variable to set, each as `%q` quotes it. */
  function MissingKeyMessage(key: string): string
  {
    "missing porkbun " + Quote(KeyType(key)) + " key. try setting " + Quote(key) + " to the environment"
  }

  /**
   * The message names the key as "api", "secret" (or nothing, for another
   * key) and then the variable to set, each in double quotes; a key without
   * quotes or backslashes appears verbatim.
   */
  lemma MissingKeyMessageText(key: string)
    requires forall i :: 0 <= i < |key| ==> key[i] != '"' && key[i] != '\\'
    ensures MissingKeyMessage(key)
              == "missing porkbun " + "\"" + KeyType(key) + "\"" + " key. try setting " + "\"" + key + "\"" + " to the environment"
  {
    QuotePlain(key);
    KeyTypeQuoted(key);
    MessageOfPlainQuotes(key, KeyType(key));
  }

  lemma KeyTypeQuoted(key: string)
    ensures Quote(KeyType(key)) == "\"" + KeyType(key) + "\""
  {
    QuotePlain(KeyType(key));
  }

  lemma MessageOfPlainQuotes(key: string, word: string)
    requires Quote(key) == "\"" + key + "\"" && Quote(word) == "\"" + word + "\""
    ensures "missing porkbun " + Quote(word) + " key. try setting " + Quote(key) + " to the environment"
              == "missing porkbun " + "\"" + word + "\"" + " key. try setting " + "\"" + key + "\"" + " to the environment"
  {
  }

  // ---- configuration ----

  /** The HTTP transport a client sends through: the standard one or one the caller injects. */
  datatype Transport = DefaultHttpClient | InjectedHttpClient(name: string)

  /** The values of the two credential variables in the process environment ("" when unset). */
  datatype Environment = Environment(apiKey: string, secretKey: string)

  datatype Config = Config(apiKey: string, secretKey: string, baseUrl: string, httpClient: Transport)

  function Defaults(env: Environment): (c: Config)
    ensures c.apiKey == env.apiKey && c.secretKey == env.secretKey
    ensures c.baseUrl == DefaultBaseUrl && c.httpClient == DefaultHttpClient
  {
    Config(env.apiKey, env.secretKey, DefaultBaseUrl, DefaultHttpClient)
  }

  /**
   * A configuration option. The four built-in ones each set one field and
   * cannot fail; `Failing` stands for a caller-supplied option that reports
   * an error.
   */
  datatype ClientOption =
    | WithApiKey(key: string)
    | WithSecretKey(key: string)
    | WithBaseUrl(url: string)
    | WithHttpClient(transport: Transport)
    | Failing(reason: string)

  /** The fields of a configuration, and what one holds. */
  datatype Field = ApiKey | SecretKey | BaseUrl | HttpClient
  datatype FieldValue = Text(s: string) | Transported(t: Transport)

  function Get(c: Config, f: Field): FieldValue
  {
    match f
    case ApiKey => Text(c.apiKey)
    case SecretKey => Text(c.secretKey)
    case BaseUrl => Text(c.baseUrl)
    case HttpClient => Transported(c.httpClient)
  }

  /** The field an option writes, if any, and the value it writes there. */
  predicate Writes(o: ClientOption, f: Field)
  {
    match o
    case WithApiKey(_) => f == ApiKey
    case WithSecretKey(_) => f == SecretKey
    case WithBaseUrl(_) => f == BaseUrl
    case WithHttpClient(_) => f == HttpClient
    case Failing(_) => false
  }

  function Written(o: ClientOption): FieldValue
    requires !o.Failing?
  {
    match o
    case WithApiKey(k) => Text(k)
    case WithSecretKey(k) => Text(k)
    case WithBaseUrl(u) => Text(u)
    case WithHttpClient(t) => Transported(t)
  }

  /** Apply one option: a built-in option sets its one field and leaves the others. */
  function ApplyOption(c: Config, o: ClientOption): (r: Result<Config, string>)
    ensures r.Failure? <==> o.Failing?
    ensures r.Failure? ==> r.error == o.reason
    ensures r.Success? ==> forall f :: Get(r.value, f) == (if Writes(o, f) then Written(o) else Get(c, f))
  {
    match o
    case WithApiKey(k) => Success(c.(apiKey := k))
    case WithSecretKey(k) => Success(c.(secretKey := k))
    case WithBaseUrl(u) => Success(c.(baseUrl := u))
    case WithHttpClient(t) => Success(c.(httpClient := t))
    case Failing(reason) => Failure(reason)
  }

  /** Apply options in order, stopping at the first that fails. */
  function ApplyOptions(c: Config, options: seq<ClientOption>): (r: Result<Config, string>)
    ensures options == [] ==> r == Success(c)
    ensures r.Success? ==> forall i :: 0 <= i < |options| ==> !options[i].Failing?
    ensures r.Failure? ==> exists i :: 0 <= i < |options| && options[i] == Failing(r.error)
    decreases |options|
  {
    if options == [] then Success(c)
    else
      match ApplyOption(c, options[0])
      case Failure(e) => Failure(e)
      case Success(c') => ApplyOptions(c', options[1..])
  }

  /** Applying `a + b` is applying `a`, then `b` to its outcome. */
  lemma {:induction false} ApplyOptionsAppend(c: Config, a: seq<ClientOption>, b: seq<ClientOption>)
    ensures ApplyOptions(c, a + b) ==
              match ApplyOptions(c, a)
              case Failure(e) => Failure(e)
              case Success(c') => ApplyOptions(c', b)
    decreases |a|
  {
    if a == [] {
      assert a + b == b;
    } else {
      assert (a + b)[0] == a[0] && (a + b)[1..] == a[1..] + b;
      match ApplyOption(c, a[0])
      case Failure(e) =>
      case Success(c') => ApplyOptionsAppend(c', a[1..], b);
    }
  }

  /** Configuration fails exactly when some option fails, and then with the first one's error. */
  lemma {:induction false} FirstFailureWins(c: Config, options: seq<ClientOption>)
    ensures ApplyOptions(c, options).Failure? <==> exists i :: 0 <= i < |options| && options[i].Failing?
    ensures forall i :: 0 <= i < |options| && options[i].Failing? &&
                        (forall j :: 0 <= j < i ==> !options[j].Failing?) ==>
                        ApplyOptions(c, options) == Failure(options[i].reason)
    decreases |options|
  {
    if options != [] {
      match ApplyOption(c, options[0])
      case Failure(e) =>
      case Success(c') =>
        FirstFailureWins(c', options[1..]);
        assert forall i :: 1 <= i < |options| ==> options[i] == options[1..][i - 1];
    }
  }

  /** After successful configuration a field holds what the last option writing it wrote. */
  lemma {:induction false} LastWriterWins(c: Config, options: seq<ClientOption>, f: Field, i: nat)
    requires i < |options| && Writes(options[i], f)
    requires forall j :: i < j < |options| ==> !Writes(options[j], f)
    requires ApplyOptions(c, options).Success?
    ensures Get(ApplyOptions(c, options).value, f) == Written(options[i])
    decreases |options|
  {
    var c' := ApplyOption(c, options[0]).value;
    if i == 0 {
      Untouched(c', options[1..], f);
    } else {
      LastWriterWins(c', options[1..], f, i - 1);
    }
  }

  /** A field no option writes keeps its default. */
  lemma {:induction false} Untouched(c: Config, options: seq<ClientOption>, f: Field)
    requires forall j :: 0 <= j < |options| ==> !Writes(options[j], f)
    requires ApplyOptions(c, options).Success?
    ensures Get(ApplyOptions(c, options).value, f) == Get(c, f)
    decreases |options|
  {
    if options != [] {
      Untouched(ApplyOption(c, options[0]).value, options[1..], f);
    }
  }

  /** A client: the configuration fields that `NewClient` and the options assign. */
  class Client {
    var apiKey: string
    var secretKey: string
    var baseUrl: string
    var httpClient: Transport

    function Settings(): Config
      reads this
    {
      Config(apiKey, secretKey, baseUrl, httpClient)
    }

    /** A client holding the defaults: environment credentials and the production endpoint. */
    constructor (env: Environment)
      ensures Settings() == Defaults(env)
    {
      apiKey := env.apiKey;
      secretKey := env.secretKey;
      baseUrl := DefaultBaseUrl;
      httpClient := DefaultHttpClient;
    }

    /** Run one option against this client. */
    method Apply(option: ClientOption) returns (err: Option<string>)
      modifies this
      ensures err.None? ==> ApplyOption(old(Settings()), option) == Success(Settings())
      ensures err.Some? ==> ApplyOption(old(Settings()), option) == Failure(err.value)
    {
      err := None;
      match option {
        case WithApiKey(k) => apiKey := k;
        case WithSecretKey(k) => secretKey := k;
        case WithBaseUrl(u) => baseUrl := u;
        case WithHttpClient(t) => httpClient := t;
        case Failing(reason) => err := Some(reason);
      }
    }
  }

  /**
   * Build a client from the defaults, applying the options in order; the
   * first option that fails aborts and no client is returned.
   */
  method NewClient(env: Environment, options: seq<ClientOption>) returns (r: Result<Client, string>)
    ensures r.Success? ==> fresh(r.value) && ApplyOptions(Defaults(env), options) == Success(r.value.Settings())
    ensures r.Failure? ==> ApplyOptions(Defaults(env), options) == Failure(r.error)
  {
    var c := new Client(env);
    for i := 0 to |options|
      invariant ApplyOptions(Defaults(env), options[..i]) == Success(c.Settings())
    {
      ghost var before := c.Settings();
      var err := c.Apply(options[i]);
      ApplyOptionsAppend(Defaults(env), options[..i], [options[i]]);
      assert options[..i + 1] == options[..i] + [options[i]];
      assert ApplyOptions(before, [options[i]]) == ApplyOption(before, options[i]);
      if err.Some? {
        ApplyOptionsAppend(Defaults(env), options[..i + 1], options[i + 1..]);
        assert options[..i + 1] + options[i + 1..] == options;
        return Failure(err.value);
      }
    }
    assert options[..|options|] == options;
    return Success(c);
  }

  // ---- credential injection ----

  /** The body holding just the two credentials. */
  function Credentials(c: Config): map<string, Json>
  {
    map[ApiKeyField := Str(c.apiKey), SecretKeyField := Str(c.secretKey)]
  }

  /**
   * Decode request bytes into a JSON object: an object gives its fields,
   * `null` gives no fields, and anything else (no bytes, malformed text,
   * another kind of value) is a decode error.
   */
  function UnmarshalObject(body: Body): (r: Result<map<string, Json>, ClientError>)
    ensures r.Success? <==> body.Document? && (body.value.Object? || body.value.Null?)
    ensures body.Document? && body.value.Object? ==> r == Success(body.value.fields)
    ensures body == Document(Null) ==> r == Success(map[])
    ensures r.Failure? ==> r.error == BodyDecode
  {
    match body
    case Document(Object(fields)) => Success(fields)
    case Document(Null) => Success(map[])
    case _ => Failure(BodyDecode)
  }

  /** The caller's fields: none for an empty body, else the decoded object. */
  function Payload(body: Body): (r: Result<map<string, Json>, ClientError>)
    ensures r.Success? <==> body.Empty? || (body.Document? && (body.value.Object? || body.value.Null?))
    ensures body.Empty? ==> r == Success(map[])
    ensures r.Success? && !body.Empty? ==> r == UnmarshalObject(body)
    ensures r.Failure? ==> r.error == BodyDecode
  {
    if body.Empty? then Success(map[]) else UnmarshalObject(body)
  }

  /**
   * The body actually sent: both credentials must be set (the API key is
   * checked first), the payload is decoded only after that, and its fields
   * are copied over the credentials, so on a shared key the payload wins.
   */
  function WithAuthentication(c: Config, body: Body): (r: Result<map<string, Json>, ClientError>)
    ensures c.apiKey == "" ==> r == Failure(MissingAccessKey(PorkbunApiKey))
    ensures c.apiKey != "" && c.secretKey == "" ==> r == Failure(MissingAccessKey(PorkbunSecretKey))
    ensures c.apiKey != "" && c.secretKey != "" ==> (r.Success? <==> Payload(body).Success?)
    ensures r.Failure? && c.apiKey != "" && c.secretKey != "" ==> r.error == BodyDecode
    ensures r.Success? ==>
              var fields := Payload(body).value;
              && r.value.Keys == {ApiKeyField, SecretKeyField} + fields.Keys
              && (forall k :: k in fields ==> r.value[k] == fields[k])
              && (ApiKeyField !in fields ==> r.value[ApiKeyField] == Str(c.apiKey))
              && (SecretKeyField !in fields ==> r.value[SecretKeyField] == Str(c.secretKey))
  {
    if c.apiKey == "" then Failure(MissingAccessKey(PorkbunApiKey))
    else if c.secretKey == "" then Failure(MissingAccessKey(PorkbunSecretKey))
    else
      var fields :- Payload(body);
      Success(Credentials(c) + fields)
  }

  /** The credential error an operation reports before anything else, if any. */
  function MissingCredential(c: Config): (e: Option<ClientError>)
    ensures e.None? <==> c.apiKey != "" && c.secretKey != ""
    ensures e.Some? ==> e.value == MissingAccessKey(if c.apiKey == "" then PorkbunApiKey else PorkbunSecretKey)
  {
    if c.apiKey == "" then Some(MissingAccessKey(PorkbunApiKey))
    else if c.secretKey == "" then Some(MissingAccessKey(PorkbunSecretKey))
    else None
  }

  /** With both keys set, an empty body (or `null`) becomes exactly the two credentials. */
  lemma CredentialsOnly(c: Config, body: Body)
    requires c.apiKey != "" && c.secretKey != ""
    requires body == Empty || body == Document(Null)
    ensures WithAuthentication(c, body) == Success(Credentials(c))
  {
    assert Credentials(c) + map[] == Credentials(c);
  }

  /**
   * The injection as the client performs it: check the keys, decode the
   * payload, then copy its fields one at a time into a map that starts with
   * the two credentials.
   */
  method Authenticate(c: Config, body: Body) returns (r: Result<map<string, Json>, ClientError>)
    ensures r == WithAuthentication(c, body)
  {
    if c.apiKey == "" {
      return Failure(MissingAccessKey(PorkbunApiKey));
    }
    if c.secretKey == "" {
      return Failure(MissingAccessKey(PorkbunSecretKey));
    }
    var orig: map<string, Json> := map[];
    if !body.Empty? {
      var decoded := UnmarshalObject(body);
      if decoded.Failure? {
        return Failure(decoded.error);
      }
      orig := decoded.value;
    }
    var newMap := CopyFields(Credentials(c), orig);
    return Success(newMap);
  }

  /**
   * Copy every field of `orig` into `base`, one key at a time in any order;
   * a key present in both ends up with the value from `orig`.
   */
  method CopyFields(base: map<string, Json>, orig: map<string, Json>) returns (merged: map<string, Json>)
    ensures merged == base + orig
  {
    merged := base;
    var pending := orig.Keys;
    ghost var done: set<string> := {};
    while pending != {}
      invariant pending <= orig.Keys && done == orig.Keys - pending
      invariant merged == base + Restrict(orig, done)
      decreases |pending|
    {
      var k :| k in pending;
      CopyOneMore(base, orig, done, k);
      merged := merged[k := orig[k]];
      pending := pending - {k};
      done := done + {k};
    }
    assert Restrict(orig, done) == orig;
  }

  /** The part of `m` on the keys in `done`. */
  function Restrict(m: map<string, Json>, done: set<string>): (r: map<string, Json>)
    ensures r.Keys == m.Keys * done
    ensures forall k :: k in r ==> r[k] == m[k]
  {
    map k | k in m && k in done :: m[k]
  }

  /** Copying one more field over a merge extends the merged part by that key. */
  lemma CopyOneMore(base: map<string, Json>, orig: map<string, Json>, done: set<string>, k: string)
    requires k in orig
    ensures (base + Restrict(orig, done))[k := orig[k]] == base + Restrict(orig, done + {k})
  {
  }

  // ---- dispatch ----

  /** An outgoing HTTP request: method, full URL and JSON body. */
  datatype Request = Request(verb: string, url: string, body: map<string, Json>)

  /** POST `body` to the base URL, a "/" and the endpoint. */
  function Do(c: Config, endpoint: string, body: map<string, Json>): (req: Request)
    ensures req.verb == "POST" && req.body == body
    ensures c.baseUrl + "/" <= req.url && req.url[|c.baseUrl| + 1..] == endpoint
  {
    Request("POST", c.baseUrl + "/" + endpoint, body)
  }
}
