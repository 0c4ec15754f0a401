# Porkbun API client — a verified model

This project models the core of a Go client for the Porkbun registrar's JSON
API, and of the helper its command-line tool uses to split a host name.

- **Client construction.** Configuration comes from the environment
  (`PORKBUN_API_KEY`, `PORKBUN_SECRET_KEY`) and the production endpoint
  `https://porkbun.com`. Functional options then overwrite it in order, and
  the first option that fails aborts construction. The client is a `class`
  whose fields the options assign. `NewClient` is a loop over the options,
  proved against the fold `ApplyOptions`.
- **Credential injection.** Every request body is a JSON object holding
  `apikey` and `secretapikey`. An empty credential is reported before
  anything else, the API key first. The caller's payload is decoded and
  copied over the credentials, so a payload field wins on collision. The
  copy is a loop (`Authenticate`, `CopyFields`) proved against the
  specification function `WithAuthentication`.
- **Dispatch.** Every request is a `POST` to `<base URL>/<endpoint>`.
  Endpoints start with `/`, so the URL as sent holds a double slash
  (`https://porkbun.com//api/json/v3/ping`). The model keeps that.
- **The seven operations.** They are: create, list, get by id, modify,
  delete by id, delete by name and type, and ping. Each one's path is
  modelled, with its credential and record-type checks. So is which
  operations turn a status outside 200–299 into an `ApiError` (create,
  modify and both deletes) and which decode whatever comes back (list, get,
  ping). The typed decoding of each reply is modelled too, and so is the
  text of `ApiError`.
- **`ParseDomain`.** It splits a fully qualified name into a subdomain and a
  registrable domain made of the last two labels.

The network is a function parameter `server: Request -> Delivery`. The
environment is an `Environment` value. Request payloads are abstracted to
what `encoding/json` makes of them (`Body`). Replies are a status code, the
raw text, and the JSON value a decoder reads from them, if any.

The payload is copied over the credentials (`client.go:113-121`), so a
payload member named `apikey` or `secretapikey` replaces the credential;
`WithAuthentication` states this.

## Model

| member | source | states |
|---|---|---|
| Strings.Split | cmd/porkbun/dns.go:295 | splitting on "." always yields at least one piece, no piece holds a dot, and there is exactly one piece iff the input has no dot |
| Strings.JoinSplit | cmd/porkbun/dns.go:295-308 | joining the pieces of a split with "." gives the original string back |
| Strings.SplitJoin | cmd/porkbun/dns.go:295-308 | splitting the join of non-empty dot-free labels gives the labels back |
| Strings.JoinAppend | cmd/porkbun/dns.go:303-308 | joining two non-empty label lists is joining each and putting a "." between them |
| Strings.Join | cmd/porkbun/dns.go:303-308 | joining no labels gives "", and a join starts with its first label; JoinSplit and SplitJoin make it the inverse of Split |
| Strings.DotsJoin | cmd/porkbun/dns.go:303 | a join of n labels holds n-1 dots |
| Strings.DigitsRoundTrip | dns.go:151 | the decimal digits written for a natural number read back as that number |
| Strings.NatDigitsInjective | dns.go:151 | distinct natural numbers are written as distinct digit strings |
| Strings.DecimalInjective | dns.go:151 | distinct integers are written as distinct decimal strings (`%d`) |
| Strings.Decimal | dns.go:151 | `%d` text is non-empty, holds no colon, and starts with a digit iff the number is non-negative; DigitsRoundTrip and DecimalInjective give its value |
| Strings.UnescapeEscape | client.go:32 | undoing the escapes of `%q` gives the string back |
| Strings.UnquoteQuote | client.go:32 | `%q` is reversible: stripping the quotes and undoing the escapes gives the string back |
| Strings.QuotePlain | client.go:32 | `%q` of a string without quotes or backslashes is the string between double quotes |
| DomainName.ParseDomain | cmd/porkbun/dns.go:293-312 | the result is an error iff the name has no dot, and an error carries the name and empty parts |
| DomainName.DomainIsLastTwoLabels | cmd/porkbun/dns.go:302-303 | on success the domain is exactly the last two labels of the input and holds one dot |
| DomainName.SubdomainRoundTrip | cmd/porkbun/dns.go:305-311 | with three or more labels, subdomain + "." + domain is the input |
| DomainName.SubdomainKeepsLabels | cmd/porkbun/dns.go:305-309 | the subdomain consists of every label but the last two, in order |
| DomainName.ApexName | cmd/porkbun/dns.go:302-311 | a two-label name parses to an empty subdomain and the name itself |
| DomainName.TwoLabels | cmd/porkbun/dns.go:289 | `a.b` parses to ("", "a.b") for any dot-free labels |
| DomainName.ThreeLabels | cmd/porkbun/dns.go:290-291 | `a.b.c` parses to ("a", "b.c") for any dot-free labels |
| DomainName.FourLabels | cmd/porkbun/dns.go:292 | `a.b.c.d` parses to ("a.b", "c.d") for any dot-free labels |
| Porkbun.KeyType | client.go:22-30 | the key word is "api" exactly for the API-key variable, "secret" exactly for the secret-key variable, and empty otherwise |
| Porkbun.MissingKeyMessageText | client.go:21-33 | the message quotes the key word and then the variable name to set |
| Porkbun.Defaults | client.go:51-56 | a new client takes both credentials from the environment, the production URL and the default transport |
| Porkbun.ApplyOption | client.go:68-94 | an option fails iff it is a failing option, and otherwise sets exactly the one field it names |
| Porkbun.ApplyOptions | client.go:58-63 | no options leave the defaults; success means no option failed; a failure carries the error of one of the failing options |
| Porkbun.ApplyOptionsAppend | client.go:58-63 | applying two lists of options in turn is applying their concatenation |
| Porkbun.FirstFailureWins | client.go:58-63 | construction fails iff some option fails, and then with the first failing option's error |
| Porkbun.LastWriterWins | client.go:58-63 | a field ends with the value of the last option that writes it |
| Porkbun.Untouched | client.go:51-63 | a field no option writes keeps its default |
| Porkbun.Client.constructor | client.go:51-56 | the fresh client holds the defaults |
| Porkbun.Client.Apply | client.go:59-94 | running an option changes the client as `ApplyOption` says, or reports its error |
| Porkbun.NewClient | client.go:50-66 | the client built, or the error returned, is what applying the options to the defaults in order gives |
| Porkbun.WithAuthentication | client.go:96-130 | a missing API key is reported first, then a missing secret key; otherwise it succeeds iff the payload is an object or null; the body holds both credentials and every payload field, payload values win, and a credential keeps its value unless overridden; values are copied as JSON values, which equals Go's behaviour for the string-only payloads the client sends (see Left out) |
| Porkbun.MissingCredential | client.go:97-103 | there is no credential error iff both keys are set; otherwise the error names the API key when it is empty, else the secret key |
| Porkbun.CredentialsOnly | client.go:105-116 | with no payload, or a null one, the body is exactly the two credentials |
| Porkbun.UnmarshalObject | client.go:105-111 | decoding succeeds iff the bytes are a JSON object or null, giving the object's members or none; any other outcome is a body-decode error |
| Porkbun.Payload | client.go:105-111 | no bytes give no fields; otherwise the fields are what decoding the bytes as an object gives, and a failure is a body-decode error |
| Porkbun.Authenticate | client.go:96-130 | the method computes exactly `WithAuthentication` |
| Porkbun.CopyFields | client.go:118-121 | copying every payload entry over the credentials gives the map union with payload values winning |
| Porkbun.Restrict | client.go:119-121 | the entries already copied are the payload restricted to the keys visited: those keys, with the payload's values |
| Porkbun.Do | client.go:132-142 | a request is a POST of the body to the base URL, a "/" and then the endpoint |
| DnsRecords.RecordFields | dns.go:19-43 | a record marshals to an object with exactly the seven tags, every value a string |
| DnsRecords.DecodeRecord | dns.go:19-43 | a record decodes only from an object or null, and null gives the zero record; an object decodes iff each of the seven members is a string, null or absent, and each field is then that member's string, "" for null or absent |
| DnsRecords.CredentialsAreNotRecordKeys | client.go:113-116 | neither credential field is a record tag |
| DnsRecords.RecordRoundTrip | dns.go:19-43 | a marshalled record decodes back to itself, whatever other fields travel with it |
| DnsRecords.DecodeRecords | dns.go:57-60 | a records array decodes iff every element does, element by element and in order |
| DnsRecords.RecordsRoundTrip | dns.go:57-60 | a marshalled list of records decodes back to the list |
| DnsRecords.AuthenticatedRecord | dns.go:70-78 | with both keys set, the body built from a record holds both credentials and exactly the seven record members, each a string, and decodes back to the record |
| DnsRecords.RecordBody | dns.go:70-78 | a missing credential fails first; otherwise the body holds both credentials and exactly the seven record members, as strings, and decodes back to the record |
| DnsRecords.CreateDnsRecord | dns.go:69-80 | a missing credential fails first; otherwise it POSTs to `dns/create/{domain}` a body with both credentials that decodes back to the record |
| DnsRecords.ListDnsRecords | dns.go:117-130 | credentials only; the path is `retrieveByNameType/{domain}/{type}/{sub}` when a type is given, else `retrieve/{domain}` |
| DnsRecords.ListIgnoresSubdomainWithoutType | dns.go:124-128 | without a type, the subdomain does not change the request |
| DnsRecords.GetDnsRecordById | dns.go:145-151 | credentials only; the path is `retrieve/{domain}/{id}` with the id in decimal |
| DnsRecords.GetByIdDistinguishesIds | dns.go:151 | two ids that give the same path are the same id |
| DnsRecords.ModifyEndpoint | dns.go:185-193 | with an id the path is `edit/{domain}/{id}`; else a type is required and the path is `editByNameType/{domain}/{type}/{name}` |
| DnsRecords.ModifyDnsRecord | dns.go:174-195 | the credential error comes first, then the missing-type error; it succeeds iff both keys are set and the record has an id or a type; the body decodes back to the record |
| DnsRecords.ModifyByIdIgnoresLookup | dns.go:186-187 | a record with an id is edited by id, whatever its type and name |
| DnsRecords.DeleteDnsRecordById | dns.go:233-239 | credentials only; the path is `delete/{domain}/{id}` |
| DnsRecords.DeleteDnsRecordByLookup | dns.go:270-276 | credentials only; the path is `deleteByNameType/{domain}/{type}/{sub}`, an empty type included |
| DnsRecords.ApiErrorMessage | dns.go:15-17 | the message is "API error " followed by the code in decimal, ": " and the reply text |
| DnsRecords.SplitAtColon | dns.go:16 | a colon-free prefix and the text after ": " are recovered from their concatenation |
| DnsRecords.ApiErrorMessageInjective | dns.go:15-17 | two API errors with the same message have the same code and text |
| DnsRecords.DecodeCreate | dns.go:45-55 | a create reply decodes only from an object or null, and its id fits an int64; an object decodes iff `status` is a string, null or absent and `id` an int64, null or absent, giving "" and 0 for null or absent members |
| DnsRecords.CreateRoundTrip | dns.go:45-55 | a create reply whose id fits an int64 decodes back to itself |
| DnsRecords.DecodeRecordsResponse | dns.go:57-60 | a records reply decodes only from an object or null, and null gives an empty status and no records; an object decodes iff `status` is a string, null or absent and `records` decodes, giving that status ("" if null or absent) and those records |
| DnsRecords.RecordsMember | dns.go:57-60 | an absent or null `records` member gives no records, an array gives what DecodeRecords gives, and any other value is an error, in both directions |
| DnsRecords.RecordsResponseRoundTrip | dns.go:57-60 | every records reply decodes back to itself |
| DnsRecords.DecodeStatus | dns.go:62-64 | a status reply decodes only from an object or null; an object decodes iff `status` is a string, null or absent, and the status is that string, "" if null or absent |
| DnsRecords.StatusRoundTrip | dns.go:62-64 | a status reply decodes to its status, whatever other fields it carries |
| Json.StructFields | dns.go:105-109 | a struct decodes from an object, whose members it offers, or from null, which leaves every field zero |
| Json.StringField | dns.go:45-64 | a string field is the member's string, "" when absent or null, and an error for any other member |
| Json.IntField | dns.go:54 | an int field is the member's integer when it fits an int64, and 0 when absent or null; a non-number or an out-of-range number is an error |
| PingCheck.Ping | ping.go:17-23 | a missing credential fails first; otherwise it POSTs exactly the two credentials to `/api/json/v3/ping` |
| PingCheck.DecodePing | ping.go:9-12 | a ping reply decodes only from an object or null; an object decodes iff `status` and `yourIp` are each a string, null or absent, and the fields are those strings, "" if null or absent |
| PingCheck.PingRoundTrip | ping.go:9-12 | every ping reply decodes back to its status and address |
| Operations.BuildRequest | dns.go:69-302 | a call fails before sending iff a credential is missing or it is a modify with neither id nor type; the credential error comes first |
| Operations.ChecksStatus | dns.go:91 | create, modify and both deletes check the status code; list, get and ping do not |
| Operations.Decode | dns.go:105-109 | a create reply is decoded as a create response, a list or get reply as a records response, a modify or delete reply as a status response and a ping reply as a ping response; the call's decoder decides success |
| Operations.Classify | dns.go:91-109 | a reply becomes an API error iff the call checks the status and the code is outside 200-299, holding that code and text; otherwise it succeeds iff the body decodes, and fails with a decode error if not |
| Operations.ReadsIgnoreStatus | dns.go:130-142 | list, get and ping give the same outcome whatever the status code |
| Operations.Perform | dns.go:80-111 | nothing is sent iff building the request fails; an unreachable server is a transport error; a delivered reply is classified |
| Operations.CredentialsCheckedFirst | client.go:97-103 | a missing credential is the result of every call, and nothing is sent |
| Operations.EveryRequestAuthenticated | client.go:113-116 | every request sent is a POST under the base URL whose body carries both credentials |
| Operations.ApiErrorMeansRejected | dns.go:91-103 | an API error only comes from a status-checking call whose request was delivered and answered outside 200-299, and holds that code and text |
| Operations.LocalAndRemoteErrors | dns.go:174-219 | a call that sent nothing failed on a credential or a missing record type; a call that sent its request fails only with an API, transport or decode error |
| Operations.CreateAccepted | dns_test.go:15-43 | a create answered in 2xx with a create reply yields exactly that reply |
| Operations.PingAnswered | ping_test.go:14-38 | a ping whose reply carries a status and an address yields exactly those, whatever the status code and raw text |
| Operations.RejectedChange | dns.go:207-219 | a modify or delete answered outside 2xx fails with that code and text |
| Operations.StatusOnlyListing | dns.go:131-163 | a list or get answered with only a status, at any code, succeeds with that status and no records |
| Operations.StatusOnlyPing | ping.go:23-35 | a ping answered with only a status, at any code, succeeds with that status and an empty address |

## Left out

- The command-line tool (`cmd/porkbun`) is not part of this model, except `ParseDomain`. That covers cobra wiring, flag parsing, printing and `log.Fatal`.
- `context.Context` and cancellation are not modelled, and neither is the HTTP client's own behaviour. The server is a function from request to delivery.
- Reading the reply body can fail (`ioutil.ReadAll` on a non-2xx reply). That error path is not modelled: the text is always available.
- `http.NewRequest` can reject a URL. That failure is folded into `TransportFailed` through the server parameter and is not modelled on its own.
- Byte-level JSON is not modelled. Request bodies are `Body` values, and marshalling is modelled as the map it produces. Key order in the marshalled text is left out, so `client_test.go:73`'s exact string is stated as the two-entry map.
- JSON numbers are integers. Floating-point numbers, and the error for a fractional id, are left out.
- Go's case-insensitive matching of JSON member names to struct fields is not modelled, and neither are duplicate member names. Keys match exactly.
- A decoder reads only the first JSON value of a reply. That prefix behaviour and trailing data are not modelled: `decoded` is the value read, if any.
- `fmt.Errorf` wrapping text ("err adding authentication, …") is not modelled. Errors are the `ClientError` values they wrap.
- The missing-credential `Error()` text models only the `"` and `\` escapes of `%q`.
- Nil `*Record` arguments are not modelled, and `json.Marshal` failures are not modelled either. A nil record would marshal to `null`, and these records cannot fail to marshal.
- A caller-supplied option is modelled only as one of the four setters or a failing option. An option that both changes fields and fails is not modelled.
- `os.Getenv` is an `Environment` parameter, and the HTTP client value is an opaque `Transport` tag.
- Porkbun.Credentials: no contract of its own, because it is the two-entry map that `WithAuthentication` and `CredentialsOnly` specify.
- Porkbun.WithAuthentication: copies payload values as exact JSON values. Go decodes every payload number as a `float64`, so an integer above 2^53 would be sent back changed. The client's own payloads are marshalled records (strings only) or nil, so none of its calls reaches that case.
