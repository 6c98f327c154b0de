/** The browser-side API client (client/services/api.ts): how each call's
    URL, query string and fetch options are built, and how a fetch outcome
    becomes a value or a thrown error. `fetch` itself is not modelled: its
    outcome is an input. */
module ApiClient {
  import opened Support

  const DefaultBaseUrl := "http://localhost:8000"
  const RecognizePath := "/api/food/recognize"
  const SearchPath := "/api/restaurants/search"
  const DishesPath := "/api/food/dishes"
  const HealthPath := "/health"
  const ApiErrorPrefix := "API error: "
  const RecognitionErrorPrefix := "Recognition failed: "

  /** The backend base URL: `NEXT_PUBLIC_API_URL` unless it is unset or
      empty (JavaScript's `||` treats both as missing). */
  function BaseUrl(setting: Option<string>): (r: string)
    ensures setting.Some? && setting.value != "" ==> r == setting.value
    ensures setting.None? || setting.value == "" ==> r == DefaultBaseUrl
    ensures r != ""
  {
    if setting.Some? && setting.value != "" then setting.value else DefaultBaseUrl
  }

  // ---------------------------------------------------------------------
  // Query strings (URLSearchParams serialisation)
  // ---------------------------------------------------------------------

  /** Characters the form-urlencoded serialiser leaves as they are. */
  predicate Unreserved(c: char) {
    ('a' <= c <= 'z') || ('A' <= c <= 'Z') || ('0' <= c <= '9') ||
    c == '*' || c == '-' || c == '.' || c == '_'
  }

  /** Characters that can appear in a serialised name or value. */
  predicate EncodedChar(c: char) {
    Unreserved(c) || c == '+' || c == '%'
  }

  function HexDigit(d: nat): (c: char)
    requires d < 16
    ensures Unreserved(c)
  {
    if d < 10 then ('0' as int + d) as char else ('A' as int + d - 10) as char
  }

  /** The UTF-8 encoding of one Unicode scalar value. */
  function Utf8(c: char): (bytes: seq<byte>)
    ensures 1 <= |bytes| <= 4
  {
    var cp := c as int;
    if cp < 0x80 then [cp as byte]
    else if cp < 0x800 then [(0xC0 + cp / 0x40) as byte, (0x80 + cp % 0x40) as byte]
    else if cp < 0x10000 then
      [(0xE0 + cp / 0x1000) as byte, (0x80 + (cp / 0x40) % 0x40) as byte, (0x80 + cp % 0x40) as byte]
    else
      [(0xF0 + cp / 0x40000) as byte, (0x80 + (cp / 0x1000) % 0x40) as byte,
       (0x80 + (cp / 0x40) % 0x40) as byte, (0x80 + cp % 0x40) as byte]
  }

  /** `%XX` for each byte, upper-case hexadecimal. */
  function PercentEncode(bytes: seq<byte>): (s: string)
    ensures |s| == 3 * |bytes|
    ensures '&' !in s && '=' !in s
  {
    if bytes == [] then []
    else
      var b := bytes[0] as int;
      ['%', HexDigit(b / 16), HexDigit(b % 16)] + PercentEncode(bytes[1..])
  }

  function EncodeChar(c: char): (s: string)
    ensures |s| > 0
    ensures '&' !in s && '=' !in s
    ensures Unreserved(c) ==> s == [c]
    ensures c == ' ' ==> s == "+"
  {
    if Unreserved(c) then [c]
    else if c == ' ' then "+"
    else PercentEncode(Utf8(c))
  }

  /** The application/x-www-form-urlencoded encoding of one name or value. */
  function Encode(s: string): (r: string)
    ensures '&' !in r && '=' !in r
  {
    if s == [] then [] else EncodeChar(s[0]) + Encode(s[1..])
  }

  /** Every character of a percent-encoding is `%` or a hexadecimal digit. */
  lemma {:induction false} PercentEncodeAlphabet(bytes: seq<byte>)
    ensures forall i :: 0 <= i < |PercentEncode(bytes)| ==> EncodedChar(PercentEncode(bytes)[i])
  {
    if bytes != [] {
      PercentEncodeAlphabet(bytes[1..]);
      var b := bytes[0] as int;
      var head := ['%', HexDigit(b / 16), HexDigit(b % 16)];
      var tail := PercentEncode(bytes[1..]);
      assert PercentEncode(bytes) == head + tail;
      forall i | 0 <= i < |head + tail| ensures EncodedChar((head + tail)[i]) {
        if i >= 3 {
          assert (head + tail)[i] == tail[i - 3];
        }
      }
    }
  }

  /** An encoded name or value uses only unreserved characters, `+` and `%`,
      and is at least as long as the original. */
  lemma {:induction false} EncodeAlphabet(s: string)
    ensures |Encode(s)| >= |s|
    ensures forall i :: 0 <= i < |Encode(s)| ==> EncodedChar(Encode(s)[i])
  {
    if s != [] {
      EncodeAlphabet(s[1..]);
      var c := s[0];
      var head := EncodeChar(c);
      var tail := Encode(s[1..]);
      assert Encode(s) == head + tail;
      if !Unreserved(c) && c != ' ' {
        PercentEncodeAlphabet(Utf8(c));
      }
      forall i | 0 <= i < |head + tail| ensures EncodedChar((head + tail)[i]) {
        if i >= |head| {
          assert (head + tail)[i] == tail[i - |head|];
        }
      }
    }
  }

  /** A name made only of unreserved characters is serialised as it is. */
  lemma {:induction false} UnreservedUnchanged(s: string)
    requires forall i :: 0 <= i < |s| ==> Unreserved(s[i])
    ensures Encode(s) == s
  {
    if s != [] {
      UnreservedUnchanged(s[1..]);
    }
  }

  /** One `name=value` field; it splits back at its `=` into the encoded
      name and value. */
  function Field(p: (string, string)): (f: string)
    ensures '&' !in f
    ensures Split(f, '=') == [Encode(p.0), Encode(p.1)]
  {
    var pieces := [Encode(p.0), Encode(p.1)];
    SplitJoin(pieces, '=');
    Encode(p.0) + "=" + Encode(p.1)
  }

  function Fields(params: seq<(string, string)>): (fs: seq<string>)
    ensures |fs| == |params|
    ensures forall i :: 0 <= i < |fs| ==> fs[i] == Field(params[i])
  {
    if params == [] then [] else [Field(params[0])] + Fields(params[1..])
  }

  /** `URLSearchParams.toString()`: `name=value` fields joined by `&`. */
  function Serialize(params: seq<(string, string)>): string {
    if params == [] then "" else Join(Fields(params), '&')
  }

  /** A serialised query splits back into exactly one field per parameter,
      each of which splits at `=` into its encoded name and value. */
  lemma QueryFieldsRecoverable(params: seq<(string, string)>)
    requires |params| > 0
    ensures Split(Serialize(params), '&') == Fields(params)
    ensures forall i :: 0 <= i < |params| ==>
              Split(Fields(params)[i], '=') == [Encode(params[i].0), Encode(params[i].1)]
  {
    SplitJoin(Fields(params), '&');
  }

  datatype Location = Location(lat: real, lon: real)

  function Names(params: seq<(string, string)>): set<string> {
    set i | 0 <= i < |params| :: params[i].0
  }

  /** The restaurant-search parameters: `dish`, then `lat` and `lon` when a
      location is given. `show` is JavaScript's number-to-string conversion. */
  function SearchParams(dish: string, location: Option<Location>, show: real -> string)
    : (ps: seq<(string, string)>)
    ensures |ps| == if location.Some? then 3 else 1
    ensures ps[0] == ("dish", dish)
    ensures location.Some? ==>
              ps[1] == ("lat", show(location.value.lat)) && ps[2] == ("lon", show(location.value.lon))
    ensures ("lat" in Names(ps)) == location.Some? && ("lon" in Names(ps)) == location.Some?
  {
    var ps := if location.Some? then
      [("dish", dish), ("lat", show(location.value.lat)), ("lon", show(location.value.lon))]
    else [("dish", dish)];
    assert ps[0].0 == "dish";
    assert location.Some? ==> ps[1].0 == "lat" && ps[2].0 == "lon";
    ps
  }

  function SearchEndpoint(dish: string, location: Option<Location>, show: real -> string): string {
    SearchPath + "?" + Serialize(SearchParams(dish, location, show))
  }

  /** The search URL's query holds `dish=...` and, exactly when a location is
      given, `lat=...` and `lon=...` after it: never one coordinate alone. */
  lemma SearchQueryFields(dish: string, location: Option<Location>, show: real -> string)
    ensures var q := SearchEndpoint(dish, location, show)[|SearchPath| + 1..];
            var fs := Split(q, '&');
            |fs| == (if location.Some? then 3 else 1) &&
            fs == Fields(SearchParams(dish, location, show))
  {
    var ps := SearchParams(dish, location, show);
    var e := SearchEndpoint(dish, location, show);
    assert e[|SearchPath| + 1..] == Serialize(ps);
    QueryFieldsRecoverable(ps);
  }

  /** The search parameters' names need no encoding, so the fields read
      `dish=`, `lat=` and `lon=` followed by the encoded values. */
  lemma NamesUnchanged()
    ensures Encode("dish") == "dish" && Encode("lat") == "lat" && Encode("lon") == "lon"
  {
    UnreservedUnchanged("dish");
    UnreservedUnchanged("lat");
    UnreservedUnchanged("lon");
  }

  // ---------------------------------------------------------------------
  // Requests
  // ---------------------------------------------------------------------

  type Headers = map<string, string>

  const JsonHeaders: Headers := map["Content-Type" := "application/json"]

  datatype RequestBody = MultipartForm(fields: seq<(string, BrowserFile)>)

  /** The fetch options (`verb` is the `method` property); `None` stands for
      a property that is absent. */
  datatype RequestInit = RequestInit(verb: Option<string>, headers: Option<Headers>, body: Option<RequestBody>)

  const NoOptions := RequestInit(None, None, None)

  datatype FetchCall = FetchCall(url: string, init: RequestInit)

  /** `{ headers: { 'Content-Type': ..., ...options.headers }, ...options }`:
      the trailing spread puts back the caller's own headers object whenever
      it has one, so the JSON default survives only without one. */
  function RequestConfig(options: RequestInit): (c: RequestInit)
    ensures c.headers.Some?
    ensures options.headers.None? ==> c.headers.value == JsonHeaders
    ensures options.headers.Some? ==> c.headers == options.headers
    ensures "Content-Type" in c.headers.value <==>
              options.headers.None? || "Content-Type" in options.headers.value
    ensures c.verb == options.verb && c.body == options.body
  {
    var merged := JsonHeaders + (if options.headers.Some? then options.headers.value else map[]);
    var config := RequestInit(options.verb, Some(merged), options.body);
    if options.headers.Some? then config.(headers := options.headers) else config
  }

  /** The fetch `ApiService.request` issues for an endpoint. */
  function PrepareRequest(base: string, endpoint: string, options: RequestInit): (call: FetchCall)
    ensures StartsWith(call.url, base) && call.url[|base|..] == endpoint
    ensures call.init == RequestConfig(options)
  {
    FetchCall(base + endpoint, RequestConfig(options))
  }

  /** The operations of `ApiService`. */
  datatype Operation =
    | RecognizeFood(image: BrowserFile)
    | SearchRestaurants(dish: string, location: Option<Location>)
    | GetPopularDishes
    | HealthCheck

  /** The fetch each operation issues. Only recognition bypasses `request`:
      it posts a multipart form with the file under `image` and sets no
      headers. */
  function Call(base: string, op: Operation, show: real -> string): (call: FetchCall)
    ensures StartsWith(call.url, base)
    ensures op.RecognizeFood? ==>
              call == FetchCall(base + RecognizePath,
                                RequestInit(Some("POST"), None, Some(MultipartForm([("image", op.image)]))))
    ensures op.SearchRestaurants? ==>
              call.url == base + SearchEndpoint(op.dish, op.location, show) &&
              call.init == RequestInit(None, Some(JsonHeaders), None)
    ensures op.GetPopularDishes? ==> call.url == base + DishesPath
    ensures op.HealthCheck? ==> call.url == base + HealthPath
    ensures !op.RecognizeFood? ==> call.init.headers == Some(JsonHeaders)
  {
    match op
    case RecognizeFood(image) =>
      FetchCall(base + RecognizePath, RequestInit(Some("POST"), None, Some(MultipartForm([("image", image)]))))
    case SearchRestaurants(dish, location) =>
      PrepareRequest(base, SearchEndpoint(dish, location, show), NoOptions)
    case GetPopularDishes => PrepareRequest(base, DishesPath, NoOptions)
    case HealthCheck => PrepareRequest(base, HealthPath, NoOptions)
  }

  // ---------------------------------------------------------------------
  // Outcomes
  // ---------------------------------------------------------------------

  /** A JavaScript `Error`, identified by its message. */
  datatype JsError = JsError(message: string)

  /** The outcome of `response.json()`. */
  datatype JsonBody<T> = Parsed(value: T) | Malformed(error: JsError)

  datatype Response<T> = Response(status: nat, statusText: string, body: JsonBody<T>)

  /** What `fetch` produced: a response, or a rejection (network failure). */
  datatype FetchOutcome<T> = Responded(response: Response<T>) | Rejected(error: JsError)

  /** `response.ok`: a status in the range 200-299. */
  predicate IsOk(status: nat) {
    200 <= status <= 299
  }

  function ApiErrorMessage(status: nat, statusText: string): string {
    ApiErrorPrefix + NatToString(status) + " " + statusText
  }

  /** Reads the status and status text back out of an `API error:` message. */
  function ParseApiError(message: string): Option<(nat, string)> {
    if !StartsWith(message, ApiErrorPrefix) then None
    else
      var rest := message[|ApiErrorPrefix|..];
      var i := IndexOf(rest, ' ');
      if i == |rest| || !AllDigits(rest[..i]) then None
      else Some((ParseNat(rest[..i]), rest[i + 1..]))
  }

  /** The error `request` throws carries the status and the status text. */
  lemma ApiErrorMessageCarriesStatus(status: nat, statusText: string)
    ensures ParseApiError(ApiErrorMessage(status, statusText)) == Some((status, statusText))
  {
    var digits := NatToString(status);
    var m := ApiErrorMessage(status, statusText);
    assert m == ApiErrorPrefix + (digits + " " + statusText);
    var rest := m[|ApiErrorPrefix|..];
    assert rest == digits + [' '] + statusText;
    assert ' ' !in digits;
    IndexOfAfterPrefix(digits, ' ', statusText);
    assert rest[..|digits|] == digits;
    assert rest[|digits| + 1..] == statusText;
    ParseNatToString(status);
  }

  /** `ApiService.request` after the fetch: a rejection is rethrown as it
      is, with no retry; a non-ok status throws `API error: <status>
      <statusText>`; an ok response yields its parsed body. */
  function RequestOutcome<T>(outcome: FetchOutcome<T>): (r: Result<T, JsError>)
    ensures outcome.Rejected? ==> r == Err(outcome.error)
    ensures outcome.Responded? && !IsOk(outcome.response.status) ==>
              r.Err? && ParseApiError(r.error.message) ==
                          Some((outcome.response.status, outcome.response.statusText))
    ensures outcome.Responded? && IsOk(outcome.response.status) ==>
              match outcome.response.body
              case Parsed(v) => r == Ok(v)
              case Malformed(e) => r == Err(e)
  {
    match outcome
    case Rejected(e) => Err(e)
    case Responded(resp) =>
      if !IsOk(resp.status) then
        ApiErrorMessageCarriesStatus(resp.status, resp.statusText);
        Err(JsError(ApiErrorMessage(resp.status, resp.statusText)))
      else
        match resp.body
        case Parsed(v) => Ok(v)
        case Malformed(e) => Err(e)
  }

  /** `recognizeFood` after its fetch: it does not go through `request`, so
      a non-ok status throws `Recognition failed: <statusText>` (no status
      code), and a rejection propagates unchanged. */
  function RecognizeOutcome<T>(outcome: FetchOutcome<T>): (r: Result<T, JsError>)
    ensures outcome.Rejected? ==> r == Err(outcome.error)
    ensures outcome.Responded? && !IsOk(outcome.response.status) ==>
              r == Err(JsError(RecognitionErrorPrefix + outcome.response.statusText))
    ensures outcome.Responded? && IsOk(outcome.response.status) ==>
              r == RequestOutcome(outcome)
  {
    match outcome
    case Rejected(e) => Err(e)
    case Responded(resp) =>
      if !IsOk(resp.status) then Err(JsError(RecognitionErrorPrefix + resp.statusText))
      else RequestOutcome(outcome)
  }

  /** Both outcome rules succeed exactly on an ok response with a parsable
      body, and then agree. */
  lemma OutcomesSucceedTogether<T>(outcome: FetchOutcome<T>)
    ensures RequestOutcome(outcome).Ok? <==>
              outcome.Responded? && IsOk(outcome.response.status) && outcome.response.body.Parsed?
    ensures RecognizeOutcome(outcome).Ok? <==> RequestOutcome(outcome).Ok?
    ensures RequestOutcome(outcome).Ok? ==>
              RecognizeOutcome(outcome) == RequestOutcome(outcome) == Ok(outcome.response.body.value)
  {
  }
}
