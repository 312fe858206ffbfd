/** The API gateway's own logic: the bearer token it keeps and persists, the
    headers it sends, how it turns a failed response into an error message,
    how it unwraps the transaction list, and the dashboard endpoint paths. */
module Api {
  import opened Wrappers
  import opened Domain
  import Text

  /** The browser's `localStorage`: string keys to string values. */
  class Storage {
    var items: map<string, string>

    constructor (initial: map<string, string>)
      ensures items == initial
    {
      items := initial;
    }

    /** `getItem`: the stored value, or null when the key is absent. */
    method GetItem(key: string) returns (v: Option<string>)
      ensures v.Some? <==> key in items
      ensures v.Some? ==> v.value == items[key]
    {
      v := Lookup(items, key);
    }

    method SetItem(key: string, value: string)
      modifies this
      ensures items == old(items)[key := value]
    {
      items := items[key := value];
    }

    method RemoveItem(key: string)
      modifies this
      ensures items == old(items) - {key}
    {
      items := items - {key};
    }
  }

  const AUTH_TOKEN_KEY := "auth_token"

  /** The body of a non-2xx response: either `response.json()` rejects it
      (it is not JSON), or it is a JSON value of any shape. */
  datatype ErrorBody = Unparseable | Parsed(value: Json)

  /** What `fetch` gives back: a 2xx response with its decoded body, a 2xx
      response whose body `response.json()` rejects (empty, or an HTML
      page) with the SyntaxError's text, or another status with its error
      body. */
  datatype HttpResponse<T> = Ok(body: T) | OkNotJson(syntaxError: string) | NotOk(error: ErrorBody)

  /** The TypeError's text when `error.message` is read off a `null` body. */
  const NULL_BODY_TEXT := "Cannot read properties of null (reading 'message')"

  /** JavaScript truthiness of a JSON value. */
  predicate JsonTruthy(v: Json)
  {
    match v
    case JNull => false
    case JBool(b) => b
    case JNumber(n) => n != 0.0
    case JString(t) => t != ""
    case _ => true
  }

  /** `error.message` when it is truthy; every other body falls back to
      'Request failed'. */
  function TruthyMessage(v: Json): (r: Option<Json>)
    ensures r.Some? ==> JsonTruthy(r.value) && v.JObject? && "message" in v.fields && v.fields["message"] == r.value
  {
    match Member(v, "message")
    case Some(m) => if JsonTruthy(m) then Some(m) else None
    case None => None
  }

  /** `String(n)` for a number: an optional minus, the whole part, and the
      fraction digits up to the last non-zero one (at most twenty). */
  function NumberText(n: real): string
  {
    if n < 0.0 then "-" + MagnitudeText(-n) else MagnitudeText(n)
  }

  function MagnitudeText(x: real): string
    requires x >= 0.0
  {
    var whole := x.Floor;
    var frac := x - whole as real;
    Text.NatToString(whole) + (if frac == 0.0 then "" else "." + FractionDigits(frac, 20))
  }

  function FractionDigits(f: real, k: nat): string
    requires 0.0 <= f < 1.0
    decreases k
  {
    if k == 0 || f == 0.0 then ""
    else
      var d := (f * 10.0).Floor;
      [Text.DigitChar(d)] + FractionDigits(f * 10.0 - d as real, k - 1)
  }

  /** A whole number reads as its decimal text. */
  lemma NumberTextOfInt(n: int)
    ensures NumberText(n as real) == Text.IntToString(n)
  {
    if n < 0 {
      assert (-(n as real)).Floor == -n;
    } else {
      assert (n as real).Floor == n;
    }
  }

  /** `String(v)`, which `new Error(v)` keeps as the message: strings as
      they are, arrays joined with commas (null elements as nothing), and
      objects as "[object Object]". */
  function JsString(v: Json): string
    decreases v, 1, 0
  {
    match v
    case JNull => "null"
    case JBool(b) => if b then "true" else "false"
    case JNumber(n) => NumberText(n)
    case JString(t) => t
    case JArray(_) => JoinedFrom(v, 0)
    case JObject(_) => "[object Object]"
  }

  function JoinedFrom(arr: Json, i: nat): string
    requires arr.JArray? && i <= |arr.elements|
    decreases arr, 0, |arr.elements| - i
  {
    if i == |arr.elements| then ""
    else
      var e := arr.elements[i];
      var text := if e == JNull then "" else JsString(e);
      (if i == 0 then text else "," + text) + JoinedFrom(arr, i + 1)
  }

  /** `new Error(error.message || 'Request failed').message`, where a body
      that is not JSON was replaced by `{ message: 'Network error' }` and a
      `null` body makes the read of `.message` throw. */
  function ErrorMessage(body: ErrorBody): (m: string)
    ensures body.Unparseable? ==> m == "Network error"
    ensures (body.Parsed? && Member(body.value, "message").Some? && Member(body.value, "message").value.JString?
             && Member(body.value, "message").value.s != "") ==> m == Member(body.value, "message").value.s
  {
    match body
    case Unparseable => "Network error"
    case Parsed(v) =>
      if v == JNull then NULL_BODY_TEXT
      else match TruthyMessage(v)
        case Some(msg) => JsString(msg)
        case None => "Request failed"
  }

  /** The error's text is empty exactly when the message is truthy but its
      string form is empty, as for `[]` or `[null]`. */
  predicate EmptyMessage(body: ErrorBody)
  {
    body.Parsed? && TruthyMessage(body.value).Some? && JsString(TruthyMessage(body.value).value) == ""
  }

  /** "Network error" comes from a body that is not JSON or from a server
      that said so; "Request failed" from a non-null body without a truthy
      message or with that very message; the empty text from an
      `EmptyMessage` body only. */
  lemma ErrorMessageCases(body: ErrorBody)
    ensures ErrorMessage(body) == "Network error" <==>
      body.Unparseable? || (body.Parsed? && TruthyMessage(body.value).Some? && JsString(TruthyMessage(body.value).value) == "Network error")
    ensures ErrorMessage(body) == "Request failed" <==>
      body.Parsed? && body.value != JNull &&
      (TruthyMessage(body.value).None? || JsString(TruthyMessage(body.value).value) == "Request failed")
    ensures ErrorMessage(body) == "" <==> EmptyMessage(body)
  {
    assert "Network error" != "Request failed";
    assert NULL_BODY_TEXT != "Network error" && NULL_BODY_TEXT != "Request failed" && NULL_BODY_TEXT != "";
    match body
    case Unparseable =>
    case Parsed(v) =>
      if v == JNull {
        assert TruthyMessage(v).None?;
      }
  }

  /** The bodies whose text is not the server's own string: `null`, a
      number, an empty array, and a falsy message. */
  lemma UnusualErrorBodies()
    ensures ErrorMessage(Parsed(JNull)) == NULL_BODY_TEXT
    ensures ErrorMessage(Parsed(JObject(map["message" := JNumber(42.0)]))) == "42"
    ensures ErrorMessage(Parsed(JObject(map["message" := JArray([])]))) == ""
    ensures ErrorMessage(Parsed(JObject(map["message" := JNumber(0.0)]))) == "Request failed"
  {
    NumberTextOfInt(42);
    assert Text.IntToString(42) == "42";
  }

  /** `request`: the decoded body of a 2xx response, or the thrown error:
      the SyntaxError of a 2xx body that is not JSON, or the error built
      from a failed response's body. */
  function Request<T>(response: HttpResponse<T>): (r: Result<T, string>)
    ensures r.Success? <==> response.Ok?
    ensures r.Success? ==> r.value == response.body
    ensures response.OkNotJson? ==> r == Failure(response.syntaxError)
    ensures response.NotOk? ==> r == Failure(ErrorMessage(response.error))
  {
    match response
    case Ok(body) => Success(body)
    case OkNotJson(message) => Failure(message)
    case NotOk(e) => Failure(ErrorMessage(e))
  }

  /** The `ApiService` singleton: its bearer token and the storage it mirrors
      the token into. */
  class ApiService {
    var token: Option<string>
    const storage: Storage

    /** The token starts as whatever `auth_token` holds, or null. */
    constructor (storage: Storage)
      ensures this.storage == storage
      ensures token == Lookup(storage.items, AUTH_TOKEN_KEY)
    {
      this.storage := storage;
      token := Lookup(storage.items, AUTH_TOKEN_KEY);
    }

    /** JavaScript truthiness of the token: null and "" are both falsy. */
    predicate HasToken()
      reads this
    {
      token.Some? && token.value != ""
    }

    /** `getHeaders`: always the JSON content type, and the bearer token
        exactly when there is a truthy one. */
    function Headers(): (h: map<string, string>)
      reads this
      ensures "Content-Type" in h && h["Content-Type"] == "application/json"
      ensures "Authorization" in h <==> HasToken()
      ensures HasToken() ==> h["Authorization"] == "Bearer " + token.value
      ensures h.Keys <= {"Content-Type", "Authorization"}
    {
      var base := map["Content-Type" := "application/json"];
      if HasToken() then base["Authorization" := "Bearer " + token.value] else base
    }

    /** `login` and `register` share this tail: on success the response's
        token becomes both the in-memory token and the stored `auth_token`;
        on failure the error propagates and nothing changes. */
    method Authenticate(response: HttpResponse<AuthResponse>) returns (r: Result<AuthResponse, string>)
      modifies this, storage
      ensures r == Request(response)
      ensures r.Success? ==> token == Some(r.value.token)
      ensures r.Success? ==> storage.items == old(storage.items)[AUTH_TOKEN_KEY := r.value.token]
      ensures r.Failure? ==> token == old(token) && storage.items == old(storage.items)
    {
      r := Request(response);
      if r.Success? {
        token := Some(r.value.token);
        storage.SetItem(AUTH_TOKEN_KEY, r.value.token);
      }
    }

    /** `login`: POST /auth/login, then `Authenticate`. */
    method Login(response: HttpResponse<AuthResponse>) returns (r: Result<AuthResponse, string>)
      modifies this, storage
      ensures r == Request(response)
      ensures r.Success? ==> token == Some(r.value.token)
      ensures r.Success? ==> storage.items == old(storage.items)[AUTH_TOKEN_KEY := r.value.token]
      ensures r.Failure? ==> token == old(token) && storage.items == old(storage.items)
    {
      r := Authenticate(response);
    }

    /** `register`: POST /auth/register, then `Authenticate`. */
    method Register(response: HttpResponse<AuthResponse>) returns (r: Result<AuthResponse, string>)
      modifies this, storage
      ensures r == Request(response)
      ensures r.Success? ==> token == Some(r.value.token)
      ensures r.Success? ==> storage.items == old(storage.items)[AUTH_TOKEN_KEY := r.value.token]
      ensures r.Failure? ==> token == old(token) && storage.items == old(storage.items)
    {
      r := Authenticate(response);
    }

    /** `logout`: no token in memory, none in storage, whatever came before. */
    method Logout()
      modifies this, storage
      ensures token == None
      ensures storage.items == old(storage.items) - {AUTH_TOKEN_KEY}
      ensures !HasToken() && "Authorization" !in Headers()
    {
      token := None;
      storage.RemoveItem(AUTH_TOKEN_KEY);
    }
  }

  /** The token across page loads: after a successful login, the service
      the next load builds on the same storage starts with the response's
      token and sends it exactly when it is non-empty; after a logout, the
      next load starts with no token and sends no Authorization header. */
  method TokenSurvivesReload(initial: map<string, string>, response: AuthResponse)
    returns (reloaded: ApiService, afterLogout: ApiService)
    ensures reloaded.token == Some(response.token)
    ensures reloaded.HasToken() <==> response.token != ""
    ensures reloaded.HasToken() ==> reloaded.Headers()["Authorization"] == "Bearer " + response.token
    ensures afterLogout.token == None && "Authorization" !in afterLogout.Headers()
  {
    var storage := new Storage(initial);
    var service := new ApiService(storage);
    var r := service.Login(Ok(response));
    reloaded := new ApiService(storage);
    service.Logout();
    afterLogout := new ApiService(storage);
  }

  /** The JSON values a response body can hold. */
  datatype Json =
    | JNull
    | JBool(b: bool)
    | JNumber(n: real)
    | JString(s: string)
    | JArray(elements: seq<Json>)
    | JObject(fields: map<string, Json>)

  /** `obj.key` in JavaScript: the member of an object, undefined otherwise
      (arrays, strings and numbers have no such member in a JSON body). */
  function Member(v: Json, key: string): Option<Json>
  {
    if v.JObject? && key in v.fields then Some(v.fields[key]) else None
  }

  /** The transaction list out of a 2xx body: `data.content` when that is an
      array (a paginated page), else `data` when that is an array, else the
      empty list. Reading `.data` of a `null` body throws a TypeError. */
  function UnwrapTransactions(body: Json): (r: Result<seq<Json>, string>)
    ensures r.Failure? <==> body == JNull
  {
    if body == JNull then Failure("Cannot read properties of null (reading 'data')")
    else
      var data := Member(body, "data");
      if data.Some? && Member(data.value, "content").Some? && Member(data.value, "content").value.JArray? then
        Success(Member(data.value, "content").value.elements)
      else if data.Some? && data.value.JArray? then
        Success(data.value.elements)
      else
        Success([])
  }

  /** `getTransactions`: a failed request fails with its message, a 2xx
      body that is not JSON with the SyntaxError; a 2xx JSON body that is
      not `null` always gives a list. */
  function GetTransactions(response: HttpResponse<Json>): (r: Result<seq<Json>, string>)
    ensures response.NotOk? ==> r == Failure(ErrorMessage(response.error))
    ensures response.OkNotJson? ==> r == Failure(response.syntaxError)
    ensures response.Ok? ==> (r.Failure? <==> response.body == JNull)
  {
    match response
    case NotOk(e) => Failure(ErrorMessage(e))
    case OkNotJson(message) => Failure(message)
    case Ok(body) => UnwrapTransactions(body)
  }

  /** The three body shapes the client accepts, each read back as its list,
      and any other non-null shape read as the empty list. */
  lemma UnwrapShapes(items: seq<Json>, other: map<string, Json>, body: Json)
    ensures UnwrapTransactions(JObject(map["data" := JObject(other["content" := JArray(items)])])) == Success(items)
    ensures UnwrapTransactions(JObject(map["data" := JArray(items)])) == Success(items)
    ensures (body != JNull && (Member(body, "data").None? ||
               (!Member(body, "data").value.JArray? && (Member(Member(body, "data").value, "content").None? ||
                 !Member(Member(body, "data").value, "content").value.JArray?)))) ==>
      UnwrapTransactions(body) == Success([])
  {
  }

  /** One `name=value` pair of a `URLSearchParams`. */
  datatype Param = Param(name: string, value: string)

  /** `params.toString()` without percent-encoding: pairs joined by '&'. */
  function QueryString(ps: seq<Param>): (q: string)
    ensures q == "" <==> ps == []
  {
    if ps == [] then ""
    else if |ps| == 1 then ps[0].name + "=" + ps[0].value
    else ps[0].name + "=" + ps[0].value + "&" + QueryString(ps[1..])
  }

  /** `s` split at every occurrence of `c`; always at least one piece. */
  function SplitOn(s: string, c: char): (r: seq<string>)
    ensures |r| > 0 && |r[0]| <= |s| && r[0] == s[..|r[0]|]
    ensures |r| > 1 ==> |r[0]| < |s| && s[|r[0]|] == c
  {
    if s == [] then [""]
    else if s[0] == c then [""] + SplitOn(s[1..], c)
    else
      var rest := SplitOn(s[1..], c);
      [[s[0]] + rest[0]] + rest[1..]
  }

  lemma {:induction false} SplitOnPlain(x: string, c: char)
    requires c !in x
    ensures SplitOn(x, c) == [x]
  {
    if x != [] {
      assert x[0] != c && c !in x[1..];
      SplitOnPlain(x[1..], c);
      assert [x[0]] + x[1..] == x;
    }
  }

  lemma {:induction false} SplitOnFirst(x: string, c: char, y: string)
    requires c !in x
    ensures SplitOn(x + [c] + y, c) == [x] + SplitOn(y, c)
  {
    if x == [] {
      assert x + [c] + y == [c] + y;
      assert ([c] + y)[1..] == y;
    } else {
      assert (x + [c] + y)[1..] == x[1..] + [c] + y;
      SplitOnFirst(x[1..], c, y);
      assert [x[0]] + x[1..] == x;
    }
  }

  /** A parameter that survives the query string: its name is non-empty and
      holds neither separator, and its value holds no '&'. */
  predicate PlainParam(p: Param)
  {
    p.name != "" && '=' !in p.name && '&' !in p.name && '&' !in p.value
  }

  /** One `name=value` piece read back: split at the first '='. */
  function ParsePair(piece: string): Param
  {
    var parts := SplitOn(piece, '=');
    if |parts| == 1 then Param(piece, "")
    else Param(parts[0], piece[|parts[0]| + 1..])
  }

  lemma ParsePairOf(p: Param)
    requires PlainParam(p)
    ensures ParsePair(p.name + "=" + p.value) == p
  {
    var piece := p.name + "=" + p.value;
    SplitOnFirst(p.name, '=', p.value);
    assert piece == p.name + ['='] + p.value;
    assert piece[|p.name| + 1..] == p.value;
  }

  /** A query string read back into its pairs. */
  function ParseQuery(q: string): seq<Param>
  {
    var pieces := SplitOn(q, '&');
    seq(|pieces|, i requires 0 <= i < |pieces| => ParsePair(pieces[i]))
  }

  function Pair(p: Param): string
  {
    p.name + "=" + p.value
  }

  /** The `name=value` pieces of a parameter list, in order. */
  function Pieces(ps: seq<Param>): (r: seq<string>)
    ensures |r| == |ps|
  {
    if ps == [] then [] else [Pair(ps[0])] + Pieces(ps[1..])
  }

  lemma {:induction false} PiecesAt(ps: seq<Param>, i: nat)
    requires i < |ps|
    ensures Pieces(ps)[i] == Pair(ps[i])
  {
    if i > 0 {
      PiecesAt(ps[1..], i - 1);
    }
  }

  lemma PlainPairHasNoAmpersand(p: Param)
    requires PlainParam(p)
    ensures '&' !in Pair(p)
  {
    var s := Pair(p);
    forall k | 0 <= k < |s| ensures s[k] != '&' {
      if k < |p.name| {
        assert s[k] == p.name[k];
      } else if k > |p.name| {
        assert s[k] == p.value[k - |p.name| - 1];
      }
    }
  }

  lemma {:induction false} SplitQuery(ps: seq<Param>)
    requires ps != []
    requires forall i :: 0 <= i < |ps| ==> PlainParam(ps[i])
    ensures SplitOn(QueryString(ps), '&') == Pieces(ps)
  {
    PlainPairHasNoAmpersand(ps[0]);
    if |ps| == 1 {
      SplitOnPlain(Pair(ps[0]), '&');
    } else {
      SplitQuery(ps[1..]);
      assert QueryString(ps) == Pair(ps[0]) + ['&'] + QueryString(ps[1..]);
      SplitOnFirst(Pair(ps[0]), '&', QueryString(ps[1..]));
    }
  }

  /** Parameters built from plain names and values are read back unchanged
      from the query string, in order. */
  lemma QueryRoundTrip(ps: seq<Param>)
    requires ps != []
    requires forall i :: 0 <= i < |ps| ==> PlainParam(ps[i])
    ensures ParseQuery(QueryString(ps)) == ps
  {
    SplitQuery(ps);
    var q := ParseQuery(QueryString(ps));
    assert |q| == |ps|;
    forall i | 0 <= i < |ps| ensures q[i] == ps[i] {
      PiecesAt(ps, i);
      ParsePairOf(ps[i]);
      assert q[i] == ParsePair(Pieces(ps)[i]);
    }
  }

  /** JavaScript truthiness of an optional string argument. */
  predicate Truthy(s: Option<string>)
  {
    s.Some? && s.value != ""
  }

  const SUMMARY_PATH := "/dashboard/summary"
  const CATEGORY_STATISTICS_PATH := "/dashboard/category-statistics"
  const MONTHLY_TRENDS_PATH := "/dashboard/monthly-trends"
  const PERIOD_COMPARISON_PATH := "/dashboard/period-comparison"

  /** `getDashboardSummary`: the period is appended only when truthy. */
  function SummaryEndpoint(period: Option<string>): (e: string)
    ensures Truthy(period) ==> e == SUMMARY_PATH + "?period=" + period.value
    ensures !Truthy(period) ==> e == SUMMARY_PATH
  {
    if Truthy(period) then SUMMARY_PATH + "?period=" + period.value else SUMMARY_PATH
  }

  function TypeName(t: CategoryType): string
  {
    if t == Income then "INCOME" else "EXPENSE"
  }

  /** The parameters `getCategoryStatistics` appends: period first, then
      type, each only when given. */
  function StatisticsParams(period: Option<string>, txType: Option<CategoryType>): seq<Param>
  {
    (if Truthy(period) then [Param("period", period.value)] else []) +
    (if txType.Some? then [Param("type", TypeName(txType.value))] else [])
  }

  /** `getCategoryStatistics`: '?' and the query only when a parameter is
      present. */
  function CategoryStatisticsEndpoint(period: Option<string>, txType: Option<CategoryType>): string
  {
    var q := QueryString(StatisticsParams(period, txType));
    if q != "" then CATEGORY_STATISTICS_PATH + "?" + q else CATEGORY_STATISTICS_PATH
  }

  /** The statistics path is bare exactly when neither argument is given;
      otherwise its query reads back as the period (if any) followed by the
      type (if any). */
  lemma CategoryStatisticsQuery(period: Option<string>, txType: Option<CategoryType>)
    requires Truthy(period) ==> '&' !in period.value
    ensures CategoryStatisticsEndpoint(period, txType) == CATEGORY_STATISTICS_PATH <==> !Truthy(period) && txType.None?
    ensures Truthy(period) || txType.Some? ==>
      var e := CategoryStatisticsEndpoint(period, txType);
      var base := CATEGORY_STATISTICS_PATH + "?";
      |e| > |base| && e[..|base|] == base &&
      ParseQuery(e[|base|..]) == StatisticsParams(period, txType)
  {
    var ps := StatisticsParams(period, txType);
    if ps != [] {
      var e := CategoryStatisticsEndpoint(period, txType);
      var base := CATEGORY_STATISTICS_PATH + "?";
      assert e == base + QueryString(ps);
      assert e[|base|..] == QueryString(ps);
      QueryRoundTrip(ps);
    }
  }

  /** `getMonthlyTrends`: the count is appended only when truthy, so 0 (like
      a missing count) gives the bare path. */
  function MonthlyTrendsEndpoint(months: Option<int>): (e: string)
    ensures months.None? || months == Some(0) ==> e == MONTHLY_TRENDS_PATH
  {
    if months.Some? && months.value != 0 then MONTHLY_TRENDS_PATH + "?months=" + Text.IntToString(months.value)
    else MONTHLY_TRENDS_PATH
  }

  /** A truthy month count is carried in the path and reads back as the same
      number. */
  lemma MonthlyTrendsCount(months: int)
    requires months != 0
    ensures var e := MonthlyTrendsEndpoint(Some(months));
      var base := MONTHLY_TRENDS_PATH + "?months=";
      |e| > |base| && e[..|base|] == base && Text.ParseIntPrefix(e[|base|..]) == Some(months)
  {
    var e := MonthlyTrendsEndpoint(Some(months));
    var base := MONTHLY_TRENDS_PATH + "?months=";
    assert e[|base|..] == Text.IntToString(months);
    Text.ParseIntRoundTrip(months);
  }

  function ComparisonParams(currentStart: string, currentEnd: string, previousStart: string, previousEnd: string): seq<Param>
  {
    [Param("currentStart", currentStart), Param("currentEnd", currentEnd),
     Param("previousStart", previousStart), Param("previousEnd", previousEnd)]
  }

  /** `getPeriodComparison`: the four dates, always, in this order. */
  function PeriodComparisonEndpoint(currentStart: string, currentEnd: string, previousStart: string, previousEnd: string): string
  {
    PERIOD_COMPARISON_PATH + "?" + QueryString(ComparisonParams(currentStart, currentEnd, previousStart, previousEnd))
  }

  /** The comparison query reads back as the four dates in order. */
  lemma PeriodComparisonQuery(currentStart: string, currentEnd: string, previousStart: string, previousEnd: string)
    requires '&' !in currentStart && '&' !in currentEnd && '&' !in previousStart && '&' !in previousEnd
    ensures var e := PeriodComparisonEndpoint(currentStart, currentEnd, previousStart, previousEnd);
      var base := PERIOD_COMPARISON_PATH + "?";
      e[..|base|] == base &&
      ParseQuery(e[|base|..]) == ComparisonParams(currentStart, currentEnd, previousStart, previousEnd)
  {
    var ps := ComparisonParams(currentStart, currentEnd, previousStart, previousEnd);
    var base := PERIOD_COMPARISON_PATH + "?";
    var e := PeriodComparisonEndpoint(currentStart, currentEnd, previousStart, previousEnd);
    assert e[|base|..] == QueryString(ps);
    QueryRoundTrip(ps);
  }
}
