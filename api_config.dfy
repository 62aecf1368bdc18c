/**
 * The request helpers of `src/apiConfig.js`: which URL, query string,
 * headers and body each helper hands to `fetch`.  The network call itself
 * is not modelled; what it gives back is an `Outcome` that callers receive
 * as a parameter.
 */
module ApiConfig {
  import opened JsValues

  const API_BASE_URL := "https://ubill-tenantapi.maccloud.in/api"
  const DASHBOARD_BASE_URL := "https://ibmapi.maccloud.in/api"

  const CONTENT_TYPE := Prop("Content-Type", Str("application/json"))

  datatype HttpMethod = HttpGet | HttpPost

  /**
   * What is handed to `fetch`: the URL without its query string, the query
   * parameters in order, the headers object and, for a POST, the object
   * that `JSON.stringify` turns into the body.
   */
  datatype Request = Request(
    verb: HttpMethod,
    url: string,
    query: seq<(string, string)>,
    headers: seq<Prop>,
    body: Option<JsVal>)

  /**
   * What a helper resolves to: `{ ok, status, data }` taken from the
   * response, or the error it rejects with (network failure, or a body that
   * `res.json()` cannot parse).
   */
  datatype Outcome =
    | Replied(ok: bool, status: int, data: JsVal)
    | Threw(message: string)

  // ---------------------------------------------------------------------
  // Query string
  // ---------------------------------------------------------------------

  /** The query parameters the `forEach` over `Object.entries(params)` appends. */
  function KeptParams(params: seq<Prop>): (q: seq<(string, string)>)
    ensures |q| <= |params|
  {
    if params == [] then []
    else
      var p := params[0];
      (if IsNullish(p.value) then [] else [(p.key, ToStr(p.value))]) + KeptParams(params[1..])
  }

  /** `entry` is the `(key, String(value))` pair of some parameter whose value is neither `undefined` nor `null`. */
  ghost predicate IsKeptEntry(params: seq<Prop>, entry: (string, string)) {
    exists j :: 0 <= j < |params| && !IsNullish(params[j].value) && entry == (params[j].key, ToStr(params[j].value))
  }

  /** The query holds exactly the entries whose value is neither `undefined` nor `null`, each as `String(v)`. */
  lemma {:induction false} KeptParamsExact(params: seq<Prop>)
    ensures forall i :: 0 <= i < |KeptParams(params)| ==> IsKeptEntry(params, KeptParams(params)[i])
    ensures forall j :: 0 <= j < |params| && !IsNullish(params[j].value) ==>
      (params[j].key, ToStr(params[j].value)) in KeptParams(params)
  {
    if params != [] {
      var p := params[0];
      var head := if IsNullish(p.value) then [] else [(p.key, ToStr(p.value))];
      var rest := KeptParams(params[1..]);
      KeptParamsExact(params[1..]);
      assert KeptParams(params) == head + rest;
      forall i | 0 <= i < |KeptParams(params)|
        ensures IsKeptEntry(params, KeptParams(params)[i])
      {
        if i < |head| {
          assert KeptParams(params)[i] == (params[0].key, ToStr(params[0].value));
        } else {
          assert IsKeptEntry(params[1..], rest[i - |head|]);
          var j :| 0 <= j < |params[1..]| && !IsNullish(params[1..][j].value) &&
            rest[i - |head|] == (params[1..][j].key, ToStr(params[1..][j].value));
          assert params[1..][j] == params[j + 1];
        }
      }
      forall j | 0 <= j < |params| && !IsNullish(params[j].value)
        ensures (params[j].key, ToStr(params[j].value)) in KeptParams(params)
      {
        if j > 0 {
          assert params[j] == params[1..][j - 1];
        }
      }
    }
  }

  /** The parameters keep their entry order: the query of `a` then `b` is the query of `a` followed by that of `b`. */
  lemma {:induction false} KeptParamsAppend(a: seq<Prop>, b: seq<Prop>)
    ensures KeptParams(a + b) == KeptParams(a) + KeptParams(b)
  {
    if a == [] {
      assert a + b == b;
    } else {
      assert (a + b)[1..] == a[1..] + b;
      KeptParamsAppend(a[1..], b);
    }
  }

  /** `url.searchParams.append(k, String(v))` for each entry whose value is neither `undefined` nor `null`. */
  method AppendParams(params: seq<Prop>) returns (query: seq<(string, string)>)
    ensures query == KeptParams(params)
  {
    query := [];
    var i := 0;
    while i < |params|
      invariant 0 <= i <= |params|
      invariant query == KeptParams(params[..i])
    {
      var p := params[i];
      if !IsNullish(p.value) {
        query := query + [(p.key, ToStr(p.value))];
      }
      KeptParamsAppend(params[..i], [p]);
      assert params[..i + 1] == params[..i] + [p];
      i := i + 1;
    }
    assert params[..i] == params;
  }

  // ---------------------------------------------------------------------
  // Headers
  // ---------------------------------------------------------------------

  /** `{ ...base, ...extra }`, property by property. */
  function Spread(base: seq<Prop>, extra: seq<Prop>): seq<Prop> {
    if extra == [] then base
    else
      var last := extra[|extra| - 1];
      SetProp(Spread(base, extra[..|extra| - 1]), last.key, last.value)
  }

  /** Later properties win: a key of `extra` reads its last value there, any other key reads `base`. */
  lemma {:induction false} LookupSpread(base: seq<Prop>, extra: seq<Prop>, k: string)
    ensures Lookup(Spread(base, extra), k) == if HasKey(extra, k) then Lookup(extra, k) else Lookup(base, k)
    ensures HasKey(Spread(base, extra), k) <==> HasKey(base, k) || HasKey(extra, k)
  {
    if extra != [] {
      var init := extra[..|extra| - 1];
      var last := extra[|extra| - 1];
      LookupSpread(base, init, k);
      LookupSetProp(Spread(base, init), last.key, last.value, k);
      HasKeySplit(extra, k);
      LookupSplit(extra, k);
    }
  }

  lemma LookupSplit(props: seq<Prop>, k: string)
    requires props != []
    ensures Lookup(props, k) ==
      if props[|props| - 1].key == k then props[|props| - 1].value else Lookup(props[..|props| - 1], k)
  {
  }

  /** The properties `...(options.headers || {})` spreads (a string or array there is not modelled). */
  function SpreadSource(options: JsVal): seq<Prop> {
    var h := Or(Get(options, "headers"), Obj([]));
    if h.Obj? then h.props else []
  }

  /** `{ "Content-Type": "application/json", ...(options.headers || {}) }`. */
  function Headers(options: JsVal): (hs: seq<Prop>)
    ensures HasKey(hs, "Content-Type")
  {
    LookupSpread([CONTENT_TYPE], SpreadSource(options), "Content-Type");
    assert [CONTENT_TYPE][0].key == "Content-Type";
    Spread([CONTENT_TYPE], SpreadSource(options))
  }

  /** A header is sent exactly when it is `Content-Type` or a property of `options.headers`. */
  lemma HeadersSent(options: JsVal, k: string)
    ensures HasKey(Headers(options), k) <==> k == "Content-Type" || HasKey(SpreadSource(options), k)
    ensures Lookup(Headers(options), k) ==
      if HasKey(SpreadSource(options), k) then Lookup(SpreadSource(options), k)
      else if k == "Content-Type" then Str("application/json")
      else Undefined
  {
    LookupSpread([CONTENT_TYPE], SpreadSource(options), k);
    assert [CONTENT_TYPE][0].key == "Content-Type";
  }

  // ---------------------------------------------------------------------
  // Generic helpers
  // ---------------------------------------------------------------------

  function ApiGetDashboard(endpoint: string, params: seq<Prop>): Request {
    Request(HttpGet, DASHBOARD_BASE_URL + endpoint, KeptParams(params), [CONTENT_TYPE], None)
  }

  function ApiGet(endpoint: string, params: seq<Prop>, options: JsVal): Request {
    Request(HttpGet, API_BASE_URL + endpoint, KeptParams(params), Headers(options), None)
  }

  function ApiPost(endpoint: string, body: JsVal, options: JsVal): Request {
    Request(HttpPost, API_BASE_URL + endpoint, [], Headers(options), Some(body))
  }

  /** An omitted `options` argument defaults to `{}`. */
  const NO_OPTIONS := Obj([])

  // ---------------------------------------------------------------------
  // Endpoint helpers
  // ---------------------------------------------------------------------

  function LoginUser(email: JsVal, password: JsVal): Request {
    ApiPost("/login", Obj([Prop("UserId", email), Prop("Password", password)]), NO_OPTIONS)
  }

  function GetContractsByClient(clientId: JsVal): Request {
    ApiGet("/get-contracts-by-client", [Prop("clientId", clientId)], NO_OPTIONS)
  }

  function GetOwnerContractsByClient(clientId: JsVal): Request {
    ApiGet("/get-owner-contracts-by-client", [Prop("clientId", clientId)], NO_OPTIONS)
  }

  function GetApprovedClient(userId: JsVal): Request {
    ApiGet("/get-approved-client", [Prop("userId", userId)], NO_OPTIONS)
  }

  function GetFinalBillRequest(userId: JsVal, officeId: JsVal): Request {
    ApiGet("/final-bill-request-get", [Prop("userId", userId), Prop("officeid", officeId)], NO_OPTIONS)
  }

  /**
   * The body shared by the bill- and payment-history helpers, from the
   * destructured argument object; `byOffice` defaults to `false` and
   * `officeIds` to `""` when they are `undefined`.
   */
  function HistoryBody(args: JsVal): JsVal {
    Obj([
      Prop("key", Get(args, "key")),
      Prop("FromDate", Get(args, "fromDate")),
      Prop("ToDate", Get(args, "toDate")),
      Prop("Byoffice", Default(Get(args, "byOffice"), Bool(false))),
      Prop("OfficeIds", Default(Get(args, "officeIds"), Str(""))),
      Prop("ClientIds", Get(args, "clientIds"))
    ])
  }

  /** Destructuring the argument throws on `null`/`undefined`; every caller passes an object. */
  function GetBillHistory(args: JsVal): Request
    requires !IsNullish(args)
  {
    ApiPost("/bill-history", HistoryBody(args), NO_OPTIONS)
  }

  function GetPaymentHistory(args: JsVal): Request
    requires !IsNullish(args)
  {
    ApiPost("/payment-history", HistoryBody(args), NO_OPTIONS)
  }

  function GetCustomerDashboard(key: JsVal): Request {
    ApiGetDashboard("/Cust_Dashboard", [Prop("Key", key)])
  }

  /** The login key is passed as `options.authToken`, which the generic GET never reads. */
  function GetOwnerBuildings(loginKey: JsVal): Request {
    ApiGet("/get-owner-buildings", [], Obj([Prop("authToken", loginKey)]))
  }

  function RaiseServiceTicket(payload: JsVal): Request {
    Request(HttpPost, DASHBOARD_BASE_URL + "/ServiceTicketAdd", [], [CONTENT_TYPE], Some(payload))
  }

  function GetClientMeters(loginKey: JsVal): Request {
    ApiGet("/client-meters", [Prop("loginKey", loginKey)], NO_OPTIONS)
  }

  // ---------------------------------------------------------------------
  // Properties of the helpers
  // ---------------------------------------------------------------------

  /** An `authToken` header is sent only when the caller's `options.headers` supplies one. */
  lemma TokenOnlyIfGiven(options: JsVal)
    requires !HasKey(SpreadSource(options), "authToken")
    ensures !HasKey(Headers(options), "authToken")
  {
    HeadersSent(options, "authToken");
  }

  /** `getOwnerBuildings` never sends its token: its headers are exactly `Content-Type`, whatever the key. */
  lemma OwnerBuildingsDropsToken(loginKey: JsVal)
    ensures GetOwnerBuildings(loginKey).headers == [CONTENT_TYPE]
    ensures !HasKey(GetOwnerBuildings(loginKey).headers, "authToken")
    ensures GetOwnerBuildings(loginKey).query == []
  {
    LookupLast([Prop("authToken", loginKey)], "headers");
    assert SpreadSource(Obj([Prop("authToken", loginKey)])) == [];
    assert !HasKey([CONTENT_TYPE], "authToken") by {
      assert [CONTENT_TYPE][0].key != "authToken";
    }
  }

  /** The login body is exactly `{ UserId: email, Password: password }`. */
  lemma LoginBody(email: JsVal, password: JsVal)
    ensures var r := LoginUser(email, password);
      r.verb == HttpPost && r.url == API_BASE_URL + "/login" && r.body.Some? &&
      r.body.value.Obj? && Keys(r.body.value.props) == ["UserId", "Password"] &&
      Get(r.body.value, "UserId") == email && Get(r.body.value, "Password") == password
  {
    var ps := [Prop("UserId", email), Prop("Password", password)];
    GetLiteral(ps, 0, "UserId");
    GetLiteral(ps, 1, "Password");
  }

  /**
   * The two history helpers send the same body to different endpoints; the
   * body's `Byoffice` is `false` and `OfficeIds` is `""` unless the caller
   * gives them, and the other four keys copy the arguments.
   */
  lemma HistoryBodies(args: JsVal)
    requires !IsNullish(args)
    ensures GetBillHistory(args).body == GetPaymentHistory(args).body
    ensures GetBillHistory(args).url != GetPaymentHistory(args).url
    ensures var b := HistoryBody(args);
      Keys(b.props) == ["key", "FromDate", "ToDate", "Byoffice", "OfficeIds", "ClientIds"] &&
      Get(b, "key") == Get(args, "key") &&
      Get(b, "FromDate") == Get(args, "fromDate") &&
      Get(b, "ToDate") == Get(args, "toDate") &&
      Get(b, "ClientIds") == Get(args, "clientIds") &&
      (Get(args, "byOffice") == Undefined ==> Get(b, "Byoffice") == Bool(false)) &&
      (Get(args, "officeIds") == Undefined ==> Get(b, "OfficeIds") == Str("")) &&
      (Get(args, "byOffice") != Undefined ==> Get(b, "Byoffice") == Get(args, "byOffice")) &&
      (Get(args, "officeIds") != Undefined ==> Get(b, "OfficeIds") == Get(args, "officeIds"))
  {
    HistoryUrls(args);
    HistoryCopiedFields(args);
    HistoryDefaultedFields(args);
  }

  /** The four history body keys that copy an argument. */
  lemma HistoryCopiedFields(args: JsVal)
    ensures var b := HistoryBody(args);
      Get(b, "key") == Get(args, "key") && Get(b, "FromDate") == Get(args, "fromDate") &&
      Get(b, "ToDate") == Get(args, "toDate") && Get(b, "ClientIds") == Get(args, "clientIds")
  {
    var b := HistoryBody(args);
    GetLiteral(b.props, 0, "key");
    GetLiteral(b.props, 1, "FromDate");
    GetLiteral(b.props, 2, "ToDate");
    GetLiteral(b.props, 5, "ClientIds");
  }

  /** The two history body keys that fall back to a default. */
  lemma HistoryDefaultedFields(args: JsVal)
    ensures var b := HistoryBody(args);
      Get(b, "Byoffice") == Default(Get(args, "byOffice"), Bool(false)) &&
      Get(b, "OfficeIds") == Default(Get(args, "officeIds"), Str(""))
  {
    var b := HistoryBody(args);
    GetLiteral(b.props, 3, "Byoffice");
    GetLiteral(b.props, 4, "OfficeIds");
  }

  /** The two history requests share their body and differ in their path. */
  lemma HistoryUrls(args: JsVal)
    requires !IsNullish(args)
    ensures GetBillHistory(args).body == GetPaymentHistory(args).body
    ensures GetBillHistory(args).url != GetPaymentHistory(args).url
  {
    assert (API_BASE_URL + "/bill-history")[|API_BASE_URL| + 1] == 'b';
    assert (API_BASE_URL + "/payment-history")[|API_BASE_URL| + 1] == 'p';
  }

  /** `getFinalBillRequest` sends the office under the lower-case name `officeid`. */
  lemma FinalBillQuery(userId: JsVal, officeId: JsVal)
    requires !IsNullish(userId) && !IsNullish(officeId)
    ensures GetFinalBillRequest(userId, officeId).query == [("userId", ToStr(userId)), ("officeid", ToStr(officeId))]
  {
    var ps := [Prop("userId", userId), Prop("officeid", officeId)];
    assert ps[1..] == [Prop("officeid", officeId)];
    assert ps[1..][1..] == [];
    assert KeptParams(ps[1..]) == [("officeid", ToStr(officeId))] + KeptParams(ps[1..][1..]);
    assert KeptParams(ps) == [("userId", ToStr(userId))] + KeptParams(ps[1..]);
  }

  /** A `null` or `undefined` parameter is left out of the query string altogether. */
  lemma NullishParamDropped(userId: JsVal)
    requires IsNullish(userId)
    ensures GetApprovedClient(userId).query == []
  {
  }

  /** One parameter gives one query entry, unless its value is `null` or `undefined`. */
  lemma SingleParam(k: string, v: JsVal)
    ensures KeptParams([Prop(k, v)]) == if IsNullish(v) then [] else [(k, ToStr(v))]
  {
    assert [Prop(k, v)][1..] == [];
  }

  /** The one-parameter GET helpers send their argument under their own parameter name. */
  lemma SingleParamHelpers(v: JsVal)
    requires !IsNullish(v)
    ensures GetContractsByClient(v).query == [("clientId", ToStr(v))]
    ensures GetOwnerContractsByClient(v).query == [("clientId", ToStr(v))]
    ensures GetApprovedClient(v).query == [("userId", ToStr(v))]
    ensures GetClientMeters(v).query == [("loginKey", ToStr(v))]
    ensures GetCustomerDashboard(v).query == [("Key", ToStr(v))]
    ensures GetCustomerDashboard(v).url == DASHBOARD_BASE_URL + "/Cust_Dashboard"
    ensures GetCustomerDashboard(v).headers == [CONTENT_TYPE]
  {
    SingleParam("clientId", v);
    SingleParam("userId", v);
    SingleParam("loginKey", v);
    SingleParam("Key", v);
  }

  /** A service ticket is posted to the dashboard server, not the API server, with only `Content-Type` and the payload as given. */
  lemma TicketRequest(payload: JsVal)
    ensures RaiseServiceTicket(payload).verb == HttpPost
    ensures RaiseServiceTicket(payload).url == DASHBOARD_BASE_URL + "/ServiceTicketAdd"
    ensures RaiseServiceTicket(payload).url != API_BASE_URL + "/ServiceTicketAdd"
    ensures RaiseServiceTicket(payload).headers == [CONTENT_TYPE]
    ensures RaiseServiceTicket(payload).body == Some(payload)
  {
    assert (DASHBOARD_BASE_URL + "/ServiceTicketAdd")[8] != (API_BASE_URL + "/ServiceTicketAdd")[8];
  }
}
