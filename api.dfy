/**
 * The QPay V2 client `WC_QPay_API`: a token exchange whose result is cached
 * in two transients, and authenticated POSTs to the invoice and
 * payment-check endpoints. Every failure comes back as None (PHP `null`).
 *
 * The pure functions `TokenSpec` and `RequestSpec` say what one call does to
 * the host (`Env`) and what it returns; the methods of `Api` perform the same
 * steps on a `Site` and are proved to agree with them.
 */
module QPayApi {
  import opened Wrappers
  import opened Json
  import opened WordPress

  const DefaultBaseUrl := "https://merchant.qpay.mn"
  const AccessTokenKey := "qpay_access_token"
  const RefreshTokenKey := "qpay_refresh_token"
  const TokenPath := "/v2/auth/token"
  const InvoicePath := "/v2/invoice"
  const PaymentCheckPath := "/v2/payment/check"
  const JsonContentType := "application/json"
  /** Seconds allowed for each outbound call. */
  const Timeout := 30
  const DefaultAccessTtl := 3600
  const DefaultRefreshTtl := 7200
  /** Seconds taken off each lifetime the provider reports. */
  const TtlMargin := 60

  /** PHP `rtrim($s, '/')`: every trailing slash removed, nothing else. */
  function RTrimSlash(s: string): (r: string)
    ensures r <= s
    ensures |r| == 0 || r[|r| - 1] != '/'
    ensures forall i :: |r| <= i < |s| ==> s[i] == '/'
  {
    if |s| > 0 && s[|s| - 1] == '/' then RTrimSlash(s[..|s| - 1]) else s
  }

  /** Trimming twice trims nothing more. */
  lemma RTrimSlashIdempotent(s: string)
    ensures RTrimSlash(RTrimSlash(s)) == RTrimSlash(s)
  {
  }

  /**
   * A trimmed base followed by an endpoint path that starts with one slash
   * has exactly one slash where the two meet.
   */
  lemma EndpointJoin(base: string, path: string)
    requires |path| > 0 && path[0] == '/'
    ensures var url := RTrimSlash(base) + path;
      var k := |RTrimSlash(base)|;
      url[k] == '/' && (k == 0 || url[k - 1] != '/')
  {
  }

  /** The default base and the endpoints built on it. */
  lemma DefaultEndpoints()
    ensures RTrimSlash(DefaultBaseUrl) == DefaultBaseUrl
    ensures RTrimSlash(DefaultBaseUrl + "/") == DefaultBaseUrl
    ensures DefaultBaseUrl + TokenPath == "https://merchant.qpay.mn/v2/auth/token"
    ensures DefaultBaseUrl + InvoicePath == "https://merchant.qpay.mn/v2/invoice"
    ensures DefaultBaseUrl + PaymentCheckPath == "https://merchant.qpay.mn/v2/payment/check"
  {
  }

  /** What the client is built from: its fields after construction. */
  datatype Credentials = Credentials(username: string, password: string, baseUrl: string)

  /** The token exchange: POST to the token endpoint with HTTP Basic credentials and no body. */
  function TokenCall(c: Credentials): (call: Call)
    ensures call.verb == "POST" && call.url == c.baseUrl + TokenPath
    ensures call.auth == Basic(c.username + ":" + c.password) && call.payload.None?
  {
    Call("POST", c.baseUrl + TokenPath, Basic(c.username + ":" + c.password), JsonContentType, Timeout, None)
  }

  /** An authenticated endpoint call: a JSON body is attached only when the body array is non-empty. */
  function EndpointCall(c: Credentials, verb: string, endpoint: string, token: string, body: Object): (call: Call)
    ensures call.verb == verb && call.url == c.baseUrl + endpoint && call.auth == Bearer(token)
    ensures call.payload.Some? <==> |body| > 0
    ensures call.payload.Some? ==> call.payload.value == body
  {
    Call(verb, c.baseUrl + endpoint, Bearer(token), JsonContentType, Timeout, if |body| > 0 then Some(body) else None)
  }

  /** `get_transient('qpay_access_token')` is truthy. */
  predicate HasCachedToken(t: map<string, Transient>) {
    !Empty(CachedValue(t, AccessTokenKey))
  }

  /** A reply to the token exchange that grants a token: it decoded and holds a non-empty `access_token`. */
  predicate Grants(r: Response) {
    r.Reply? && !Empty(Field(r.body, "access_token"))
  }

  /** `$body[$key] ?? $default` read as seconds. */
  function SecondsOr(v: Json, default: int): (seconds: int)
    ensures v.JNull? ==> seconds == default
    ensures v.JInt? ==> seconds == v.i
  {
    if v.JInt? then v.i else default
  }

  /**
   * The cache after a granting reply: the access token with its lifetime less
   * the margin, unclamped, and the refresh token likewise only when the reply
   * carries a non-empty one. No other key is touched.
   */
  function StoreGrant(t: map<string, Transient>, body: Option<Object>): (t': map<string, Transient>)
    ensures AccessTokenKey in t'
    ensures t'[AccessTokenKey] == Transient(Field(body, "access_token"), SecondsOr(Field(body, "expires_in"), DefaultAccessTtl) - TtlMargin)
    ensures !Empty(Field(body, "refresh_token")) ==>
      && RefreshTokenKey in t'
      && t'[RefreshTokenKey] == Transient(Field(body, "refresh_token"), SecondsOr(Field(body, "refresh_expires_in"), DefaultRefreshTtl) - TtlMargin)
    ensures Empty(Field(body, "refresh_token")) ==>
      && (RefreshTokenKey in t' <==> RefreshTokenKey in t)
      && (RefreshTokenKey in t ==> t'[RefreshTokenKey] == t[RefreshTokenKey])
    ensures forall k :: k != AccessTokenKey && k != RefreshTokenKey ==>
      (k in t' <==> k in t) && (k in t ==> t'[k] == t[k])
  {
    var access := Transient(Field(body, "access_token"), SecondsOr(Field(body, "expires_in"), DefaultAccessTtl) - TtlMargin);
    var refresh := Field(body, "refresh_token");
    if Empty(refresh) then t[AccessTokenKey := access]
    else t[AccessTokenKey := access][RefreshTokenKey := Transient(refresh, SecondsOr(Field(body, "refresh_expires_in"), DefaultRefreshTtl) - TtlMargin)]
  }

  /**
   * `get_token`. A truthy cached access token is returned with no outbound
   * call. Otherwise exactly one call, the token exchange, is made; a transport
   * error or a reply without a non-empty `access_token` gives None and leaves
   * the cache as it was; a granting reply is cached and its token returned.
   */
  function TokenSpec(c: Credentials, e: Env): (out: (Env, Option<string>))
    ensures HasCachedToken(e.transients) ==> out == (e, Some(Text(CachedValue(e.transients, AccessTokenKey))))
    ensures !HasCachedToken(e.transients) ==>
      && out.0.calls == e.calls + [TokenCall(c)]
      && out.0.responses == RestResponses(e.responses)
      && (out.1.Some? <==> Grants(NextResponse(e.responses)))
    ensures out.1.None? ==> out.0.transients == e.transients
    ensures !HasCachedToken(e.transients) && out.1.Some? ==>
      var body := NextResponse(e.responses).body;
      && out.1 == Some(Text(Field(body, "access_token")))
      && out.0.transients == StoreGrant(e.transients, body)
  {
    var cached := CachedValue(e.transients, AccessTokenKey);
    if !Empty(cached) then (e, Some(Text(cached)))
    else
      var (e1, r) := Dispatch(e, TokenCall(c));
      if r.TransportError? then (e1, None)
      else if !Empty(Field(r.body, "access_token")) then
        (e1.(transients := StoreGrant(e1.transients, r.body)), Some(Text(Field(r.body, "access_token"))))
      else (e1, None)
  }

  /** A token just obtained by an exchange is found in the cache by the next call, which then makes no call at all. */
  lemma ExchangedTokenIsReused(c: Credentials, e: Env)
    requires TokenSpec(c, e).1.Some?
    ensures HasCachedToken(TokenSpec(c, e).0.transients)
    ensures TokenSpec(c, TokenSpec(c, e).0) == TokenSpec(c, e)
  {
  }

  /** The token a request may use: one `get_token` returned and that is truthy as a string. */
  function UsableToken(c: Credentials, e: Env): (t: Option<string>)
    ensures t.Some? <==> TokenSpec(c, e).1.Some? && !EmptyText(TokenSpec(c, e).1.value)
    ensures t.Some? ==> t == TokenSpec(c, e).1
    ensures HasCachedToken(e.transients) && IsPlainScalar(CachedValue(e.transients, AccessTokenKey)) ==>
      t == Some(Text(CachedValue(e.transients, AccessTokenKey)))
    ensures !HasCachedToken(e.transients) && Grants(NextResponse(e.responses))
            && IsPlainScalar(Field(NextResponse(e.responses).body, "access_token")) ==>
      t == Some(Text(Field(NextResponse(e.responses).body, "access_token")))
  {
    TextKeepsEmptiness(CachedValue(e.transients, AccessTokenKey));
    TextKeepsEmptiness(Field(Decoded(NextResponse(e.responses)), "access_token"));
    var token := TokenSpec(c, e).1;
    if token.Some? && !EmptyText(token.value) then token else None
  }

  /** A decoded reply whatever its HTTP status code; None for a transport error. */
  function Decoded(r: Response): (body: Option<Object>)
    ensures r.TransportError? ==> body.None?
    ensures r.Reply? ==> body == r.body
  {
    if r.Reply? then r.body else None
  }

  /**
   * `request`. Without a usable token it returns None and never makes the
   * endpoint call. With one, it makes exactly one endpoint call after any
   * token exchange, and returns that call's decoded reply whatever the status
   * code, or None on a transport error.
   */
  function RequestSpec(c: Credentials, e: Env, verb: string, endpoint: string, body: Object): (out: (Env, Option<Object>))
    ensures UsableToken(c, e).None? ==> out == (TokenSpec(c, e).0, None)
    ensures UsableToken(c, e).Some? ==>
      var e1 := TokenSpec(c, e).0;
      && out.0 == e1.(calls := e1.calls + [EndpointCall(c, verb, endpoint, UsableToken(c, e).value, body)],
                       responses := RestResponses(e1.responses))
      && out.1 == Decoded(NextResponse(e1.responses))
    ensures HasCachedToken(e.transients) && UsableToken(c, e).Some? ==>
      && out.0.transients == e.transients
      && out.0.calls == e.calls + [EndpointCall(c, verb, endpoint, Text(CachedValue(e.transients, AccessTokenKey)), body)]
    ensures !HasCachedToken(e.transients) && UsableToken(c, e).Some? ==>
      out.0.calls == e.calls + [TokenCall(c), EndpointCall(c, verb, endpoint, UsableToken(c, e).value, body)]
    ensures !HasCachedToken(e.transients) && UsableToken(c, e).None? ==>
      out.0.calls == e.calls + [TokenCall(c)]
    ensures out.1.Some? ==> UsableToken(c, e).Some?
  {
    var (e1, token) := TokenSpec(c, e);
    if token.None? || EmptyText(token.value) then (e1, None)
    else
      var (e2, r) := Dispatch(e1, EndpointCall(c, verb, endpoint, token.value, body));
      (e2, Decoded(r))
  }

  /** The body of `check_payment`: the invoice as the object to check. */
  function PaymentCheckBody(invoiceId: string): (body: Object)
    ensures body.Keys == {"object_type", "object_id"}
    ensures body["object_type"] == JStr("INVOICE") && body["object_id"] == JStr(invoiceId)
    ensures |body| > 0
  {
    map["object_type" := JStr("INVOICE"), "object_id" := JStr(invoiceId)]
  }

  /** `create_invoice`: the invoice fields POSTed to the invoice endpoint. */
  function CreateInvoiceSpec(c: Credentials, e: Env, data: Object): (out: (Env, Option<Object>))
    ensures UsableToken(c, e).Some? ==>
      var e1 := TokenSpec(c, e).0;
      && out.0.calls == e1.calls + [EndpointCall(c, "POST", InvoicePath, UsableToken(c, e).value, data)]
      && out.1 == Decoded(NextResponse(e1.responses))
    ensures UsableToken(c, e).None? ==> out.1.None?
  {
    RequestSpec(c, e, "POST", InvoicePath, data)
  }

  /**
   * `check_payment`: the payment-check endpoint is POSTed the invoice as
   * object, always with a body, and its decoded reply comes back unchanged,
   * an empty `rows` included.
   */
  function CheckPaymentSpec(c: Credentials, e: Env, invoiceId: string): (out: (Env, Option<Object>))
    ensures UsableToken(c, e).Some? ==>
      var e1 := TokenSpec(c, e).0;
      && |out.0.calls| == |e1.calls| + 1
      && out.0.calls[..|e1.calls|] == e1.calls
      && out.0.calls[|e1.calls|].verb == "POST"
      && out.0.calls[|e1.calls|].url == c.baseUrl + PaymentCheckPath
      && out.0.calls[|e1.calls|].payload == Some(map["object_type" := JStr("INVOICE"), "object_id" := JStr(invoiceId)])
      && out.1 == Decoded(NextResponse(e1.responses))
    ensures UsableToken(c, e).None? ==> out.1.None?
  {
    RequestSpec(c, e, "POST", PaymentCheckPath, PaymentCheckBody(invoiceId))
  }

  /** `WC_QPay_API`: the client's fields are fixed at construction. */
  class Api {
    const username: string
    const password: string
    const baseUrl: string

    /** The base URL loses every trailing slash; it defaults to the production host. */
    constructor (username: string, password: string, baseUrl: string := DefaultBaseUrl)
      ensures Config() == Credentials(username, password, RTrimSlash(baseUrl))
    {
      this.username := username;
      this.password := password;
      this.baseUrl := RTrimSlash(baseUrl);
    }

    function Config(): Credentials {
      Credentials(username, password, baseUrl)
    }

    method GetToken(site: Site) returns (token: Option<string>)
      modifies site
      ensures (site.State(), token) == TokenSpec(Config(), old(site.State()))
      ensures site.notices == old(site.notices)
    {
      var cached := site.GetTransient(AccessTokenKey);
      if !Empty(cached) {
        return Some(Text(cached));
      }
      var response := site.Send(TokenCall(Config()));
      if response.TransportError? {
        return None;
      }
      var access := Field(response.body, "access_token");
      if !Empty(access) {
        var expires := SecondsOr(Field(response.body, "expires_in"), DefaultAccessTtl) - TtlMargin;
        site.SetTransient(AccessTokenKey, access, expires);
        var refresh := Field(response.body, "refresh_token");
        if !Empty(refresh) {
          site.SetTransient(RefreshTokenKey, refresh, SecondsOr(Field(response.body, "refresh_expires_in"), DefaultRefreshTtl) - TtlMargin);
        }
        return Some(Text(access));
      }
      return None;
    }

    method Request(site: Site, verb: string, endpoint: string, body: Object) returns (result: Option<Object>)
      modifies site
      ensures (site.State(), result) == RequestSpec(Config(), old(site.State()), verb, endpoint, body)
      ensures site.notices == old(site.notices)
    {
      var token := GetToken(site);
      if token.None? || EmptyText(token.value) {
        return None;
      }
      var response := site.Send(EndpointCall(Config(), verb, endpoint, token.value, body));
      if response.TransportError? {
        return None;
      }
      return response.body;
    }

    method CreateInvoice(site: Site, data: Object) returns (result: Option<Object>)
      modifies site
      ensures (site.State(), result) == CreateInvoiceSpec(Config(), old(site.State()), data)
      ensures site.notices == old(site.notices)
    {
      result := Request(site, "POST", InvoicePath, data);
    }

    method CheckPayment(site: Site, invoiceId: string) returns (result: Option<Object>)
      modifies site
      ensures (site.State(), result) == CheckPaymentSpec(Config(), old(site.State()), invoiceId)
      ensures site.notices == old(site.notices)
    {
      result := Request(site, "POST", PaymentCheckPath, PaymentCheckBody(invoiceId));
    }
  }
}
