/**
 * Concrete runs of the model. The client scenarios replay the repository's
 * PHPUnit cases: a scripted queue of replies, a fresh or pre-filled cache,
 * and the calls, cache and results the tests assert afterwards. The
 * notification scenarios are built from the webhook handler itself, which
 * the repository's tests do not exercise.
 */
module Scenarios {
  import opened Wrappers
  import opened Json
  import opened WordPress
  import opened QPayApi
  import opened Gateway
  import opened Confirmation
  import opened Webhook

  /** The token reply the API tests queue first. */
  function AuthReply(token: string): Response {
    Reply(200, Some(map[
      "access_token" := JStr(token),
      "refresh_token" := JStr("refresh_token_456"),
      "expires_in" := JInt(3600),
      "refresh_expires_in" := JInt(7200)]))
  }

  const InvoiceReply: Response := Reply(200, Some(map["invoice_id" := JStr("inv_1")]))

  /** A fresh cache: the exchange comes first, then the invoice call, and both tokens are cached. */
  method InvoiceWithFreshCache() returns (calls: seq<Call>, cache: map<string, Transient>, result: Option<Object>)
    ensures |calls| == 2
    ensures calls[0] == Call("POST", "https://merchant.qpay.mn/v2/auth/token", Basic("test_user:test_pass"),
                             "application/json", 30, None)
    ensures calls[1].verb == "POST" && calls[1].url == "https://merchant.qpay.mn/v2/invoice"
    ensures calls[1].auth == Bearer("test_token_123") && calls[1].payload == Some(map["amount" := JInt(1000)])
    ensures cache == map[
      "qpay_access_token" := Transient(JStr("test_token_123"), 3540),
      "qpay_refresh_token" := Transient(JStr("refresh_token_456"), 7140)]
    ensures result == Some(map["invoice_id" := JStr("inv_1")])
  {
    var site := new Site(map[], [AuthReply("test_token_123"), InvoiceReply]);
    var api := new Api("test_user", "test_pass", "https://merchant.qpay.mn");
    DefaultEndpoints();
    assert api.Config() == Credentials("test_user", "test_pass", DefaultBaseUrl);
    assert "test_user" + ":" + "test_pass" == "test_user:test_pass";
    result := api.CreateInvoice(site, map["amount" := JInt(1000)]);
    calls, cache := site.calls, site.transients;
  }

  /** A cached token: one call only, to the invoice endpoint, even with a trailing slash on the base. */
  method InvoiceWithCachedToken() returns (calls: seq<Call>)
    ensures |calls| == 1
    ensures calls[0].url == "https://merchant.qpay.mn/v2/invoice" && calls[0].auth == Bearer("test_token")
  {
    var site := new Site(map["qpay_access_token" := Transient(JStr("test_token"), 3600)], [InvoiceReply]);
    var api := new Api("user", "pass", "https://merchant.qpay.mn/");
    var _ := api.CreateInvoice(site, map["amount" := JInt(100)]);
    calls := site.calls;
  }

  /** A 401 reply to the exchange: null, no invoice call, nothing cached. */
  method InvoiceAfterRejectedCredentials() returns (calls: seq<Call>, cache: map<string, Transient>, result: Option<Object>)
    ensures result == None && |calls| == 1 && calls[0].auth.Basic? && cache == map[]
  {
    var site := new Site(map[], [Reply(401, Some(map["message" := JStr("Unauthorized")]))]);
    var api := new Api("test_user", "test_pass");
    result := api.CreateInvoice(site, map["amount" := JInt(1000)]);
    calls, cache := site.calls, site.transients;
  }

  /** A transport error on the invoice call after a good exchange: null, with the token still cached. */
  method InvoiceTimesOut() returns (cache: map<string, Transient>, result: Option<Object>)
    ensures result == None && "qpay_access_token" in cache && cache["qpay_access_token"].value == JStr("test_token_123")
  {
    var site := new Site(map[], [AuthReply("test_token_123"), TransportError("timeout", "Request timed out")]);
    var api := new Api("test_user", "test_pass");
    result := api.CreateInvoice(site, map["amount" := JInt(1000)]);
    cache := site.transients;
  }

  /** An unpaid invoice: the reply with empty rows comes back as it is and reads as unpaid. */
  method CheckUnpaidInvoice() returns (call: Call, result: Option<Object>)
    ensures call.url == "https://merchant.qpay.mn/v2/payment/check"
    ensures call.payload == Some(map["object_type" := JStr("INVOICE"), "object_id" := JStr("inv_456")])
    ensures result == Some(map["count" := JInt(0), "paid_amount" := JInt(0), "rows" := JList([])])
    ensures StatusOf(result) == Unpaid
  {
    var unpaid := map["count" := JInt(0), "paid_amount" := JInt(0), "rows" := JList([])];
    var site := new Site(map[], [AuthReply("test_token_123"), Reply(200, Some(unpaid))]);
    var api := new Api("test_user", "test_pass");
    DefaultEndpoints();
    var c := api.Config();
    ghost var e0 := site.State();
    assert TokenSpec(c, e0).1 == Some("test_token_123");
    assert UsableToken(c, e0) == Some("test_token_123");
    result := api.CheckPayment(site, "inv_456");
    call := site.calls[1];
  }

  const Merchant := Settings("user", "pass", "https://merchant.qpay.mn", "CODE", "https://example.com/?wc-api=qpay_webhook")

  /** A notification without an invoice id: 400, with no outbound call. */
  method NotificationWithoutInvoiceId() returns (reply: JsonReply, calls: seq<Call>)
    ensures reply == JsonError("Missing invoice_id", 400) && calls == []
  {
    var order := new Order(7, "buyer@example.com", 1000.0, "https://example.com/pay/7", map["_qpay_invoice_id" := Raw(JStr("X"))]);
    var site := new Site(map[], []);
    reply := Handle(Merchant, Some(map[]), s => s, [order], site);
    calls := site.calls;
  }

  const PaidReply: Response :=
    Reply(200, Some(map["count" := JInt(1), "rows" := JList([JObject(map["payment_id" := JStr("pay_1")])])]))

  /** One paid notification for invoice X, with a token already cached. */
  method NotifyPaid(order: Order, site: Site) returns (reply: JsonReply)
    requires MetaEquals(order.meta, InvoiceIdMeta, "X")
    requires site.transients == map["qpay_access_token" := Transient(JStr("t"), 3540)]
    requires |site.responses| > 0 && site.responses[0] == PaidReply
    modifies site, order
    ensures reply == JsonSuccess(Paid)
    ensures order.completions == old(order.completions) + 1
    ensures order.notes == old(order.notes) + [ConfirmationNote("X")]
    ensures order.meta == old(order.meta)
    ensures site.transients == old(site.transients) && site.responses == old(site.responses)[1..]
  {
    var notification := Some(map["invoice_id" := JStr("X")]);
    var c := ClientConfig(Merchant);
    assert NotifiedInvoiceId(notification, s => s) == "X";
    assert FirstWithMeta([order], InvoiceIdMeta, "X") == 0;
    ghost var e0 := site.State();
    assert UsableToken(c, e0) == Some("t");
    assert TokenSpec(c, e0).0 == e0;
    assert StatusOf(CheckPaymentSpec(c, e0, "X").1) == Paid;
    reply := Handle(Merchant, notification, s => s, [order], site);
  }

  /**
   * Two paid notifications for the same invoice: the handler does not look at
   * the order's prior state, so the order is completed twice and noted twice.
   */
  method TwicePaidNotification() returns (first: JsonReply, second: JsonReply, completions: nat, notes: seq<string>)
    ensures first == JsonSuccess(Paid) && second == JsonSuccess(Paid)
    ensures completions == 2
    ensures notes == ["QPay payment confirmed. Invoice: X", "QPay payment confirmed. Invoice: X"]
  {
    var order := new Order(7, "buyer@example.com", 1000.0, "https://example.com/pay/7", map["_qpay_invoice_id" := Raw(JStr("X"))]);
    var site := new Site(map["qpay_access_token" := Transient(JStr("t"), 3540)], [PaidReply, PaidReply]);
    first := NotifyPaid(order, site);
    second := NotifyPaid(order, site);
    assert ConfirmationNote("X") == "QPay payment confirmed. Invoice: X";
    completions, notes := order.completions, order.notes;
  }
}
