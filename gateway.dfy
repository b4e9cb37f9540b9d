/**
 * `WC_QPay_Gateway::process_payment`: the invoice request built from an
 * order, the rule that decides whether invoice creation succeeded, and the
 * four metadata fields written on success.
 */
module Gateway {
  import opened Wrappers
  import opened Json
  import opened WordPress
  import opened QPayApi

  /** The gateway's saved options that the core reads through `get_option`. */
  datatype Settings = Settings(
    username: string,
    password: string,
    baseUrl: string,
    invoiceCode: string,
    callbackUrl: string)

  /** The client `new WC_QPay_API(username, password, base_url)` builds from the settings. */
  function ClientConfig(s: Settings): (c: Credentials)
    ensures c.username == s.username && c.password == s.password
    ensures c.baseUrl <= s.baseUrl && (|c.baseUrl| == 0 || c.baseUrl[|c.baseUrl| - 1] != '/')
    ensures forall i :: |c.baseUrl| <= i < |s.baseUrl| ==> s.baseUrl[i] == '/'
  {
    Credentials(s.username, s.password, RTrimSlash(s.baseUrl))
  }

  const InvoiceIdMeta := "_qpay_invoice_id"
  const QrImageMeta := "_qpay_qr_image"
  const QrTextMeta := "_qpay_qr_text"
  const UrlsMeta := "_qpay_urls"
  const DescriptionPrefix := "WooCommerce Order #"
  const PaymentErrorNotice := Notice("QPay payment error. Please try again.", "error")

  datatype PaymentResult = Fail | Success(redirect: string)

  /**
   * The fields of the invoice request. The sender invoice number is the order
   * id as text and reads back as that id; the description is the fixed prefix
   * followed by that same text; the receiver is the billing email; the code
   * and callback come from the settings.
   */
  function InvoiceRequest(s: Settings, orderId: nat, billingEmail: string, amount: real): (fields: Object)
    ensures fields.Keys == {"invoice_code", "sender_invoice_no", "invoice_receiver_code",
                            "invoice_description", "amount", "callback_url"}
    ensures fields["sender_invoice_no"].JStr?
    ensures var no := fields["sender_invoice_no"].s;
      && |no| >= 1
      && (forall i :: 0 <= i < |no| ==> IsDigit(no[i]))
      && (no[0] == '0' <==> orderId == 0)
      && (orderId == 0 <==> no == "0")
      && ParseDecimal(no) == orderId
    ensures fields["invoice_description"] == JStr(DescriptionPrefix + fields["sender_invoice_no"].s)
    ensures fields["invoice_receiver_code"] == JStr(billingEmail)
    ensures fields["invoice_code"] == JStr(s.invoiceCode) && fields["callback_url"] == JStr(s.callbackUrl)
    ensures fields["amount"] == JFloat(amount)
  {
    DecimalRoundTrip(orderId);
    var no := NatToDecimal(orderId);
    map[
      "invoice_code" := JStr(s.invoiceCode),
      "sender_invoice_no" := JStr(no),
      "invoice_receiver_code" := JStr(billingEmail),
      "invoice_description" := JStr(DescriptionPrefix + no),
      "amount" := JFloat(amount),
      "callback_url" := JStr(s.callbackUrl)]
  }

  /**
   * Invoice creation succeeded. Only a non-empty `invoice_id` decides it: a
   * null reply has none, and missing QR or link data never causes failure.
   */
  function InvoiceAccepted(invoice: Option<Object>): (ok: bool)
    ensures ok <==> !Empty(Field(invoice, "invoice_id"))
  {
    invoice.Some? && |invoice.value| > 0 && !Empty(Field(invoice, "invoice_id"))
  }

  /**
   * The metadata written on success: exactly the four QPay keys; the invoice
   * id as returned, so that a meta query for it finds the order; QR image and
   * text defaulting to "" and the links to the encoding of `[]`, both when
   * the key is missing and when it holds null.
   */
  function InvoiceMeta(invoice: Object): (meta: map<string, MetaValue>)
    ensures meta.Keys == {InvoiceIdMeta, QrImageMeta, QrTextMeta, UrlsMeta}
    ensures meta[InvoiceIdMeta] == Raw(Field(Some(invoice), "invoice_id"))
    ensures MetaEquals(meta, InvoiceIdMeta, Text(Field(Some(invoice), "invoice_id")))
    ensures Field(Some(invoice), "qr_image").JNull? ==> meta[QrImageMeta] == Raw(JStr(""))
    ensures Field(Some(invoice), "qr_text").JNull? ==> meta[QrTextMeta] == Raw(JStr(""))
    ensures Field(Some(invoice), "urls").JNull? ==> meta[UrlsMeta] == JsonText(JList([]))
    ensures !Field(Some(invoice), "qr_image").JNull? ==> meta[QrImageMeta] == Raw(invoice["qr_image"])
    ensures !Field(Some(invoice), "qr_text").JNull? ==> meta[QrTextMeta] == Raw(invoice["qr_text"])
    ensures !Field(Some(invoice), "urls").JNull? ==> meta[UrlsMeta] == JsonText(invoice["urls"])
  {
    var found := Some(invoice);
    map[
      InvoiceIdMeta := Raw(Field(found, "invoice_id")),
      QrImageMeta := Raw(FieldOr(found, "qr_image", JStr(""))),
      QrTextMeta := Raw(FieldOr(found, "qr_text", JStr(""))),
      UrlsMeta := JsonText(FieldOr(found, "urls", JList([])))]
  }

  /**
   * `process_payment`. The invoice request goes out through a client built
   * from the settings. Without an accepted invoice an error notice is added
   * and the result is a failure, with no metadata written and nothing saved.
   * Otherwise the four metadata fields are written, the order is saved once,
   * and the customer is sent to the order's payment page.
   */
  method ProcessPayment(settings: Settings, order: Order, site: Site) returns (result: PaymentResult)
    modifies site, order
    ensures var request := InvoiceRequest(settings, order.id, order.billingEmail, order.total);
      var (e, invoice) := CreateInvoiceSpec(ClientConfig(settings), old(site.State()), request);
      && site.State() == e
      && (InvoiceAccepted(invoice) ==>
          && result == Success(order.paymentUrl)
          && order.meta == old(order.meta) + InvoiceMeta(invoice.value)
          && order.saves == old(order.saves) + 1
          && site.notices == old(site.notices)
          && MetaEquals(order.meta, InvoiceIdMeta, Text(Field(invoice, "invoice_id"))))
      && (!InvoiceAccepted(invoice) ==>
          && result == Fail
          && order.meta == old(order.meta)
          && order.saves == old(order.saves)
          && site.notices == old(site.notices) + [PaymentErrorNotice])
    ensures order.completions == old(order.completions) && order.notes == old(order.notes)
  {
    var api := new Api(settings.username, settings.password, settings.baseUrl);
    var request := InvoiceRequest(settings, order.id, order.billingEmail, order.total);
    var invoice := api.CreateInvoice(site, request);
    ghost var after := site.State();
    if !InvoiceAccepted(invoice) {
      site.AddNotice(PaymentErrorNotice);
      return Fail;
    }
    var found := invoice;
    ghost var before := order.meta;
    order.UpdateMeta(InvoiceIdMeta, Raw(Field(found, "invoice_id")));
    order.UpdateMeta(QrImageMeta, Raw(FieldOr(found, "qr_image", JStr(""))));
    order.UpdateMeta(QrTextMeta, Raw(FieldOr(found, "qr_text", JStr(""))));
    order.UpdateMeta(UrlsMeta, JsonText(FieldOr(found, "urls", JList([]))));
    order.Save();
    MetaWritesAreUnion(before, found.value);
    return Success(order.paymentUrl);
  }

  /** Writing the four fields one after another leaves the old metadata overridden by `InvoiceMeta`. */
  lemma MetaWritesAreUnion(before: map<string, MetaValue>, invoice: Object)
    ensures var found := Some(invoice);
      before[InvoiceIdMeta := Raw(Field(found, "invoice_id"))]
            [QrImageMeta := Raw(FieldOr(found, "qr_image", JStr("")))]
            [QrTextMeta := Raw(FieldOr(found, "qr_text", JStr("")))]
            [UrlsMeta := JsonText(FieldOr(found, "urls", JList([])))]
      == before + InvoiceMeta(invoice)
  {
  }
}
