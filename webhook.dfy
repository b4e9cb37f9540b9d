/**
 * `WC_QPay_Webhook::handle`: the provider's payment notification. It reads
 * the invoice id, finds the order that carries it, asks the provider whether
 * the invoice is paid and, when it is, completes the order and notes it.
 */
module Webhook {
  import opened Wrappers
  import opened Json
  import opened WordPress
  import opened QPayApi
  import opened Gateway
  import opened Confirmation

  const OrderNotFound := "Order not found"
  const NotePrefix := "QPay payment confirmed. Invoice: "

  /** The note added to a paid order: the fixed prefix followed by the invoice id. */
  function ConfirmationNote(invoiceId: string): (note: string)
    ensures |note| == |NotePrefix| + |invoiceId|
    ensures note[..|NotePrefix|] == NotePrefix && note[|NotePrefix|..] == invoiceId
  {
    NotePrefix + invoiceId
  }

  /** `sanitize_text_field($body['invoice_id'] ?? '')`; the sanitiser is a foreign function. */
  function NotifiedInvoiceId(input: Option<Object>, sanitize: string -> string): (id: string)
    ensures Field(input, "invoice_id").JNull? ==> id == sanitize("")
    ensures Field(input, "invoice_id").JStr? ==> id == sanitize(Field(input, "invoice_id").s)
    ensures Field(input, "invoice_id").JInt? ==> id == sanitize(IntToDecimal(Field(input, "invoice_id").i))
    ensures Field(input, "invoice_id").JBool? ==>
      id == sanitize(if Field(input, "invoice_id").b then "1" else "")
  {
    sanitize(Text(FieldOr(input, "invoice_id", JStr(""))))
  }

  /**
   * `handle`, with `input` the decoded request body and `orders` what the
   * order query searches, in its result order. An empty id is a 400 and a
   * missing order a 404, both before any outbound call and with nothing
   * changed. Otherwise only the first matching order is reconciled: when the
   * check reads as paid, `payment_complete` is called on it once and one note
   * is added, whatever the order's prior state; when it does not, no order
   * changes. No other order ever changes.
   */
  method Handle(settings: Settings, input: Option<Object>, sanitize: string -> string, orders: seq<Order>, site: Site)
    returns (reply: JsonReply)
    modifies site, orders
    ensures var id := NotifiedInvoiceId(input, sanitize);
      EmptyText(id) ==>
        reply == JsonError(MissingInvoiceId, 400) && unchanged(site) && unchanged(orders)
    ensures var id := NotifiedInvoiceId(input, sanitize);
      !EmptyText(id) && old(FirstWithMeta(orders, InvoiceIdMeta, id)) == |orders| ==>
        reply == JsonError(OrderNotFound, 404) && unchanged(site) && unchanged(orders)
    ensures var id := NotifiedInvoiceId(input, sanitize);
      var k := old(FirstWithMeta(orders, InvoiceIdMeta, id));
      !EmptyText(id) && k < |orders| ==>
        var (e, result) := CheckPaymentSpec(ClientConfig(settings), old(site.State()), id);
        && site.State() == e
        && site.notices == old(site.notices)
        && reply == JsonSuccess(StatusOf(result))
        && (StatusOf(result) == Paid ==>
            && orders[k].completions == old(orders[k].completions) + 1
            && orders[k].notes == old(orders[k].notes) + [ConfirmationNote(id)]
            && orders[k].meta == old(orders[k].meta)
            && orders[k].saves == old(orders[k].saves))
        && (StatusOf(result) == Unpaid ==> unchanged(orders[k]))
        && (forall o :: o in orders && o != orders[k] ==> unchanged(o))
  {
    var id := NotifiedInvoiceId(input, sanitize);
    if EmptyText(id) {
      return JsonError(MissingInvoiceId, 400);
    }
    var k := FirstWithMeta(orders, InvoiceIdMeta, id);
    if k == |orders| {
      return JsonError(OrderNotFound, 404);
    }
    var order := orders[k];
    var api := new Api(settings.username, settings.password, settings.baseUrl);
    var result := api.CheckPayment(site, id);
    if StatusOf(result) == Paid {
      order.PaymentComplete();
      order.AddOrderNote(ConfirmationNote(id));
      return JsonSuccess(Paid);
    }
    return JsonSuccess(Unpaid);
  }
}
