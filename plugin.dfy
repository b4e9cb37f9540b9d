/**
 * `qpay_ajax_check_payment`: the payment page's poll. Same paid predicate as
 * the webhook, but it only reports the status and touches no order.
 */
module Plugin {
  import opened Wrappers
  import opened Json
  import opened WordPress
  import opened QPayApi
  import opened Gateway
  import opened Confirmation

  /** `sanitize_text_field($_POST['invoice_id'] ?? '')`; the sanitiser is a foreign function. */
  function PolledInvoiceId(post: map<string, string>, sanitize: string -> string): (id: string)
    ensures "invoice_id" !in post ==> id == sanitize("")
    ensures "invoice_id" in post ==> id == sanitize(post["invoice_id"])
  {
    sanitize(if "invoice_id" in post then post["invoice_id"] else "")
  }

  /**
   * The poll handler, with `post` the form fields of the request. An empty id
   * is an error sent without a status code (so HTTP 200) and with no outbound
   * call. Otherwise the status is that of the payment check; the method has
   * no order to change.
   */
  method AjaxCheckPayment(settings: Settings, post: map<string, string>, sanitize: string -> string, site: Site)
    returns (reply: JsonReply)
    modifies site
    ensures var id := PolledInvoiceId(post, sanitize);
      EmptyText(id) ==> reply == JsonError(MissingInvoiceId, 200) && unchanged(site)
    ensures var id := PolledInvoiceId(post, sanitize);
      !EmptyText(id) ==>
        var (e, result) := CheckPaymentSpec(ClientConfig(settings), old(site.State()), id);
        && site.State() == e
        && site.notices == old(site.notices)
        && reply == JsonSuccess(StatusOf(result))
  {
    var id := PolledInvoiceId(post, sanitize);
    if EmptyText(id) {
      return JsonError(MissingInvoiceId, 200);
    }
    var api := new Api(settings.username, settings.password, settings.baseUrl);
    var result := api.CheckPayment(site, id);
    if StatusOf(result) == Paid {
      return JsonSuccess(Paid);
    }
    return JsonSuccess(Unpaid);
  }
}
