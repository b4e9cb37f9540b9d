/**
 * The decision both confirmation paths share: a payment-check result counts
 * as paid when it is non-null and has a non-empty `rows`, and the JSON reply
 * each path sends back.
 */
module Confirmation {
  import opened Wrappers
  import opened Json
  import opened WordPress
  import opened QPayApi

  datatype Status = Paid | Unpaid

  /** What `wp_send_json_success` / `wp_send_json_error` send, with the HTTP status code of an error. */
  datatype JsonReply = JsonSuccess(status: Status) | JsonError(message: string, code: int)

  const MissingInvoiceId := "Missing invoice_id"

  /**
   * `$result && ! empty($result['rows'])`. Non-empty rows alone decide it (a
   * null or empty result has no rows), so a failed check is never paid.
   */
  function StatusOf(result: Option<Object>): (s: Status)
    ensures s == Paid <==> !Empty(Field(result, "rows"))
    ensures result.None? ==> s == Unpaid
  {
    if result.Some? && |result.value| > 0 && !Empty(Field(result, "rows")) then Paid else Unpaid
  }

  /**
   * A check reads as paid only when a usable token was obtained and the
   * payment-check call itself got a decoded reply: an authentication failure
   * or a transport error is never reported as paid.
   */
  lemma PaidNeedsSuccessfulCheck(c: Credentials, e: Env, invoiceId: string)
    requires StatusOf(CheckPaymentSpec(c, e, invoiceId).1) == Paid
    ensures UsableToken(c, e).Some?
    ensures NextResponse(TokenSpec(c, e).0.responses).Reply?
  {
  }
}
