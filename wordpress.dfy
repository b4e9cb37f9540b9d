/**
 * The WordPress and WooCommerce host the plugin runs on. The transient store
 * that never expires, the log of outbound HTTP calls and the first-in
 * first-out queue of scripted responses follow the plugin's test bootstrap
 * stubs. The recorded TTLs, transport errors, the checkout notice list and
 * the orders with metadata, notes and a payment-complete counter follow
 * WordPress and WooCommerce themselves, which the stubs do not provide.
 */
module WordPress {
  import opened Wrappers
  import opened Json

  /** A scripted reply of `wp_remote_post` / `wp_remote_request`. */
  datatype Response =
    | TransportError(code: string, message: string)
      /** `body` is the reply text after `json_decode(..., true)`: None when it is not a JSON array. */
    | Reply(status: int, body: Option<Object>)

  /** What the stubs answer once the scripted queue is empty. */
  const DefaultReply: Response := Reply(200, Some(map[]))

  /**
   * The `Authorization` header. `Basic` holds the `username:password` text
   * before base64 encoding, which is a foreign function here.
   */
  datatype Authorization = Basic(credentials: string) | Bearer(token: string)

  /**
   * One recorded outbound call. `payload` is the array handed to
   * `wp_json_encode`, None when the call carries no body.
   */
  datatype Call = Call(
    verb: string,
    url: string,
    auth: Authorization,
    contentType: string,
    timeout: int,
    payload: Option<Object>)

  /** A transient as stored by `set_transient`: its TTL is recorded, but it never expires. */
  datatype Transient = Transient(value: Json, ttl: int)

  /** The part of the host an API call reads and changes, as a value. */
  datatype Env = Env(transients: map<string, Transient>, responses: seq<Response>, calls: seq<Call>)

  /** `get_transient`: the stored value, or `false` when the key is absent or holds null (`?? false`). */
  function CachedValue(transients: map<string, Transient>, key: string): (v: Json)
    ensures key !in transients || transients[key].value.JNull? ==> v == JBool(false)
    ensures key in transients && !transients[key].value.JNull? ==> v == transients[key].value
  {
    if key in transients && !transients[key].value.JNull? then transients[key].value else JBool(false)
  }

  /** The response the next outbound call receives. */
  function NextResponse(responses: seq<Response>): Response {
    if |responses| > 0 then responses[0] else DefaultReply
  }

  /** The scripted queue once the next outbound call has taken its response. */
  function RestResponses(responses: seq<Response>): seq<Response> {
    if |responses| > 0 then responses[1..] else []
  }

  /**
   * One outbound call: it is logged after every earlier call and takes the
   * head of the scripted queue, or the default reply when the queue is empty.
   */
  function Dispatch(e: Env, c: Call): (out: (Env, Response))
    ensures out.0.calls == e.calls + [c] && out.0.transients == e.transients
    ensures |e.responses| > 0 ==> out.1 == e.responses[0] && e.responses == [out.1] + out.0.responses
    ensures |e.responses| == 0 ==> out == (e.(calls := e.calls + [c]), DefaultReply)
  {
    (e.(responses := RestResponses(e.responses), calls := e.calls + [c]), NextResponse(e.responses))
  }

  datatype Notice = Notice(message: string, kind: string)

  /** The host's mutable state: what the stubs keep in `$GLOBALS`. */
  class Site {
    var transients: map<string, Transient>
    var responses: seq<Response>
    var calls: seq<Call>
    var notices: seq<Notice>

    /** A host with the given cache and scripted replies, and nothing logged yet. */
    constructor (transients: map<string, Transient>, responses: seq<Response>)
      ensures this.transients == transients && this.responses == responses
      ensures calls == [] && notices == []
    {
      this.transients := transients;
      this.responses := responses;
      calls := [];
      notices := [];
    }

    function State(): Env
      reads this
    {
      Env(transients, responses, calls)
    }

    function GetTransient(key: string): (v: Json)
      reads this
      ensures key !in transients || transients[key].value.JNull? ==> v == JBool(false)
      ensures key in transients && !transients[key].value.JNull? ==> v == transients[key].value
    {
      CachedValue(transients, key)
    }

    method SetTransient(key: string, value: Json, ttl: int)
      modifies this
      ensures transients == old(transients)[key := Transient(value, ttl)]
      ensures responses == old(responses) && calls == old(calls) && notices == old(notices)
    {
      transients := transients[key := Transient(value, ttl)];
    }

    /** `wp_remote_post` and `wp_remote_request` as stubbed: log the call, dequeue a reply. */
    method Send(c: Call) returns (r: Response)
      modifies this
      ensures (State(), r) == Dispatch(old(State()), c)
      ensures notices == old(notices)
    {
      calls := calls + [c];
      r := NextResponse(responses);
      responses := RestResponses(responses);
    }

    /** `wc_add_notice`. */
    method AddNotice(n: Notice)
      modifies this
      ensures notices == old(notices) + [n]
      ensures State() == old(State())
    {
      notices := notices + [n];
    }
  }

  /**
   * An order's metadata value. `JsonText(v)` stands for the string that
   * `wp_json_encode(v)` produces; JSON encoding is a foreign function here.
   */
  datatype MetaValue = Raw(v: Json) | JsonText(encoded: Json)

  /** A WooCommerce order, reduced to what the plugin reads and changes. */
  class Order {
    const id: nat
    const billingEmail: string
    /** `(float) $order->get_total()`, an opaque amount. */
    const total: real
    /** `get_checkout_payment_url(true)`. */
    const paymentUrl: string
    var meta: map<string, MetaValue>
    /** How many times `payment_complete` has been called on this order. */
    var completions: nat
    var notes: seq<string>
    /** How many times `save` has been called on this order. */
    var saves: nat

    constructor (id: nat, billingEmail: string, total: real, paymentUrl: string, meta: map<string, MetaValue>)
      ensures this.id == id && this.billingEmail == billingEmail && this.total == total
      ensures this.paymentUrl == paymentUrl && this.meta == meta
      ensures completions == 0 && notes == [] && saves == 0
    {
      this.id := id;
      this.billingEmail := billingEmail;
      this.total := total;
      this.paymentUrl := paymentUrl;
      this.meta := meta;
      completions := 0;
      notes := [];
      saves := 0;
    }

    method UpdateMeta(key: string, value: MetaValue)
      modifies this
      ensures meta == old(meta)[key := value]
      ensures completions == old(completions) && notes == old(notes) && saves == old(saves)
    {
      meta := meta[key := value];
    }

    method Save()
      modifies this
      ensures saves == old(saves) + 1
      ensures meta == old(meta) && completions == old(completions) && notes == old(notes)
    {
      saves := saves + 1;
    }

    method PaymentComplete()
      modifies this
      ensures completions == old(completions) + 1
      ensures meta == old(meta) && notes == old(notes) && saves == old(saves)
    {
      completions := completions + 1;
    }

    method AddOrderNote(note: string)
      modifies this
      ensures notes == old(notes) + [note]
      ensures meta == old(meta) && completions == old(completions) && saves == old(saves)
    {
      notes := notes + [note];
    }
  }

  /** A metadata entry that a meta query for `value` under `key` matches: the stored value reads as that text. */
  predicate MetaEquals(meta: map<string, MetaValue>, key: string, value: string) {
    key in meta && meta[key].Raw? && Text(meta[key].v) == value
  }

  /**
   * `wc_get_orders` with a meta key, a meta value and limit 1, over the orders
   * in the order the store returns them: the index of the first match, or
   * `|orders|` when none matches.
   */
  function FirstWithMeta(orders: seq<Order>, key: string, value: string): (k: nat)
    reads orders
    ensures k <= |orders|
    ensures k < |orders| ==> MetaEquals(orders[k].meta, key, value)
    ensures forall j :: 0 <= j < k ==> !MetaEquals(orders[j].meta, key, value)
    decreases |orders|
  {
    if |orders| == 0 then 0
    else if MetaEquals(orders[0].meta, key, value) then 0
    else 1 + FirstWithMeta(orders[1..], key, value)
  }
}
