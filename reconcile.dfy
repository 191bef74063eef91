/**
 * What the two request handlers of the IDPay gateway do, as pure functions from the
 * order, the request and the gateway's replies to the effects of the handler: the
 * metadata it writes, the status it sets, the notes, notices, redirects and posts it
 * makes. The lemmas state the reconciliation rules of the payment protocol.
 */
module Reconcile {
  import opened Wrappers
  import opened Php
  import opened Notices
  import opened Remote

  /** The callback status of a payment the payer submitted. */
  const SubmittedStatus := 10
  /** Remote statuses from this value on mean a verified payment. */
  const VerifiedThreshold := 100
  /** The remote status stored when a transaction is created. */
  const CreatedStatus := 1
  const HttpCreated := 201
  const HttpOk := 200

  const TransactionIdKey := "idpay_transaction_id"
  const TransactionStatusKey := "idpay_transaction_status"
  const TrackIdKey := "idpay_track_id"
  const TransactionOrderIdKey := "idpay_transaction_order_id"
  const TransactionAmountKey := "idpay_transaction_amount"
  const CardNoKey := "idpay_payment_card_no"
  const HashedCardNoKey := "idpay_payment_hashed_card_no"
  const PaymentDateKey := "idpay_payment_date"

  /** The metadata keys the gateway owns. */
  const GatewayKeys := {TransactionIdKey, TransactionStatusKey, TrackIdKey, TransactionOrderIdKey,
                        TransactionAmountKey, CardNoKey, HashedCardNoKey, PaymentDateKey}

  const InvalidOrderText := "There is no order number referenced.<br/>Please try again or contact the site administrator in case of a problem."
  const CurrencyNotSupportedText := "Selected currency is not supported"
  const OrderNumberPrefix := "Oder number #"

  datatype Status = Pending | Processing | OnHold | Completed | Cancelled | Refunded | Failed

  datatype NoticeKind = Success | Error
  datatype Notice = Notice(text: string, kind: NoticeKind)

  /** The checkout page, the order's return URL with `wc_status=success`, or the payment link. */
  datatype Redirect = CheckoutPage | SuccessReturn(orderId: string) | PaymentPage(link: string)

  /** The audit notes added to an order; their wording is translated text and not modelled. */
  datatype Note =
    | TransportNote(message: string)
    | CreationError(httpStatus: int, errorCode: string, errorMessage: string)
    | TransactionCreated(id: string)
    | VerifyError(httpStatus: int, detail: Option<(string, string)>)
    | PaymentStatusNote(status: Value, trackId: Value, cardNo: Value)
    | InconsistencyNote

  /**
   * The loaded gateway options, and `wc_idpay_get_amount`, which converts an order total
   * in a currency to the gateway's unit and is not part of this model.
   */
  datatype Config = Config(
    endpoint: string, apiKey: string, sandbox: string, reseller: string,
    successMessage: string, failedMessage: string,
    getAmount: (int, string) -> Option<int>)

  function PaymentEndpoint(c: Config): string { c.endpoint + "/payment" }
  function VerifyEndpoint(c: Config): string { c.endpoint + "/payment/verify" }

  datatype Customer = Customer(firstName: string, lastName: string, phone: string, mail: string)

  /**
   * What the handlers read of an order: `total` is `intval($order->get_total())` and
   * `currency` is the currency after the `WC_IDPay_Currency` filter.
   */
  datatype OrderView = OrderView(
    id: string, number: string, total: int, currency: string,
    status: Status, meta: map<string, Value>)

  /** The sanitized fields of the return callback. */
  datatype Callback = Callback(
    status: Value, trackId: string, id: string, orderId: string,
    amount: string, cardNo: string, date: string, hashedCardNo: string)

  /**
   * The effects of one handler run: metadata written (last write wins), the final
   * `update_status` if any, and what was appended to each log.
   */
  datatype Effects = Effects(
    writes: map<string, Value>, newStatus: Option<Status>,
    notes: seq<Note>, payments: seq<Value>,
    notices: seq<Notice>, redirects: seq<Redirect>, posts: seq<Request>,
    emptiesCart: bool)

  const NoEffects := Effects(map[], None, [], [], [], [], [], false)

  /** The order as it is after the effects. */
  function Apply(o: OrderView, e: Effects): OrderView {
    o.(meta := o.meta + e.writes, status := e.newStatus.GetOr(o.status))
  }

  // ---------------------------------------------------------------------------
  // Pieces shared by the handlers

  /** `double_spending_occurred`: the callback's id is not the transaction id on record. */
  predicate DoubleSpendingOccurred(meta: map<string, Value>, remoteId: string) {
    MetaGet(meta, TransactionIdKey) != Str(remoteId)
  }

  /** An order this gateway already settled: paid in WooCommerce, or a verified remote status. */
  predicate Settled(o: OrderView) {
    o.status == Completed || o.status == Processing
    || AtLeast(MetaGet(o.meta, TransactionStatusKey), VerifiedThreshold)
  }

  function SuccessNotice(c: Config, meta: map<string, Value>, orderId: string): Notice {
    Notice(RenderNotice(c.successMessage, Text(MetaGet(meta, TrackIdKey)), orderId), Success)
  }

  function FailedNotice(c: Config, meta: map<string, Value>, orderId: string): Notice {
    Notice(RenderNotice(c.failedMessage, Text(MetaGet(meta, TrackIdKey)), orderId), Error)
  }

  const InvalidOrderEffects := NoEffects.(notices := [Notice(InvalidOrderText, Error)], redirects := [CheckoutPage])

  /** The optimistic metadata snapshot taken from the callback. */
  function Snapshot(cb: Callback): map<string, Value> {
    map[TransactionStatusKey := cb.status, TrackIdKey := Str(cb.trackId),
        TransactionIdKey := Str(cb.id), TransactionOrderIdKey := Str(cb.orderId),
        TransactionAmountKey := Str(cb.amount), CardNoKey := Str(cb.cardNo),
        PaymentDateKey := Str(cb.date)]
  }

  /** The metadata written from a verify reply; empty fields are stored as NULL. */
  function VerifiedMeta(b: Body): map<string, Value> {
    map[TransactionStatusKey := IntField(b.status), TrackIdKey := TextField(b.trackId),
        TransactionIdKey := TextField(b.id), TransactionOrderIdKey := TextField(b.orderId),
        TransactionAmountKey := IntField(b.amount), CardNoKey := TextField(b.cardNo),
        HashedCardNoKey := TextField(b.hashedCardNo), PaymentDateKey := TextField(b.date)]
  }

  function VerifyRequest(c: Config, id: Value, orderId: string): Request {
    Request(VerifyEndpoint(c), VerifyPayload(id, orderId), GatewayHeaders(c.apiKey, c.sandbox), RequestTimeout)
  }

  function CreateRequest(c: Config, o: OrderView, customer: Customer, amount: int): Request {
    Request(PaymentEndpoint(c),
            CreatePayload(o.id, amount, customer.firstName + " " + customer.lastName,
                          customer.phone, customer.mail, OrderNumberPrefix + o.number, o.id, c.reseller),
            GatewayHeaders(c.apiKey, c.sandbox), RequestTimeout)
  }

  /** The consistency gate: status, track id and amount present, and the amount is the order's. */
  predicate Consistent(b: Body, expected: Option<int>) {
    FilledInt(b.status) && Filled(b.trackId) && FilledInt(b.amount) && b.amount == expected
  }

  /** The verified status is that of a completed payment. */
  predicate VerifiedPaid(b: Body) {
    b.status.Some? && b.status.value >= VerifiedThreshold
  }

  /** Error code and message, when the reply carries both. */
  function ErrorDetail(b: Body): Option<(string, string)> {
    if Filled(b.errorCode) && Filled(b.errorMessage) then Some((b.errorCode.value, b.errorMessage.value))
    else None
  }

  // ---------------------------------------------------------------------------
  // The return reconciler

  /** The callback names a transaction of an order that exists and passes the double-spend check. */
  predicate Admitted(cb: Callback, order: Option<OrderView>) {
    !EmptyText(cb.id) && !EmptyText(cb.orderId) && order.Some?
    && !DoubleSpendingOccurred(order.value.meta, cb.id)
  }

  /** The handler gets past the short-circuit and takes the snapshot. */
  predicate ReachesSnapshot(cb: Callback, order: Option<OrderView>) {
    Admitted(cb, order) && !Settled(order.value)
  }

  /** The handler calls the verify endpoint. */
  predicate ReachesVerify(cb: Callback, order: Option<OrderView>) {
    ReachesSnapshot(cb, order) && cb.status == Int(SubmittedStatus)
  }

  /** `idpay_checkout_return_handler`, given the order `wc_get_order` finds (if any). */
  function ReturnSpec(c: Config, cb: Callback, order: Option<OrderView>, t: Transport): Effects {
    if EmptyText(cb.id) || EmptyText(cb.orderId) || order.None? then InvalidOrderEffects
    else
      var o := order.value;
      if DoubleSpendingOccurred(o.meta, cb.id) then InvalidOrderEffects
      else if Settled(o) then
        NoEffects.(notices := [SuccessNotice(c, o.meta, cb.orderId)], redirects := [SuccessReturn(cb.orderId)])
      else
        var snap := Snapshot(cb);
        if cb.status != Int(SubmittedStatus) then
          NoEffects.(writes := snap, newStatus := Some(Failed),
                     notices := [FailedNotice(c, o.meta + snap, cb.orderId)], redirects := [CheckoutPage])
        else
          var req := VerifyRequest(c, MetaGet(o.meta + snap, TransactionIdKey), cb.orderId);
          var (resp, attempts) := Retry(t, req);
          VerifyOutcome(c, o, cb.orderId, snap, resp, seq(attempts, _ => req))
  }

  /** Steps after the verify call: interpret the reply, gate it and commit. */
  function VerifyOutcome(c: Config, o: OrderView, orderId: string, snap: map<string, Value>,
                         resp: Response, posts: seq<Request>): Effects {
    match resp
    case TransportError(msg) =>
      NoEffects.(writes := snap, notes := [TransportNote(msg)], posts := posts)
    case Reply(code, b) =>
      if code != HttpOk then
        var detail := ErrorDetail(b);
        NoEffects.(writes := snap, newStatus := Some(Failed), notes := [VerifyError(code, detail)],
                   notices := if detail.Some? then [Notice(detail.value.1, Error)] else [],
                   redirects := [CheckoutPage], posts := posts)
      else
        var writes := snap + VerifiedMeta(b);
        var meta := o.meta + writes;
        var consistent := Consistent(b, c.getAmount(o.total, o.currency));
        var notes := [PaymentStatusNote(IntField(b.status), TextField(b.trackId), TextField(b.cardNo))]
                     + (if consistent then [] else [InconsistencyNote]);
        if VerifiedPaid(b) && consistent then
          Effects(writes, Some(Processing), notes, [TextField(b.id)],
                  [SuccessNotice(c, meta, orderId)], [SuccessReturn(orderId)], posts, true)
        else
          Effects(writes, Some(Failed), notes, [],
                  [FailedNotice(c, meta, orderId)], [CheckoutPage], posts, false)
  }

  // ---------------------------------------------------------------------------
  // The transaction initiator

  /** `idpay_checkout_receipt_page` for an order and the current customer. */
  function ReceiptSpec(c: Config, o: OrderView, customer: Customer, t: Transport): Effects {
    var amount := c.getAmount(o.total, o.currency);
    if !FilledInt(amount) then
      NoEffects.(notices := [Notice(CurrencyNotSupportedText, Error)])
    else
      var req := CreateRequest(c, o, customer, amount.value);
      var (resp, attempts) := Retry(t, req);
      var posts := seq(attempts, _ => req);
      match resp
      case TransportError(msg) => NoEffects.(notes := [TransportNote(msg)], posts := posts)
      case Reply(code, b) =>
        if code != HttpCreated || !Filled(b.id) || !Filled(b.link) then
          var detail := ErrorDetail(b);
          if detail.Some? then
            NoEffects.(notes := [CreationError(code, detail.value.0, detail.value.1)],
                       notices := [Notice(detail.value.1, Error)], posts := posts)
          else NoEffects.(posts := posts)
        else
          NoEffects.(writes := map[TransactionIdKey := Str(b.id.value), TransactionStatusKey := Int(CreatedStatus)],
                     notes := [TransactionCreated(b.id.value)], redirects := [PaymentPage(b.link.value)],
                     posts := posts)
  }
}
