/** The reconciliation rules of the payment protocol, proved of the handler specifications. */
module Properties {
  import opened Wrappers
  import opened Php
  import opened Remote
  import opened Reconcile

  /**
   * A callback with an empty `id` or `order_id`, for an order that does not exist or whose
   * recorded transaction id differs, ends with the invalid-order notice and a redirect to
   * checkout; nothing is written, no status is set and the gateway is not called.
   */
  lemma InvalidCallbackRejected(c: Config, cb: Callback, order: Option<OrderView>, t: Transport)
    requires !Admitted(cb, order)
    ensures var e := ReturnSpec(c, cb, order, t);
      && e.writes == map[] && e.newStatus == None && e.posts == [] && e.notes == []
      && e.notices == [Notice(InvalidOrderText, Error)] && e.redirects == [CheckoutPage]
      && !e.emptiesCart && e.payments == []
  {
  }

  /**
   * An admitted callback for a settled order shows the success notice and sends the payer
   * to the success return URL, without writing, setting a status or calling verify.
   */
  lemma SettledOrderShortCircuits(c: Config, cb: Callback, o: OrderView, t: Transport)
    requires Admitted(cb, Some(o)) && Settled(o)
    ensures var e := ReturnSpec(c, cb, Some(o), t);
      && e.writes == map[] && e.newStatus == None && e.posts == [] && e.notes == []
      && e.notices == [SuccessNotice(c, o.meta, cb.orderId)]
      && e.redirects == [SuccessReturn(cb.orderId)]
      && !e.emptiesCart && e.payments == []
  {
  }

  /**
   * After the snapshot, a callback status other than "submitted" fails the order, shows the
   * failure notice and redirects to checkout without calling verify.
   */
  lemma NotSubmittedFailsWithoutVerify(c: Config, cb: Callback, o: OrderView, t: Transport)
    requires ReachesSnapshot(cb, Some(o)) && cb.status != Int(SubmittedStatus)
    ensures var e := ReturnSpec(c, cb, Some(o), t);
      && e.writes == Snapshot(cb) && e.newStatus == Some(Failed) && e.posts == []
      && e.notices == [FailedNotice(c, o.meta + Snapshot(cb), cb.orderId)]
      && e.redirects == [CheckoutPage] && !e.emptiesCart
  {
  }

  /** The snapshot records the callback's transaction id. */
  lemma SnapshotRecordsId(meta: map<string, Value>, cb: Callback)
    ensures MetaGet(meta + Snapshot(cb), TransactionIdKey) == Str(cb.id)
  {
    assert TransactionIdKey in Snapshot(cb);
  }

  /**
   * Every request the reconciler sends goes to the verify endpoint and carries the
   * callback's `id` and `order_id`; there are at most four of them, and there are none
   * unless the callback reached the verify step.
   */
  lemma VerifyRequestCarriesCallbackId(c: Config, cb: Callback, order: Option<OrderView>, t: Transport)
    ensures var e := ReturnSpec(c, cb, order, t);
      && |e.posts| <= MaxConnectionTries
      && (e.posts != [] ==> ReachesVerify(cb, order))
      && forall r :: r in e.posts ==> r == VerifyRequest(c, Str(cb.id), cb.orderId)
  {
    if ReachesVerify(cb, order) {
      var o := order.value;
      SnapshotRecordsId(o.meta, cb);
      RetryBound(t, VerifyRequest(c, Str(cb.id), cb.orderId));
    }
  }

  /** The verify reply that lets an order be paid. */
  predicate VerifyAccepts(c: Config, o: OrderView, resp: Response) {
    resp.Reply? && resp.code == HttpOk && VerifiedPaid(resp.body)
    && Consistent(resp.body, c.getAmount(o.total, o.currency))
  }

  /** The response of the verify call for an admitted callback. */
  function VerifyResponse(c: Config, cb: Callback, t: Transport): Response {
    Retry(t, VerifyRequest(c, Str(cb.id), cb.orderId)).0
  }

  /**
   * The order becomes `processing` exactly when the callback reached the verify step and
   * the verify reply is HTTP 200 with a status of at least 100, a track id and an amount,
   * the amount being the order's normalized total. `payment_complete` and `empty_cart`
   * happen exactly then; every other verified reply fails the order.
   */
  lemma ProcessingIffVerified(c: Config, cb: Callback, order: Option<OrderView>, t: Transport)
    ensures var e := ReturnSpec(c, cb, order, t);
      && (e.newStatus == Some(Processing) <==>
            ReachesVerify(cb, order) && VerifyAccepts(c, order.value, VerifyResponse(c, cb, t)))
      && (e.emptiesCart <==> e.newStatus == Some(Processing))
      && (e.payments != [] <==> e.newStatus == Some(Processing))
      && (e.newStatus == Some(Processing) ==> e.redirects == [SuccessReturn(cb.orderId)])
      && (ReachesVerify(cb, order) && VerifyResponse(c, cb, t).Reply? ==>
            e.newStatus == Some(if VerifyAccepts(c, order.value, VerifyResponse(c, cb, t)) then Processing else Failed))
  {
    if ReachesVerify(cb, order) {
      SnapshotRecordsId(order.value.meta, cb);
    }
  }

  /**
   * A verify reply whose amount is not the order's normalized total fails the order,
   * whatever status the reply reports.
   */
  lemma AmountMismatchFails(c: Config, cb: Callback, o: OrderView, t: Transport)
    requires ReachesVerify(cb, Some(o))
    requires VerifyResponse(c, cb, t).Reply?
    requires VerifyResponse(c, cb, t).body.amount != c.getAmount(o.total, o.currency)
    ensures ReturnSpec(c, cb, Some(o), t).newStatus == Some(Failed)
  {
    ProcessingIffVerified(c, cb, Some(o), t);
  }

  /**
   * When the verify call fails in transport, the handler only adds a note: the snapshot
   * stays, no status is set, no notice is shown and no redirect is made.
   */
  lemma VerifyTransportErrorOnlyNotes(c: Config, cb: Callback, o: OrderView, t: Transport)
    requires ReachesVerify(cb, Some(o)) && VerifyResponse(c, cb, t).TransportError?
    ensures var e := ReturnSpec(c, cb, Some(o), t);
      && e.writes == Snapshot(cb) && e.newStatus == None
      && e.notes == [TransportNote(VerifyResponse(c, cb, t).message)]
      && e.notices == [] && e.redirects == [] && |e.posts| == MaxConnectionTries
  {
    SnapshotRecordsId(o.meta, cb);
    RetryBound(t, VerifyRequest(c, Str(cb.id), cb.orderId));
  }

  /** A non-200 verify reply fails the order and redirects to checkout. */
  lemma VerifyHttpErrorFails(c: Config, cb: Callback, o: OrderView, t: Transport)
    requires ReachesVerify(cb, Some(o))
    requires VerifyResponse(c, cb, t).Reply? && VerifyResponse(c, cb, t).code != HttpOk
    ensures var e := ReturnSpec(c, cb, Some(o), t);
      && e.writes == Snapshot(cb) && e.newStatus == Some(Failed)
      && e.redirects == [CheckoutPage] && !e.emptiesCart
  {
    SnapshotRecordsId(o.meta, cb);
  }

  /** The reconciler writes only the gateway's own metadata keys. */
  lemma ReturnWritesGatewayKeys(c: Config, cb: Callback, order: Option<OrderView>, t: Transport)
    ensures ReturnSpec(c, cb, order, t).writes.Keys <= GatewayKeys
  {
  }

  /**
   * A verified payment is final: the metadata it leaves marks the order settled, so any
   * later callback, whatever status the order has by then, writes nothing, sets no status
   * and never calls the gateway.
   */
  lemma PaymentIsFinal(c: Config, cb: Callback, o: OrderView, t: Transport,
                       later: Callback, status: Status, t': Transport)
    requires ReturnSpec(c, cb, Some(o), t).newStatus == Some(Processing)
    ensures var o' := Apply(o, ReturnSpec(c, cb, Some(o), t)).(status := status);
      var e := ReturnSpec(c, later, Some(o'), t');
      e.writes == map[] && e.newStatus == None && e.posts == []
  {
    ProcessingIffVerified(c, cb, Some(o), t);
    var e1 := ReturnSpec(c, cb, Some(o), t);
    var b := VerifyResponse(c, cb, t).body;
    SnapshotRecordsId(o.meta, cb);
    assert TransactionStatusKey in e1.writes && e1.writes[TransactionStatusKey] == Int(b.status.value);
  }

  /**
   * The snapshot stores the callback's own status before anything is verified, and the
   * settled check reads that stored status. A callback reporting a status of 100 or more
   * fails the order, and a repeat of the same callback then takes the settled branch:
   * the success notice and the success redirect, while the order stays `failed`.
   */
  lemma CallbackStatusMarksFailedOrderSettled(c: Config, cb: Callback, o: OrderView, t: Transport, t': Transport)
    requires ReachesSnapshot(cb, Some(o)) && AtLeast(cb.status, VerifiedThreshold)
    ensures var e := ReturnSpec(c, cb, Some(o), t);
      var o' := Apply(o, e);
      var e' := ReturnSpec(c, cb, Some(o'), t');
      && e.newStatus == Some(Failed) && e.posts == []
      && o'.status == Failed && Settled(o')
      && e'.newStatus == None && e'.writes == map[] && e'.posts == []
      && e'.notices == [SuccessNotice(c, o'.meta, cb.orderId)]
      && e'.redirects == [SuccessReturn(cb.orderId)]
  {
    var e := ReturnSpec(c, cb, Some(o), t);
    assert TransactionStatusKey in e.writes && e.writes[TransactionStatusKey] == cb.status;
    SnapshotRecordsId(o.meta, cb);
  }

  /**
   * A verified reply with a status of 100 or more that fails the consistency gate fails
   * the order but leaves that status stored, so no later callback changes the order's
   * status again: it stays `failed`.
   */
  lemma GateFailureLeavesOrderSettled(c: Config, cb: Callback, o: OrderView, t: Transport,
                                      later: Callback, t': Transport)
    requires ReachesVerify(cb, Some(o))
    requires VerifyResponse(c, cb, t).Reply? && VerifyResponse(c, cb, t).code == HttpOk
    requires VerifiedPaid(VerifyResponse(c, cb, t).body)
    requires !VerifyAccepts(c, o, VerifyResponse(c, cb, t))
    ensures var o' := Apply(o, ReturnSpec(c, cb, Some(o), t));
      var e := ReturnSpec(c, later, Some(o'), t');
      && o'.status == Failed && Settled(o')
      && e.writes == map[] && e.newStatus == None && e.posts == []
  {
    ProcessingIffVerified(c, cb, Some(o), t);
    var e1 := ReturnSpec(c, cb, Some(o), t);
    var b := VerifyResponse(c, cb, t).body;
    SnapshotRecordsId(o.meta, cb);
    assert TransactionStatusKey in e1.writes && e1.writes[TransactionStatusKey] == Int(b.status.value);
  }

  // ---------------------------------------------------------------------------
  // The transaction initiator

  /**
   * An amount the normalizer cannot produce shows the "currency not supported" notice and
   * stops: no gateway call, no write, no note, no redirect.
   */
  lemma UnsupportedCurrencyStops(c: Config, o: OrderView, customer: Customer, t: Transport)
    requires !FilledInt(c.getAmount(o.total, o.currency))
    ensures var e := ReceiptSpec(c, o, customer, t);
      && e.posts == [] && e.writes == map[] && e.notes == [] && e.redirects == []
      && e.notices == [Notice(CurrencyNotSupportedText, Error)]
  {
  }

  /** The reply that creates a transaction: HTTP 201 with both an id and a link. */
  predicate CreationAccepted(resp: Response) {
    resp.Reply? && resp.code == HttpCreated && Filled(resp.body.id) && Filled(resp.body.link)
  }

  /** The response of the create call for an order with a supported amount. */
  function CreateResponse(c: Config, o: OrderView, customer: Customer, t: Transport): Response
    requires FilledInt(c.getAmount(o.total, o.currency))
  {
    Retry(t, CreateRequest(c, o, customer, c.getAmount(o.total, o.currency).value)).0
  }

  /**
   * The initiator writes metadata exactly when the create reply is accepted, and then it
   * writes the transaction id and the created status and redirects to the payment link;
   * otherwise it writes nothing and does not redirect. Every post is the create request.
   */
  lemma CreationWritesOnlyWhenAccepted(c: Config, o: OrderView, customer: Customer, t: Transport)
    ensures var e := ReceiptSpec(c, o, customer, t);
      && |e.posts| <= MaxConnectionTries
      && e.newStatus == None
      && (e.writes != map[] <==>
            FilledInt(c.getAmount(o.total, o.currency)) && CreationAccepted(CreateResponse(c, o, customer, t)))
      && (e.writes != map[] ==>
            var b := CreateResponse(c, o, customer, t).body;
            && e.writes == map[TransactionIdKey := Str(b.id.value), TransactionStatusKey := Int(CreatedStatus)]
            && e.redirects == [PaymentPage(b.link.value)])
      && (e.writes == map[] ==> e.redirects == [])
      && (FilledInt(c.getAmount(o.total, o.currency)) ==>
            forall r :: r in e.posts ==> r == CreateRequest(c, o, customer, c.getAmount(o.total, o.currency).value))
  {
    var amount := c.getAmount(o.total, o.currency);
    if FilledInt(amount) {
      RetryBound(t, CreateRequest(c, o, customer, amount.value));
      if CreationAccepted(CreateResponse(c, o, customer, t)) {
        assert TransactionIdKey in ReceiptSpec(c, o, customer, t).writes;
      }
    }
  }

  /**
   * The transaction id stored at creation is the one the reconciler accepts: afterwards a
   * callback passes the double-spend check exactly when it presents that id, and the
   * created status does not count as settled.
   */
  lemma CreatedTransactionIsAuthoritative(c: Config, o: OrderView, customer: Customer, t: Transport, remoteId: string)
    requires ReceiptSpec(c, o, customer, t).writes != map[]
    ensures var o' := Apply(o, ReceiptSpec(c, o, customer, t));
      var id := CreateResponse(c, o, customer, t).body.id.value;
      && (DoubleSpendingOccurred(o'.meta, remoteId) <==> remoteId != id)
      && !AtLeast(MetaGet(o'.meta, TransactionStatusKey), VerifiedThreshold)
  {
    CreationWritesOnlyWhenAccepted(c, o, customer, t);
  }
}
