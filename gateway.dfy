/**
 * The gateway class `WC_IDPay` and the WooCommerce state it works on. Its handlers
 * change an order in place (`update_post_meta`, `update_status`, notes) and the request's
 * notice queue, redirect and cart; each handler is proved to have exactly the effects its
 * specification in `Reconcile` describes.
 */
module Gateway {
  import opened Wrappers
  import opened Php
  import opened Remote
  import opened Reconcile

  /** A WooCommerce order with its per-order metadata. */
  class Order {
    const id: string
    const number: string
    const total: int
    const currency: string
    var status: Status
    var meta: map<string, Value>
    ghost var notes: seq<Note>
    /** The transaction ids `payment_complete` was called with. */
    ghost var payments: seq<Value>

    constructor (id: string, number: string, total: int, currency: string,
                 status: Status, meta: map<string, Value>)
      ensures View() == OrderView(id, number, total, currency, status, meta)
      ensures notes == [] && payments == []
    {
      this.id, this.number, this.total, this.currency := id, number, total, currency;
      this.status, this.meta := status, meta;
      notes, payments := [], [];
    }

    function View(): OrderView
      reads this
    {
      OrderView(id, number, total, currency, status, meta)
    }

    /** `update_post_meta($order_id, key, value)`. */
    method UpdatePostMeta(key: string, value: Value)
      modifies this`meta
      ensures meta == old(meta)[key := value]
    {
      meta := meta[key := value];
    }

    method UpdateStatus(s: Status)
      modifies this`status
      ensures status == s
    {
      status := s;
    }

    method AddOrderNote(n: Note)
      modifies this`notes
      ensures notes == old(notes) + [n]
    {
      notes := notes + [n];
    }

    /** `payment_complete` as far as this gateway relies on it: it records the transaction id. */
    method PaymentComplete(transactionId: Value)
      modifies this`payments
      ensures payments == old(payments) + [transactionId]
    {
      payments := payments + [transactionId];
    }
  }

  /** The request being served: WooCommerce's notice queue, the redirect, the cart, the network. */
  class Site {
    ghost var notices: seq<Notice>
    ghost var redirects: seq<Redirect>
    ghost var posts: seq<Request>
    ghost var cartEmptied: nat

    constructor ()
      ensures notices == [] && redirects == [] && posts == [] && cartEmptied == 0
    {
      notices, redirects, posts, cartEmptied := [], [], [], 0;
    }

    /** `wc_add_notice`. */
    method AddNotice(n: Notice)
      modifies this`notices
      ensures notices == old(notices) + [n]
    {
      notices := notices + [n];
    }

    /** `wp_redirect`. */
    method Redirect(r: Redirect)
      modifies this`redirects
      ensures redirects == old(redirects) + [r]
    {
      redirects := redirects + [r];
    }

    /** `$woocommerce->cart->empty_cart()`. */
    method EmptyCart()
      modifies this`cartEmptied
      ensures cartEmptied == old(cartEmptied) + 1
    {
      cartEmptied := cartEmptied + 1;
    }

    /** Records the posts of one gateway call. */
    method RecordPosts(req: Request, attempts: nat)
      modifies this`posts
      ensures posts == old(posts) + seq(attempts, _ => req)
    {
      posts := posts + seq(attempts, _ => req);
    }
  }

  /** The order changed exactly as the effects say. */
  twostate predicate OrderApplied(e: Effects, o: Order)
    reads o
  {
    && o.meta == old(o.meta) + e.writes
    && o.status == e.newStatus.GetOr(old(o.status))
    && o.notes == old(o.notes) + e.notes
    && o.payments == old(o.payments) + e.payments
  }

  /** The request's logs grew exactly as the effects say. */
  twostate predicate SiteApplied(e: Effects, site: Site)
    reads site
  {
    && site.notices == old(site.notices) + e.notices
    && site.redirects == old(site.redirects) + e.redirects
    && site.posts == old(site.posts) + e.posts
    && site.cartEmptied == old(site.cartEmptied) + (if e.emptiesCart then 1 else 0)
  }

  /** The seven `update_post_meta` calls of the snapshot store `Snapshot(cb)`. */
  lemma SnapshotWrites(m: map<string, Value>, cb: Callback)
    ensures m[TransactionStatusKey := cb.status][TrackIdKey := Str(cb.trackId)][TransactionIdKey := Str(cb.id)]
             [TransactionOrderIdKey := Str(cb.orderId)][TransactionAmountKey := Str(cb.amount)]
             [CardNoKey := Str(cb.cardNo)][PaymentDateKey := Str(cb.date)]
            == m + Snapshot(cb)
  {
  }

  /** The eight `update_post_meta` calls after verification store `VerifiedMeta(b)`. */
  lemma VerifiedWrites(m: map<string, Value>, b: Body)
    ensures m[TransactionStatusKey := IntField(b.status)][TrackIdKey := TextField(b.trackId)]
             [TransactionIdKey := TextField(b.id)][TransactionOrderIdKey := TextField(b.orderId)]
             [TransactionAmountKey := IntField(b.amount)][CardNoKey := TextField(b.cardNo)]
             [HashedCardNoKey := TextField(b.hashedCardNo)][PaymentDateKey := TextField(b.date)]
            == m + VerifiedMeta(b)
  {
    EightWrites(m, IntField(b.status), TextField(b.trackId), TextField(b.id), TextField(b.orderId),
                IntField(b.amount), TextField(b.cardNo), TextField(b.hashedCardNo), TextField(b.date));
  }

  lemma EightWrites(m: map<string, Value>, status: Value, trackId: Value, id: Value, orderId: Value,
                    amount: Value, cardNo: Value, hashedCardNo: Value, date: Value)
    ensures m[TransactionStatusKey := status][TrackIdKey := trackId][TransactionIdKey := id]
             [TransactionOrderIdKey := orderId][TransactionAmountKey := amount][CardNoKey := cardNo]
             [HashedCardNoKey := hashedCardNo][PaymentDateKey := date]
            == m + map[TransactionStatusKey := status, TrackIdKey := trackId, TransactionIdKey := id,
                       TransactionOrderIdKey := orderId, TransactionAmountKey := amount, CardNoKey := cardNo,
                       HashedCardNoKey := hashedCardNo, PaymentDateKey := date]
  {
  }

  lemma UnionAssociative(a: map<string, Value>, b: map<string, Value>, c: map<string, Value>)
    ensures a + b + c == a + (b + c)
  {
  }

  /** The order `wc_get_order` finds for an id, as a frame. */
  function Found(orders: map<string, Order>, orderId: string): set<Order> {
    if orderId in orders then {orders[orderId]} else {}
  }

  /** The gateway, with the options it loaded when constructed. */
  class WcIdPay {
    const config: Config

    constructor (config: Config)
      ensures this.config == config
    {
      this.config := config;
    }

    /**
     * `call_gateway_endpoint`: posts up to four times, retrying only on a transport error,
     * and returns the first other response unchanged, or the last error.
     */
    method CallGatewayEndpoint(req: Request, t: Transport) returns (response: Response, attempts: nat)
      ensures 1 <= attempts <= MaxConnectionTries
      ensures response == t(req, attempts - 1)
      ensures forall j :: 0 <= j < attempts - 1 ==> t(req, j).TransportError?
      ensures response.TransportError? ==> attempts == MaxConnectionTries
      ensures (response, attempts) == Retry(t, req)
    {
      var tries := MaxConnectionTries;
      attempts := 0;
      response := TransportError("");  // overwritten: the loop runs at least once
      while tries != 0
        invariant 0 <= tries <= MaxConnectionTries && attempts == MaxConnectionTries - tries
        invariant forall j :: 0 <= j < attempts ==> t(req, j).TransportError?
        invariant attempts > 0 ==> response == t(req, attempts - 1)
        invariant tries > 0 ==> RetryFrom(t, req, attempts) == Retry(t, req)
        invariant tries == 0 ==> (response, attempts) == Retry(t, req)
        decreases tries
      {
        response := t(req, attempts);
        attempts := attempts + 1;
        if response.TransportError? {
          tries := tries - 1;
        } else {
          break;
        }
      }
    }

    /** `idpay_display_invalid_order_message`. */
    method DisplayInvalidOrderMessage(site: Site)
      modifies site`notices
      ensures site.notices == old(site.notices) + [Notice(InvalidOrderText, Error)]
    {
      site.AddNotice(Notice(InvalidOrderText, Error));
    }

    /** `idpay_display_success_message`: the success template with the stored track id. */
    method DisplaySuccessMessage(order: Order, orderId: string, site: Site)
      modifies site`notices
      ensures site.notices == old(site.notices) + [SuccessNotice(config, order.meta, orderId)]
    {
      site.AddNotice(SuccessNotice(config, order.meta, orderId));
    }

    /** `idpay_display_failed_message`: the failure template with the stored track id. */
    method DisplayFailedMessage(order: Order, orderId: string, site: Site)
      modifies site`notices
      ensures site.notices == old(site.notices) + [FailedNotice(config, order.meta, orderId)]
    {
      site.AddNotice(FailedNotice(config, order.meta, orderId));
    }

    /** `idpay_checkout_receipt_page`: creates the remote transaction and redirects to it. */
    method CheckoutReceiptPage(order: Order, customer: Customer, site: Site, t: Transport)
      modifies order, site
      ensures OrderApplied(ReceiptSpec(config, old(order.View()), customer, t), order)
      ensures SiteApplied(ReceiptSpec(config, old(order.View()), customer, t), site)
    {
      var amount := config.getAmount(order.total, order.currency);
      if !FilledInt(amount) {
        site.AddNotice(Notice(CurrencyNotSupportedText, Error));
        return;
      }
      var req := CreateRequest(config, order.View(), customer, amount.value);
      var response, attempts := CallGatewayEndpoint(req, t);
      site.RecordPosts(req, attempts);
      match response
      case TransportError(msg) =>
        order.AddOrderNote(TransportNote(msg));
      case Reply(code, b) =>
        if code != HttpCreated || !Filled(b.id) || !Filled(b.link) {
          if Filled(b.errorCode) && Filled(b.errorMessage) {
            order.AddOrderNote(CreationError(code, b.errorCode.value, b.errorMessage.value));
            site.AddNotice(Notice(b.errorMessage.value, Error));
          }
          return;
        }
        order.UpdatePostMeta(TransactionIdKey, Str(b.id.value));
        order.UpdatePostMeta(TransactionStatusKey, Int(CreatedStatus));
        order.AddOrderNote(TransactionCreated(b.id.value));
        site.Redirect(PaymentPage(b.link.value));
    }

    /** Stores the callback's fields as the order's metadata (the optimistic snapshot). */
    method StoreCallbackMeta(order: Order, cb: Callback)
      modifies order`meta
      ensures order.meta == old(order.meta) + Snapshot(cb)
    {
      ghost var m := order.meta;
      order.UpdatePostMeta(TransactionStatusKey, cb.status);
      order.UpdatePostMeta(TrackIdKey, Str(cb.trackId));
      order.UpdatePostMeta(TransactionIdKey, Str(cb.id));
      order.UpdatePostMeta(TransactionOrderIdKey, Str(cb.orderId));
      order.UpdatePostMeta(TransactionAmountKey, Str(cb.amount));
      order.UpdatePostMeta(CardNoKey, Str(cb.cardNo));
      order.UpdatePostMeta(PaymentDateKey, Str(cb.date));
      SnapshotWrites(m, cb);
    }

    /** Overwrites the order's metadata with the values of a verify reply. */
    method StoreVerifiedMeta(order: Order, b: Body)
      modifies order`meta
      ensures order.meta == old(order.meta) + VerifiedMeta(b)
    {
      ghost var m := order.meta;
      order.UpdatePostMeta(TransactionStatusKey, IntField(b.status));
      order.UpdatePostMeta(TrackIdKey, TextField(b.trackId));
      order.UpdatePostMeta(TransactionIdKey, TextField(b.id));
      order.UpdatePostMeta(TransactionOrderIdKey, TextField(b.orderId));
      order.UpdatePostMeta(TransactionAmountKey, IntField(b.amount));
      order.UpdatePostMeta(CardNoKey, TextField(b.cardNo));
      order.UpdatePostMeta(HashedCardNoKey, TextField(b.hashedCardNo));
      order.UpdatePostMeta(PaymentDateKey, TextField(b.date));
      VerifiedWrites(m, b);
    }

    /**
     * The part of the return handler after the verify call: interprets the response,
     * applies the consistency gate and commits. `view` is the order before the snapshot
     * `snap` was stored.
     */
    method ReconcileVerifyResponse(order: Order, orderId: string, response: Response, site: Site,
                                   ghost view: OrderView, ghost snap: map<string, Value>, ghost posts: seq<Request>)
      requires order.meta == view.meta + snap
      requires order.total == view.total && order.currency == view.currency
      modifies order, site
      ensures var e := VerifyOutcome(config, view, orderId, snap, response, posts);
        && order.meta == view.meta + e.writes
        && order.status == e.newStatus.GetOr(old(order.status))
        && order.notes == old(order.notes) + e.notes
        && order.payments == old(order.payments) + e.payments
        && site.notices == old(site.notices) + e.notices
        && site.redirects == old(site.redirects) + e.redirects
        && site.posts == old(site.posts)
        && site.cartEmptied == old(site.cartEmptied) + (if e.emptiesCart then 1 else 0)
    {
      match response
      case TransportError(msg) =>
        order.AddOrderNote(TransportNote(msg));
      case Reply(code, b) =>
        if code != HttpOk {
          var detail := ErrorDetail(b);
          if detail.Some? {
            site.AddNotice(Notice(detail.value.1, Error));
          }
          order.AddOrderNote(VerifyError(code, detail));
          order.UpdateStatus(Failed);
          site.Redirect(CheckoutPage);
          return;
        }
        CommitVerifiedReply(order, orderId, b, site, view, snap, posts);
    }

    /** An HTTP 200 verify reply: store its values, apply the gate, commit the final status. */
    method CommitVerifiedReply(order: Order, orderId: string, b: Body, site: Site,
                               ghost view: OrderView, ghost snap: map<string, Value>, ghost posts: seq<Request>)
      requires order.meta == view.meta + snap
      requires order.total == view.total && order.currency == view.currency
      modifies order, site
      ensures var e := VerifyOutcome(config, view, orderId, snap, Reply(HttpOk, b), posts);
        && order.meta == view.meta + e.writes
        && order.status == e.newStatus.GetOr(old(order.status))
        && order.notes == old(order.notes) + e.notes
        && order.payments == old(order.payments) + e.payments
        && site.notices == old(site.notices) + e.notices
        && site.redirects == old(site.redirects) + e.redirects
        && site.posts == old(site.posts)
        && site.cartEmptied == old(site.cartEmptied) + (if e.emptiesCart then 1 else 0)
    {
      var status := if VerifiedPaid(b) then Processing else Failed;
      order.AddOrderNote(PaymentStatusNote(IntField(b.status), TextField(b.trackId), TextField(b.cardNo)));
      StoreVerifiedMeta(order, b);
      UnionAssociative(view.meta, snap, VerifiedMeta(b));

      var expected := config.getAmount(order.total, order.currency);
      if !Consistent(b, expected) {
        order.AddOrderNote(InconsistencyNote);
        status := Failed;
      }
      CommitStatus(order, orderId, site, status != Failed, TextField(b.id));
    }

    /** The last step of the return handler: the paid or the failed outcome, with its notice and redirect. */
    method CommitStatus(order: Order, orderId: string, site: Site, paid: bool, transactionId: Value)
      modifies order`status, order`payments, site
      ensures order.status == if paid then Processing else Failed
      ensures order.payments == old(order.payments) + (if paid then [transactionId] else [])
      ensures site.notices == old(site.notices)
        + [if paid then SuccessNotice(config, order.meta, orderId) else FailedNotice(config, order.meta, orderId)]
      ensures site.redirects == old(site.redirects) + [if paid then SuccessReturn(orderId) else CheckoutPage]
      ensures site.posts == old(site.posts)
      ensures site.cartEmptied == old(site.cartEmptied) + (if paid then 1 else 0)
    {
      if !paid {
        order.UpdateStatus(Failed);
        DisplayFailedMessage(order, orderId, site);
        site.Redirect(CheckoutPage);
      } else {
        order.PaymentComplete(transactionId);
        order.UpdateStatus(Processing);
        site.EmptyCart();
        DisplaySuccessMessage(order, orderId, site);
        site.Redirect(SuccessReturn(orderId));
      }
    }

    /** `idpay_checkout_return_handler`: reconciles the return callback with the gateway. */
    method CheckoutReturnHandler(cb: Callback, orders: map<string, Order>, site: Site, t: Transport)
      modifies site, Found(orders, cb.orderId)
      ensures SiteApplied(ReturnSpec(config, cb, if cb.orderId in orders then Some(old(orders[cb.orderId].View())) else None, t), site)
      ensures cb.orderId in orders ==>
        OrderApplied(ReturnSpec(config, cb, Some(old(orders[cb.orderId].View())), t), orders[cb.orderId])
    {
      if EmptyText(cb.id) || EmptyText(cb.orderId) || cb.orderId !in orders {
        DisplayInvalidOrderMessage(site);
        site.Redirect(CheckoutPage);
        return;
      }
      ReconcileOrder(cb, orders[cb.orderId], site, t);
    }

    /** The return handler once the callback names an order that exists. */
    method ReconcileOrder(cb: Callback, order: Order, site: Site, t: Transport)
      requires !EmptyText(cb.id) && !EmptyText(cb.orderId)
      modifies order, site
      ensures SiteApplied(ReturnSpec(config, cb, Some(old(order.View())), t), site)
      ensures OrderApplied(ReturnSpec(config, cb, Some(old(order.View())), t), order)
    {
      if DoubleSpendingOccurred(order.meta, cb.id) {
        DisplayInvalidOrderMessage(site);
        site.Redirect(CheckoutPage);
        return;
      }
      if order.status == Completed || order.status == Processing {
        DisplaySuccessMessage(order, cb.orderId, site);
        site.Redirect(SuccessReturn(cb.orderId));
        return;
      }
      if AtLeast(MetaGet(order.meta, TransactionStatusKey), VerifiedThreshold) {
        DisplaySuccessMessage(order, cb.orderId, site);
        site.Redirect(SuccessReturn(cb.orderId));
        return;
      }
      ghost var view := order.View();
      StoreCallbackMeta(order, cb);

      if cb.status != Int(SubmittedStatus) {
        order.UpdateStatus(Failed);
        DisplayFailedMessage(order, cb.orderId, site);
        site.Redirect(CheckoutPage);
        return;
      }

      VerifyPayment(cb, order, site, t, view);
    }

    /** Calls the verify endpoint for a submitted callback and reconciles the reply. */
    method VerifyPayment(cb: Callback, order: Order, site: Site, t: Transport, ghost view: OrderView)
      requires ReachesVerify(cb, Some(view))
      requires order.meta == view.meta + Snapshot(cb)
      requires order.total == view.total && order.currency == view.currency
      modifies order, site
      ensures var e := ReturnSpec(config, cb, Some(view), t);
        && order.meta == view.meta + e.writes
        && order.status == e.newStatus.GetOr(old(order.status))
        && order.notes == old(order.notes) + e.notes
        && order.payments == old(order.payments) + e.payments
        && SiteApplied(e, site)
    {
      var req := VerifyRequest(config, MetaGet(order.meta, TransactionIdKey), cb.orderId);
      var response, attempts := CallGatewayEndpoint(req, t);
      site.RecordPosts(req, attempts);
      ReconcileVerifyResponse(order, cb.orderId, response, site, view, Snapshot(cb), seq(attempts, _ => req));
    }
  }
}
