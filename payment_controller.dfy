/**
 * The payment handlers of controllers/paymentController.js: the ad-hoc
 * and the order-bound initiation, which build a PaymentData and hand it
 * to the codec, and the gateway notification, which overwrites the
 * order whose MerchantOrderNo it names.
 *
 * `Date.now()` is read twice per initiation (for TimeStamp and for
 * MerchantOrderNo); the two readings are the parameters clock1 and clock2.
 */
module PaymentController {
  import opened Common
  import opened Models
  import opened PaymentCodec

  /** The body of an ad-hoc payment request: `{ email, Amt, ItemDesc }`, an absent field read
      as the empty string. Amt is a number or text, as the JSON and urlencoded parsers give it. */
  datatype PaymentRequest = PaymentRequest(email: string, amt: Amount, itemDesc: string)

  /** The body of an order-bound payment request: `{ orderId }` and whatever else the client sends. */
  datatype OrderPaymentRequest = OrderPaymentRequest(orderId: OrderId, amt: Option<Amount>)

  /** JavaScript's falsiness of an Amt: the number 0 and the empty text; the text "0" is truthy. */
  predicate FalsyAmount(a: Amount)
  {
    a == Number(0.0) || a == Text("")
  }

  /** JavaScript's `!email || !Amt || !ItemDesc`. */
  predicate MissingField(req: PaymentRequest)
  {
    req.email == "" || FalsyAmount(req.amt) || req.itemDesc == ""
  }

  /** The paymentData of controllers/paymentController.js:20-31. */
  function AdHocPaymentData(cfg: Config, req: PaymentRequest, clock1: nat, clock2: nat): PaymentData
  {
    PaymentData(cfg.merchantId, "JSON", clock1, cfg.version, NatText(clock2), req.amt, req.itemDesc,
                req.email, cfg.returnUrl, cfg.notifyUrl)
  }

  /** `initiatePayment`: 400 when a required field is falsy; otherwise the codec's bundle for the
      request's own Amt, ItemDesc and email. */
  function InitiatePayment(cfg: Config, p: Primitives, req: PaymentRequest, clock1: nat, clock2: nat)
    : (r: Result<Bundle>)
    ensures r.Err? <==> MissingField(req)
    ensures r.Err? ==> r.status == BadRequest
    ensures r.Ok? ==> r.value.tradeInfo == SesEncrypt(cfg, p, AdHocPaymentData(cfg, req, clock1, clock2))
    ensures r.Ok? ==> r.value.tradeSha == ShaEncrypt(cfg, p, r.value.tradeInfo)
    ensures r.Ok? ==> r.value.merchantId == cfg.merchantId && r.value.version == cfg.version
                      && r.value.payGateway == cfg.payGateway
  {
    if MissingField(req) then Err(BadRequest)
    else Ok(PaymentCodec.InitiatePayment(cfg, p, AdHocPaymentData(cfg, req, clock1, clock2)))
  }

  /** What the gateway reads from an ad-hoc payment's trade string: the decimal clock reading as
      MerchantOrderNo, and Amt, ItemDesc and Email as the request gave them. */
  lemma AdHocTradeString(cfg: Config, p: Primitives, req: PaymentRequest, clock1: nat, clock2: nat)
    requires '&' !in cfg.merchantId && '&' !in cfg.version && '&' !in AmountText(p, req.amt)
    ensures ParseDataChain(GenDataChain(cfg, p, AdHocPaymentData(cfg, req, clock1, clock2)))
         == Some(ChainView(cfg.merchantId, NatText(clock1), cfg.version, "JSON", NatText(clock2),
                           AmountText(p, req.amt), cfg.notifyUrl, cfg.returnUrl, req.itemDesc, req.email))
  {
    var d := AdHocPaymentData(cfg, req, clock1, clock2);
    assert '&' !in d.merchantOrderNo;
    DataChainRoundTrip(cfg, p, d);
  }

  /** A form post's Amt "0100" passes the falsiness check (only the empty text is falsy) and is
      written into the trade string as it came, leading zero included. */
  lemma TextAmountVerbatim(cfg: Config, p: Primitives, clock1: nat, clock2: nat)
    ensures InitiatePayment(cfg, p, PaymentRequest("a@b.c", Text("0"), "x"), clock1, clock2).Ok?
    ensures ChainValues(cfg, p, AdHocPaymentData(cfg, PaymentRequest("a@b.c", Text("0100"), "x"), clock1, clock2))[5]
         == "0100"
  {
    assert !FalsyAmount(Text("0"));
  }

  const ItemDescPrefix: string := "ECArtisans訂單"

  /** The paymentData of controllers/paymentController.js:51-62: the amount is the order's
      totalPrice + fare, the description names the order, the email is the signed-in user's. */
  /** `order.totalPrice + order.fare`, a Number. */
  function OrderAmount(order: Order): Amount
  {
    Number(order.totalPrice + order.fare as real)
  }

  function OrderPaymentData(cfg: Config, order: Order, userEmail: string, clock1: nat, clock2: nat): PaymentData
  {
    PaymentData(cfg.merchantId, "JSON", clock1, cfg.version, NatText(clock2),
                OrderAmount(order), ItemDescPrefix + order.id, userEmail,
                cfg.returnUrl, cfg.notifyUrl)
  }

  function HasId(id: OrderId): Order -> bool
  {
    (o: Order) => o.id == id
  }

  /** The first order with the id is the one `FindFirst` names. */
  lemma FirstWithId(orders: seq<Order>, id: OrderId, k: nat)
    requires FindFirst(orders, HasId(id)) == Some(k)
    ensures forall i | 0 <= i < |orders| && orders[i].id == id && (forall j | 0 <= j < i :: orders[j].id != id)
              :: i == k
  {
  }

  /** `initiateOrderPayment`: 404 when no order has the id; otherwise the bundle for that order. */
  function InitiateOrderPayment(cfg: Config, p: Primitives, orders: seq<Order>, req: OrderPaymentRequest,
                                userEmail: string, clock1: nat, clock2: nat): (r: Result<Bundle>)
    ensures r.Err? <==> (forall i | 0 <= i < |orders| :: orders[i].id != req.orderId)
    ensures r.Err? ==> r.status == NotFound
    ensures r.Ok? ==> forall i | 0 <= i < |orders| && orders[i].id == req.orderId
                                && (forall j | 0 <= j < i :: orders[j].id != req.orderId)
                        :: r.value.tradeInfo == SesEncrypt(cfg, p, OrderPaymentData(cfg, orders[i], userEmail, clock1, clock2))
    ensures r.Ok? ==> r.value.tradeSha == ShaEncrypt(cfg, p, r.value.tradeInfo)
    ensures r.Ok? ==> r.value.merchantId == cfg.merchantId && r.value.version == cfg.version
                      && r.value.payGateway == cfg.payGateway
  {
    match FindFirst(orders, HasId(req.orderId))
    case None => Err(NotFound)
    case Some(k) =>
      FirstWithId(orders, req.orderId, k);
      Ok(PaymentCodec.InitiatePayment(cfg, p, OrderPaymentData(cfg, orders[k], userEmail, clock1, clock2)))
  }

  /** The amount is computed on the server: requests that differ only in the amount the
      client sent get the same bundle. */
  lemma OrderPaymentIgnoresClientAmount(cfg: Config, p: Primitives, orders: seq<Order>, id: OrderId,
                                        a1: Option<Amount>, a2: Option<Amount>, userEmail: string, clock1: nat, clock2: nat)
    ensures InitiateOrderPayment(cfg, p, orders, OrderPaymentRequest(id, a1), userEmail, clock1, clock2)
         == InitiateOrderPayment(cfg, p, orders, OrderPaymentRequest(id, a2), userEmail, clock1, clock2)
  {
  }

  /** What the gateway reads from an order-bound trade string: Amt is the order's totalPrice + fare,
      ItemDesc names the order and Email is the user's. */
  lemma OrderTradeString(cfg: Config, p: Primitives, order: Order, userEmail: string, clock1: nat, clock2: nat)
    requires '&' !in cfg.merchantId && '&' !in cfg.version
    requires '&' !in AmountText(p, OrderAmount(order))
    ensures ParseDataChain(GenDataChain(cfg, p, OrderPaymentData(cfg, order, userEmail, clock1, clock2)))
         == Some(ChainView(cfg.merchantId, NatText(clock1), cfg.version, "JSON", NatText(clock2),
                           AmountText(p, OrderAmount(order)), cfg.notifyUrl, cfg.returnUrl,
                           ItemDescPrefix + order.id, userEmail))
  {
    var d := OrderPaymentData(cfg, order, userEmail, clock1, clock2);
    assert '&' !in d.merchantOrderNo;
    DataChainRoundTrip(cfg, p, d);
  }

  /** An order with totalPrice 500 and fare 30 is charged "530". */
  lemma OrderAmountExample(cfg: Config, p: Primitives, order: Order, userEmail: string, clock1: nat, clock2: nat)
    requires order.totalPrice == 500.0 && order.fare == 30
    ensures ChainValues(cfg, p, OrderPaymentData(cfg, order, userEmail, clock1, clock2))[5] == "530"
  {
    assert (530.0).Floor == 530;
    assert NatText(530) == NatText(53) + ['0'];
    assert NatText(53) == NatText(5) + ['3'];
  }

  // ---- the gateway notification ----

  function HasMerchantOrderNo(m: string): Order -> bool
  {
    (o: Order) => o.merchantOrderNo == Some(m)
  }

  /** The store after `findOneAndUpdate({ MerchantOrderNo }, { TradeNo, PayTime, state: 1 })`:
      the first order with that MerchantOrderNo overwritten, or no change when none has it. */
  function Notified(orders: seq<Order>, r: TradeResult): seq<Order>
  {
    match FindFirst(orders, HasMerchantOrderNo(r.merchantOrderNo))
    case None => orders
    case Some(i) => orders[i := orders[i].(tradeNo := Some(r.tradeNo), payTime := Some(r.payTime), state := 1)]
  }

  /** The matched order gets the notification's TradeNo and PayTime and state 1; every other order is unchanged. */
  lemma NotifiedMatch(orders: seq<Order>, r: TradeResult, i: nat)
    requires i < |orders| && orders[i].merchantOrderNo == Some(r.merchantOrderNo)
    requires forall j | 0 <= j < i :: orders[j].merchantOrderNo != Some(r.merchantOrderNo)
    ensures |Notified(orders, r)| == |orders|
    ensures Notified(orders, r)[i] == orders[i].(tradeNo := Some(r.tradeNo), payTime := Some(r.payTime), state := 1)
    ensures forall j | 0 <= j < |orders| && j != i :: Notified(orders, r)[j] == orders[j]
  {
    assert HasMerchantOrderNo(r.merchantOrderNo)(orders[i]);
  }

  lemma NotifiedNoMatch(orders: seq<Order>, r: TradeResult)
    requires forall j | 0 <= j < |orders| :: orders[j].merchantOrderNo != Some(r.merchantOrderNo)
    ensures Notified(orders, r) == orders
  {
  }

  /** The update writes the notification's own values, so a redelivered notification
      leaves the store as the first delivery left it. */
  lemma NotifiedIdempotent(orders: seq<Order>, r: TradeResult)
    ensures Notified(Notified(orders, r), r) == Notified(orders, r)
  {
    var once := Notified(orders, r);
    match FindFirst(orders, HasMerchantOrderNo(r.merchantOrderNo))
    case None =>
    case Some(i) =>
      forall j | 0 <= j < i ensures once[j].merchantOrderNo != Some(r.merchantOrderNo) {
        assert !HasMerchantOrderNo(r.merchantOrderNo)(orders[j]);
      }
      assert HasMerchantOrderNo(r.merchantOrderNo)(orders[i]);
      NotifiedMatch(once, r, i);
      assert Notified(once, r) == once;
  }

  /** There is no compare-and-set on the state: a paid order is overwritten by a later
      notification that carries another TradeNo. */
  lemma NotifiedOverwritesPaidOrder(order: Order, r: TradeResult)
    requires order.state == 1 && order.merchantOrderNo == Some(r.merchantOrderNo)
    requires order.tradeNo != Some(r.tradeNo)
    ensures Notified([order], r)[0].tradeNo == Some(r.tradeNo) != order.tradeNo
  {
    NotifiedMatch([order], r, 0);
  }

  /** The handler's answers: the 200 acknowledgement carrying the decrypted Result, sent as soon
      as it is decrypted, and the error raised afterwards when no order matched. */
  datatype NotifyOutcome = NotifyOutcome(ack: Option<TradeResult>, error: Option<nat>)

  /** `handlePaymentResult`: decrypt the notification, acknowledge it, then overwrite the matching order. */
  method HandlePaymentResult(store: OrderStore, cfg: Config, p: Primitives, tradeInfo: string)
    returns (out: NotifyOutcome)
    modifies store
    ensures SesDecrypt(cfg, p, tradeInfo).None? ==> out == NotifyOutcome(None, Some(ServerError))
    ensures SesDecrypt(cfg, p, tradeInfo).None? ==> store.orders == old(store.orders)
    ensures SesDecrypt(cfg, p, tradeInfo).Some? ==>
      var r := SesDecrypt(cfg, p, tradeInfo).value;
      && out.ack == Some(r)
      && store.orders == Notified(old(store.orders), r)
      && (out.error == Some(NotFound) <==> forall j | 0 <= j < |old(store.orders)| :: old(store.orders)[j].merchantOrderNo != Some(r.merchantOrderNo))
      && (out.error.Some? ==> out.error == Some(NotFound))
  {
    var decrypted := SesDecrypt(cfg, p, tradeInfo);
    if decrypted.None? {
      // JSON.parse or the destructuring of `Result` throws before anything is sent.
      return NotifyOutcome(None, Some(ServerError));
    }
    var r := decrypted.value;
    // The acknowledgement goes out first, whatever the lookup finds.
    var ack := Some(r);
    var hit := FindFirst(store.orders, HasMerchantOrderNo(r.merchantOrderNo));
    if hit.None? {
      out := NotifyOutcome(ack, Some(NotFound));
    } else {
      var i := hit.value;
      var order := store.orders[i];
      store.orders := store.orders[i := order.(tradeNo := Some(r.tradeNo), payTime := Some(r.payTime), state := 1)];
      out := NotifyOutcome(ack, None);
    }
    if hit.Some? {
      assert HasMerchantOrderNo(r.merchantOrderNo)(old(store.orders)[hit.value]);
    }
  }
}
