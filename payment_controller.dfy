/** The paid contact-unlock workflow: a buyer opens a gateway order for a property, then submits
    the gateway's signature, which marks the payment paid and grants a 30-day unlock. */
module PaymentController {
  import opened Common
  import opened Text
  import opened Collections
  import opened UserModel
  import opened PropertyModel
  import opened PaymentModel
  import opened UnlockModel
  import opened RazorpayService
  import opened ErrorMiddleware
  import opened Store

  const PROPERTY_ID_REQUIRED: ApiError := ApiError(400, "Property ID is required.")
  const NOT_ACTIVE: ApiError := ApiError(404, "Property not found or no longer active.")
  const OWN_PROPERTY: ApiError := ApiError(400, "You cannot unlock your own property contact.")
  const FIELDS_REQUIRED: ApiError := ApiError(400, "All payment fields are required.")
  const BAD_SIGNATURE: ApiError := ApiError(400, "Payment verification failed. Invalid signature.")
  const PAYMENT_NOT_FOUND: ApiError := ApiError(404, "Payment record not found.")
  /** A gateway failure is not an `AppError`: production hides it behind the generic 500. */
  const GATEWAY_FAILED: ApiError := INTERNAL_ERROR
  const ORDER_ID_REQUIRED: string := "Path `razorpay.orderId` is required."
  const VERIFIED_MESSAGE: string := "Payment verified. Seller contact is now unlocked."

  const DEFAULT_UNLOCK_PRICE: int := 9900

  /** `UNLOCK_PRICE`: `parseInt` of the environment value, falling back to 9900 paise when it is
      absent, unparsable or zero. */
  function UnlockPrice(env: Option<string>): (price: int)
    ensures price != 0
    ensures env.None? ==> price == DEFAULT_UNLOCK_PRICE
  {
    OrDefault(if env.Some? then ParseInt(env.value) else None, DEFAULT_UNLOCK_PRICE)
  }

  /** A price written in decimal is taken as it is, except zero. */
  lemma UnlockPriceFromText(n: int)
    ensures UnlockPrice(Some(IntText(n))) == (if n == 0 then DEFAULT_UNLOCK_PRICE else n)
  {
    IntTextRoundTrip(n);
  }

  /** The gateway receipt: "unlock_<buyer>_<property>" cut to 40 characters. */
  function Receipt(buyer: Id, propertyId: Id): (r: string)
    ensures |r| <= 40
    ensures StartsWith("unlock_" + buyer + "_" + propertyId, r)
    ensures |"unlock_" + buyer + "_" + propertyId| <= 40 ==> r == "unlock_" + buyer + "_" + propertyId
  {
    var full := "unlock_" + buyer + "_" + propertyId;
    if |full| <= 40 then full else full[..40]
  }

  /** The 200 reply for an existing unlock, or the 201 reply with the new order. */
  datatype OrderReply =
    | AlreadyUnlocked
    | OrderCreated(orderId: string, amount: int, currency: string, paymentId: Id, keyId: Option<string>)

  /** The checks `createPaymentOrder` makes before it calls the gateway, in order; `None` when all
      of them pass. */
  function OrderGate(properties: seq<Property>, unlocks: seq<Unlock>, buyer: Id, propertyId: Id,
                     now: int): Option<Result<OrderReply>>
  {
    if propertyId == [] then Some(Err(PROPERTY_ID_REQUIRED))
    else match FindProperty(properties, propertyId)
      case None => Some(Err(NOT_ACTIVE))
      case Some(k) =>
        if properties[k].status != "active" then Some(Err(NOT_ACTIVE))
        else if properties[k].seller == buyer then Some(Err(OWN_PROPERTY))
        else if FindActive(unlocks, buyer, propertyId, now).Some? then Some(Ok(AlreadyUnlocked))
        else None
  }

  /** The gate's outcome for each case: a missing id fails first whatever the stores hold; then an
      absent or inactive property, then the buyer's own property, then an unexpired unlock. */
  lemma OrderGateCases(properties: seq<Property>, unlocks: seq<Unlock>, buyer: Id, propertyId: Id, now: int)
    ensures var g := OrderGate(properties, unlocks, buyer, propertyId, now);
      (propertyId == [] ==> g == Some(Err(PROPERTY_ID_REQUIRED))) &&
      (propertyId != [] && FindProperty(properties, propertyId).None? ==> g == Some(Err(NOT_ACTIVE))) &&
      (g == None <==>
         propertyId != [] && FindProperty(properties, propertyId).Some? &&
         properties[FindProperty(properties, propertyId).value].status == "active" &&
         properties[FindProperty(properties, propertyId).value].seller != buyer &&
         FindActive(unlocks, buyer, propertyId, now).None?) &&
      (g == Some(Ok(AlreadyUnlocked)) ==> exists u :: u in unlocks && IsPair(u, buyer, propertyId) && u.expiresAt > now)
  {
  }

  /** `createPaymentOrder` for a caller the route has authenticated as a buyer. `gateway` stands
      for the gateway's order API: the id of the order it opened, or `None` when it fails. */
  method CreatePaymentOrder(db: Database, caller: User, propertyId: Id, priceEnv: Option<string>,
                            keyId: Option<string>, gateway: OrderOptions -> Option<string>,
                            now: int, newPaymentId: Id) returns (r: Result<OrderReply>)
    requires db.Valid() && caller.role == Buyer && caller.id != []
    requires newPaymentId != [] && forall k :: 0 <= k < |db.payments| ==> db.payments[k].id != newPaymentId
    modifies db
    ensures db.Valid()
    ensures db.users == old(db.users) && db.properties == old(db.properties) && db.unlocks == old(db.unlocks)
    ensures var g := OrderGate(old(db.properties), old(db.unlocks), caller.id, propertyId, now);
      g.Some? ==> r == g.value && db.payments == old(db.payments)
    ensures var g := OrderGate(old(db.properties), old(db.unlocks), caller.id, propertyId, now);
      var price := UnlockPrice(priceEnv);
      var order := gateway(OrderOptionsFor(price, Receipt(caller.id, propertyId)));
      g.None? ==>
        (order.None? ==> r == Err(GATEWAY_FAILED) && db.payments == old(db.payments)) &&
        (order == Some([]) ==> r == Err(ValidationFailure([ORDER_ID_REQUIRED])) && db.payments == old(db.payments)) &&
        (order.Some? && order.value != [] ==>
           r == Ok(OrderCreated(order.value, price, "INR", newPaymentId, keyId)) &&
           db.payments == old(db.payments) +
             [NewPayment(newPaymentId, caller.id, propertyId, order.value, price, Some(DEFAULT_PURPOSE), now)])
  {
    var gate := OrderGate(db.properties, db.unlocks, caller.id, propertyId, now);
    if gate.Some? {
      return gate.value;
    }
    var price := UnlockPrice(priceEnv);
    var receipt := Receipt(caller.id, propertyId);
    var order := gateway(OrderOptionsFor(price, receipt));
    if order.None? {
      return Err(GATEWAY_FAILED);
    }
    var payment := NewPayment(newPaymentId, caller.id, propertyId, order.value, price, Some(DEFAULT_PURPOSE), now);
    if !PaymentValid(payment) {
      return Err(ValidationFailure([ORDER_ID_REQUIRED]));
    }
    AppendKeepsLedger(db.payments, db.unlocks, payment);
    db.payments := db.payments + [payment];
    r := Ok(OrderCreated(order.value, price, DEFAULT_CURRENCY, payment.id, keyId));
  }

  /** The checks `verifyPayment` makes before it touches a store; `None` when they pass. */
  function VerifyGate(hmac: (string, string) -> string, secret: string, orderId: string,
                      paymentId: string, signature: string, propertyId: Id): Option<ApiError>
  {
    if orderId == [] || paymentId == [] || signature == [] || propertyId == [] then Some(FIELDS_REQUIRED)
    else if !VerifySignature(hmac, secret, orderId, paymentId, signature) then Some(BAD_SIGNATURE)
    else None
  }

  /** `verifyPayment` for an authenticated buyer. The payment is marked paid before the property is
      looked up, so a property deleted in between leaves a paid payment without an unlock. */
  method VerifyPayment(db: Database, caller: User, orderId: string, paymentId: string, signature: string,
                       propertyId: Id, hmac: (string, string) -> string, secret: string, now: int,
                       newUnlockId: Id) returns (r: Result<string>)
    requires db.Valid() && caller.role == Buyer
    modifies db
    ensures db.Valid()
    ensures db.users == old(db.users) && db.properties == old(db.properties)
    ensures var g := VerifyGate(hmac, secret, orderId, paymentId, signature, propertyId);
      g.Some? ==> r == Err(g.value) && db.payments == old(db.payments) && db.unlocks == old(db.unlocks)
    ensures (VerifyGate(hmac, secret, orderId, paymentId, signature, propertyId).None? &&
             FindOrder(old(db.payments), orderId, caller.id, propertyId).None?) ==>
        r == Err(PAYMENT_NOT_FOUND) && db.payments == old(db.payments) && db.unlocks == old(db.unlocks)
    ensures (VerifyGate(hmac, secret, orderId, paymentId, signature, propertyId).None? &&
             FindOrder(old(db.payments), orderId, caller.id, propertyId).Some?) ==>
        var i := FindOrder(old(db.payments), orderId, caller.id, propertyId).value;
        var p := old(db.payments)[i];
        db.payments == old(db.payments)[i := MarkPaid(p, paymentId, signature, now)] &&
        match FindProperty(db.properties, propertyId)
        case None => r == Err(PROPERTY_NOT_FOUND) && db.unlocks == old(db.unlocks)
        case Some(k) =>
          r == Ok(VERIFIED_MESSAGE) &&
          db.unlocks == Upsert(old(db.unlocks), caller.id, propertyId, db.properties[k].seller, p.id,
                               ExpiryFrom(now), now, newUnlockId)
  {
    var gate := VerifyGate(hmac, secret, orderId, paymentId, signature, propertyId);
    if gate.Some? {
      return Err(gate.value);
    }
    var found := FindOrder(db.payments, orderId, caller.id, propertyId);
    if found.None? {
      return Err(PAYMENT_NOT_FOUND);
    }
    var i := found.value;
    var payment := MarkPaid(db.payments[i], paymentId, signature, now);
    MarkPaidKeepsLedger(db.payments, db.unlocks, i, paymentId, signature, now);
    db.payments := db.payments[i := payment];
    var k := FindProperty(db.properties, propertyId);
    if k.None? {
      return Err(PROPERTY_NOT_FOUND);
    }
    var seller := db.properties[k.value].seller;
    UpsertKeepsLedger(db.payments, db.unlocks, i, seller, ExpiryFrom(now), now, newUnlockId);
    db.unlocks := Upsert(db.unlocks, caller.id, propertyId, seller, payment.id, ExpiryFrom(now), now, newUnlockId);
    r := Ok(VERIFIED_MESSAGE);
  }

  /** `getMyPayments`: the caller's payments, newest first, with their count. */
  function MyPayments(payments: seq<Payment>, buyer: Id): (r: (nat, seq<Payment>))
    ensures r.0 == |r.1|
    ensures SortedDesc(r.1, (p: Payment) => p.createdAt)
    ensures forall p :: p in r.1 <==> p in payments && p.buyer == buyer
    ensures forall p :: multiset(r.1)[p] == if p.buyer == buyer then multiset(payments)[p] else 0
  {
    var mine := Filter(payments, (p: Payment) => p.buyer == buyer);
    var sorted := SortDesc(mine, (p: Payment) => p.createdAt);
    forall p ensures p in sorted <==> p in payments && p.buyer == buyer {
      FilterMembers(payments, (p: Payment) => p.buyer == buyer, p);
      assert p in sorted <==> p in multiset(sorted);
    }
    forall p ensures multiset(sorted)[p] == if p.buyer == buyer then multiset(payments)[p] else 0 {
      FilterMultiplicity(payments, (p: Payment) => p.buyer == buyer, p);
    }
    (|sorted|, sorted)
  }

  /** The listing fields `populate("property", "title location.city propertyType")` brings in. */
  datatype PaymentListing = PaymentListing(id: Id, title: string, city: string, propertyType: string)

  /** A payment as `getMyPayments` replies with it: its `property` replaced by the selected listing
      fields, or by `null` once that listing has been deleted. */
  datatype PaymentEntry = PaymentEntry(payment: Payment, property: Option<PaymentListing>)

  /** The populated `property` of a payment: `null` exactly when no listing has the id. */
  function PaymentListingOf(properties: seq<Property>, id: Id): (r: Option<PaymentListing>)
    ensures r.None? <==> forall k :: 0 <= k < |properties| ==> properties[k].id != id
    ensures r.Some? ==> exists k :: 0 <= k < |properties| && properties[k].id == id &&
                                  r.value == PaymentListing(id, properties[k].title, properties[k].location.city, properties[k].propertyType)
  {
    match FindProperty(properties, id)
    case None => None
    case Some(k) =>
      var p := properties[k];
      Some(PaymentListing(p.id, p.title, p.location.city, p.propertyType))
  }

  /** The `getMyPayments` reply: the caller's payments in `MyPayments` order, each with its
      listing populated. */
  function GetMyPayments(payments: seq<Payment>, properties: seq<Property>, buyer: Id): (r: (nat, seq<PaymentEntry>))
    ensures r.0 == |r.1| == MyPayments(payments, buyer).0
    ensures forall i :: 0 <= i < |r.1| ==>
      r.1[i].payment == MyPayments(payments, buyer).1[i] &&
      r.1[i].property == PaymentListingOf(properties, r.1[i].payment.property)
  {
    var mine := MyPayments(payments, buyer).1;
    (|mine|, seq(|mine|, i requires 0 <= i < |mine| => PaymentEntry(mine[i], PaymentListingOf(properties, mine[i].property))))
  }

  /** Appending a valid payment with a fresh id keeps the ledger invariant. */
  lemma AppendKeepsLedger(payments: seq<Payment>, unlocks: seq<Unlock>, p: Payment)
    requires LedgerValid(payments, unlocks) && PaymentValid(p)
    requires forall k :: 0 <= k < |payments| ==> payments[k].id != p.id
    ensures LedgerValid(payments + [p], unlocks)
  {
    var ps := payments + [p];
    forall k | 0 <= k < |unlocks| ensures PaidFor(ps, unlocks[k]) {
      var j :| 0 <= j < |payments| && payments[j].id == unlocks[k].payment && payments[j].status == Paid &&
        payments[j].buyer == unlocks[k].buyer && payments[j].property == unlocks[k].property;
      assert ps[j] == payments[j];
    }
  }

  /** Marking a payment paid keeps the ledger invariant: ids, buyer and property do not change and
      a paid payment stays paid. */
  lemma MarkPaidKeepsLedger(payments: seq<Payment>, unlocks: seq<Unlock>, i: nat, paymentId: string,
                            signature: string, now: int)
    requires LedgerValid(payments, unlocks) && i < |payments|
    ensures LedgerValid(payments[i := MarkPaid(payments[i], paymentId, signature, now)], unlocks)
  {
    var ps := payments[i := MarkPaid(payments[i], paymentId, signature, now)];
    forall k | 0 <= k < |unlocks| ensures PaidFor(ps, unlocks[k]) {
      var j :| 0 <= j < |payments| && payments[j].id == unlocks[k].payment && payments[j].status == Paid &&
        payments[j].buyer == unlocks[k].buyer && payments[j].property == unlocks[k].property;
      assert ps[j].id == payments[j].id && ps[j].status == Paid;
    }
  }

  /** Upserting the unlock for a paid payment keeps the ledger invariant. */
  lemma UpsertKeepsLedger(payments: seq<Payment>, unlocks: seq<Unlock>, i: nat, seller: Id,
                          expiresAt: int, now: int, newId: Id)
    requires LedgerValid(payments, unlocks) && i < |payments| && payments[i].status == Paid && seller != []
    ensures LedgerValid(payments, Upsert(unlocks, payments[i].buyer, payments[i].property, seller,
                                         payments[i].id, expiresAt, now, newId))
  {
    var p := payments[i];
    var us := Upsert(unlocks, p.buyer, p.property, seller, p.id, expiresAt, now, newId);
    UpsertKeepsUnique(unlocks, p.buyer, p.property, seller, p.id, expiresAt, now, newId);
    forall k | 0 <= k < |us| ensures UnlockValid(us[k]) && PaidFor(payments, us[k]) {
      if k < |unlocks| && us[k] == unlocks[k] {
      } else {
        assert us[k].payment == p.id && IsPair(us[k], p.buyer, p.property);
      }
    }
  }
}
