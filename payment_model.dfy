/** The `Payment` collection: one gateway order a buyer opened to unlock a seller's contact. */
module PaymentModel {
  import opened Common
  import opened Collections

  datatype PaymentStatus = Created | Paid | Failed | Refunded

  function StatusName(s: PaymentStatus): string
  {
    match s
    case Created => "created"
    case Paid => "paid"
    case Failed => "failed"
    case Refunded => "refunded"
  }

  /** The schema's enum validator on `status`: exactly the four names are accepted. */
  function ParseStatus(t: string): (r: Option<PaymentStatus>)
    ensures r.Some? ==> StatusName(r.value) == t
    ensures forall s :: StatusName(s) == t ==> r == Some(s)
  {
    if t == "created" then Some(Created)
    else if t == "paid" then Some(Paid)
    else if t == "failed" then Some(Failed)
    else if t == "refunded" then Some(Refunded)
    else None
  }

  const DEFAULT_CURRENCY: string := "INR"
  const DEFAULT_PURPOSE: string := "seller_contact_unlock"

  /** The gateway's identifiers: the order id at creation, the payment id and signature once verified. */
  datatype GatewayRef = GatewayRef(orderId: string, paymentId: Option<string>, signature: Option<string>)

  /** A payment document; `amount` is in paise, the timestamps in milliseconds. */
  datatype Payment = Payment(id: Id, buyer: Id, property: Id, razorpay: GatewayRef, amount: int,
                             currency: string, status: PaymentStatus, purpose: string,
                             createdAt: int, updatedAt: int)

  /** The document has an id, and the schema's `required` checks hold: buyer, property and the
      gateway order id are set. */
  predicate PaymentValid(p: Payment)
  {
    p.id != [] && p.buyer != [] && p.property != [] && p.razorpay.orderId != []
  }

  /** `Payment.create`: a new document with the schema's defaults for everything not given. */
  function NewPayment(id: Id, buyer: Id, property: Id, orderId: string, amount: int,
                      purpose: Option<string>, now: int): (p: Payment)
    ensures p.status == Created && p.currency == DEFAULT_CURRENCY
    ensures p.purpose == (if purpose.Some? then purpose.value else DEFAULT_PURPOSE)
    ensures p.razorpay.paymentId.None? && p.razorpay.signature.None?
    ensures PaymentValid(p) <==> id != [] && buyer != [] && property != [] && orderId != []
  {
    Payment(id, buyer, property, GatewayRef(orderId, None, None), amount, DEFAULT_CURRENCY, Created,
            if purpose.Some? then purpose.value else DEFAULT_PURPOSE, now, now)
  }

  predicate IsOrder(p: Payment, orderId: string, buyer: Id, property: Id)
  {
    p.razorpay.orderId == orderId && p.buyer == buyer && p.property == property
  }

  /** The filter of `Payment.findOneAndUpdate`: the first payment for this order, buyer and property. */
  function FindOrder(ps: seq<Payment>, orderId: string, buyer: Id, property: Id): (r: Option<nat>)
    ensures r.Some? ==> r.value < |ps| && IsOrder(ps[r.value], orderId, buyer, property)
    ensures r.None? <==> forall k :: 0 <= k < |ps| ==> !IsOrder(ps[k], orderId, buyer, property)
  {
    FirstIndex(ps, p => IsOrder(p, orderId, buyer, property))
  }

  /** The update of `Payment.findOneAndUpdate`: the gateway payment id and signature are stored and
      the status becomes "paid", whatever it was; the timestamps move `updatedAt`. */
  function MarkPaid(p: Payment, paymentId: string, signature: string, now: int): (q: Payment)
    ensures q.status == Paid && q.razorpay.paymentId == Some(paymentId) && q.razorpay.signature == Some(signature)
    ensures q.(razorpay := p.razorpay, status := p.status, updatedAt := p.updatedAt) == p
  {
    p.(razorpay := p.razorpay.(paymentId := Some(paymentId), signature := Some(signature)),
       status := Paid, updatedAt := now)
  }

  /** Marking an already-paid payment again changes nothing but the gateway fields and `updatedAt`. */
  lemma MarkPaidTwice(p: Payment, paymentId: string, signature: string, now1: int, now2: int)
    ensures MarkPaid(MarkPaid(p, paymentId, signature, now1), paymentId, signature, now2)
         == MarkPaid(p, paymentId, signature, now2)
  {
  }
}
