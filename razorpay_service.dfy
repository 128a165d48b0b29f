/** The payment gateway service: the order request and the signature check. The HMAC-SHA256 of
    RFC 2104 is a parameter `hmac(key, message)` giving the lower-case hex digest. */
module RazorpayService {
  import opened Common
  import opened Text

  /** The options `createOrder` sends to the gateway. */
  datatype OrderOptions = OrderOptions(amount: int, currency: string, receipt: string, paymentCapture: int)

  /** `createOrder(amount, receipt)`: amount (in paise) and receipt unchanged, currency
      "INR", captured automatically. */
  function OrderOptionsFor(amount: int, receipt: string): (o: OrderOptions)
    ensures o.amount == amount && o.receipt == receipt
    ensures o.currency == "INR" && o.paymentCapture == 1
  {
    OrderOptions(amount, "INR", receipt, 1)
  }

  /** The message that is signed: `${orderId}|${paymentId}`. */
  function SignedPayload(orderId: string, paymentId: string): string
  {
    orderId + "|" + paymentId
  }

  /** The payload determines the order id and payment id when neither contains "|". */
  lemma PayloadSplits(orderId: string, paymentId: string)
    requires '|' !in orderId && '|' !in paymentId
    ensures Split(SignedPayload(orderId, paymentId), '|') == [orderId, paymentId]
  {
    SplitJoin([orderId, paymentId], '|');
    assert Join([orderId, paymentId], ['|']) == SignedPayload(orderId, paymentId);
  }

  /** `verifySignature`: true exactly when the signature is the digest of the payload; a mismatch
      is `false`, never an error. */
  function VerifySignature(hmac: (string, string) -> string, secret: string,
                           orderId: string, paymentId: string, signature: string): (ok: bool)
    ensures ok <==> signature == hmac(secret, SignedPayload(orderId, paymentId))
  {
    hmac(secret, orderId + "|" + paymentId) == signature
  }

  /** Retrying never helps: a signature rejected once is rejected for the same inputs every time,
      and the only signature accepted is the digest itself. */
  lemma SignatureDeterministic(hmac: (string, string) -> string, secret: string,
                               orderId: string, paymentId: string, s1: string, s2: string)
    requires VerifySignature(hmac, secret, orderId, paymentId, s1)
    requires VerifySignature(hmac, secret, orderId, paymentId, s2)
    ensures s1 == s2
  {
  }
}
