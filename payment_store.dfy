/** The client's payment state: the order being paid and the buyer's payment history. */
module PaymentStore {
  import opened Common

  /** What creating an order resolves with; every field but `success` may be missing. */
  datatype OrderResponse = OrderResponse(
    success: bool, alreadyUnlocked: Option<bool>, message: Option<string>, orderId: Option<string>,
    amount: Option<int>, currency: Option<string>, paymentId: Option<string>, keyId: Option<string>)

  datatype PaymentStatus = Created | Paid | Failed

  /** One entry of the buyer's payment history. */
  datatype PaymentItem = PaymentItem(
    id: Id, amount: int, status: PaymentStatus, purpose: string, propertyId: Id, propertyTitle: string,
    createdAt: string)

  class PaymentState {
    var isLoading: bool
    var payments: seq<PaymentItem>
    var currentOrder: Option<OrderResponse>

    constructor ()
      ensures !isLoading && payments == [] && currentOrder.None?
    {
      isLoading := false;
      payments := [];
      currentOrder := None;
    }

    /** `createOrder`: on success the order becomes the current one and is returned; on failure
        the current order is kept and the rejection is passed on. */
    method CreateOrder(response: Outcome<OrderResponse>) returns (r: Outcome<OrderResponse>)
      modifies this
      ensures r == response
      ensures response.Resolved? ==> currentOrder == Some(response.value)
      ensures response.Rejected? ==> currentOrder == old(currentOrder)
      ensures payments == old(payments) && !isLoading
    {
      isLoading := true;
      if response.Resolved? {
        currentOrder, isLoading := Some(response.value), false;
      } else {
        isLoading := false;
      }
      r := response;
    }

    /** `verifyPayment`: a verified payment closes the current order; a failed verification
        keeps it, so the buyer can retry, and is rethrown (`rethrown` is true). */
    method VerifyPayment(succeeded: bool) returns (rethrown: bool)
      modifies this
      ensures rethrown <==> !succeeded
      ensures succeeded ==> currentOrder.None?
      ensures !succeeded ==> currentOrder == old(currentOrder)
      ensures payments == old(payments) && !isLoading
    {
      isLoading := true;
      if succeeded {
        currentOrder, isLoading := None, false;
        rethrown := false;
      } else {
        isLoading := false;
        rethrown := true;
      }
    }

    /** `fetchMyPayments`: the history is replaced on success and kept on failure. */
    method FetchMyPayments(response: Outcome<seq<PaymentItem>>) returns (rethrown: bool)
      modifies this
      ensures rethrown <==> response.Rejected?
      ensures response.Resolved? ==> payments == response.value
      ensures response.Rejected? ==> payments == old(payments)
      ensures currentOrder == old(currentOrder) && !isLoading
    {
      isLoading := true;
      if response.Resolved? {
        payments, isLoading := response.value, false;
        rethrown := false;
      } else {
        isLoading := false;
        rethrown := true;
      }
    }
  }
}
