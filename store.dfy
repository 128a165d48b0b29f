/** The MongoDB database the controllers share: the four collections, in insertion order, with
    the invariants the schemas, the indexes and the payment workflow maintain. */
module Store {
  import opened Common
  import opened UserModel
  import opened PropertyModel
  import opened PaymentModel
  import opened UnlockModel

  /** Some payment with the unlock's id is paid and was made by the same buyer for the same property. */
  predicate PaidFor(payments: seq<Payment>, u: Unlock)
  {
    exists j :: 0 <= j < |payments| && payments[j].id == u.payment && payments[j].status == Paid &&
      payments[j].buyer == u.buyer && payments[j].property == u.property
  }

  predicate DistinctUserIds(users: seq<User>)
  {
    forall i, j :: 0 <= i < j < |users| ==> users[i].id != users[j].id
  }

  /** The unique index on `email`. */
  predicate DistinctEmails(users: seq<User>)
  {
    forall i, j :: 0 <= i < j < |users| ==> users[i].email != users[j].email
  }

  predicate DistinctPropertyIds(ps: seq<Property>)
  {
    forall i, j :: 0 <= i < j < |ps| ==> ps[i].id != ps[j].id
  }

  predicate DistinctPaymentIds(ps: seq<Payment>)
  {
    forall i, j :: 0 <= i < j < |ps| ==> ps[i].id != ps[j].id
  }

  predicate UsersValid(users: seq<User>)
  {
    DistinctUserIds(users) && DistinctEmails(users) && forall k :: 0 <= k < |users| ==> UserValid(users[k])
  }

  predicate PropertiesValid(ps: seq<Property>)
  {
    DistinctPropertyIds(ps) && forall k :: 0 <= k < |ps| ==> PropertyValid(ps[k])
  }

  /** Every payment has a gateway order, and every unlock is unique for its pair, complete, and
      backed by a paid payment of its buyer for its property. */
  predicate LedgerValid(payments: seq<Payment>, unlocks: seq<Unlock>)
  {
    DistinctPaymentIds(payments) && (forall k :: 0 <= k < |payments| ==> PaymentValid(payments[k])) &&
    UniquePairs(unlocks) &&
    forall k :: 0 <= k < |unlocks| ==> UnlockValid(unlocks[k]) && PaidFor(payments, unlocks[k])
  }

  class Database {
    var users: seq<User>
    var properties: seq<Property>
    var payments: seq<Payment>
    var unlocks: seq<Unlock>

    ghost predicate Valid()
      reads this
    {
      UsersValid(users) && PropertiesValid(properties) && LedgerValid(payments, unlocks)
    }

    constructor()
      ensures Valid()
      ensures users == [] && properties == [] && payments == [] && unlocks == []
    {
      users := [];
      properties := [];
      payments := [];
      unlocks := [];
    }
  }

  /** A write to the user collection that leaves it valid; the other collections stay as they are. */
  method WriteUsers(db: Database, users: seq<User>)
    requires db.Valid() && UsersValid(users)
    modifies db
    ensures db.Valid()
    ensures db.properties == old(db.properties) && db.payments == old(db.payments) && db.unlocks == old(db.unlocks)
    ensures db.users == users
  {
    db.users := users;
  }
}
