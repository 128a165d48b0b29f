/** Contact disclosure: read-only queries over the unlocks, the users and the clock. */
module UnlockController {
  import opened Common
  import opened Collections
  import opened UserModel
  import opened PropertyModel
  import opened UnlockModel

  const NOT_UNLOCKED: ApiError :=
    ApiError(403, "You have not unlocked this seller's contact yet. Please complete payment first.")
  const SELLER_GONE: ApiError := ApiError(404, "Seller account no longer exists.")

  /** The seller fields the query selects: name, email and phone, nothing else. */
  datatype SellerContact = SellerContact(name: string, email: string, phone: string)

  datatype ContactReply = ContactReply(seller: SellerContact, unlockedUntil: int)

  function ContactOf(u: User): (c: SellerContact)
    ensures c.name == u.name && c.email == u.email && c.phone == u.phone
  {
    SellerContact(u.name, u.email, u.phone)
  }

  /** `getSellerContact` for buyer `buyer`, property `propertyId`, at time `now`. The seller is
      the one the unlock recorded when it was granted. */
  function GetSellerContact(unlocks: seq<Unlock>, users: seq<User>, buyer: Id, propertyId: Id, now: int)
    : (r: Result<ContactReply>)
    ensures r == Err(NOT_UNLOCKED) <==> FindActive(unlocks, buyer, propertyId, now).None?
    ensures r.Ok? ==> exists u :: u in unlocks && IsPair(u, buyer, propertyId) && now < u.expiresAt &&
                        r.value.unlockedUntil == u.expiresAt &&
                        exists k :: 0 <= k < |users| && users[k].id == u.seller && r.value.seller == ContactOf(users[k])
    ensures var a := FindActive(unlocks, buyer, propertyId, now);
      a.Some? ==> (r == Err(SELLER_GONE) <==> FindUser(users, a.value.seller).None?)
    ensures var a := FindActive(unlocks, buyer, propertyId, now);
      a.Some? && FindUser(users, a.value.seller).Some? ==>
        r == Ok(ContactReply(ContactOf(users[FindUser(users, a.value.seller).value]), a.value.expiresAt))
  {
    match FindActive(unlocks, buyer, propertyId, now)
    case None => Err(NOT_UNLOCKED)
    case Some(u) =>
      match FindUser(users, u.seller)
      case None => Err(SELLER_GONE)
      case Some(k) => Ok(ContactReply(ContactOf(users[k]), u.expiresAt))
  }

  /** Access ends at the expiry instant: an unlock whose `expiresAt` equals `now` is refused. */
  lemma ExpiryIsStrict(u: Unlock, users: seq<User>, now: int)
    requires u.expiresAt == now
    ensures GetSellerContact([u], users, u.buyer, u.property, now) == Err(NOT_UNLOCKED)
  {
  }

  /** A buyer who has just verified a payment can read the contact of the seller recorded in the
      grant until the grant expires, 30 days later, and not from then on. */
  lemma {:induction false} GrantThenContact(unlocks: seq<Unlock>, users: seq<User>, buyer: Id, propertyId: Id,
                                            seller: Id, payment: Id, now: int, newId: Id, t: int)
    requires UniquePairs(unlocks)
    ensures var r := GetSellerContact(Upsert(unlocks, buyer, propertyId, seller, payment, ExpiryFrom(now), now, newId),
                                      users, buyer, propertyId, t);
      (t < now + 2592000000 ==>
         match FindUser(users, seller)
         case None => r == Err(SELLER_GONE)
         case Some(k) => r == Ok(ContactReply(ContactOf(users[k]), now + 2592000000))) &&
      (t >= now + 2592000000 ==> r == Err(NOT_UNLOCKED))
  {
    UpsertGrants(unlocks, buyer, propertyId, seller, payment, ExpiryFrom(now), now, newId, t);
  }

  /** Verifying a second payment for a pair already unlocked leaves one unlock, whose expiry is
      counted from the second verification. */
  lemma {:induction false} ReverifyRefreshes(unlocks: seq<Unlock>, users: seq<User>, buyer: Id, propertyId: Id,
                                             seller: Id, payment1: Id, now1: int, id1: Id,
                                             payment2: Id, now2: int, id2: Id, t: int)
    requires UniquePairs(unlocks)
    requires now2 <= t < now2 + 2592000000
    requires FindUser(users, seller).Some?
    ensures var r1 := Upsert(unlocks, buyer, propertyId, seller, payment1, ExpiryFrom(now1), now1, id1);
            var r2 := Upsert(r1, buyer, propertyId, seller, payment2, ExpiryFrom(now2), now2, id2);
      |r2| == |r1| && CountPair(r2, buyer, propertyId) == 1 &&
      GetSellerContact(r2, users, buyer, propertyId, t).Ok? &&
      GetSellerContact(r2, users, buyer, propertyId, t).value.unlockedUntil == now2 + 2592000000
  {
    var r1 := Upsert(unlocks, buyer, propertyId, seller, payment1, ExpiryFrom(now1), now1, id1);
    UpsertAgain(unlocks, buyer, propertyId, seller, payment1, ExpiryFrom(now1), now1, id1,
                seller, payment2, ExpiryFrom(now2), now2, id2);
    UpsertKeepsUnique(unlocks, buyer, propertyId, seller, payment1, ExpiryFrom(now1), now1, id1);
    UpsertExactlyOne(r1, buyer, propertyId, seller, payment2, ExpiryFrom(now2), now2, id2);
    GrantThenContact(r1, users, buyer, propertyId, seller, payment2, now2, id2, t);
  }

  /** `getMyUnlocks`: the caller's unexpired unlocks, newest first, with their count. */
  function GetMyUnlocks(unlocks: seq<Unlock>, buyer: Id, now: int): (r: (nat, seq<Unlock>))
    ensures r.0 == |r.1|
    ensures SortedDesc(r.1, (u: Unlock) => u.createdAt)
    ensures forall u :: u in r.1 <==> u in unlocks && u.buyer == buyer && u.expiresAt > now
    ensures forall u :: multiset(r.1)[u] == if u.buyer == buyer && u.expiresAt > now then multiset(unlocks)[u] else 0
  {
    var mine := Filter(unlocks, (u: Unlock) => u.buyer == buyer && u.expiresAt > now);
    var sorted := SortDesc(mine, (u: Unlock) => u.createdAt);
    forall u ensures u in sorted <==> u in unlocks && u.buyer == buyer && u.expiresAt > now {
      FilterMembers(unlocks, (u: Unlock) => u.buyer == buyer && u.expiresAt > now, u);
      assert u in sorted <==> u in multiset(sorted);
    }
    forall u ensures multiset(sorted)[u] == if u.buyer == buyer && u.expiresAt > now then multiset(unlocks)[u] else 0 {
      FilterMultiplicity(unlocks, (u: Unlock) => u.buyer == buyer && u.expiresAt > now, u);
    }
    (|sorted|, sorted)
  }

  /** The listing fields `populate("property", "title location.city propertyType price images")`
      brings in. */
  datatype UnlockListing = UnlockListing(id: Id, title: string, city: string, propertyType: string,
                                         price: int, images: seq<Image>)

  /** An unlock as `getMyUnlocks` replies with it: its `property` replaced by the selected listing
      fields, or by `null` once that listing has been deleted. */
  datatype UnlockEntry = UnlockEntry(unlock: Unlock, property: Option<UnlockListing>)

  /** The populated `property` of an unlock: `null` exactly when no listing has the id. */
  function UnlockListingOf(properties: seq<Property>, id: Id): (r: Option<UnlockListing>)
    ensures r.None? <==> forall k :: 0 <= k < |properties| ==> properties[k].id != id
    ensures r.Some? ==> exists k :: 0 <= k < |properties| && properties[k].id == id &&
                                  r.value == UnlockListing(id, properties[k].title, properties[k].location.city, properties[k].propertyType,
                               properties[k].price, properties[k].images)
  {
    match FindProperty(properties, id)
    case None => None
    case Some(k) =>
      var p := properties[k];
      Some(UnlockListing(p.id, p.title, p.location.city, p.propertyType, p.price, p.images))
  }

  /** The `getMyUnlocks` reply: the caller's unexpired unlocks in `GetMyUnlocks` order, each with
      its listing populated. */
  function MyUnlocksReply(unlocks: seq<Unlock>, properties: seq<Property>, buyer: Id, now: int)
    : (r: (nat, seq<UnlockEntry>))
    ensures r.0 == |r.1| == GetMyUnlocks(unlocks, buyer, now).0
    ensures forall i :: 0 <= i < |r.1| ==>
      r.1[i].unlock == GetMyUnlocks(unlocks, buyer, now).1[i] &&
      r.1[i].property == UnlockListingOf(properties, r.1[i].unlock.property)
  {
    var mine := GetMyUnlocks(unlocks, buyer, now).1;
    (|mine|, seq(|mine|, i requires 0 <= i < |mine| => UnlockEntry(mine[i], UnlockListingOf(properties, mine[i].property))))
  }
}
