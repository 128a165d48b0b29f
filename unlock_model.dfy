/** The `Unlock` collection: a buyer's paid, time-limited access to the contact of one property's seller. */
module UnlockModel {
  import opened Common
  import opened Collections

  /** Thirty days in milliseconds, the lifetime of an unlock. */
  const UNLOCK_VALIDITY_MS: int := 30 * 24 * 60 * 60 * 1000

  /** An unlock document; `createdAt`/`updatedAt` are the schema's timestamps, in milliseconds. */
  datatype Unlock = Unlock(id: Id, buyer: Id, property: Id, seller: Id, payment: Id,
                           expiresAt: int, createdAt: int, updatedAt: int)

  /** The expiry of an unlock granted at `now`: also the schema's default for `expiresAt`. */
  function ExpiryFrom(now: int): (e: int)
    ensures e - now == 2592000000
  {
    now + UNLOCK_VALIDITY_MS
  }

  /** The schema's `required` checks: buyer, property, seller and payment are all set. */
  predicate UnlockValid(u: Unlock)
  {
    u.buyer != [] && u.property != [] && u.seller != [] && u.payment != []
  }

  predicate IsPair(u: Unlock, buyer: Id, property: Id)
  {
    u.buyer == buyer && u.property == property
  }

  /** The unique compound index on (buyer, property). */
  predicate UniquePairs(us: seq<Unlock>)
  {
    forall i, j :: 0 <= i < j < |us| ==> !(us[i].buyer == us[j].buyer && us[i].property == us[j].property)
  }

  /** The number of unlocks held for (buyer, property). */
  function CountPair(us: seq<Unlock>, buyer: Id, property: Id): nat
  {
    if us == [] then 0 else (if IsPair(us[0], buyer, property) then 1 else 0) + CountPair(us[1..], buyer, property)
  }

  /** The index allows at most one unlock per pair. */
  lemma {:induction false} UniqueAtMostOne(us: seq<Unlock>, buyer: Id, property: Id)
    requires UniquePairs(us)
    ensures CountPair(us, buyer, property) <= 1
    ensures CountPair(us, buyer, property) == 1 <==> exists k :: 0 <= k < |us| && IsPair(us[k], buyer, property)
  {
    if us != [] {
      UniqueAtMostOne(us[1..], buyer, property);
      if IsPair(us[0], buyer, property) {
        assert forall k :: 0 <= k < |us[1..]| ==> !IsPair(us[1..][k], buyer, property) by {
          forall k | 0 <= k < |us[1..]| ensures !IsPair(us[1..][k], buyer, property) {
            assert us[1..][k] == us[k + 1];
          }
        }
        NoneCountZero(us[1..], buyer, property);
      } else {
        assert (exists k :: 0 <= k < |us| && IsPair(us[k], buyer, property))
            <==> (exists k :: 0 <= k < |us[1..]| && IsPair(us[1..][k], buyer, property)) by {
          forall k | 0 <= k < |us[1..]| ensures us[1..][k] == us[k + 1] { }
          if exists k :: 0 <= k < |us| && IsPair(us[k], buyer, property) {
            var k :| 0 <= k < |us| && IsPair(us[k], buyer, property);
            assert k > 0 && IsPair(us[1..][k - 1], buyer, property);
          }
        }
      }
    }
  }

  lemma {:induction false} NoneCountZero(us: seq<Unlock>, buyer: Id, property: Id)
    requires forall k :: 0 <= k < |us| ==> !IsPair(us[k], buyer, property)
    ensures CountPair(us, buyer, property) == 0
  {
    if us != [] {
      assert forall k :: 0 <= k < |us[1..]| ==> us[1..][k] == us[k + 1];
      NoneCountZero(us[1..], buyer, property);
    }
  }

  /** `Unlock.findOne({ buyer, property, expiresAt: { $gt: now } })`: an unlock for the pair that
      expires strictly after `now`, if there is one. */
  function FindActive(us: seq<Unlock>, buyer: Id, property: Id, now: int): (r: Option<Unlock>)
    ensures r.Some? ==> r.value in us && IsPair(r.value, buyer, property) && r.value.expiresAt > now
    ensures r.None? <==> forall k :: 0 <= k < |us| ==> !(IsPair(us[k], buyer, property) && us[k].expiresAt > now)
  {
    match FirstIndex(us, u => IsPair(u, buyer, property) && u.expiresAt > now)
    case None => None
    case Some(i) => Some(us[i])
  }

  /** `Unlock.findOneAndUpdate({ buyer, property }, { ...grant }, { upsert: true })`: the first unlock
      for the pair takes the new seller, payment and expiry; with none, a new unlock is inserted. */
  function Upsert(us: seq<Unlock>, buyer: Id, property: Id, seller: Id, payment: Id,
                  expiresAt: int, now: int, newId: Id): (r: seq<Unlock>)
    ensures |r| == |us| || |r| == |us| + 1
    ensures forall k :: 0 <= k < |us| && !IsPair(us[k], buyer, property) ==> r[k] == us[k]
    ensures exists k :: 0 <= k < |r| && IsPair(r[k], buyer, property) && r[k].seller == seller &&
                        r[k].payment == payment && r[k].expiresAt == expiresAt
    ensures forall k :: 0 <= k < |r| && (k >= |us| || r[k] != us[k]) ==>
      IsPair(r[k], buyer, property) && r[k].seller == seller && r[k].payment == payment && r[k].expiresAt == expiresAt
    ensures forall k :: 0 <= k < |us| ==>
      r[k].id == us[k].id && r[k].createdAt == us[k].createdAt &&
      r[k].buyer == us[k].buyer && r[k].property == us[k].property
    ensures forall k :: 0 <= k < |us| && r[k] != us[k] ==> r[k].updatedAt == now
    ensures |r| == |us| + 1 <==> forall k :: 0 <= k < |us| ==> !IsPair(us[k], buyer, property)
    ensures |r| == |us| + 1 ==> r[|us|].id == newId && r[|us|].createdAt == now && r[|us|].updatedAt == now
  {
    match FirstIndex(us, u => IsPair(u, buyer, property))
    case Some(i) =>
      var r := us[i := us[i].(seller := seller, payment := payment, expiresAt := expiresAt, updatedAt := now)];
      assert IsPair(r[i], buyer, property);
      r
    case None =>
      var r := us + [Unlock(newId, buyer, property, seller, payment, expiresAt, now, now)];
      assert IsPair(r[|us|], buyer, property);
      r
  }

  /** Upserting keeps the (buyer, property) index unique. */
  lemma UpsertKeepsUnique(us: seq<Unlock>, buyer: Id, property: Id, seller: Id, payment: Id,
                          expiresAt: int, now: int, newId: Id)
    requires UniquePairs(us)
    ensures UniquePairs(Upsert(us, buyer, property, seller, payment, expiresAt, now, newId))
  {
    var r := Upsert(us, buyer, property, seller, payment, expiresAt, now, newId);
    match FirstIndex(us, u => IsPair(u, buyer, property))
    case Some(i) =>
      assert forall k :: 0 <= k < |r| ==> r[k].buyer == us[k].buyer && r[k].property == us[k].property;
    case None =>
      assert forall k :: 0 <= k < |us| ==> r[k] == us[k];
  }

  /** However often it runs, an upsert leaves exactly one unlock for its pair. */
  lemma UpsertExactlyOne(us: seq<Unlock>, buyer: Id, property: Id, seller: Id, payment: Id,
                         expiresAt: int, now: int, newId: Id)
    requires UniquePairs(us)
    ensures CountPair(Upsert(us, buyer, property, seller, payment, expiresAt, now, newId), buyer, property) == 1
  {
    var r := Upsert(us, buyer, property, seller, payment, expiresAt, now, newId);
    UpsertKeepsUnique(us, buyer, property, seller, payment, expiresAt, now, newId);
    UniqueAtMostOne(r, buyer, property);
  }

  /** After an upsert, the pair's active unlock is the one just written, for every instant before
      its expiry; from the expiry on there is none. */
  lemma UpsertGrants(us: seq<Unlock>, buyer: Id, property: Id, seller: Id, payment: Id,
                     expiresAt: int, now: int, newId: Id, t: int)
    requires UniquePairs(us)
    ensures var a := FindActive(Upsert(us, buyer, property, seller, payment, expiresAt, now, newId), buyer, property, t);
      (t < expiresAt ==> a.Some? && a.value.seller == seller && a.value.payment == payment && a.value.expiresAt == expiresAt) &&
      (t >= expiresAt ==> a.None?)
  {
    var r := Upsert(us, buyer, property, seller, payment, expiresAt, now, newId);
    UpsertKeepsUnique(us, buyer, property, seller, payment, expiresAt, now, newId);
    var k :| 0 <= k < |r| && IsPair(r[k], buyer, property) && r[k].seller == seller &&
             r[k].payment == payment && r[k].expiresAt == expiresAt;
    var a := FindActive(r, buyer, property, t);
    if t < expiresAt {
      assert IsPair(r[k], buyer, property) && r[k].expiresAt > t;
    } else {
      forall j | 0 <= j < |r| ensures !(IsPair(r[j], buyer, property) && r[j].expiresAt > t) {
        if IsPair(r[j], buyer, property) { SamePairSameIndex(r, j, k); }
      }
    }
  }

  /** Re-running the upsert for a pair that already has an unlock inserts nothing: it rewrites
      that unlock in place, so a repeated verification refreshes the grant instead of adding one. */
  lemma UpsertAgain(us: seq<Unlock>, buyer: Id, property: Id, seller: Id, payment: Id,
                    expiresAt: int, now: int, newId: Id, seller2: Id, payment2: Id,
                    expiresAt2: int, now2: int, newId2: Id)
    ensures var r1 := Upsert(us, buyer, property, seller, payment, expiresAt, now, newId);
      |Upsert(r1, buyer, property, seller2, payment2, expiresAt2, now2, newId2)| == |r1|
  {
    var r1 := Upsert(us, buyer, property, seller, payment, expiresAt, now, newId);
    var k :| 0 <= k < |r1| && IsPair(r1[k], buyer, property) && r1[k].seller == seller &&
             r1[k].payment == payment && r1[k].expiresAt == expiresAt;
    assert FirstIndex(r1, u => IsPair(u, buyer, property)).Some?;
  }

  /** Under the unique index, two unlocks for the same pair are the same unlock. */
  lemma SamePairSameIndex(us: seq<Unlock>, i: nat, j: nat)
    requires UniquePairs(us) && i < |us| && j < |us|
    requires us[i].buyer == us[j].buyer && us[i].property == us[j].property
    ensures i == j
  {
  }

  /** An upsert does not touch the unlocks of any other pair. */
  lemma UpsertLeavesOthers(us: seq<Unlock>, buyer: Id, property: Id, seller: Id, payment: Id,
                           expiresAt: int, now: int, newId: Id, b: Id, p: Id, t: int)
    requires b != buyer || p != property
    ensures FindActive(Upsert(us, buyer, property, seller, payment, expiresAt, now, newId), b, p, t)
         == FindActive(us, b, p, t)
  {
    var r := Upsert(us, buyer, property, seller, payment, expiresAt, now, newId);
    var q := (u: Unlock) => IsPair(u, b, p) && u.expiresAt > t;
    assert forall k :: 0 <= k < |r| ==> (q(r[k]) <==> k < |us| && q(us[k]));
    assert forall k :: 0 <= k < |us| && q(us[k]) ==> r[k] == us[k];
    FirstIndexAgree(us, r, q);
  }
}
