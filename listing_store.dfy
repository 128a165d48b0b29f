/** The client's listing state: the public catalogue, the seller's own listings, the listing on
    screen and the buyer's saved ids, with the actions that change them. Each action takes the
    outcome of its network call as a parameter. */
module ListingStore {
  import opened Common
  import opened Collections
  import opened ListingApi

  /** The catalogue filters the screen sets; they are only forwarded to the server. */
  datatype Filters = Filters(propertyType: Option<string>, city: Option<string>,
                             minPrice: Option<int>, maxPrice: Option<int>)

  /** `l.id === id`; a listing without an id matches nothing. */
  predicate HasId(l: Listing, id: Id)
  {
    l.id == Some(id)
  }

  lemma WithoutIdMembers(s: seq<Listing>, id: Id)
    ensures forall l :: l in Filter(s, (x: Listing) => !HasId(x, id)) <==> l in s && !HasId(l, id)
  {
    forall l ensures l in Filter(s, (x: Listing) => !HasId(x, id)) <==> l in s && !HasId(l, id) {
      FilterMembers(s, (x: Listing) => !HasId(x, id), l);
    }
  }

  /** `list.filter(l => l.id !== id)`: every listing with the id removed, the others kept. */
  function WithoutId(s: seq<Listing>, id: Id): (r: seq<Listing>)
    ensures |r| <= |s|
    ensures forall k :: 0 <= k < |r| ==> !HasId(r[k], id)
    ensures forall l :: l in r <==> l in s && !HasId(l, id)
  {
    WithoutIdMembers(s, id);
    Filter(s, (x: Listing) => !HasId(x, id))
  }

  /** `list.map(l => l.id === id ? u : l)`: same length, each listing with the id replaced by
      `u`, every other one kept in place. */
  function ReplaceById(s: seq<Listing>, id: Id, u: Listing): (r: seq<Listing>)
    ensures |r| == |s|
    ensures forall k :: 0 <= k < |s| && HasId(s[k], id) ==> r[k] == u
    ensures forall k :: 0 <= k < |s| && !HasId(s[k], id) ==> r[k] == s[k]
  {
    seq(|s|, k requires 0 <= k < |s| => if HasId(s[k], id) then u else s[k])
  }

  /** Deleting a listing after updating it leaves what deleting it alone would, as long as the
      server kept the listing's id. */
  lemma {:induction false} DeleteAfterUpdate(s: seq<Listing>, id: Id, u: Listing)
    requires HasId(u, id)
    ensures WithoutId(ReplaceById(s, id, u), id) == WithoutId(s, id)
  {
    if s != [] {
      DeleteAfterUpdate(s[1..], id, u);
      var r := ReplaceById(s, id, u);
      assert r[1..] == ReplaceById(s[1..], id, u);
      assert HasId(r[0], id) <==> HasId(s[0], id);
    }
  }

  /** `list.find(l => l.id === id) || null`. */
  function FindById(s: seq<Listing>, id: Id): (r: Option<Listing>)
    ensures r.Some? ==> r.value in s && HasId(r.value, id)
    ensures r.None? <==> forall k :: 0 <= k < |s| ==> !HasId(s[k], id)
    ensures r.Some? ==> exists k :: 0 <= k < |s| && s[k] == r.value && forall j :: 0 <= j < k ==> !HasId(s[j], id)
  {
    match FirstIndex(s, (l: Listing) => HasId(l, id))
    case None => None
    case Some(k) => Some(s[k])
  }

  /** The saved ids after `toggleSave`, as written: a successful call removes a saved id or
      appends an unsaved one; a failed call "reverts" by appending a saved id once more and by
      removing an unsaved one, which is no change. */
  function ToggledSaved<T(==,!new)>(saved: seq<T>, id: T, succeeded: bool): (r: seq<T>)
    ensures forall y :: y != id ==> (y in r <==> y in saved)
    ensures succeeded ==> (id in r <==> id !in saved)
    ensures !succeeded ==> (id in r <==> id in saved)
    ensures id !in saved ==> r == (if succeeded then saved + [id] else saved)
    ensures !succeeded && id in saved ==> r == saved + [id]
  {
    var isSaved := id in saved;
    if succeeded == isSaved then RemoveAll(saved, id) else saved + [id]
  }

  /** Saving an unsaved listing and then unsaving it restores the saved list exactly. */
  lemma SaveThenUnsave<T(!new)>(saved: seq<T>, id: T)
    requires id !in saved
    ensures ToggledSaved(ToggledSaved(saved, id, true), id, true) == saved
  {
    AppendThenRemove(saved, id);
  }

  /** Successful toggles keep the saved list free of duplicates. */
  lemma ToggleKeepsDistinct<T(!new)>(saved: seq<T>, id: T)
    requires Distinct(saved)
    ensures Distinct(ToggledSaved(saved, id, true))
  {
    if id in saved {
      RemoveAllDistinct(saved, id);
    } else {
      assert forall k :: 0 <= k < |saved| ==> saved[k] != id;
    }
  }

  /** A failed unsave leaves the id in the list twice. */
  lemma FailedUnsaveDuplicates<T(!new)>(saved: seq<T>, id: T)
    requires id in saved
    ensures !Distinct(ToggledSaved(saved, id, false))
  {
    var r := ToggledSaved(saved, id, false);
    var k :| 0 <= k < |saved| && saved[k] == id;
    assert r[k] == r[|r| - 1];
  }

  /** The evident intent of the revert: nothing was changed before the call, so a failure
      leaves the saved list as it was. */
  function IntendedToggle<T(==,!new)>(saved: seq<T>, id: T, succeeded: bool): (r: seq<T>)
    ensures !succeeded ==> r == saved
    ensures succeeded ==> r == ToggledSaved(saved, id, true)
  {
    if succeeded then ToggledSaved(saved, id, true) else saved
  }

  /** With the intended revert, every toggle keeps the saved list free of duplicates. */
  lemma IntendedToggleKeepsDistinct<T(!new)>(saved: seq<T>, id: T, succeeded: bool)
    requires Distinct(saved)
    ensures Distinct(IntendedToggle(saved, id, succeeded))
  {
    ToggleKeepsDistinct(saved, id);
  }

  /** `myListings.data || []` as written: `getMyListings` resolves with an array, whose `data`
      property is undefined, so the fallback is always taken; a failed call also stores `[]`. */
  function MyListingsAsWritten(response: Outcome<seq<Listing>>): seq<Listing>
  {
    []
  }

  /** Whatever the seller's listings are, none of them reaches the store as written. */
  lemma MyListingsLost(fetched: seq<Listing>, l: Listing)
    requires l in fetched
    ensures l !in MyListingsAsWritten(Resolved(fetched))
    ensures MyListingsAsWritten(Resolved(fetched)) != fetched
  {
  }

  /** The evident intent: the listings the call resolves with, or none when it fails. */
  function IntendedMyListings(response: Outcome<seq<Listing>>): (r: seq<Listing>)
    ensures response.Resolved? ==> |r| == |response.value| && forall l :: l in r <==> l in response.value
    ensures response.Rejected? ==> r == []
  {
    if response.Resolved? then response.value else []
  }

  /** With the intended reading every listing the seller owns, as fetched, is shown. */
  lemma IntendedMyListingsKept(fetched: seq<Listing>, l: Listing)
    requires l in fetched
    ensures l in IntendedMyListings(Resolved(fetched))
  {
  }

  /** `savedListings.map((l) => l.id)` as written, on what the saved-listings call resolves with:
      the server's documents, which `getSavedListings` does not pass through
      `mapPropertyToListing`, so each entry is the document's own `id` field. */
  function SavedIdsAsWritten(docs: seq<RawProperty>): (r: seq<Option<Id>>)
    ensures |r| == |docs|
    ensures forall i :: 0 <= i < |docs| ==> r[i] == docs[i].id
  {
    seq(|docs|, i requires 0 <= i < |docs| => docs[i].id)
  }

  /** The server sends its documents with `_id` and without an `id` field; then no listing reads
      as saved, whatever was saved. */
  lemma SavedIdsLost(docs: seq<RawProperty>, id: Id)
    requires forall i :: 0 <= i < |docs| ==> docs[i].id.None?
    ensures Some(id) !in SavedIdsAsWritten(docs)
  {
    var r := SavedIdsAsWritten(docs);
    assert forall i :: 0 <= i < |r| ==> r[i].None?;
  }

  /** The evident intent: each saved listing's id as `mapPropertyToListing` reads it, `id || _id`. */
  function SavedIds(docs: seq<RawProperty>): (r: seq<Option<Id>>)
    ensures |r| == |docs|
    ensures forall i :: 0 <= i < |docs| ==> r[i] == MapProperty(docs[i]).id
  {
    seq(|docs|, i requires 0 <= i < |docs| => OrElse(docs[i].id, docs[i].mongoId))
  }

  /** On the server's documents the intended reading finds every saved listing by its `_id`. */
  lemma SavedIdsKept(docs: seq<RawProperty>, id: Id)
    requires forall i :: 0 <= i < |docs| ==> docs[i].id.None?
    ensures Some(id) in SavedIds(docs) <==> exists i :: 0 <= i < |docs| && docs[i].mongoId == Some(id)
  {
    var r := SavedIds(docs);
    assert forall i :: 0 <= i < |docs| ==> r[i] == docs[i].mongoId;
    if Some(id) in r {
      var i :| 0 <= i < |r| && r[i] == Some(id);
      assert docs[i].mongoId == Some(id);
    }
    if exists i :: 0 <= i < |docs| && docs[i].mongoId == Some(id) {
      var i :| 0 <= i < |docs| && docs[i].mongoId == Some(id);
      assert r[i] == Some(id);
    }
  }

  class ListingState {
    var listings: seq<Listing>
    var myListings: seq<Listing>
    var selectedListing: Option<Listing>
    var savedListings: seq<Option<Id>>
    var isLoading: bool
    var filters: Filters

    constructor ()
      ensures listings == [] && myListings == [] && selectedListing.None? && savedListings == []
      ensures !isLoading && filters == Filters(None, None, None, None)
    {
      listings := [];
      myListings := [];
      selectedListing := None;
      savedListings := [];
      isLoading := false;
      filters := Filters(None, None, None, None);
    }

    /** `fetchListings`: the catalogue the server returns for the current filters, or an empty
        one when the call fails. */
    method FetchListings(response: Outcome<seq<Listing>>)
      modifies this
      ensures listings == (if response.Resolved? then response.value else [])
      ensures myListings == old(myListings) && selectedListing == old(selectedListing)
      ensures savedListings == old(savedListings) && filters == old(filters) && !isLoading
    {
      isLoading := true;
      if response.Resolved? {
        listings, isLoading := response.value, false;
      } else {
        listings, isLoading := [], false;
      }
    }

    /** `fetchMyListings` as written (`MyListingsAsWritten`; `IntendedMyListings` is the evident
        intent): it stores `.data` of the array the call resolves with, which is undefined, so
        the seller's list is empty whatever the outcome. */
    method FetchMyListings(response: Outcome<seq<Listing>>)
      modifies this
      ensures myListings == []
      ensures myListings == MyListingsAsWritten(response)
      ensures listings == old(listings) && selectedListing == old(selectedListing)
      ensures savedListings == old(savedListings) && filters == old(filters) && !isLoading
    {
      isLoading := true;
      if response.Resolved? {
        myListings, isLoading := [], false;
      } else {
        myListings, isLoading := [], false;
      }
    }

    /** `fetchSavedListings`, with the ids read as intended (`SavedIds`; `SavedIdsAsWritten` is the
        code as written): the ids of the saved listings the server returns, or none when the
        call fails. */
    method FetchSavedListings(response: Outcome<seq<RawProperty>>)
      modifies this
      ensures savedListings == (if response.Resolved? then SavedIds(response.value) else [])
      ensures listings == old(listings) && myListings == old(myListings)
      ensures selectedListing == old(selectedListing) && filters == old(filters) && !isLoading
    {
      isLoading := true;
      if response.Resolved? {
        savedListings, isLoading := SavedIds(response.value), false;
      } else {
        savedListings, isLoading := [], false;
      }
    }

    /** `selectListing`: the listing the server returns, or else the first catalogue entry with
        that id, or none. */
    method SelectListing(id: Id, response: Outcome<Listing>)
      modifies this
      ensures response.Resolved? ==> selectedListing == Some(response.value)
      ensures response.Rejected? ==> selectedListing == FindById(old(listings), id)
      ensures listings == old(listings) && myListings == old(myListings) && savedListings == old(savedListings)
      ensures isLoading == old(isLoading) && filters == old(filters)
    {
      if response.Resolved? {
        selectedListing := Some(response.value);
      } else {
        selectedListing := FindById(listings, id);
      }
    }

    /** `toggleSave`, with `succeeded` the outcome of the save or unsave call, and with the
        intended revert: a failed call leaves the saved ids as they were (`ToggledSaved` is the
        code as written). The saved list never gains a duplicate. */
    method ToggleSave(id: Id, succeeded: bool)
      modifies this
      ensures savedListings == IntendedToggle(old(savedListings), Some(id), succeeded)
      ensures Distinct(old(savedListings)) ==> Distinct(savedListings)
      ensures listings == old(listings) && myListings == old(myListings) && selectedListing == old(selectedListing)
      ensures isLoading == old(isLoading) && filters == old(filters)
    {
      var saved := savedListings;
      var isSaved := Some(id) in saved;
      if succeeded {
        if isSaved {
          savedListings := RemoveAll(saved, Some(id));
        } else {
          savedListings := saved + [Some(id)];
        }
      } else {
        savedListings := saved;
      }
      if Distinct(saved) {
        IntendedToggleKeepsDistinct(saved, Some(id), succeeded);
      }
    }

    /** `addListing`: the created listing goes first in both lists; on failure nothing but the
        loading flag changes and the error is rethrown. */
    method AddListing(response: Outcome<Listing>) returns (rethrown: bool)
      modifies this
      ensures rethrown <==> response.Rejected?
      ensures response.Resolved? ==>
        listings == [response.value] + old(listings) && myListings == [response.value] + old(myListings)
      ensures response.Rejected? ==> listings == old(listings) && myListings == old(myListings)
      ensures selectedListing == old(selectedListing) && savedListings == old(savedListings)
      ensures filters == old(filters) && !isLoading
    {
      isLoading := true;
      if response.Resolved? {
        listings, myListings, isLoading := [response.value] + listings, [response.value] + myListings, false;
        rethrown := false;
      } else {
        isLoading := false;
        rethrown := true;
      }
    }

    /** `updateListing`: every entry with the id, in both lists and on screen, becomes the
        listing the server returns; on failure nothing but the loading flag changes. */
    method UpdateListing(id: Id, response: Outcome<Listing>) returns (rethrown: bool)
      modifies this
      ensures rethrown <==> response.Rejected?
      ensures response.Resolved? ==>
        listings == ReplaceById(old(listings), id, response.value) &&
        myListings == ReplaceById(old(myListings), id, response.value)
      ensures response.Resolved? && old(selectedListing).Some? && HasId(old(selectedListing).value, id) ==>
        selectedListing == Some(response.value)
      ensures response.Rejected? || old(selectedListing).None? || !HasId(old(selectedListing).value, id) ==>
        selectedListing == old(selectedListing)
      ensures response.Rejected? ==> listings == old(listings) && myListings == old(myListings)
      ensures savedListings == old(savedListings) && filters == old(filters) && !isLoading
    {
      isLoading := true;
      if response.Resolved? {
        var u := response.value;
        var selected := if selectedListing.Some? && HasId(selectedListing.value, id) then Some(u) else selectedListing;
        listings, myListings, selectedListing, isLoading := ReplaceById(listings, id, u), ReplaceById(myListings, id, u), selected, false;
        rethrown := false;
      } else {
        isLoading := false;
        rethrown := true;
      }
    }

    /** `deleteListing`: after a successful delete no list holds the id and the screen is
        cleared exactly when it showed that listing; on failure nothing but the loading flag
        changes. */
    method DeleteListing(id: Id, succeeded: bool) returns (rethrown: bool)
      modifies this
      ensures rethrown <==> !succeeded
      ensures succeeded ==> listings == WithoutId(old(listings), id) && myListings == WithoutId(old(myListings), id)
      ensures succeeded ==> (selectedListing.None? <==> old(selectedListing).None? || HasId(old(selectedListing).value, id))
      ensures succeeded && selectedListing.Some? ==> selectedListing == old(selectedListing)
      ensures !succeeded ==> listings == old(listings) && myListings == old(myListings) && selectedListing == old(selectedListing)
      ensures savedListings == old(savedListings) && filters == old(filters) && !isLoading
    {
      isLoading := true;
      if succeeded {
        var selected := if selectedListing.Some? && HasId(selectedListing.value, id) then None else selectedListing;
        listings, myListings, selectedListing, isLoading := WithoutId(listings, id), WithoutId(myListings, id), selected, false;
        rethrown := false;
      } else {
        isLoading := false;
        rethrown := true;
      }
    }

    /** `setFilters`. */
    method SetFilters(f: Filters)
      modifies this
      ensures filters == f
      ensures listings == old(listings) && myListings == old(myListings) && selectedListing == old(selectedListing)
      ensures savedListings == old(savedListings) && isLoading == old(isLoading)
    {
      filters := f;
    }
  }
}
