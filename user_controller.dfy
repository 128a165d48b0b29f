/** The account operations of a signed-in user: profile, password and saved listings. The
    caller is the id the `protect` middleware put on the request. */
module UserController {
  import opened Common
  import opened Text
  import opened Collections
  import opened Validator
  import opened UserModel
  import opened PropertyModel
  import opened ErrorMiddleware
  import opened Store
  import opened PropertyController

  const PASSWORDS_REQUIRED: ApiError := ApiError(400, "Please provide current and new password.")
  const WRONG_PASSWORD: ApiError := ApiError(401, "Current password is incorrect.")
  const ALREADY_SAVED: ApiError := ApiError(400, "Property already saved.")
  const NOT_SAVED: ApiError := ApiError(404, "Property not found in saved listings.")
  const PASSWORD_UPDATED: string := "Password updated successfully."
  const SAVED_MESSAGE: string := "Property saved successfully."
  const UNSAVED_MESSAGE: string := "Property removed from saved listings."

  /** Under unique ids, the lookup by a stored user's id finds that user. */
  lemma FindUserUnique(users: seq<User>, k: nat)
    requires DistinctUserIds(users) && k < |users|
    ensures FindUser(users, users[k].id) == Some(k)
  {
  }

  lemma ReplaceKeepsIds(users: seq<User>, k: nat, v: User)
    requires DistinctUserIds(users) && k < |users| && v.id == users[k].id
    ensures DistinctUserIds(users[k := v])
  {
    var ws := users[k := v];
    assert forall i :: 0 <= i < |ws| ==> ws[i].id == users[i].id;
  }

  lemma ReplaceKeepsEmails(users: seq<User>, k: nat, v: User)
    requires DistinctEmails(users) && k < |users| && v.email == users[k].email
    ensures DistinctEmails(users[k := v])
  {
    var ws := users[k := v];
    assert forall i :: 0 <= i < |ws| ==> ws[i].email == users[i].email;
  }

  lemma ReplaceKeepsSchema(users: seq<User>, k: nat, v: User)
    requires (forall i :: 0 <= i < |users| ==> UserValid(users[i])) && k < |users| && UserValid(v)
    ensures var ws := users[k := v]; forall i :: 0 <= i < |ws| ==> UserValid(ws[i])
  {
  }

  /** Rewriting one user without touching its id or email keeps the collection valid when the
      new document passes the schema. */
  lemma ReplaceKeepsUsers(users: seq<User>, k: nat, v: User)
    requires UsersValid(users) && k < |users| && UserValid(v)
    requires v.id == users[k].id && v.email == users[k].email
    ensures UsersValid(users[k := v])
  {
    ReplaceKeepsIds(users, k, v);
    ReplaceKeepsEmails(users, k, v);
    ReplaceKeepsSchema(users, k, v);
  }

  /** The `updates` object of `updateProfile`. It has no email field: the email cannot change. */
  datatype ProfileUpdates = ProfileUpdates(name: Option<string>, phone: Option<string>, avatar: Option<Avatar>)

  /** Which fields the update carries: name and phone when truthy, the avatar when one was uploaded. */
  function ProfileUpdatesFor(name: Option<string>, phone: Option<string>, avatar: Option<Avatar>): (u: ProfileUpdates)
    ensures u.name.Some? <==> Present(name)
    ensures u.phone.Some? <==> Present(phone)
    ensures u.avatar.Some? <==> avatar.Some?
    ensures u.name.Some? ==> u.name == name
    ensures u.phone.Some? ==> u.phone == phone
    ensures u.avatar.Some? ==> u.avatar == avatar
  {
    ProfileUpdates(if Present(name) then name else None, if Present(phone) then phone else None, avatar)
  }

  /** The `updates` object filled field by field. */
  method BuildProfileUpdates(name: Option<string>, phone: Option<string>, avatar: Option<Avatar>)
    returns (u: ProfileUpdates)
    ensures u == ProfileUpdatesFor(name, phone, avatar)
  {
    u := ProfileUpdates(None, None, None);
    if Present(name) {
      u := u.(name := name);
    }
    if Present(phone) {
      u := u.(phone := phone);
    }
    if avatar.Some? {
      u := u.(avatar := avatar);
    }
  }

  /** The update validators on the paths the update sets: the trimmed name is required and at
      most 60 characters long, the phone must match the Indian pattern. */
  function ProfileErrors(u: ProfileUpdates): (r: seq<string>)
    ensures r == [] <==>
      (u.name.None? || (Trim(u.name.value) != [] && Utf16Length(Trim(u.name.value)) <= NAME_MAX)) &&
      (u.phone.None? || ValidatePhone(u.phone.value))
  {
    (if u.name.None? then []
     else if Trim(u.name.value) == [] then [NAME_REQUIRED]
     else if Utf16Length(Trim(u.name.value)) > NAME_MAX then [NAME_TOO_LONG]
     else []) +
    (if u.phone.None? || ValidatePhone(u.phone.value) then [] else [PHONE_INVALID])
  }

  /** The user after the `$set`: the name through its `trim` setter, the timestamp refreshed;
      id, email, password, role and saved listings never change. */
  function ApplyProfile(user: User, u: ProfileUpdates, now: int): (v: User)
    ensures v.id == user.id && v.email == user.email && v.password == user.password && v.role == user.role
    ensures v.savedListings == user.savedListings && v.createdAt == user.createdAt && v.updatedAt == now
    ensures v.name == (if u.name.Some? then Trim(u.name.value) else user.name)
    ensures v.phone == (if u.phone.Some? then u.phone.value else user.phone)
    ensures v.avatar == (if u.avatar.Some? then u.avatar else user.avatar)
  {
    user.(name := if u.name.Some? then Trim(u.name.value) else user.name,
          phone := if u.phone.Some? then u.phone.value else user.phone,
          avatar := if u.avatar.Some? then u.avatar else user.avatar,
          updatedAt := now)
  }

  /** An update that passes its validators leaves a valid user valid. */
  lemma ApplyProfileValid(user: User, u: ProfileUpdates, now: int)
    requires UserValid(user) && ProfileErrors(u) == []
    ensures UserValid(ApplyProfile(user, u, now))
  {
    if u.name.Some? {
      TrimIdempotent(u.name.value);
    }
  }

  /** The public id of the avatar `updateProfile` deletes before uploading a new one: the stored
      user's avatar `public_id`, when there is a user, an avatar and a non-empty id. */
  function StaleAvatar(users: seq<User>, caller: Id): (r: Option<string>)
    ensures r.Some? <==>
      FindUser(users, caller).Some? && users[FindUser(users, caller).value].avatar.Some? &&
      users[FindUser(users, caller).value].avatar.value.publicId.Some? &&
      users[FindUser(users, caller).value].avatar.value.publicId.value != ""
    ensures r.Some? ==> r == users[FindUser(users, caller).value].avatar.value.publicId
  {
    match FindUser(users, caller)
    case None => None
    case Some(k) =>
      if users[k].avatar.Some? && users[k].avatar.value.publicId.Some? && users[k].avatar.value.publicId.value != ""
      then users[k].avatar.value.publicId
      else None
  }

  /** The old avatar `updateProfile` deletes: only when a new file is attached. */
  function AvatarToDelete(users: seq<User>, caller: Id, avatar: Option<Avatar>): Option<string>
  {
    if avatar.Some? then StaleAvatar(users, caller) else None
  }

  /** `updateProfile`: `avatar` stands for the image the upload produced, if a file was attached.
      With a file attached, the old avatar is deleted from Cloudinary first; `destroyed` is the
      outcome of that deletion, and a rejected one is the generic 500 with nothing written.
      `removed` is the public id that deletion removed. The deletion comes before the validators,
      so an update they refuse still loses the old image while the stored avatar keeps naming it.
      The validators run before the query, so a bad update fails even for a missing user; a
      missing user otherwise gives a `null` user in the reply. */
  method UpdateProfile(db: Database, caller: Id, name: Option<string>, phone: Option<string>,
                       avatar: Option<Avatar>, destroyed: bool, now: int)
    returns (r: Result<Option<User>>, removed: Option<string>)
    requires db.Valid()
    modifies db
    ensures db.Valid()
    ensures db.properties == old(db.properties) && db.payments == old(db.payments) && db.unlocks == old(db.unlocks)
    ensures var stale := AvatarToDelete(old(db.users), caller, avatar);
      removed == (if destroyed then stale else None)
    ensures var stale := AvatarToDelete(old(db.users), caller, avatar);
      stale.Some? && !destroyed ==> r == Err(INTERNAL_ERROR) && db.users == old(db.users)
    ensures var stale := AvatarToDelete(old(db.users), caller, avatar);
      var u := ProfileUpdatesFor(name, phone, avatar);
      (stale.None? || destroyed) && ProfileErrors(u) != [] ==>
        r == Err(ValidationFailure(ProfileErrors(u))) && db.users == old(db.users)
    ensures var stale := AvatarToDelete(old(db.users), caller, avatar);
      var u := ProfileUpdatesFor(name, phone, avatar);
      (stale.None? || destroyed) && ProfileErrors(u) == [] && FindUser(old(db.users), caller).None? ==>
        r == Ok(None) && db.users == old(db.users)
    ensures var stale := AvatarToDelete(old(db.users), caller, avatar);
      var u := ProfileUpdatesFor(name, phone, avatar);
      var k := FindUser(old(db.users), caller);
      (stale.None? || destroyed) && ProfileErrors(u) == [] && k.Some? ==>
        r == Ok(Some(ApplyProfile(old(db.users)[k.value], u, now))) &&
        db.users == old(db.users)[k.value := ApplyProfile(old(db.users)[k.value], u, now)]
    ensures removed.Some? && r.Err? ==> StaleAvatar(db.users, caller) == removed
  {
    removed := None;
    var stale := AvatarToDelete(db.users, caller, avatar);
    if stale.Some? {
      if !destroyed {
        return Err(INTERNAL_ERROR), None;
      }
      removed := stale;
    }
    var u := BuildProfileUpdates(name, phone, avatar);
    r := WriteProfile(db, caller, u, now);
  }

  /** What `updateProfile` does once the old avatar is out of the way: the validators, then the
      query that finds the caller and rewrites the given fields. */
  method WriteProfile(db: Database, caller: Id, u: ProfileUpdates, now: int) returns (r: Result<Option<User>>)
    requires db.Valid()
    modifies db
    ensures db.Valid()
    ensures db.properties == old(db.properties) && db.payments == old(db.payments) && db.unlocks == old(db.unlocks)
    ensures ProfileErrors(u) != [] ==> r == Err(ValidationFailure(ProfileErrors(u))) && db.users == old(db.users)
    ensures ProfileErrors(u) == [] && FindUser(old(db.users), caller).None? ==> r == Ok(None) && db.users == old(db.users)
    ensures var k := FindUser(old(db.users), caller);
      ProfileErrors(u) == [] && k.Some? ==>
        r == Ok(Some(ApplyProfile(old(db.users)[k.value], u, now))) &&
        db.users == old(db.users)[k.value := ApplyProfile(old(db.users)[k.value], u, now)]
  {
    var errors := ProfileErrors(u);
    if errors != [] {
      return Err(ValidationFailure(errors));
    }
    var k := FindUser(db.users, caller);
    if k.None? {
      return Ok(None);
    }
    var v := ApplyProfile(db.users[k.value], u, now);
    ApplyProfileValid(db.users[k.value], u, now);
    ReplaceKeepsUsers(db.users, k.value, v);
    WriteUsers(db, db.users[k.value := v]);
    r := Ok(Some(v));
  }

  /** `changePassword`. `compare` stands for `bcrypt.compare` and `hash` for the save hook's
      `bcrypt.hash`. The schema's minimum length is checked on the plain new password, before the
      hook hashes it. A user that vanished after authentication makes `user.comparePassword`
      throw, which the error handler sends as an internal error. */
  method ChangePassword(db: Database, caller: Id, currentPassword: Option<string>, newPassword: Option<string>,
                        compare: (string, string) -> bool, hash: string -> string, now: int)
    returns (r: Result<string>)
    requires db.Valid()
    requires forall s :: hash(s) != []
    modifies db
    ensures db.Valid()
    ensures db.properties == old(db.properties) && db.payments == old(db.payments) && db.unlocks == old(db.unlocks)
    ensures !Present(currentPassword) || !Present(newPassword) ==> r == Err(PASSWORDS_REQUIRED) && db.users == old(db.users)
    ensures Present(currentPassword) && Present(newPassword) && FindUser(old(db.users), caller).None? ==>
      r == Err(INTERNAL_ERROR) && db.users == old(db.users)
    ensures var k := FindUser(old(db.users), caller);
      Present(currentPassword) && Present(newPassword) && k.Some? ==>
        var user := old(db.users)[k.value];
        (!compare(currentPassword.value, user.password) ==> r == Err(WRONG_PASSWORD) && db.users == old(db.users)) &&
        (compare(currentPassword.value, user.password) && Utf16Length(newPassword.value) < PASSWORD_MIN ==>
           r == Err(ValidationFailure([PASSWORD_TOO_SHORT])) && db.users == old(db.users)) &&
        (compare(currentPassword.value, user.password) && Utf16Length(newPassword.value) >= PASSWORD_MIN ==>
           r == Ok(PASSWORD_UPDATED) &&
           db.users == old(db.users)[k.value := user.(password := hash(newPassword.value), updatedAt := now)])
  {
    if !Present(currentPassword) || !Present(newPassword) {
      return Err(PASSWORDS_REQUIRED);
    }
    var k := FindUser(db.users, caller);
    if k.None? {
      return Err(INTERNAL_ERROR);
    }
    var user := db.users[k.value];
    if !compare(currentPassword.value, user.password) {
      return Err(WRONG_PASSWORD);
    }
    if Utf16Length(newPassword.value) < PASSWORD_MIN {
      return Err(ValidationFailure([PASSWORD_TOO_SHORT]));
    }
    user := user.(password := hash(newPassword.value), updatedAt := now);
    ReplaceKeepsUsers(db.users, k.value, user);
    WriteUsers(db, db.users[k.value := user]);
    r := Ok(PASSWORD_UPDATED);
  }

  /** Whether a saved id still names a stored listing. */
  function Resolves(properties: seq<Property>): Id -> bool
  {
    id => FindProperty(properties, id).Some?
  }

  /** `populate` of the saved ids with `-seller`: the listing of each id in order, without its
      seller; ids whose listing was deleted drop out. */

  function Populate(ids: seq<Id>, properties: seq<Property>): (r: seq<PublicProperty>)
    ensures |r| <= |ids|
    ensures forall v :: v in r ==> exists k :: 0 <= k < |properties| && properties[k].id in ids && v == WithoutSeller(properties[k])
    ensures (forall i :: 0 <= i < |ids| ==> FindProperty(properties, ids[i]).Some?) ==>
      |r| == |ids| && forall i :: 0 <= i < |ids| ==> r[i].id == ids[i]
  {
    var live := Filter(ids, Resolves(properties));
    var r := seq(|live|, j requires 0 <= j < |live| => LiveView(properties, live[j]));
    assert ViewsOf(r, live, properties);
    ViewsFromSaved(ids, properties, r);
    if forall i :: 0 <= i < |ids| ==> FindProperty(properties, ids[i]).Some? then
      AllResolveViews(ids, properties, r);
      r
    else
      r
  }

  /** With dangling ids among the saved ones, `populate` still gives exactly the listings of the
      ids that resolve, one per such id and in the order of the ids. */
  lemma PopulateLive(ids: seq<Id>, properties: seq<Property>)
    ensures ViewsOf(Populate(ids, properties), Filter(ids, Resolves(properties)), properties)
  {
  }

  /** The public view of the listing an id that resolves names. */
  function LiveView(properties: seq<Property>, id: Id): (v: PublicProperty)
    requires FindProperty(properties, id).Some?
    ensures v.id == id
  {
    WithoutSeller(properties[FindProperty(properties, id).value])
  }

  /** Each view of a resolving id is the view of a stored listing whose id was saved. */
  lemma ViewsFromSaved(ids: seq<Id>, properties: seq<Property>, r: seq<PublicProperty>)
    requires ViewsOf(r, Filter(ids, Resolves(properties)), properties)
    ensures forall v :: v in r ==> exists k :: 0 <= k < |properties| && properties[k].id in ids && v == WithoutSeller(properties[k])
  {
    forall v | v in r
      ensures exists k :: 0 <= k < |properties| && properties[k].id in ids && v == WithoutSeller(properties[k])
    {
      var j :| 0 <= j < |r| && r[j] == v;
      ViewFromSaved(ids, properties, r, j);
    }
  }

  /** When every saved id resolves, there is one view per id, in the order of the ids. */
  lemma AllResolveViews(ids: seq<Id>, properties: seq<Property>, r: seq<PublicProperty>)
    requires ViewsOf(r, Filter(ids, Resolves(properties)), properties)
    requires forall i :: 0 <= i < |ids| ==> FindProperty(properties, ids[i]).Some?
    ensures |r| == |ids| && forall i :: 0 <= i < |ids| ==> r[i].id == ids[i]
  {
    AllResolve(ids, properties);
  }

  /** When every saved id resolves, none drops out. */
  lemma AllResolve(ids: seq<Id>, properties: seq<Property>)
    requires forall i :: 0 <= i < |ids| ==> FindProperty(properties, ids[i]).Some?
    ensures Filter(ids, Resolves(properties)) == ids
  {
    var keep := Resolves(properties);
    assert forall i :: 0 <= i < |ids| ==> keep(ids[i]);
    FilterAll(ids, keep);
  }

  /** One view of a resolving id comes from a stored listing whose id was saved. */
  lemma ViewFromSaved(ids: seq<Id>, properties: seq<Property>, r: seq<PublicProperty>, j: nat)
    requires ViewsOf(r, Filter(ids, Resolves(properties)), properties) && j < |r|
    ensures exists k :: 0 <= k < |properties| && properties[k].id in ids && r[j] == WithoutSeller(properties[k])
  {
    var live := Filter(ids, Resolves(properties));
    FilterMembers(ids, Resolves(properties), live[j]);
    var k := FindProperty(properties, live[j]).value;
    assert properties[k].id in ids && r[j] == WithoutSeller(properties[k]);
  }

  /** `r` holds the public view of the listing of each id of `live`, in order. */
  predicate ViewsOf(r: seq<PublicProperty>, live: seq<Id>, properties: seq<Property>)
  {
    |r| == |live| &&
    forall j :: 0 <= j < |r| ==>
      FindProperty(properties, live[j]).Some? && r[j].id == live[j] &&
      r[j] == WithoutSeller(properties[FindProperty(properties, live[j]).value])
  }

  /** `getSavedListings`. */
  function GetSavedListings(users: seq<User>, properties: seq<Property>, caller: Id): (r: Result<seq<PublicProperty>>)
    ensures r.Err? <==> FindUser(users, caller).None?
    ensures r.Err? ==> r.error == INTERNAL_ERROR
    ensures r.Ok? ==> r.value == Populate(users[FindUser(users, caller).value].savedListings, properties)
  {
    match FindUser(users, caller)
    case None => Err(INTERNAL_ERROR)
    case Some(k) => Ok(Populate(users[k].savedListings, properties))
  }

  /** A reply together with the user collection the operation leaves. */
  datatype Outcome = Outcome(reply: Result<string>, users: seq<User>)

  /** Replacing a user by one with the same id does not move the lookup. */
  lemma FindUserAfterReplace(users: seq<User>, k: nat, v: User, id: Id)
    requires k < |users| && v.id == users[k].id
    ensures FindUser(users[k := v], id) == FindUser(users, id)
  {
    FirstIndexSameTruth(users, users[k := v], (u: User) => u.id == id);
  }

  /** What `saveListing` replies and leaves: the listing must exist and not be saved yet, and
      then its id is pushed once. */
  function Save(users: seq<User>, properties: seq<Property>, caller: Id, id: Id, now: int): (o: Outcome)
    ensures o.reply == Err(PROPERTY_NOT_FOUND) <==> FindProperty(properties, id).None?
    ensures o.reply.Err? ==> o.users == users
    ensures o.reply == Err(ALREADY_SAVED) <==>
      FindProperty(properties, id).Some? && FindUser(users, caller).Some? && id in users[FindUser(users, caller).value].savedListings
    ensures o.reply.Ok? ==>
      o.reply.value == SAVED_MESSAGE && FindUser(users, caller).Some? &&
      var k := FindUser(users, caller).value;
      id !in users[k].savedListings &&
      o.users == users[k := users[k].(savedListings := users[k].savedListings + [id], updatedAt := now)]
    ensures o.reply == Err(INTERNAL_ERROR) <==> FindProperty(properties, id).Some? && FindUser(users, caller).None?
    ensures o.reply.Ok? <==>
      FindProperty(properties, id).Some? && FindUser(users, caller).Some? &&
      id !in users[FindUser(users, caller).value].savedListings
  {
    if FindProperty(properties, id).None? then Outcome(Err(PROPERTY_NOT_FOUND), users)
    else match FindUser(users, caller)
      case None => Outcome(Err(INTERNAL_ERROR), users)
      case Some(k) =>
        if id in users[k].savedListings then Outcome(Err(ALREADY_SAVED), users)
        else Outcome(Ok(SAVED_MESSAGE), users[k := users[k].(savedListings := users[k].savedListings + [id], updatedAt := now)])
  }

  /** What `unsaveListing` replies and leaves: the id must be saved, and then every occurrence of
      it is filtered out. */
  function Unsave(users: seq<User>, caller: Id, id: Id, now: int): (o: Outcome)
    ensures o.reply.Err? ==> o.users == users
    ensures o.reply == Err(NOT_SAVED) <==> FindUser(users, caller).Some? && id !in users[FindUser(users, caller).value].savedListings
    ensures o.reply.Ok? ==>
      o.reply.value == UNSAVED_MESSAGE && FindUser(users, caller).Some? &&
      var k := FindUser(users, caller).value;
      id in users[k].savedListings &&
      o.users == users[k := users[k].(savedListings := RemoveAll(users[k].savedListings, id), updatedAt := now)]
    ensures o.reply == Err(INTERNAL_ERROR) <==> FindUser(users, caller).None?
    ensures o.reply.Ok? <==> FindUser(users, caller).Some? && id in users[FindUser(users, caller).value].savedListings
  {
    match FindUser(users, caller)
    case None => Outcome(Err(INTERNAL_ERROR), users)
    case Some(k) =>
      if id !in users[k].savedListings then Outcome(Err(NOT_SAVED), users)
      else Outcome(Ok(UNSAVED_MESSAGE), users[k := users[k].(savedListings := RemoveAll(users[k].savedListings, id), updatedAt := now)])
  }

  /** Saving a listing the caller had not saved and then unsaving it succeeds twice and gives
      every user back the saved list they had. */
  lemma {:induction false} SaveThenUnsave(users: seq<User>, properties: seq<Property>, caller: Id, id: Id, now: int, later: int)
    requires FindProperty(properties, id).Some? && FindUser(users, caller).Some?
    requires id !in users[FindUser(users, caller).value].savedListings
    ensures var saved := Save(users, properties, caller, id, now);
      var unsaved := Unsave(saved.users, caller, id, later);
      saved.reply.Ok? && unsaved.reply.Ok? && |unsaved.users| == |users| &&
      forall i :: 0 <= i < |users| ==> unsaved.users[i].savedListings == users[i].savedListings
  {
    var k := FindUser(users, caller).value;
    var saved := Save(users, properties, caller, id, now);
    FindUserAfterReplace(users, k, saved.users[k], caller);
    AppendThenRemove(users[k].savedListings, id);
  }

  /** Saving twice in a row: the second attempt is refused and changes nothing. */
  lemma SaveTwice(users: seq<User>, properties: seq<Property>, caller: Id, id: Id, now: int, later: int)
    requires Save(users, properties, caller, id, now).reply.Ok?
    ensures var saved := Save(users, properties, caller, id, now);
      Save(saved.users, properties, caller, id, later) == Outcome(Err(ALREADY_SAVED), saved.users)
  {
    var k := FindUser(users, caller).value;
    var saved := Save(users, properties, caller, id, now);
    FindUserAfterReplace(users, k, saved.users[k], caller);
  }

  /** `saveListing`: `user.savedListings.push(id)` and `user.save()`. */
  method SaveListing(db: Database, caller: Id, id: Id, now: int) returns (r: Result<string>)
    requires db.Valid()
    modifies db
    ensures db.Valid()
    ensures db.properties == old(db.properties) && db.payments == old(db.payments) && db.unlocks == old(db.unlocks)
    ensures Outcome(r, db.users) == Save(old(db.users), old(db.properties), caller, id, now)
  {
    if FindProperty(db.properties, id).None? {
      return Err(PROPERTY_NOT_FOUND);
    }
    var k := FindUser(db.users, caller);
    if k.None? {
      return Err(INTERNAL_ERROR);
    }
    var user := db.users[k.value];
    if id in user.savedListings {
      return Err(ALREADY_SAVED);
    }
    user := user.(savedListings := user.savedListings + [id], updatedAt := now);
    ReplaceKeepsUsers(db.users, k.value, user);
    WriteUsers(db, db.users[k.value := user]);
    r := Ok(SAVED_MESSAGE);
  }

  /** `unsaveListing`: `user.savedListings` reassigned through `filter`, then `user.save()`. */
  method UnsaveListing(db: Database, caller: Id, id: Id, now: int) returns (r: Result<string>)
    requires db.Valid()
    modifies db
    ensures db.Valid()
    ensures db.properties == old(db.properties) && db.payments == old(db.payments) && db.unlocks == old(db.unlocks)
    ensures Outcome(r, db.users) == Unsave(old(db.users), caller, id, now)
  {
    var k := FindUser(db.users, caller);
    if k.None? {
      return Err(INTERNAL_ERROR);
    }
    var user := db.users[k.value];
    if id !in user.savedListings {
      return Err(NOT_SAVED);
    }
    user := user.(savedListings := RemoveAll(user.savedListings, id), updatedAt := now);
    ReplaceKeepsUsers(db.users, k.value, user);
    WriteUsers(db, db.users[k.value := user]);
    r := Ok(UNSAVED_MESSAGE);
  }
}
