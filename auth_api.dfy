/** The client's reading of the user record the authentication endpoints return
    (`normalizeAvatar` and `mapAuthUser` in the client's authentication API). */
module AuthApi {
  import opened Common

  /** The `avatar` field as it may arrive: a scalar JSON value, or an object that may carry an
      uploaded picture's `url` and `secure_url`. */
  datatype AvatarValue =
    | AvatarScalar(v: JsValue)
    | AvatarMedia(url: JsValue, secureUrl: JsValue)

  /** JavaScript truthiness of an avatar value; every object is truthy. */
  predicate AvatarTruthy(a: AvatarValue)
  {
    a.AvatarMedia? || Truthy(a.v)
  }

  /** `normalizeAvatar`: a falsy value gives no avatar, a string is kept, an object gives its
      `url` when that is a string, else its `secure_url` when that is a string; anything else
      gives none. */
  function NormalizeAvatar(a: AvatarValue): (r: Option<string>)
    ensures !AvatarTruthy(a) ==> r.None?
    ensures a.AvatarScalar? && a.v.Str? && a.v.s != [] ==> r == Some(a.v.s)
    ensures a.AvatarScalar? && !a.v.Str? ==> r.None?
    ensures a.AvatarMedia? && a.url.Str? ==> r == Some(a.url.s)
    ensures a.AvatarMedia? && !a.url.Str? && a.secureUrl.Str? ==> r == Some(a.secureUrl.s)
    ensures a.AvatarMedia? && !a.url.Str? && !a.secureUrl.Str? ==> r.None?
    ensures r.Some? && r.value == [] ==> a.AvatarMedia?
  {
    if !AvatarTruthy(a) then None
    else match a
      case AvatarScalar(v) => if v.Str? then Some(v.s) else None
      case AvatarMedia(url, secureUrl) =>
        if url.Str? then Some(url.s) else if secureUrl.Str? then Some(secureUrl.s) else None
  }

  /** How a normalised avatar is sent back: a string, or no field at all. */
  function AvatarField(o: Option<string>): (r: AvatarValue)
    ensures r.AvatarScalar?
    ensures o.None? <==> r.v.Undefined?
  {
    if o.Some? then AvatarScalar(Str(o.value)) else AvatarScalar(Undefined)
  }

  /** Normalising a normalised avatar again changes nothing, except that an empty `url` taken
      from a picture object becomes no avatar at all, since "" is falsy. */
  lemma NormalizeAvatarIdempotent(a: AvatarValue)
    ensures var r := NormalizeAvatar(a);
      NormalizeAvatar(AvatarField(r)) == if r == Some([]) then None else r
  {
  }

  /** JavaScript `a || b`: the first operand when it is truthy, else the second. */
  function JsOr(a: JsValue, b: JsValue): (r: JsValue)
    ensures Truthy(r) <==> Truthy(a) || Truthy(b)
    ensures r == a || r == b
    ensures Truthy(a) ==> r == a
  {
    if Truthy(a) then a else b
  }

  /** The user record as the server sends it; `rest` stands for every other field, which the
      client copies untouched. */
  datatype ServerUser = ServerUser(
    id: JsValue, name: JsValue, email: JsValue, phone: JsValue, role: JsValue,
    isVerified: JsValue, verified: JsValue, avatar: AvatarValue, createdAt: JsValue,
    rest: map<string, JsValue>)

  /** The user record the client keeps: the server's fields with `verified` recomputed and the
      avatar normalised. `role` is only cast, so it keeps the server's value. */
  datatype AuthUser = AuthUser(
    id: JsValue, name: JsValue, email: JsValue, phone: JsValue, role: JsValue,
    isVerified: JsValue, verified: JsValue, avatar: Option<string>, createdAt: JsValue,
    rest: map<string, JsValue>)

  /** `mapAuthUser`: `verified` is `isVerified || verified`, the avatar is normalised and every
      other field is copied. */
  function MapAuthUser(u: ServerUser): (r: AuthUser)
    ensures Truthy(r.verified) <==> Truthy(u.isVerified) || Truthy(u.verified)
    ensures Truthy(u.isVerified) ==> r.verified == u.isVerified
    ensures !Truthy(u.isVerified) ==> r.verified == u.verified
    ensures r.avatar == NormalizeAvatar(u.avatar)
    ensures r.id == u.id && r.name == u.name && r.email == u.email && r.phone == u.phone
    ensures r.role == u.role && r.isVerified == u.isVerified && r.createdAt == u.createdAt
    ensures r.rest == u.rest
  {
    AuthUser(u.id, u.name, u.email, u.phone, u.role, u.isVerified, JsOr(u.isVerified, u.verified),
             NormalizeAvatar(u.avatar), u.createdAt, u.rest)
  }

  /** The record the client keeps, sent back as the server would send it. */
  function AsServerUser(c: AuthUser): (r: ServerUser)
    ensures r.isVerified == c.isVerified && r.verified == c.verified
  {
    ServerUser(c.id, c.name, c.email, c.phone, c.role, c.isVerified, c.verified, AvatarField(c.avatar),
               c.createdAt, c.rest)
  }

  /** Mapping an already mapped user again keeps its verification and every copied field; only
      an empty picture `url` is lost. */
  lemma {:induction false} MapAuthUserIdempotent(u: ServerUser)
    ensures var once := MapAuthUser(u); var twice := MapAuthUser(AsServerUser(once));
      twice == once.(avatar := if once.avatar == Some([]) then None else once.avatar)
  {
    var once := MapAuthUser(u);
    NormalizeAvatarIdempotent(u.avatar);
    assert Truthy(once.isVerified) ==> JsOr(once.isVerified, once.verified) == once.verified;
  }
}
