/** The `User` collection: accounts, their role and their saved listings. */
module UserModel {
  import opened Common
  import opened Text
  import opened Validator
  import opened Collections

  datatype Role = Buyer | Seller

  function RoleName(r: Role): string
  {
    match r
    case Buyer => "buyer"
    case Seller => "seller"
  }

  /** The enum validator on `role`: only "buyer" and "seller" are accepted. */
  function ParseRole(t: string): (r: Option<Role>)
    ensures r.Some? ==> RoleName(r.value) == t
    ensures forall x :: RoleName(x) == t ==> r == Some(x)
  {
    if t == "buyer" then Some(Buyer) else if t == "seller" then Some(Seller) else None
  }

  datatype Avatar = Avatar(publicId: Option<string>, url: Option<string>)

  /** A user document. `password` holds the bcrypt hash the save hook wrote. */
  datatype User = User(id: Id, name: string, email: string, phone: string, password: string,
                       role: Role, isVerified: bool, avatar: Option<Avatar>, savedListings: seq<Id>,
                       createdAt: int, updatedAt: int)

  /** The `maxlength` of a name and the `minlength` of a password, in UTF-16 code units. */
  const NAME_MAX: nat := 60
  const PASSWORD_MIN: nat := 6

  const NAME_REQUIRED: string := "Name is required"
  const NAME_TOO_LONG: string := "Name cannot exceed 60 characters"
  const EMAIL_INVALID: string := "Please enter a valid email"
  const PHONE_INVALID: string := "Please enter a valid Indian phone number"
  const PASSWORD_TOO_SHORT: string := "Password must be at least 6 characters"

  /** The schema's checks on a stored user: a trimmed name of 1 to 60 characters, a lower-case
      email of the usual shape, an Indian phone number and a password hash. */
  predicate UserValid(u: User)
  {
    u.name != [] && Utf16Length(u.name) <= NAME_MAX && Trim(u.name) == u.name &&
    EmailShape(u.email) && IsLower(u.email) &&
    ValidatePhone(u.phone) && u.password != []
  }

  /** `User.findById(id)`: the position of the user with that id. */
  function FindUser(users: seq<User>, id: Id): (r: Option<nat>)
    ensures r.Some? ==> r.value < |users| && users[r.value].id == id
    ensures r.None? <==> forall k :: 0 <= k < |users| ==> users[k].id != id
  {
    FirstIndex(users, (u: User) => u.id == id)
  }

  /** `User.findOne({ $or: [{ email }, { phone }] })`, with the email lower-cased as the schema
      does to query values: whether some user already has this email or this phone. */
  predicate EmailOrPhoneTaken(users: seq<User>, email: string, phone: string)
  {
    exists k :: 0 <= k < |users| && (users[k].email == ToLower(email) || users[k].phone == phone)
  }

  /** `User.findOne({ email })`: the first user with the (lower-cased) email. */
  function FindByEmail(users: seq<User>, email: string): (r: Option<nat>)
    ensures r.Some? ==> r.value < |users| && users[r.value].email == ToLower(email)
    ensures r.None? <==> forall k :: 0 <= k < |users| ==> users[k].email != ToLower(email)
  {
    FirstIndex(users, (u: User) => u.email == ToLower(email))
  }
}
