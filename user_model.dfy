/** The User schema: the record, its `userType` enumeration, the defaults
    applied at creation, and what a save accepts (required paths, the enum,
    the unique email index). */
module UserModel {
  import opened Js
  import opened Http
  import opened Lookup

  type UserId = nat

  /** The values the schema's `userType` enum admits. */
  datatype UserType = Admin | Logistics | DeliveryStaff | Customer

  function UserTypeName(t: UserType): string
  {
    match t
    case Admin => "admin"
    case Logistics => "logistics"
    case DeliveryStaff => "delivery"
    case Customer => "user"
  }

  /** Enum validation: a string is accepted exactly when it names a user type. */
  function ParseUserType(s: string): (r: Option<UserType>)
    ensures r.Some? ==> UserTypeName(r.value) == s
    ensures r.None? ==> forall t: UserType :: UserTypeName(t) != s
  {
    if s == "admin" then Some(Admin)
    else if s == "logistics" then Some(Logistics)
    else if s == "delivery" then Some(DeliveryStaff)
    else if s == "user" then Some(Customer)
    else None
  }

  lemma ParseUserTypeRoundTrip(t: UserType)
    ensures ParseUserType(UserTypeName(t)) == Some(t)
  {
  }

  /** Signup's fallback user type, and the type it stands for. */
  const DEFAULT_USER_TYPE: string := "user"

  lemma DefaultUserTypeIsCustomer()
    ensures ParseUserType(DEFAULT_USER_TYPE) == Some(Customer)
  {
  }

  /** A stored user. The schema declares no `isAdmin` and no `exclusive` path,
      so a record carries neither. `password` holds a bcrypt hash. */
  datatype User = User(
    id: UserId,
    name: string,
    email: string,
    password: string,
    userType: UserType,
    isAdmitted: bool,
    daysFrequency: Field<int>,
    minOrders: Field<int>)

  /** The `required: true` string paths: Mongoose rejects "" as missing. */
  predicate HasRequired(u: User)
  {
    u.name != "" && u.email != "" && u.password != ""
  }

  predicate UniqueEmails(users: seq<User>)
  {
    forall i, j :: 0 <= i < j < |users| ==> users[i].email != users[j].email
  }

  predicate UniqueIds(users: seq<User>)
  {
    forall i, j :: 0 <= i < j < |users| ==> users[i].id != users[j].id
  }

  /** What every save has guaranteed of the collection. */
  predicate ValidUsers(users: seq<User>)
  {
    (forall i :: 0 <= i < |users| ==> HasRequired(users[i]))
    && UniqueEmails(users) && UniqueIds(users)
  }

  /** `User.findById`: the position of the user with that id. */
  function FindById(users: seq<User>, id: UserId): (r: Option<nat>)
    ensures r.Some? ==> r.value < |users| && users[r.value].id == id
    ensures r.None? ==> forall j :: 0 <= j < |users| ==> users[j].id != id
  {
    FindFirst(users, IdOf, id)
  }

  function IdOf(u: User): UserId { u.id }

  /** `User.findOne({email})`: the first user with that email. */
  function FindByEmail(users: seq<User>, email: string): (r: Option<nat>)
    ensures r.Some? ==> r.value < |users| && users[r.value].email == email
    ensures r.Some? ==> forall j :: 0 <= j < r.value ==> users[j].email != email
    ensures r.None? ==> forall j :: 0 <= j < |users| ==> users[j].email != email
  {
    FindFirst(users, EmailOf, email)
  }

  function EmailOf(u: User): string { u.email }

  /** Some user other than the one at position `self` already has `email`. */
  predicate EmailTaken(users: seq<User>, self: int, email: string)
  {
    exists j :: 0 <= j < |users| && j != self && users[j].email == email
  }

  /** `user.save()` of the (possibly changed) user at position `i`: schema
      validation first, then the unique email index. */
  function SaveAt(users: seq<User>, i: nat, u: User): (r: Result<seq<User>>)
    requires i < |users|
    requires ValidUsers(users) && u.id == users[i].id
    ensures r.Success? <==> HasRequired(u) && !EmailTaken(users, i, u.email)
    ensures !HasRequired(u) ==> r == Failure(ServerError(ValidationFailed))
    ensures HasRequired(u) && EmailTaken(users, i, u.email) ==> r == Failure(ServerError(DuplicateKey))
    ensures r.Success? ==> r.value == users[i := u] && ValidUsers(r.value)
  {
    if !HasRequired(u) then Failure(ServerError(ValidationFailed))
    else if EmailTaken(users, i, u.email) then Failure(ServerError(DuplicateKey))
    else Success(users[i := u])
  }

  /** `newUser.save()` of a user not yet stored. */
  function Insert(users: seq<User>, u: User): (r: Result<seq<User>>)
    requires ValidUsers(users)
    requires forall j :: 0 <= j < |users| ==> users[j].id != u.id
    ensures r.Success? <==> HasRequired(u) && !EmailTaken(users, -1, u.email)
    ensures !HasRequired(u) ==> r == Failure(ServerError(ValidationFailed))
    ensures HasRequired(u) && EmailTaken(users, -1, u.email) ==> r == Failure(ServerError(DuplicateKey))
    ensures r.Success? ==> r.value == users + [u] && ValidUsers(r.value)
  {
    if !HasRequired(u) then Failure(ServerError(ValidationFailed))
    else if EmailTaken(users, -1, u.email) then Failure(ServerError(DuplicateKey))
    else Success(users + [u])
  }
}
