/** The user routes: the admin update of `PUT /:id`, the caller's own
    `PUT /profile`, `GET /:id`, signin and signup. Request fields are merged
    into the stored user by three different rules: `||` (a falsy value
    keeps the old one), `??` (only null or undefined keep it) and plain
    assignment. bcrypt is an oracle: a fresh hash is a parameter, because
    of its random salt, and comparison a function parameter. */
module UserRoutes {
  import opened Js
  import opened Http
  import opened UserModel
  import Auth

  // ------------------------------------------------------------ admin update

  /** The body of `PUT /:id`. `exclusive` is read but is no path of the schema. */
  datatype AdminBody = AdminBody(
    name: Field<string>,
    email: Field<string>,
    userType: Field<string>,
    isAdmitted: Field<bool>,
    exclusive: Field<bool>,
    daysFrequency: Field<int>,
    minOrders: Field<int>)

  /** The user after the seven assignments, or the enum validation failure
      a truthy `userType` outside the enumeration causes at save. */
  function AdminMerge(u: User, b: AdminBody): (r: Result<User>)
    ensures r.Failure? <==> TruthyString(b.userType) && ParseUserType(b.userType.value).None?
    ensures r.Failure? ==> r.error == ServerError(ValidationFailed)
    ensures r.Success? ==>
      && r.value.id == u.id && r.value.password == u.password
      && (TruthyString(b.name) ==> r.value.name == b.name.value)
      && (!TruthyString(b.name) ==> r.value.name == u.name)
      && (TruthyString(b.email) ==> r.value.email == b.email.value)
      && (!TruthyString(b.email) ==> r.value.email == u.email)
      && (TruthyString(b.userType) ==> UserTypeName(r.value.userType) == b.userType.value)
      && (!TruthyString(b.userType) ==> r.value.userType == u.userType)
      && (b.isAdmitted.Present? ==> r.value.isAdmitted == b.isAdmitted.value)
      && (!b.isAdmitted.Present? ==> r.value.isAdmitted == u.isAdmitted)
      && r.value.daysFrequency == b.daysFrequency && r.value.minOrders == b.minOrders
  {
    var t := if TruthyString(b.userType) then ParseUserType(b.userType.value) else Some(u.userType);
    if t.None? then Failure(ServerError(ValidationFailed))
    else Success(u.(name := OrString(b.name, u.name),
                    email := OrString(b.email, u.email),
                    userType := t.value,
                    isAdmitted := Coalesce(b.isAdmitted, u.isAdmitted),
                    daysFrequency := b.daysFrequency,
                    minOrders := b.minOrders))
  }

  /** `||` never empties a required path, so the merge keeps a valid user valid. */
  lemma AdminMergeKeepsRequired(u: User, b: AdminBody)
    requires HasRequired(u) && AdminMerge(u, b).Success?
    ensures HasRequired(AdminMerge(u, b).value)
  {
  }

  /** Sending the same update twice gives what sending it once gives. */
  lemma AdminMergeIdempotent(u: User, b: AdminBody)
    requires AdminMerge(u, b).Success?
    ensures AdminMerge(AdminMerge(u, b).value, b) == AdminMerge(u, b)
  {
    var once := AdminMerge(u, b).value;
    if TruthyString(b.userType) {
      ParseUserTypeRoundTrip(once.userType);
    }
  }

  /** The three rules side by side: an empty name is ignored, an explicit
      `false` is kept, an omitted `daysFrequency` clears the stored one. */
  lemma AdminMergeRules(u: User, b: AdminBody)
    requires b.name == Present("") && b.isAdmitted == Present(false) && b.daysFrequency.Undefined?
    requires u.isAdmitted && u.daysFrequency.Present?
    requires AdminMerge(u, b).Success?
    ensures AdminMerge(u, b).value.name == u.name
    ensures !AdminMerge(u, b).value.isAdmitted
    ensures AdminMerge(u, b).value.daysFrequency.Undefined?
  {
  }

  // ------------------------------------------------------------ profile update

  /** The body of `PUT /profile`. */
  datatype ProfileBody = ProfileBody(name: Field<string>, email: Field<string>, password: Field<string>)

  /** The caller's record after the merge; `newHash` is `bcrypt.hashSync(password, 8)`. */
  function ProfileMerge(u: User, b: ProfileBody, newHash: string): (r: User)
    ensures TruthyString(b.name) ==> r.name == b.name.value
    ensures !TruthyString(b.name) ==> r.name == u.name
    ensures TruthyString(b.email) ==> r.email == b.email.value
    ensures !TruthyString(b.email) ==> r.email == u.email
    ensures TruthyString(b.password) ==> r.password == newHash
    ensures !TruthyString(b.password) ==> r.password == u.password
    ensures r.(name := u.name, email := u.email, password := u.password) == u
  {
    var v := u.(name := OrString(b.name, u.name), email := OrString(b.email, u.email));
    if TruthyString(b.password) then v.(password := newHash) else v
  }

  /** What `PUT /profile` answers. The schema has no `isAdmin`, so it is undefined. */
  datatype ProfileReply = ProfileReply(id: UserId, name: string, email: string, isAdmin: JsValue, token: Auth.Claims)

  function ProfileReplyOf(u: User): (r: ProfileReply)
    ensures r.id == u.id && r.name == u.name && r.email == u.email
    ensures r.isAdmin == Undef && r.token == Auth.TokenClaims(u)
  {
    ProfileReply(u.id, u.name, u.email, Undef, Auth.TokenClaims(u))
  }

  // ------------------------------------------------------------ reads

  /** `GET /:id`. */
  function GetUser(users: seq<User>, id: UserId): (r: Result<User>)
    ensures r.Success? <==> exists j :: 0 <= j < |users| && users[j].id == id
    ensures r.Success? ==> r.value in users && r.value.id == id
    ensures r.Failure? ==> r.error == USER_NOT_FOUND
  {
    match FindById(users, id)
    case None => Failure(USER_NOT_FOUND)
    case Some(i) => Success(users[i])
  }

  // ------------------------------------------------------------ signin

  /** What a successful signin answers. The schema has no `exclusive`, so it is undefined. */
  datatype SigninReply = SigninReply(
    id: UserId,
    name: string,
    email: string,
    userType: UserType,
    isAdmitted: bool,
    exclusive: JsValue,
    token: Auth.Claims)

  function SigninReplyOf(u: User): SigninReply
  {
    SigninReply(u.id, u.name, u.email, u.userType, u.isAdmitted, Undef, Auth.TokenClaims(u))
  }

  /** `POST /signin`. `compare` is `bcrypt.compareSync`, which throws when the
      password is missing, so that case only arises once the email is found. */
  function Signin(users: seq<User>, email: string, password: Field<string>,
                  compare: (string, string) -> bool): (r: Result<SigninReply>)
    ensures FindByEmail(users, email).None? ==> r == Failure(INVALID_CREDENTIALS)
    ensures FindByEmail(users, email).Some? && !password.Present? ==> r == Failure(ServerError(IllegalArguments))
    ensures FindByEmail(users, email).Some? && password.Present? ==>
      var u := users[FindByEmail(users, email).value];
      && (compare(password.value, u.password) ==> r == Success(SigninReplyOf(u)))
      && (!compare(password.value, u.password) ==> r == Failure(INVALID_CREDENTIALS))
  {
    match FindByEmail(users, email)
    case None => Failure(INVALID_CREDENTIALS)
    case Some(i) =>
      if !password.Present? then Failure(ServerError(IllegalArguments))
      else if compare(password.value, users[i].password) then Success(SigninReplyOf(users[i]))
      else Failure(INVALID_CREDENTIALS)
  }

  /** An unknown email and a wrong password cannot be told apart. */
  lemma SigninHidesWhichFailed(users: seq<User>, unknown: string, known: string, password: string,
                               compare: (string, string) -> bool)
    requires forall j :: 0 <= j < |users| ==> users[j].email != unknown
    requires exists j :: 0 <= j < |users| && users[j].email == known && !compare(password, users[j].password)
    requires UniqueEmails(users)
    ensures Signin(users, unknown, Present(password), compare) == Signin(users, known, Present(password), compare)
    ensures Signin(users, known, Present(password), compare) == Failure(INVALID_CREDENTIALS)
  {
    var j :| 0 <= j < |users| && users[j].email == known && !compare(password, users[j].password);
    var i := FindByEmail(users, known).value;
    assert i == j;
  }

  /** A successful signin echoes the one user with that email and a token for it. */
  lemma SigninEchoesUser(users: seq<User>, email: string, password: Field<string>,
                         compare: (string, string) -> bool, j: nat)
    requires UniqueEmails(users) && j < |users| && users[j].email == email
    requires Signin(users, email, password, compare).Success?
    ensures Signin(users, email, password, compare).value == SigninReplyOf(users[j])
    ensures Signin(users, email, password, compare).value.token == Auth.TokenClaims(users[j])
    ensures password.Present? && compare(password.value, users[j].password)
  {
    var i := FindByEmail(users, email).value;
    assert i == j;
  }

  // ------------------------------------------------------------ signup

  /** The body of `POST /signup`. */
  datatype SignupBody = SignupBody(
    name: Field<string>,
    email: Field<string>,
    password: Field<string>,
    userType: Field<string>,
    isAdmitted: Field<bool>,
    exclusive: Field<bool>)

  datatype SignupReply = SignupReply(
    id: UserId,
    name: string,
    email: string,
    userType: UserType,
    isAdmitted: bool,
    token: Auth.Claims)

  /** `POST /signup` as written: the object literal evaluates
      `bcrypt.hashSync(req.body.password)` and then `user.exclusive`, and
      `user` is the `const` declared only on the next statement, so reading
      it throws before the collection is read or written. */
  function SignupAsWritten(body: SignupBody): (r: Result<SignupReply>)
    ensures !body.password.Present? ==> r == Failure(ServerError(IllegalArguments))
    ensures body.password.Present? ==> r == Failure(ServerError(ReferenceError))
  {
    if !body.password.Present? then Failure(ServerError(IllegalArguments))
    else Failure(ServerError(ReferenceError))
  }

  /** No signup request succeeds, well-formed or not. */
  lemma SignupAsWrittenAlwaysFails(body: SignupBody)
    ensures SignupAsWritten(body).Failure?
    ensures Status(SignupAsWritten(body).error) == 500
  {
  }

  /** The user the corrected signup builds (the literal reading the request's
      `exclusive`): `userType` falls back to "user", `isAdmitted` to false,
      and the schema validators run. */
  function NewUser(id: UserId, body: SignupBody, newHash: string): (r: Result<User>)
    ensures !body.password.Present? ==> r == Failure(ServerError(IllegalArguments))
    ensures body.password.Present? && r.Failure? ==> r.error == ServerError(ValidationFailed)
    ensures r.Success? <==>
      && body.password.Present? && TruthyString(body.name) && TruthyString(body.email) && newHash != ""
      && ParseUserType(OrString(body.userType, DEFAULT_USER_TYPE)).Some?
    ensures r.Success? ==>
      && r.value.id == id && r.value.name == body.name.value && r.value.email == body.email.value
      && r.value.password == newHash && HasRequired(r.value)
      && UserTypeName(r.value.userType) == OrString(body.userType, DEFAULT_USER_TYPE)
      && r.value.isAdmitted == (body.isAdmitted == Present(true))
      && r.value.daysFrequency.Undefined? && r.value.minOrders.Undefined?
  {
    if !body.password.Present? then Failure(ServerError(IllegalArguments))
    else
      var t := ParseUserType(OrString(body.userType, DEFAULT_USER_TYPE));
      if !TruthyString(body.name) || !TruthyString(body.email) || newHash == "" || t.None? then
        Failure(ServerError(ValidationFailed))
      else
        Success(User(id, body.name.value, body.email.value, newHash, t.value,
                     OrBool(body.isAdmitted, false), Undefined, Undefined))
  }

  /** Without a `userType` (or with an empty one) a new user is a customer,
      and is admitted only when the request says `true`. */
  lemma SignupDefaults(id: UserId, body: SignupBody, newHash: string)
    requires !TruthyString(body.userType) && NewUser(id, body, newHash).Success?
    ensures NewUser(id, body, newHash).value.userType == Customer
    ensures body.isAdmitted != Present(true) ==> !NewUser(id, body, newHash).value.isAdmitted
  {
    DefaultUserTypeIsCustomer();
  }

  function SignupReplyOf(u: User): SignupReply
  {
    SignupReply(u.id, u.name, u.email, u.userType, u.isAdmitted, Auth.TokenClaims(u))
  }

  /** Ids handed out so far are all below `bound`. */
  predicate UserIdsBelow(users: seq<User>, bound: UserId)
  {
    forall j :: 0 <= j < |users| ==> users[j].id < bound
  }

  // ------------------------------------------------------------ the store

  class UserStore {
    var users: seq<User>
    /** The id the next signed-up user receives. */
    var nextId: UserId

    ghost predicate Valid()
      reads this
    {
      ValidUsers(users) && UserIdsBelow(users, nextId)
    }

    constructor ()
      ensures Valid() && users == []
    {
      users := [];
      nextId := 0;
    }

    /** `PUT /:id` (admin): 404 when the id is unknown; otherwise the merge is
        saved, or the save's error is returned and nothing is stored. */
    method AdminUpdate(id: UserId, body: AdminBody) returns (r: Result<User>)
      requires Valid()
      modifies this
      ensures Valid() && nextId == old(nextId)
      ensures FindById(old(users), id).None? ==> r == Failure(USER_NOT_FOUND) && users == old(users)
      ensures FindById(old(users), id).Some? ==>
        var i := FindById(old(users), id).value;
        var m := AdminMerge(old(users)[i], body);
        && (m.Failure? ==> r == m && users == old(users))
        && (m.Success? && SaveAt(old(users), i, m.value).Failure? ==>
              r == Failure(SaveAt(old(users), i, m.value).error) && users == old(users))
        && (m.Success? && SaveAt(old(users), i, m.value).Success? ==>
              r == m && users == old(users)[i := m.value])
    {
      var found := FindById(users, id);
      if found.None? {
        return Failure(USER_NOT_FOUND);
      }
      var i := found.value;
      var user := users[i];
      user := user.(name := OrString(body.name, user.name));
      user := user.(email := OrString(body.email, user.email));
      if TruthyString(body.userType) {
        var t := ParseUserType(body.userType.value);
        if t.None? {
          return Failure(ServerError(ValidationFailed));
        }
        user := user.(userType := t.value);
      }
      user := user.(isAdmitted := Coalesce(body.isAdmitted, user.isAdmitted));
      user := user.(daysFrequency := body.daysFrequency);
      user := user.(minOrders := body.minOrders);
      var saved := SaveAt(users, i, user);
      if saved.Failure? {
        return Failure(saved.error);
      }
      users := saved.value;
      r := Success(user);
    }

    /** `PUT /profile` for the authenticated `caller`: only the caller's
        record can change, and only its name, email and password. */
    method UpdateProfile(caller: Auth.Payload, body: ProfileBody, newHash: string) returns (r: Result<ProfileReply>)
      requires Valid()
      modifies this
      ensures Valid() && nextId == old(nextId)
      ensures FindById(old(users), caller.id).None? ==> r == Failure(PROFILE_USER_NOT_FOUND) && users == old(users)
      ensures FindById(old(users), caller.id).Some? ==>
        var i := FindById(old(users), caller.id).value;
        var u := ProfileMerge(old(users)[i], body, newHash);
        && (SaveAt(old(users), i, u).Failure? ==> r == Failure(SaveAt(old(users), i, u).error) && users == old(users))
        && (SaveAt(old(users), i, u).Success? ==> r == Success(ProfileReplyOf(u)) && users == old(users)[i := u])
    {
      var found := FindById(users, caller.id);
      if found.None? {
        return Failure(PROFILE_USER_NOT_FOUND);
      }
      var i := found.value;
      var user := users[i];
      user := user.(name := OrString(body.name, user.name));
      user := user.(email := OrString(body.email, user.email));
      if TruthyString(body.password) {
        user := user.(password := newHash);
      }
      var saved := SaveAt(users, i, user);
      if saved.Failure? {
        return Failure(saved.error);
      }
      users := saved.value;
      r := Success(ProfileReplyOf(user));
    }

    /** `POST /signup` with the evident intent (the request's `exclusive`,
        not the undeclared `user`'s): build, validate, insert under a fresh id. */
    method Signup(body: SignupBody, newHash: string) returns (r: Result<SignupReply>)
      requires Valid()
      modifies this
      ensures Valid()
      ensures NewUser(old(nextId), body, newHash).Failure? ==>
        r == Failure(NewUser(old(nextId), body, newHash).error) && users == old(users) && nextId == old(nextId)
      ensures NewUser(old(nextId), body, newHash).Success? ==>
        var u := NewUser(old(nextId), body, newHash).value;
        && (Insert(old(users), u).Failure? ==>
              r == Failure(Insert(old(users), u).error) && users == old(users) && nextId == old(nextId))
        && (Insert(old(users), u).Success? ==>
              r == Success(SignupReplyOf(u)) && users == old(users) + [u] && nextId == old(nextId) + 1)
    {
      var built := NewUser(nextId, body, newHash);
      if built.Failure? {
        return Failure(built.error);
      }
      var user := built.value;
      var saved := Insert(users, user);
      if saved.Failure? {
        return Failure(saved.error);
      }
      users := saved.value;
      nextId := nextId + 1;
      r := Success(SignupReplyOf(user));
    }
  }

  /** A user who signed up can sign in with the password whose hash was stored. */
  lemma SignupThenSignin(users: seq<User>, id: UserId, body: SignupBody, newHash: string,
                         compare: (string, string) -> bool)
    requires ValidUsers(users) && forall j :: 0 <= j < |users| ==> users[j].id != id
    requires NewUser(id, body, newHash).Success?
    requires Insert(users, NewUser(id, body, newHash).value).Success?
    requires compare(body.password.value, newHash)
    ensures Signin(Insert(users, NewUser(id, body, newHash).value).value, body.email.value, body.password, compare)
            == Success(SigninReplyOf(NewUser(id, body, newHash).value))
  {
    var u := NewUser(id, body, newHash).value;
    var after := users + [u];
    assert after[|users|].email == u.email;
    var k := FindByEmail(after, u.email).value;
    assert k == |users| by {
      if k < |users| {
        assert EmailTaken(users, -1, u.email);
      }
    }
  }
}
