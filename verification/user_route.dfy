/**
 * `POST /api/auth/admin` (backend/routes/user.route.js): look the user up by
 * username, compare the submitted password with the stored password field,
 * and sign a one-hour token carrying `{ id, username, role }`.
 */
module UserRoute {
  import opened Common
  import opened UserModel
  import opened AdminToken

  /** `expiresIn: '1h'`, in seconds: the signed token's `exp` is `iat` plus this. */
  const TokenLifetime: nat := 3600

  /** The `user` object of the 200 body: no id, no password. */
  datatype PublicUser = PublicUser(username: string, role: string)

  datatype LoginReply = LoginReply(
    status: nat,
    success: bool,
    message: string,
    token: Option<string>,
    user: Option<PublicUser>)

  const NotFoundReply := LoginReply(NOT_FOUND, false, "Admin not found", None, None)
  const BadPasswordReply := LoginReply(UNAUTHORIZED, false, "Invalid password", None, None)
  const ErrorReply := LoginReply(SERVER_ERROR, false, "An error occurred while logging in admin", None, None)

  /** `User.findOne({ username })`: the position of the first document with that username. */
  function FindOne(users: seq<User>, username: string): (r: Option<nat>)
    ensures r.None? ==> forall j :: 0 <= j < |users| ==> users[j].username != username
    ensures r.Some? ==> r.value < |users| && users[r.value].username == username
    ensures r.Some? ==> forall j :: 0 <= j < r.value ==> users[j].username != username
  {
    if |users| == 0 then None
    else if users[0].username == username then Some(0)
    else
      var rest := FindOne(users[1..], username);
      if rest.None? then None else Some(rest.value + 1)
  }

  /** The JavaScript test `password != admin.password`; a missing password is unequal. */
  predicate PasswordMismatch(submitted: Option<string>, stored: string) {
    submitted.None? || submitted.value != stored
  }

  /** The claims the route signs for a stored user. */
  function ClaimsOf(u: User): (c: Claims)
    ensures c.id == u.id && c.username == u.username && c.role == u.role
  {
    Claims(u.id, u.username, u.role)
  }

  /**
   * The login handler. `lookupFails` is `findOne` throwing; `sign` stands for
   * `jwt.sign` with the server's secret, `None` when it throws. Both throws land
   * in the `catch` block and answer 500.
   */
  function AdminLogin(users: seq<User>, username: string, password: Option<string>,
                      lookupFails: bool, sign: (Claims, nat) -> Option<string>): (r: LoginReply)
    ensures r.status in {OK, UNAUTHORIZED, NOT_FOUND, SERVER_ERROR}
    ensures r.token.Some? <==> r.status == OK
    ensures r.user.Some? <==> r.status == OK
    ensures lookupFails ==> r == ErrorReply
    ensures r.status == NOT_FOUND <==> !lookupFails && FindOne(users, username).None?
    ensures r.status == UNAUTHORIZED <==>
              !lookupFails && FindOne(users, username).Some?
              && PasswordMismatch(password, users[FindOne(users, username).value].password)
    ensures r.status == OK ==>
              FindOne(users, username).Some?
              && var u := users[FindOne(users, username).value];
                 password == Some(u.password)
                 && r.token == sign(ClaimsOf(u), TokenLifetime)
                 && r.user == Some(PublicUser(u.username, u.role))
    ensures !lookupFails && FindOne(users, username).Some?
            && !PasswordMismatch(password, users[FindOne(users, username).value].password) ==>
              (r.status == OK <==> sign(ClaimsOf(users[FindOne(users, username).value]), TokenLifetime).Some?)
    ensures r.status == SERVER_ERROR ==> r == ErrorReply
  {
    if lookupFails then ErrorReply
    else
      var found := FindOne(users, username);
      if found.None? then NotFoundReply
      else
        var admin := users[found.value];
        if PasswordMismatch(password, admin.password) then BadPasswordReply
        else
          var token := sign(ClaimsOf(admin), TokenLifetime);
          if token.None? then ErrorReply
          else LoginReply(OK, true, "Successful authentication", token, Some(PublicUser(admin.username, admin.role)))
  }

  /** The lookup comes first: a username nobody has gets 404 whatever the password. */
  lemma UnknownUserNeverUnauthorized(users: seq<User>, username: string, password: Option<string>,
                                     sign: (Claims, nat) -> Option<string>)
    requires forall j :: 0 <= j < |users| ==> users[j].username != username
    ensures AdminLogin(users, username, password, false, sign) == NotFoundReply
  {
  }

  /**
   * The comparison is with the stored field itself: once the save hook has
   * replaced the password by its hash, the plaintext is refused, and the hash
   * string is accepted.
   */
  lemma {:induction false} PlaintextRefusedAfterHashing(
    before: seq<User>, u: User, after: seq<User>, plaintext: string,
    hash: (string, nat) -> string, sign: (Claims, nat) -> Option<string>)
    requires forall j :: 0 <= j < |before| ==> before[j].username != u.username
    requires u.password == plaintext
    requires hash(plaintext, SaltRounds) != plaintext
    ensures AdminLogin(before + [PreSave(u, true, hash)] + after, u.username, Some(plaintext), false, sign)
         == BadPasswordReply
    ensures sign(ClaimsOf(u), TokenLifetime).Some? ==>
            AdminLogin(before + [PreSave(u, true, hash)] + after, u.username,
                       Some(hash(plaintext, SaltRounds)), false, sign).status == OK
  {
    var users := before + [PreSave(u, true, hash)] + after;
    assert users[|before|] == PreSave(u, true, hash);
    FindOneFirst(users, |before|);
  }

  /** The first position with a given username is what `FindOne` reports. */
  lemma {:induction false} FindOneFirst(users: seq<User>, k: nat)
    requires k < |users|
    requires forall j :: 0 <= j < k ==> users[j].username != users[k].username
    ensures FindOne(users, users[k].username) == Some(k)
  {
  }
}
