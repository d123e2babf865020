/**
 * The User schema (backend/models/user.model.js): three required string paths,
 * `role` restricted to 'user' or 'admin', and the `pre('save')` hook that
 * replaces the password by its bcrypt hash only when the password changed.
 */
module UserModel {
  import opened Common

  datatype User = User(id: Id, username: string, password: string, role: string)

  /** The values the `enum` rule allows for `role`. */
  const Roles: set<string> := {"user", "admin"}

  /** The salt-rounds argument the hook passes to `bcrypt.hash`. */
  const SaltRounds: nat := 10

  /** The schema's rules: all three paths required, `role` one of `Roles`. */
  predicate ValidUser(u: User) {
    |u.username| > 0 && |u.password| > 0 && u.role in Roles
  }

  /**
   * The `pre('save')` hook. `hash` stands for `bcrypt.hash` (salt included);
   * `passwordModified` is `this.isModified('password')`.
   */
  function PreSave(u: User, passwordModified: bool, hash: (string, nat) -> string): (r: User)
    ensures !passwordModified ==> r == u
    ensures passwordModified ==> r.password == hash(u.password, SaltRounds)
    ensures r.(password := u.password) == u
  {
    if !passwordModified then u
    else u.(password := hash(u.password, SaltRounds))
  }

  /**
   * `user.save()`: the schema validators run first, then the hook; a document
   * that fails validation is not saved.
   */
  function SaveUser(u: User, passwordModified: bool, hash: (string, nat) -> string): (r: Option<User>)
    ensures r.Some? <==> ValidUser(u)
    ensures r.Some? ==> r.value == PreSave(u, passwordModified, hash)
  {
    if ValidUser(u) then Some(PreSave(u, passwordModified, hash)) else None
  }

  /**
   * `this.isModified('password')` when `u` is saved: on a new document (`loaded`
   * is `None`) every set path counts as modified; on a loaded one the password
   * is modified only when it was assigned a value other than the one read.
   */
  predicate PasswordModified(loaded: Option<User>, u: User) {
    loaded.None? || loaded.value.password != u.password
  }

  /** `doc.save()` for a document that is new or was read as `loaded`. */
  function SaveDocument(loaded: Option<User>, u: User, hash: (string, nat) -> string): (r: Option<User>)
    ensures r.Some? <==> ValidUser(u)
    ensures r.Some? && PasswordModified(loaded, u) ==> r.value == u.(password := hash(u.password, SaltRounds))
    ensures r.Some? && !PasswordModified(loaded, u) ==> r.value == u
  {
    SaveUser(u, PasswordModified(loaded, u), hash)
  }

  /**
   * A new user is stored with the hash of the password; loading that document
   * and saving it again stores it as it is: a stored hash is never hashed twice.
   */
  lemma ResaveDoesNotRehash(u: User, hash: (string, nat) -> string)
    requires ValidUser(u) && |hash(u.password, SaltRounds)| > 0
    ensures SaveDocument(None, u, hash).Some?
    ensures var first := SaveDocument(None, u, hash).value;
            first.password == hash(u.password, SaltRounds) && SaveDocument(Some(first), first, hash) == Some(first)
  {
  }
}
