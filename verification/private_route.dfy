/**
 * The route guard (frontend/src/routers/PrivateRoute.jsx): show a loading text,
 * render the protected page, or redirect to /login, in that order of tests.
 * The guard reads the key `loading` from the auth context, but the provider
 * (frontend/src/firebase/AuthContext.jsx) publishes `isLoading`, so the first
 * test never passes.
 */
module PrivateRoute {

  /** The JavaScript values the context holds. */
  datatype JsValue = Undefined | Null | Boolean(b: bool) | Object(ref: nat) | Function(name: string)

  predicate Truthy(v: JsValue) {
    match v
    case Undefined => false
    case Null => false
    case Boolean(b) => b
    case Object(_) => true
    case Function(_) => true
  }

  /** Destructuring `{ key } = context`: a key the object lacks reads as `undefined`. */
  function Read(context: map<string, JsValue>, key: string): JsValue {
    if key in context then context[key] else Undefined
  }

  /** The `values` object `AuthProvider` passes to `AuthContext.Provider`. */
  function AuthValues(currentUser: JsValue, isLoading: bool): map<string, JsValue> {
    map[
      "currentUser" := currentUser,
      "isLoading" := Boolean(isLoading),
      "registerUser" := Function("registerUser"),
      "logInUser" := Function("logInUser"),
      "logInWithGoogle" := Function("logInWithGoogle"),
      "logOut" := Function("logOut")]
  }

  datatype Outcome = ShowLoading | RenderChildren | Redirect(to: string, replace: bool)

  /** The guard's decision for the context it reads. */
  function Guard(context: map<string, JsValue>): (r: Outcome)
    ensures r.ShowLoading? <==> Truthy(Read(context, "loading"))
    ensures r.RenderChildren? <==> !Truthy(Read(context, "loading")) && Truthy(Read(context, "currentUser"))
    ensures r.Redirect? ==> r == Redirect("/login", true)
  {
    var currentUser := Read(context, "currentUser");
    var loading := Read(context, "loading");
    if Truthy(loading) then ShowLoading
    else if Truthy(currentUser) then RenderChildren
    else Redirect("/login", true)
  }

  /**
   * Under the real provider the loading text is never shown, not even while
   * Firebase is still resolving the session: a signed-in user gets the page and
   * everyone else, at that moment, the redirect.
   */
  lemma LoadingBranchUnreachable(currentUser: JsValue, isLoading: bool)
    ensures Guard(AuthValues(currentUser, isLoading)) != ShowLoading
    ensures Truthy(currentUser) ==> Guard(AuthValues(currentUser, isLoading)) == RenderChildren
    ensures !Truthy(currentUser) ==> Guard(AuthValues(currentUser, isLoading)) == Redirect("/login", true)
  {
    assert "loading" !in AuthValues(currentUser, isLoading);
  }
}
