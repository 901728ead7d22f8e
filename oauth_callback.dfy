/** The page the OAuth provider redirects back to: it reads `token` and `error` from the
    query string, stores the token when sign-in succeeded, and navigates exactly once. */
module OAuthCallback {
  import opened Common
  import opened AuthContext

  const OAuthFailed := "/login?error=oauth_failed"
  const NoToken := "/login?error=no_token"
  const Dashboard := "/dashboard"

  /** Where the callback goes: an error (any non-empty value) wins over a token; a
      non-empty token goes to the dashboard; anything else back to the login page. */
  function CallbackTarget(token: Option<string>, error: Option<string>): (path: string)
    ensures path == OAuthFailed <==> Truthy(error)
    ensures path == Dashboard <==> !Truthy(error) && Truthy(token)
    ensures path == NoToken <==> !Truthy(error) && !Truthy(token)
  {
    if Truthy(error) then OAuthFailed
    else if Truthy(token) then Dashboard
    else NoToken
  }

  /** The effect of the page: the token is saved only on the way to the dashboard, and the
      single navigation follows the save. */
  method HandleCallback(token: Option<string>, error: Option<string>, store: TokenStore)
    returns (navigateTo: string)
    modifies store
    ensures navigateTo == CallbackTarget(token, error)
    ensures navigateTo == Dashboard ==> store.token == token
    ensures navigateTo != Dashboard ==> store.token == old(store.token)
  {
    if Truthy(error) {
      return OAuthFailed;
    }
    if Truthy(token) {
      store.SaveToken(token.value);
      navigateTo := Dashboard;
    } else {
      navigateTo := NoToken;
    }
  }

  /** A successful callback followed by a start-up signs in exactly the user the server
      returns for the new token. */
  method CallbackThenStartUp(token: string, validation: Outcome<User>)
    returns (signedIn: bool)
    requires token != ""
    ensures signedIn <==> validation.Ok?
  {
    var store := new TokenStore(None);
    var target := HandleCallback(Some(token), None, store);
    var session := new AuthSession(store);
    var effects := session.InitAuth(validation);
    signedIn := session.IsAuthenticated();
  }
}
