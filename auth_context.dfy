/** The session: the signed-in user held in memory and the token kept in the browser's
    storage. On start-up a stored token is checked against the server; login stores both,
    logout clears both. The storage is a plain field; the profile request is an oracle. */
module AuthContext {
  import opened Common

  datatype User = User(id: string, name: string, email: string, avatar: Option<string>)

  /** The `token` entry of the browser's local storage. */
  class TokenStore {
    var token: Option<string>

    constructor(initial: Option<string>)
      ensures token == initial
    {
      token := initial;
    }

    method SaveToken(t: string)
      modifies this
      ensures token == Some(t)
    {
      token := Some(t);
    }

    method RemoveToken()
      modifies this
      ensures token.None?
    {
      token := None;
    }
  }

  datatype Effect = FetchProfile(bearer: string)

  class AuthSession {
    const store: TokenStore
    var user: Option<User>
    var loading: bool

    constructor(store: TokenStore)
      ensures this.store == store && user.None? && loading
    {
      this.store := store;
      user := None;
      loading := true;
    }

    /** `isAuthenticated`: a user is held; the stored token plays no part. */
    predicate IsAuthenticated()
      reads this
    {
      user.Some?
    }

    /** `initAuth`. A missing or empty stored token means no request and no change. Otherwise
        the profile is requested with the token; a valid answer becomes the user, and an
        invalid answer or a failed request removes the token. Loading ends on every path. */
    method InitAuth(validation: Outcome<User>) returns (effects: seq<Effect>)
      modifies this`user, this`loading, store
      ensures !loading
      ensures !Truthy(old(store.token)) ==>
                effects == [] && user == old(user) && store.token == old(store.token)
      ensures Truthy(old(store.token)) ==> effects == [FetchProfile(old(store.token).value)]
      ensures Truthy(old(store.token)) && validation.Ok? ==>
                user == Some(validation.value) && store.token == old(store.token)
      ensures Truthy(old(store.token)) && validation.Err? ==>
                user == old(user) && store.token.None?
    {
      effects := [];
      var token := store.token;
      if Truthy(token) {
        effects := [FetchProfile(token.value)];
        match validation {
          case Ok(u) =>
            user := Some(u);
          case Err(_) =>
            store.RemoveToken();
        }
      }
      loading := false;
    }

    /** `login`: the token is stored and the user held. */
    method Login(token: string, u: User)
      modifies this`user, store
      ensures store.token == Some(token) && user == Some(u)
      ensures IsAuthenticated()
    {
      store.SaveToken(token);
      user := Some(u);
    }

    /** `logout`: no token and no user, whatever the state before, so a second logout
        changes nothing. */
    method Logout()
      modifies this`user, store
      ensures store.token.None? && user.None?
      ensures !IsAuthenticated()
    {
      store.RemoveToken();
      user := None;
    }
  }

  /** Start-up with an empty or missing token leaves nobody signed in; start-up that fails
      validation also leaves nobody signed in and no token behind. */
  method StartUp(stored: Option<string>, validation: Outcome<User>)
    returns (signedIn: bool, tokenLeft: Option<string>)
    ensures signedIn <==> Truthy(stored) && validation.Ok?
    ensures !Truthy(stored) ==> tokenLeft == stored
    ensures Truthy(stored) && validation.Err? ==> tokenLeft.None?
    ensures Truthy(stored) && validation.Ok? ==> tokenLeft == stored
  {
    var store := new TokenStore(stored);
    var session := new AuthSession(store);
    var _ := session.InitAuth(validation);
    signedIn := session.IsAuthenticated();
    tokenLeft := store.token;
  }
}
