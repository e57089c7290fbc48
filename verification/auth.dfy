/**
 * The client-side authentication state of ContaSimples (AuthProvider).
 *
 * Three pieces of state take part:
 *  - the device store (localStorage), of which the provider uses two keys,
 *    one for the bearer token and one for the serialised user;
 *  - the default authorization header of the HTTP client, a single global slot;
 *  - the provider's in-memory data, the JavaScript object {} or {token, user}.
 *
 * The in-memory data is modelled field by field: each of token and user is
 * either present or undefined. Signing out gives {}, signing in or a restore
 * gives both fields, and updating the user while signed out gives an object
 * with a user and no token.
 */
module Auth {
  import opened Wrappers
  import opened UserJson

  const TokenKey: string := "@ContaSimples:token"
  const UserKey: string := "@ContaSimples:user"

  datatype AuthData = AuthData(token: Option<string>, user: Option<User>)

  /** The object {}: signed out. */
  const Empty: AuthData := AuthData(None, None)

  function Active(token: string, user: User): AuthData
  {
    AuthData(Some(token), Some(user))
  }

  /** The body of a successful POST /sessions response. */
  datatype Session = Session(token: string, user: User)

  /** Why the POST /sessions request was rejected. */
  datatype RequestError = HttpError(status: int) | NetworkError

  /** localStorage.getItem: null (None) for a key never written or removed. */
  function GetItem(store: map<string, string>, key: string): Option<string>
  {
    if key in store then Some(store[key]) else None
  }

  /** JavaScript truthiness of a getItem result: not null and not "". */
  predicate Truthy(v: Option<string>)
  {
    v.Some? && v.value != ""
  }

  function Bearer(token: string): string
  {
    "Bearer " + token
  }

  /** What the provider starts with: its data and the header after the restore. */
  datatype Loaded = Loaded(data: AuthData, header: Option<string>)

  /**
   * JSON.parse threw on the stored user. The header had already been
   * written by then, and the restore ends without any data.
   */
  datatype LoadError = MalformedUser(header: Option<string>)

  /**
   * The restore run when the provider is created, as a function of the
   * store and of the header it finds. LoadOutcome states what it yields.
   */
  function Load(store: map<string, string>, header: Option<string>): Result<Loaded, LoadError>
  {
    var token := GetItem(store, TokenKey);
    var user := GetItem(store, UserKey);
    if Truthy(token) && Truthy(user) then
      var h := Some(Bearer(token.value));
      match Decode(user.value)
      case Some(u) => Ok(Loaded(Active(token.value, u), h))
      case None => Err(MalformedUser(h))
    else
      Ok(Loaded(Empty, header))
  }

  /**
   * The restore never yields a partial state: either nothing is held and
   * the header is left alone, or a non-empty token and the user parsed from
   * the user key are held and the header carries that token. It fails only
   * when both keys are truthy and the stored user does not parse; when they
   * are truthy and it parses, the restore holds that token and user.
   */
  lemma LoadOutcome(store: map<string, string>, header: Option<string>)
    ensures var r := Load(store, header);
      r.Ok? ==> r.value.data == Empty || (r.value.data.token.Some? && r.value.data.user.Some?)
    ensures var r := Load(store, header);
      r.Ok? && r.value.data == Empty ==> r.value.header == header
    ensures var r := Load(store, header);
      r.Ok? && r.value.data != Empty ==>
        && r.value.data.token.Some? && r.value.data.token.value != ""
        && GetItem(store, TokenKey) == r.value.data.token
        && Truthy(GetItem(store, UserKey))
        && Decode(store[UserKey]) == Some(r.value.data.user.value)
        && r.value.header == Some(Bearer(r.value.data.token.value))
    ensures !(Truthy(GetItem(store, TokenKey)) && Truthy(GetItem(store, UserKey))) ==>
      Load(store, header) == Ok(Loaded(Empty, header))
    ensures (Truthy(GetItem(store, TokenKey)) && Truthy(GetItem(store, UserKey))
             && Decode(store[UserKey]).Some?) ==>
      Load(store, header)
        == Ok(Loaded(Active(store[TokenKey], Decode(store[UserKey]).value), Some(Bearer(store[TokenKey]))))
    ensures var r := Load(store, header);
      r.Err? ==>
        && Truthy(GetItem(store, TokenKey)) && Truthy(GetItem(store, UserKey))
        && Decode(store[UserKey]).None?
        && r.error.header == Some(Bearer(store[TokenKey]))
  {
  }

  /**
   * Memory and device agree: restoring from the store now would give back
   * exactly the data held and the header in force.
   */
  ghost predicate ReloadAgrees(store: map<string, string>, data: AuthData, header: Option<string>)
  {
    Load(store, header) == Ok(Loaded(data, header))
  }

  /**
   * Creating the provider: reads both keys, and when both are truthy sets
   * the header and then parses the stored user.
   */
  method Mount(device: map<string, string>, header0: Option<string>) returns (r: Result<AuthProvider, LoadError>)
    ensures Load(device, header0).Err? ==> r == Err(Load(device, header0).error)
    ensures Load(device, header0).Ok? ==>
      && r.Ok? && fresh(r.value)
      && r.value.store == device
      && r.value.data == Load(device, header0).value.data
      && r.value.header == Load(device, header0).value.header
    ensures r.Ok? ==> r.value.Coherent()
  {
    var token := GetItem(device, TokenKey);
    var user := GetItem(device, UserKey);
    var header := header0;
    if Truthy(token) && Truthy(user) {
      header := Some(Bearer(token.value));
      var parsed := Decode(user.value);
      if parsed.None? {
        return Err(MalformedUser(header));
      }
      var p := new AuthProvider.Mounted(device, header, Active(token.value, parsed.value));
      return Ok(p);
    }
    var p := new AuthProvider.Mounted(device, header, Empty);
    r := Ok(p);
  }

  class AuthProvider {
    /** localStorage */
    var store: map<string, string>
    /** api.defaults.headers.authorization */
    var header: Option<string>
    /** the provider's in-memory data */
    var data: AuthData

    constructor Mounted(store0: map<string, string>, header0: Option<string>, data0: AuthData)
      ensures store == store0 && header == header0 && data == data0
    {
      store, header, data := store0, header0, data0;
    }

    ghost predicate Coherent()
      reads this
    {
      ReloadAgrees(store, data, header)
    }

    /** Removes both keys and forgets the data; the header is left as it is. */
    method SignOut()
      modifies this
      ensures store == old(store) - {TokenKey, UserKey}
      ensures data == Empty && header == old(header)
      ensures Coherent()
    {
      store := store - {TokenKey};
      store := store - {UserKey};
      data := Empty;
      SignOutReloadsEmpty(old(store), header);
    }

    /**
     * Signs in with the outcome of POST /sessions. A rejected request ends
     * the call before any effect; an accepted one writes the token and the
     * serialised user, sets the header and replaces the data, whatever was
     * held before.
     */
    method SignIn(response: Result<Session, RequestError>) returns (r: Result<(), RequestError>)
      modifies this
      ensures response.Err? ==> r == Err(response.error) && unchanged(this)
      ensures response.Ok? ==>
        && r == Ok(())
        && store == old(store)[TokenKey := response.value.token][UserKey := Encode(response.value.user)]
        && header == Some(Bearer(response.value.token))
        && data == Active(response.value.token, response.value.user)
      ensures response.Ok? && response.value.token != "" ==> Coherent()
    {
      if response.Err? {
        return Err(response.error);
      }
      var Session(token, user) := response.value;
      var written := store[TokenKey := token][UserKey := Encode(user)];
      if token != "" {
        SignInReloads(store, token, user);
        assert ReloadAgrees(written, Active(token, user), Some(Bearer(token)));
      }
      store := written;
      header := Some(Bearer(token));
      data := Active(token, user);
      r := Ok(());
    }

    /**
     * Rewrites the stored user and keeps the token held in memory, whether
     * or not there is one.
     */
    method UpdateUser(user: User)
      modifies this
      ensures store == old(store)[UserKey := Encode(user)]
      ensures data == AuthData(old(data).token, Some(user))
      ensures header == old(header)
      ensures old(Coherent()) && old(data).token.Some? ==> Coherent()
    {
      ghost var before := store;
      store := store[UserKey := Encode(user)];
      data := AuthData(data.token, Some(user));
      if old(Coherent()) && old(data).token.Some? {
        UpdateUserKeepsAgreement(before, old(data), header, user);
      }
    }
  }

  /** After signing in with a non-empty token, a restore gives back the same session. */
  lemma SignInReloads(store: map<string, string>, token: string, user: User)
    requires token != ""
    ensures ReloadAgrees(store[TokenKey := token][UserKey := Encode(user)], Active(token, user), Some(Bearer(token)))
  {
    var s := store[TokenKey := token][UserKey := Encode(user)];
    assert GetItem(s, TokenKey) == Some(token);
    assert GetItem(s, UserKey) == Some(Encode(user));
    DecodeEncode(user);
  }

  /** A token stored as "" is falsy: a restore after such a sign-in holds nothing. */
  lemma EmptyTokenIsNotRestored(store: map<string, string>, header: Option<string>, user: User)
    ensures Load(store[TokenKey := ""][UserKey := Encode(user)], header) == Ok(Loaded(Empty, header))
    ensures !ReloadAgrees(store[TokenKey := ""][UserKey := Encode(user)], Active("", user), Some(Bearer("")))
  {
    var s := store[TokenKey := ""][UserKey := Encode(user)];
    assert GetItem(s, TokenKey) == Some("");
  }

  /** After signing out, a restore holds nothing and leaves the header alone. */
  lemma SignOutReloadsEmpty(store: map<string, string>, header: Option<string>)
    ensures ReloadAgrees(store - {TokenKey} - {UserKey}, Empty, header)
  {
    assert GetItem(store - {TokenKey} - {UserKey}, TokenKey) == None;
  }

  /** Updating the user while a token is held keeps memory and device in agreement. */
  lemma UpdateUserKeepsAgreement(store: map<string, string>, data: AuthData, header: Option<string>, user: User)
    requires ReloadAgrees(store, data, header) && data.token.Some?
    ensures ReloadAgrees(store[UserKey := Encode(user)], AuthData(data.token, Some(user)), header)
  {
    var s := store[UserKey := Encode(user)];
    assert GetItem(s, TokenKey) == GetItem(store, TokenKey);
    assert GetItem(s, UserKey) == Some(Encode(user));
    DecodeEncode(user);
  }

  /**
   * Updating the user while no token is stored (after a sign-out, say)
   * stores a user with no token beside it: memory now holds a user, but a
   * restore holds nothing.
   */
  lemma UpdateUserWithoutTokenIsLost(store: map<string, string>, header: Option<string>, user: User)
    requires !Truthy(GetItem(store, TokenKey))
    ensures Truthy(GetItem(store[UserKey := Encode(user)], UserKey))
    ensures Load(store[UserKey := Encode(user)], header) == Ok(Loaded(Empty, header))
    ensures !ReloadAgrees(store[UserKey := Encode(user)], AuthData(None, Some(user)), header)
  {
    var s := store[UserKey := Encode(user)];
    assert GetItem(s, UserKey) == Some(Encode(user));
    assert GetItem(s, TokenKey) == GetItem(store, TokenKey);
  }

  /** Restoring from what a restore left behind changes nothing. */
  lemma LoadIsStable(store: map<string, string>, header: Option<string>)
    requires Load(store, header).Ok?
    ensures ReloadAgrees(store, Load(store, header).value.data, Load(store, header).value.header)
  {
  }

  /**
   * A page reload after a successful sign-in, with a fresh HTTP client and
   * no header, comes back signed in as the same user.
   */
  method RestartAfterSignIn(p: AuthProvider, session: Session) returns (q: Result<AuthProvider, LoadError>)
    requires session.token != ""
    modifies p
    ensures q.Ok? && q.value.data == Active(session.token, session.user)
    ensures q.value.header == Some(Bearer(session.token))
  {
    var _ := p.SignIn(Ok(session));
    q := Mount(p.store, None);
  }

  /** Signing out twice leaves the same store, data and header as signing out once. */
  method SignOutTwice(p: AuthProvider)
    modifies p
    ensures p.store == old(p.store) - {TokenKey, UserKey}
    ensures p.data == Empty && p.header == old(p.header)
  {
    p.SignOut();
    p.SignOut();
  }

  /**
   * Signing out, then updating the user, then reloading the page with a
   * fresh HTTP client: memory held the user, but the reload comes back
   * signed out.
   */
  method RestartAfterUpdateWhileSignedOut(p: AuthProvider, user: User) returns (q: Result<AuthProvider, LoadError>)
    modifies p
    ensures p.data == AuthData(None, Some(user))
    ensures q.Ok? && q.value.data == Empty
  {
    p.SignOut();
    p.UpdateUser(user);
    UpdateUserWithoutTokenIsLost(p.store - {UserKey}, None, user);
    assert p.store == (p.store - {UserKey})[UserKey := Encode(user)];
    q := Mount(p.store, None);
  }
}
