/** The authentication service (`authService.ts`): it keeps the current
    login in a private state and mirrors it into the browser's local store
    (for "remember me") or session store, from which a new service restores
    it. */
module AuthService {
  import opened Common
  import opened AuthTypes
  import opened JsText
  import opened MockAuth

  /** A stored value: a plain string, or the `JSON.stringify` text of a
      user record, kept opaque. */
  datatype Stored = Text(s: string) | UserJson(user: UserInfo)

  type Store = map<string, Stored>

  const LoginErrorMessage := "Có lỗi xảy ra trong quá trình đăng nhập!"

  /** `store.getItem(key) === 'true'` */
  predicate FlagSet(store: Store, key: string)
  {
    key in store && store[key] == Text("true")
  }

  /** A stored value is truthy unless it is the empty string. */
  predicate Truthy(v: Stored)
  {
    v != Text("")
  }

  /** `getUserInfoFromStorage()`: the local entry unless it is missing or
      empty, then the session entry; a text that is not a serialised user
      does not parse, which yields `null`. */
  function UserFromStores(local: Store, session: Store): (u: Option<UserInfo>)
    ensures u.Some? ==> (UserInfoKey in local && local[UserInfoKey] == UserJson(u.value))
                        || (UserInfoKey in session && session[UserInfoKey] == UserJson(u.value))
  {
    var chosen: Option<Stored> := if UserInfoKey in local && Truthy(local[UserInfoKey]) then Some(local[UserInfoKey])
                  else if UserInfoKey in session then Some(session[UserInfoKey]) else None;
    match chosen
    case Some(UserJson(u)) => Some(u)
    case _ => None
  }

  /** `localStorage.getItem(AUTH_TOKEN) || sessionStorage.getItem(AUTH_TOKEN)`;
      an entry that holds a serialised user is not read as a token. */
  function TokenFromStores(local: Store, session: Store): Option<string>
  {
    if AuthTokenKey in local && local[AuthTokenKey].Text? && local[AuthTokenKey].s != "" then Some(local[AuthTokenKey].s)
    else if AuthTokenKey in session && session[AuthTokenKey].Text? then Some(session[AuthTokenKey].s)
    else None
  }

  /** The state `initializeAuthState()` leaves: logged in exactly when
      either store's login flag is `'true'`. */
  function RestoredState(local: Store, session: Store): (a: AuthState)
    ensures a.isAuthenticated <==> FlagSet(local, LoginStateKey) || FlagSet(session, LoginStateKey)
    ensures !a.isAuthenticated ==> a == LoggedOut
  {
    if FlagSet(local, LoginStateKey) || FlagSet(session, LoginStateKey) then
      AuthState(true, UserFromStores(local, session), TokenFromStores(local, session))
    else LoggedOut
  }

  /** A token is stored only when it is a non-empty string. */
  predicate HasToken(token: Option<string>)
  {
    token.Some? && token.value != ""
  }

  /** The stores after `saveToStorage(rememberMe)` for the given user and
      token, as a pair (local, session). */
  function SavedStores(local: Store, session: Store, user: Option<UserInfo>, token: Option<string>,
                       rememberMe: bool): (Store, Store)
  {
    if rememberMe then
      var l1 := local[LoginStateKey := Text("true")][RememberMeKey := Text("true")];
      var l2 := if user.Some? then l1[UserInfoKey := UserJson(user.value)] else l1;
      var l3 := if HasToken(token) then l2[AuthTokenKey := Text(token.value)] else l2;
      (l3, session)
    else
      var s1 := session[LoginStateKey := Text("true")];
      var s2 := if user.Some? then s1[UserInfoKey := UserJson(user.value)] else s1;
      var s3 := if HasToken(token) then s2[AuthTokenKey := Text(token.value)] else s2;
      (local - {RememberMeKey}, s3)
  }

  /** A remembered login touches only the local store, sets its login and
      remember-me flags and the user and token that are present; a session
      login leaves the local store with the remember-me flag removed only. */
  lemma SavedStoresSpec(local: Store, session: Store, user: Option<UserInfo>, token: Option<string>, rememberMe: bool)
    ensures var (l, s) := SavedStores(local, session, user, token, rememberMe);
            (rememberMe ==>
               s == session && FlagSet(l, LoginStateKey) && FlagSet(l, RememberMeKey)
               && (user.Some? ==> l[UserInfoKey] == UserJson(user.value))
               && (HasToken(token) ==> l[AuthTokenKey] == Text(token.value))
               && forall k :: k in local && k !in StorageKeys ==> k in l && l[k] == local[k])
            && (!rememberMe ==>
               l == local - {RememberMeKey} && FlagSet(s, LoginStateKey)
               && (user.Some? ==> s[UserInfoKey] == UserJson(user.value))
               && (HasToken(token) ==> s[AuthTokenKey] == Text(token.value))
               && forall k :: k in session && k !in StorageKeys ==> k in s && s[k] == session[k])
  {
  }

  /** Restoring after a remembered login gives back the same user and
      token, whatever the session store holds. */
  lemma RememberedLoginRestores(local: Store, session: Store, user: UserInfo, token: string)
    requires token != ""
    ensures RestoredState(SavedStores(local, session, Some(user), Some(token), true).0, session)
            == AuthState(true, Some(user), Some(token))
  {
    var l := SavedStores(local, session, Some(user), Some(token), true).0;
    assert l[UserInfoKey] == UserJson(user);
    assert l[AuthTokenKey] == Text(token);
  }

  /** Restoring within the same session after a session login gives back
      the same user and token, when the local store holds no user or token
      of an earlier remembered login (those would be read first). */
  lemma SessionLoginRestores(local: Store, session: Store, user: UserInfo, token: string)
    requires token != ""
    requires UserInfoKey !in local && AuthTokenKey !in local
    ensures var (l, s) := SavedStores(local, session, Some(user), Some(token), false);
            RestoredState(l, s) == AuthState(true, Some(user), Some(token))
  {
    var (l, s) := SavedStores(local, session, Some(user), Some(token), false);
    assert s[LoginStateKey] == Text("true");
    assert s[UserInfoKey] == UserJson(user);
    assert s[AuthTokenKey] == Text(token);
  }

  /** Stores without the four keys restore to the logged-out state. */
  lemma ClearedStoresRestoreLoggedOut(local: Store, session: Store)
    requires forall k :: k in StorageKeys ==> k !in local && k !in session
    ensures RestoredState(local, session) == LoggedOut
  {
  }

  /** `AuthService`: the private state and the two stores it writes. */
  class Service {
    var authState: AuthState
    var local: Store
    var session: Store

    /** `new AuthService()` over the stores the browser holds. */
    constructor (local: Store, session: Store)
      ensures this.local == local && this.session == session
      ensures authState == RestoredState(local, session)
    {
      this.local := local;
      this.session := session;
      authState := RestoredState(local, session);
    }

    /** `login(request)`; `answer` is what the back end returned, `None`
        when the call threw. */
    method Login(request: LoginRequest, answer: Option<LoginResponse>) returns (response: LoginResponse)
      modifies this
      ensures answer.None? ==> response == LoginResponse(false, LoginErrorMessage, None)
      ensures answer.Some? ==> response == answer.value
      ensures answer.Some? && answer.value.success && answer.value.data.Some? ==>
                authState == AuthState(true, answer.value.data.value.user,
                                       if HasToken(answer.value.data.value.token) then answer.value.data.value.token else None)
                && (local, session) == SavedStores(old(local), old(session), authState.user, authState.token,
                                                   request.rememberMe == Some(true))
      ensures !(answer.Some? && answer.value.success && answer.value.data.Some?) ==>
                authState == old(authState) && local == old(local) && session == old(session)
    {
      if answer.None? {
        return LoginResponse(false, LoginErrorMessage, None);
      }
      response := answer.value;
      if response.success && response.data.Some? {
        var data := response.data.value;
        authState := AuthState(true, data.user, if HasToken(data.token) then data.token else None);
        SaveToStorage(request.rememberMe == Some(true));
      }
    }

    /** `saveToStorage(rememberMe)` with the current user and token. */
    method SaveToStorage(rememberMe: bool)
      modifies this`local, this`session
      ensures (local, session) == SavedStores(old(local), old(session), authState.user, authState.token, rememberMe)
    {
      var user := authState.user;
      var token := authState.token;
      if rememberMe {
        local := local[LoginStateKey := Text("true")];
        local := local[RememberMeKey := Text("true")];
        if user.Some? {
          local := local[UserInfoKey := UserJson(user.value)];
        }
        if HasToken(token) {
          local := local[AuthTokenKey := Text(token.value)];
        }
      } else {
        session := session[LoginStateKey := Text("true")];
        if user.Some? {
          session := session[UserInfoKey := UserJson(user.value)];
        }
        if HasToken(token) {
          session := session[AuthTokenKey := Text(token.value)];
        }
        local := local - {RememberMeKey};
      }
    }

    /** `logout()`: whatever the back end does, the state and both stores
        are cleared. */
    method Logout()
      modifies this
      ensures authState == LoggedOut
      ensures local == old(local) - set k | k in StorageKeys
      ensures session == old(session) - set k | k in StorageKeys
    {
      ClearAuthState();
    }

    /** `clearAuthState()`: the state is logged out and each storage key is
        removed from both stores in turn. */
    method ClearAuthState()
      modifies this
      ensures authState == LoggedOut
      ensures local == old(local) - set k | k in StorageKeys
      ensures session == old(session) - set k | k in StorageKeys
    {
      authState := LoggedOut;
      var i := 0;
      while i < |StorageKeys|
        invariant 0 <= i <= |StorageKeys| && authState == LoggedOut
        invariant local == old(local) - set k | k in StorageKeys[..i]
        invariant session == old(session) - set k | k in StorageKeys[..i]
      {
        assert StorageKeys[..i + 1] == StorageKeys[..i] + [StorageKeys[i]];
        local := local - {StorageKeys[i]};
        session := session - {StorageKeys[i]};
        i := i + 1;
      }
      assert StorageKeys[..i] == StorageKeys;
    }

    /** `getAuthState()`: a copy (a value) of the state. */
    function GetAuthState(): AuthState
      reads this
    {
      authState
    }

    function IsAuthenticated(): bool
      reads this
    {
      authState.isAuthenticated
    }

    function GetCurrentUser(): Option<UserInfo>
      reads this
    {
      authState.user
    }

    function GetToken(): Option<string>
      reads this
    {
      authState.token
    }
  }

  /** A service started over empty stores is logged out. */
  method FreshServiceIsLoggedOut() returns (s: Service)
    ensures fresh(s)
    ensures !s.IsAuthenticated() && s.GetCurrentUser().None? && s.GetToken().None?
    ensures s.GetAuthState() == LoggedOut
  {
    s := new Service(map[], map[]);
  }

  /** Logging in against the mock back end: the service becomes logged in
      as the mock account, with a `mock_token_` token, exactly for that
      account's credentials, and is otherwise left as it was. */
  method LoginWithMock(s: Service, request: LoginRequest, now: nat, randomPart: string) returns (response: LoginResponse)
    modifies s
    ensures response.success <==> request.username == "admin" && request.password == "admin1122"
    ensures response.success ==>
              s.IsAuthenticated() && s.GetCurrentUser() == Some(MockUsers["admin"].info)
              && s.GetToken().Some? && StartsWith(s.GetToken().value, TokenPrefix)
    ensures !response.success ==> s.GetAuthState() == old(s.GetAuthState())
  {
    LoginSucceedsIff(request, now, randomPart);
    if MockLogin(request, now, randomPart).success {
      SuccessShape(request, now, randomPart);
    }
    response := s.Login(request, Some(MockLogin(request, now, randomPart)));
  }

  /** After a logout a service started over the same stores is logged out:
      nothing of the login survives a reload. */
  method LogoutThenReload(s: Service) returns (reloaded: Service)
    modifies s
    ensures !s.IsAuthenticated() && fresh(reloaded) && reloaded.GetAuthState() == LoggedOut
  {
    s.Logout();
    ClearedStoresRestoreLoggedOut(s.local, s.session);
    reloaded := new Service(s.local, s.session);
  }
}
