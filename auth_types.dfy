/** The types of the authentication layer (`types/auth.ts`): the login
    request and response, the user record handed to the pages, the
    service's state and the keys it uses in the browser's stores. */
module AuthTypes {
  import opened Common

  datatype LoginRequest = LoginRequest(username: string, password: string, rememberMe: Option<bool>)

  /** `UserInfo`; it has no password field. */
  datatype UserInfo = UserInfo(id: string, username: string, email: Option<string>, role: string,
                               displayName: Option<string>)

  datatype LoginData = LoginData(token: Option<string>, user: Option<UserInfo>, expiresIn: Option<int>)

  datatype LoginResponse = LoginResponse(success: bool, message: string, data: Option<LoginData>)

  datatype AuthState = AuthState(isAuthenticated: bool, user: Option<UserInfo>, token: Option<string>)

  const LoggedOut := AuthState(false, None, None)

  /** `STORAGE_KEYS` */
  const LoginStateKey := "isLoggedIn"
  const RememberMeKey := "rememberMe"
  const UserInfoKey := "userInfo"
  const AuthTokenKey := "authToken"

  /** `Object.values(STORAGE_KEYS)`, in declaration order. */
  const StorageKeys: seq<string> := [LoginStateKey, RememberMeKey, UserInfoKey, AuthTokenKey]
}
