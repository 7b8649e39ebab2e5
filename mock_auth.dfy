/** The mock login back end (`mockAuthService.ts`): one account in a
    record keyed by username, a password comparison and a response that
    carries the account without its password and a generated token. */
module MockAuth {
  import opened Common
  import opened JsText
  import opened AuthTypes

  datatype MockUser = MockUser(info: UserInfo, password: string)

  /** `MOCK_USERS`. Other property names of the record (those it inherits)
      have no `password`, so they fail the comparison like a missing name. */
  const MockUsers: map<string, MockUser> := map[
    "admin" := MockUser(UserInfo("1", "admin", Some("admin@example.com"), "administrator", Some("Quản trị viên")),
                        "admin1122")]

  const WrongCredentialsMessage := "Tên đăng nhập hoặc mật khẩu không đúng!"
  const LoginSucceededMessage := "Đăng nhập thành công!"
  const TokenPrefix := "mock_token_"
  const TokenLifetime: int := 3600

  /** `mock_token_${Date.now()}_${random}`; `now` is `Date.now()` and
      `randomPart` the nine base-36 digits drawn from `Math.random()`. */
  function MockToken(now: nat, randomPart: string): string
  {
    TokenPrefix + NatToString(now) + "_" + randomPart
  }

  /** `mockLogin(request)` without its delay. */
  function MockLogin(request: LoginRequest, now: nat, randomPart: string): LoginResponse
  {
    if request.username !in MockUsers || MockUsers[request.username].password != request.password then
      LoginResponse(false, WrongCredentialsMessage, None)
    else
      var u := MockUsers[request.username].info;
      LoginResponse(true, LoginSucceededMessage,
                    Some(LoginData(Some(MockToken(now, randomPart)),
                                   Some(UserInfo(u.id, u.username, u.email, u.role, u.displayName)),
                                   Some(TokenLifetime))))
  }

  /** Only `admin` with `admin1122` logs in. */
  lemma LoginSucceedsIff(request: LoginRequest, now: nat, randomPart: string)
    ensures MockLogin(request, now, randomPart).success <==>
              request.username == "admin" && request.password == "admin1122"
  {
  }

  /** An unknown username and a wrong password get the same answer: a
      failure with the one message and no data. */
  lemma FailuresLookAlike(request: LoginRequest, now: nat, randomPart: string)
    requires !MockLogin(request, now, randomPart).success
    ensures MockLogin(request, now, randomPart) == LoginResponse(false, WrongCredentialsMessage, None)
  {
  }

  /** A success carries the account's id, username, email, role and
      display name, a token starting with `mock_token_` and a lifetime of
      3600 seconds. */
  lemma SuccessShape(request: LoginRequest, now: nat, randomPart: string)
    requires MockLogin(request, now, randomPart).success
    ensures var r := MockLogin(request, now, randomPart);
            r.message == LoginSucceededMessage && r.data.Some?
            && r.data.value.user == Some(MockUsers[request.username].info)
            && r.data.value.expiresIn == Some(3600)
            && r.data.value.token.Some? && StartsWith(r.data.value.token.value, TokenPrefix)
            && r.data.value.token.value != ""
  {
    var t := MockToken(now, randomPart);
    assert t[..|TokenPrefix|] == TokenPrefix;
  }
}
