/** The user controller: registration, login, logout and refresh-token rotation.
    The persistent session state is one optional refresh-token slot per user.
    Signing and verifying JWTs and checking passwords are parameters of the model:
    a signed token is a value naming its subject and a serial number that makes every issued
    token distinct, any other string a client can present is `Text`, and `jwt.verify` is any
    function from tokens to verdicts. */
module Session {
  import opened Api
  import opened JsString

  /** What a cookie or body field carries: a signed JWT (the `_id` it was issued for and the
      serial that tells issued tokens apart), or a string the server never signed. */
  datatype Token =
    | AccessToken(sub: UserId, serial: nat)
    | RefreshToken(sub: UserId, serial: nat)
    | Text(text: string)

  /** JavaScript truthiness of a token field: absent and the empty string are falsy; a signed
      token is never empty. */
  predicate TokenTruthy(t: Option<Token>) {
    t.Some? && t.value != Text("")
  }

  datatype User = User(username: string, email: string, password: string, avatar: string,
                       refreshToken: Option<Token>)

  /** The users collection and the serial the next issued token pair gets. */
  datatype Store = Store(users: seq<User>, nextSerial: nat)

  /** What `jwt.verify` with the refresh secret does with a token: decode it, or throw. */
  datatype Verdict = Verified(id: UserId) | Rejected(message: string)

  /** The `{email, username, password}` of a request body; `None` is an absent field. */
  datatype Credentials = Credentials(email: Option<string>, username: Option<string>, password: Option<string>)

  /** The pair `generateAccessAndRefreshToken` returns. */
  datatype Tokens = Tokens(accessToken: Token, refreshToken: Token)

  /** The refresh reply: the `accessToken` cookie (also in the body), the `refreshToken` cookie,
      and the body's `refreshToken` field, `None` when the body has no such key. */
  datatype Grant = Grant(accessToken: Token, refreshCookie: Token, refreshBody: Option<Token>)

  const IssueFailed := "Something went wrong while generating refresh and access tokens"
  const FieldsRequired := "username and email is required"
  const UserExists := "User already exists with this email or username"
  const AvatarRequired := "Avatar is required"
  const AvatarUploadFailed := "Avatar upload failed, please try again"
  const LoginFieldsRequired := "Username or email is required to login"
  const UserNotFound := "User not found, please register"
  const BadCredentials := "Invalid user credentials"
  const UnauthorizedRequest := "Unauthorized request"
  const InvalidRefreshToken := "Invalid refresh token"
  const TokenMismatch := "Refresh token mismatch, login again"

  /** The slot of user `i` holds nothing, or a refresh token issued to `i` before now. */
  predicate SlotOk(st: Store, i: nat)
    requires i < |st.users|
  {
    match st.users[i].refreshToken
    case None => true
    case Some(t) => t.RefreshToken? && t.sub == i && t.serial < st.nextSerial
  }

  /** The invariant every operation keeps. */
  predicate Valid(st: Store) {
    forall i :: 0 <= i < |st.users| ==> SlotOk(st, i)
  }

  /** A valid store holds no token with the serial about to be issued. */
  lemma NextSerialUnused(st: Store, t: Token)
    requires Valid(st) && !t.Text? && t.serial == st.nextSerial
    ensures forall i :: 0 <= i < |st.users| ==> st.users[i].refreshToken != Some(t)
  {
    forall i | 0 <= i < |st.users| ensures st.users[i].refreshToken != Some(t) {
      assert SlotOk(st, i);
    }
  }

  /** `generateAccessAndRefreshToken`: finds the user, signs both tokens, stores the refresh token in
      the user's slot in place of whatever was there, and saves. A missing user or a failed save is
      the helper's single 500. */
  function Issue(st: Store, u: UserId, storeUp: bool): (r: Result<(Store, Tokens)>)
    ensures r.Ok? <==> u < |st.users| && storeUp
    ensures r.Err? ==> r.error == ApiError(InternalError, IssueFailed)
    ensures r.Ok? ==>
      var (st', t) := r.value;
      && t.accessToken.AccessToken? && t.accessToken.sub == u
      && t.refreshToken.RefreshToken? && t.refreshToken.sub == u
      && |st'.users| == |st.users|
      && st'.users[u] == st.users[u].(refreshToken := Some(t.refreshToken))
      && (forall i :: 0 <= i < |st.users| && i != u ==> st'.users[i] == st.users[i])
    ensures r.Ok? && Valid(st) ==>
      && Valid(r.value.0)
      && (forall i :: 0 <= i < |st.users| ==> st.users[i].refreshToken != Some(r.value.1.refreshToken))
  {
    if u < |st.users| && storeUp then
      var n := st.nextSerial;
      var t := Tokens(AccessToken(u, n), RefreshToken(u, n));
      var st' := Store(st.users[u := st.users[u].(refreshToken := Some(t.refreshToken))], n + 1);
      assert Valid(st) ==> Valid(st') by {
        if Valid(st) {
          forall i | 0 <= i < |st'.users| ensures SlotOk(st', i) {
            assert SlotOk(st, i);
          }
        }
      }
      if Valid(st) then
        NextSerialUnused(st, t.refreshToken);
        Ok((st', t))
      else Ok((st', t))
    else Err(ApiError(InternalError, IssueFailed))
  }

  /** `{username}` or `{email}` matches the user; an absent field matches nobody. */
  predicate Matches(user: User, username: Option<string>, email: Option<string>) {
    (username.Some? && user.username == username.value) || (email.Some? && user.email == email.value)
  }

  /** `findOne({$or: [{username}, {email}]})`: the first matching user from position `from` on. */
  function FindFrom(users: seq<User>, username: Option<string>, email: Option<string>, from: nat): (r: Option<UserId>)
    requires from <= |users|
    ensures r.Some? ==> from <= r.value < |users| && Matches(users[r.value], username, email)
    ensures r.Some? ==> forall j :: from <= j < r.value ==> !Matches(users[j], username, email)
    ensures r.None? ==> forall j :: from <= j < |users| ==> !Matches(users[j], username, email)
    decreases |users| - from
  {
    if from == |users| then None
    else if Matches(users[from], username, email) then Some(from)
    else FindFrom(users, username, email, from + 1)
  }

  function FindUser(users: seq<User>, username: Option<string>, email: Option<string>): Option<UserId> {
    FindFrom(users, username, email, 0)
  }

  /** `field?.trim() === ''`: the field is present and trims to nothing. */
  predicate BlankField(f: Option<string>) {
    f.Some? && Trim(f.value) == ""
  }

  /** The field is present and made of white space only. */
  ghost predicate WhiteSpaceOnly(f: Option<string>) {
    f.Some? && Blank(f.value)
  }

  lemma BlankFieldIff(f: Option<string>)
    ensures BlankField(f) <==> WhiteSpaceOnly(f)
  {
    if f.Some? {
      TrimEmptyIffBlank(f.value);
    }
  }

  /** Adding a user with an empty slot keeps the store valid. */
  lemma AppendKeepsValid(st: Store, user: User)
    requires Valid(st) && user.refreshToken.None?
    ensures Valid(Store(st.users + [user], st.nextSerial))
  {
    var st' := Store(st.users + [user], st.nextSerial);
    forall i | 0 <= i < |st'.users| ensures SlotOk(st', i) {
      if i < |st.users| { assert SlotOk(st, i); }
    }
  }

  /** The user `registerUser` creates: the lower-cased username, the uploaded avatar's URL and an
      empty slot. */
  function NewUser(username: string, email: string, password: string, url: string): User {
    User(ToLower(username), email, password, url, None)
  }

  /** The checks of `registerUser`, in order, and the user they let through: a present field that
      trims to nothing is a 400; a user with the same raw username or email is a 409; no avatar
      file is a 400; a failed upload is a 500; and an absent field fails at creation (the schema's
      required fields, or `toLowerCase` of `undefined`). `avatarFile` says whether multer saw a
      file; `uploadedUrl` is what the upload returned. */
  function Vet(st: Store, body: Credentials, avatarFile: bool, uploadedUrl: Option<string>)
    : (r: Result<User>)
    ensures r.Ok? ==>
      && body.email.Some? && body.username.Some? && body.password.Some? && uploadedUrl.Some?
      && r.value == NewUser(body.username.value, body.email.value, body.password.value, uploadedUrl.value)
  {
    if BlankField(body.email) || BlankField(body.username) || BlankField(body.password) then
      Err(ApiError(BadRequest, FieldsRequired))
    else if FindUser(st.users, body.username, body.email).Some? then
      Err(ApiError(Conflict, UserExists))
    else if !avatarFile then Err(ApiError(BadRequest, AvatarRequired))
    else if uploadedUrl.None? then Err(ApiError(InternalError, AvatarUploadFailed))
    else if body.email.None? || body.username.None? || body.password.None? then Err(Crash)
    else Ok(NewUser(body.username.value, body.email.value, body.password.value, uploadedUrl.value))
  }

  /** `registerUser`: the refusal of the checks, or the user they let through appended under the
      next `_id`, with the existing users, their slots and the serial left as they were. */
  function Register(st: Store, body: Credentials, avatarFile: bool, uploadedUrl: Option<string>)
    : (r: Result<(Store, UserId)>)
    ensures r.Ok? <==> Vet(st, body, avatarFile, uploadedUrl).Ok?
    ensures r.Err? ==> r.error == Vet(st, body, avatarFile, uploadedUrl).error
    ensures r.Ok? ==>
      && body.email.Some? && body.username.Some? && body.password.Some? && uploadedUrl.Some?
      && r.value.1 == |st.users| && |r.value.0.users| == |st.users| + 1
      && r.value.0.users[..|st.users|] == st.users
      && r.value.0.users[|st.users|]
         == NewUser(body.username.value, body.email.value, body.password.value, uploadedUrl.value)
      && r.value.0.nextSerial == st.nextSerial
  {
    match Vet(st, body, avatarFile, uploadedUrl)
    case Err(e) => Err(e)
    case Ok(user) =>
      var users := st.users + [user];
      assert users[..|st.users|] == st.users;
      Ok((Store(users, st.nextSerial), |st.users|))
  }

  /** What the checks of `registerUser` mean: the 400 fires exactly when a present field is white
      space only, so an absent field passes it; the 409 fires exactly when no field is blank and
      some user has the raw username or email; and registration goes ahead exactly when all three
      fields are present and not blank, nobody matches, and the avatar was given and uploaded. */
  lemma RegisterChecksInOrder(st: Store, body: Credentials, avatarFile: bool, uploadedUrl: Option<string>)
    ensures var r := Register(st, body, avatarFile, uploadedUrl);
      && (r == Err(ApiError(BadRequest, FieldsRequired)) <==>
            WhiteSpaceOnly(body.email) || WhiteSpaceOnly(body.username) || WhiteSpaceOnly(body.password))
      && (r == Err(ApiError(Conflict, UserExists)) <==>
            && !WhiteSpaceOnly(body.email) && !WhiteSpaceOnly(body.username) && !WhiteSpaceOnly(body.password)
            && exists i :: 0 <= i < |st.users| && Matches(st.users[i], body.username, body.email))
      && (r.Ok? <==>
            && body.email.Some? && body.username.Some? && body.password.Some?
            && !Blank(body.email.value) && !Blank(body.username.value) && !Blank(body.password.value)
            && (forall i :: 0 <= i < |st.users| ==> !Matches(st.users[i], body.username, body.email))
            && avatarFile && uploadedUrl.Some?)
  {
    BlankFieldIff(body.email);
    BlankFieldIff(body.username);
    BlankFieldIff(body.password);
  }

  /** Registration keeps the invariant. */
  lemma RegisterKeepsValid(st: Store, body: Credentials, avatarFile: bool, uploadedUrl: Option<string>)
    requires Valid(st) && Register(st, body, avatarFile, uploadedUrl).Ok?
    ensures Valid(Register(st, body, avatarFile, uploadedUrl).value.0)
  {
    AppendKeepsValid(st, NewUser(body.username.value, body.email.value, body.password.value,
                                 uploadedUrl.value));
  }

  /** `loginUser`. In order: neither username nor email given is a 400; no matching user is a 404;
      a wrong password is a 401; then a session is issued for the first matching user, and the
      result is exactly that of the helper. The lookups are taken to answer, so a refused login
      leaves the store as it was. */
  function Login(st: Store, body: Credentials, passwordOk: (User, Option<string>) -> bool, storeUp: bool)
    : (r: Result<(Store, Tokens)>)
    ensures r == Err(ApiError(BadRequest, LoginFieldsRequired)) <==> !Truthy(body.username) && !Truthy(body.email)
    ensures r == Err(ApiError(NotFound, UserNotFound)) <==>
      (Truthy(body.username) || Truthy(body.email))
      && forall i :: 0 <= i < |st.users| ==> !Matches(st.users[i], body.username, body.email)
    ensures r == Err(ApiError(Unauthorized, BadCredentials)) <==>
      (Truthy(body.username) || Truthy(body.email))
      && FindUser(st.users, body.username, body.email).Some?
      && !passwordOk(st.users[FindUser(st.users, body.username, body.email).value], body.password)
    ensures r.Ok? ==>
      && (Truthy(body.username) || Truthy(body.email))
      && FindUser(st.users, body.username, body.email).Some?
      && var u := FindUser(st.users, body.username, body.email).value;
         passwordOk(st.users[u], body.password) && r == Issue(st, u, storeUp)
    ensures
      && (Truthy(body.username) || Truthy(body.email))
      && FindUser(st.users, body.username, body.email).Some?
      && passwordOk(st.users[FindUser(st.users, body.username, body.email).value], body.password)
      ==> r == Issue(st, FindUser(st.users, body.username, body.email).value, storeUp)
    ensures r.Err? ==> r.error.status in {BadRequest, NotFound, Unauthorized, InternalError}
    ensures r.Ok? && Valid(st) ==> Valid(r.value.0)
  {
    if !Truthy(body.username) && !Truthy(body.email) then Err(ApiError(BadRequest, LoginFieldsRequired))
    else
      match FindUser(st.users, body.username, body.email)
      case None => Err(ApiError(NotFound, UserNotFound))
      case Some(u) =>
        if !passwordOk(st.users[u], body.password) then Err(ApiError(Unauthorized, BadCredentials))
        else Issue(st, u, storeUp)
  }

  /** `logoutUser`: `$unset` of the slot of the user the access-token middleware identified.
      An unknown user changes nothing and still logs out; a failing store call is a 500. */
  function Logout(st: Store, u: UserId, storeUp: bool): (r: Result<Store>)
    ensures r.Ok? <==> storeUp
    ensures r.Err? ==> r.error == Crash
    ensures r.Ok? ==>
      && |r.value.users| == |st.users| && r.value.nextSerial == st.nextSerial
      && (forall i :: 0 <= i < |st.users| && i != u ==> r.value.users[i] == st.users[i])
      && (u < |st.users| ==> r.value.users[u] == st.users[u].(refreshToken := None))
    ensures r.Ok? && Valid(st) ==> Valid(r.value)
  {
    if !storeUp then Err(Crash)
    else if u < |st.users| then
      var st' := Store(st.users[u := st.users[u].(refreshToken := None)], st.nextSerial);
      assert Valid(st) ==> Valid(st') by {
        if Valid(st) {
          forall i | 0 <= i < |st'.users| ensures SlotOk(st', i) {
            assert SlotOk(st, i);
          }
        }
      }
      Ok(st')
    else Ok(st)
  }

  /** `req.cookies?.refreshToken || req.body?.refreshToken`: a truthy cookie wins, otherwise the
      body's field is used, so a token arrives exactly when one of the two is truthy. */
  function Incoming(cookie: Option<Token>, body: Option<Token>): (r: Option<Token>)
    ensures TokenTruthy(r) <==> TokenTruthy(cookie) || TokenTruthy(body)
    ensures TokenTruthy(cookie) ==> r == cookie
    ensures !TokenTruthy(cookie) ==> r == body
  {
    if TokenTruthy(cookie) then cookie else body
  }

  /** The message the `catch` of `refreshAccessToken` answers with: `error.message || 'Invalid refresh token'`.
      It is never empty, and a non-empty message is passed on unchanged. */
  function Rethrown(message: string): (r: string)
    ensures r != ""
    ensures message != "" ==> r == message
    ensures message == "" ==> r == InvalidRefreshToken
  {
    if message != "" then message else InvalidRefreshToken
  }

  /** The checks and the rotation of `refreshAccessToken`. A missing or empty token is a 401 before the `try`;
      inside it, a rejected token, an unknown user, a token that is not the one in the slot and a
      failure to issue are all re-thrown as 401. On success the slot holds a new refresh token. */
  function Rotate(st: Store, incoming: Option<Token>, verify: Token -> Verdict, storeUp: bool)
    : (r: Result<(Store, Tokens)>)
    ensures r.Err? ==> r.error.status == Unauthorized
    ensures !TokenTruthy(incoming) ==> r == Err(ApiError(Unauthorized, UnauthorizedRequest))
    ensures TokenTruthy(incoming) && verify(incoming.value).Rejected? ==>
      r == Err(ApiError(Unauthorized, Rethrown(verify(incoming.value).message)))
    ensures r.Ok? <==>
      && TokenTruthy(incoming) && verify(incoming.value).Verified?
      && var u := verify(incoming.value).id;
         u < |st.users| && st.users[u].refreshToken == incoming && storeUp
    ensures r.Ok? ==> r == Issue(st, verify(incoming.value).id, storeUp)
  {
    if !TokenTruthy(incoming) then Err(ApiError(Unauthorized, UnauthorizedRequest))
    else
      match verify(incoming.value)
      case Rejected(m) => Err(ApiError(Unauthorized, Rethrown(m)))
      case Verified(u) =>
        if u >= |st.users| then Err(ApiError(Unauthorized, InvalidRefreshToken))
        else if st.users[u].refreshToken != incoming then Err(ApiError(Unauthorized, TokenMismatch))
        else
          match Issue(st, u, storeUp)
          case Err(e) => Err(ApiError(Unauthorized, e.message))
          case Ok(v) => Ok(v)
  }

  /** What `res.cookie(name, undefined)` stores: the value is turned into the string "undefined". */
  const UndefinedCookie := Text("undefined")

  /** `refreshAccessToken` as written: it destructures `newRefreshToken` from a helper that returns
      `refreshToken`, so the `refreshToken` cookie is set to the string "undefined" and the JSON
      body, which drops `undefined` values, has no refresh token at all. */
  function RefreshAccessToken(st: Store, cookie: Option<Token>, body: Option<Token>,
                              verify: Token -> Verdict, storeUp: bool): (r: Result<(Store, Grant)>)
    ensures r.Ok? <==> Rotate(st, Incoming(cookie, body), verify, storeUp).Ok?
    ensures r.Ok? ==>
      && r.value.0 == Rotate(st, Incoming(cookie, body), verify, storeUp).value.0
      && r.value.1.refreshCookie == UndefinedCookie && r.value.1.refreshBody.None?
    ensures r.Err? ==> r.error.status == Unauthorized
  {
    match Rotate(st, Incoming(cookie, body), verify, storeUp)
    case Err(e) => Err(e)
    case Ok((st', t)) => Ok((st', Grant(t.accessToken, UndefinedCookie, None)))
  }

  /** `refreshAccessToken` replying with the refresh token it stored. */
  function RefreshAccessTokenFixed(st: Store, cookie: Option<Token>, body: Option<Token>,
                                   verify: Token -> Verdict, storeUp: bool): (r: Result<(Store, Grant)>)
    ensures r.Ok? ==>
      && Incoming(cookie, body).Some? && verify(Incoming(cookie, body).value).Verified?
      && var u := verify(Incoming(cookie, body).value).id;
         && u < |r.value.0.users|
         && Some(r.value.1.refreshCookie) == r.value.0.users[u].refreshToken
         && r.value.1.refreshBody == r.value.0.users[u].refreshToken
    ensures r.Err? ==> r.error.status == Unauthorized
  {
    match Rotate(st, Incoming(cookie, body), verify, storeUp)
    case Err(e) => Err(e)
    case Ok((st', t)) => Ok((st', Grant(t.accessToken, t.refreshToken, Some(t.refreshToken))))
  }

  /** The refresh-token check of `jwt.verify` accepts the refresh tokens the server signed. */
  ghost predicate AcceptsIssued(verify: Token -> Verdict) {
    forall t: Token :: t.RefreshToken? ==> verify(t) == Verified(t.sub)
  }

  /** Both replies change the store in the same way; they differ only in the refresh token. */
  lemma RefreshRepliesAgree(st: Store, cookie: Option<Token>, body: Option<Token>,
                            verify: Token -> Verdict, storeUp: bool)
    ensures var a := RefreshAccessToken(st, cookie, body, verify, storeUp);
      var b := RefreshAccessTokenFixed(st, cookie, body, verify, storeUp);
      && (a.Ok? <==> b.Ok?)
      && (a.Err? ==> a == b)
      && (a.Ok? ==> a.value.0 == b.value.0 && a.value.1.accessToken == b.value.1.accessToken)
  {
  }

  /** After a successful refresh the presented token is no longer in any slot, so presenting it
      again fails with 401 whatever the verifier says and whether or not the store is up. */
  lemma ReplayAfterRotationFails(st: Store, t: Token, verify: Token -> Verdict, storeUp: bool,
                                 verify': Token -> Verdict, storeUp': bool)
    requires Valid(st)
    requires Rotate(st, Some(t), verify, storeUp).Ok?
    ensures var st' := Rotate(st, Some(t), verify, storeUp).value.0;
      Rotate(st', Some(t), verify', storeUp').Err?
      && Rotate(st', Some(t), verify', storeUp').error.status == Unauthorized
  {
    var u := verify(t).id;
    var (st', issued) := Rotate(st, Some(t), verify, storeUp).value;
    assert SlotOk(st, u);
    assert Valid(st');
    forall i | 0 <= i < |st'.users| ensures st'.users[i].refreshToken != Some(t) {
      assert SlotOk(st', i);
      if i != u {
        assert st'.users[i] == st.users[i];
      }
    }
  }

  /** Logging out revokes: a token that was in the user's slot, and more generally any refresh
      token issued to that user, no longer refreshes. */
  lemma LogoutRevokes(st: Store, u: UserId, t: Token, verify: Token -> Verdict, storeUp: bool)
    requires Valid(st)
    requires Logout(st, u, true).Ok?
    requires t.Text? || t.sub == u
    ensures Rotate(Logout(st, u, true).value, Some(t), verify, storeUp).Err?
  {
    var st' := Logout(st, u, true).value;
    forall i | 0 <= i < |st'.users| ensures st'.users[i].refreshToken != Some(t) {
      assert SlotOk(st', i);
    }
  }

  /** A logged-in client that presents the refresh token it received gets a new session once
      (when the verifier accepts what the server signed and the store is up). */
  lemma LoginThenRefresh(st: Store, body: Credentials, passwordOk: (User, Option<string>) -> bool,
                         verify: Token -> Verdict)
    requires Valid(st) && AcceptsIssued(verify)
    requires Login(st, body, passwordOk, true).Ok?
    ensures var (st', t) := Login(st, body, passwordOk, true).value;
      Rotate(st', Some(t.refreshToken), verify, true).Ok?
  {
    var (st', t) := Login(st, body, passwordOk, true).value;
    var u := FindUser(st.users, body.username, body.email).value;
    assert verify(t.refreshToken) == Verified(u);
  }

  /** As written, the client cannot refresh twice in a row. A client that keeps cookies presents
      the "undefined" cookie, which is in no slot, so the next refresh is a 401 whatever the
      verifier says and whether or not the store is up; when the verifier throws on it, as
      `jwt.verify` does on a malformed token, the 401 carries the verifier's message. A client that
      only echoes the body's refresh token has none to send and gets 401 "Unauthorized request". */
  lemma RefreshChainBreaks(st: Store, cookie: Option<Token>, body: Option<Token>, verify: Token -> Verdict,
                           verify': Token -> Verdict, storeUp': bool)
    requires Valid(st)
    requires RefreshAccessToken(st, cookie, body, verify, true).Ok?
    ensures var (st', g) := RefreshAccessToken(st, cookie, body, verify, true).value;
      var next := RefreshAccessToken(st', Some(g.refreshCookie), g.refreshBody, verify', storeUp');
      && next.Err? && next.error.status == Unauthorized
      && (verify'(UndefinedCookie).Rejected? ==>
            next.error == ApiError(Unauthorized, Rethrown(verify'(UndefinedCookie).message)))
      && RefreshAccessToken(st', None, g.refreshBody, verify', storeUp')
         == Err(ApiError(Unauthorized, UnauthorizedRequest))
  {
    var (st', g) := RefreshAccessToken(st, cookie, body, verify, true).value;
    assert Valid(st');
    forall i | 0 <= i < |st'.users| ensures st'.users[i].refreshToken != Some(UndefinedCookie) {
      assert SlotOk(st', i);
    }
  }

  /** With the reply fixed, a client presenting the refresh token of each reply, by cookie or by
      body, keeps refreshing, and the invariant holds. */
  lemma FixedRefreshChains(st: Store, cookie: Option<Token>, body: Option<Token>, verify: Token -> Verdict)
    requires Valid(st) && AcceptsIssued(verify)
    requires RefreshAccessTokenFixed(st, cookie, body, verify, true).Ok?
    ensures var (st', g) := RefreshAccessTokenFixed(st, cookie, body, verify, true).value;
      && Valid(st')
      && RefreshAccessTokenFixed(st', Some(g.refreshCookie), g.refreshBody, verify, true).Ok?
      && RefreshAccessTokenFixed(st', None, g.refreshBody, verify, true).Ok?
  {
    var incoming := Incoming(cookie, body);
    var u := verify(incoming.value).id;
    var (st', t) := Rotate(st, incoming, verify, true).value;
    assert verify(t.refreshToken) == Verified(u);
  }

  /** The duplicate lookup uses the raw username, but the stored username is lower-cased: with
      `bob` registered, `Bob` with another email passes the 409 check and is created as `bob`. */
  lemma DuplicateCheckIsCaseSensitive()
    ensures var bob := User("bob", "bob@x.io", "pw", "a.png", None);
      var st := Store([bob], 0);
      var r := Register(st, Credentials(Some("b@y.io"), Some("Bob"), Some("pw2")), true, Some("b.png"));
      r.Ok? && r.value.0.users[1].username == bob.username
  {
    var bob := User("bob", "bob@x.io", "pw", "a.png", None);
    var st := Store([bob], 0);
    var body := Credentials(Some("b@y.io"), Some("Bob"), Some("pw2"));
    assert !Matches(bob, body.username, body.email) by {
      assert bob.username[0] != "Bob"[0];
      assert |bob.email| != |"b@y.io"|;
    }
    assert !Blank("b@y.io") by { assert !IsSpace("b@y.io"[0]); }
    assert !Blank("Bob") by { assert !IsSpace("Bob"[0]); }
    assert !Blank("pw2") by { assert !IsSpace("pw2"[0]); }
    assert ToLower("Bob") == "bob";
  }

  /** An absent field is not a blank field: a body with no fields at all passes the 400 check and
      fails only at creation, with a 500. */
  lemma AbsentFieldsPassBlankCheck(st: Store)
    ensures Register(st, Credentials(None, None, None), true, Some("a.png")) == Err(Crash)
  {
    assert FindUser(st.users, None, None).None?;
  }
}
