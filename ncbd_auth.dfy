/**
 * Account handlers of the customer-facing shop
 * (src/controllers/authController.js) over a user collection and a token
 * collection: registration, e-mail verification, login, and the password
 * reset. The bcrypt hash and comparison, the random token strings, the clock
 * and the `ENABLE_EMAIL_VERIFICATION` switch are parameters; sending mail is
 * left out.
 */
module NcbdAuth {
  import opened Common
  import opened NcbdUser

  datatype Error =
    | EmailTaken
    | UsernameTaken
    | InvalidToken
    | UserNotFound
    | InvalidCredentials
    | NotVerified
    | AlreadyVerified
    | Store(failure: StoreFailure)

  function ErrorStatus(e: Error): (code: nat)
    ensures code == 409 <==> e in {EmailTaken, UsernameTaken, Store(DuplicateKey)}
    ensures code == 404 <==> e in {InvalidToken, UserNotFound}
    ensures code == 401 <==> e == InvalidCredentials
    ensures code == 403 <==> e == NotVerified
  {
    match e
    case EmailTaken => 409
    case UsernameTaken => 409
    case InvalidToken => 404
    case UserNotFound => 404
    case InvalidCredentials => 401
    case NotVerified => 403
    case AlreadyVerified => 400
    case Store(f) => StoreFailureStatus(f)
  }

  datatype Done = Done
  datatype VerifyOutcome = JustVerified | WasVerified
  datatype LoginData = LoginData(id: nat, username: string, email: string, roles: seq<string>)

  const ResetLinkMessage := "If a user with this email exists, a reset link has been sent."

  /** `User.findOne({ email })`: the setters normalise the query value, the find filter hides deleted users. */
  function FindByEmail(users: seq<User>, email: string): (r: Option<nat>)
    ensures r.Some? ==> UserFound(users, r.value) && users[r.value].email == NormalizeKey(email)
  {
    FindFirst(users, (u: User) => !u.isDeleted && u.email == NormalizeKey(email))
  }

  /** The lookup misses exactly when no live user holds the normalised address. */
  lemma FindByEmailMisses(users: seq<User>, email: string)
    ensures FindByEmail(users, email).None? <==>
      forall k :: 0 <= k < |users| ==> !(UserFound(users, k) && users[k].email == NormalizeKey(email))
  {
  }

  /** `Token.findOne({ token, type })`; tokens are not soft-deleted. */
  function FindToken(tokens: seq<Token>, token: string, kind: TokenType): (r: Option<nat>)
    ensures r.Some? ==> r.value < |tokens| && tokens[r.value].token == token && tokens[r.value].kind == kind
  {
    FindFirst(tokens, (t: Token) => t.token == token && t.kind == kind)
  }

  /** The lookup yields the first token with the string and the kind, and misses exactly when there is none. */
  lemma FindTokenFirst(tokens: seq<Token>, token: string, kind: TokenType)
    ensures var r := FindToken(tokens, token, kind);
      && (r.Some? ==> forall j :: 0 <= j < r.value ==> !(tokens[j].token == token && tokens[j].kind == kind))
      && (r.None? <==> forall j :: 0 <= j < |tokens| ==> !(tokens[j].token == token && tokens[j].kind == kind))
  {
  }

  /** `deleteOne({ _id })`. */
  function RemoveAt<T>(s: seq<T>, i: nat): seq<T>
    requires i < |s|
  {
    s[..i] + s[i + 1..]
  }

  /** `deleteMany({ userId, type: 'verifyEmail' })`. */
  function WithoutVerifyTokens(tokens: seq<Token>, id: nat): (r: seq<Token>)
    ensures forall j :: 0 <= j < |r| ==> !(r[j].userId == id && r[j].kind == EmailVerification)
    ensures forall j :: 0 <= j < |tokens| && !(tokens[j].userId == id && tokens[j].kind == EmailVerification) ==> tokens[j] in r
  {
    Filter(tokens, (t: Token) => !(t.userId == id && t.kind == EmailVerification))
  }

  /** The duplicate check of `register`: the first live user with the email or the username decides the message. */
  function RegisterConflict(users: seq<User>, username: string, email: string): (r: Option<Error>)
    ensures r.Some? ==> r.value in {EmailTaken, UsernameTaken}
  {
    match FindFirst(users, (u: User) => !u.isDeleted && (u.email == NormalizeKey(email) || u.username == NormalizeKey(username)))
    case None => None
    case Some(k) => Some(if users[k].email == email then EmailTaken else UsernameTaken)
  }

  /** Registration is refused exactly when a live user holds the address or the name; the email message needs the raw address stored. */
  lemma RegisterConflictCases(users: seq<User>, username: string, email: string)
    ensures RegisterConflict(users, username, email).None? <==> forall k :: 0 <= k < |users| && UserFound(users, k) ==>
      users[k].email != NormalizeKey(email) && users[k].username != NormalizeKey(username)
    ensures RegisterConflict(users, username, email) == Some(EmailTaken) ==>
      exists k :: 0 <= k < |users| && UserFound(users, k) && users[k].email == email
  {
  }

  /** The document `register` builds: the setters applied, the default role, not verified. */
  function NewUser(username: string, email: string, password: string): User {
    User(NormalizeKey(username), NormalizeKey(email), password, [Customer], false, false)
  }

  /**
   * The message compares the stored, lower-cased email with the raw one: a
   * request that differs from a stored address only in case is told that the
   * username is taken.
   */
  lemma RegisterMessageUsesRawEmail()
    ensures RegisterConflict([User("u", "a@b.c", "secret", [Customer], true, false)], "v", "A@b.c") == Some(UsernameTaken)
  {
    var raw := "A@b.c";
    TrimOfTrimmed(raw);
    assert AsciiLower(raw) == "a@b.c" by {
      assert AsciiLower(raw)[0] == LowerChar('A') == 'a';
    }
  }

  /** Login: the same answer for an unknown email and a wrong password; verification is checked last. */
  function Login(users: seq<User>, email: string, password: string, compare: (string, string) -> bool,
                 verificationEnabled: bool): (r: Result<LoginData, Error>)
    ensures r.Err? ==> r.error in {InvalidCredentials, NotVerified}
    ensures r.Ok? ==> var k := r.value.id;
      UserFound(users, k) && users[k].email == NormalizeKey(email) && compare(password, users[k].password)
      && r.value == LoginData(k, users[k].username, users[k].email, users[k].roles)
  {
    match FindByEmail(users, email)
    case None => Err(InvalidCredentials)
    case Some(k) =>
      if !compare(password, users[k].password) then Err(InvalidCredentials)
      else if !users[k].isVerified && verificationEnabled then Err(NotVerified)
      else Ok(LoginData(k, users[k].username, users[k].email, users[k].roles))
  }

  lemma LoginFailuresAlike(users: seq<User>, email: string, password: string, compare: (string, string) -> bool, enabled: bool)
    ensures FindByEmail(users, email).None? ==> Login(users, email, password, compare, enabled) == Err(InvalidCredentials)
    ensures FindByEmail(users, email).Some? && !compare(password, users[FindByEmail(users, email).value].password) ==>
      Login(users, email, password, compare, enabled) == Err(InvalidCredentials)
    ensures Login(users, email, password, compare, enabled) == Err(NotVerified) ==>
      enabled && var k := FindByEmail(users, email).value; compare(password, users[k].password) && !users[k].isVerified
    ensures !enabled ==> (Login(users, email, password, compare, enabled).Ok? <==>
      FindByEmail(users, email).Some? && compare(password, users[FindByEmail(users, email).value].password))
  {
  }

  /** Once a reset token is removed, the same string is accepted again only if another reset token carries it. */
  lemma ResetTokenConsumed(tokens: seq<Token>, token: string, t: nat)
    requires FindToken(tokens, token, PasswordReset) == Some(t)
    ensures FindToken(RemoveAt(tokens, t), token, PasswordReset).Some? ==>
      exists j :: 0 <= j < |tokens| && j != t && tokens[j].token == token && tokens[j].kind == PasswordReset
  {
    var rest := RemoveAt(tokens, t);
    if FindToken(rest, token, PasswordReset).Some? {
      var j' := FindToken(rest, token, PasswordReset).value;
      var j := if j' < t then j' else j' + 1;
      assert rest[j'] == tokens[j];
    }
  }

  /** After a resend with verification on, the user holds exactly one verification token, the new one. */
  lemma ResendLeavesOneToken(tokens: seq<Token>, id: nat, token: string, now: int)
    ensures var r := WithoutVerifyTokens(tokens, id) + [Token(id, token, EmailVerification, now)];
      forall j :: 0 <= j < |r| && r[j].userId == id && r[j].kind == EmailVerification ==> j == |r| - 1 && r[j].token == token
  {
  }

  class AuthStore {
    var users: seq<User>
    var tokens: seq<Token>

    ghost predicate Valid()
      reads this
    {
      StoredUsersValid(users)
    }

    constructor ()
      ensures Valid() && users == [] && tokens == []
    {
      users, tokens := [], [];
    }

    /** `sendVerificationEmail`; `token` is the hex of 32 random bytes. */
    method SendVerificationEmail(id: nat, enabled: bool, token: string, now: int)
      requires Valid() && id < |users| && |token| == 64
      modifies this
      ensures Valid()
      ensures !enabled ==> users == old(users)[id := old(users)[id].(isVerified := true)] && tokens == old(tokens)
      ensures enabled ==> users == old(users) && tokens == old(tokens) + [Token(id, token, EmailVerification, now)]
    {
      if !enabled {
        AllSchemaValidAt(users, id);
        ChangeUserKeepsValid(users, id, users[id].(isVerified := true));
        users := users[id := users[id].(isVerified := true)];
      } else {
        tokens := tokens + [Token(id, token, EmailVerification, now)];
      }
    }

    /**
     * `new User(...).save()`: the schema validates the plain password, the
     * pre-save hook stores its hash, and the unique indexes decide last.
     */
    method SaveNew(u: User, hashed: string) returns (r: Result<nat, StoreFailure>)
      requires Valid() && |hashed| >= MinPasswordLength
      modifies this
      ensures Valid() && tokens == old(tokens)
      ensures r.Ok? <==> UserSchemaValid(u) && UserFree(old(users), u)
      ensures !UserSchemaValid(u) ==> r == Err(ValidationFailed)
      ensures UserSchemaValid(u) && r.Err? ==> r == Err(DuplicateKey)
      ensures r.Err? ==> users == old(users)
      ensures r.Ok? ==> r.value == |old(users)| && users == old(users) + [u.(password := hashed)]
    {
      if !UserSchemaValid(u) {
        return Err(ValidationFailed);
      }
      if !UserFree(users, u) {
        return Err(DuplicateKey);
      }
      var stored := u.(password := hashed);
      AppendUserKeepsValid(users, stored);
      users := users + [stored];
      r := Ok(|users| - 1);
    }

    /** The save of a new user, then `sendVerificationEmail` for it. */
    method Enroll(u: User, hashed: string, enabled: bool, token: string, now: int) returns (r: Result<nat, StoreFailure>)
      requires Valid() && |hashed| >= MinPasswordLength && |token| == 64
      modifies this
      ensures Valid()
      ensures r.Ok? <==> UserSchemaValid(u) && UserFree(old(users), u)
      ensures !UserSchemaValid(u) ==> r == Err(ValidationFailed)
      ensures UserSchemaValid(u) && r.Err? ==> r == Err(DuplicateKey)
      ensures r.Err? ==> users == old(users) && tokens == old(tokens)
      ensures r.Ok? && enabled ==> (r.value == |old(users)| && users == old(users) + [u.(password := hashed)]
        && tokens == old(tokens) + [Token(|old(users)|, token, EmailVerification, now)])
      ensures r.Ok? && !enabled ==> (r.value == |old(users)| && users == old(users) + [u.(password := hashed, isVerified := true)]
        && tokens == old(tokens))
    {
      ghost var before := users;
      r := SaveNew(u, hashed);
      if r.Err? {
        return;
      }
      ghost var stored := u.(password := hashed);
      SendVerificationEmail(r.value, enabled, token, now);
      if !enabled {
        assert (before + [stored])[|before| := stored.(isVerified := true)] == before + [stored.(isVerified := true)];
      }
    }

    /** `register`; `hash` is bcrypt, which yields 60 characters. */
    method Register(username: string, email: string, password: string, hash: string -> string,
                    enabled: bool, token: string, now: int) returns (r: Result<nat, Error>)
      requires Valid() && |hash(password)| == 60 && |token| == 64
      modifies this
      ensures Valid()
      ensures RegisterConflict(old(users), username, email).Some? ==>
        r == Err(RegisterConflict(old(users), username, email).value) && users == old(users) && tokens == old(tokens)
      ensures RegisterConflict(old(users), username, email).None? ==>
        var u := NewUser(username, email, password);
        var stored := u.(password := hash(password));
        && (!UserSchemaValid(u) ==> r == Err(Store(ValidationFailed)) && users == old(users) && tokens == old(tokens))
        && (UserSchemaValid(u) && !UserFree(old(users), u) ==> r == Err(Store(DuplicateKey)) && users == old(users) && tokens == old(tokens))
        && (UserSchemaValid(u) && UserFree(old(users), u) ==>
              && r == Ok(|old(users)|)
              && (enabled ==> users == old(users) + [stored] && tokens == old(tokens) + [Token(|old(users)|, token, EmailVerification, now)])
              && (!enabled ==> users == old(users) + [stored.(isVerified := true)] && tokens == old(tokens)))
    {
      var conflict := RegisterConflict(users, username, email);
      if conflict.Some? {
        return Err(conflict.value);
      }
      var saved := Enroll(NewUser(username, email, password), hash(password), enabled, token, now);
      if saved.Err? {
        return Err(Store(saved.error));
      }
      r := Ok(saved.value);
    }

    /** `verifyEmail`: a valid token is always deleted and leaves its user verified. */
    method VerifyEmail(token: string) returns (r: Result<VerifyOutcome, Error>)
      requires Valid()
      modifies this
      ensures Valid()
      ensures FindToken(old(tokens), token, EmailVerification).None? ==> r == Err(InvalidToken) && users == old(users) && tokens == old(tokens)
      ensures FindToken(old(tokens), token, EmailVerification).Some? ==>
        var t := FindToken(old(tokens), token, EmailVerification).value;
        var id := old(tokens)[t].userId;
        && (!UserFound(old(users), id) ==> r == Err(UserNotFound) && users == old(users) && tokens == old(tokens))
        && (UserFound(old(users), id) ==>
              && r == Ok(if old(users)[id].isVerified then WasVerified else JustVerified)
              && users == old(users)[id := old(users)[id].(isVerified := true)]
              && (old(users)[id].isVerified ==> users == old(users))
              && tokens == RemoveAt(old(tokens), t))
    {
      var found := FindToken(tokens, token, EmailVerification);
      if found.None? {
        return Err(InvalidToken);
      }
      var t := found.value;
      var id := tokens[t].userId;
      if !UserFound(users, id) {
        return Err(UserNotFound);
      }
      if users[id].isVerified {
        assert users[id := users[id].(isVerified := true)] == users;
        tokens := RemoveAt(tokens, t);
        return Ok(WasVerified);
      }
      AllSchemaValidAt(users, id);
      ChangeUserKeepsValid(users, id, users[id].(isVerified := true));
      users := users[id := users[id].(isVerified := true)];
      tokens := RemoveAt(tokens, t);
      r := Ok(JustVerified);
    }

    /** `forgotPassword`: the same answer whether or not the address is known. */
    method ForgotPassword(email: string, token: string, now: int) returns (message: string)
      requires Valid() && |token| == 64
      modifies this
      ensures Valid() && users == old(users)
      ensures message == ResetLinkMessage
      ensures FindByEmail(old(users), email).None? ==> tokens == old(tokens)
      ensures FindByEmail(old(users), email).Some? ==>
        tokens == old(tokens) + [Token(FindByEmail(old(users), email).value, token, PasswordReset, now)]
    {
      var found := FindByEmail(users, email);
      if found.Some? {
        tokens := tokens + [Token(found.value, token, PasswordReset, now)];
      }
      message := ResetLinkMessage;
    }

    /** `resetPassword`: the new password is validated before it is hashed; the token is deleted only on success. */
    method ResetPassword(token: string, password: string, hash: string -> string) returns (r: Result<Done, Error>)
      requires Valid() && |hash(password)| == 60
      modifies this
      ensures Valid()
      ensures FindToken(old(tokens), token, PasswordReset).None? ==> r == Err(InvalidToken) && users == old(users) && tokens == old(tokens)
      ensures FindToken(old(tokens), token, PasswordReset).Some? ==>
        var t := FindToken(old(tokens), token, PasswordReset).value;
        var id := old(tokens)[t].userId;
        && (!UserFound(old(users), id) ==> r == Err(UserNotFound) && users == old(users) && tokens == old(tokens))
        && (UserFound(old(users), id) && |password| < MinPasswordLength ==>
              r == Err(Store(ValidationFailed)) && users == old(users) && tokens == old(tokens))
        && (UserFound(old(users), id) && |password| >= MinPasswordLength ==>
              r == Ok(Done) && users == old(users)[id := old(users)[id].(password := hash(password))] && tokens == RemoveAt(old(tokens), t))
    {
      var found := FindToken(tokens, token, PasswordReset);
      if found.None? {
        return Err(InvalidToken);
      }
      var t := found.value;
      var id := tokens[t].userId;
      if !UserFound(users, id) {
        return Err(UserNotFound);
      }
      AllSchemaValidAt(users, id);
      if !UserSchemaValid(users[id].(password := password)) {
        return Err(Store(ValidationFailed));
      }
      ChangeUserKeepsValid(users, id, users[id].(password := hash(password)));
      users := users[id := users[id].(password := hash(password))];
      tokens := RemoveAt(tokens, t);
      r := Ok(Done);
    }

    /** `resendVerificationEmail`: all of the user's verification tokens go before a new one is issued. */
    method ResendVerificationEmail(email: string, enabled: bool, token: string, now: int) returns (r: Result<Done, Error>)
      requires Valid() && |token| == 64
      modifies this
      ensures Valid()
      ensures FindByEmail(old(users), email).None? ==> r == Err(UserNotFound) && users == old(users) && tokens == old(tokens)
      ensures FindByEmail(old(users), email).Some? ==>
        var k := FindByEmail(old(users), email).value;
        && (old(users)[k].isVerified ==> r == Err(AlreadyVerified) && users == old(users) && tokens == old(tokens))
        && (!old(users)[k].isVerified ==>
              && r == Ok(Done)
              && (enabled ==> users == old(users) && tokens == WithoutVerifyTokens(old(tokens), k) + [Token(k, token, EmailVerification, now)])
              && (!enabled ==> users == old(users)[k := old(users)[k].(isVerified := true)] && tokens == WithoutVerifyTokens(old(tokens), k)))
    {
      var found := FindByEmail(users, email);
      if found.None? {
        return Err(UserNotFound);
      }
      var k := found.value;
      if users[k].isVerified {
        return Err(AlreadyVerified);
      }
      tokens := WithoutVerifyTokens(tokens, k);
      SendVerificationEmail(k, enabled, token, now);
      r := Ok(Done);
    }
  }
}
