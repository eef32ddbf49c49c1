/**
 * The handlers of controllers/authController.js as transitions on the
 * `User` collection: each takes the collection and the request's inputs and
 * gives the HTTP response, the collection after the handler's `save` (if
 * any) and the mail it handed to the transport (if any).
 *
 * The database, bcrypt, the code digest, `jwt.sign`, `Math.random`,
 * `Date.now()` and the mail transport's reply are inputs: `users`, `sec`,
 * `rand`, `now` and `accepted`. The Joi schemas of middlewares/validator
 * are not part of this model; their verdict is the input `inputValid`.
 */
module AuthRules {
  import opened Options
  import opened Strings
  import opened Crypto
  import opened UserModel

  /** The `message` of each response, one tag per text; the two "already verified" texts differ only in capitalisation. */
  datatype Message =
    | ValidationFailed       // signup: 'Validation failed'
    | AccountExists          // 'Account already exists with this email'
    | AccountCreated         // 'Account created successfully! ...'
    | RegistrationFailed     // 'Something went wrong during registration'
    | InvalidInput           // signin: 'Invalid input'
    | AccountNotFound        // 'Account not found'
    | IncorrectPassword      // 'Incorrect password'
    | LoginSuccessful        // 'Welcome back! Login successful'
    | UserDoesNotExist       // 'User does not exists!'
    | AlreadyVerified        // 'You are already verified!' / 'you are already verified!'
    | CodeSent               // 'Code sent!'
    | CodeSendFailed         // 'Code sent failed!'
    | SchemaRejected         // the first Joi error message, answered with 401
    | CodeInvalid            // 'something is wrong with the code!'
    | CodeExpired            // 'code has been expired!'
    | AccountVerified        // 'your account has been verified!'
    | UnexpectedOccurred     // 'unexpected occured!!'
    | NotVerifiedUser        // 'You are not verified user!'
    | InvalidCredentials     // 'Invalid credentials!'
    | PasswordUpdated        // 'Password updated!!'
    | UserNotFound           // 'User not found'
    | DashboardRetrieved     // 'Dashboard data retrieved successfully'

  /** The payload a successful response carries besides its message. */
  datatype Body =
    | NoBody
    | Created(user: View)
    | SignedIn(token: Jwt, cookie: string, cookieExpires: int, user: View)
    | DashboardData(user: View, welcome: string)

  datatype Response = Response(status: nat, message: Message, body: Body)

  /** A message handed to the mail transport. */
  datatype Mail = Mail(to: string, subject: string, html: string)

  /** The result of one handler: its response, the collection afterwards, and the mail it sent. */
  datatype Step = Step(response: Response, users: seq<Account>, mail: Option<Mail>)

  function Reply(status: nat, message: Message): Response {
    Response(status, message, NoBody)
  }

  /** A one-time code is accepted for `5 * 60 * 1000` milliseconds after it was stored. */
  const CodeLifetime: int := 5 * 60 * 1000

  /** The `Authorization` cookie lives `8 * 3600000` milliseconds. */
  const CookieLifetime: int := 8 * 3600000

  /** Both fields of a code pair are truthy: a non-empty digest and a non-zero timestamp. */
  predicate Pending(code: Option<string>, issuedAt: Option<int>) {
    code.Some? && code.value != [] && issuedAt.Some? && issuedAt.value != 0
  }

  /** How a presented code fares against a stored pair. */
  datatype CodeVerdict = NotRequested | Expired | Mismatch | Match

  /** The three code checks both verify handlers make, in their order. */
  function CheckCode(sec: Secrets, code: Option<string>, issuedAt: Option<int>, provided: string, now: int): CodeVerdict {
    if !Pending(code, issuedAt) then NotRequested
    else if now - issuedAt.value > CodeLifetime then Expired
    else if CodeDigest(sec, provided) == code.value then Match
    else Mismatch
  }

  /** The answer to each verdict; `success` is the message of the 200. */
  function CodeAnswer(v: CodeVerdict, success: Message): Response {
    match v
    case NotRequested => Reply(400, CodeInvalid)
    case Expired => Reply(400, CodeExpired)
    case Mismatch => Reply(400, UnexpectedOccurred)
    case Match => Reply(200, success)
  }

  /**
   * A pair stored for code `issued` at time `t` accepts exactly that code up
   * to and including `t + 300000`, and reports every presentation after that
   * as expired, whatever code is presented.
   */
  lemma CheckIssuedCode(sec: Secrets, issued: nat, t: int, provided: string, now: int)
    requires Sound(sec) && t != 0
    ensures var v := CheckCode(sec, Some(CodeDigest(sec, CodeText(issued))), Some(t), provided, now);
      && (now - t > CodeLifetime <==> v == Expired)
      && (now - t <= CodeLifetime ==> (v == Match <==> provided == CodeText(issued)))
      && (now - t <= CodeLifetime ==> (v == Mismatch <==> provided != CodeText(issued)))
  {
    CodeDigestMatches(sec, issued, provided);
  }

  /** The expiry boundary: exactly 300000 ms after issue is still accepted, one millisecond later is not. */
  lemma ExpiryBoundary(sec: Secrets, issued: nat, t: int)
    requires Sound(sec) && t != 0
    ensures CheckCode(sec, Some(CodeDigest(sec, CodeText(issued))), Some(t), CodeText(issued), t + 300000) == Match
    ensures CheckCode(sec, Some(CodeDigest(sec, CodeText(issued))), Some(t), CodeText(issued), t + 300001) == Expired
  {
    CheckIssuedCode(sec, issued, t, CodeText(issued), t + 300000);
    CheckIssuedCode(sec, issued, t, CodeText(issued), t + 300001);
  }

  /** The mail carrying a code: `<h1>` + code + `</h1>` to the account's stored address. */
  function CodeMail(to: string, subject: string, code: string): Mail {
    Mail(to, subject, "<h1>" + code + "</h1>")
  }

  /** The transport confirmed delivery: `info.accepted[0] === existingUser.email`. */
  predicate Delivered(accepted: seq<string>, email: string) {
    |accepted| > 0 && accepted[0] == email
  }

  /** `users` and `users'` differ at most at position `i`. */
  predicate OnlyAt(users: seq<Account>, users': seq<Account>, i: nat) {
    |users'| == |users| && forall j :: 0 <= j < |users| && j != i ==> users'[j] == users[j]
  }

  /** `b` differs from `a` at most in `verified`, the verification pair and `updatedAt`. */
  predicate OnlyVerificationFields(a: Account, b: Account) {
    b == a.(verified := b.verified, verificationCode := b.verificationCode,
            verificationCodeValidation := b.verificationCodeValidation, updatedAt := b.updatedAt)
  }

  /** `b` differs from `a` at most in `password`, the forgot-password pair and `updatedAt`. */
  predicate OnlyForgotFields(a: Account, b: Account) {
    b == a.(password := b.password, forgotPasswordCode := b.forgotPasswordCode,
            forgotPasswordCodeValidation := b.forgotPasswordCodeValidation, updatedAt := b.updatedAt)
  }

  /** The lookup every email-addressed handler makes: `User.findOne({ email })`, the filter normalised. */
  function FindByEmail(users: seq<Account>, email: string): Option<nat> {
    FindOne(users, ByEmail(Normalize(email)))
  }

  // ----------------------------------------------------------------- signup

  function Signup(users: seq<Account>, sec: Secrets, name: string, email: string, password: string,
                  inputValid: bool, salt: nat, now: int): (r: Step)
    ensures r.mail.None?
    ensures r.response.status != 201 ==> r.users == users
    ensures !inputValid ==> r.response == Reply(400, ValidationFailed)
    ensures inputValid && FindByEmail(users, email).Some? ==> r.response == Reply(409, AccountExists)
    ensures r.response.status == 409 <==> inputValid && FindByEmail(users, email).Some?
    ensures var a := NewAccount(|users|, name, email, sec.hash(password, SaltRounds, salt), now);
      inputValid && FindByEmail(users, email).None? && !SaveValidates(a) ==> r.response == Reply(500, RegistrationFailed)
    ensures var a := NewAccount(|users|, name, email, sec.hash(password, SaltRounds, salt), now);
      r.response.status == 201 <==> inputValid && FindByEmail(users, email).None? && SaveValidates(a)
    ensures r.response.status == 201 ==>
      && var a := NewAccount(|users|, name, email, sec.hash(password, SaltRounds, salt), now);
      && r.users == users + [a]
      && |r.users| == |users| + 1 && r.users[..|users|] == users
      && r.response == Response(201, AccountCreated, Created(SignupView(a)))
  {
    if !inputValid then Step(Reply(400, ValidationFailed), users, None)
    else if FindByEmail(users, email).Some? then Step(Reply(409, AccountExists), users, None)
    else
      var account := NewAccount(|users|, name, email, sec.hash(password, SaltRounds, salt), now);
      if !SaveValidates(account) then Step(Reply(500, RegistrationFailed), users, None)
      else
        assert (users + [account])[..|users|] == users;
        Step(Response(201, AccountCreated, Created(SignupView(account))), users + [account], None)
  }

  // ----------------------------------------------------------------- signin

  /** The claims signin puts in a token: exactly `{ userId, email, verified }` of the stored account. */
  function TokenClaims(a: Account): Claims {
    Claims(a.id, a.email, a.verified)
  }

  function Signin(users: seq<Account>, sec: Secrets, email: string, password: string,
                  inputValid: bool, now: int): (r: Step)
    ensures r.users == users && r.mail.None?
    ensures !inputValid ==> r.response == Reply(400, InvalidInput)
    ensures inputValid && FindByEmail(users, email).None? ==> r.response == Reply(401, AccountNotFound)
    ensures (inputValid && FindByEmail(users, email).Some? &&
             !sec.compare(password, users[FindByEmail(users, email).value].password)) ==>
      r.response == Reply(401, IncorrectPassword)
    ensures r.response.status == 200 <==>
      inputValid && FindByEmail(users, email).Some? &&
      sec.compare(password, users[FindByEmail(users, email).value].password)
    ensures r.response.status == 200 ==>
      && r.response.message == LoginSuccessful
      && r.response.body.SignedIn?
      && var a := users[FindByEmail(users, email).value];
      && r.response.body.token == IssueToken(Claims(a.id, a.email, a.verified), now)
      && r.response.body.cookie == "Bearer " + sec.sign(r.response.body.token)
      && r.response.body.cookieExpires == now + CookieLifetime
      && r.response.body.user == SigninView(a)
  {
    if !inputValid then Step(Reply(400, InvalidInput), users, None)
    else match FindByEmail(users, email)
      case None => Step(Reply(401, AccountNotFound), users, None)
      case Some(i) =>
        var a := users[i];
        if !sec.compare(password, a.password) then Step(Reply(401, IncorrectPassword), users, None)
        else
          var token := IssueToken(TokenClaims(a), now);
          var cookie := "Bearer " + sec.sign(token);
          Step(Response(200, LoginSuccessful, SignedIn(token, cookie, now + CookieLifetime, SigninView(a))), users, None)
  }

  // -------------------------------------------------- verification code

  function SendVerificationCode(users: seq<Account>, sec: Secrets, email: string, rand: Random,
                                accepted: seq<string>, now: int): (r: Step)
    ensures OnlyAt(users, r.users, if FindByEmail(users, email).Some? then FindByEmail(users, email).value else 0)
    ensures forall j :: 0 <= j < |users| ==> OnlyVerificationFields(users[j], r.users[j])
    ensures forall j :: 0 <= j < |users| ==> r.users[j].verified == users[j].verified
    ensures r.response.status != 200 ==> r.users == users
    ensures FindByEmail(users, email).None? ==> r.response == Reply(404, UserDoesNotExist)
    ensures FindByEmail(users, email).Some? && users[FindByEmail(users, email).value].verified ==>
      r.response == Reply(400, AlreadyVerified)
    ensures r.mail.Some? <==> FindByEmail(users, email).Some? && !users[FindByEmail(users, email).value].verified
    ensures r.mail.Some? ==>
      r.mail.value == CodeMail(users[FindByEmail(users, email).value].email, "verification code", CodeText(IssueCode(rand)))
    ensures r.mail.Some? && !Delivered(accepted, r.mail.value.to) ==> r.response == Reply(400, CodeSendFailed)
    ensures r.response.status == 200 <==> r.mail.Some? && Delivered(accepted, r.mail.value.to)
    ensures r.response.status == 200 ==>
      var i := FindByEmail(users, email).value;
      && r.response == Reply(200, CodeSent)
      && r.users[i].verificationCode == Some(CodeDigest(sec, CodeText(IssueCode(rand))))
      && r.users[i].verificationCodeValidation == Some(now)
      && r.users[i].updatedAt == now
  {
    match FindByEmail(users, email)
    case None => Step(Reply(404, UserDoesNotExist), users, None)
    case Some(i) =>
      var a := users[i];
      if a.verified then Step(Reply(400, AlreadyVerified), users, None)
      else
        var code := CodeText(IssueCode(rand));
        var mail := CodeMail(a.email, "verification code", code);
        if Delivered(accepted, a.email) then
          var a' := a.(verificationCode := Some(CodeDigest(sec, code)),
                       verificationCodeValidation := Some(now), updatedAt := now);
          Step(Reply(200, CodeSent), users[i := a'], Some(mail))
        else Step(Reply(400, CodeSendFailed), users, Some(mail))
  }

  function VerifyVerificationCode(users: seq<Account>, sec: Secrets, email: string, providedCode: Presented,
                                  inputValid: bool, now: int): (r: Step)
    ensures r.mail.None?
    ensures OnlyAt(users, r.users, if FindByEmail(users, email).Some? then FindByEmail(users, email).value else 0)
    ensures forall j :: 0 <= j < |users| ==> OnlyVerificationFields(users[j], r.users[j])
    ensures r.response.status != 200 ==> r.users == users
    ensures !inputValid ==> r.response == Reply(401, SchemaRejected)
    ensures inputValid && FindByEmail(users, email).None? ==> r.response == Reply(401, UserDoesNotExist)
    ensures inputValid && FindByEmail(users, email).Some? && users[FindByEmail(users, email).value].verified ==>
      r.response == Reply(400, AlreadyVerified)
    ensures inputValid && FindByEmail(users, email).Some? && !users[FindByEmail(users, email).value].verified ==>
      var a := users[FindByEmail(users, email).value];
      r.response == CodeAnswer(CheckCode(sec, a.verificationCode, a.verificationCodeValidation,
                                         PresentedText(providedCode), now), AccountVerified)
    ensures r.response.status == 200 <==>
      && inputValid && FindByEmail(users, email).Some?
      && var a := users[FindByEmail(users, email).value];
      && !a.verified
      && CheckCode(sec, a.verificationCode, a.verificationCodeValidation, PresentedText(providedCode), now) == Match
    ensures r.response.status == 200 ==>
      var a := r.users[FindByEmail(users, email).value];
      a.verified && a.verificationCode.None? && a.verificationCodeValidation.None? && a.updatedAt == now
  {
    if !inputValid then Step(Reply(401, SchemaRejected), users, None)
    else match FindByEmail(users, email)
      case None => Step(Reply(401, UserDoesNotExist), users, None)
      case Some(i) =>
        var a := users[i];
        if a.verified then Step(Reply(400, AlreadyVerified), users, None)
        else match CheckCode(sec, a.verificationCode, a.verificationCodeValidation, PresentedText(providedCode), now)
          case NotRequested => Step(Reply(400, CodeInvalid), users, None)
          case Expired => Step(Reply(400, CodeExpired), users, None)
          case Mismatch => Step(Reply(400, UnexpectedOccurred), users, None)
          case Match =>
            var a' := a.(verified := true, verificationCode := None,
                         verificationCodeValidation := None, updatedAt := now);
            Step(Reply(200, AccountVerified), users[i := a'], None)
  }

  // -------------------------------------------------------- change password

  function ChangePassword(users: seq<Account>, sec: Secrets, claims: Claims, oldPassword: string,
                          newPassword: string, inputValid: bool, salt: nat, now: int): (r: Step)
    ensures r.mail.None?
    ensures r.response.status != 200 ==> r.users == users && r.response.status == 401
    ensures !inputValid ==> r.response == Reply(401, SchemaRejected)
    ensures inputValid && !claims.verified ==> r.response == Reply(401, NotVerifiedUser)
    ensures inputValid && claims.verified && FindOne(users, ById(claims.userId)).None? ==>
      r.response == Reply(401, UserDoesNotExist)
    ensures (inputValid && claims.verified && FindOne(users, ById(claims.userId)).Some? &&
             !sec.compare(oldPassword, users[FindOne(users, ById(claims.userId)).value].password)) ==>
      r.response == Reply(401, InvalidCredentials)
    ensures r.response.status == 200 <==>
      && inputValid && claims.verified && FindOne(users, ById(claims.userId)).Some?
      && sec.compare(oldPassword, users[FindOne(users, ById(claims.userId)).value].password)
    ensures r.response.status == 200 ==>
      var i := FindOne(users, ById(claims.userId)).value;
      && r.response == Reply(200, PasswordUpdated)
      && OnlyAt(users, r.users, i)
      && r.users[i] == users[i].(password := sec.hash(newPassword, SaltRounds, salt), updatedAt := now)
  {
    if !inputValid then Step(Reply(401, SchemaRejected), users, None)
    else if !claims.verified then Step(Reply(401, NotVerifiedUser), users, None)
    else match FindOne(users, ById(claims.userId))
      case None => Step(Reply(401, UserDoesNotExist), users, None)
      case Some(i) =>
        var a := users[i];
        if !sec.compare(oldPassword, a.password) then Step(Reply(401, InvalidCredentials), users, None)
        else
          var a' := a.(password := sec.hash(newPassword, SaltRounds, salt), updatedAt := now);
          Step(Reply(200, PasswordUpdated), users[i := a'], None)
  }

  // ------------------------------------------------------ forgot password

  function SendForgotPasswordCode(users: seq<Account>, sec: Secrets, email: string, rand: Random,
                                  accepted: seq<string>, now: int): (r: Step)
    ensures OnlyAt(users, r.users, if FindByEmail(users, email).Some? then FindByEmail(users, email).value else 0)
    ensures forall j :: 0 <= j < |users| ==> OnlyForgotFields(users[j], r.users[j])
    ensures forall j :: 0 <= j < |users| ==> r.users[j].password == users[j].password
    ensures r.response.status != 200 ==> r.users == users
    ensures FindByEmail(users, email).None? ==> r.response == Reply(404, UserDoesNotExist)
    ensures r.mail.Some? <==> FindByEmail(users, email).Some?
    ensures r.mail.Some? ==>
      r.mail.value == CodeMail(users[FindByEmail(users, email).value].email, "Forgot password code", CodeText(IssueCode(rand)))
    ensures r.mail.Some? && !Delivered(accepted, r.mail.value.to) ==> r.response == Reply(400, CodeSendFailed)
    ensures r.response.status == 200 <==> r.mail.Some? && Delivered(accepted, r.mail.value.to)
    ensures r.response.status == 200 ==>
      var i := FindByEmail(users, email).value;
      && r.response == Reply(200, CodeSent)
      && r.users[i].forgotPasswordCode == Some(CodeDigest(sec, CodeText(IssueCode(rand))))
      && r.users[i].forgotPasswordCodeValidation == Some(now)
      && r.users[i].updatedAt == now
  {
    match FindByEmail(users, email)
    case None => Step(Reply(404, UserDoesNotExist), users, None)
    case Some(i) =>
      var a := users[i];
      var code := CodeText(IssueCode(rand));
      var mail := CodeMail(a.email, "Forgot password code", code);
      if Delivered(accepted, a.email) then
        var a' := a.(forgotPasswordCode := Some(CodeDigest(sec, code)),
                     forgotPasswordCodeValidation := Some(now), updatedAt := now);
        Step(Reply(200, CodeSent), users[i := a'], Some(mail))
      else Step(Reply(400, CodeSendFailed), users, Some(mail))
  }

  function VerifyForgotPasswordCode(users: seq<Account>, sec: Secrets, email: string, providedCode: Presented,
                                    newPassword: string, inputValid: bool, salt: nat, now: int): (r: Step)
    ensures r.mail.None?
    ensures OnlyAt(users, r.users, if FindByEmail(users, email).Some? then FindByEmail(users, email).value else 0)
    ensures forall j :: 0 <= j < |users| ==> OnlyForgotFields(users[j], r.users[j])
    ensures r.response.status != 200 ==> r.users == users
    ensures !inputValid ==> r.response == Reply(401, SchemaRejected)
    ensures inputValid && FindByEmail(users, email).None? ==> r.response == Reply(401, UserDoesNotExist)
    ensures inputValid && FindByEmail(users, email).Some? ==>
      var a := users[FindByEmail(users, email).value];
      r.response == CodeAnswer(CheckCode(sec, a.forgotPasswordCode, a.forgotPasswordCodeValidation,
                                         PresentedText(providedCode), now), PasswordUpdated)
    ensures r.response.status == 200 <==>
      && inputValid && FindByEmail(users, email).Some?
      && var a := users[FindByEmail(users, email).value];
      && CheckCode(sec, a.forgotPasswordCode, a.forgotPasswordCodeValidation, PresentedText(providedCode), now) == Match
    ensures r.response.status == 200 ==>
      var a := r.users[FindByEmail(users, email).value];
      && a.password == sec.hash(newPassword, SaltRounds, salt)
      && a.forgotPasswordCode.None? && a.forgotPasswordCodeValidation.None? && a.updatedAt == now
  {
    if !inputValid then Step(Reply(401, SchemaRejected), users, None)
    else match FindByEmail(users, email)
      case None => Step(Reply(401, UserDoesNotExist), users, None)
      case Some(i) =>
        var a := users[i];
        match CheckCode(sec, a.forgotPasswordCode, a.forgotPasswordCodeValidation, PresentedText(providedCode), now)
        case NotRequested => Step(Reply(400, CodeInvalid), users, None)
        case Expired => Step(Reply(400, CodeExpired), users, None)
        case Mismatch => Step(Reply(400, UnexpectedOccurred), users, None)
        case Match =>
          var a' := a.(password := sec.hash(newPassword, SaltRounds, salt), forgotPasswordCode := None,
                       forgotPasswordCodeValidation := None, updatedAt := now);
          Step(Reply(200, PasswordUpdated), users[i := a'], None)
  }

  // -------------------------------------------------------------- dashboard

  function Dashboard(users: seq<Account>, claims: Claims): (r: Step)
    ensures r.users == users && r.mail.None?
    ensures FindOne(users, ById(claims.userId)).None? ==> r.response == Reply(404, UserNotFound)
    ensures r.response.status == 200 <==> FindOne(users, ById(claims.userId)).Some?
    ensures r.response.status == 200 ==>
      var a := users[FindOne(users, ById(claims.userId)).value];
      && r.response.message == DashboardRetrieved
      && r.response.body == DashboardData(DashboardView(a), "Welcome back, " + a.name + "!")
  {
    match FindOne(users, ById(claims.userId))
    case None => Step(Reply(404, UserNotFound), users, None)
    case Some(i) =>
      var a := users[i];
      Step(Response(200, DashboardRetrieved, DashboardData(DashboardView(a), "Welcome back, " + a.name + "!")), users, None)
  }
}
