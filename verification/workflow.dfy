/**
 * Sequences of requests against the `User` collection, and what holds after
 * any of them: the collection invariant (so both code pairs are always set
 * or unset together), accounts are never removed, their `_id`, name, email
 * and creation time never change, and `verified` never goes back to false.
 * Also how a signed-in browser reaches the dashboard through `identifier`.
 */
module AuthWorkflow {
  import opened Options
  import opened Crypto
  import opened UserModel
  import opened AuthRules
  import opened AuthProperties
  import opened Identification

  /** One call of a handler, with the values its environment supplied. */
  datatype Request =
    | SignupRequest(name: string, email: string, password: string, inputValid: bool, salt: nat, now: int)
    | SigninRequest(email: string, password: string, inputValid: bool, now: int)
    | SendVerificationCodeRequest(email: string, rand: Random, accepted: seq<string>, now: int)
    | VerifyVerificationCodeRequest(email: string, providedCode: Presented, inputValid: bool, now: int)
    | ChangePasswordRequest(claims: Claims, oldPassword: string, newPassword: string, inputValid: bool, salt: nat, now: int)
    | SendForgotPasswordCodeRequest(email: string, rand: Random, accepted: seq<string>, now: int)
    | VerifyForgotPasswordCodeRequest(email: string, providedCode: Presented, newPassword: string, inputValid: bool, salt: nat, now: int)
    | DashboardRequest(claims: Claims)

  function Handle(users: seq<Account>, sec: Secrets, req: Request): Step {
    match req
    case SignupRequest(name, email, password, inputValid, salt, now) =>
      Signup(users, sec, name, email, password, inputValid, salt, now)
    case SigninRequest(email, password, inputValid, now) =>
      Signin(users, sec, email, password, inputValid, now)
    case SendVerificationCodeRequest(email, rand, accepted, now) =>
      SendVerificationCode(users, sec, email, rand, accepted, now)
    case VerifyVerificationCodeRequest(email, code, inputValid, now) =>
      VerifyVerificationCode(users, sec, email, code, inputValid, now)
    case ChangePasswordRequest(claims, oldPassword, newPassword, inputValid, salt, now) =>
      ChangePassword(users, sec, claims, oldPassword, newPassword, inputValid, salt, now)
    case SendForgotPasswordCodeRequest(email, rand, accepted, now) =>
      SendForgotPasswordCode(users, sec, email, rand, accepted, now)
    case VerifyForgotPasswordCodeRequest(email, code, newPassword, inputValid, salt, now) =>
      VerifyForgotPasswordCode(users, sec, email, code, newPassword, inputValid, salt, now)
    case DashboardRequest(claims) =>
      Dashboard(users, claims)
  }

  /** The collection after the requests, handled one after another. */
  function Run(users: seq<Account>, sec: Secrets, reqs: seq<Request>): seq<Account>
    decreases |reqs|
  {
    if reqs == [] then users else Run(Handle(users, sec, reqs[0]).users, sec, reqs[1..])
  }

  /** `users'` extends `users`: nothing removed, identity fields kept, `verified` only ever set. */
  predicate Extends(users: seq<Account>, users': seq<Account>) {
    |users| <= |users'| &&
    forall j :: 0 <= j < |users| ==>
      && users'[j].id == users[j].id && users'[j].name == users[j].name
      && users'[j].email == users[j].email && users'[j].createdAt == users[j].createdAt
      && (users[j].verified ==> users'[j].verified)
  }

  lemma HandleKeepsValid(users: seq<Account>, sec: Secrets, req: Request)
    requires CollectionValid(users)
    ensures CollectionValid(Handle(users, sec, req).users)
  {
    match req
    case SignupRequest(name, email, password, inputValid, salt, now) =>
      SignupKeepsValid(users, sec, name, email, password, inputValid, salt, now);
    case SigninRequest(_, _, _, _) =>
    case SendVerificationCodeRequest(email, rand, accepted, now) =>
      SendVerificationCodeKeepsValid(users, sec, email, rand, accepted, now);
    case VerifyVerificationCodeRequest(email, code, inputValid, now) =>
      VerifyVerificationCodeKeepsValid(users, sec, email, code, inputValid, now);
    case ChangePasswordRequest(claims, oldPassword, newPassword, inputValid, salt, now) =>
      ChangePasswordKeepsValid(users, sec, claims, oldPassword, newPassword, inputValid, salt, now);
    case SendForgotPasswordCodeRequest(email, rand, accepted, now) =>
      SendForgotPasswordCodeKeepsValid(users, sec, email, rand, accepted, now);
    case VerifyForgotPasswordCodeRequest(email, code, newPassword, inputValid, salt, now) =>
      VerifyForgotPasswordCodeKeepsValid(users, sec, email, code, newPassword, inputValid, salt, now);
    case DashboardRequest(_) =>
  }

  lemma HandleExtends(users: seq<Account>, sec: Secrets, req: Request)
    ensures Extends(users, Handle(users, sec, req).users)
  {
    var r := Handle(users, sec, req);
    if req.SignupRequest? && r.response.status == 201 {
      assert r.users[..|users|] == users;
      assert forall j :: 0 <= j < |users| ==> r.users[j] == r.users[..|users|][j];
    }
  }

  /** Only a matching verification code sets `verified`; every other handler leaves every flag as it was. */
  lemma OnlyVerificationSetsVerified(users: seq<Account>, sec: Secrets, req: Request)
    requires !req.VerifyVerificationCodeRequest?
    ensures var users' := Handle(users, sec, req).users;
      forall j :: 0 <= j < |users'| ==> users'[j].verified == (j < |users| && users[j].verified)
  {
    var r := Handle(users, sec, req);
    if req.SignupRequest? && r.response.status == 201 {
      assert r.users[..|users|] == users;
      assert forall j :: 0 <= j < |users| ==> r.users[j] == r.users[..|users|][j];
    }
  }

  lemma ExtendsTransitive(a: seq<Account>, b: seq<Account>, c: seq<Account>)
    requires Extends(a, b) && Extends(b, c)
    ensures Extends(a, c)
  {
  }

  /** Any sequence of requests keeps the collection invariant. */
  lemma {:induction false} RunKeepsValid(users: seq<Account>, sec: Secrets, reqs: seq<Request>)
    requires CollectionValid(users)
    ensures CollectionValid(Run(users, sec, reqs))
    decreases |reqs|
  {
    if reqs != [] {
      HandleKeepsValid(users, sec, reqs[0]);
      RunKeepsValid(Handle(users, sec, reqs[0]).users, sec, reqs[1..]);
    }
  }

  /** Any sequence of requests only adds accounts, keeps their identity, and never unverifies one. */
  lemma {:induction false} RunExtends(users: seq<Account>, sec: Secrets, reqs: seq<Request>)
    ensures Extends(users, Run(users, sec, reqs))
    decreases |reqs|
  {
    if reqs != [] {
      var next := Handle(users, sec, reqs[0]).users;
      HandleExtends(users, sec, reqs[0]);
      RunExtends(next, sec, reqs[1..]);
      ExtendsTransitive(users, next, Run(next, sec, reqs[1..]));
    }
  }

  /**
   * The cookie signin sets lets a browser through `identifier` with the
   * token's claims, as does the same `Bearer ` value sent by a
   * `not-browser` client in the `authorization` header, provided
   * `jwt.verify` accepts what `jwt.sign` produced and the serialised token
   * has no space (a JWT is three base64url segments joined by dots).
   * The dashboard then shows the signed-in account.
   */
  lemma SigninReachesDashboard(users: seq<Account>, sec: Secrets, email: string, password: string, now: int,
                               verify: string -> VerifyOutcome)
    requires CollectionValid(users)
    requires Signin(users, sec, email, password, true, now).response.status == 200
    requires var t := Signin(users, sec, email, password, true, now).response.body.token;
      ' ' !in sec.sign(t) && verify(sec.sign(t)) == Decoded(t.payload)
    ensures var body := Signin(users, sec, email, password, true, now).response.body;
      && Identifier(Headers(None, None), Some(body.cookie), verify) == Next(body.token.payload)
      && Identifier(Headers(Some(NotBrowser), Some(body.cookie)), None, verify) == Next(body.token.payload)
      && Dashboard(users, body.token.payload).response.body == DashboardData(DashboardView(users[FindByEmail(users, email).value]),
           "Welcome back, " + users[FindByEmail(users, email).value].name + "!")
  {
    var body := Signin(users, sec, email, password, true, now).response.body;
    StripBearerRoundTrip(sec.sign(body.token));
    assert body.cookie == BearerPrefix + sec.sign(body.token);
    var i := FindByEmail(users, email).value;
    FindByIdPosition(users, users[i].id);
  }
}
