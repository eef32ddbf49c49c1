/**
 * What the handlers of controllers/authController.js guarantee together:
 * the collection invariant is kept, a signed-up account can sign in, an
 * issued code verifies exactly once and only within five minutes, the two
 * code flows never disturb each other, and responses show no secret.
 */
module AuthProperties {
  import opened Options
  import opened Strings
  import opened Crypto
  import opened UserModel
  import opened AuthRules

  /** Two collections hold the same documents under the same `_id`s and emails. */
  predicate SameKeys(users: seq<Account>, users': seq<Account>) {
    |users'| == |users| &&
    forall j :: 0 <= j < |users| ==> users'[j].id == users[j].id && users'[j].email == users[j].email
  }

  /** `findOne` gives the same answer on two collections with the same keys. */
  lemma {:induction false} FindOneSameKeys(users: seq<Account>, users': seq<Account>, f: Filter)
    requires SameKeys(users, users')
    ensures FindOne(users', f) == FindOne(users, f)
    decreases |users|
  {
    if users != [] {
      assert Matches(users[0], f) == Matches(users'[0], f);
      FindOneSameKeys(users[1..], users'[1..], f);
    }
  }

  /** Appending a document never changes an earlier answer, and is found when nothing earlier matched. */
  lemma {:induction false} FindOneAppend(users: seq<Account>, a: Account, f: Filter)
    ensures FindOne(users, f).Some? ==> FindOne(users + [a], f) == FindOne(users, f)
    ensures FindOne(users, f).None? && Matches(a, f) ==> FindOne(users + [a], f) == Some(|users|)
    decreases |users|
  {
    if users != [] {
      assert (users + [a])[1..] == users[1..] + [a];
      FindOneAppend(users[1..], a, f);
    }
  }

  /** Replacing one valid document by a valid one with the same `_id`, name and email keeps the collection valid. */
  lemma UpdateKeepsValid(users: seq<Account>, i: nat, a: Account)
    requires CollectionValid(users) && i < |users|
    requires a.id == users[i].id && a.name == users[i].name && a.email == users[i].email
    requires PairConsistent(a.verificationCode, a.verificationCodeValidation)
    requires PairConsistent(a.forgotPasswordCode, a.forgotPasswordCodeValidation)
    ensures CollectionValid(users[i := a])
  {
  }

  /** Appending a valid document at the next position, with an email no document has, keeps the collection valid. */
  lemma AppendKeepsValid(users: seq<Account>, a: Account)
    requires CollectionValid(users) && a.id == |users| && AccountValid(a)
    requires FindOne(users, ByEmail(a.email)).None?
    ensures CollectionValid(users + [a])
  {
  }

  // ------------------------------------------------------ the invariant

  lemma SignupKeepsValid(users: seq<Account>, sec: Secrets, name: string, email: string, password: string,
                         inputValid: bool, salt: nat, now: int)
    requires CollectionValid(users)
    ensures CollectionValid(Signup(users, sec, name, email, password, inputValid, salt, now).users)
  {
    var r := Signup(users, sec, name, email, password, inputValid, salt, now);
    if r.response.status == 201 {
      var hashed := sec.hash(password, SaltRounds, salt);
      var a := NewAccount(|users|, name, email, hashed, now);
      NewAccountValid(|users|, name, email, hashed, now);
      AppendKeepsValid(users, a);
    }
  }

  lemma SendVerificationCodeKeepsValid(users: seq<Account>, sec: Secrets, email: string, rand: Random,
                                       accepted: seq<string>, now: int)
    requires CollectionValid(users)
    ensures CollectionValid(SendVerificationCode(users, sec, email, rand, accepted, now).users)
  {
    var r := SendVerificationCode(users, sec, email, rand, accepted, now);
    if r.response.status == 200 {
      var i := FindByEmail(users, email).value;
      assert r.users == users[i := r.users[i]];
      UpdateKeepsValid(users, i, r.users[i]);
    }
  }

  lemma VerifyVerificationCodeKeepsValid(users: seq<Account>, sec: Secrets, email: string, providedCode: Presented,
                                         inputValid: bool, now: int)
    requires CollectionValid(users)
    ensures CollectionValid(VerifyVerificationCode(users, sec, email, providedCode, inputValid, now).users)
  {
    var r := VerifyVerificationCode(users, sec, email, providedCode, inputValid, now);
    if r.response.status == 200 {
      var i := FindByEmail(users, email).value;
      assert r.users == users[i := r.users[i]];
      UpdateKeepsValid(users, i, r.users[i]);
    }
  }

  lemma ChangePasswordKeepsValid(users: seq<Account>, sec: Secrets, claims: Claims, oldPassword: string,
                                 newPassword: string, inputValid: bool, salt: nat, now: int)
    requires CollectionValid(users)
    ensures CollectionValid(ChangePassword(users, sec, claims, oldPassword, newPassword, inputValid, salt, now).users)
  {
    var r := ChangePassword(users, sec, claims, oldPassword, newPassword, inputValid, salt, now);
    if r.response.status == 200 {
      var i := FindOne(users, ById(claims.userId)).value;
      assert r.users == users[i := r.users[i]];
      UpdateKeepsValid(users, i, r.users[i]);
    }
  }

  lemma SendForgotPasswordCodeKeepsValid(users: seq<Account>, sec: Secrets, email: string, rand: Random,
                                         accepted: seq<string>, now: int)
    requires CollectionValid(users)
    ensures CollectionValid(SendForgotPasswordCode(users, sec, email, rand, accepted, now).users)
  {
    var r := SendForgotPasswordCode(users, sec, email, rand, accepted, now);
    if r.response.status == 200 {
      var i := FindByEmail(users, email).value;
      assert r.users == users[i := r.users[i]];
      UpdateKeepsValid(users, i, r.users[i]);
    }
  }

  lemma VerifyForgotPasswordCodeKeepsValid(users: seq<Account>, sec: Secrets, email: string, providedCode: Presented,
                                           newPassword: string, inputValid: bool, salt: nat, now: int)
    requires CollectionValid(users)
    ensures CollectionValid(VerifyForgotPasswordCode(users, sec, email, providedCode, newPassword, inputValid, salt, now).users)
  {
    var r := VerifyForgotPasswordCode(users, sec, email, providedCode, newPassword, inputValid, salt, now);
    if r.response.status == 200 {
      var i := FindByEmail(users, email).value;
      assert r.users == users[i := r.users[i]];
      UpdateKeepsValid(users, i, r.users[i]);
    }
  }

  // ------------------------------------------------- signup and signin

  /** A fresh signup can sign in straight away with the same password; the token says it is unverified. */
  lemma SignupThenSignin(users: seq<Account>, sec: Secrets, name: string, email: string, password: string,
                         salt: nat, now: int, later: int)
    requires Sound(sec)
    requires Signup(users, sec, name, email, password, true, salt, now).response.status == 201
    ensures var r := Signin(Signup(users, sec, name, email, password, true, salt, now).users, sec, email, password, true, later);
      && r.response.status == 200
      && r.response.body.token.payload == Claims(|users|, Normalize(email), false)
  {
    var s := Signup(users, sec, name, email, password, true, salt, now);
    var a := s.users[|users|];
    assert s.users == users + [a];
    FindOneAppend(users, a, ByEmail(Normalize(email)));
  }

  /** After a password change, signin accepts the new password. */
  lemma ChangePasswordThenSignin(users: seq<Account>, sec: Secrets, claims: Claims, oldPassword: string,
                                 newPassword: string, salt: nat, now: int, later: int)
    requires Sound(sec) && CollectionValid(users)
    requires ChangePassword(users, sec, claims, oldPassword, newPassword, true, salt, now).response.status == 200
    ensures var r := ChangePassword(users, sec, claims, oldPassword, newPassword, true, salt, now);
      Signin(r.users, sec, users[claims.userId].email, newPassword, true, later).response.status == 200
  {
    var r := ChangePassword(users, sec, claims, oldPassword, newPassword, true, salt, now);
    FindByIdPosition(users, claims.userId);
    var i := claims.userId;
    var e := users[i].email;
    NormalizeFixes(e);
    FindOneSameKeys(users, r.users, ByEmail(e));
    FindByEmailUnique(users, i);
  }

  /** A token claiming `verified: false` is refused before any lookup, whatever the collection holds. */
  lemma UnverifiedTokenRefused(users: seq<Account>, users': seq<Account>, sec: Secrets, claims: Claims,
                               oldPassword: string, newPassword: string, salt: nat, now: int)
    requires !claims.verified
    ensures ChangePassword(users, sec, claims, oldPassword, newPassword, true, salt, now).response
         == ChangePassword(users', sec, claims, oldPassword, newPassword, true, salt, now).response
         == Reply(401, NotVerifiedUser)
  {
  }

  // ------------------------------------------------- verification code

  /**
   * A code sent at time `t` verifies the account exactly when the mailed
   * code is presented no later than `t + 300000`; after that every
   * presentation is answered as expired.
   */
  lemma VerificationCodeRoundTrip(users: seq<Account>, sec: Secrets, email: string, rand: Random,
                                  accepted: seq<string>, t: int, provided: Presented, now: int)
    requires Sound(sec) && t != 0
    requires SendVerificationCode(users, sec, email, rand, accepted, t).response.status == 200
    ensures var r := VerifyVerificationCode(SendVerificationCode(users, sec, email, rand, accepted, t).users,
                                            sec, email, provided, true, now);
      && (now - t > CodeLifetime ==> r.response == Reply(400, CodeExpired))
      && (now - t <= CodeLifetime ==>
            (r.response.status == 200 <==> PresentedText(provided) == CodeText(IssueCode(rand))))
      && (now - t <= CodeLifetime && PresentedText(provided) != CodeText(IssueCode(rand)) ==>
            r.response == Reply(400, UnexpectedOccurred))
      && (now - t <= CodeLifetime && provided.NumberCode? ==>
            (r.response.status == 200 <==> provided.n == IssueCode(rand)))
  {
    var s := SendVerificationCode(users, sec, email, rand, accepted, t);
    FindOneSameKeys(users, s.users, ByEmail(Normalize(email)));
    CheckIssuedCode(sec, IssueCode(rand), t, PresentedText(provided), now);
    if provided.NumberCode? {
      NumberCodeText(IssueCode(rand), provided.n);
    }
  }

  /** Once a code has verified the account, any further attempt meets the "already verified" guard. */
  lemma VerificationConsumedOnce(users: seq<Account>, sec: Secrets, email: string, code: Presented, now: int,
                                 code': Presented, later: int)
    requires VerifyVerificationCode(users, sec, email, code, true, now).response.status == 200
    ensures VerifyVerificationCode(VerifyVerificationCode(users, sec, email, code, true, now).users,
                                   sec, email, code', true, later).response == Reply(400, AlreadyVerified)
  {
    var r := VerifyVerificationCode(users, sec, email, code, true, now);
    FindOneSameKeys(users, r.users, ByEmail(Normalize(email)));
  }

  // ---------------------------------------------------- forgot password

  /**
   * A forgot-password code sent at `t` and presented in time with a new
   * password resets it exactly when the presentation's text is the mailed
   * code (for a number: exactly when it is the mailed number); signin then
   * accepts the new password. Any other text is answered "unexpected" and
   * changes nothing.
   */
  lemma ForgotPasswordRoundTrip(users: seq<Account>, sec: Secrets, email: string, rand: Random,
                                accepted: seq<string>, t: int, provided: Presented, newPassword: string,
                                salt: nat, now: int, later: int)
    requires Sound(sec) && t != 0 && now - t <= CodeLifetime
    requires SendForgotPasswordCode(users, sec, email, rand, accepted, t).response.status == 200
    ensures var s := SendForgotPasswordCode(users, sec, email, rand, accepted, t);
      var r := VerifyForgotPasswordCode(s.users, sec, email, provided, newPassword, true, salt, now);
      && (r.response.status == 200 <==> PresentedText(provided) == CodeText(IssueCode(rand)))
      && (provided.NumberCode? ==> (r.response.status == 200 <==> provided.n == IssueCode(rand)))
      && (PresentedText(provided) != CodeText(IssueCode(rand)) ==>
            r.response == Reply(400, UnexpectedOccurred) && r.users == s.users)
      && (r.response.status == 200 ==> Signin(r.users, sec, email, newPassword, true, later).response.status == 200)
  {
    var s := SendForgotPasswordCode(users, sec, email, rand, accepted, t);
    FindOneSameKeys(users, s.users, ByEmail(Normalize(email)));
    CheckIssuedCode(sec, IssueCode(rand), t, PresentedText(provided), now);
    if provided.NumberCode? {
      NumberCodeText(IssueCode(rand), provided.n);
    }
    var r := VerifyForgotPasswordCode(s.users, sec, email, provided, newPassword, true, salt, now);
    if r.response.status == 200 {
      FindOneSameKeys(s.users, r.users, ByEmail(Normalize(email)));
    }
  }

  /** A forgot-password code resets the password once; presenting any code again finds no code pending. */
  lemma ForgotCodeConsumedOnce(users: seq<Account>, sec: Secrets, email: string, code: Presented, newPassword: string,
                               salt: nat, now: int, code': Presented, newPassword': string, salt': nat, later: int)
    requires VerifyForgotPasswordCode(users, sec, email, code, newPassword, true, salt, now).response.status == 200
    ensures VerifyForgotPasswordCode(VerifyForgotPasswordCode(users, sec, email, code, newPassword, true, salt, now).users,
                                     sec, email, code', newPassword', true, salt', later).response == Reply(400, CodeInvalid)
  {
    var r := VerifyForgotPasswordCode(users, sec, email, code, newPassword, true, salt, now);
    FindOneSameKeys(users, r.users, ByEmail(Normalize(email)));
  }

  // ------------------------------------------------------ non-interference

  /** Same keys, same `verified` flags and same verification pairs: every verification request is answered alike. */
  lemma VerificationAnswerDependsOnPair(users: seq<Account>, users': seq<Account>, sec: Secrets,
                                        email: string, code: Presented, inputValid: bool, now: int)
    requires SameKeys(users, users')
    requires forall j :: 0 <= j < |users| ==>
      && users'[j].verified == users[j].verified
      && users'[j].verificationCode == users[j].verificationCode
      && users'[j].verificationCodeValidation == users[j].verificationCodeValidation
    ensures VerifyVerificationCode(users', sec, email, code, inputValid, now).response
         == VerifyVerificationCode(users, sec, email, code, inputValid, now).response
  {
    FindOneSameKeys(users, users', ByEmail(Normalize(email)));
  }

  /** Same keys and same forgot-password pairs: every forgot-password request is answered alike. */
  lemma ForgotAnswerDependsOnPair(users: seq<Account>, users': seq<Account>, sec: Secrets,
                                  email: string, code: Presented, newPassword: string, inputValid: bool, salt: nat, now: int)
    requires SameKeys(users, users')
    requires forall j :: 0 <= j < |users| ==>
      && users'[j].forgotPasswordCode == users[j].forgotPasswordCode
      && users'[j].forgotPasswordCodeValidation == users[j].forgotPasswordCodeValidation
    ensures VerifyForgotPasswordCode(users', sec, email, code, newPassword, inputValid, salt, now).response
         == VerifyForgotPasswordCode(users, sec, email, code, newPassword, inputValid, salt, now).response
  {
    FindOneSameKeys(users, users', ByEmail(Normalize(email)));
  }

  /** Sending a forgot-password code never changes how a verification request would be answered. */
  lemma SendForgotLeavesVerification(users: seq<Account>, sec: Secrets, email: string, rand: Random,
                                     accepted: seq<string>, now: int,
                                     email': string, code': Presented, inputValid': bool, later: int)
    ensures var s := SendForgotPasswordCode(users, sec, email, rand, accepted, now).users;
      VerifyVerificationCode(s, sec, email', code', inputValid', later).response
        == VerifyVerificationCode(users, sec, email', code', inputValid', later).response
  {
    var s := SendForgotPasswordCode(users, sec, email, rand, accepted, now).users;
    VerificationAnswerDependsOnPair(users, s, sec, email', code', inputValid', later);
  }

  /** Resetting a password with a forgot-password code never changes how a verification request would be answered. */
  lemma ResetLeavesVerification(users: seq<Account>, sec: Secrets, email: string, code: Presented, newPassword: string,
                                salt: nat, now: int, email': string, code': Presented, inputValid': bool, later: int)
    ensures var v := VerifyForgotPasswordCode(users, sec, email, code, newPassword, true, salt, now).users;
      VerifyVerificationCode(v, sec, email', code', inputValid', later).response
        == VerifyVerificationCode(users, sec, email', code', inputValid', later).response
  {
    var v := VerifyForgotPasswordCode(users, sec, email, code, newPassword, true, salt, now).users;
    VerificationAnswerDependsOnPair(users, v, sec, email', code', inputValid', later);
  }

  /** Sending a verification code never changes how a forgot-password request would be answered. */
  lemma SendVerificationLeavesForgot(users: seq<Account>, sec: Secrets, email: string, rand: Random,
                                     accepted: seq<string>, now: int, email': string, code': Presented,
                                     newPassword': string, inputValid': bool, salt': nat, later: int)
    ensures var s := SendVerificationCode(users, sec, email, rand, accepted, now).users;
      VerifyForgotPasswordCode(s, sec, email', code', newPassword', inputValid', salt', later).response
        == VerifyForgotPasswordCode(users, sec, email', code', newPassword', inputValid', salt', later).response
  {
    var s := SendVerificationCode(users, sec, email, rand, accepted, now).users;
    ForgotAnswerDependsOnPair(users, s, sec, email', code', newPassword', inputValid', salt', later);
  }

  /** Verifying an account never changes how a forgot-password request would be answered. */
  lemma VerificationLeavesForgot(users: seq<Account>, sec: Secrets, email: string, code: Presented, now: int,
                                 email': string, code': Presented, newPassword': string, inputValid': bool, salt': nat, later: int)
    ensures var v := VerifyVerificationCode(users, sec, email, code, true, now).users;
      VerifyForgotPasswordCode(v, sec, email', code', newPassword', inputValid', salt', later).response
        == VerifyForgotPasswordCode(users, sec, email', code', newPassword', inputValid', salt', later).response
  {
    var v := VerifyVerificationCode(users, sec, email, code, true, now).users;
    ForgotAnswerDependsOnPair(users, v, sec, email', code', newPassword', inputValid', salt', later);
  }

  // ----------------------------------------------------------- projections

  /** The dashboard answer depends on no hidden field: collections that differ only in secrets answer alike. */
  lemma DashboardIgnoresSecrets(users: seq<Account>, users': seq<Account>, claims: Claims)
    requires |users'| == |users|
    requires forall j :: 0 <= j < |users| ==> SamePublicFields(users[j], users'[j])
    ensures Dashboard(users', claims).response == Dashboard(users, claims).response
  {
    forall j | 0 <= j < |users|
      ensures users'[j].id == users[j].id && users'[j].email == users[j].email
    {
      SamePublicFieldsAgree(users[j], users'[j]);
    }
    FindOneSameKeys(users, users', ById(claims.userId));
    var found := FindOne(users, ById(claims.userId));
    if found.Some? {
      ViewsIgnoreSecrets(users[found.value], users'[found.value]);
      SamePublicFieldsAgree(users[found.value], users'[found.value]);
    }
  }

  // ---------------------------------------------------------- a scenario

  /** The name `Ann` is stored as given and is three UTF-16 units long. */
  lemma AnnName()
    ensures Trim("Ann") == "Ann" && Utf16Length("Ann") == 3
  {
    TrimOfTrimmed("Ann");
    Utf16LengthBmp("Ann");
  }

  /** The email `ann@x.com` is its own normal form. */
  lemma AnnEmailNormal()
    ensures Normalize("ann@x.com") == "ann@x.com"
  {
    assert IsLowerCase("ann@x.com");
    NormalizeFixes("ann@x.com");
  }

  /** The email `ann@x.com` is nine UTF-16 units long. */
  lemma AnnEmailLength()
    ensures Utf16Length("ann@x.com") == 9
  {
    Utf16LengthBmp("ann@x.com");
  }

  /** The document `new User({ name: 'Ann', email: 'ann@x.com', ... })` passes the save validators as it is. */
  lemma AnnAccountSaves(password: Digest, now: int)
    ensures var a := NewAccount(0, "Ann", "ann@x.com", password, now);
      a.name == "Ann" && a.email == "ann@x.com" && SaveValidates(a)
  {
    AnnName();
    AnnEmailNormal();
    AnnEmailLength();
  }

  /**
   * Ann signs up as `ann@x.com`, signs in with the same password and gets a
   * token saying the account is not verified; changing the password with that
   * token is refused with 401.
   */
  lemma AnnCannotChangePasswordUnverified(sec: Secrets, salt: nat, now: int, later: int)
    requires Sound(sec)
    ensures var s := Signup([], sec, "Ann", "ann@x.com", "Secret123", true, salt, now);
      && s.response.status == 201
      && var t := Signin(s.users, sec, "ann@x.com", "Secret123", true, later);
      && t.response.status == 200
      && t.response.body.token.payload == Claims(0, "ann@x.com", false)
      && ChangePassword(s.users, sec, t.response.body.token.payload, "Secret123", "Another456", true, salt, later).response
         == Reply(401, NotVerifiedUser)
  {
    AnnAccountSaves(sec.hash("Secret123", SaltRounds, salt), now);
    SignupThenSignin([], sec, "Ann", "ann@x.com", "Secret123", salt, now, later);
  }
}
