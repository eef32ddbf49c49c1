/**
 * The handlers as they are written call `hmacProcess`, which the controller
 * destructures from utils/hashing.js; that module exports only `doHash` and
 * `doHashValidation`, so the binding is `undefined` and every call throws a
 * TypeError. Each of the four code handlers catches it and only logs it:
 * the request gets no response and nothing is saved. This module models
 * those four handlers as written and proves the consequence: starting from a
 * collection with no pending verification code, no account ever becomes
 * verified. `AuthRules` models the evidently intended behaviour, with
 * `hmacProcess` an HMAC under the configured secret.
 */
module HmacImport {
  import opened Options
  import opened Crypto
  import opened UserModel
  import opened AuthRules
  import AuthWorkflow

  /** What a request comes to when the handler may end in its `catch` without answering. */
  datatype Outcome = Outcome(response: Option<Response>, users: seq<Account>, mail: Option<Mail>)

  /** A handler that answers. */
  function Answered(s: Step): Outcome {
    Outcome(Some(s.response), s.users, s.mail)
  }

  /**
   * `sendVerificationCode` as written: the mail goes out, and once the
   * transport confirms it the call to `hmacProcess` throws, so nothing is
   * stored and nothing is answered.
   */
  function SendVerificationCodeAsWritten(users: seq<Account>, email: string, rand: Random,
                                         accepted: seq<string>): (r: Outcome)
    ensures r.users == users
    ensures r.response.Some? ==> r.response.value.status != 200
    ensures r.response.None? <==>
      FindByEmail(users, email).Some? && !users[FindByEmail(users, email).value].verified
      && Delivered(accepted, users[FindByEmail(users, email).value].email)
  {
    match FindByEmail(users, email)
    case None => Outcome(Some(Reply(404, UserDoesNotExist)), users, None)
    case Some(i) =>
      var a := users[i];
      if a.verified then Outcome(Some(Reply(400, AlreadyVerified)), users, None)
      else
        var mail := CodeMail(a.email, "verification code", CodeText(IssueCode(rand)));
        if Delivered(accepted, a.email) then Outcome(None, users, Some(mail))
        else Outcome(Some(Reply(400, CodeSendFailed)), users, Some(mail))
  }

  /** `sendForgotPasswordCode` as written: the same, without the `verified` guard. */
  function SendForgotPasswordCodeAsWritten(users: seq<Account>, email: string, rand: Random,
                                           accepted: seq<string>): (r: Outcome)
    ensures r.users == users
    ensures r.response.Some? ==> r.response.value.status != 200
    ensures r.response.None? <==>
      FindByEmail(users, email).Some? && Delivered(accepted, users[FindByEmail(users, email).value].email)
  {
    match FindByEmail(users, email)
    case None => Outcome(Some(Reply(404, UserDoesNotExist)), users, None)
    case Some(i) =>
      var a := users[i];
      var mail := CodeMail(a.email, "Forgot password code", CodeText(IssueCode(rand)));
      if Delivered(accepted, a.email) then Outcome(None, users, Some(mail))
      else Outcome(Some(Reply(400, CodeSendFailed)), users, Some(mail))
  }

  /**
   * `verifyVerificationCode` as written: every guard answers as intended,
   * but a pending, unexpired code reaches `hmacProcess` and the request is
   * left unanswered; the account is never marked verified.
   */
  function VerifyVerificationCodeAsWritten(users: seq<Account>, sec: Secrets, email: string, providedCode: Presented,
                                           inputValid: bool, now: int): (r: Outcome)
    ensures r.users == users
    ensures r.response.Some? ==> r == Answered(VerifyVerificationCode(users, sec, email, providedCode, inputValid, now))
    ensures r.response.None? <==>
      var v := VerifyVerificationCode(users, sec, email, providedCode, inputValid, now).response;
      v.status == 200 || v.message == UnexpectedOccurred
  {
    if !inputValid then Outcome(Some(Reply(401, SchemaRejected)), users, None)
    else match FindByEmail(users, email)
      case None => Outcome(Some(Reply(401, UserDoesNotExist)), users, None)
      case Some(i) =>
        var a := users[i];
        if a.verified then Outcome(Some(Reply(400, AlreadyVerified)), users, None)
        else if !Pending(a.verificationCode, a.verificationCodeValidation) then
          Outcome(Some(Reply(400, CodeInvalid)), users, None)
        else if now - a.verificationCodeValidation.value > CodeLifetime then
          Outcome(Some(Reply(400, CodeExpired)), users, None)
        else Outcome(None, users, None)
  }

  /** `verifyForgotPasswordCode` as written: likewise, the password is never reset. */
  function VerifyForgotPasswordCodeAsWritten(users: seq<Account>, sec: Secrets, email: string, providedCode: Presented,
                                             newPassword: string, inputValid: bool, salt: nat, now: int): (r: Outcome)
    ensures r.users == users
    ensures r.response.Some? ==>
      r == Answered(VerifyForgotPasswordCode(users, sec, email, providedCode, newPassword, inputValid, salt, now))
    ensures r.response.None? <==>
      var v := VerifyForgotPasswordCode(users, sec, email, providedCode, newPassword, inputValid, salt, now).response;
      v.status == 200 || v.message == UnexpectedOccurred
  {
    if !inputValid then Outcome(Some(Reply(401, SchemaRejected)), users, None)
    else match FindByEmail(users, email)
      case None => Outcome(Some(Reply(401, UserDoesNotExist)), users, None)
      case Some(i) =>
        var a := users[i];
        if !Pending(a.forgotPasswordCode, a.forgotPasswordCodeValidation) then
          Outcome(Some(Reply(400, CodeInvalid)), users, None)
        else if now - a.forgotPasswordCodeValidation.value > CodeLifetime then
          Outcome(Some(Reply(400, CodeExpired)), users, None)
        else Outcome(None, users, None)
  }

  /** A request handled by the controller as written; the other four handlers do not use `hmacProcess`. */
  function HandleAsWritten(users: seq<Account>, sec: Secrets, req: AuthWorkflow.Request): Outcome {
    match req
    case SendVerificationCodeRequest(email, rand, accepted, _) =>
      SendVerificationCodeAsWritten(users, email, rand, accepted)
    case VerifyVerificationCodeRequest(email, code, inputValid, now) =>
      VerifyVerificationCodeAsWritten(users, sec, email, code, inputValid, now)
    case SendForgotPasswordCodeRequest(email, rand, accepted, _) =>
      SendForgotPasswordCodeAsWritten(users, email, rand, accepted)
    case VerifyForgotPasswordCodeRequest(email, code, newPassword, inputValid, salt, now) =>
      VerifyForgotPasswordCodeAsWritten(users, sec, email, code, newPassword, inputValid, salt, now)
    case _ => Answered(AuthWorkflow.Handle(users, sec, req))
  }

  function RunAsWritten(users: seq<Account>, sec: Secrets, reqs: seq<AuthWorkflow.Request>): seq<Account>
    decreases |reqs|
  {
    if reqs == [] then users else RunAsWritten(HandleAsWritten(users, sec, reqs[0]).users, sec, reqs[1..])
  }

  /** No account is verified or holds a verification code. */
  predicate NoneVerified(users: seq<Account>) {
    forall j :: 0 <= j < |users| ==> !users[j].verified && users[j].verificationCode.None?
  }

  /**
   * The discrepancy, for any unverified account whose mail is delivered:
   * as written the request is left unanswered and the collection unchanged;
   * as intended the answer is 200 and the digest of the mailed code is stored.
   */
  lemma SendVerificationCodeDiverges(users: seq<Account>, sec: Secrets, email: string, rand: Random,
                                     accepted: seq<string>, now: int)
    requires FindByEmail(users, email).Some?
    requires var a := users[FindByEmail(users, email).value]; !a.verified && Delivered(accepted, a.email)
    ensures SendVerificationCodeAsWritten(users, email, rand, accepted) == Outcome(None, users,
      SendVerificationCode(users, sec, email, rand, accepted, now).mail)
    ensures var r := SendVerificationCode(users, sec, email, rand, accepted, now);
      && r.response.status == 200
      && r.users[FindByEmail(users, email).value].verificationCode == Some(CodeDigest(sec, CodeText(IssueCode(rand))))
  {
  }

  /** Every handler as written keeps `NoneVerified`: nothing ever stores a verification code. */
  lemma HandleAsWrittenKeepsNoneVerified(users: seq<Account>, sec: Secrets, req: AuthWorkflow.Request)
    requires NoneVerified(users)
    ensures NoneVerified(HandleAsWritten(users, sec, req).users)
  {
    var users' := HandleAsWritten(users, sec, req).users;
    if req.SignupRequest? || req.ChangePasswordRequest? {
      var s := AuthWorkflow.Handle(users, sec, req);
      AuthWorkflow.OnlyVerificationSetsVerified(users, sec, req);
      if req.SignupRequest? && s.response.status == 201 {
        assert s.users[..|users|] == users;
        assert forall j :: 0 <= j < |users| ==> s.users[j] == s.users[..|users|][j];
      }
    }
  }

  /**
   * As written, from a collection where no account is verified or holds a
   * verification code (an empty one, say), no sequence of requests ever
   * verifies an account; `changePassword` then refuses every token.
   */
  lemma {:induction false} NeverVerifiedAsWritten(users: seq<Account>, sec: Secrets, reqs: seq<AuthWorkflow.Request>)
    requires NoneVerified(users)
    ensures NoneVerified(RunAsWritten(users, sec, reqs))
    decreases |reqs|
  {
    if reqs != [] {
      HandleAsWrittenKeepsNoneVerified(users, sec, reqs[0]);
      NeverVerifiedAsWritten(HandleAsWritten(users, sec, reqs[0]).users, sec, reqs[1..]);
    }
  }
  /** Hence, as written, every token signin issues is refused by `changePassword`. */
  lemma ChangePasswordRefusedAsWritten(users: seq<Account>, sec: Secrets, reqs: seq<AuthWorkflow.Request>,
                                       email: string, password: string, now: int,
                                       oldPassword: string, newPassword: string, salt: nat, later: int)
    requires NoneVerified(users)
    requires Signin(RunAsWritten(users, sec, reqs), sec, email, password, true, now).response.status == 200
    ensures var users' := RunAsWritten(users, sec, reqs);
      var claims := Signin(users', sec, email, password, true, now).response.body.token.payload;
      ChangePassword(users', sec, claims, oldPassword, newPassword, true, salt, later).response == Reply(401, NotVerifiedUser)
  {
    NeverVerifiedAsWritten(users, sec, reqs);
  }
}
