/**
 * The handlers of controllers/authController.js, step by step as they are
 * written, with `hmacProcess` taken to be a working HMAC under the
 * configured secret (as written it is not imported; `HmacImport` models
 * that): each fetches a document with `findOne`, checks its guards in
 * order, assigns the fields it changes one by one and calls `save`. The `users` field is
 * the `User` collection; every method is proved to answer and leave the
 * collection exactly as the transition of the same name in `AuthRules`
 * says, and to keep the collection invariant.
 */
module AuthController {
  import opened Options
  import opened Crypto
  import opened UserModel
  import opened AuthRules
  import AuthProperties

  class Controller {
    /** The `User` collection, in insertion order. */
    var users: seq<Account>

    ghost predicate Valid()
      reads this
    {
      CollectionValid(users)
    }

    constructor ()
      ensures Valid() && users == []
    {
      users := [];
    }

    /** `document.save()` for the document at position `i`: Mongoose stamps `updatedAt`. */
    method Save(i: nat, doc: Account, now: int)
      requires i < |users|
      modifies this
      ensures users == old(users)[i := doc.(updatedAt := now)]
    {
      users := users[i := doc.(updatedAt := now)];
    }

    method Signup(sec: Secrets, name: string, email: string, password: string,
                  inputValid: bool, salt: nat, now: int) returns (response: Response)
      requires Valid()
      modifies this
      ensures Valid()
      ensures AuthRules.Signup(old(users), sec, name, email, password, inputValid, salt, now) == Step(response, users, None)
    {
      AuthProperties.SignupKeepsValid(users, sec, name, email, password, inputValid, salt, now);
      if !inputValid {
        return Reply(400, ValidationFailed);
      }
      var existingUser := FindByEmail(users, email);
      if existingUser.Some? {
        return Reply(409, AccountExists);
      }
      var hashedPassword := sec.hash(password, SaltRounds, salt);
      var newUser := NewAccount(|users|, name, email, hashedPassword, now);
      if !SaveValidates(newUser) {
        return Reply(500, RegistrationFailed);
      }
      users := users + [newUser];
      response := Response(201, AccountCreated, Created(SignupView(newUser)));
    }

    method Signin(sec: Secrets, email: string, password: string, inputValid: bool, now: int)
      returns (response: Response)
      ensures AuthRules.Signin(users, sec, email, password, inputValid, now) == Step(response, users, None)
    {
      if !inputValid {
        return Reply(400, InvalidInput);
      }
      var existingUser := FindByEmail(users, email);
      if existingUser.None? {
        return Reply(401, AccountNotFound);
      }
      var user := users[existingUser.value];
      var result := sec.compare(password, user.password);
      if !result {
        return Reply(401, IncorrectPassword);
      }
      var token := IssueToken(TokenClaims(user), now);
      response := Response(200, LoginSuccessful,
        SignedIn(token, "Bearer " + sec.sign(token), now + CookieLifetime, SigninView(user)));
    }

    method SendVerificationCode(sec: Secrets, email: string, rand: Random, accepted: seq<string>, now: int)
      returns (response: Response, mail: Option<Mail>)
      requires Valid()
      modifies this
      ensures Valid()
      ensures AuthRules.SendVerificationCode(old(users), sec, email, rand, accepted, now) == Step(response, users, mail)
    {
      AuthProperties.SendVerificationCodeKeepsValid(users, sec, email, rand, accepted, now);
      var existingUser := FindByEmail(users, email);
      if existingUser.None? {
        return Reply(404, UserDoesNotExist), None;
      }
      var i := existingUser.value;
      var user := users[i];
      if user.verified {
        return Reply(400, AlreadyVerified), None;
      }
      var codeValue := CodeText(IssueCode(rand));
      mail := Some(CodeMail(user.email, "verification code", codeValue));
      if Delivered(accepted, user.email) {
        var hashedCodeValue := CodeDigest(sec, codeValue);
        user := user.(verificationCode := Some(hashedCodeValue));
        user := user.(verificationCodeValidation := Some(now));
        Save(i, user, now);
        return Reply(200, CodeSent), mail;
      }
      response := Reply(400, CodeSendFailed);
    }

    method VerifyVerificationCode(sec: Secrets, email: string, providedCode: Presented, inputValid: bool, now: int)
      returns (response: Response)
      requires Valid()
      modifies this
      ensures Valid()
      ensures AuthRules.VerifyVerificationCode(old(users), sec, email, providedCode, inputValid, now) == Step(response, users, None)
    {
      AuthProperties.VerifyVerificationCodeKeepsValid(users, sec, email, providedCode, inputValid, now);
      if !inputValid {
        return Reply(401, SchemaRejected);
      }
      var codeValue := PresentedText(providedCode);
      var existingUser := FindByEmail(users, email);
      if existingUser.None? {
        return Reply(401, UserDoesNotExist);
      }
      var i := existingUser.value;
      var user := users[i];
      if user.verified {
        return Reply(400, AlreadyVerified);
      }
      if !Pending(user.verificationCode, user.verificationCodeValidation) {
        return Reply(400, CodeInvalid);
      }
      if now - user.verificationCodeValidation.value > CodeLifetime {
        return Reply(400, CodeExpired);
      }
      var hashedCodeValue := CodeDigest(sec, codeValue);
      if hashedCodeValue == user.verificationCode.value {
        user := user.(verified := true);
        user := user.(verificationCode := None);
        user := user.(verificationCodeValidation := None);
        Save(i, user, now);
        return Reply(200, AccountVerified);
      }
      response := Reply(400, UnexpectedOccurred);
    }

    method ChangePassword(sec: Secrets, claims: Claims, oldPassword: string, newPassword: string,
                          inputValid: bool, salt: nat, now: int) returns (response: Response)
      requires Valid()
      modifies this
      ensures Valid()
      ensures AuthRules.ChangePassword(old(users), sec, claims, oldPassword, newPassword, inputValid, salt, now)
           == Step(response, users, None)
    {
      AuthProperties.ChangePasswordKeepsValid(users, sec, claims, oldPassword, newPassword, inputValid, salt, now);
      if !inputValid {
        return Reply(401, SchemaRejected);
      }
      if !claims.verified {
        return Reply(401, NotVerifiedUser);
      }
      var existingUser := FindOne(users, ById(claims.userId));
      if existingUser.None? {
        return Reply(401, UserDoesNotExist);
      }
      var i := existingUser.value;
      var user := users[i];
      var result := sec.compare(oldPassword, user.password);
      if !result {
        return Reply(401, InvalidCredentials);
      }
      var hashedPassword := sec.hash(newPassword, SaltRounds, salt);
      user := user.(password := hashedPassword);
      Save(i, user, now);
      response := Reply(200, PasswordUpdated);
    }

    method SendForgotPasswordCode(sec: Secrets, email: string, rand: Random, accepted: seq<string>, now: int)
      returns (response: Response, mail: Option<Mail>)
      requires Valid()
      modifies this
      ensures Valid()
      ensures AuthRules.SendForgotPasswordCode(old(users), sec, email, rand, accepted, now) == Step(response, users, mail)
    {
      AuthProperties.SendForgotPasswordCodeKeepsValid(users, sec, email, rand, accepted, now);
      var existingUser := FindByEmail(users, email);
      if existingUser.None? {
        return Reply(404, UserDoesNotExist), None;
      }
      var i := existingUser.value;
      var user := users[i];
      var codeValue := CodeText(IssueCode(rand));
      mail := Some(CodeMail(user.email, "Forgot password code", codeValue));
      if Delivered(accepted, user.email) {
        var hashedCodeValue := CodeDigest(sec, codeValue);
        user := user.(forgotPasswordCode := Some(hashedCodeValue));
        user := user.(forgotPasswordCodeValidation := Some(now));
        Save(i, user, now);
        return Reply(200, CodeSent), mail;
      }
      response := Reply(400, CodeSendFailed);
    }

    method VerifyForgotPasswordCode(sec: Secrets, email: string, providedCode: Presented, newPassword: string,
                                    inputValid: bool, salt: nat, now: int) returns (response: Response)
      requires Valid()
      modifies this
      ensures Valid()
      ensures AuthRules.VerifyForgotPasswordCode(old(users), sec, email, providedCode, newPassword, inputValid, salt, now)
           == Step(response, users, None)
    {
      AuthProperties.VerifyForgotPasswordCodeKeepsValid(users, sec, email, providedCode, newPassword, inputValid, salt, now);
      if !inputValid {
        return Reply(401, SchemaRejected);
      }
      var codeValue := PresentedText(providedCode);
      var existingUser := FindByEmail(users, email);
      if existingUser.None? {
        return Reply(401, UserDoesNotExist);
      }
      var i := existingUser.value;
      var user := users[i];
      if !Pending(user.forgotPasswordCode, user.forgotPasswordCodeValidation) {
        return Reply(400, CodeInvalid);
      }
      if now - user.forgotPasswordCodeValidation.value > CodeLifetime {
        return Reply(400, CodeExpired);
      }
      var hashedCodeValue := CodeDigest(sec, codeValue);
      if hashedCodeValue == user.forgotPasswordCode.value {
        var hashedPassword := sec.hash(newPassword, SaltRounds, salt);
        user := user.(password := hashedPassword);
        user := user.(forgotPasswordCode := None);
        user := user.(forgotPasswordCodeValidation := None);
        Save(i, user, now);
        return Reply(200, PasswordUpdated);
      }
      response := Reply(400, UnexpectedOccurred);
    }

    method Dashboard(claims: Claims) returns (response: Response)
      ensures AuthRules.Dashboard(users, claims) == Step(response, users, None)
    {
      var user := FindOne(users, ById(claims.userId));
      if user.None? {
        return Reply(404, UserNotFound);
      }
      var u := users[user.value];
      response := Response(200, DashboardRetrieved,
        DashboardData(DashboardView(u), "Welcome back, " + u.name + "!"));
    }
  }
}
