# login-auth-system in Dafny

A model of the authentication core of an Express/Mongoose service: the
`User` schema (models/userModel.js), the eight account handlers of
controllers/authController.js (signup, signin, sending and checking the
e-mail verification code, changing the password, sending and checking the
forgot-password code, the dashboard) and the `identifier` middleware that
turns the `Authorization` cookie or header into the caller's JWT claims
(middlewares/identication.js).

Modules:

- `Strings`: the string operations the source relies on. These are
  JavaScript `trim` over its whitespace set, ASCII lower-casing, `Number.prototype.toString`
  for naturals, `split`, `startsWith`, and string length counted in UTF-16 units (as
  Mongoose's `minLength`/`maxLength` count it).
- `Crypto`: bcrypt, `hmacProcess` and `jwt.sign` are fields of a `Secrets` value.
  `Sound(sec)` states what the model assumes of them: a hash compares equal to its
  password, and the HMAC is injective under the code secret.
  This module also holds the code below 1000000 drawn from `Math.random()`, the code a client
  presents (a JSON number or a JSON string), and the JWT with its 8-hour lifetime.
- `UserModel`: the `User` document and the schema's constraints. The
  setters (`trim`, `lowercase`) act on saves and on query filters. The collection is a
  sequence in insertion order and `findOne` returns the first match. `_id` is the position.
  `CollectionValid` is the invariant: ids are positions, every document is valid, and emails are unique.
- `AuthRules`: each handler as a pure transition from the collection to a
  response, the new collection and the mail sent.
- `AuthController`: the handlers imperatively, step by step as written, with
  `hmacProcess` taken to be a working HMAC (as written it is not imported; see
  `HmacImport` and Findings). A `Controller` object owns the collection. Each method
  fetches, checks its guards in order, assigns fields and saves. Each is proved to agree with its `AuthRules` transition and to keep the invariant.
- `AuthProperties`, `AuthWorkflow`: invariant preservation, round trips
  (signup then signin, a mailed code verifies, a forgot-password code resets), codes are
  single-use, the two code pairs do not interfere, and the effect of any sequence of requests.
  A signed-in browser passes `identifier` and sees its own dashboard.
- `Identification`: the `identifier` middleware.
- `HmacImport`: the four code handlers exactly as they are written, with the missing
  `hmacProcess` export (see Findings).

Behaviour of the code worth noting:

- A second verification attempt after success meets the `verified` guard first and
  gets the "already verified" 400 (controllers/authController.js:210-214).
- Codes are rendered with `toString()`, so they are not zero-padded and can be
  shorter than six digits (`Crypto.CodeTextLength`).
- `verifyVerificationCode` and `verifyForgotPasswordCode` answer 401 for an unknown email.
- A code is still accepted exactly 300000 ms after it was issued (`>` in the expiry test).
- The presented code is compared as the text `providedCode.toString()`: the number
  `12345` matches the mailed `12345`, but the string `"012345"` does not (`Crypto.PaddedTextDiffers`).

## Model

| member | source | states |
|---|---|---|
| Strings.Trim | models/userModel.js:8 | the `trim` setter's result is the input with exactly its leading and trailing JS whitespace removed: a contiguous slice, everything before and after it whitespace, and itself without whitespace at either end |
| Strings.TrimIdempotent | models/userModel.js:8 | trimming a trimmed value changes nothing, so saving a document twice stores the same name and email |
| Strings.ToLower | models/userModel.js:18 | the `lowercase` setter keeps the length and lower-cases each character in place |
| Strings.ToLowerShape | models/userModel.js:18 | the result of lower-casing is lower case, and lower-case input is returned unchanged |
| Strings.NatToString | controllers/authController.js:166 | `toString()` of a code is a non-empty digit string with no leading zero |
| Strings.ParseNatToString | controllers/authController.js:200 | reading the rendered digits back gives the number, so `providedCode.toString()` identifies the code |
| Strings.NatToStringInjective | controllers/authController.js:200 | different codes render to different strings |
| Strings.NatToStringLength | controllers/authController.js:166 | a number below 10^k renders in at most k digits, and one at or above it in more |
| Strings.Split | middlewares/identication.js:20 | `split(' ')` yields at least one part, no part contains the separator, and a string without it splits to itself |
| Strings.SplitFirstPart | middlewares/identication.js:20 | the first part of `split(' ')` is the input's prefix up to the first space, or the whole input when it has none |
| Strings.Utf16Length | models/userModel.js:5-24 | a string's length in UTF-16 units lies between its code-point count and twice that |
| Strings.Utf16LengthBmp | models/userModel.js:5-24 | for a string of Basic Multilingual Plane characters the UTF-16 length is the character count |
| Strings.Utf16LengthAstral | models/userModel.js:5-24 | one astral character (U+1F600) is one code point but two UTF-16 units |
| Strings.SplitAtFirst | middlewares/identication.js:20 | splitting `p + ' ' + rest`, where `p` has no space, gives `p` followed by the parts of `rest` |
| Crypto.IssueCode | controllers/authController.js:166 | `Math.floor(Math.random() * 1000000)` is below 1000000 and is the floor of the scaled draw |
| Crypto.CodeTextLength | controllers/authController.js:166 | a code's text has 1 to 6 digits, and fewer than 6 for codes below 100000 |
| Crypto.PresentedText | controllers/authController.js:200 | `providedCode.toString()`: a number renders as its decimal text, a string is itself |
| Crypto.NumberCodeText | controllers/authController.js:200 | a code presented as a number renders to the issued code's text exactly when it is the issued number |
| Crypto.PaddedTextDiffers | controllers/authController.js:200 | the string `"0"` plus the issued code's text never equals that text, so a zero-padded string code is refused |
| Crypto.CodeDigestMatches | controllers/authController.js:231-236 | under the HMAC secret, a presented text's digest equals the issued code's digest exactly when the text is the issued code's text |
| Crypto.IssueToken | controllers/authController.js:104-114 | the JWT carries the given claims, with `iat` in seconds and `exp` 8 hours (28800 s) after it |
| UserModel.NormalizeIdempotent | models/userModel.js:12-19 | applying the email setters to a stored email changes nothing |
| UserModel.NormalizeShape | models/userModel.js:12-19 | a normalised email is trimmed and lower case |
| UserModel.NormalizeFixes | models/userModel.js:12-19 | an email that is already trimmed and lower case is its own normal form |
| UserModel.NewAccount | models/userModel.js:3-49 | a new document stores the trimmed name and normalised email, `verified` false, no code pairs, and equal creation and update times |
| UserModel.AstralNameMeetsMinimum | models/userModel.js:5-10 | a name of one astral character has one code point but meets the 2-unit minimum length |
| UserModel.SamePublicFieldsAgree | models/userModel.js:25-49 | two documents that differ only in `select: false` fields agree on id, name, email, `verified` and both timestamps |
| UserModel.NewAccountValid | models/userModel.js:5-29 | a new document that passes the schema's length checks satisfies the document invariant |
| UserModel.FindOne | controllers/authController.js:29 | `findOne` returns the first matching position, or none exactly when nothing matches |
| UserModel.FindByEmailUnique | models/userModel.js:16 | in a valid collection, the document found by email is the only one with that email |
| UserModel.FindByIdPosition | controllers/authController.js:271 | in a valid collection, lookup by `_id` finds the document at that position, and nothing for an unknown id |
| UserModel.ViewsIgnoreSecrets | controllers/authController.js:126-131 | the signup, signin and dashboard projections of two documents that differ only in hidden fields are equal |
| AuthRules.CheckIssuedCode | controllers/authController.js:216-236 | a stored pair for code c issued at t reports Expired exactly after t + 300000, and otherwise Match exactly for the text of c |
| AuthRules.ExpiryBoundary | controllers/authController.js:225 | presenting the code at t + 300000 matches, and at t + 300001 it has expired |
| AuthRules.Signup | controllers/authController.js:13-65 | 400 "validation failed" on invalid input; 409 exactly when the normalised email is taken; 500 exactly when the input is valid, the email free and the schema rejects the new document; otherwise 201, which appends that document (id, trimmed name, normalised email, the password's hash, unverified) and changes nothing else |
| AuthRules.Signin | controllers/authController.js:67-142 | 400 on invalid input; 401 "Account not found" for an unknown email; 401 "Incorrect password" when the password does not compare; 200 exactly otherwise, with a token carrying `_id`, email and `verified`, the cookie `Bearer ` plus the signed token expiring 8 hours later; the collection is unchanged |
| AuthRules.SendVerificationCode | controllers/authController.js:151-188 | 404 for an unknown email; 400 "already verified" for a verified account; otherwise the mail `<h1>code</h1>` with the drawn code goes out, 400 when the transport does not accept it, and 200 exactly when it does, storing the code's digest and the time; only that account's verification fields change |
| AuthRules.VerifyVerificationCode | controllers/authController.js:190-251 | 401 on invalid input and for an unknown email; 400 for a verified account; otherwise 400 "something is wrong" with no pending pair, 400 "expired" after 300000 ms, 400 "unexpected" for a wrong code, and 200 exactly when the presented text matches in time, which sets `verified` and clears the pair |
| AuthRules.ChangePassword | controllers/authController.js:253-294 | every refusal is a 401 and changes nothing: invalid input, an unverified token, an unknown `_id`, a wrong old password, each with its own message; 200 exactly otherwise, storing the new hash and changing only that document |
| AuthRules.SendForgotPasswordCode | controllers/authController.js:296-328 | 404 for an unknown email; otherwise the code mail goes out, 400 when the transport does not accept it and 200 exactly when it does, storing the digest and time in the forgot-password pair only; no password changes |
| AuthRules.VerifyForgotPasswordCode | controllers/authController.js:330-394 | 401 on invalid input and for an unknown email; otherwise the three code refusals as for verification, and 200 exactly when the pending code matches in time, storing the new password's hash and clearing the pair |
| AuthRules.Dashboard | controllers/authController.js:396-431 | 404 exactly when no document has the token's `_id`; 200 exactly when one does, with its public view and `Welcome back, <name>!` |
| AuthProperties.FindOneSameKeys | controllers/authController.js:29 | `findOne` answers alike on collections with the same ids and emails |
| AuthProperties.FindOneAppend | controllers/authController.js:48 | saving a new document never changes an earlier lookup, and the new one is found when nothing earlier matched |
| AuthProperties.UpdateKeepsValid | controllers/authController.js:181 | re-saving a valid document with the same id, name and email keeps the collection valid |
| AuthProperties.AppendKeepsValid | controllers/authController.js:48 | saving a new valid document at the next position with an unused email keeps the collection invariant |
| AuthProperties.SignupKeepsValid | controllers/authController.js:13-65 | signup keeps the collection invariant, in particular unique emails |
| AuthProperties.SendVerificationCodeKeepsValid | controllers/authController.js:151-188 | sending a verification code keeps the collection invariant |
| AuthProperties.VerifyVerificationCodeKeepsValid | controllers/authController.js:190-251 | verifying keeps the collection invariant |
| AuthProperties.ChangePasswordKeepsValid | controllers/authController.js:253-294 | changing the password keeps the collection invariant |
| AuthProperties.SendForgotPasswordCodeKeepsValid | controllers/authController.js:296-328 | sending a forgot-password code keeps the collection invariant |
| AuthProperties.VerifyForgotPasswordCodeKeepsValid | controllers/authController.js:330-394 | resetting the password keeps the collection invariant |
| AuthProperties.SignupThenSignin | controllers/authController.js:13-142 | after a 201 signup, signing in with the same email and password gives 200 and an unverified token for the new id |
| AuthProperties.ChangePasswordThenSignin | controllers/authController.js:253-294 | after a 200 password change, signin accepts the new password |
| AuthProperties.UnverifiedTokenRefused | controllers/authController.js:266-270 | a token with `verified` false gets 401 "not verified" whatever the collection holds |
| AuthProperties.VerificationCodeRoundTrip | controllers/authController.js:151-251 | after a 200 send at t, a presentation verifies the account exactly when its text is the mailed code and it comes no later than t + 300000 (for a number: exactly when it is the mailed number); any other text in time is "unexpected"; after that the code has expired |
| AuthProperties.VerificationConsumedOnce | controllers/authController.js:210-214 | after a successful verification, every further attempt gets the "already verified" 400 |
| AuthProperties.ForgotPasswordRoundTrip | controllers/authController.js:296-394 | after a 200 send at t, a presentation in time resets the password exactly when its text is the mailed code (for a number: exactly when it is the mailed number), and signin then accepts the new one; any other text is answered "unexpected" and changes nothing |
| AuthProperties.ForgotCodeConsumedOnce | controllers/authController.js:356-362 | after a reset, presenting any code again finds no code pending |
| AuthProperties.VerificationAnswerDependsOnPair | controllers/authController.js:190-251 | a verification request is answered alike on collections with the same keys, flags and verification pairs |
| AuthProperties.ForgotAnswerDependsOnPair | controllers/authController.js:330-394 | a forgot-password check is answered alike on collections with the same keys and forgot-password pairs |
| AuthProperties.SendForgotLeavesVerification | controllers/authController.js:296-328 | sending a forgot-password code never changes how a verification request is answered |
| AuthProperties.ResetLeavesVerification | controllers/authController.js:330-394 | a password reset never changes how a verification request is answered |
| AuthProperties.SendVerificationLeavesForgot | controllers/authController.js:151-188 | sending a verification code never changes how a forgot-password check is answered |
| AuthProperties.VerificationLeavesForgot | controllers/authController.js:190-251 | verifying an account never changes how a forgot-password check is answered |
| AuthProperties.DashboardIgnoresSecrets | controllers/authController.js:400 | the dashboard answers alike on collections that differ only in hidden fields |
| AuthProperties.AnnCannotChangePasswordUnverified | controllers/authController.js:253-270 | a user who has just signed up and signed in cannot change the password until verified |
| AuthController.Controller.constructor | models/userModel.js:52 | an empty collection is valid |
| AuthController.Controller.Save | controllers/authController.js:181 | `save()` replaces the document at its position and stamps `updatedAt` |
| AuthController.Controller.Signup | controllers/authController.js:13-65 | the imperative handler answers and updates the collection as `AuthRules.Signup`, and keeps the invariant |
| AuthController.Controller.Signin | controllers/authController.js:67-142 | answers as `AuthRules.Signin` and changes nothing |
| AuthController.Controller.SendVerificationCode | controllers/authController.js:151-188 | answers, mails and stores as `AuthRules.SendVerificationCode`, keeping the invariant |
| AuthController.Controller.VerifyVerificationCode | controllers/authController.js:190-251 | answers and stores as `AuthRules.VerifyVerificationCode`, keeping the invariant |
| AuthController.Controller.ChangePassword | controllers/authController.js:253-294 | answers and stores as `AuthRules.ChangePassword`, keeping the invariant |
| AuthController.Controller.SendForgotPasswordCode | controllers/authController.js:296-328 | answers, mails and stores as `AuthRules.SendForgotPasswordCode`, keeping the invariant |
| AuthController.Controller.VerifyForgotPasswordCode | controllers/authController.js:330-394 | answers and stores as `AuthRules.VerifyForgotPasswordCode`, keeping the invariant |
| AuthController.Controller.Dashboard | controllers/authController.js:396-431 | answers as `AuthRules.Dashboard` and changes nothing |
| Identification.SelectToken | middlewares/identication.js:4-9 | a `not-browser` client's token is its `authorization` header; any other client's token is the `Authorization` cookie |
| Identification.StripBearer | middlewares/identication.js:20 | a token without the `Bearer ` prefix is used as is; with it, the result is the text after the prefix up to the next space or the end |
| Identification.StripBearerRoundTrip | middlewares/identication.js:20 | `Bearer ` plus a space-free token strips back to the token |
| Identification.Identifier | middlewares/identication.js:3-53 | every refusal is a 401; the request proceeds exactly when a non-empty token verifies, with the decoded claims; a missing or empty token, an expired one and a malformed one each get their own reason |
| AuthWorkflow.HandleKeepsValid | controllers/authController.js:13-431 | every handler keeps the collection invariant |
| AuthWorkflow.HandleExtends | controllers/authController.js:13-431 | no handler removes a document or changes its id, name, email or creation time, and none clears `verified` |
| AuthWorkflow.OnlyVerificationSetsVerified | controllers/authController.js:237 | every handler other than `verifyVerificationCode` leaves every `verified` flag as it was, and new documents are unverified |
| AuthWorkflow.RunKeepsValid | controllers/authController.js:13-431 | any sequence of requests keeps the collection invariant |
| AuthWorkflow.RunExtends | controllers/authController.js:13-431 | over any sequence of requests documents are only added, keep their identity, and stay verified once verified |
| AuthWorkflow.SigninReachesDashboard | controllers/authController.js:116-119 | the cookie signin sets, or the same value in a `not-browser` header, passes `identifier` with the token's claims, and the dashboard then shows the signed-in account |
| HmacImport.SendVerificationCodeAsWritten | controllers/authController.js:151-188 | as written: never 200 and never stores anything; unanswered exactly when the mail to an unverified account is accepted |
| HmacImport.SendForgotPasswordCodeAsWritten | controllers/authController.js:296-328 | as written: never 200 and never stores anything; unanswered exactly when the mail is accepted |
| HmacImport.VerifyVerificationCodeAsWritten | controllers/authController.js:190-251 | as written: answers as intended wherever it answers, never stores, and leaves unanswered exactly the requests that would match or mismatch |
| HmacImport.VerifyForgotPasswordCodeAsWritten | controllers/authController.js:330-394 | the same for the forgot-password check |
| HmacImport.SendVerificationCodeDiverges | controllers/authController.js:10 | for an unverified account whose mail is accepted, the as-written handler stores nothing and does not answer, while the intended one answers 200 and stores the code's digest |
| HmacImport.HandleAsWrittenKeepsNoneVerified | controllers/authController.js:10 | as written, no handler makes an account verified or stores a verification code |
| HmacImport.NeverVerifiedAsWritten | controllers/authController.js:10 | as written, starting from a collection with no verified account and no stored code, no sequence of requests ever verifies an account |
| HmacImport.ChangePasswordRefusedAsWritten | controllers/authController.js:253-270 | as written, every token signin issues is then refused by `changePassword` |

## Left out

- `signout` (controllers/authController.js:144-149) only clears the cookie and answers 200. It touches no state the model has.
- The Joi schemas of middlewares/validator are not part of this model. Their verdict is the boolean `inputValid` parameter.
- The mail transport (middlewares/sendMail) is not part of this model. Its `info.accepted` list is a parameter.
- Mongoose I/O, `select` projections, `__v` and the `unique` index are not modelled. The invariant `CollectionValid` stands in for the unique index.
- `_id` is the document's position, not an ObjectId.
- Infrastructure failures that end in a `catch` block (a database error, a mail transport error) are not modelled. So the 500 answers of signup, signin and dashboard are not modelled either, except signup's schema rejection.
- Requests run one at a time. Concurrent requests and the absence of compare-and-set between read and save are not modelled.
- bcrypt, the HMAC and JWT signing are abstract functions. `Sound` assumes a hash compares equal to its password and that the HMAC is injective on codes. Real HMAC collisions are not modelled.
- `jwt.verify` is a parameter. Its expiry check is outside the model.
- Lower-casing covers ASCII letters only. Trimming uses exactly ECMAScript's WhiteSpace and LineTerminator set (`Strings.IsSpace`), the set `String.prototype.trim` removes.
- A `providedCode` that is a negative or fractional number, or another JSON type the validator lets through, is not modelled; a presented code is a natural number or a string (`Crypto.Presented`).
- The dashboard's `lastLogin` timestamp, the cookie's `httpOnly`/`secure` flags, and the extra text fields of JSON answers (`suggestion`, `nextSteps`, `help`) are left out.
- `Math.random()`, `Date.now()` and bcrypt salts are parameters.
- The routers, server.js and quick-test.js are not part of this model. routers/authRouter.js:6-9 routes only signup, signin, signout and the dashboard; no route reaches the four code handlers or `changePassword`, so the model treats them as callable handlers.

## Findings

| source | as written | input that shows it | evidently intended | confidence | as-written member | corrected member |
|---|---|---|---|---|---|---|
| controllers/authController.js:10 | `hmacProcess` is destructured from utils/hashing.js, which exports only `doHash` and `doHashValidation`. Each call at lines 175, 231, 315 and 373 throws a TypeError. The `catch` only logs it, so there is no response and nothing is saved. | A call of the `sendVerificationCode` handler for an existing unverified account whose mail is accepted. The code is mailed but never stored, and no account can ever become verified. | HMAC the code under the configured secret, store it, answer 200, and accept the mailed code within 5 minutes | not executed | HmacImport.NeverVerifiedAsWritten | AuthProperties.VerificationCodeRoundTrip |
