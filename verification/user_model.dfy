/**
 * The `User` document of models/userModel.js: its fields, the setters and
 * validators Mongoose applies when a document is saved, the fields hidden
 * from default reads, and the collection the handlers query with `findOne`.
 */
module UserModel {
  import opened Options
  import opened Strings
  import opened Crypto

  /**
   * One stored account. `id` stands for the ObjectId `_id`; the two code
   * digests and their issue times (milliseconds) are optional; `createdAt`
   * and `updatedAt` are the timestamps Mongoose maintains.
   */
  datatype Account = Account(
    id: nat,
    name: string,
    email: string,
    password: Digest,
    verified: bool,
    verificationCode: Option<string>,
    verificationCodeValidation: Option<int>,
    forgotPasswordCode: Option<string>,
    forgotPasswordCodeValidation: Option<int>,
    createdAt: int,
    updatedAt: int)

  /** The document fields; the five secret ones are declared `select: false`. */
  datatype Field =
    | Id | Name | Email | Password | Verified
    | VerificationCode | VerificationCodeValidation
    | ForgotPasswordCode | ForgotPasswordCodeValidation
    | CreatedAt | UpdatedAt

  const HiddenByDefault: set<Field> :=
    {Password, VerificationCode, VerificationCodeValidation, ForgotPasswordCode, ForgotPasswordCodeValidation}

  const NameMin: nat := 2
  const NameMax: nat := 50
  const EmailMin: nat := 5

  /** The email setters `trim` then `lowercase`; Mongoose applies them to saved values and to query filters. */
  function Normalize(email: string): string {
    ToLower(Trim(email))
  }

  /** Normalising twice changes nothing, so a stored email is its own lookup key. */
  lemma NormalizeIdempotent(email: string)
    ensures Normalize(Normalize(email)) == Normalize(email)
  {
    NormalizeShape(email);
    NormalizeFixes(Normalize(email));
  }

  /** A normalised email is trimmed and lower case. */
  lemma NormalizeShape(email: string)
    ensures Trimmed(Normalize(email)) && IsLowerCase(Normalize(email))
  {
    ToLowerKeepsTrimmed(Trim(email));
    ToLowerShape(Trim(email));
  }

  /** Normalising a trimmed, lower-case email changes nothing. */
  lemma NormalizeFixes(email: string)
    requires Trimmed(email) && IsLowerCase(email)
    ensures Normalize(email) == email
  {
    TrimOfTrimmed(email);
    ToLowerShape(email);
  }

  /** A name as stored: trimmed, 2 to 50 UTF-16 units long. */
  predicate NameStored(name: string) {
    Trimmed(name) && NameMin <= Utf16Length(name) <= NameMax
  }

  /** Lengths count UTF-16 units: a name of one astral character such as U+1F600 already meets the minimum of 2. */
  lemma AstralNameMeetsMinimum()
    ensures |"\U{1F600}"| < NameMin <= Utf16Length("\U{1F600}") <= NameMax
  {
    Utf16LengthAstral();
  }

  /** An email as stored: trimmed, lower case (so its own normal form), at least 5 UTF-16 units long. */
  predicate EmailStored(email: string) {
    Trimmed(email) && IsLowerCase(email) && Utf16Length(email) >= EmailMin
  }

  /** The two fields of a code pair are both set or both unset. */
  predicate PairConsistent<T>(code: Option<string>, issuedAt: Option<T>) {
    code.Some? <==> issuedAt.Some?
  }

  /** The invariant every saved account satisfies. */
  predicate AccountValid(a: Account) {
    && NameStored(a.name)
    && EmailStored(a.email)
    && PairConsistent(a.verificationCode, a.verificationCodeValidation)
    && PairConsistent(a.forgotPasswordCode, a.forgotPasswordCodeValidation)
  }

  /**
   * The validators `save` runs on a new document: `required`, `minLength`
   * and `maxLength` after the setters, lengths counted as JavaScript counts
   * them, in UTF-16 units.
   */
  predicate SaveValidates(a: Account) {
    NameMin <= Utf16Length(a.name) <= NameMax && Utf16Length(a.email) >= EmailMin && a.password != []
  }

  /**
   * `new User({ name, email, password })` at time `now`: setters applied,
   * `verified` defaulted to false, no code pending, both timestamps `now`.
   */
  function NewAccount(id: nat, name: string, email: string, password: Digest, now: int): (a: Account)
    ensures a.id == id && !a.verified
    ensures a.name == Trim(name) && a.email == Normalize(email) && a.password == password
    ensures a.verificationCode.None? && a.verificationCodeValidation.None?
    ensures a.forgotPasswordCode.None? && a.forgotPasswordCodeValidation.None?
    ensures a.createdAt == now && a.updatedAt == now
  {
    Account(id, Trim(name), Normalize(email), password, false, None, None, None, None, now, now)
  }

  /** A new account that passes `save`'s validators satisfies the account invariant. */
  lemma NewAccountValid(id: nat, name: string, email: string, password: Digest, now: int)
    requires SaveValidates(NewAccount(id, name, email, password, now))
    ensures AccountValid(NewAccount(id, name, email, password, now))
  {
    NormalizeShape(email);
  }

  /** A `findOne` filter: `{ email }` or `{ _id }`. */
  datatype Filter = ByEmail(email: string) | ById(id: nat)

  predicate Matches(a: Account, f: Filter) {
    match f
    case ByEmail(e) => a.email == e
    case ById(i) => a.id == i
  }

  /** `User.findOne(filter)`: the position of the first matching document, in collection order. */
  function FindOne(users: seq<Account>, f: Filter): (r: Option<nat>)
    ensures r.Some? ==> r.value < |users| && Matches(users[r.value], f)
    ensures r.Some? ==> forall j :: 0 <= j < r.value ==> !Matches(users[j], f)
    ensures r.None? ==> forall j :: 0 <= j < |users| ==> !Matches(users[j], f)
  {
    if users == [] then None
    else if Matches(users[0], f) then Some(0)
    else match FindOne(users[1..], f)
      case None => None
      case Some(k) => Some(k + 1)
  }

  /**
   * The collection invariant: each document's `_id` is its position, every
   * document is valid, and emails are unique (the `unique` index).
   */
  predicate CollectionValid(users: seq<Account>) {
    && (forall i :: 0 <= i < |users| ==> users[i].id == i && AccountValid(users[i]))
    && (forall i, j :: 0 <= i < j < |users| ==> users[i].email != users[j].email)
  }

  /** In a valid collection, lookup by email finds the one account with that email. */
  lemma FindByEmailUnique(users: seq<Account>, i: nat)
    requires CollectionValid(users) && i < |users|
    ensures FindOne(users, ByEmail(users[i].email)) == Some(i)
  {
  }

  /** In a valid collection, lookup by id finds the account at that position, if any. */
  lemma FindByIdPosition(users: seq<Account>, id: nat)
    requires CollectionValid(users)
    ensures FindOne(users, ById(id)) == if id < |users| then Some(id) else None
  {
    if id < |users| {
      assert Matches(users[id], ById(id));
    }
  }

  /** The fields of an account a response may show: never the password or a code field. */
  datatype View = View(id: nat, name: string, email: string, verified: bool, createdAt: Option<int>, updatedAt: Option<int>)

  /** The fields on which two accounts differ. */
  function Differing(a: Account, b: Account): set<Field> {
    (if a.id != b.id then {Id} else {}) + (if a.name != b.name then {Name} else {})
    + (if a.email != b.email then {Email} else {}) + (if a.password != b.password then {Password} else {})
    + (if a.verified != b.verified then {Verified} else {})
    + (if a.verificationCode != b.verificationCode then {VerificationCode} else {})
    + (if a.verificationCodeValidation != b.verificationCodeValidation then {VerificationCodeValidation} else {})
    + (if a.forgotPasswordCode != b.forgotPasswordCode then {ForgotPasswordCode} else {})
    + (if a.forgotPasswordCodeValidation != b.forgotPasswordCodeValidation then {ForgotPasswordCodeValidation} else {})
    + (if a.createdAt != b.createdAt then {CreatedAt} else {})
    + (if a.updatedAt != b.updatedAt then {UpdatedAt} else {})
  }

  /** Two accounts agree on every field that is not hidden by default. */
  predicate SamePublicFields(a: Account, b: Account) {
    Differing(a, b) <= HiddenByDefault
  }

  /** Accounts with the same public fields agree on `_id`, name, email, `verified` and both timestamps. */
  lemma SamePublicFieldsAgree(a: Account, b: Account)
    requires SamePublicFields(a, b)
    ensures a.id == b.id && a.name == b.name && a.email == b.email && a.verified == b.verified
    ensures a.createdAt == b.createdAt && a.updatedAt == b.updatedAt
  {
  }

  /** The saved document returned by signup, with `password` removed. */
  function SignupView(a: Account): View {
    View(a.id, a.name, a.email, a.verified, Some(a.createdAt), Some(a.updatedAt))
  }

  /** The `user` object returned by signin. */
  function SigninView(a: Account): View {
    View(a.id, a.name, a.email, a.verified, None, None)
  }

  /** The `user` object of the dashboard. */
  function DashboardView(a: Account): View {
    View(a.id, a.name, a.email, a.verified, Some(a.createdAt), None)
  }

  /** Each view is determined by the public fields: changing a password or a code never changes a view. */
  lemma ViewsIgnoreSecrets(a: Account, b: Account)
    requires SamePublicFields(a, b)
    ensures SignupView(a) == SignupView(b)
    ensures SigninView(a) == SigninView(b)
    ensures DashboardView(a) == DashboardView(b)
  {
    SamePublicFieldsAgree(a, b);
  }
}
