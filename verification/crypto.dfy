/**
 * The foreign primitives the account workflow calls, as abstract functions:
 * bcrypt's `hash`/`compare` (utils/hashing.js), the keyed digest applied to
 * one-time codes, and `jwt.sign`. Also the one-time code drawn from
 * `Math.random` and the claims and timing of a session token.
 */
module Crypto {
  import opened Strings

  /** bcrypt cost factor passed to `doHash` by every caller. */
  const SaltRounds: nat := 12

  /** A bcrypt digest: never empty and never surrounded by white space (bcrypt's alphabet has none). */
  type Digest = s: string | s != [] && Trimmed(s) witness "$"

  /** The identity a session token carries. */
  datatype Claims = Claims(userId: nat, email: string, verified: bool)

  /** A session token before serialisation: its payload and its issue and expiry times, in seconds. */
  datatype Jwt = Jwt(payload: Claims, iat: int, exp: int)

  /** The process-wide secrets and the primitives keyed by them. */
  datatype Secrets = Secrets(
    // bcrypt.hash(plaintext, rounds), the last argument standing for the salt bcrypt draws at random
    hash: (string, nat, nat) -> Digest,
    // bcrypt.compare(plaintext, digest)
    compare: (string, string) -> bool,
    // the keyed digest of a one-time code: hmac(code, key)
    hmac: (string, string) -> string,
    // HMAC_VERIFICATION_CODE_SECRET, used for both kinds of code
    codeSecret: string,
    // jwt.sign under TOKEN_SECRET
    sign: Jwt -> string)

  /**
   * What the workflow relies on: a digest made from a password is accepted
   * for that password, and the code digest under the server's key is
   * non-empty and tells different codes apart.
   */
  ghost predicate Sound(sec: Secrets) {
    && (forall p, rounds, salt :: sec.compare(p, sec.hash(p, rounds, salt)))
    && (forall c :: sec.hmac(c, sec.codeSecret) != [])
    && (forall a, b :: sec.hmac(a, sec.codeSecret) == sec.hmac(b, sec.codeSecret) ==> a == b)
  }

  /** `Math.random()`: a real in [0, 1). */
  type Random = r: real | 0.0 <= r < 1.0

  /** Number of distinct one-time codes. */
  const CodeSpace: nat := 1000000

  /** `Math.floor(Math.random() * 1000000)`: an integer code in [0, 999999]. */
  function IssueCode(rand: Random): (code: nat)
    ensures code < CodeSpace
    ensures code as real <= rand * 1000000.0 < code as real + 1.0
  {
    (rand * 1000000.0).Floor
  }

  /** `code.toString()`: the code as the user receives and returns it. */
  function CodeText(code: nat): string {
    NatToString(code)
  }

  /** An issued code is at most six digits long, and a code below 100000 is shorter: no zero padding. */
  lemma CodeTextLength(rand: Random)
    ensures 1 <= |CodeText(IssueCode(rand))| <= 6
    ensures IssueCode(rand) < 100000 ==> |CodeText(IssueCode(rand))| < 6
  {
    var c := IssueCode(rand);
    assert Pow10(6) == CodeSpace by {
      assert Pow10(1) == 10;
      assert Pow10(2) == 100;
      assert Pow10(3) == 1000;
      assert Pow10(4) == 10000;
      assert Pow10(5) == 100000;
    }
    NatToStringLength(c, 6);
    NatToStringLength(c, 5);
  }

  /** The `providedCode` of a request body as JSON delivers it: a number or a string. */
  datatype Presented = NumberCode(n: nat) | TextCode(s: string)

  /** `providedCode.toString()`: a number is rendered, a string is taken as it is. */
  function PresentedText(p: Presented): (t: string)
    ensures p.NumberCode? ==> t == CodeText(p.n)
    ensures p.TextCode? ==> t == p.s
  {
    match p
    case NumberCode(n) => CodeText(n)
    case TextCode(s) => s
  }

  /** A code presented as a number reads as the issued code exactly when it is that number. */
  lemma NumberCodeText(issued: nat, n: nat)
    ensures PresentedText(NumberCode(n)) == CodeText(issued) <==> n == issued
  {
    if CodeText(n) == CodeText(issued) {
      NatToStringInjective(n, issued);
    }
  }

  /** A code presented as a string with a leading zero never reads as an issued code. */
  lemma PaddedTextDiffers(issued: nat)
    ensures PresentedText(TextCode("0" + CodeText(issued))) != CodeText(issued)
  {
    assert |"0" + CodeText(issued)| == |CodeText(issued)| + 1;
  }

  /** The digest stored for a code. */
  function CodeDigest(sec: Secrets, code: string): string {
    sec.hmac(code, sec.codeSecret)
  }

  /** A presented text has the digest stored for an issued code exactly when it is that code's text. */
  lemma CodeDigestMatches(sec: Secrets, issued: nat, provided: string)
    requires Sound(sec)
    ensures CodeDigest(sec, provided) == CodeDigest(sec, CodeText(issued)) <==> provided == CodeText(issued)
  {
  }

  /** Token lifetime, `expiresIn: '8h'`, in seconds. */
  const TokenLifetime: nat := 8 * 3600

  /** `jwt.sign(claims, secret, { expiresIn: '8h' })` at `now` milliseconds, before serialisation. */
  function IssueToken(claims: Claims, now: int): (t: Jwt)
    ensures t.payload == claims
    ensures t.iat * 1000 <= now < t.iat * 1000 + 1000
    ensures t.exp == t.iat + 28800
  {
    Jwt(claims, now / 1000, now / 1000 + TokenLifetime)
  }
}
