/** Small shared vocabulary: optional values, results and the error kinds of `src/error.rs`. */
module Prelude {
  datatype Option<+T> = None | Some(value: T) {
    predicate IsFailure() {
      None?
    }

    function PropagateFailure<U>(): Option<U>
      requires None?
    {
      None
    }

    function Extract(): T
      requires Some?
    {
      value
    }
  }

  datatype Result<+T, +E> = Ok(value: T) | Err(error: E)

  /** The error kinds the modelled operations return; messages are dropped. */
  datatype AppError = NotFound | Auth | TokenExpired | Storage | InvalidRequest

  newtype byte = b: int | 0 <= b < 256

  /** Well-formed UTF-8 (RFC 3629, section 4). */
  predicate IsUtf8(s: seq<byte>) {
    if s == [] then true
    else if s[0] < 0x80 then IsUtf8(s[1..])
    else if 0xC2 <= s[0] <= 0xDF then
      |s| >= 2 && Continuation(s[1]) && IsUtf8(s[2..])
    else if 0xE0 <= s[0] <= 0xEF then
      && |s| >= 3 && Continuation(s[1]) && Continuation(s[2])
      && (s[0] == 0xE0 ==> s[1] >= 0xA0)
      && (s[0] == 0xED ==> s[1] < 0xA0)
      && IsUtf8(s[3..])
    else
      && 0xF0 <= s[0] <= 0xF4 && |s| >= 4
      && Continuation(s[1]) && Continuation(s[2]) && Continuation(s[3])
      && (s[0] == 0xF0 ==> s[1] >= 0x90)
      && (s[0] == 0xF4 ==> s[1] < 0x90)
      && IsUtf8(s[4..])
  }

  predicate Continuation(b: byte) {
    0x80 <= b < 0xC0
  }

  /** The bytes of a Rust `String`: access tokens, refresh tokens and PKCE verifiers. */
  type Secret = s: seq<byte> | IsUtf8(s) witness []

  /** Secrets of every length exist, so a finite set never holds them all. */
  lemma {:induction false} UnusedSecret(used: set<Secret>) returns (secret: Secret)
    ensures secret !in used && secret != []
    ensures forall x | x in used :: |x| < |secret|
  {
    if used == {} {
      secret := [0];
    } else {
      var x :| x in used;
      secret := UnusedSecret(used - {x});
      AsciiIsUtf8(|secret| + |x|);
      secret := seq(|secret| + |x|, i => 0);
      assert forall y | y in used :: y == x || y in used - {x};
    }
  }

  lemma {:induction false} AsciiIsUtf8(n: nat)
    ensures IsUtf8(seq(n, i => 0 as byte))
  {
    if n > 0 {
      AsciiIsUtf8(n - 1);
      assert seq(n, i => 0 as byte)[1..] == seq(n - 1, i => 0 as byte);
    }
  }
}
