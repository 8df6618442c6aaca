/**
 * Framing of encrypted values (`src/storage/crypto.rs`): a 12-byte nonce, then the sealed
 * text. The cipher itself is a parameter of which only inversion under one key is assumed.
 */
module Crypto {
  import opened Prelude

  const NONCE_LEN := 12
  const TAG_LEN := 16

  /** An authenticated cipher: `seal(key, nonce, plaintext)` and `open(key, nonce, sealed)`. */
  datatype Aead = Aead(seal: (seq<byte>, seq<byte>, seq<byte>) -> seq<byte>,
                       open: (seq<byte>, seq<byte>, seq<byte>) -> Option<seq<byte>>) {
    ghost predicate Sound() {
      forall key, nonce, plain {:trigger seal(key, nonce, plain)} ::
        |seal(key, nonce, plain)| == |plain| + TAG_LEN && open(key, nonce, seal(key, nonce, plain)) == Some(plain)
    }
  }

  /** What `encrypt` produces when it draws this nonce. */
  function Frame(aead: Aead, key: seq<byte>, nonce: seq<byte>, plain: seq<byte>): seq<byte> {
    nonce + aead.seal(key, nonce, plain)
  }

  method Encrypt(aead: Aead, key: seq<byte>, plain: seq<byte>) returns (out: seq<byte>)
    requires aead.Sound()
    ensures exists nonce :: |nonce| == NONCE_LEN && out == Frame(aead, key, nonce, plain)
    ensures |out| == 12 + |plain| + TAG_LEN && out[12..] == aead.seal(key, out[..12], plain)
    ensures Decrypt(aead, key, out) == Ok(plain)
  {
    var nonce := new byte[NONCE_LEN];
    for i := 0 to NONCE_LEN {
      var random: byte := *;
      nonce[i] := random;
    }
    var sealed := aead.seal(key, nonce[..], plain);
    out := [];
    out := out + nonce[..];
    out := out + sealed;
    assert out == Frame(aead, key, nonce[..], plain);
    DecryptUndoesFrame(aead, key, nonce[..], plain);
  }

  function Decrypt(aead: Aead, key: seq<byte>, data: seq<byte>): Result<seq<byte>, AppError> {
    if |data| <= NONCE_LEN then Err(Storage)
    else
      match aead.open(key, data[..NONCE_LEN], data[NONCE_LEN..])
      case Some(plain) => Ok(plain)
      case None => Err(Storage)
  }

  /** Whatever the nonce, and for the empty text too. */
  lemma DecryptUndoesFrame(aead: Aead, key: seq<byte>, nonce: seq<byte>, plain: seq<byte>)
    requires aead.Sound() && |nonce| == NONCE_LEN
    ensures Decrypt(aead, key, Frame(aead, key, nonce, plain)) == Ok(plain)
  {
    var data := Frame(aead, key, nonce, plain);
    assert data[..NONCE_LEN] == nonce && data[NONCE_LEN..] == aead.seal(key, nonce, plain);
  }

  /** Twelve bytes or fewer hold no text; of any more the first twelve are the nonce. */
  lemma DecryptOpensTheRest(aead: Aead, key: seq<byte>, data: seq<byte>)
    ensures |data| <= 12 ==> Decrypt(aead, key, data) == Err(Storage)
    ensures |data| > 12 ==>
              var plain := aead.open(key, data[..12], data[12..]);
              Decrypt(aead, key, data) == if plain.Some? then Ok(plain.value) else Err(Storage)
  {
  }
}
