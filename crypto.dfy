// The key-material guards of crates/core/src/crypto.rs. The HKDF-SHA256
// expansion, the AES-256-GCM cipher and the BLAKE3 hash come from other
// crates; here they are parameters that the model never looks inside.

module Crypto {
  import opened Wrappers
  import opened Errors
  import Security

  /** The ASCII bytes of the HKDF info label "librepods-v1.0.0". */
  const Label: seq<byte> :=
    [0x6C, 0x69, 0x62, 0x72, 0x65, 0x70, 0x6F, 0x64, 0x73, 0x2D, 0x76, 0x31, 0x2E, 0x30, 0x2E, 0x30]

  const LabelText: string := "librepods-v1.0.0"

  lemma LabelIsAscii()
    ensures |Label| == |LabelText|
    ensures forall i | 0 <= i < |Label| :: Label[i] == LabelText[i] as int
  {
  }

  /** The HKDF primitive: whether expanding to `len` bytes fails, and byte i
      of the output keying material, for a salt, input key and info label. */
  datatype Kdf = Kdf(
    fails: (seq<byte>, seq<byte>, seq<byte>, nat) -> bool,
    okmByte: (seq<byte>, seq<byte>, seq<byte>, nat) -> byte)

  /** Fills a 32-byte buffer with the HKDF output for (salt, password,
      Label); an expansion failure becomes `CryptoError`. */
  method DeriveKey(kdf: Kdf, password: seq<byte>, salt: seq<byte>) returns (r: Result<seq<byte>>)
    ensures r.Err? <==> kdf.fails(salt, password, Label, 32)
    ensures r.Err? ==> r.error == CryptoError
    ensures r.Ok? ==> |r.value| == 32
    ensures r.Ok? ==> forall i | 0 <= i < 32 :: r.value[i] == kdf.okmByte(salt, password, Label, i)
  {
    var okm := new byte[32](i => 0);
    if kdf.fails(salt, password, Label, 32) {
      return Err(CryptoError);
    }
    var i := 0;
    while i < 32
      invariant 0 <= i <= 32
      invariant forall k | 0 <= k < i :: okm[k] == kdf.okmByte(salt, password, Label, k)
    {
      okm[i] := kdf.okmByte(salt, password, Label, i);
      i := i + 1;
    }
    r := Ok(okm[..]);
  }

  /** The same password and salt always give the same key. */
  method DeriveKeyDeterministic(kdf: Kdf, password: seq<byte>, salt: seq<byte>) returns (a: Result<seq<byte>>, b: Result<seq<byte>>)
    ensures a == b
  {
    a := DeriveKey(kdf, password, salt);
    b := DeriveKey(kdf, password, salt);
    if a.Ok? {
      assert a.value == b.value;
    }
  }

  /** An AEAD primitive: the cipher's output for (key, nonce, input), or
      None when the cipher reports an error. */
  type Aead = (seq<byte>, seq<byte>, seq<byte>) -> Option<seq<byte>>

  /** Both length guards: a 32-byte key and a 12-byte nonce. */
  predicate KeyAndNonceOk(key: seq<byte>, nonce: seq<byte>)
  {
    |key| == 32 && |nonce| == 12
  }

  function Guarded(cipher: Aead, key: seq<byte>, input: seq<byte>, nonce: seq<byte>): (r: Result<seq<byte>>)
    ensures !KeyAndNonceOk(key, nonce) ==> r == Err(CryptoError)
    ensures r.Ok? ==> cipher(key, nonce, input) == Some(r.value)
    ensures r.Err? ==> r.error == CryptoError
  {
    if |key| != 32 then Err(CryptoError)
    else if |nonce| != 12 then Err(CryptoError)
    else match cipher(key, nonce, input) {
      case Some(out) => Ok(out)
      case None => Err(CryptoError)
    }
  }

  /** `Crypto::encrypt`: the key guard, then the nonce guard, then the cipher. */
  function Encrypt(seal: Aead, key: seq<byte>, plaintext: seq<byte>, nonce: seq<byte>): (r: Result<seq<byte>>)
    ensures |key| != 32 ==> r == Err(CryptoError)
    ensures |nonce| != 12 ==> r == Err(CryptoError)
    ensures r.Ok? ==> KeyAndNonceOk(key, nonce) && seal(key, nonce, plaintext) == Some(r.value)
    ensures KeyAndNonceOk(key, nonce) && seal(key, nonce, plaintext).Some? ==> r.Ok?
  {
    Guarded(seal, key, plaintext, nonce)
  }

  /** `Crypto::decrypt`: the same guards in the same order, then the cipher. */
  function Decrypt(open: Aead, key: seq<byte>, ciphertext: seq<byte>, nonce: seq<byte>): (r: Result<seq<byte>>)
    ensures |key| != 32 ==> r == Err(CryptoError)
    ensures |nonce| != 12 ==> r == Err(CryptoError)
    ensures r.Ok? ==> KeyAndNonceOk(key, nonce) && open(key, nonce, ciphertext) == Some(r.value)
    ensures KeyAndNonceOk(key, nonce) && open(key, nonce, ciphertext).Some? ==> r.Ok?
  {
    Guarded(open, key, ciphertext, nonce)
  }

  /** A rejected key or nonce is refused before the cipher is used: any two
      ciphers give the same answer. */
  lemma GuardsPrecedeCipher(c1: Aead, c2: Aead, key: seq<byte>, input: seq<byte>, nonce: seq<byte>)
    requires !KeyAndNonceOk(key, nonce)
    ensures Encrypt(c1, key, input, nonce) == Encrypt(c2, key, input, nonce) == Err(CryptoError)
    ensures Decrypt(c1, key, input, nonce) == Decrypt(c2, key, input, nonce) == Err(CryptoError)
  {
  }

  /** A BLAKE3 digest is 32 bytes. */
  type Digest = s: seq<byte> | |s| == 32 witness seq(32, i => 0)

  /** Hashes the data and compares the digest with `h` in constant time. */
  method VerifyHash(hash: seq<byte> -> Digest, data: seq<byte>, h: seq<byte>) returns (ok: bool)
    ensures ok <==> h == hash(data)
    ensures ok ==> |h| == 32
  {
    var calculated := hash(data);
    ok := ConstantTimeEq(calculated, h);
  }

  /** The private copy of the comparison in this file has the same body as
      the one in security.rs; it is that method. */
  method ConstantTimeEq(a: seq<byte>, b: seq<byte>) returns (eq: bool)
    ensures eq <==> a == b
  {
    eq := Security.ConstantTimeEq(a, b);
  }

  /** `SecureKey` has the same layout and zeroizing drop as `SecureBuffer`. */
  type SecureKey = Security.SecureBuffer

  /** A key built from some bytes returns them, and after the drop it holds
      nothing and its allocation is all zeros. */
  method SecureKeyScenario(data: seq<byte>) returns (before: seq<byte>, after: seq<byte>)
    ensures before == data
    ensures after == []
  {
    var key: SecureKey := new Security.SecureBuffer(data);
    before := key.AsSlice();
    key.Drop();
    after := key.AsSlice();
  }
}
