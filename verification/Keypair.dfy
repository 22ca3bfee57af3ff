// ElGamal key pairs over the fixed 254-bit modulus (crypto/src/keypair.rs).
// The 32 random bytes drawn for each encryption are a parameter.
module Keypair {
  import opened Wrappers
  import opened LittleEndian
  import opened Modular
  import Base64

  datatype CryptoError =
    | PrimeSetup
    | InvalidPrivateKey
    | InvalidCiphertext
    | Base64Decoding
    | RandomGenerationError
    | DecodeDecryptedMessage

  datatype PublicKey = PublicKey(prime: nat, generator: nat, publicExponent: nat)

  datatype PrivateKey = PrivateKey(privateKey: nat, publicKey: PublicKey)

  datatype Ciphertext = Ciphertext(c1: nat, c2: nat)

  const PRIME: nat :=
    21888242871839275222246405745257275088696311157297823662689037894645226208583

  /** `PrivateKey::from` */
  function FromExponent(x: nat): (k: PrivateKey)
  {
    var exponent := x % PRIME;
    PrivateKey(exponent, PublicKey(PRIME, 2, ModPow(2, exponent, PRIME)))
  }

  /** The keys that the constructors build. */
  predicate WellFormed(k: PrivateKey) {
    k == FromExponent(k.privateKey)
  }

  /** `PrivateKey::get_encoded_private_key` */
  function EncodedPrivateKey(k: PrivateKey): string {
    Base64.Encode(ToBytesLe(k.privateKey))
  }

  /** `PublicKey::get_encoded_public_key` */
  function EncodedPublicKey(pk: PublicKey): string {
    Base64.Encode(ToBytesLe(pk.publicExponent))
  }

  /** `PrivateKey::try_from` */
  function TryFrom(value: string): (r: Result<PrivateKey, CryptoError>)
    ensures r.Ok? ==> WellFormed(r.value)
  {
    match Base64.Decode(value)
    case Some(decoded) =>
      var x := FromBytesLe(decoded);
      assert x % PRIME % PRIME == x % PRIME;
      Ok(FromExponent(x))
    case None => Err(Base64Decoding)
  }

  /** `PublicKey::encrypt`, where `random` is the number read from the random bytes. */
  function Encrypt(pk: PublicKey, message: nat, random: nat): (r: Result<Ciphertext, CryptoError>)
    requires pk.prime > 1
    ensures r.Ok? <==> message < pk.prime
    ensures r.Ok? ==> r.value.c1 < pk.prime && r.value.c2 < pk.prime
    ensures r.Err? ==> r.error == InvalidCiphertext
  {
    if message >= pk.prime then Err(InvalidCiphertext)
    else
      var y := random % (pk.prime - 1);
      var c1 := ModPow(pk.generator, y, pk.prime);
      var s := ModPow(pk.publicExponent, y, pk.prime);
      Ok(Ciphertext(c1, message * s % pk.prime))
  }

  /** The shared secret that both sides derive from a first component. */
  function SharedSecret(k: PrivateKey, c1: nat): (s: nat)
    requires k.publicKey.prime > 1
  {
    ModPow(c1, k.privateKey, k.publicKey.prime)
  }

  /** `PrivateKey::decrypt` */
  function Decrypt(k: PrivateKey, c: Ciphertext): (r: Result<nat, CryptoError>)
    requires k.publicKey.prime > 1
  {
    match ModInv(SharedSecret(k, c.c1), k.publicKey.prime)
    case None => Err(InvalidCiphertext)
    case Some(inverse) => Ok(c.c2 * inverse % k.publicKey.prime)
  }

  /** `m` is a message that `c` can stand for under `k`: m * c1^x = c2 modulo p. */
  ghost predicate Solves(k: PrivateKey, c: Ciphertext, m: nat)
    requires k.publicKey.prime > 1
  {
    && m < k.publicKey.prime
    && m * SharedSecret(k, c.c1) % k.publicKey.prime == c.c2 % k.publicKey.prime
  }

  /** Decryption returns the one solution exactly when c1^x is invertible modulo p. */
  lemma DecryptSolves(k: PrivateKey, c: Ciphertext)
    requires k.publicKey.prime > 1
    ensures Decrypt(k, c).Ok? <==> Invertible(SharedSecret(k, c.c1), k.publicKey.prime)
    ensures Decrypt(k, c).Ok? ==>
              && Solves(k, c, Decrypt(k, c).value)
              && forall m: nat :: Solves(k, c, m) ==> m == Decrypt(k, c).value
    ensures Decrypt(k, c).Err? ==> Decrypt(k, c).error == InvalidCiphertext
  {
    var p, s := k.publicKey.prime, SharedSecret(k, c.c1);
    var inverse := ModInv(s, p);
    if inverse.Some? {
      CancelInverse(c.c2, s, inverse.value, p);
      forall m: nat | Solves(k, c, m)
        ensures m == Decrypt(k, c).value
      {
        SolutionUnique(m, Decrypt(k, c).value, s, inverse.value, p);
      }
    }
  }

  /** A key over some odd modulus: all that the cipher needs of it is that 2 is invertible. */
  predicate Generated(k: PrivateKey) {
    var pk := k.publicKey;
    pk.prime > 1 && pk.prime % 2 == 1 && pk.generator == 2 &&
    pk.publicExponent == ModPow(2, k.privateKey, pk.prime)
  }

  /** Such a key can also encrypt any 32-bit chunk. */
  predicate Usable(k: PrivateKey) {
    Generated(k) && U32_LIMIT <= k.publicKey.prime <= Power256(32)
  }

  /** The keys of the library are of this kind. */
  lemma WellFormedUsable(k: PrivateKey)
    requires WellFormed(k)
    ensures Usable(k) && k.publicKey.prime == PRIME
  {
    PrimeBounds();
  }

  /** What the holder computes from c1 = 2^y is 2^(x*y). */
  lemma SecretIsPower(k: PrivateKey, y: nat)
    requires k.publicKey.prime > 1
    ensures var p := k.publicKey.prime;
            SharedSecret(k, ModPow(2, y, p)) == Pow(2, k.privateKey * y) % p
  {
    PowMod(Pow(2, y), k.privateKey, k.publicKey.prime);
    PowMul(2, y, k.privateKey);
    assert y * k.privateKey == k.privateKey * y;
  }

  /** Both parties compute the same: the sender from the public key, the holder from c1. */
  lemma SharedSecretAgrees(k: PrivateKey, y: nat)
    requires Generated(k)
    ensures var p := k.publicKey.prime;
            SharedSecret(k, ModPow(2, y, p)) == ModPow(k.publicKey.publicExponent, y, p)
  {
    SecretIsPower(k, y);
    PowMod(Pow(2, k.privateKey), y, k.publicKey.prime);
    PowMul(2, k.privateKey, y);
  }

  /**
   * The ciphertext of m in terms of the private exponent x and the random exponent y, which is
   * the random number modulo p - 1: the components are 2^y and m * 2^(x*y) modulo p.
   */
  function Textbook(k: PrivateKey, message: nat, random: nat): Ciphertext
    requires k.publicKey.prime > 1
  {
    var p := k.publicKey.prime;
    var y := random % (p - 1);
    Ciphertext(Pow(2, y) % p, message * Pow(2, k.privateKey * y) % p)
  }

  lemma CiphertextExact(k: PrivateKey, message: nat, random: nat)
    requires Generated(k) && message < k.publicKey.prime
    ensures Encrypt(k.publicKey, message, random) == Ok(Textbook(k, message, random))
    ensures var p := k.publicKey.prime;
            var y := random % (p - 1);
            Encrypt(k.publicKey, message, random).value ==
              Ciphertext(Pow(2, y) % p, message * Pow(2, k.privateKey * y) % p)
  {
    var p := k.publicKey.prime;
    var y := random % (p - 1);
    var secret := Pow(2, k.privateKey * y);
    SharedSecretAgrees(k, y);
    SecretIsPower(k, y);
    MaskReduced(message, secret, p);
  }

  lemma MaskReduced(m: nat, secret: nat, p: nat)
    requires p > 0
    ensures m * (secret % p) % p == m * secret % p
  {
    MulMod(secret, m, p);
    assert secret * m == m * secret && (secret % p) * m == m * (secret % p);
  }

  /**
   * Decryption undoes encryption for every message below the modulus, every key and
   * every random draw; and the decrypting key need only share the public key.
   */
  lemma DecryptEncrypt(sender: PrivateKey, reader: PrivateKey, message: nat, random: nat)
    requires Generated(sender) && Generated(reader)
    requires sender.publicKey == reader.publicKey
    requires message < sender.publicKey.prime
    ensures Encrypt(sender.publicKey, message, random).Ok?
    ensures Decrypt(reader, Encrypt(sender.publicKey, message, random).value) == Ok(message)
  {
    var y := random % (sender.publicKey.prime - 1);
    MaskedWithSecret(sender, reader, message, random);
    SecretInvertible(reader, y);
    DecryptMasked(reader, Encrypt(sender.publicKey, message, random).value, message);
  }

  /** The second component masks the message with the reader's secret. */
  lemma MaskedWithSecret(sender: PrivateKey, reader: PrivateKey, message: nat, random: nat)
    requires Generated(sender) && Generated(reader)
    requires sender.publicKey == reader.publicKey
    requires message < sender.publicKey.prime
    ensures var c := Encrypt(sender.publicKey, message, random).value;
            c.c2 == message * SharedSecret(reader, c.c1) % sender.publicKey.prime
  {
    SharedSecretAgrees(reader, random % (sender.publicKey.prime - 1));
  }

  /** The secret is a power of 2, hence invertible. */
  lemma SecretInvertible(k: PrivateKey, y: nat)
    requires Generated(k)
    ensures Invertible(SharedSecret(k, ModPow(2, y, k.publicKey.prime)), k.publicKey.prime)
  {
    SecretIsPower(k, y);
    PowerOfTwoInvertible(k.privateKey * y, k.publicKey.prime);
  }

  /** A second component that masks `m` with the shared secret decrypts to `m`. */
  lemma DecryptMasked(k: PrivateKey, c: Ciphertext, m: nat)
    requires k.publicKey.prime > 1 && m < k.publicKey.prime
    requires c.c2 == m * SharedSecret(k, c.c1) % k.publicKey.prime
    requires Invertible(SharedSecret(k, c.c1), k.publicKey.prime)
    ensures Decrypt(k, c) == Ok(m)
  {
    SmallMod(c.c2, k.publicKey.prime);
    DecryptSolves(k, c);
    assert Solves(k, c, m);
  }

  /** Equal encoded public keys mean equal public keys. */
  lemma EncodedKeyIdentifies(a: PrivateKey, b: PrivateKey)
    requires WellFormed(a) && WellFormed(b)
    ensures EncodedPublicKey(a.publicKey) == EncodedPublicKey(b.publicKey) <==> a.publicKey == b.publicKey
  {
    if EncodedPublicKey(a.publicKey) == EncodedPublicKey(b.publicKey) {
      Base64.EncodeInjective(ToBytesLe(a.publicKey.publicExponent), ToBytesLe(b.publicKey.publicExponent));
    }
  }

  /** Exporting a key and importing the text gives the key back. */
  lemma ImportExport(k: PrivateKey)
    requires WellFormed(k)
    ensures TryFrom(EncodedPrivateKey(k)) == Ok(k)
  {
    Base64.DecodeEncode(ToBytesLe(k.privateKey));
  }

  /**
   * An import succeeds exactly on base64 texts. The number that the text holds, reduced
   * modulo the prime, is the private exponent, and 2 to that power is the public one.
   */
  lemma ImportAccepts(value: string)
    ensures TryFrom(value).Ok? <==> exists bs: Bytes :: value == Base64.Encode(bs)
    ensures forall bs: Bytes :: value == Base64.Encode(bs) ==>
              var x := FromBytesLe(bs) % PRIME;
              TryFrom(value) == Ok(PrivateKey(x, PublicKey(PRIME, 2, Pow(2, x) % PRIME)))
    ensures TryFrom(value).Err? ==> TryFrom(value).error == Base64Decoding
  {
    if TryFrom(value).Ok? {
      Base64.EncodeDecode(value);
    }
    forall bs: Bytes | value == Base64.Encode(bs)
      ensures var x := FromBytesLe(bs) % PRIME;
              TryFrom(value) == Ok(PrivateKey(x, PublicKey(PRIME, 2, Pow(2, x) % PRIME)))
    {
      Base64.DecodeEncode(bs);
    }
  }

  /** Two texts import as one key exactly when the numbers they hold agree modulo the prime. */
  lemma SameKeyImported(a: Bytes, b: Bytes)
    ensures TryFrom(Base64.Encode(a)) == TryFrom(Base64.Encode(b)) <==>
            FromBytesLe(a) % PRIME == FromBytesLe(b) % PRIME
  {
    ImportAccepts(Base64.Encode(a));
    ImportAccepts(Base64.Encode(b));
  }

  /** Exported keys are base64 texts of the bytes of x modulo the prime, and of 2^x modulo the prime. */
  lemma ExportedKeys(x: nat)
    ensures var (k, e) := (FromExponent(x), x % PRIME);
            && Base64.Decode(EncodedPrivateKey(k)) == Some(ToBytesLe(e))
            && Base64.Decode(EncodedPublicKey(k.publicKey)) == Some(ToBytesLe(Pow(2, e) % PRIME))
  {
    var k := FromExponent(x);
    Base64.DecodeEncode(ToBytesLe(k.privateKey));
    Base64.DecodeEncode(ToBytesLe(k.publicKey.publicExponent));
  }

  /** Every chunk fits below the modulus, and every residue fits 32 bytes. */
  lemma PrimeBounds()
    ensures U32_LIMIT < PRIME < Power256(32)
    ensures PRIME % 2 == 1
  {
    assert Power256(8) == 0x1_0000_0000_0000_0000;
    Power256Add(8, 8);
    assert Power256(16) == 0x1_0000_0000_0000_0000_0000_0000_0000_0000;
    Power256Add(16, 16);
  }

  lemma {:induction false} Power256Add(a: nat, b: nat)
    ensures Power256(a + b) == Power256(a) * Power256(b)
  {
    if a > 0 {
      Power256Add(a - 1, b);
      Associate(256, Power256(a - 1), Power256(b));
    }
  }
}
