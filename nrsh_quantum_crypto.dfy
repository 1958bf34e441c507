/** The placeholder key generation and signing routines of the spirulina
    telemetry firmware (the `quantum_crypto` module of
    runtime/nrsh-telemetry.rs). The `heapless` buffers are filled exactly to
    their capacity, so every `push(..).unwrap()` succeeds and is modelled as
    appending to a sequence. `wrapping_add` and `wrapping_mul` on `u8` are
    written out modulo 256. */
module NrshQuantumCrypto {
  import opened UInt

  const KEY_LEN: nat := 64
  const SIGNATURE_LEN: nat := 128

  datatype QuantumKeys = QuantumKeys(publicKey: seq<u8>, privateKey: seq<u8>)

  /** Byte `i` of the public key: `(i * 7 + 13) % 256`. */
  function PublicByte(i: nat): u8
  {
    (i * 7 + 13) % 256
  }

  /** Byte `i` of the private key: the public byte masked with 0xA5. */
  function PrivateByte(i: nat): u8
  {
    Xor8(PublicByte(i), 0xA5)
  }

  /** `keys` is what `generate_keys` produces. */
  predicate IsGeneratedKeys(keys: QuantumKeys)
  {
    && |keys.publicKey| == KEY_LEN
    && |keys.privateKey| == KEY_LEN
    && (forall i :: 0 <= i < KEY_LEN ==> keys.publicKey[i] == PublicByte(i))
    && (forall i :: 0 <= i < KEY_LEN ==> keys.privateKey[i] == PrivateByte(i))
  }

  /** `generate_keys`: 64 public and 64 private bytes, pushed in one loop. */
  method GenerateKeys() returns (keys: QuantumKeys)
    ensures IsGeneratedKeys(keys)
  {
    var publicKey: seq<u8> := [];
    var privateKey: seq<u8> := [];
    for i := 0 to KEY_LEN
      invariant |publicKey| == |privateKey| == i
      invariant forall j :: 0 <= j < i ==> publicKey[j] == PublicByte(j)
      invariant forall j :: 0 <= j < i ==> privateKey[j] == PrivateByte(j)
    {
      var val: u8 := (i * 7 + 13) % 256;
      publicKey := publicKey + [val];
      privateKey := privateKey + [Xor8(val, 0xA5)];
    }
    keys := QuantumKeys(publicKey, privateKey);
  }

  /** No two public key bytes are equal: `i * 7 + 13` takes 64 different
      values modulo 256 for `i` below 64. */
  lemma PublicKeyDistinct(keys: QuantumKeys)
    requires IsGeneratedKeys(keys)
    ensures forall i, j :: 0 <= i < j < KEY_LEN ==> keys.publicKey[i] != keys.publicKey[j]
  {
    forall i, j | 0 <= i < j < KEY_LEN
      ensures keys.publicKey[i] != keys.publicKey[j]
    {
      PublicByteInjective(i, j);
    }
  }

  lemma PublicByteInjective(i: nat, j: nat)
    requires i < j < KEY_LEN
    ensures PublicByte(i) != PublicByte(j)
  {
    // 7 * (j - i) lies strictly between 0 and 448, and 7 does not divide
    // 256, the only multiple of 256 in that range.
  }

  /** Unmasking a private byte gives the public byte back, so the private key
      holds the same 64 distinct values under the mask. */
  lemma PrivateKeyUnmasks(keys: QuantumKeys)
    requires IsGeneratedKeys(keys)
    ensures forall i :: 0 <= i < KEY_LEN ==> Xor8(keys.privateKey[i], 0xA5) == keys.publicKey[i]
  {
    forall i | 0 <= i < KEY_LEN
      ensures Xor8(keys.privateKey[i], 0xA5) == keys.publicKey[i]
    {
      XorCancel(PublicByte(i), 0xA5);
    }
  }

  /** `d.wrapping_add(k).wrapping_mul(0x1D)`. */
  function Mix(d: u8, k: u8): u8
  {
    ((d + k) % 256 * 0x1D) % 256
  }

  /** Byte `i` of the signature: the data byte at `i % |data|` mixed with the
      key byte at `i % 64`. */
  function SignatureByte(data: seq<u8>, privateKey: seq<u8>, i: nat): u8
    requires |data| > 0 && |privateKey| == KEY_LEN
  {
    Mix(data[i % |data|], privateKey[i % KEY_LEN])
  }

  /** `signature` is what `sign_data` produces for `data` and the key. */
  predicate IsSignature(signature: seq<u8>, data: seq<u8>, privateKey: seq<u8>)
    requires |data| > 0 && |privateKey| == KEY_LEN
  {
    && |signature| == SIGNATURE_LEN
    && forall i :: 0 <= i < SIGNATURE_LEN ==> signature[i] == SignatureByte(data, privateKey, i)
  }

  /** `sign_data`. An empty `data` makes `i % data.len()` panic and a
      private key shorter than 64 bytes makes the key index panic, so both
      are required. */
  method SignData(data: seq<u8>, keys: QuantumKeys) returns (signature: seq<u8>)
    requires |data| > 0 && |keys.privateKey| == KEY_LEN
    ensures IsSignature(signature, data, keys.privateKey)
  {
    signature := [];
    for i := 0 to SIGNATURE_LEN
      invariant |signature| == i
      invariant forall j :: 0 <= j < i ==> signature[j] == SignatureByte(data, keys.privateKey, j)
    {
      var idx := i % |data|;
      var keyIdx := i % KEY_LEN;
      var sigByte := Mix(data[idx], keys.privateKey[keyIdx]);
      signature := signature + [sigByte];
    }
  }

  /** Reading a data byte back from a signature byte and the key byte:
      0x35 is the inverse of 0x1D modulo 256 (0x1D * 0x35 = 6 * 256 + 1). */
  function Unsign(sigByte: u8, keyByte: u8): u8
  {
    ((sigByte * 0x35) % 256 + 256 - keyByte) % 256
  }

  lemma ModUnique(x: int, m: int, r: int)
    requires x == 256 * m + r && 0 <= r < 256
    ensures x % 256 == r
  {
  }

  /** `Unsign` undoes `Mix` for a known key byte. */
  lemma UnsignMix(d: u8, k: u8)
    ensures Unsign(Mix(d, k), k) == d
  {
    var t := (d + k) % 256;
    var s := Mix(d, k);
    var q := (t * 0x1D) / 256;
    assert t * 0x1D == 256 * q + s;
    ModUnique(s as int * 0x35, 6 * t - 0x35 * q, t);
    if d + k < 256 {
      ModUnique(t + 256 - k, 1, d);
    } else {
      ModUnique(t + 256 - k, 0, d);
    }
  }

  /** Given the private key, each signature byte determines the data byte
      it was computed from. */
  lemma SignatureRecoversData(signature: seq<u8>, data: seq<u8>, privateKey: seq<u8>)
    requires |data| > 0 && |privateKey| == KEY_LEN
    requires IsSignature(signature, data, privateKey)
    ensures forall i :: 0 <= i < SIGNATURE_LEN ==>
      Unsign(signature[i], privateKey[i % KEY_LEN]) == data[i % |data|]
  {
    forall i | 0 <= i < SIGNATURE_LEN
      ensures Unsign(signature[i], privateKey[i % KEY_LEN]) == data[i % |data|]
    {
      UnsignMix(data[i % |data|], privateKey[i % KEY_LEN]);
    }
  }

  /** Under one key, two messages of the same length, at most 128 bytes, with
      the same signature are equal. */
  lemma SignatureInjective(signature: seq<u8>, d1: seq<u8>, d2: seq<u8>, privateKey: seq<u8>)
    requires 0 < |d1| == |d2| <= SIGNATURE_LEN && |privateKey| == KEY_LEN
    requires IsSignature(signature, d1, privateKey) && IsSignature(signature, d2, privateKey)
    ensures d1 == d2
  {
    SignatureRecoversData(signature, d1, privateKey);
    SignatureRecoversData(signature, d2, privateKey);
    forall i | 0 <= i < |d1|
      ensures d1[i] == d2[i]
    {
      ModBelow(i, |d1|);
    }
  }

  lemma ModBelow(i: nat, n: nat)
    requires i < n
    ensures i % n == i
  {
  }

  /** Only the first 128 bytes of the data are signed. */
  lemma SignatureUsesFirst128(signature: seq<u8>, data: seq<u8>, privateKey: seq<u8>)
    requires |data| >= SIGNATURE_LEN && |privateKey| == KEY_LEN
    ensures IsSignature(signature, data, privateKey) <==> IsSignature(signature, data[..SIGNATURE_LEN], privateKey)
  {
    forall i | 0 <= i < SIGNATURE_LEN
      ensures SignatureByte(data, privateKey, i) == SignatureByte(data[..SIGNATURE_LEN], privateKey, i)
    {
      ModBelow(i, |data|);
      ModBelow(i, SIGNATURE_LEN);
    }
  }
}
