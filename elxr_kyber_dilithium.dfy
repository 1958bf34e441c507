/** The placeholder key generation and signing routines of the kombucha
    telemetry firmware (the `kyber_dilithium` module of
    runtime/elxr-telemetry.rs). The `heapless` buffers are filled exactly to
    their capacity, so every `push(..).unwrap()` succeeds and is modelled as
    appending to a sequence. */
module ElxrKyberDilithium {
  import opened UInt

  const KEY_LEN: nat := 32
  const SIGNATURE_LEN: nat := 64

  datatype KyberKeys = KyberKeys(publicKey: seq<u8>, privateKey: seq<u8>)

  /** `keys` is what `generate_keys` produces: public byte `i` is `i` and
      private byte `i` is `i + 128`; below 32 neither cast truncates. */
  predicate IsGeneratedKeys(keys: KyberKeys)
  {
    && |keys.publicKey| == KEY_LEN
    && |keys.privateKey| == KEY_LEN
    && (forall i :: 0 <= i < KEY_LEN ==> keys.publicKey[i] == i)
    && (forall i :: 0 <= i < KEY_LEN ==> keys.privateKey[i] == i + 128)
  }

  /** `generate_keys`. */
  method GenerateKeys() returns (keys: KyberKeys)
    ensures IsGeneratedKeys(keys)
  {
    var publicKey: seq<u8> := [];
    var privateKey: seq<u8> := [];
    for i := 0 to KEY_LEN
      invariant |publicKey| == |privateKey| == i
      invariant forall j :: 0 <= j < i ==> publicKey[j] == j
      invariant forall j :: 0 <= j < i ==> privateKey[j] == j + 128
    {
      publicKey := publicKey + [i];
      privateKey := privateKey + [i + 128];
    }
    keys := KyberKeys(publicKey, privateKey);
  }

  /** Each private byte is its public byte with the top bit set. */
  lemma PrivateKeyIsPublicPlus128(keys: KyberKeys)
    requires IsGeneratedKeys(keys)
    ensures forall i :: 0 <= i < KEY_LEN ==> keys.privateKey[i] == keys.publicKey[i] + 128
  {
  }

  /** Byte `i` of the signature: the data byte xor the key byte at `i % 32`
      while the data lasts, the key byte alone after it. */
  function SignatureByte(data: seq<u8>, privateKey: seq<u8>, i: nat): u8
    requires |privateKey| == KEY_LEN
  {
    if i < |data| then Xor8(data[i], privateKey[i % KEY_LEN]) else privateKey[i % KEY_LEN]
  }

  /** `signature` is what `sign_data` produces for `data` and the key. */
  predicate IsSignature(signature: seq<u8>, data: seq<u8>, privateKey: seq<u8>)
    requires |privateKey| == KEY_LEN
  {
    && |signature| == SIGNATURE_LEN
    && forall i :: 0 <= i < SIGNATURE_LEN ==> signature[i] == SignatureByte(data, privateKey, i)
  }

  /** `sign_data`. Any `data`, the empty one included, can be signed; a
      private key shorter than 32 bytes would make the key index panic. */
  method SignData(data: seq<u8>, keys: KyberKeys) returns (signature: seq<u8>)
    requires |keys.privateKey| == KEY_LEN
    ensures IsSignature(signature, data, keys.privateKey)
  {
    signature := [];
    for i := 0 to SIGNATURE_LEN
      invariant |signature| == i
      invariant forall j :: 0 <= j < i ==> signature[j] == SignatureByte(data, keys.privateKey, j)
    {
      var sigByte;
      if i < |data| {
        sigByte := Xor8(data[i], keys.privateKey[i % KEY_LEN]);
      } else {
        sigByte := keys.privateKey[i % KEY_LEN];
      }
      signature := signature + [sigByte];
    }
  }

  /** Xor-ing a signature byte with its key byte gives the data byte back
      wherever there is one. */
  lemma SignatureRecoversData(signature: seq<u8>, data: seq<u8>, privateKey: seq<u8>)
    requires |privateKey| == KEY_LEN
    requires IsSignature(signature, data, privateKey)
    ensures forall i :: 0 <= i < SIGNATURE_LEN && i < |data| ==>
      Xor8(signature[i], privateKey[i % KEY_LEN]) == data[i]
  {
    forall i | 0 <= i < SIGNATURE_LEN && i < |data|
      ensures Xor8(signature[i], privateKey[i % KEY_LEN]) == data[i]
    {
      XorCancel(data[i], privateKey[i % KEY_LEN]);
    }
  }

  /** The signature depends only on the first 64 bytes of the data. */
  lemma SignatureUsesFirst64(signature: seq<u8>, data: seq<u8>, privateKey: seq<u8>)
    requires |data| >= SIGNATURE_LEN && |privateKey| == KEY_LEN
    ensures IsSignature(signature, data, privateKey) <==> IsSignature(signature, data[..SIGNATURE_LEN], privateKey)
  {
  }

  /** Signing nothing (or anything shorter than 64 bytes) puts the private
      key bytes themselves in the signature past the data: for empty data
      the signature is the private key twice over. */
  lemma EmptyDataSignatureIsKey(signature: seq<u8>, privateKey: seq<u8>)
    requires |privateKey| == KEY_LEN
    requires IsSignature(signature, [], privateKey)
    ensures signature == privateKey + privateKey
  {
    forall i | 0 <= i < SIGNATURE_LEN
      ensures signature[i] == (privateKey + privateKey)[i]
    {
      if i >= KEY_LEN {
        assert i % KEY_LEN == i - KEY_LEN;
      }
    }
  }
}
