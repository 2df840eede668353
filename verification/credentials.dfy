/** Public key blobs of security keys (OpenSSH PROTOCOL.u2f) and of Secure Enclave keys. */
module Credentials {
  import opened Common
  import opened State
  import opened Wire

  /** The bytes of "sk-ssh-ed25519@openssh.com". */
  const ED25519_SK: Bytes :=
    [115, 107, 45, 115, 115, 104, 45, 101, 100, 50, 53, 53, 49, 57, 64, 111, 112, 101, 110, 115, 115, 104,
     46, 99, 111, 109]

  /** The bytes of "sk-ecdsa-sha2-nistp256@openssh.com". */
  const ECDSA_SK: Bytes :=
    [115, 107, 45, 101, 99, 100, 115, 97, 45, 115, 104, 97, 50, 45, 110, 105, 115, 116, 112, 50, 53, 54,
     64, 111, 112, 101, 110, 115, 115, 104, 46, 99, 111, 109]

  /** The bytes of "ecdsa-sha2-nistp256". */
  const ECDSA_P256: Bytes :=
    [101, 99, 100, 115, 97, 45, 115, 104, 97, 50, 45, 110, 105, 115, 116, 112, 50, 53, 54]

  /** The bytes of "nistp256". */
  const NISTP256: Bytes := [110, 105, 115, 116, 112, 50, 53, 54]

  /** An uncompressed point: 65 bytes with a leading 4, or the 64 bytes of its coordinates. */
  function EcdsaPoint(value: Bytes): (r: Option<Bytes>)
    ensures r.Some? ==> |r.value| == 65 && r.value[0] == 4
  {
    if |value| == 65 && value[0] == 4 then Some(value)
    else if |value| == 64 then Some([4] + value)
    else None
  }

  /** The parts of a blob behind the algorithm name and in front of the application. */
  function KeyPart(algorithm: Bytes, publicKey: Bytes): Option<Bytes> {
    if algorithm == ED25519_SK then Some(Str(publicKey))
    else if algorithm == ECDSA_SK then
      (match EcdsaPoint(publicKey) case None => None case Some(point) => Some(Str(NISTP256) + Str(point)))
    else None
  }

  function PublicBlob(algorithm: Bytes, publicKey: Bytes, application: Bytes): Option<Bytes> {
    var part := KeyPart(algorithm, publicKey);
    if part.None? then None else Some(Str(algorithm) + (part.value + Str(application)))
  }

  method MakePoint(value: Bytes) returns (point: Option<Bytes>)
    ensures point == EcdsaPoint(value)
  {
    if |value| == 65 && value[0] == 4 { return Some(value); }
    if |value| != 64 { return None; }
    var result: Bytes := [4];
    result := result + value;
    return Some(result);
  }

  /** `public_blob`. */
  method MakeBlob(algorithm: Bytes, publicKey: Bytes, application: Bytes) returns (r: Option<Bytes>)
    ensures r == PublicBlob(algorithm, publicKey, application)
  {
    hide Str, ED25519_SK, ECDSA_SK, EcdsaPoint, NISTP256;
    var blob := Str(algorithm);
    if algorithm == ED25519_SK {
      blob := blob + Str(publicKey);
    } else if algorithm == ECDSA_SK {
      blob := blob + Str(NISTP256);
      var point := MakePoint(publicKey);
      if point.None? { return None; }
      blob := blob + Str(point.value);
    } else {
      return None;
    }
    blob := blob + Str(application);
    assert blob == Str(algorithm) + (KeyPart(algorithm, publicKey).value + Str(application));
    return Some(blob);
  }

  // ----- reading a blob

  datatype Fields = Fields(algorithm: Bytes, curve: Option<Bytes>, key: Bytes, application: Bytes)

  /** Key and application, and nothing behind them. */
  function ParseTail(data: Bytes, at: nat, algorithm: Bytes, curve: Option<Bytes>): Option<Fields> {
    var key := ReadStr(data, at);
    if key.None? then None
    else
      var application := ReadStr(data, at + 4 + |key.value|);
      if application.None? || at + 8 + |key.value| + |application.value| != |data| then None
      else Some(Fields(algorithm, curve, key.value, application.value))
  }

  function ParseBlob(data: Bytes): Option<Fields> {
    var algorithm := ReadStr(data, 0);
    if algorithm.None? then None
    else
      var at1 := 4 + |algorithm.value|;
      if algorithm.value == ED25519_SK then ParseTail(data, at1, ED25519_SK, None)
      else if algorithm.value == ECDSA_SK then
        var curve := ReadStr(data, at1);
        if curve.None? then None else ParseTail(data, at1 + 4 + |curve.value|, ECDSA_SK, curve)
      else None
  }

  predicate Short(publicKey: Bytes, application: Bytes) {
    |publicKey| < U32_LIMIT && |application| < U32_LIMIT
  }

  /** What a reader gets back: the key as given for Ed25519, the full point and its curve for ECDSA. */
  function FieldsOf(algorithm: Bytes, publicKey: Bytes, application: Bytes): Option<Fields> {
    if algorithm == ED25519_SK then Some(Fields(algorithm, None, publicKey, application))
    else if algorithm == ECDSA_SK && EcdsaPoint(publicKey).Some? then
      Some(Fields(algorithm, Some(NISTP256), EcdsaPoint(publicKey).value, application))
    else None
  }

  lemma TailReadBack(data: Bytes, at: nat, algorithm: Bytes, curve: Option<Bytes>, key: Bytes, application: Bytes)
    requires Short(key, application) && at <= |data| && data[at..] == Str(key) + Str(application)
    ensures ParseTail(data, at, algorithm, curve) == Some(Fields(algorithm, curve, key, application))
  {
    hide Str, ReadStr;
    StrAt(data, at, key, Str(application));
    assert Str(application) + [] == Str(application);
    StrAt(data, at + 4 + |key|, application, []);
  }

  lemma NamesShort()
    ensures |ED25519_SK| < U32_LIMIT && |ECDSA_SK| < U32_LIMIT && |NISTP256| < U32_LIMIT
    ensures ED25519_SK != ECDSA_SK
  {
    assert |ED25519_SK| != |ECDSA_SK|;
  }

  /** A blob exists exactly when its fields do, and reading it gives back all of them. */
  lemma BlobReadBack(algorithm: Bytes, publicKey: Bytes, application: Bytes)
    requires Short(publicKey, application)
    ensures var blob := PublicBlob(algorithm, publicKey, application);
            && blob.Some? == FieldsOf(algorithm, publicKey, application).Some?
            && (blob.Some? ==> ParseBlob(blob.value) == FieldsOf(algorithm, publicKey, application))
  {
    NamesShort();
    hide Str, ReadStr, ED25519_SK, ECDSA_SK, EcdsaPoint, NISTP256, ParseTail;
    var blob := PublicBlob(algorithm, publicKey, application);
    if blob.Some? {
      var data := blob.value;
      var part := KeyPart(algorithm, publicKey).value;
      assert data[0..] == data;
      StrAt(data, 0, algorithm, part + Str(application));
      var at1 := 4 + |algorithm|;
      if algorithm == ED25519_SK {
        TailReadBack(data, at1, algorithm, None, publicKey, application);
      } else {
        var point := EcdsaPoint(publicKey).value;
        PointShort(publicKey);
        assert data[at1..] == Str(NISTP256) + (Str(point) + Str(application));
        StrAt(data, at1, NISTP256, Str(point) + Str(application));
        TailReadBack(data, at1 + 4 + |NISTP256|, algorithm, Some(NISTP256), point, application);
      }
    }
  }

  lemma PointShort(value: Bytes)
    requires EcdsaPoint(value).Some?
    ensures |EcdsaPoint(value).value| < U32_LIMIT
  {
  }

  /** The two forms of one point. */
  predicate SamePoint(a: Bytes, b: Bytes) {
    a == b || a == [4] + b || b == [4] + a
  }

  lemma PointsAgree(a: Bytes, b: Bytes)
    requires EcdsaPoint(a).Some? && EcdsaPoint(b).Some?
    ensures EcdsaPoint(a) == EcdsaPoint(b) <==> SamePoint(a, b)
  {
    if EcdsaPoint(a) == EcdsaPoint(b) && |a| == |b| == 64 {
      assert a == ([4] + a)[1..] == b;
    }
  }

  /** Two keys share a blob exactly when they differ in nothing but the form of one ECDSA point. */
  lemma SameBlobExactly(a1: Bytes, key1: Bytes, app1: Bytes, a2: Bytes, key2: Bytes, app2: Bytes)
    requires Short(key1, app1) && PublicBlob(a1, key1, app1).Some?
    requires Short(key2, app2) && PublicBlob(a2, key2, app2).Some?
    ensures PublicBlob(a1, key1, app1) == PublicBlob(a2, key2, app2)
       <==> a1 == a2 && app1 == app2 && (key1 == key2 || (a1 == ECDSA_SK && SamePoint(key1, key2)))
  {
    BlobReadBack(a1, key1, app1);
    BlobReadBack(a2, key2, app2);
    NamesShort();
    hide Str, ED25519_SK, ECDSA_SK, EcdsaPoint, NISTP256, ParseBlob, SamePoint;
    if a1 == ECDSA_SK && a2 == ECDSA_SK { PointsAgree(key1, key2); }
  }

  // ----- Secure Enclave keys

  /** `ecdsa_public_blob` of src-tauri/src/ssh.rs. */
  function EnclaveBlob(point: Bytes): Option<Bytes> {
    if |point| != 65 || point[0] != 4 then None
    else Some(Str(ECDSA_P256) + (Str(NISTP256) + Str(point)))
  }

  method MakeEnclaveBlob(point: Bytes) returns (r: Option<Bytes>)
    ensures r == EnclaveBlob(point)
  {
    hide Str, ECDSA_P256, NISTP256;
    if |point| != 65 || point[0] != 4 { return None; }
    var blob := Str(ECDSA_P256);
    blob := blob + Str(NISTP256);
    blob := blob + Str(point);
    assert blob == Str(ECDSA_P256) + (Str(NISTP256) + Str(point));
    return Some(blob);
  }

  /** A reader recovers algorithm, curve and point of a Secure Enclave key, and nothing is left. */
  lemma EnclaveReadBack(point: Bytes)
    ensures EnclaveBlob(point).Some? <==> |point| == 65 && point[0] == 4
    ensures EnclaveBlob(point).Some? ==>
              var blob := EnclaveBlob(point).value;
              var at1 := 4 + |ECDSA_P256|;
              var at2 := at1 + 4 + |NISTP256|;
              && ReadStr(blob, 0) == Some(ECDSA_P256)
              && ReadStr(blob, at1) == Some(NISTP256)
              && ReadStr(blob, at2) == Some(point)
              && at2 + 4 + |point| == |blob|
  {
    if EnclaveBlob(point).Some? {
      assert |ECDSA_P256| < U32_LIMIT && |NISTP256| < U32_LIMIT;
      hide Str, ReadStr, ECDSA_P256, NISTP256;
      var blob := EnclaveBlob(point).value;
      assert blob[0..] == blob;
      StrAt(blob, 0, ECDSA_P256, Str(NISTP256) + Str(point));
      StrAt(blob, 4 + |ECDSA_P256|, NISTP256, Str(point));
      assert Str(point) + [] == Str(point);
      StrAt(blob, 4 + |ECDSA_P256| + 4 + |NISTP256|, point, []);
    }
  }

  /** No Secure Enclave key has the blob of a security key: the agent never confuses the two. */
  lemma BlobsDisjoint(point: Bytes, algorithm: Bytes, publicKey: Bytes, application: Bytes)
    requires EnclaveBlob(point).Some? && PublicBlob(algorithm, publicKey, application).Some?
    ensures EnclaveBlob(point) != PublicBlob(algorithm, publicKey, application)
  {
    NamesShort();
    assert |ECDSA_P256| < U32_LIMIT && |ECDSA_P256| != |ED25519_SK| && |ECDSA_P256| != |ECDSA_SK|;
    hide Str, ED25519_SK, ECDSA_SK, ECDSA_P256, NISTP256, EcdsaPoint;
    var rest := Str(NISTP256) + Str(point);
    var other := KeyPart(algorithm, publicKey).value + Str(application);
    if Str(ECDSA_P256) + rest == Str(algorithm) + other {
      StrUnique(ECDSA_P256, rest, algorithm, other);
    }
  }

  lemma EnclaveBlobInjective(a: Bytes, b: Bytes)
    requires EnclaveBlob(a).Some? && EnclaveBlob(a) == EnclaveBlob(b)
    ensures a == b
  {
    assert |ECDSA_P256| < U32_LIMIT;
    NamesShort();
    hide Str, ECDSA_P256, NISTP256;
    StrUnique(ECDSA_P256, Str(NISTP256) + Str(a), ECDSA_P256, Str(NISTP256) + Str(b));
    StrUnique(NISTP256, Str(a), NISTP256, Str(b));
    assert Str(a) + [] == Str(a) && Str(b) + [] == Str(b);
    StrUnique(a, [], b, []);
  }
}
