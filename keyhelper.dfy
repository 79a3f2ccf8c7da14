/**
 * The key helpers of src/keyhelper.js: the key-id check, the registration id,
 * and the argument checks and result shape of the signed and one-time pre-key
 * generators.
 *
 * A JavaScript argument is a `JsValue`: a finite number (a `real`), NaN, an
 * infinity, or a value whose `typeof` is not `'number'`. The curve module
 * the generators call (src/curve.js) is not part of this model: what its
 * key-pair generation and its signing settle with, a value or a rejection,
 * is a parameter, and each generator reports which curve calls it made.
 */
module KeyHelper {
  import opened Wrappers

  datatype JsValue = Number(x: real) | NaN | Infinity(negative: bool) | NonNumber

  // ---------------------------------------------------------------------------
  // isNonNegativeInteger (lines 4-6)

  /** The integer part of `x`, rounded toward zero. */
  function Trunc(x: real): (t: int)
    ensures x >= 0.0 ==> t == x.Floor
    ensures x < 0.0 ==> t == -((-x).Floor)
  {
    if x >= 0.0 then x.Floor else -((-x).Floor)
  }

  /**
   * `n % 1` on a number: the remainder takes the sign of the dividend and is
   * NaN for an infinite dividend.
   */
  function RemainderOne(n: JsValue): (r: JsValue)
    requires !n.NonNumber?
    ensures n.Number? ==> r.Number? && -1.0 < r.x < 1.0
    ensures n.Number? ==> (n.x >= 0.0 ==> r.x >= 0.0) && (n.x <= 0.0 ==> r.x <= 0.0)
    ensures n.Number? ==> (r.x == 0.0 <==> n.x == n.x.Floor as real)
    ensures !n.Number? ==> r == NaN
  {
    match n
    case Number(x) => TruncRemainder(x); Number(x - Trunc(x) as real)
    case _ => NaN
  }

  /** What is left of `x` once its integer part, rounded toward zero, is taken away. */
  lemma TruncRemainder(x: real)
    ensures var r := x - Trunc(x) as real;
            && -1.0 < r < 1.0
            && (x >= 0.0 ==> r >= 0.0) && (x <= 0.0 ==> r <= 0.0)
            && (r == 0.0 <==> x == x.Floor as real)
  {
    if x < 0.0 {
      var y := -x;
      assert y.Floor as real <= y < y.Floor as real + 1.0;
      if y == y.Floor as real {
        assert x.Floor == -y.Floor;
      }
    }
  }

  /** `n >= 0` on a number. */
  predicate AtLeastZero(n: JsValue)
    requires !n.NonNumber?
  {
    match n
    case Number(x) => x >= 0.0
    case NaN => false
    case Infinity(negative) => !negative
  }

  /** Lines 4-6, operator by operator; `&&` stops at the first false operand. */
  predicate IsNonNegativeInteger(n: JsValue)
  {
    !n.NonNumber? && RemainderOne(n) == Number(0.0) && AtLeastZero(n)
  }

  /**
   * The check accepts exactly the finite numbers with no fractional part
   * that are not negative: NaN, both infinities and non-numbers fail it.
   */
  lemma IsNonNegativeIntegerMeans(n: JsValue)
    ensures IsNonNegativeInteger(n) <==> n.Number? && n.x >= 0.0 && n.x == n.x.Floor as real
  {
  }

  // ---------------------------------------------------------------------------
  // generateRegistrationId (lines 10-13)

  /**
   * `Uint16Array.from` on a byte buffer: one 16-bit element per byte, each
   * holding that byte's value.
   */
  function Uint16ArrayFrom(bytes: seq<bv8>): (r: seq<bv16>)
    ensures |r| == |bytes|
    ensures forall i :: 0 <= i < |bytes| ==> r[i] as int == bytes[i] as int
  {
    seq(|bytes|, i requires 0 <= i < |bytes| => Widen(bytes[i]))
  }

  /** A byte as a 16-bit element. */
  function Widen(b: bv8): (w: bv16)
    ensures w as int == b as int
  {
    b as bv16
  }

  /** Lines 10-13 as written, on the two random bytes `randomBytes(2)` returns. */
  function GenerateRegistrationId(random: seq<bv8>): (r: bv16)
    requires |random| == 2
    ensures r as int == random[0] as int
  {
    Uint16ArrayFrom(random)[0] & 0x3fff
  }

  /**
   * The mask is no bound on this value: the id is the first random byte, so
   * it is at most 255 and the second byte has no effect.
   */
  lemma RegistrationIdIsFirstByte(a: bv8, b: bv8, b': bv8)
    ensures GenerateRegistrationId([a, b]) <= 0x3fff
    ensures GenerateRegistrationId([a, b]) as int <= 255
    ensures GenerateRegistrationId([a, b]) == GenerateRegistrationId([a, b'])
  {
    assert GenerateRegistrationId([a, b]) as int == a as int;
    assert GenerateRegistrationId([a, b']) as int == a as int;
  }

  /** 256, a 14-bit id, is never generated, whatever the random bytes are. */
  lemma RegistrationIdMisses256(random: seq<bv8>)
    requires |random| == 2
    ensures GenerateRegistrationId(random) != 256
  {
    assert GenerateRegistrationId(random) as int <= 255;
  }

  /**
   * The evidently intended id: both random bytes read as one little-endian
   * 16-bit number, masked to 14 bits.
   */
  function IntendedRegistrationId(random: seq<bv8>): (r: bv16)
    requires |random| == 2
    ensures r <= 0x3fff
    ensures r & 0xff == random[0] as bv16
  {
    (random[0] as bv16 | (random[1] as bv16 << 8)) & 0x3fff
  }

  /** Every 14-bit value is the intended id of some pair of random bytes. */
  lemma IntendedRegistrationIdCoversAll(v: bv16)
    requires v <= 0x3fff
    ensures IntendedRegistrationId([(v & 0xff) as bv8, (v >> 8) as bv8]) == v
  {
  }

  // ---------------------------------------------------------------------------
  // generateSignedPreKey and generatePreKey (lines 15-43)

  /** An identity-key field: a Node.js `Buffer` with its bytes, or any other value. */
  datatype KeyMaterial = Buffer(bytes: seq<bv8>) | NotABuffer

  datatype IdentityKeyPair = IdentityKeyPair(pubKey: KeyMaterial, privKey: KeyMaterial)

  /** A key pair as src/curve.js generates it. */
  datatype KeyPair = KeyPair(pubKey: seq<bv8>, privKey: seq<bv8>)

  datatype SignedPreKey = SignedPreKey(keyId: JsValue, keyPair: KeyPair, signature: seq<bv8>)

  datatype PreKey = PreKey(keyId: JsValue, keyPair: KeyPair)

  /** What src/curve.js rejects with; its content is not modelled. */
  datatype CurveError = CurveError(message: string)

  /**
   * The reasons a generator rejects: the `TypeError`s of its own argument
   * checks (the message carries the bad id), or the rejection of an awaited
   * curve call, passed on unchanged.
   */
  datatype KeyHelperError =
    | InvalidIdentityKeyPair
    | InvalidSignedKeyId(signedKeyId: JsValue)
    | InvalidKeyId(keyId: JsValue)
    | CurveRejected(reason: CurveError)

  /** A call a generator makes into src/curve.js, in the order it makes them. */
  datatype CurveCall = GenerateKeyPair | CalculateSignature(privKey: seq<bv8>, message: seq<bv8>)

  /** What a generator's promise settles with, and the curve calls made before. */
  datatype Run<T> = Run(result: Result<T, KeyHelperError>, curveCalls: seq<CurveCall>)

  /** What `curve.generateKeyPair()` settles with: a fresh key pair, or a rejection. */
  type Generated = Result<KeyPair, CurveError>

  /** `curve.calculateSignature`: a private key and a message to a signature, or a rejection. */
  type Signer = (seq<bv8>, seq<bv8>) -> Result<seq<bv8>, CurveError>

  /** Lines 16-19: a 32-byte private-key Buffer and a 33-byte public-key Buffer. */
  predicate ValidIdentityKeyPair(identity: IdentityKeyPair)
  {
    && identity.privKey.Buffer? && |identity.privKey.bytes| == 32
    && identity.pubKey.Buffer? && |identity.pubKey.bytes| == 33
  }

  /**
   * Lines 15-32: check the identity key pair, then the id; only then await a
   * key pair (`generated`) and a signature over its public key by the
   * identity's private key. A rejection of either await rejects the call.
   */
  function GenerateSignedPreKey(identity: IdentityKeyPair, signedKeyId: JsValue, generated: Generated, sign: Signer): (r: Run<SignedPreKey>)
    // the argument checks pass exactly when no TypeError is raised
    ensures (r.result.Ok? || r.result.error.CurveRejected?) <==>
              && identity.privKey.Buffer? && |identity.privKey.bytes| == 32
              && identity.pubKey.Buffer? && |identity.pubKey.bytes| == 33
              && signedKeyId.Number? && signedKeyId.x >= 0.0 && signedKeyId.x == signedKeyId.x.Floor as real
    ensures !ValidIdentityKeyPair(identity) ==> r.result == Err(InvalidIdentityKeyPair)
    ensures ValidIdentityKeyPair(identity) && !IsNonNegativeInteger(signedKeyId) ==> r.result == Err(InvalidSignedKeyId(signedKeyId))
    ensures r.result.Err? && !r.result.error.CurveRejected? ==> r.curveCalls == []
    // past the checks: the key pair is awaited first
    ensures r.curveCalls != [] ==> r.curveCalls[0] == GenerateKeyPair
    ensures r.curveCalls != [] && generated.Err? ==>
              r.result == Err(CurveRejected(generated.error)) && r.curveCalls == [GenerateKeyPair]
    ensures r.curveCalls != [] && generated.Ok? ==>
              var priv, pub := identity.privKey.bytes, generated.value.pubKey;
              && r.curveCalls == [GenerateKeyPair, CalculateSignature(priv, pub)]
              && (sign(priv, pub).Err? ==> r.result == Err(CurveRejected(sign(priv, pub).error)))
              && (sign(priv, pub).Ok? ==> r.result == Ok(SignedPreKey(signedKeyId, generated.value, sign(priv, pub).value)))
    ensures r.result.Ok? ==> r.curveCalls != [] && generated.Ok?
  {
    IsNonNegativeIntegerMeans(signedKeyId);
    if !ValidIdentityKeyPair(identity) then
      Run(Err(InvalidIdentityKeyPair), [])
    else if !IsNonNegativeInteger(signedKeyId) then
      Run(Err(InvalidSignedKeyId(signedKeyId)), [])
    else
      match generated
      case Err(e) => Run(Err(CurveRejected(e)), [GenerateKeyPair])
      case Ok(keyPair) =>
        var calls := [GenerateKeyPair, CalculateSignature(identity.privKey.bytes, keyPair.pubKey)];
        match sign(identity.privKey.bytes, keyPair.pubKey)
        case Err(e) => Run(Err(CurveRejected(e)), calls)
        case Ok(sig) => Run(Ok(SignedPreKey(signedKeyId, keyPair, sig)), calls)
  }

  /**
   * Lines 34-43: check the id, then await a key pair (`generated`); its
   * rejection rejects the call.
   */
  function GeneratePreKey(keyId: JsValue, generated: Generated): (r: Run<PreKey>)
    ensures (r.result.Ok? || r.result.error.CurveRejected?) <==>
              keyId.Number? && keyId.x >= 0.0 && keyId.x == keyId.x.Floor as real
    ensures r.result.Err? && !r.result.error.CurveRejected? ==>
              r.result == Err(InvalidKeyId(keyId)) && r.curveCalls == []
    ensures r.curveCalls != [] ==> r.curveCalls == [GenerateKeyPair]
    ensures r.curveCalls != [] && generated.Err? ==> r.result == Err(CurveRejected(generated.error))
    ensures r.curveCalls != [] && generated.Ok? ==> r.result == Ok(PreKey(keyId, generated.value))
    ensures r.result.Ok? ==> r.curveCalls != []
  {
    IsNonNegativeIntegerMeans(keyId);
    if !IsNonNegativeInteger(keyId) then
      Run(Err(InvalidKeyId(keyId)), [])
    else
      match generated
      case Err(e) => Run(Err(CurveRejected(e)), [GenerateKeyPair])
      case Ok(keyPair) => Run(Ok(PreKey(keyId, keyPair)), [GenerateKeyPair])
  }

  /**
   * A call rejected by its own argument checks depends on its arguments
   * only: validation finishes before the first `await`, so neither what the
   * curve module would generate nor what it would sign can change the error.
   */
  lemma RejectionIgnoresCurve(identity: IdentityKeyPair, id: JsValue, g: Generated, g': Generated, sign: Signer, sign': Signer)
    ensures var r := GenerateSignedPreKey(identity, id, g, sign);
            r.result.Err? && !r.result.error.CurveRejected? ==> r == GenerateSignedPreKey(identity, id, g', sign')
    ensures var r := GeneratePreKey(id, g);
            r.result.Err? && !r.result.error.CurveRejected? ==> r == GeneratePreKey(id, g')
  {
  }

  /**
   * With a valid identity key pair both generators accept the same ids; given
   * the same key pair from the curve module and a signer that succeeds, both
   * succeed with the same id and key pair.
   */
  lemma GeneratorsAgreeOnIds(identity: IdentityKeyPair, id: JsValue, g: Generated, sign: Signer)
    requires ValidIdentityKeyPair(identity)
    ensures GenerateSignedPreKey(identity, id, g, sign).curveCalls != [] <==> GeneratePreKey(id, g).curveCalls != []
    ensures GenerateSignedPreKey(identity, id, g, sign).result.Ok? ==>
              var s := GenerateSignedPreKey(identity, id, g, sign).result.value;
              GeneratePreKey(id, g).result == Ok(PreKey(s.keyId, s.keyPair))
  {
  }
}
