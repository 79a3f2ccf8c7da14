/**
 * The JavaScript side of the Curve25519 binding (src/curve25519_wrapper.js):
 * the base point, the clamping of a private scalar before every
 * Diffie-Hellman call, and which byte array that clamping writes to.
 *
 * Clamping is the scalar decoding `decodeScalar25519` of RFC 7748, section 5:
 * clear the three low bits of byte 0, clear the top bit of byte 31 and set
 * bit 6 of byte 31. The native routine `curve25519_donna` is not modelled; it
 * is a parameter of the operations that call it, and only the argument checks
 * of its binding (src/crypto_binding.cpp:73-103) are.
 */
module Curve25519Wrapper {
  import opened Wrappers

  /** The length of a Curve25519 scalar and of a u-coordinate, in bytes. */
  const KeyLength: nat := 32

  /** Lines 2-3: the u-coordinate 9 of RFC 7748, section 4.1, as 32 little-endian bytes. */
  const BasePoint: seq<bv8> := [9] + seq(31, _ => 0)

  /** The native scalar multiplication: a scalar and a u-coordinate to a u-coordinate. */
  type Donna = (seq<bv8>, seq<bv8>) -> seq<bv8>

  /** The exception the binding throws when an argument has the wrong length (line 91). */
  datatype NativeError = InputsMustBe32Bytes

  // ---------------------------------------------------------------------------
  // Little-endian numbers (RFC 7748, section 5, decodeLittleEndian)

  function Pow256(n: nat): (p: nat)
    ensures p > 0
  {
    if n == 0 then 1 else 256 * Pow256(n - 1)
  }

  /** The number a byte string denotes, least significant byte first. */
  function LittleEndian(s: seq<bv8>): (v: nat)
    ensures v < Pow256(|s|)
  {
    if s == [] then 0 else s[0] as nat + 256 * LittleEndian(s[1..])
  }

  lemma {:induction false} LittleEndianAppend(a: seq<bv8>, b: seq<bv8>)
    ensures LittleEndian(a + b) == LittleEndian(a) + Pow256(|a|) * LittleEndian(b)
  {
    if a != [] {
      var t, p, x := LittleEndian(a[1..]), Pow256(|a| - 1), LittleEndian(b);
      assert (a + b)[1..] == a[1..] + b;
      LittleEndianAppend(a[1..], b);
      assert LittleEndian(a + b) == a[0] as nat + 256 * (t + p * x);
      assert LittleEndian(a) == a[0] as nat + 256 * t;
      assert Pow256(|a|) == 256 * p;
      MulAssoc256(p, x);
    } else {
      assert a + b == b;
    }
  }

  lemma MulAssoc256(p: int, x: int)
    ensures (256 * p) * x == 256 * (p * x)
  {
  }

  lemma {:induction false} LittleEndianZeros(n: nat)
    ensures LittleEndian(seq(n, _ => 0 as bv8)) == 0
  {
    if n > 0 {
      assert seq(n, _ => 0 as bv8)[1..] == seq(n - 1, _ => 0 as bv8);
      LittleEndianZeros(n - 1);
    }
  }

  /** Lines 2-3: 32 bytes, byte 0 is 9 and the others are 0; as a number it is 9. */
  lemma BasePointIsNine()
    ensures |BasePoint| == KeyLength
    ensures BasePoint[0] == 9 && forall i :: 1 <= i < |BasePoint| ==> BasePoint[i] == 0
    ensures LittleEndian(BasePoint) == 9
  {
    LittleEndianZeros(31);
    assert BasePoint[1..] == seq(31, _ => 0 as bv8);
  }

  // ---------------------------------------------------------------------------
  // Clamping

  /**
   * Lines 8-10 and 24-26 on a byte array of any length: an index past the
   * end of a typed array reads `undefined` and ignores the write, so a short
   * array has only the bytes it has clamped.
   */
  function Clamp(k: seq<bv8>): (r: seq<bv8>)
    ensures |r| == |k|
    ensures forall i :: 0 <= i < |k| && i != 0 && i != 31 ==> r[i] == k[i]
    ensures |k| > 0 ==> r[0] & 0x07 == 0 && r[0] & 0xf8 == k[0] & 0xf8
    ensures |k| > 31 ==> r[31] & 0x80 == 0 && r[31] & 0x40 == 0x40 && r[31] & 0x3f == k[31] & 0x3f
  {
    seq(|k|, i requires 0 <= i < |k| =>
      if i == 0 then k[0] & 248
      else if i == 31 then (k[31] & 127) | 64
      else k[i])
  }

  /** Clamping an already clamped key changes nothing. */
  lemma ClampIdempotent(k: seq<bv8>)
    ensures Clamp(Clamp(k)) == Clamp(k)
  {
    var c := Clamp(k);
    forall i | 0 <= i < |k| ensures Clamp(c)[i] == c[i] {
      if i == 0 {
        assert (c[0] & 248) == c[0];
      } else if i == 31 {
        assert ((c[31] & 127) | 64) == c[31];
      }
    }
  }

  lemma ClearLowBits(b: bv8)
    ensures (b & 248) as int == b as int - b as int % 8
  {
  }

  lemma ClampTopByte(b: bv8)
    ensures ((b & 127) | 64) as int == b as int % 64 + 64
  {
  }

  /** 256^30 and 256^31. */
  const TwoTo240: nat := 0x1_0000_0000_0000_0000_0000_0000_0000_0000_0000_0000_0000_0000_0000_0000_0000
  const TwoTo248: nat := 0x1_00_00_00_00_00_00_00_00_00_00_00_00_00_00_00_00_00_00_00_00_00_00_00_00_00_00_00_00_00_00_00

  lemma Pow256Values()
    ensures Pow256(30) == TwoTo240 && Pow256(31) == TwoTo248
  {
    assert Pow256(1) == 0x100;
    assert Pow256(2) == 0x10000;
    assert Pow256(3) == 0x1000000;
    assert Pow256(4) == 0x100000000;
    assert Pow256(5) == 0x10000000000;
    assert Pow256(6) == 0x1000000000000;
    assert Pow256(7) == 0x100000000000000;
    assert Pow256(8) == 0x10000000000000000;
    assert Pow256(9) == 0x1000000000000000000;
    assert Pow256(10) == 0x100000000000000000000;
    assert Pow256(11) == 0x10000000000000000000000;
    assert Pow256(12) == 0x1000000000000000000000000;
    assert Pow256(13) == 0x100000000000000000000000000;
    assert Pow256(14) == 0x10000000000000000000000000000;
    assert Pow256(15) == 0x1000000000000000000000000000000;
    assert Pow256(16) == 0x100000000000000000000000000000000;
    assert Pow256(17) == 0x10000000000000000000000000000000000;
    assert Pow256(18) == 0x1000000000000000000000000000000000000;
    assert Pow256(19) == 0x100000000000000000000000000000000000000;
    assert Pow256(20) == 0x10000000000000000000000000000000000000000;
    assert Pow256(21) == 0x1000000000000000000000000000000000000000000;
    assert Pow256(22) == 0x100000000000000000000000000000000000000000000;
    assert Pow256(23) == 0x10000000000000000000000000000000000000000000000;
    assert Pow256(24) == 0x1000000000000000000000000000000000000000000000000;
    assert Pow256(25) == 0x100000000000000000000000000000000000000000000000000;
    assert Pow256(26) == 0x10000000000000000000000000000000000000000000000000000;
    assert Pow256(27) == 0x1000000000000000000000000000000000000000000000000000000;
    assert Pow256(28) == 0x100000000000000000000000000000000000000000000000000000000;
    assert Pow256(29) == 0x10000000000000000000000000000000000000000000000000000000000;
    assert Pow256(30) == 0x1000000000000000000000000000000000000000000000000000000000000;
    assert Pow256(31) == 0x100000000000000000000000000000000000000000000000000000000000000;
  }

  /**
   * A clamped 32-byte key is the scalar of RFC 7748, section 5: as a number
   * it is 2^254 plus the key's value modulo 2^254 with its three low bits
   * cleared; hence a multiple of 8 in [2^254, 2^255). (2^254 is
   * 64 * 256^31.)
   */
  lemma ClampedScalar(k: seq<bv8>)
    requires |k| == KeyLength
    ensures var v, c := LittleEndian(k), LittleEndian(Clamp(k));
            && c == 64 * TwoTo248 + v % (64 * TwoTo248) - v % 8
            && c % 8 == 0
            && 64 * TwoTo248 <= c < 128 * TwoTo248
  {
    ClampedDigits(k);
    ClampedArithmetic(k[0] as int, LittleEndian(k[1..31]), k[31] as int, LittleEndian(k), LittleEndian(Clamp(k)));
  }

  /** The values of a 32-byte key and of its clamping, by first, middle and last bytes. */
  lemma ClampedDigits(k: seq<bv8>)
    requires |k| == KeyLength
    ensures var k0, k31, m := k[0] as int, k[31] as int, LittleEndian(k[1..31]);
            && m < TwoTo240
            && LittleEndian(k) == k0 + 256 * m + TwoTo248 * k31
            && LittleEndian(Clamp(k)) == (k0 - k0 % 8) + 256 * m + TwoTo248 * (k31 % 64 + 64)
  {
    var c := Clamp(k);
    ThreeDigits(k);
    ClampedBytes(k);
    ThreeDigits(c);
    SameDigits(LittleEndian(c), c[0] as int, LittleEndian(c[1..31]), c[31] as int,
      k[0] as int - k[0] as int % 8, LittleEndian(k[1..31]), k[31] as int % 64 + 64);
  }

  /** The first, middle and last bytes of a clamped 32-byte key, as numbers. */
  lemma ClampedBytes(k: seq<bv8>)
    requires |k| == KeyLength
    ensures LittleEndian(Clamp(k)[1..31]) == LittleEndian(k[1..31])
    ensures Clamp(k)[0] as int == k[0] as int - k[0] as int % 8
    ensures Clamp(k)[31] as int == k[31] as int % 64 + 64
  {
    var c := Clamp(k);
    assert c[1..31] == k[1..31];
    ClearLowBits(k[0]);
    ClampTopByte(k[31]);
  }

  lemma SameDigits(w: int, c0: int, cm: int, c31: int, d0: int, dm: int, d31: int)
    requires w == c0 + 256 * cm + TwoTo248 * c31
    requires c0 == d0 && cm == dm && c31 == d31
    ensures w == d0 + 256 * dm + TwoTo248 * d31
  {
  }

  /** A 32-byte string as its first byte, the 30 middle bytes and its last byte. */
  lemma ThreeDigits(s: seq<bv8>)
    requires |s| == KeyLength
    ensures LittleEndian(s[1..31]) < TwoTo240
    ensures LittleEndian(s) == s[0] as int + 256 * LittleEndian(s[1..31]) + TwoTo248 * s[31] as int
  {
    assert s == [s[0]] + s[1..31] + [s[31]];
    LittleEndianSplit(s[0], s[1..31], s[31]);
    Pow256Values();
  }

  /**
   * `ClampedScalar` on numbers: the key is `v = k0 + 256 m + 2^248 k31` and its
   * clamping `w = (k0 - k0 % 8) + 256 m + 2^248 (k31 % 64 + 64)`.
   */
  lemma ClampedArithmetic(k0: int, m: int, k31: int, v: int, w: int)
    requires 0 <= k0 < 256 && 0 <= k31 < 256 && 0 <= m < TwoTo240
    requires v == k0 + 256 * m + TwoTo248 * k31 && w == (k0 - k0 % 8) + 256 * m + TwoTo248 * (k31 % 64 + 64)
    ensures && w == 64 * TwoTo248 + v % (64 * TwoTo248) - v % 8
            && w % 8 == 0
            && 64 * TwoTo248 <= w < 128 * TwoTo248
  {
    var low, top := k0 + 256 * m, k31 % 64;
    assert k31 == 64 * (k31 / 64) + top;
    assert v == 64 * TwoTo248 * (k31 / 64) + (low + TwoTo248 * top);
    RemainderIs(v, 64 * TwoTo248, k31 / 64, low + TwoTo248 * top);
    assert v == 8 * (k0 / 8 + 32 * m + (TwoTo248 / 8) * k31) + k0 % 8;
    RemainderIs(v, 8, k0 / 8 + 32 * m + (TwoTo248 / 8) * k31, k0 % 8);
    assert w == 8 * (k0 / 8 + 32 * m + (TwoTo248 / 8) * (top + 64));
    RemainderIs(w, 8, k0 / 8 + 32 * m + (TwoTo248 / 8) * (top + 64), 0);
  }

  /** Division with remainder: `r` is the remainder of `x` by `d`. */
  lemma RemainderIs(x: int, d: int, q: int, r: int)
    requires 0 <= r < d && x == d * q + r
    ensures x % d == r
  {
    var q', r' := x / d, x % d;
    assert d * (q - q') == r' - r;
    MultipleBounds(d, q - q');
  }

  /** A non-zero multiple of `d` is at least `d` away from zero. */
  lemma MultipleBounds(d: int, t: int)
    requires 0 < d
    ensures t > 0 ==> d * t >= d
    ensures t < 0 ==> d * t <= -d
  {
    if t > 0 {
      NonNegativeProduct(d, t - 1);
      assert d * t == d * (t - 1) + d;
    } else if t < 0 {
      NonNegativeProduct(d, -t - 1);
      assert d * t == -(d * (-t - 1)) - d;
    }
  }

  lemma NonNegativeProduct(a: int, b: int)
    requires 0 <= a && 0 <= b
    ensures 0 <= a * b
  {
  }

  /** A 32-byte string as its first byte, the 30 middle bytes and its last byte. */
  lemma LittleEndianSplit(first: bv8, mid: seq<bv8>, last: bv8)
    requires |mid| == 30
    ensures LittleEndian([first] + mid + [last]) == first as int + 256 * LittleEndian(mid) + TwoTo248 * last as int
  {
    var fm := [first] + mid;
    LittleEndianAppend(fm, [last]);
    LittleEndianAppend([first], mid);
    assert LittleEndian([last]) == last as int;
    assert LittleEndian([first]) == first as int;
    assert Pow256(|fm|) == TwoTo248 by {
      Pow256Values();
    }
  }

  /** Lines 8-10 (and 24-26): the compound assignments on the array itself. */
  method ClampInPlace(a: array<bv8>)
    modifies a
    ensures a[..] == Clamp(old(a[..]))
  {
    if a.Length > 0 {
      a[0] := a[0] & 248;
    }
    if a.Length > 31 {
      a[31] := a[31] & 127;
      a[31] := a[31] | 64;
    }
  }

  // ---------------------------------------------------------------------------
  // The native entry point and the two wrappers

  /**
   * src/crypto_binding.cpp:73-103: both arguments must be 32 bytes, else a
   * TypeError is thrown at once; otherwise the scalar multiplication runs and
   * its 32-byte result is passed to the callback with no error (the worker
   * never reports one).
   */
  function NativeDonna(secret: seq<bv8>, point: seq<bv8>, donna: Donna): (r: Result<seq<bv8>, NativeError>)
    ensures r.Ok? <==> |secret| == KeyLength && |point| == KeyLength
    ensures r.Ok? ==> r.value == donna(secret, point)
  {
    if |secret| != KeyLength || |point| != KeyLength then Err(InputsMustBe32Bytes)
    else Ok(donna(secret, point))
  }

  datatype KeyPair = KeyPair(pubKey: seq<bv8>, privKey: seq<bv8>)

  /**
   * Lines 5-20: copy the private key, clamp the copy, and multiply the base
   * point by it. The caller's array is not written (no `modifies`); the
   * returned private key is the clamped copy. A key that is not 32 bytes
   * long rejects with the binding's TypeError.
   */
  method KeyPairFrom(privKey: array<bv8>, donna: Donna) returns (r: Result<KeyPair, NativeError>)
    ensures r.Ok? <==> privKey.Length == KeyLength
    ensures r.Ok? ==> r.value.privKey == Clamp(privKey[..]) && r.value.pubKey == donna(Clamp(privKey[..]), BasePoint)
    ensures r.Err? ==> r.error == InputsMustBe32Bytes
  {
    var priv := new bv8[privKey.Length](i requires 0 <= i < privKey.Length reads privKey => privKey[i]);
    assert priv[..] == privKey[..];
    ClampInPlace(priv);
    BasePointIsNine();
    var pub := NativeDonna(priv[..], BasePoint, donna);
    match pub {
      case Err(e) => r := Err(e);
      case Ok(p) => r := Ok(KeyPair(p, priv[..]));
    }
  }

  /**
   * Lines 22-33: clamp the caller's private key in place, then copy both
   * keys for the binding. The peer key is read after the clamp, so a peer key
   * that is the private key's own array reaches the native routine clamped.
   * The caller's array stays clamped even when the binding then rejects the
   * lengths.
   */
  method SharedSecret(pubKey: array<bv8>, privKey: array<bv8>, donna: Donna) returns (r: Result<seq<bv8>, NativeError>)
    modifies privKey
    ensures privKey[..] == Clamp(old(privKey[..]))
    ensures pubKey != privKey ==> pubKey[..] == old(pubKey[..])
    ensures r.Ok? <==> privKey.Length == KeyLength && pubKey.Length == KeyLength
    ensures r.Ok? ==> r.value == donna(privKey[..], pubKey[..])
    ensures r.Ok? && pubKey == privKey ==> r.value == donna(Clamp(old(privKey[..])), Clamp(old(privKey[..])))
  {
    ClampInPlace(privKey);
    r := NativeDonna(privKey[..], pubKey[..], donna);
  }

  /**
   * Lines 22-33 when `privKey` is an ArrayBuffer, the form in which
   * `KeyPairFrom` hands a private key back: the compound assignments then
   * create ordinary properties "0" and "31" and leave the bytes alone, so the
   * native routine gets the key as it is.
   */
  function SharedSecretOfBuffer(pubKey: seq<bv8>, privKey: seq<bv8>, donna: Donna): (r: Result<seq<bv8>, NativeError>)
    ensures r.Ok? <==> |privKey| == KeyLength && |pubKey| == KeyLength
    ensures r.Ok? ==> r.value == donna(privKey, pubKey)
  {
    NativeDonna(privKey, pubKey, donna)
  }

  /**
   * For a private key that `KeyPairFrom` returned, the ArrayBuffer path
   * agrees with the typed-array path: both hand the native routine the
   * clamped scalar (`ClampIdempotent`).
   */
  lemma BufferPathAgrees(pubKey: seq<bv8>, key: seq<bv8>, donna: Donna)
    ensures SharedSecretOfBuffer(pubKey, Clamp(key), donna) == NativeDonna(Clamp(Clamp(key)), pubKey, donna)
  {
    ClampIdempotent(key);
  }
}
