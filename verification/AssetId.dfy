/** Bitwise exclusive or and right shift on natural numbers, and wrapping 64-bit multiplication. */
module Words64 {
  import opened Bytes

  function Xor(a: nat, b: nat): nat
    decreases a + b
  {
    if a == 0 && b == 0 then 0 else (a + b) % 2 + 2 * Xor(a / 2, b / 2)
  }

  function ShiftRight(a: nat, k: nat): nat
    decreases k
  {
    if k == 0 then a else ShiftRight(a / 2, k - 1)
  }

  function Pow2(k: nat): (p: nat)
    ensures p > 0
  {
    if k == 0 then 1 else 2 * Pow2(k - 1)
  }

  function WrappingMul(a: u64, c: u64): u64 { a * c % U64_LIMIT }

  lemma {:induction false} XorLaws(a: nat, b: nat)
    ensures Xor(a, b) == Xor(b, a)
    ensures Xor(a, a) == 0
    ensures Xor(a, 0) == a
    decreases a + b
  {
    if a + b == 0 {
    } else {
      XorLaws(a / 2, b / 2);
    }
  }

  lemma XorHalf(a: nat, b: nat)
    ensures Xor(a, b) == (a + b) % 2 + 2 * Xor(a / 2, b / 2)
    ensures Xor(a, b) / 2 == Xor(a / 2, b / 2)
  {
  }

  /** Numbers with the same half whose lowest bits are sums of the same bits. */
  lemma SameBits(x: nat, y: nat, ab: nat, bc: nat, a: nat, b: nat, c: nat, h: nat, g: nat, half: nat)
    requires ab == (a + b) % 2 + 2 * h && bc == (b + c) % 2 + 2 * g
    requires x == (ab + c) % 2 + 2 * half && y == (a + bc) % 2 + 2 * half
    ensures x == y
  {
    Parity(a + b, h, c);
    Parity(b + c, g, a);
  }

  lemma {:induction false} XorAssociates(a: nat, b: nat, c: nat)
    ensures Xor(Xor(a, b), c) == Xor(a, Xor(b, c))
    decreases a + b + c
  {
    if a + b + c == 0 {
    } else {
      XorAssociates(a / 2, b / 2, c / 2);
      var ab, bc := Xor(a, b), Xor(b, c);
      XorHalf(a, b);
      XorHalf(b, c);
      XorHalf(ab, c);
      XorHalf(a, bc);
      SameBits(Xor(ab, c), Xor(a, bc), ab, bc, a, b, c, Xor(a / 2, b / 2), Xor(b / 2, c / 2), Xor(ab / 2, c / 2));
    }
  }

  lemma Parity(n: nat, h: nat, c: nat)
    ensures (n % 2 + 2 * h + c) % 2 == (n + c) % 2
  {
  }

  lemma HalfFirst(n: nat, k: nat)
    requires k > 0
    ensures n / Pow2(k) == n / 2 / Pow2(k - 1)
  {
    DivideTwice(n, 2, Pow2(k - 1));
  }

  /** A shift divides. */
  lemma {:induction false} ShiftDivides(a: nat, k: nat)
    ensures ShiftRight(a, k) == a / Pow2(k)
    decreases k
  {
    if k == 0 {
    } else {
      ShiftDivides(a / 2, k - 1);
      HalfFirst(a, k);
    }
  }

  lemma {:induction false} XorBelow(a: nat, b: nat, k: nat)
    requires a < Pow2(k) && b < Pow2(k)
    ensures Xor(a, b) < Pow2(k)
  {
    if k == 0 {
    } else {
      XorBelow(a / 2, b / 2, k - 1);
    }
  }

  lemma {:induction false} ShiftXor(a: nat, b: nat, k: nat)
    ensures ShiftRight(Xor(a, b), k) == Xor(ShiftRight(a, k), ShiftRight(b, k))
    decreases k
  {
    if k == 0 {
    } else {
      XorHalf(a, b);
      ShiftXor(a / 2, b / 2, k - 1);
    }
  }

  lemma LowestBit(a: nat, b: nat)
    ensures Xor(a, b) % 2 == (a + b) % 2
  {
    XorHalf(a, b);
  }

  /** Bit by bit, exclusive or adds without carry. */
  lemma XorBits(a: nat, b: nat, k: nat)
    ensures Xor(a, b) / Pow2(k) % 2 == (a / Pow2(k) + b / Pow2(k)) % 2
  {
    ShiftDivides(a, k);
    ShiftDivides(b, k);
    ShiftDivides(Xor(a, b), k);
    ShiftXor(a, b, k);
    LowestBit(ShiftRight(a, k), ShiftRight(b, k));
  }

  lemma {:induction false} ShiftCompose(a: nat, j: nat, k: nat)
    ensures ShiftRight(ShiftRight(a, j), k) == ShiftRight(a, j + k)
    decreases j
  {
    if j == 0 {
    } else {
      ShiftCompose(a / 2, j - 1, k);
    }
  }

  lemma {:induction false} ShiftVanishes(a: nat, k: nat, n: nat)
    requires a < Pow2(n) && n <= k
    ensures ShiftRight(a, k) == 0
    decreases k
  {
    if k == 0 {
    } else {
      ShiftVanishes(a / 2, k - 1, if n == 0 then 0 else n - 1);
    }
  }

  lemma {:induction false} ShiftShrinks(a: nat, k: nat)
    ensures ShiftRight(a, k) <= a
    decreases k
  {
    if k == 0 {
    } else {
      ShiftShrinks(a / 2, k - 1);
    }
  }

  lemma Pow2Is64()
    ensures Pow2(64) == U64_LIMIT
  {
    assert Pow2(4) == 16;
    Pow2Add(4, 4);
    Pow2Add(8, 8);
    Pow2Add(16, 16);
    Pow2Add(32, 32);
  }

  lemma {:induction false} Pow2Add(j: nat, k: nat)
    ensures Pow2(j + k) == Pow2(j) * Pow2(k)
  {
    if j == 0 {
    } else {
      Pow2Add(j - 1, k);
      assert 2 * (Pow2(j - 1) * Pow2(k)) == (2 * Pow2(j - 1)) * Pow2(k);
    }
  }

  /** Exclusive or on 64-bit words. */
  function Xor64(a: u64, b: u64): (r: u64) {
    Pow2Is64();
    XorBelow(a, b, 64);
    Xor(a, b)
  }

  /** Exclusive or with a fixed word is injective: it undoes itself. */
  lemma XorCancels(a: nat, b: nat, c: nat)
    ensures Xor(Xor(a, c), c) == a
    ensures Xor(a, c) == Xor(b, c) ==> a == b
  {
    XorAssociates(a, c, c);
    XorAssociates(b, c, c);
    XorLaws(c, c);
    XorLaws(a, 0);
    XorLaws(b, 0);
  }

  /** `inverse` undoes wrapping multiplication by `c`. */
  ghost predicate Invertible(c: u64, inverse: u64) {
    c * inverse % U64_LIMIT == 1
  }

  lemma ModProduct(a: int, b: int, m: nat)
    requires m > 0
    ensures (a % m) * b % m == a * b % m
  {
    var q := a / m;
    assert a == q * m + a % m;
    assert a * b == (q * b) * m + (a % m) * b;
    ModAdd((a % m) * b, q * b, m);
  }

  lemma ModAdd(a: int, k: int, m: nat)
    requires m > 0
    ensures (k * m + a) % m == a % m
  {
    var r := a % m;
    var q := a / m;
    assert a == q * m + r;
    assert k * m + a == (k + q) * m + r;
    ModUnique(k * m + a, k + q, r, m);
  }

  lemma ModUnique(x: int, q: int, r: int, m: nat)
    requires 0 <= r < m && x == q * m + r
    ensures x % m == r
  {
    var q', r' := x / m, x % m;
    assert x == q' * m + r';
    Distribute(q', q, m);
    Distribute(q, q', m);
    if q' > q {
      Scale(q' - q, m);
    } else if q > q' {
      Scale(q - q', m);
    }
  }

  lemma Distribute(a: int, b: int, m: int)
    ensures (a - b) * m == a * m - b * m
  {
  }

  lemma Scale(k: int, m: nat)
    requires k >= 1
    ensures k * m >= m
  {
  }

  lemma MulUndone(a: u64, c: u64, inverse: u64)
    requires Invertible(c, inverse)
    ensures WrappingMul(WrappingMul(a, c), inverse) == a
  {
    ModProduct(a * c, inverse, U64_LIMIT);
    assert a * c * inverse == (c * inverse) * a;
    ModProduct(c * inverse, a, U64_LIMIT);
    assert (c * inverse % U64_LIMIT) * a == a;
  }
}

/** Content-addressed asset identifiers: the cache hash, the path hash and the database key. */
module AssetIds {
  import opened Bytes
  import opened Words64

  datatype AssetId = AssetId(pathHash: u64, mtimeMs: u64, size: u64)

  const GOLDEN: u64 := 0x9E37_79B9_7F4A_7C15
  const MURMUR1: u64 := 0xFF51_AFD7_ED55_8CCD
  const MURMUR2: u64 := 0xC4CE_B9FE_1A85_EC53
  const FNV_OFFSET: u64 := 0xcbf2_9ce4_8422_2325
  const FNV_PRIME: u64 := 0x0000_0100_0000_01b3

  // Multiplicative inverses modulo 2^64 of the odd constants above.
  const GOLDEN_INVERSE: u64 := 0xf1de_83e1_9937_733d
  const MURMUR1_INVERSE: u64 := 0x4f74_430c_22a5_4005
  const MURMUR2_INVERSE: u64 := 0x9cb4_b2f8_1293_37db
  const FNV_INVERSE: u64 := 0xce96_5057_aff6_957b

  lemma ConstantsInvertible()
    ensures Invertible(GOLDEN, GOLDEN_INVERSE)
    ensures Invertible(MURMUR1, MURMUR1_INVERSE)
    ensures Invertible(MURMUR2, MURMUR2_INVERSE)
    ensures Invertible(FNV_PRIME, FNV_INVERSE)
  {
  }

  /** `h ^ (h >> 33)` */
  function XorShift(h: u64): u64 {
    ShiftShrinks(h, 33);
    Xor64(h, ShiftRight(h, 33))
  }

  function MixPathTime(pathHash: u64, mtimeMs: u64): u64 {
    Xor64(WrappingMul(pathHash, GOLDEN), WrappingMul(mtimeMs, MURMUR1))
  }

  function MixAll(id: AssetId): u64 {
    Xor64(WrappingMul(MixPathTime(id.pathHash, id.mtimeMs), GOLDEN), WrappingMul(id.size, MURMUR2))
  }

  function Finalize(h: u64): u64 {
    XorShift(WrappingMul(XorShift(h), MURMUR1))
  }

  /** The combined hash that names the cache files of an asset. */
  function Hash(id: AssetId): u64 { Finalize(MixAll(id)) }

  /** The accumulator of the program. */
  method ComputeHash(id: AssetId) returns (h: u64)
    ensures h == Hash(id)
  {
    h := id.pathHash;
    h := Xor64(WrappingMul(h, 0x9E37_79B9_7F4A_7C15), WrappingMul(id.mtimeMs, 0xFF51_AFD7_ED55_8CCD));
    h := Xor64(WrappingMul(h, 0x9E37_79B9_7F4A_7C15), WrappingMul(id.size, 0xC4CE_B9FE_1A85_EC53));
    ShiftShrinks(h, 33);
    h := Xor64(h, ShiftRight(h, 33));
    h := WrappingMul(h, 0xFF51_AFD7_ED55_8CCD);
    ShiftShrinks(h, 33);
    h := Xor64(h, ShiftRight(h, 33));
  }

  lemma XorShiftUndone(h: u64)
    ensures XorShift(XorShift(h)) == h
  {
    var s := ShiftRight(h, 33);
    ShiftShrinks(h, 33);
    ShiftXor(h, s, 33);
    ShiftCompose(h, 33, 33);
    Pow2Is64();
    ShiftVanishes(h, 66, 64);
    XorLaws(s, 0);
    XorCancels(h, h, s);
  }

  lemma MulInjective(a: u64, b: u64, c: u64, inverse: u64)
    requires Invertible(c, inverse)
    requires WrappingMul(a, c) == WrappingMul(b, c)
    ensures a == b
  {
    MulUndone(a, c, inverse);
    MulUndone(b, c, inverse);
  }

  /** The final avalanche is injective. */
  lemma FinalizeInjective(a: u64, b: u64)
    requires Finalize(a) == Finalize(b)
    ensures a == b
  {
    ConstantsInvertible();
    XorShiftUndone(WrappingMul(XorShift(a), MURMUR1));
    XorShiftUndone(WrappingMul(XorShift(b), MURMUR1));
    MulInjective(XorShift(a), XorShift(b), MURMUR1, MURMUR1_INVERSE);
    XorShiftUndone(a);
    XorShiftUndone(b);
  }

  lemma MixPathTimeInjective(p: u64, t: u64, p': u64, t': u64)
    requires p == p' || t == t'
    requires MixPathTime(p, t) == MixPathTime(p', t')
    ensures p == p' && t == t'
  {
    ConstantsInvertible();
    var a, a' := WrappingMul(p, GOLDEN), WrappingMul(p', GOLDEN);
    var b, b' := WrappingMul(t, MURMUR1), WrappingMul(t', MURMUR1);
    if t == t' {
      XorCancels(a, a', b);
      MulInjective(p, p', GOLDEN, GOLDEN_INVERSE);
    } else {
      XorLaws(a, b);
      XorLaws(a, b');
      XorCancels(b, b', a);
      MulInjective(t, t', MURMUR1, MURMUR1_INVERSE);
    }
  }

  /** Changing exactly one of path hash, modification time and size always changes the hash. */
  lemma OneComponentChangesHash(a: AssetId, b: AssetId)
    requires a != b
    requires || (a.mtimeMs == b.mtimeMs && a.size == b.size)
             || (a.pathHash == b.pathHash && a.size == b.size)
             || (a.pathHash == b.pathHash && a.mtimeMs == b.mtimeMs)
    ensures Hash(a) != Hash(b)
  {
    if Hash(a) == Hash(b) {
      FinalizeInjective(MixAll(a), MixAll(b));
      ConstantsInvertible();
      var ma, mb := MixPathTime(a.pathHash, a.mtimeMs), MixPathTime(b.pathHash, b.mtimeMs);
      var ga, gb := WrappingMul(ma, GOLDEN), WrappingMul(mb, GOLDEN);
      var sa, sb := WrappingMul(a.size, MURMUR2), WrappingMul(b.size, MURMUR2);
      if a.size == b.size {
        XorCancels(ga, gb, sa);
        MulInjective(ma, mb, GOLDEN, GOLDEN_INVERSE);
        MixPathTimeInjective(a.pathHash, a.mtimeMs, b.pathHash, b.mtimeMs);
      } else {
        XorLaws(ga, sa);
        XorLaws(ga, sb);
        XorCancels(sa, sb, ga);
        MulInjective(a.size, b.size, MURMUR2, MURMUR2_INVERSE);
      }
    }
  }

  /** The one size with which another path and time reach the hash of `a`. */
  function CollidingSize(a: AssetId, pathHash: u64, mtimeMs: u64): u64 {
    WrappingMul(Xor64(MixAll(a), WrappingMul(MixPathTime(pathHash, mtimeMs), GOLDEN)), MURMUR2_INVERSE)
  }

  /** Two identities share a hash exactly when the second has that one colliding size, so
      changing several parts at once does not always change the hash. */
  lemma CollisionSizeUnique(a: AssetId, b: AssetId)
    ensures Hash(a) == Hash(b) <==> b.size == CollidingSize(a, b.pathHash, b.mtimeMs)
  {
    ConstantsInvertible();
    var base := WrappingMul(MixPathTime(b.pathHash, b.mtimeMs), GOLDEN);
    var tail := WrappingMul(b.size, MURMUR2);
    XorLaws(base, tail);
    MulUndone(b.size, MURMUR2, MURMUR2_INVERSE);
    XorCancels(tail, tail, base);
    var need := Xor64(MixAll(a), base);
    assert Invertible(MURMUR2_INVERSE, MURMUR2);
    MulUndone(need, MURMUR2_INVERSE, MURMUR2);
    XorCancels(MixAll(a), MixAll(a), base);
    if Hash(a) == Hash(b) {
      FinalizeInjective(MixAll(a), MixAll(b));
    }
  }

  /** A concrete collision: path hash 1 with the right size hashes like the all-zero identity. */
  lemma HashCollides()
    ensures var a, b := AssetId(0, 0, 0), AssetId(1, 0, CollidingSize(AssetId(0, 0, 0), 1, 0));
            a != b && Hash(a) == Hash(b)
  {
    CollisionSizeUnique(AssetId(0, 0, 0), AssetId(1, 0, CollidingSize(AssetId(0, 0, 0), 1, 0)));
  }

  function FnvStep(h: u64, b: byte): u64 { WrappingMul(Xor64(h, b), FNV_PRIME) }

  function Fnv(h: u64, path: seq<byte>): u64 {
    if path == [] then h else FnvStep(Fnv(h, path[..|path| - 1]), path[|path| - 1])
  }

  /** FNV-1a over the bytes of a path. */
  method HashPath(path: seq<byte>) returns (hash: u64)
    ensures hash == Fnv(FNV_OFFSET, path)
  {
    hash := 0xcbf2_9ce4_8422_2325;
    for i := 0 to |path|
      invariant hash == Fnv(FNV_OFFSET, path[..i])
    {
      assert path[..i + 1][..i] == path[..i];
      hash := Xor64(hash, path[i]);
      hash := WrappingMul(hash, 0x100_0000_01b3);
    }
    assert path[..|path|] == path;
  }

  lemma {:induction false} FnvInjectiveInState(g: u64, h: u64, path: seq<byte>)
    requires Fnv(g, path) == Fnv(h, path)
    ensures g == h
  {
    if path == [] {
    } else {
      var init, last := path[..|path| - 1], path[|path| - 1];
      ConstantsInvertible();
      MulInjective(Xor64(Fnv(g, init), last), Xor64(Fnv(h, init), last), FNV_PRIME, FNV_INVERSE);
      XorCancels(Fnv(g, init), Fnv(h, init), last);
      FnvInjectiveInState(g, h, init);
    }
  }

  lemma {:induction false} FnvSplits(h: u64, a: seq<byte>, b: seq<byte>)
    ensures Fnv(h, a + b) == Fnv(Fnv(h, a), b)
  {
    if b == [] {
      assert a + b == a;
    } else {
      assert (a + b)[..|a + b| - 1] == a + b[..|b| - 1];
      FnvSplits(h, a, b[..|b| - 1]);
    }
  }

  /** Two paths that differ in exactly one byte have different path hashes. */
  lemma OneByteChangesPathHash(before: seq<byte>, x: byte, y: byte, after: seq<byte>)
    requires x != y
    ensures Fnv(FNV_OFFSET, before + [x] + after) != Fnv(FNV_OFFSET, before + [y] + after)
  {
    var h := Fnv(FNV_OFFSET, before);
    FnvSplits(FNV_OFFSET, before + [x], after);
    FnvSplits(FNV_OFFSET, before + [y], after);
    FnvSplits(FNV_OFFSET, before, [x]);
    FnvSplits(FNV_OFFSET, before, [y]);
    assert Fnv(h, [x]) == FnvStep(Fnv(h, [x][..0]), x) && Fnv(h, [y]) == FnvStep(Fnv(h, [y][..0]), y);
    if Fnv(FNV_OFFSET, before + [x] + after) == Fnv(FNV_OFFSET, before + [y] + after) {
      FnvInjectiveInState(FnvStep(h, x), FnvStep(h, y), after);
      ConstantsInvertible();
      MulInjective(Xor64(h, x), Xor64(h, y), FNV_PRIME, FNV_INVERSE);
      XorLaws(h, x);
      XorLaws(h, y);
      XorCancels(x, y, h);
    }
  }

  /** The 24-byte database key: path hash, time and size, little-endian. */
  function KeyBytes(id: AssetId): (key: seq<byte>)
    ensures |key| == 24
  {
    LittleEndian(id.pathHash, 8) + LittleEndian(id.mtimeMs, 8) + LittleEndian(id.size, 8)
  }

  /** The key as the program fills it in. */
  method FillKey(id: AssetId) returns (key: array<byte>)
    ensures fresh(key) && key[..] == KeyBytes(id)
  {
    key := new byte[24](_ => 0);
    CopyInto(key, 0, LittleEndian(id.pathHash, 8));
    CopyInto(key, 8, LittleEndian(id.mtimeMs, 8));
    CopyInto(key, 16, LittleEndian(id.size, 8));
    assert key[..24] == key[..];
  }

  /** The places of the three words in the key, each little-endian: byte `i` of a word is its digit at
      256 to the power of `i`. */
  lemma KeyLayout(id: AssetId, i: nat)
    requires i < 8
    ensures KeyBytes(id)[i] == id.pathHash / Pow256(i) % 0x100
    ensures KeyBytes(id)[8 + i] == id.mtimeMs / Pow256(i) % 0x100
    ensures KeyBytes(id)[16 + i] == id.size / Pow256(i) % 0x100
  {
    LittleEndianDigits(id.pathHash, 8, i);
    LittleEndianDigits(id.mtimeMs, 8, i);
    LittleEndianDigits(id.size, 8, i);
  }

  function FromKeyBytes(bytes: seq<byte>): Result<AssetId> {
    if |bytes| != 24 then Err
    else
      WordBounds(bytes[0..8]);
      WordBounds(bytes[8..16]);
      WordBounds(bytes[16..24]);
      Ok(AssetId(FromLittleEndian(bytes[0..8]), FromLittleEndian(bytes[8..16]), FromLittleEndian(bytes[16..24])))
  }

  lemma KeyDecodes(id: AssetId)
    ensures FromKeyBytes(KeyBytes(id)) == Ok(id)
  {
    var key, path, time, size := KeyBytes(id), LittleEndian(id.pathHash, 8), LittleEndian(id.mtimeMs, 8), LittleEndian(id.size, 8);
    ThreeParts(path, time, size);
    assert key[0..8] == key[..8] == path && key[8..16] == time && key[16..24] == key[16..] == size;
    WordRoundTrips();
    assert FromLittleEndian(path) == id.pathHash && FromLittleEndian(time) == id.mtimeMs && FromLittleEndian(size) == id.size;
  }

  lemma KeyEncodes(bytes: seq<byte>)
    requires |bytes| == 24
    ensures KeyBytes(FromKeyBytes(bytes).value) == bytes
  {
    var a, b, c := bytes[0..8], bytes[8..16], bytes[16..24];
    FromLittleEndianRoundTrip(a);
    FromLittleEndianRoundTrip(b);
    FromLittleEndianRoundTrip(c);
    ThreeCuts(bytes, 8, 16);
    assert KeyBytes(FromKeyBytes(bytes).value) == a + b + c;
  }

  /** Keys and identities are in bijection: decoding undoes encoding, and every 24-byte
      string is the key of exactly the identity it decodes to. */
  lemma KeyBijection(id: AssetId, bytes: seq<byte>)
    ensures FromKeyBytes(KeyBytes(id)) == Ok(id)
    ensures FromKeyBytes(bytes).Ok? <==> |bytes| == 24
    ensures |bytes| == 24 ==> KeyBytes(FromKeyBytes(bytes).value) == bytes
  {
    KeyDecodes(id);
    if |bytes| == 24 {
      KeyEncodes(bytes);
    }
  }
}
