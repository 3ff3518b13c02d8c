/** Fixed-width words and their byte encodings, shared by every binary format of the repository. */
module Bytes {
  type byte = x: int | 0 <= x < 0x100
  type u16 = x: int | 0 <= x < 0x1_0000
  type u32 = x: int | 0 <= x < 0x1_0000_0000
  type u64 = x: int | 0 <= x < 0x1_0000_0000_0000_0000

  const U32_LIMIT: nat := 0x1_0000_0000
  const U64_LIMIT: nat := 0x1_0000_0000_0000_0000

  datatype Option<+T> = None | Some(value: T)

  datatype Result<+T> = Ok(value: T) | Err {
    predicate IsFailure() { Err? }
    function PropagateFailure<U>(): Result<U> requires Err? { Err }
    function Extract(): T requires Ok? { value }
  }

  lemma ThreeParts<T>(a: seq<T>, b: seq<T>, c: seq<T>)
    ensures var s := a + b + c;
            s[..|a|] == a && s[|a|..|a| + |b|] == b && s[|a| + |b|..] == c && s == a + (b + c)
  {
  }

  lemma Regroup<T>(a: seq<T>, b: seq<T>, c: seq<T>, d: seq<T>)
    ensures a + b + c + d == a + b + (c + d) == a + (b + (c + d))
  {
  }

  lemma ThreeCuts<T>(s: seq<T>, i: nat, j: nat)
    requires i <= j <= |s|
    ensures s == s[0..i] + s[i..j] + s[j..|s|]
  {
  }

  lemma TailSlices<T>(s: seq<T>, at: nat, i: nat, j: nat)
    requires i <= j && at + j <= |s|
    ensures s[at..][i..j] == s[at + i..at + j] && s[at..][j..] == s[at + j..]
  {
  }

  function Pow256(k: nat): (p: nat)
    ensures p > 0
  {
    if k == 0 then 1 else 256 * Pow256(k - 1)
  }

  /** The low `k` bytes of `n`, least significant first (`to_le_bytes`). */
  function LittleEndian(n: nat, k: nat): (bs: seq<byte>)
    ensures |bs| == k
    decreases k
  {
    if k == 0 then [] else [n % 256] + LittleEndian(n / 256, k - 1)
  }

  function FromLittleEndian(bs: seq<byte>): nat {
    if bs == [] then 0 else bs[0] + 256 * FromLittleEndian(bs[1..])
  }

  /** The low `k` bytes of `n`, most significant first (`to_be_bytes`). */
  function BigEndian(n: nat, k: nat): (bs: seq<byte>)
    ensures |bs| == k
    decreases k
  {
    if k == 0 then [] else BigEndian(n / 256, k - 1) + [n % 256]
  }

  function FromBigEndian(bs: seq<byte>): nat {
    if bs == [] then 0 else 256 * FromBigEndian(bs[..|bs| - 1]) + bs[|bs| - 1]
  }

  lemma {:induction false} LittleEndianRoundTrip(n: nat, k: nat)
    requires n < Pow256(k)
    ensures FromLittleEndian(LittleEndian(n, k)) == n
    decreases k
  {
    if k == 0 {
    } else {
      LittleEndianRoundTrip(n / 256, k - 1);
      assert LittleEndian(n, k)[1..] == LittleEndian(n / 256, k - 1);
    }
  }

  lemma {:induction false} BigEndianRoundTrip(n: nat, k: nat)
    requires n < Pow256(k)
    ensures FromBigEndian(BigEndian(n, k)) == n
    decreases k
  {
    if k == 0 {
    } else {
      BigEndianRoundTrip(n / 256, k - 1);
      assert BigEndian(n, k)[..k - 1] == BigEndian(n / 256, k - 1);
    }
  }

  lemma {:induction false} FromLittleEndianRoundTrip(bs: seq<byte>)
    ensures FromLittleEndian(bs) < Pow256(|bs|)
    ensures LittleEndian(FromLittleEndian(bs), |bs|) == bs
  {
    if bs == [] {
    } else {
      FromLittleEndianRoundTrip(bs[1..]);
      var rest := FromLittleEndian(bs[1..]);
      assert (bs[0] + 256 * rest) / 256 == rest;
    }
  }

  /** A 32-bit word and a 64-bit word survive their little-endian encodings. */
  lemma WordRoundTrips()
    ensures Pow256(2) == 0x1_0000 && Pow256(4) == U32_LIMIT && Pow256(8) == U64_LIMIT
    ensures forall n: u16 :: FromLittleEndian(LittleEndian(n, 2)) == n
    ensures forall n: u32 :: FromLittleEndian(LittleEndian(n, 4)) == n
    ensures forall n: u64 :: FromLittleEndian(LittleEndian(n, 8)) == n
    ensures forall n: u32 :: FromBigEndian(BigEndian(n, 4)) == n
  {
    assert Pow256(4) == 256 * (256 * (256 * (256 * Pow256(0))));
    assert Pow256(8) == 256 * (256 * (256 * (256 * Pow256(4))));
    forall n: u16 ensures FromLittleEndian(LittleEndian(n, 2)) == n { LittleEndianRoundTrip(n, 2); }
    forall n: u32 ensures FromLittleEndian(LittleEndian(n, 4)) == n { LittleEndianRoundTrip(n, 4); }
    forall n: u64 ensures FromLittleEndian(LittleEndian(n, 8)) == n { LittleEndianRoundTrip(n, 8); }
    forall n: u32 ensures FromBigEndian(BigEndian(n, 4)) == n { BigEndianRoundTrip(n, 4); }
  }

  /** Reading four bytes always yields a 32-bit word, eight a 64-bit word. */
  lemma WordBounds(bs: seq<byte>)
    ensures |bs| == 2 ==> FromLittleEndian(bs) < 0x1_0000
    ensures |bs| == 4 ==> FromLittleEndian(bs) < U32_LIMIT
    ensures |bs| == 8 ==> FromLittleEndian(bs) < U64_LIMIT
  {
    FromLittleEndianRoundTrip(bs);
    WordRoundTrips();
  }

  // ----- The digits -----

  lemma DivideTwice(n: nat, d: nat, p: nat)
    requires d > 0 && p > 0
    ensures d * p > 0 && n / d / p == n / (d * p)
  {
    var q, r := n / d / p, n / d % p;
    var left := d * r + n % d;
    Monotone(d, r, p - 1);
    assert d * (p - 1) == d * p - d;
    assert n / d == p * q + r;
    assert d * (p * q) == (d * p) * q;
    assert n == d * (p * q + r) + n % d;
    assert d * (p * q + r) == d * (p * q) + d * r;
    QuotientUnique(n, d * p, q, left);
  }

  lemma QuotientUnique(n: nat, d: nat, q: nat, r: nat)
    requires 0 <= r < d && n == d * q + r
    ensures n / d == q && n % d == r
  {
    var q', r' := n / d, n % d;
    assert n == d * q' + r';
    if q' > q {
      assert d * q' >= d * (q + 1) by { Monotone(d, q + 1, q'); }
    } else if q' < q {
      assert d * q >= d * (q' + 1) by { Monotone(d, q' + 1, q); }
    }
  }

  lemma Monotone(d: nat, a: nat, b: nat)
    requires a <= b
    ensures d * a <= d * b
  {
    assert d * b == d * a + d * (b - a);
  }

  /** Byte `i` is the digit of `n` at 256 to the power of `i`. */
  lemma {:induction false} LittleEndianDigits(n: nat, k: nat, i: nat)
    requires i < k
    ensures LittleEndian(n, k)[i] == n / Pow256(i) % 256
    decreases k
  {
    if i > 0 {
      LittleEndianDigits(n / 256, k - 1, i - 1);
      DivideTwice(n, 256, Pow256(i - 1));
    }
  }

  /** Byte `i` is the digit of `n` at 256 to the power of `k - 1 - i`. */
  lemma {:induction false} BigEndianDigits(n: nat, k: nat, i: nat)
    requires i < k
    ensures BigEndian(n, k)[i] == n / Pow256(k - 1 - i) % 256
    decreases k
  {
    if i < k - 1 {
      BigEndianDigits(n / 256, k - 1, i);
      DivideTwice(n, 256, Pow256(k - 2 - i));
    }
  }

  lemma BigEndianBack(rest: seq<byte>, a: byte)
    ensures FromBigEndian(rest + [a]) == 0x100 * FromBigEndian(rest) + a
  {
    assert (rest + [a])[..|rest|] == rest;
  }

  /** Four bytes, the first one counting for 256 cubed. */
  lemma BigEndianWordValue(a: byte, b: byte, c: byte, d: byte)
    ensures FromBigEndian([a, b, c, d]) == a * 0x100_0000 + b * 0x1_0000 + c * 0x100 + d
  {
    BigEndianBack([], a);
    BigEndianBack([a], b);
    BigEndianBack([a, b], c);
    BigEndianBack([a, b, c], d);
    assert [] + [a] == [a] && [a] + [b] == [a, b] && [a, b] + [c] == [a, b, c] && [a, b, c] + [d] == [a, b, c, d];
  }

  lemma LittleEndianFront(a: byte, rest: seq<byte>)
    ensures FromLittleEndian([a] + rest) == a + 0x100 * FromLittleEndian(rest)
  {
    assert ([a] + rest)[1..] == rest;
  }

  /** Two, four and eight bytes, the last one counting most. */
  lemma LittleEndianWordValue(a: byte, b: byte, c: byte, d: byte, e: byte, f: byte, g: byte, h: byte)
    ensures FromLittleEndian([a]) == a && FromLittleEndian([a, b]) == a + b * 0x100
    ensures FromLittleEndian([a, b, c, d]) == a + b * 0x100 + c * 0x1_0000 + d * 0x100_0000
    ensures FromLittleEndian([a, b, c, d, e, f, g, h])
            == a + b * 0x100 + c * 0x1_0000 + d * 0x100_0000
               + 0x1_0000_0000 * (e + f * 0x100 + g * 0x1_0000 + h * 0x100_0000)
  {
    LittleEndianHalf(a, b, c, d, []);
    LittleEndianHalf(e, f, g, h, []);
    LittleEndianHalf(a, b, c, d, [e, f, g, h]);
    assert [a, b, c, d] + [] == [a, b, c, d] && [e, f, g, h] + [] == [e, f, g, h];
    assert [a, b, c, d] + [e, f, g, h] == [a, b, c, d, e, f, g, h];
    LittleEndianFront(b, []);
    LittleEndianFront(a, []);
    LittleEndianFront(a, [b]);
    assert [b] + [] == [b] && [a] + [] == [a] && [a] + [b] == [a, b];
  }

  lemma LittleEndianHalf(a: byte, b: byte, c: byte, d: byte, rest: seq<byte>)
    ensures FromLittleEndian([a, b, c, d] + rest)
            == a + b * 0x100 + c * 0x1_0000 + d * 0x100_0000 + 0x1_0000_0000 * FromLittleEndian(rest)
  {
    LittleEndianFront(d, rest);
    LittleEndianFront(c, [d] + rest);
    LittleEndianFront(b, [c] + ([d] + rest));
    LittleEndianFront(a, [b] + ([c] + ([d] + rest)));
    assert [a, b, c, d] + rest == [a] + ([b] + ([c] + ([d] + rest)));
  }

  // ----- Buffers -----

  /** Writes `bytes` into the buffer from `at` on; the rest stays. */
  method CopyInto(raw: array<byte>, at: nat, bytes: seq<byte>)
    requires at + |bytes| <= raw.Length
    modifies raw
    ensures raw[..at + |bytes|] == old(raw[..at]) + bytes
    ensures raw[at + |bytes|..] == old(raw[at + |bytes|..])
  {
    forall i | 0 <= i < |bytes| {
      raw[at + i] := bytes[i];
    }
  }
}
