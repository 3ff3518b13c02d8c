/** Text in job payloads: fields between separators and decimal numbers, on the bytes of UTF-8
    strings. */
module Payloads {
  import opened Bytes
  import opened RowCodec

  const SEP: byte := 1

  ghost predicate NoSep(s: seq<byte>) { SEP !in s }

  // ----- UTF-8 and ASCII bytes -----

  lemma StepInPrefix(s: seq<byte>, t: seq<byte>)
    requires Utf8Step(s) > 0
    ensures Utf8Step(s + t) == Utf8Step(s)
  {
  }

  lemma StepsOn(s: seq<byte>, n: nat)
    requires 0 < n == Utf8Step(s) && ValidUtf8(s[n..])
    ensures ValidUtf8(s)
  {
  }

  lemma {:induction false} Utf8Concat(s: seq<byte>, t: seq<byte>)
    requires ValidUtf8(s) && ValidUtf8(t)
    ensures ValidUtf8(s + t)
    decreases |s|
  {
    if s == [] {
      assert s + t == t;
    } else {
      var n, st := Utf8Step(s), s + t;
      StepInPrefix(s, t);
      assert st[n..] == s[n..] + t;
      Utf8Concat(s[n..], t);
      StepsOn(st, n);
    }
  }

  lemma {:induction false} AsciiIsUtf8(s: seq<byte>)
    requires forall i :: 0 <= i < |s| ==> s[i] < 0x80
    ensures ValidUtf8(s)
  {
    if s == [] {
    } else {
      AsciiIsUtf8(s[1..]);
    }
  }

  /** An ASCII byte never stands inside a longer sequence. */
  lemma StepSkipsAscii(s: seq<byte>, i: nat)
    requires 0 < i < Utf8Step(s)
    ensures s[i] >= 0x80
  {
  }

  lemma StepOfPrefix(s: seq<byte>, i: nat)
    requires 0 < Utf8Step(s) <= i <= |s|
    ensures Utf8Step(s[..i]) == Utf8Step(s)
  {
  }

  /** Cutting a string at an ASCII byte cuts it between characters. */
  lemma {:induction false} CutAtAscii(s: seq<byte>, i: nat)
    requires ValidUtf8(s) && i < |s| && s[i] < 0x80
    ensures ValidUtf8(s[..i]) && ValidUtf8(s[i + 1..])
    decreases |s|
  {
    var n := Utf8Step(s);
    if i == 0 {
    } else {
      if i < n {
        StepSkipsAscii(s, i);
      }
      CutAtAscii(s[n..], i - n);
      StepOfPrefix(s, i);
      assert s[..i][n..] == s[n..][..i - n] && s[n..][i - n + 1..] == s[i + 1..];
    }
  }

  // ----- Fields -----

  /** The offset of the first separator, or the length. */
  function FirstSep(s: seq<byte>): (i: nat)
    ensures i <= |s| && (i < |s| ==> s[i] == SEP)
    ensures NoSep(s[..i])
  {
    if s == [] || s[0] == SEP then 0
    else
      var i := 1 + FirstSep(s[1..]);
      assert s[..i] == [s[0]] + s[1..][..i - 1];
      i
  }

  function Split(s: seq<byte>): (fields: seq<seq<byte>>)
    ensures fields != []
    decreases |s|
  {
    var i := FirstSep(s);
    if i == |s| then [s] else [s[..i]] + Split(s[i + 1..])
  }

  /** The fields of a string are strings: cutting at the bytes is cutting at the characters. */
  lemma {:induction false} FieldsAreUtf8(s: seq<byte>, k: nat)
    requires ValidUtf8(s) && k < |Split(s)|
    ensures ValidUtf8(Split(s)[k])
    decreases |s|
  {
    var i := FirstSep(s);
    if i == |s| {
    } else {
      CutAtAscii(s, i);
      if k > 0 {
        FieldsAreUtf8(s[i + 1..], k - 1);
      }
    }
  }

  /** A missing field reads as the empty string. */
  function Field(fields: seq<seq<byte>>, i: nat): seq<byte> {
    if i < |fields| then fields[i] else []
  }

  /** A field and what follows it in a payload. */
  function Join(field: seq<byte>, rest: seq<byte>): seq<byte> { field + ([SEP] + rest) }

  lemma JoinIsUtf8(field: seq<byte>, rest: seq<byte>)
    requires ValidUtf8(field) && ValidUtf8(rest)
    ensures ValidUtf8(Join(field, rest))
  {
    AsciiIsUtf8([SEP]);
    Utf8Concat([SEP], rest);
    Utf8Concat(field, [SEP] + rest);
  }

  lemma FirstSepAt(s: seq<byte>, rest: seq<byte>)
    requires NoSep(s)
    ensures FirstSep(s) == |s| && FirstSep(s + ([SEP] + rest)) == |s|
  {
    var whole := s + ([SEP] + rest);
    assert forall k :: 0 <= k < |s| ==> whole[k] == s[k] && s[k] in s;
    assert whole[|s|] == SEP;
    var i := FirstSep(whole);
    assert forall k :: 0 <= k < i ==> whole[k] in whole[..i];
  }

  /** Splitting undoes joining exactly at fields without a separator. */
  lemma SplitJoin(field: seq<byte>, rest: seq<byte>)
    ensures NoSep(field) ==> Split(Join(field, rest)) == [field] + Split(rest)
    ensures Split(Join(field, rest))[0] == field <==> NoSep(field)
  {
    var s := Join(field, rest);
    if NoSep(field) {
      FirstSepAt(field, rest);
      assert s[..|field|] == field && s[|field| + 1..] == rest;
    } else {
      FieldsHaveNoSep(s, 0);
    }
  }

  lemma {:induction false} FieldsHaveNoSep(s: seq<byte>, k: nat)
    requires k < |Split(s)|
    ensures NoSep(Split(s)[k])
    decreases |s|
  {
    var i := FirstSep(s);
    if i == |s| {
      assert s[..i] == s;
    } else if k > 0 {
      FieldsHaveNoSep(s[i + 1..], k - 1);
    }
  }

  lemma FieldHasNoSep(s: seq<byte>, k: nat)
    ensures NoSep(Field(Split(s), k))
  {
    if k < |Split(s)| {
      FieldsHaveNoSep(s, k);
    }
  }

  lemma SplitWhole(s: seq<byte>)
    requires NoSep(s)
    ensures Split(s) == [s]
  {
    FirstSepAt(s, []);
  }

  /** Fields seen from the first and from the second on. */
  lemma FieldsCompose(all: seq<seq<byte>>, behind: seq<seq<byte>>, rest: seq<seq<byte>>, a: seq<byte>, b: seq<byte>)
    requires all != [] && (all[0] == a <==> NoSep(a)) && (NoSep(a) ==> all == [a] + behind)
    requires behind != [] && (behind[0] == b <==> NoSep(b)) && (NoSep(b) ==> behind == [b] + rest)
    ensures Field(all, 0) == a <==> NoSep(a)
    ensures NoSep(a) ==> (Field(all, 1) == b <==> NoSep(b))
    ensures NoSep(a) && NoSep(b) ==> all == [a, b] + rest
  {
  }

  /** Joining two fields and a rest, taken apart again. */
  lemma TwoFields(a: seq<byte>, b: seq<byte>, rest: seq<byte>)
    ensures Field(Split(Join(a, Join(b, rest))), 0) == a <==> NoSep(a)
    ensures NoSep(a) ==> (Field(Split(Join(a, Join(b, rest))), 1) == b <==> NoSep(b))
    ensures NoSep(a) && NoSep(b) ==> Split(Join(a, Join(b, rest))) == [a, b] + Split(rest)
  {
    SplitJoin(a, Join(b, rest));
    SplitJoin(b, rest);
    FieldsCompose(Split(Join(a, Join(b, rest))), Split(Join(b, rest)), Split(rest), a, b);
  }

  // ----- Decimal numbers -----

  predicate IsDigit(b: byte) { 0x30 <= b <= 0x39 }

  /** Decimal digits without leading zeros. */
  function Decimal(n: nat): (s: seq<byte>)
    ensures s != [] && forall i :: 0 <= i < |s| ==> IsDigit(s[i])
  {
    (if n < 10 then [] else Decimal(n / 10)) + [0x30 + n % 10]
  }

  function DigitsValue(s: seq<byte>): Option<nat> {
    if s == [] then Some(0)
    else
      var high, last := DigitsValue(s[..|s| - 1]), s[|s| - 1];
      if high == None || !IsDigit(last) then None else Some(10 * high.value + (last - 0x30))
  }

  /** Decimal digits, optionally behind a plus sign, up to the largest 32-bit word. */
  function ParseU32(s: seq<byte>): Option<u32> {
    var digits := if s != [] && s[0] == 0x2B then s[1..] else s;
    var value := DigitsValue(digits);
    if digits == [] || value == None || value.value >= U32_LIMIT then None else Some(value.value)
  }

  lemma {:induction false} DecimalValue(n: nat)
    ensures DigitsValue(Decimal(n)) == Some(n)
  {
    var s := Decimal(n);
    if n < 10 {
      assert s[..|s| - 1] == [];
    } else {
      DecimalValue(n / 10);
      assert s[..|s| - 1] == Decimal(n / 10);
    }
  }

  function Pow10(k: nat): (p: nat)
    ensures p > 0
  {
    if k == 0 then 1 else 10 * Pow10(k - 1)
  }

  /** The digits as they are written: the digit at 10 to the power of `i` stands `i` places from the
      end, and there are no leading zeros. */
  lemma {:induction false} DecimalDigits(n: nat, i: nat)
    requires i < |Decimal(n)|
    ensures Decimal(n)[|Decimal(n)| - 1 - i] == 0x30 + n / Pow10(i) % 10
    ensures n > 0 ==> Decimal(n)[0] != 0x30
  {
    if n >= 10 {
      DecimalDigits(n / 10, if i == 0 then 0 else i - 1);
      if i > 0 { DivideTwice(n, 10, Pow10(i - 1)); }
    }
  }

  ghost predicate AllZeros(s: seq<byte>) {
    forall i :: 0 <= i < |s| ==> s[i] == 0x30
  }

  lemma {:induction false} ZerosValue(zeros: seq<byte>)
    requires AllZeros(zeros)
    ensures DigitsValue(zeros) == Some(0)
  {
    if zeros == [] {
    } else {
      ZerosValue(zeros[..|zeros| - 1]);
    }
  }

  lemma ValueBack(s: seq<byte>, d: byte)
    ensures DigitsValue(s + [d]) == if DigitsValue(s) == None || !IsDigit(d) then None else Some(10 * DigitsValue(s).value + (d - 0x30))
  {
    assert (s + [d])[..|s|] == s;
  }

  lemma {:induction false} PaddedValue(zeros: seq<byte>, n: nat)
    requires AllZeros(zeros)
    ensures DigitsValue(zeros + Decimal(n)) == Some(n)
  {
    var front := if n < 10 then [] else Decimal(n / 10);
    if n < 10 {
      ZerosValue(zeros);
      assert zeros + [] == zeros;
    } else {
      PaddedValue(zeros, n / 10);
    }
    assert zeros + Decimal(n) == zeros + front + [0x30 + n % 10];
    ValueBack(zeros + front, 0x30 + n % 10);
  }

  /** A digit string is its value in decimal behind some zeros. */
  lemma {:induction false} Padding(s: seq<byte>) returns (zeros: seq<byte>)
    requires s != [] && DigitsValue(s).Some?
    ensures AllZeros(zeros) && s == zeros + Decimal(DigitsValue(s).value)
  {
    var front, last := s[..|s| - 1], s[|s| - 1];
    assert s == front + [last];
    if front == [] {
      zeros := [];
    } else {
      var high := DigitsValue(front).value;
      var shorter := Padding(front);
      if high == 0 {
        zeros := front;
        assert shorter + [0x30] == front;
      } else {
        zeros := shorter;
        assert (10 * high + (last - 0x30)) / 10 == high;
        assert shorter + Decimal(high) + [last] == shorter + (Decimal(high) + [last]);
      }
    }
  }

  /** The texts that read as a 32-bit word: an optional plus sign, any number of zeros, and the word. */
  lemma ParsesIff(s: seq<byte>, n: u32)
    ensures ParseU32(s) == Some(n) <==>
              exists zeros :: AllZeros(zeros) && (s == zeros + Decimal(n) || s == [0x2B] + (zeros + Decimal(n)))
  {
    var digits := if s != [] && s[0] == 0x2B then s[1..] else s;
    if ParseU32(s) == Some(n) {
      var zeros := Padding(digits);
      assert s[0] == 0x2B ==> s == [0x2B] + digits;
    }
    if zeros :| AllZeros(zeros) && (s == zeros + Decimal(n) || s == [0x2B] + (zeros + Decimal(n))) {
      PaddedValue(zeros, n);
      var text := zeros + Decimal(n);
      assert text[0] != 0x2B by { assert text[0] == if zeros == [] then Decimal(n)[0] else zeros[0]; }
      assert digits == text;
    }
  }

  lemma DecimalRoundTrip(n: u32)
    ensures ParseU32(Decimal(n)) == Some(n) && NoSep(Decimal(n))
  {
    DecimalValue(n);
  }
}
