/** The row codec of the database: little-endian scalars, length-prefixed strings, and a presence
    byte in front of optional values. */
module RowCodec {
  import opened Bytes

  // ----- Strings -----

  predicate Continuation(b: byte) { 0x80 <= b < 0xC0 }

  /** The length of the well-formed UTF-8 sequence (table 3-7 of the Unicode standard) that starts
      `s`, or 0. */
  function Utf8Step(s: seq<byte>): (n: nat)
    ensures n <= |s|
  {
    if s == [] then 0
    else if s[0] < 0x80 then 1
    else if |s| < 2 then 0
    else if 0xC2 <= s[0] < 0xE0 && Continuation(s[1]) then 2
    else if |s| < 3 || !Continuation(s[2]) then 0
    else if || (s[0] == 0xE0 && 0xA0 <= s[1] < 0xC0)
            || (0xE1 <= s[0] < 0xF0 && s[0] != 0xED && Continuation(s[1]))
            || (s[0] == 0xED && 0x80 <= s[1] < 0xA0) then 3
    else if |s| < 4 || !Continuation(s[3]) then 0
    else if || (s[0] == 0xF0 && 0x90 <= s[1] < 0xC0)
            || (0xF1 <= s[0] < 0xF4 && Continuation(s[1]))
            || (s[0] == 0xF4 && 0x80 <= s[1] < 0x90) then 4
    else 0
  }

  predicate ValidUtf8(s: seq<byte>) {
    s == [] || (Utf8Step(s) > 0 && ValidUtf8(s[Utf8Step(s)..]))
  }

  /** A string, as the bytes that encode it. */
  type Utf8 = s: seq<byte> | ValidUtf8(s)

  /** The Unicode scalar values: all code points but the surrogates. */
  predicate IsScalar(c: nat) { c < 0xD800 || 0xE000 <= c < 0x11_0000 }

  /** The bytes of a scalar value, six bits in each byte but the first. */
  function EncodeScalar(c: nat): (s: seq<byte>)
    requires IsScalar(c)
    ensures s != []
  {
    if c < 0x80 then [c]
    else if c < 0x800 then [0xC0 + c / 0x40, 0x80 + c % 0x40]
    else if c < 0x1_0000 then [0xE0 + c / 0x1000, 0x80 + c / 0x40 % 0x40, 0x80 + c % 0x40]
    else [0xF0 + c / 0x4_0000, 0x80 + c / 0x1000 % 0x40, 0x80 + c / 0x40 % 0x40, 0x80 + c % 0x40]
  }

  predicate AllScalars(text: seq<nat>) {
    forall i :: 0 <= i < |text| ==> IsScalar(text[i])
  }

  function EncodeText(text: seq<nat>): seq<byte>
    requires AllScalars(text)
  {
    if text == [] then [] else EncodeScalar(text[0]) + EncodeText(text[1..])
  }

  lemma ScalarStep(c: nat, rest: seq<byte>)
    requires IsScalar(c)
    ensures Utf8Step(EncodeScalar(c) + rest) == |EncodeScalar(c)|
  {
    var s := EncodeScalar(c) + rest;
    assert forall i :: 0 <= i < |EncodeScalar(c)| ==> s[i] == EncodeScalar(c)[i];
    if c >= 0x1_0000 { LeadBytes(c); }
  }

  lemma LeadBytes(c: nat)
    requires 0x1_0000 <= c < 0x11_0000
    ensures c / 0x4_0000 <= 4 && (c / 0x4_0000 == 0 ==> c / 0x1000 % 0x40 >= 0x10) && (c / 0x4_0000 == 4 ==> c / 0x1000 % 0x40 < 0x10)
  {
  }

  /** Digits to the base 64. */
  lemma SixBits(a: nat, b: nat, d: nat, e: nat)
    requires b < 0x40 && d < 0x40 && e < 0x40
    ensures var c := a * 0x4_0000 + b * 0x1000 + d * 0x40 + e;
            c / 0x4_0000 == a && c / 0x1000 % 0x40 == b && c / 0x40 % 0x40 == d && c % 0x40 == e
  {
    var c, high, higher := a * 0x4_0000 + b * 0x1000 + d * 0x40 + e, a * 0x1000 + b * 0x40 + d, a * 0x40 + b;
    QuotientUnique(c, 0x40, high, e);
    QuotientUnique(high, 0x40, higher, d);
    QuotientUnique(c, 0x1000, higher, d * 0x40 + e);
    QuotientUnique(higher, 0x40, a, b);
    QuotientUnique(c, 0x4_0000, a, b * 0x1000 + d * 0x40 + e);
  }

  lemma TwoBytes(s: seq<byte>, lead: nat, b: nat)
    requires Utf8Step(s) == 2 && s[0] == 0xC0 + lead && s[1] == 0x80 + b
    ensures IsScalar(lead * 0x40 + b) && EncodeScalar(lead * 0x40 + b) == s[..2]
  {
    SixBits(0, 0, lead, b);
  }

  lemma ThreeBytes(s: seq<byte>, lead: nat, b: nat, d: nat)
    requires Utf8Step(s) == 3 && s[0] == 0xE0 + lead && s[1] == 0x80 + b && s[2] == 0x80 + d
    ensures var c := lead * 0x1000 + b * 0x40 + d; IsScalar(c) && EncodeScalar(c) == s[..3]
  {
    var c := lead * 0x1000 + b * 0x40 + d;
    SixBits(0, lead, b, d);
    assert 0x800 <= c < 0x1_0000 && c / 0x1000 == lead;
    assert EncodeScalar(c) == [0xE0 + lead, 0x80 + b, 0x80 + d];
  }

  lemma FourBytes(s: seq<byte>, lead: nat, b: nat, d: nat, e: nat)
    requires Utf8Step(s) == 4 && s[0] == 0xF0 + lead && s[1] == 0x80 + b && s[2] == 0x80 + d && s[3] == 0x80 + e
    ensures var c := lead * 0x4_0000 + b * 0x1000 + d * 0x40 + e; IsScalar(c) && EncodeScalar(c) == s[..4]
  {
    var c := lead * 0x4_0000 + b * 0x1000 + d * 0x40 + e;
    SixBits(lead, b, d, e);
    assert 0x1_0000 <= c < 0x11_0000;
    assert EncodeScalar(c) == [0xF0 + lead, 0x80 + b, 0x80 + d, 0x80 + e];
  }

  lemma StepScalar(s: seq<byte>) returns (c: nat)
    requires Utf8Step(s) > 0
    ensures IsScalar(c) && EncodeScalar(c) == s[..Utf8Step(s)]
  {
    var n, lead: int := Utf8Step(s), s[0];
    var b: int := if n > 1 then s[1] - 0x80 else 0;
    if n == 1 {
      c := lead;
    } else if n == 2 {
      TwoBytes(s, lead - 0xC0, b);
      c := (lead - 0xC0) * 0x40 + b;
    } else if n == 3 {
      var d: int := s[2] - 0x80;
      ThreeBytes(s, lead - 0xE0, b, d);
      c := (lead - 0xE0) * 0x1000 + b * 0x40 + d;
    } else {
      var d: int, e: int := s[2] - 0x80, s[3] - 0x80;
      FourBytes(s, lead - 0xF0, b, d, e);
      c := (lead - 0xF0) * 0x4_0000 + b * 0x1000 + d * 0x40 + e;
    }
  }

  lemma {:induction false} TextIsValid(text: seq<nat>)
    requires AllScalars(text)
    ensures ValidUtf8(EncodeText(text))
  {
    if text == [] {
    } else {
      var first, rest := EncodeScalar(text[0]), EncodeText(text[1..]);
      ScalarStep(text[0], rest);
      TextIsValid(text[1..]);
      assert (first + rest)[|first|..] == rest;
    }
  }

  lemma TextFront(c: nat, rest: seq<nat>)
    requires IsScalar(c) && AllScalars(rest)
    ensures AllScalars([c] + rest) && EncodeText([c] + rest) == EncodeScalar(c) + EncodeText(rest)
  {
    assert ([c] + rest)[1..] == rest;
  }

  lemma Peel(s: seq<byte>) returns (c: nat, tail: seq<byte>)
    requires s != [] && ValidUtf8(s)
    ensures IsScalar(c) && s == EncodeScalar(c) + tail && ValidUtf8(tail)
  {
    var n := Utf8Step(s);
    c := StepScalar(s);
    tail := s[n..];
    assert s == s[..n] + s[n..];
  }

  lemma {:induction false} ValidIsText(s: seq<byte>) returns (text: seq<nat>)
    requires ValidUtf8(s)
    ensures AllScalars(text) && EncodeText(text) == s
    decreases |s|
  {
    if s == [] {
      text := [];
    } else {
      var c, tail := Peel(s);
      var rest := ValidIsText(tail);
      text := [c] + rest;
      TextFront(c, rest);
    }
  }

  /** The valid strings are the encodings of sequences of Unicode scalar values. */
  lemma ValidUtf8Iff(s: seq<byte>)
    ensures ValidUtf8(s) <==> exists text :: AllScalars(text) && EncodeText(text) == s
  {
    if ValidUtf8(s) {
      var text := ValidIsText(s);
    }
    if text :| AllScalars(text) && EncodeText(text) == s {
      TextIsValid(text);
    }
  }

  // ----- Reading -----

  /** One decoding step: the value read and the offset behind it. */
  datatype Step<+T> = Got(value: T, pos: nat) | Bad {
    predicate IsFailure() { Bad? }
    function PropagateFailure<U>(): Step<U> requires Bad? { Bad }
    function Extract(): (T, nat) requires Got? { (value, pos) }
  }

  function Take(data: seq<byte>, pos: nat, n: nat): Step<seq<byte>> {
    if pos + n > |data| then Bad else Got(data[pos..pos + n], pos + n)
  }

  function GetU8(data: seq<byte>, pos: nat): Step<byte> {
    var (b, pos) :- Take(data, pos, 1);
    Got(b[0], pos)
  }

  function GetU16(data: seq<byte>, pos: nat): Step<u16> {
    var (b, pos) :- Take(data, pos, 2);
    WordBounds(b);
    Got(FromLittleEndian(b), pos)
  }

  function GetU32(data: seq<byte>, pos: nat): Step<u32> {
    var (b, pos) :- Take(data, pos, 4);
    WordBounds(b);
    Got(FromLittleEndian(b), pos)
  }

  /** Also reads the bits of a double. */
  function GetU64(data: seq<byte>, pos: nat): Step<u64> {
    var (b, pos) :- Take(data, pos, 8);
    WordBounds(b);
    Got(FromLittleEndian(b), pos)
  }

  function GetBytes(data: seq<byte>, pos: nat): Step<seq<byte>> {
    var (n, pos) :- GetU32(data, pos);
    Take(data, pos, n)
  }

  function GetStr(data: seq<byte>, pos: nat): Step<Utf8> {
    var (b, pos) :- GetBytes(data, pos);
    if ValidUtf8(b) then Got(b, pos) else Bad
  }

  /** Any flag but 1 means absent. */
  function GetOpt<T>(get: (seq<byte>, nat) -> Step<T>, data: seq<byte>, pos: nat): Step<Option<T>> {
    var (flag, pos) :- GetU8(data, pos);
    if flag == 1 then
      var (v, pos) :- get(data, pos);
      Got(Some(v), pos)
    else Got(None, pos)
  }

  /** Presence: 1 means that a value follows, any other byte that there is none. */
  lemma PresenceByte<T>(get: (seq<byte>, nat) -> Step<T>, data: seq<byte>, pos: nat)
    ensures GetOpt(get, data, pos) == Got(None, pos + 1) <==> pos < |data| && data[pos] != 1
    ensures GetOpt(get, data, pos).Got? && GetOpt(get, data, pos).value.Some? ==>
              pos < |data| && data[pos] == 1 && get(data, pos + 1) == Got(GetOpt(get, data, pos).value.value, GetOpt(get, data, pos).pos)
  {
  }

  // ----- Writing at the end of a buffer -----

  function PutU8(buf: seq<byte>, v: byte): seq<byte> { buf + [v] }

  function PutU16(buf: seq<byte>, v: u16): seq<byte> { buf + LittleEndian(v, 2) }

  function PutU32(buf: seq<byte>, v: u32): seq<byte> { buf + LittleEndian(v, 4) }

  function PutU64(buf: seq<byte>, v: u64): seq<byte> { buf + LittleEndian(v, 8) }

  /** The length is cut to 32 bits, the bytes are not. */
  function PutBytes(buf: seq<byte>, v: seq<byte>): seq<byte> { PutU32(buf, |v| % U32_LIMIT) + v }

  function PutOpt<T>(put: (seq<byte>, T) -> seq<byte>, buf: seq<byte>, v: Option<T>): seq<byte> {
    if v.Some? then put(PutU8(buf, 1), v.value) else PutU8(buf, 0)
  }

  /** A string or byte string on disk: four bytes of length, then the bytes. */
  function Framed(v: seq<byte>): seq<byte> { LittleEndian(|v| % U32_LIMIT, 4) + v }

  lemma PutBytesAppends(buf: seq<byte>, v: seq<byte>)
    ensures PutBytes(buf, v) == buf + Framed(v)
  {
  }

  lemma Associates(a: seq<byte>, b: seq<byte>, c: seq<byte>)
    ensures a + b + c == a + (b + c)
  {
  }

  /** An optional word on disk. */
  function OptWord(v: Option<u64>): seq<byte> {
    if v.Some? then [1] + LittleEndian(v.value, 8) else [0]
  }

  lemma PutOptWordAppends(buf: seq<byte>, v: Option<u64>)
    ensures PutOpt(PutU64, buf, v) == buf + OptWord(v)
  {
    if v.Some? { Associates(buf, [1], LittleEndian(v.value, 8)); }
  }

  predicate Short(v: seq<byte>) { |v| < U32_LIMIT }

  // ----- Reading undoes writing -----

  /** In any row that continues the buffer, reading where `v` was written yields `v` and stops
      where writing stopped. */
  ghost predicate Undoes<T>(step: Step<T>, buf: seq<byte>, v: T, after: seq<byte>, row: seq<byte>) {
    buf <= row && step == Got(v, |after|)
  }

  lemma TakeUndoes(buf: seq<byte>, v: seq<byte>, row: seq<byte>)
    requires buf + v <= row
    ensures Undoes(Take(row, |buf|, |v|), buf, v, buf + v, row)
  {
    assert row[..|buf + v|] == buf + v;
  }

  lemma U8Undoes(buf: seq<byte>, v: byte, row: seq<byte>)
    requires PutU8(buf, v) <= row
    ensures Undoes(GetU8(row, |buf|), buf, v, PutU8(buf, v), row)
  {
    TakeUndoes(buf, [v], row);
  }

  lemma U16Undoes(buf: seq<byte>, v: u16, row: seq<byte>)
    requires PutU16(buf, v) <= row
    ensures Undoes(GetU16(row, |buf|), buf, v, PutU16(buf, v), row)
  {
    TakeUndoes(buf, LittleEndian(v, 2), row);
    WordRoundTrips();
  }

  lemma U32Undoes(buf: seq<byte>, v: u32, row: seq<byte>)
    requires PutU32(buf, v) <= row
    ensures Undoes(GetU32(row, |buf|), buf, v, PutU32(buf, v), row)
  {
    TakeUndoes(buf, LittleEndian(v, 4), row);
    WordRoundTrips();
  }

  lemma U64Undoes(buf: seq<byte>, v: u64, row: seq<byte>)
    requires PutU64(buf, v) <= row
    ensures Undoes(GetU64(row, |buf|), buf, v, PutU64(buf, v), row)
  {
    TakeUndoes(buf, LittleEndian(v, 8), row);
    WordRoundTrips();
  }

  lemma FrontIsPrefix(front: seq<byte>, v: seq<byte>, row: seq<byte>)
    requires front + v <= row
    ensures front <= row
  {
    assert row[..|front|] == (front + v)[..|front|];
  }

  lemma ShortFrame(buf: seq<byte>, v: seq<byte>)
    requires Short(v)
    ensures PutBytes(buf, v) == PutU32(buf, |v|) + v
  {
    assert |v| % U32_LIMIT == |v| by { FitsWord(|v|); }
  }

  lemma FitsWord(n: nat)
    requires n < U32_LIMIT
    ensures n % U32_LIMIT == n
  {
  }

  lemma BytesSteps(row: seq<byte>, p0: nat, n: u32, p1: nat, v: seq<byte>, p2: nat)
    requires GetU32(row, p0) == Got(n, p1) && Take(row, p1, n) == Got(v, p2)
    ensures GetBytes(row, p0) == Got(v, p2)
  {
  }

  lemma BytesUndo(buf: seq<byte>, v: seq<byte>, row: seq<byte>)
    requires Short(v) && PutBytes(buf, v) <= row
    ensures Undoes(GetBytes(row, |buf|), buf, v, PutBytes(buf, v), row)
  {
    var front := PutU32(buf, |v|);
    ShortFrame(buf, v);
    FrontIsPrefix(front, v, row);
    FrontIsPrefix(buf, LittleEndian(|v|, 4), row);
    U32Undoes(buf, |v|, row);
    TakeUndoes(front, v, row);
    BytesSteps(row, |buf|, |v|, |front|, v, |front + v|);
  }

  lemma StrUndoes(buf: seq<byte>, v: Utf8, row: seq<byte>)
    requires Short(v) && PutBytes(buf, v) <= row
    ensures Undoes(GetStr(row, |buf|), buf, v, PutBytes(buf, v), row)
  {
    BytesUndo(buf, v, row);
  }

  lemma OptUndoes<T>(get: (seq<byte>, nat) -> Step<T>, put: (seq<byte>, T) -> seq<byte>,
                     buf: seq<byte>, v: Option<T>, row: seq<byte>)
    requires PutOpt(put, buf, v) <= row
    requires v.Some? ==>
               Undoes(get(row, |buf| + 1), PutU8(buf, 1), v.value, put(PutU8(buf, 1), v.value), row)
    ensures Undoes(GetOpt(get, row, |buf|), buf, v, PutOpt(put, buf, v), row)
  {
    U8Undoes(buf, if v.Some? then 1 else 0, row);
  }

  lemma OptU64Undoes(buf: seq<byte>, v: Option<u64>, row: seq<byte>)
    requires PutOpt(PutU64, buf, v) <= row
    ensures Undoes(GetOpt(GetU64, row, |buf|), buf, v, PutOpt(PutU64, buf, v), row)
  {
    if v.Some? {
      U64Undoes(PutU8(buf, 1), v.value, row);
    }
    OptUndoes(GetU64, PutU64, buf, v, row);
  }

  lemma StrIsShort(row: seq<byte>, pos: nat)
    requires GetStr(row, pos).Got?
    ensures Short(GetStr(row, pos).value)
  {
  }

  // ----- Reading is local -----

  /** What is read inside a row does not depend on the bytes behind the row. */
  ghost predicate Same<T>(step: Step<T>, longer: Step<T>, row: seq<byte>) {
    step.Got? ==> step.pos <= |row| && longer == step
  }

  ghost predicate Local<T(!new)>(get: (seq<byte>, nat) -> Step<T>, row: seq<byte>, longer: seq<byte>) {
    forall pos: nat :: Same(get(row, pos), get(longer, pos), row)
  }

  lemma TakeLocal(row: seq<byte>, longer: seq<byte>, pos: nat, n: nat)
    requires row <= longer
    ensures Same(Take(row, pos, n), Take(longer, pos, n), row)
  {
    if pos + n <= |row| {
      assert longer[..|row|] == row;
      assert longer[..|row|][pos..pos + n] == longer[pos..pos + n];
      assert Take(longer, pos, n) == Take(row, pos, n);
    }
  }

  lemma WordsLocal(row: seq<byte>, longer: seq<byte>)
    requires row <= longer
    ensures Local(GetU8, row, longer) && Local(GetU16, row, longer)
    ensures Local(GetU32, row, longer) && Local(GetU64, row, longer)
  {
    forall pos: nat ensures Same(GetU8(row, pos), GetU8(longer, pos), row) { TakeLocal(row, longer, pos, 1); }
    forall pos: nat ensures Same(GetU16(row, pos), GetU16(longer, pos), row) { TakeLocal(row, longer, pos, 2); }
    forall pos: nat ensures Same(GetU32(row, pos), GetU32(longer, pos), row) { TakeLocal(row, longer, pos, 4); }
    forall pos: nat ensures Same(GetU64(row, pos), GetU64(longer, pos), row) { TakeLocal(row, longer, pos, 8); }
  }

  lemma StrLocal(row: seq<byte>, longer: seq<byte>)
    requires row <= longer
    ensures Local(GetBytes, row, longer) && Local(GetStr, row, longer)
  {
    forall pos: nat ensures Same(GetBytes(row, pos), GetBytes(longer, pos), row) {
      TakeLocal(row, longer, pos, 4);
      if GetU32(row, pos).Got? {
        TakeLocal(row, longer, pos + 4, GetU32(row, pos).value);
      }
    }
  }

  lemma OptLocal<T(!new)>(get: (seq<byte>, nat) -> Step<T>, row: seq<byte>, longer: seq<byte>, pos: nat)
    requires row <= longer && Local(get, row, longer)
    ensures Same(GetOpt(get, row, pos), GetOpt(get, longer, pos), row)
  {
    TakeLocal(row, longer, pos, 1);
    assert Same(get(row, pos + 1), get(longer, pos + 1), row);
  }

  // ----- The encoder and the decoder -----

  class Enc {
    var buf: seq<byte>

    constructor ()
      ensures buf == []
    {
      buf := [];
    }

    method U8(v: byte)
      modifies this
      ensures buf == PutU8(old(buf), v)
    {
      buf := buf + [v];
    }

    method U16(v: u16)
      modifies this
      ensures buf == PutU16(old(buf), v)
    {
      buf := buf + LittleEndian(v, 2);
    }

    method U32(v: u32)
      modifies this
      ensures buf == PutU32(old(buf), v)
    {
      buf := buf + LittleEndian(v, 4);
    }

    /** Also writes the bits of a double. */
    method U64(v: u64)
      modifies this
      ensures buf == PutU64(old(buf), v)
    {
      buf := buf + LittleEndian(v, 8);
    }

    method Bytes(v: seq<byte>)
      modifies this
      ensures buf == PutBytes(old(buf), v)
    {
      U32(|v| % U32_LIMIT);
      buf := buf + v;
    }

    method OptU64(v: Option<u64>)
      modifies this
      ensures buf == PutOpt(PutU64, old(buf), v)
    {
      match v
      case Some(n) =>
        U8(1);
        U64(n);
      case None =>
        U8(0);
    }
  }

  class Dec {
    const data: seq<byte>
    var pos: nat

    /** The method's result is that of the decoding step, and the cursor stands behind it. */
    ghost predicate Took<T>(step: Step<T>, r: Result<T>)
      reads this
    {
      if r.Ok? then step == Got(r.value, pos) else step == Bad
    }

    constructor (data: seq<byte>)
      ensures this.data == data && pos == 0
    {
      this.data, pos := data, 0;
    }

    method TakeBytes(n: nat) returns (r: Result<seq<byte>>)
      modifies this
      ensures Took(Take(data, old(pos), n), r)
    {
      var end := pos + n;
      if end > |data| {
        return Err;
      }
      r := Ok(data[pos..end]);
      pos := end;
    }

    method U8() returns (r: Result<byte>)
      modifies this
      ensures Took(GetU8(data, old(pos)), r)
    {
      var b :- TakeBytes(1);
      r := Ok(b[0]);
    }

    method U16() returns (r: Result<u16>)
      modifies this
      ensures Took(GetU16(data, old(pos)), r)
    {
      var b :- TakeBytes(2);
      WordBounds(b);
      r := Ok(FromLittleEndian(b));
    }

    method U32() returns (r: Result<u32>)
      modifies this
      ensures Took(GetU32(data, old(pos)), r)
    {
      var b :- TakeBytes(4);
      WordBounds(b);
      r := Ok(FromLittleEndian(b));
    }

    method U64() returns (r: Result<u64>)
      modifies this
      ensures Took(GetU64(data, old(pos)), r)
    {
      var b :- TakeBytes(8);
      WordBounds(b);
      r := Ok(FromLittleEndian(b));
    }

    method Bytes() returns (r: Result<seq<byte>>)
      modifies this
      ensures Took(GetBytes(data, old(pos)), r)
    {
      var n :- U32();
      r := TakeBytes(n);
    }

    method Str() returns (r: Result<Utf8>)
      modifies this
      ensures Took(GetStr(data, old(pos)), r)
    {
      var b :- Bytes();
      r := if ValidUtf8(b) then Ok(b) else Err;
    }

    method OptU64() returns (r: Result<Option<u64>>)
      modifies this
      ensures Took(GetOpt(GetU64, data, old(pos)), r)
    {
      var flag :- U8();
      if flag == 1 {
        var v :- U64();
        r := Ok(Some(v));
      } else {
        r := Ok(None);
      }
    }

    method IsEmpty() returns (empty: bool)
      ensures empty <==> pos >= |data|
    {
      empty := pos >= |data|;
    }
  }
}
