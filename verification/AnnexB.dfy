/** H.264 samples: AVCC length prefixes into Annex-B start codes, and the splitter that takes an
    Annex-B byte stream (section B.1 of ITU-T H.264) apart again. */
module AnnexB {
  import opened Bytes

  type Nal = seq<byte>

  const START_CODE: seq<byte> := [0, 0, 0, 1]

  // ----- AVCC to Annex-B -----

  function After(out: seq<byte>, rest: Result<seq<byte>>): Result<seq<byte>> {
    if rest.Ok? then Ok(out + rest.value) else Err
  }

  /** Each length-prefixed unit becomes a start code and the unit; up to three bytes left over at
      the end are ignored. */
  function Convert(data: seq<byte>): Result<seq<byte>>
    decreases |data|
  {
    if |data| < 4 then Ok([])
    else
      var len := FromBigEndian(data[..4]);
      if 4 + len > |data| then Err
      else
        After(START_CODE + data[4..4 + len], Convert(data[4 + len..]))
  }

  function Converted(data: seq<byte>): Result<seq<byte>> {
    var out :- Convert(data);
    if out == [] then Err else Ok(out)
  }

  lemma AfterJoins(a: seq<byte>, b: seq<byte>, rest: Result<seq<byte>>)
    ensures After([], rest) == rest
    ensures After(a, After(b, rest)) == After(a + b, rest)
  {
    if rest.Ok? {
      assert [] + rest.value == rest.value;
      assert a + (b + rest.value) == a + b + rest.value;
    }
  }

  lemma ConvertAt(data: seq<byte>, i: nat)
    requires i + 4 <= |data|
    ensures var next := i + 4 + FromBigEndian(data[i..i + 4]);
            Convert(data[i..]) == if next > |data| then Err else After(START_CODE + data[i + 4..next], Convert(data[next..]))
  {
    var left, next := data[i..], i + 4 + FromBigEndian(data[i..i + 4]);
    assert left[..4] == data[i..i + 4];
    if next <= |data| { TailSlices(data, i, 4, next - i); }
  }

  lemma ConvertEnds(data: seq<byte>, i: nat)
    requires |data| - 4 < i <= |data|
    ensures Convert(data[i..]) == Ok([])
  {
  }

  method AvccToAnnexb(data: seq<byte>) returns (result: Result<seq<byte>>)
    ensures result == Converted(data)
  {
    var out: seq<byte> := [];
    var i := 0;
    assert data[0..] == data;
    AfterJoins([], [], Convert(data));
    while i + 4 <= |data|
      invariant 0 <= i <= |data|
      invariant Convert(data) == After(out, Convert(data[i..]))
    {
      var len := FromBigEndian(data[i..i + 4]);
      ConvertAt(data, i);
      i := i + 4;
      if i + len > |data| {
        return Err;
      }
      AfterJoins(out, START_CODE + data[i..i + len], Convert(data[i + len..]));
      assert out + (START_CODE + data[i..i + len]) == out + START_CODE + data[i..i + len];
      out := out + [0, 0, 0, 1];
      out := out + data[i..i + len];
      i := i + len;
    }
    ConvertEnds(data, i);
    assert out + [] == out;
    if out == [] {
      return Err;
    }
    result := Ok(out);
  }

  // ----- Splitting Annex-B -----

  predicate AtShortCode(data: seq<byte>) {
    |data| >= 3 && data[0] == 0 && data[1] == 0 && data[2] == 1
  }

  predicate AtLongCode(data: seq<byte>) {
    |data| >= 4 && data[0] == 0 && data[1] == 0 && data[2] == 0 && data[3] == 1
  }

  function Flush(current: Option<Nal>): seq<Nal> {
    if current.Some? && current.value != [] then [current.value] else []
  }

  /** The units in `data`, given the unit being collected before it. */
  function Units(data: seq<byte>, current: Option<Nal>): seq<Nal>
    decreases |data|
  {
    if data == [] then Flush(current)
    else if AtShortCode(data) then Flush(current) + Units(data[3..], Some([]))
    else if AtLongCode(data) then Flush(current) + Units(data[4..], Some([]))
    else Units(data[1..], if current.Some? then Some(current.value + [data[0]]) else None)
  }

  method SplitAnnexb(data: seq<byte>) returns (nals: seq<Nal>)
    ensures nals == Units(data, None)
  {
    nals := [];
    var current: Option<Nal> := None;
    var i := 0;
    while i < |data|
      invariant 0 <= i <= |data|
      invariant nals + Units(data[i..], current) == Units(data, None)
    {
      if i + 3 <= |data| && data[i] == 0 && data[i + 1] == 0 && data[i + 2] == 1 {
        assert AtShortCode(data[i..]) && data[i..][3..] == data[i + 3..];
        if current.Some? && current.value != [] {
          nals := nals + [current.value];
        }
        current := Some([]);
        i := i + 3;
      } else if i + 4 <= |data| && data[i] == 0 && data[i + 1] == 0 && data[i + 2] == 0 && data[i + 3] == 1 {
        assert AtLongCode(data[i..]) && data[i..][4..] == data[i + 4..];
        if current.Some? && current.value != [] {
          nals := nals + [current.value];
        }
        current := Some([]);
        i := i + 4;
      } else {
        assert data[i..][1..] == data[i + 1..];
        if current.Some? {
          current := Some(current.value + [data[i]]);
        }
        i := i + 1;
      }
    }
    if current.Some? && current.value != [] {
      nals := nals + [current.value];
    }
  }

  // ----- The round trip -----

  /** An AVCC sample: every unit behind its 4-byte big-endian length. */
  function Pack(nals: seq<Nal>): seq<byte> {
    if nals == [] then [] else BigEndian(|nals[0]|, 4) + nals[0] + Pack(nals[1..])
  }

  /** An Annex-B stream: every unit behind a start code. */
  function Stream(nals: seq<Nal>): seq<byte> {
    if nals == [] then [] else START_CODE + nals[0] + Stream(nals[1..])
  }

  ghost predicate Prefixable(nals: seq<Nal>) {
    forall i :: 0 <= i < |nals| ==> |nals[i]| < U32_LIMIT
  }

  lemma {:induction false} PackConverts(nals: seq<Nal>, junk: seq<byte>)
    requires Prefixable(nals) && |junk| < 4
    ensures Convert(Pack(nals) + junk) == Ok(Stream(nals))
  {
    if nals == [] {
      assert Pack(nals) + junk == junk;
    } else {
      var n := |nals[0]|;
      var data := Pack(nals) + junk;
      var head, tail := BigEndian(n, 4), Pack(nals[1..]) + junk;
      Regroup(head, nals[0], Pack(nals[1..]), junk);
      ThreeParts(head, nals[0], tail);
      WordRoundTrips();
      PackConverts(nals[1..], junk);
    }
  }

  /** Exactly what is accepted: one or more units, and at most three stray bytes behind them. */
  lemma AcceptedIff(data: seq<byte>)
    ensures Converted(data).Ok? <==>
              exists nals, junk :: nals != [] && Prefixable(nals) && |junk| < 4 && data == Pack(nals) + junk
  {
    if Converted(data).Ok? {
      var nals, junk := Parse(data);
      assert nals != [];
    }
    if nals, junk :| nals != [] && Prefixable(nals) && |junk| < 4 && data == Pack(nals) + junk {
      PackConverts(nals, junk);
      assert Stream(nals)[3] == 1;
    }
  }

  /** The length in the four bytes at `at`, the first of them counting most. */
  function LengthAt(data: seq<byte>, at: nat): nat
    requires at + 4 <= |data|
  {
    var (a: int, b: int, c: int, d: int) := (data[at], data[at + 1], data[at + 2], data[at + 3]);
    a * 0x100_0000 + b * 0x1_0000 + c * 0x100 + d
  }

  /** Places in a sample: behind each of them stand four length bytes and as many bytes as they say,
      up to the next place; fewer than four bytes are left behind the last one. */
  ghost predicate Places(data: seq<byte>, at: seq<nat>) {
    && at != [] && |data| - 4 < at[|at| - 1] <= |data|
    && forall k :: 0 <= k < |at| - 1 ==> at[k] + 4 <= |data| && at[k + 1] == at[k] + 4 + LengthAt(data, at[k])
  }

  /** One unit of a sample, by the bytes of its prefix. */
  lemma ConvertByPrefix(data: seq<byte>, i: nat)
    requires i + 4 <= |data|
    ensures var next := i + 4 + LengthAt(data, i);
            && (Convert(data[i..]).Ok? <==> next <= |data| && Convert(data[next..]).Ok?)
            && (Convert(data[i..]).Ok? ==>
                  Convert(data[i..]).value == [0, 0, 0, 1] + data[i + 4..next] + Convert(data[next..]).value)
  {
    var left, next := data[i..], i + 4 + LengthAt(data, i);
    assert left[..4] == [data[i], data[i + 1], data[i + 2], data[i + 3]];
    BigEndianWordValue(data[i], data[i + 1], data[i + 2], data[i + 3]);
    if next <= |data| { TailSlices(data, i, 4, next - i); }
  }

  lemma {:induction false} FindPlaces(data: seq<byte>, i: nat) returns (at: seq<nat>)
    requires i <= |data| && Convert(data[i..]).Ok?
    ensures Places(data, at) && at[0] == i && (|at| >= 2 <==> Convert(data[i..]).value != [])
    decreases |data| - i
  {
    if i + 4 > |data| {
      at := [i];
    } else {
      ConvertByPrefix(data, i);
      var rest := FindPlaces(data, i + 4 + LengthAt(data, i));
      at := [i] + rest;
      assert forall k :: 0 < k < |at| ==> at[k] == rest[k - 1];
    }
  }

  lemma {:induction false} PlacesConvert(data: seq<byte>, at: seq<nat>)
    requires Places(data, at)
    ensures at[0] <= |data| && Convert(data[at[0]..]).Ok?
    ensures |at| >= 2 <==> Convert(data[at[0]..]).value != []
    decreases |at|
  {
    if |at| > 1 {
      assert forall k :: 0 <= k < |at[1..]| ==> at[1..][k] == at[k + 1];
      PlacesConvert(data, at[1..]);
      ConvertByPrefix(data, at[0]);
    }
  }

  /** The same by the bytes of the prefixes themselves. */
  lemma AcceptedByPrefix(data: seq<byte>)
    ensures Converted(data).Ok? <==> exists at :: Places(data, at) && at[0] == 0 && |at| >= 2
  {
    assert data[0..] == data;
    if Converted(data).Ok? {
      var at := FindPlaces(data, 0);
    }
    if at :| Places(data, at) && at[0] == 0 && |at| >= 2 {
      PlacesConvert(data, at);
    }
  }

  lemma CutInThree<T>(s: seq<T>, i: nat, j: nat)
    requires i <= j <= |s|
    ensures s == s[..i] + s[i..j] + s[j..]
  {
  }

  lemma PackFront(nal: Nal, rest: seq<Nal>)
    ensures Pack([nal] + rest) == BigEndian(|nal|, 4) + nal + Pack(rest)
    ensures Stream([nal] + rest) == START_CODE + nal + Stream(rest)
    ensures |nal| < U32_LIMIT && Prefixable(rest) ==> Prefixable([nal] + rest)
  {
    assert ([nal] + rest)[1..] == rest;
  }

  lemma {:induction false} Parse(data: seq<byte>) returns (nals: seq<Nal>, junk: seq<byte>)
    requires Convert(data).Ok?
    ensures Prefixable(nals) && |junk| < 4 && data == Pack(nals) + junk && Convert(data) == Ok(Stream(nals))
    decreases |data|
  {
    if |data| < 4 {
      nals, junk := [], data;
    } else {
      var word := data[..4];
      var len := FromBigEndian(word);
      var nal := data[4..4 + len];
      var rest;
      rest, junk := Parse(data[4 + len..]);
      BigEndianWord(word);
      nals := [nal] + rest;
      PackFront(nal, rest);
      CutInThree(data, 4, 4 + len);
      Regroup(word, nal, Pack(rest), junk);
    }
  }

  lemma {:induction false} BigEndianInverse(bs: seq<byte>)
    ensures FromBigEndian(bs) < Pow256(|bs|) && BigEndian(FromBigEndian(bs), |bs|) == bs
  {
    if bs == [] {
    } else {
      BigEndianInverse(bs[..|bs| - 1]);
      var high, last := FromBigEndian(bs[..|bs| - 1]), bs[|bs| - 1];
      assert (256 * high + last) / 256 == high;
    }
  }

  lemma BigEndianWord(bs: seq<byte>)
    requires |bs| == 4
    ensures FromBigEndian(bs) < U32_LIMIT && BigEndian(FromBigEndian(bs), 4) == bs
  {
    BigEndianInverse(bs);
    WordRoundTrips();
  }

  /** The three-byte sequence that emulation prevention (section 7.4.1 of ITU-T H.264) keeps out. */
  ghost predicate HasStartCode(nal: Nal) {
    exists i :: 0 <= i < |nal| - 2 && AtShortCode(nal[i..])
  }

  /** What can follow a unit in a stream: nothing, or the next start code. */
  predicate Boundary(tail: seq<byte>) {
    tail == [] || START_CODE <= tail
  }

  function Total(nals: seq<Nal>): nat {
    if nals == [] then 0 else |nals[0]| + Total(nals[1..])
  }

  lemma {:induction false} TotalAppend(a: seq<Nal>, b: seq<Nal>)
    ensures Total(a + b) == Total(a) + Total(b)
  {
    if a == [] {
      assert a + b == b;
    } else {
      assert (a + b)[1..] == a[1..] + b;
      TotalAppend(a[1..], b);
    }
  }

  lemma FlushTotal(c: Nal)
    ensures Total(Flush(Some(c))) == |c|
  {
    if c != [] {
      var rest := Flush(Some(c))[1..];
      assert rest == [];
    }
  }

  /** A start code at the front of a unit and what follows lies inside the unit: none straddles. */
  lemma CodesDoNotStraddle(nal: Nal, tail: seq<byte>)
    requires nal != [] && Boundary(tail)
    ensures AtShortCode(nal + tail) <==> AtShortCode(nal)
    ensures AtLongCode(nal + tail) <==> AtLongCode(nal)
  {
    var data := nal + tail;
    assert forall i :: 0 <= i < |data| ==> data[i] == if i < |nal| then nal[i] else tail[i - |nal|];
    if tail != [] {
      assert forall i :: 0 <= i < 4 ==> tail[i] == START_CODE[i];
    }
  }

  lemma StartCodeMoves(nal: Nal, k: nat)
    requires k <= |nal| && HasStartCode(nal[k..])
    ensures HasStartCode(nal)
  {
    var i :| 0 <= i < |nal[k..]| - 2 && AtShortCode(nal[k..][i..]);
    assert nal[k..][i..] == nal[k + i..];
  }

  lemma StartCodeHere(nal: Nal, k: nat)
    requires (k == 3 && AtShortCode(nal)) || (k == 4 && AtLongCode(nal))
    ensures HasStartCode(nal)
  {
    assert nal[0..] == nal;
    assert AtShortCode(nal[k - 3..]);
  }

  lemma StartCodeLater(nal: Nal)
    requires nal != [] && !AtShortCode(nal)
    ensures HasStartCode(nal) <==> HasStartCode(nal[1..])
  {
    if HasStartCode(nal) {
      var i :| 0 <= i < |nal| - 2 && AtShortCode(nal[i..]);
      assert i > 0 by { assert nal[0..] == nal; }
      assert nal[1..][i - 1..] == nal[i..];
    }
    if HasStartCode(nal[1..]) {
      StartCodeMoves(nal, 1);
    }
  }

  /** One step of the splitter inside a unit, at a start code that lies in the unit. */
  lemma CutUnit(nal: Nal, tail: seq<byte>, c: Nal, k: nat)
    requires Boundary(tail) && ((k == 3 && AtShortCode(nal)) || (k == 4 && AtLongCode(nal)))
    ensures Units(nal + tail, Some(c)) == Flush(Some(c)) + Units(nal[k..] + tail, Some([]))
  {
    CodesDoNotStraddle(nal, tail);
    assert (nal + tail)[k..] == nal[k..] + tail;
  }

  lemma GrowUnit(nal: Nal, tail: seq<byte>, c: Nal)
    requires nal != [] && Boundary(tail) && !AtShortCode(nal) && !AtLongCode(nal)
    ensures Units(nal + tail, Some(c)) == Units(nal[1..] + tail, Some(c + [nal[0]]))
  {
    CodesDoNotStraddle(nal, tail);
    assert (nal + tail)[1..] == nal[1..] + tail;
  }

  lemma CutTotal(c: Nal, rest: seq<Nal>, after: seq<Nal>)
    ensures Total(Flush(Some(c)) + rest) == |c| + Total(rest)
    ensures Flush(Some(c)) + (rest + after) == Flush(Some(c)) + rest + after
  {
    TotalAppend(Flush(Some(c)), rest);
    FlushTotal(c);
  }

  /** Scanning one unit of any content up to the next boundary: whole start codes inside it cut it
      up and lose their bytes, and otherwise it is collected unchanged. */
  lemma {:induction false} ScanUnit(nal: Nal, tail: seq<byte>, c: Nal) returns (done: seq<Nal>, left: Nal)
    requires Boundary(tail)
    ensures Units(nal + tail, Some(c)) == done + Units(tail, Some(left))
    ensures Total(done) + |left| <= |c| + |nal|
    ensures HasStartCode(nal) ==> Total(done) + |left| < |c| + |nal|
    ensures !HasStartCode(nal) ==> done == [] && left == c + nal
    decreases |nal|
  {
    if nal == [] {
      assert nal + tail == tail && c + nal == c;
      done, left := [], c;
      assert done + Units(tail, Some(left)) == Units(tail, Some(left));
    } else if AtShortCode(nal) || AtLongCode(nal) {
      var k := if AtShortCode(nal) then 3 else 4;
      StartCodeHere(nal, k);
      CutUnit(nal, tail, c, k);
      var rest;
      rest, left := ScanUnit(nal[k..], tail, []);
      done := Flush(Some(c)) + rest;
      CutTotal(c, rest, Units(tail, Some(left)));
    } else {
      GrowUnit(nal, tail, c);
      StartCodeLater(nal);
      done, left := ScanUnit(nal[1..], tail, c + [nal[0]]);
      assert c + [nal[0]] + nal[1..] == c + nal;
    }
  }

  /** What stands before the first start code is dropped. */
  lemma {:induction false} SkipLeading(junk: seq<byte>, tail: seq<byte>)
    requires Boundary(tail) && !HasStartCode(junk)
    ensures Units(junk + tail, None) == Units(tail, None)
  {
    if junk == [] {
      assert junk + tail == tail;
    } else {
      if AtShortCode(junk) || AtLongCode(junk) { StartCodeHere(junk, if AtShortCode(junk) then 3 else 4); }
      CodesDoNotStraddle(junk, tail);
      StartCodeLater(junk);
      SkipLeading(junk[1..], tail);
      assert (junk + tail)[1..] == junk[1..] + tail;
    }
  }

  /** The units of a list that are not empty. */
  function NonEmpty(nals: seq<Nal>): seq<Nal> {
    if nals == [] then [] else (if nals[0] == [] then [] else [nals[0]]) + NonEmpty(nals[1..])
  }

  ghost predicate SomeStartCode(nals: seq<Nal>) {
    exists i :: 0 <= i < |nals| && HasStartCode(nals[i])
  }

  lemma {:induction false} SplitStream(nals: seq<Nal>, current: Option<Nal>)
    ensures var out := Units(Stream(nals), current);
            && Total(out) <= Total(Flush(current)) + Total(nals)
            && (SomeStartCode(nals) ==> Total(out) < Total(Flush(current)) + Total(nals))
            && (!SomeStartCode(nals) ==> out == Flush(current) + NonEmpty(nals))
    decreases |nals|
  {
    if nals == [] {
      assert Flush(current) + [] == Flush(current);
    } else {
      var data, n, ns := Stream(nals), nals[0], nals[1..];
      var tail := Stream(ns);
      assert !AtShortCode(data) && AtLongCode(data) && data[4..] == n + tail;
      assert Boundary(tail);
      var done, left := ScanUnit(n, tail, []);
      SplitStream(ns, Some(left));
      var out, rest := Units(data, current), Units(tail, Some(left));
      assert out == Flush(current) + (done + rest);
      TotalAppend(Flush(current), done + rest);
      TotalAppend(done, rest);
      FlushTotal(left);
      if SomeStartCode(nals) && !HasStartCode(n) {
        var i :| 0 <= i < |nals| && HasStartCode(nals[i]);
        assert ns[i - 1] == nals[i];
      }
      if !SomeStartCode(nals) {
        assert !SomeStartCode(ns) by {
          forall i | 0 <= i < |ns| ensures !HasStartCode(ns[i]) { assert ns[i] == nals[i + 1]; }
        }
        assert !HasStartCode(nals[0]) && done == [] && left == [] + n && [] + n == n;
        assert done + rest == rest;
        assert rest == Flush(Some(n)) + NonEmpty(ns);
        assert Flush(Some(n)) + NonEmpty(ns) == NonEmpty(nals);
      }
    }
  }

  lemma {:induction false} NonEmptyIsAll(nals: seq<Nal>)
    ensures |NonEmpty(nals)| <= |nals|
    ensures NonEmpty(nals) == nals <==> forall i :: 0 <= i < |nals| ==> nals[i] != []
  {
    if nals == [] {
    } else {
      NonEmptyIsAll(nals[1..]);
      if nals[0] != [] {
        assert NonEmpty(nals)[1..] == NonEmpty(nals[1..]);
        assert forall i :: 0 < i < |nals| ==> nals[i] == nals[1..][i - 1];
      }
    }
  }

  lemma PackedIsConverted(nals: seq<Nal>)
    requires nals != [] && Prefixable(nals)
    ensures Converted(Pack(nals)) == Ok(Stream(nals))
  {
    assert Pack(nals) + [] == Pack(nals);
    PackConverts(nals, []);
    assert Stream(nals)[3] == 1;
  }

  /** A stream falls apart into the units it is made of exactly if each is non-empty and free of start
      codes. */
  lemma SplitIff(nals: seq<Nal>)
    ensures Units(Stream(nals), None) == nals <==> !SomeStartCode(nals) && forall i :: 0 <= i < |nals| ==> nals[i] != []
  {
    SplitStream(nals, None);
    NonEmptyIsAll(nals);
    assert Flush(None) + NonEmpty(nals) == NonEmpty(nals);
  }

  /** The round trip through AVCC and Annex-B gives back exactly the units that went in, if and only
      if every unit is non-empty and free of the bytes 00 00 01; zeros at the end of a unit, next to
      the following start code, survive. */
  lemma RoundTripIff(nals: seq<Nal>)
    requires nals != [] && Prefixable(nals)
    ensures Converted(Pack(nals)).Ok?
    ensures Units(Converted(Pack(nals)).value, None) == nals <==>
              forall i :: 0 <= i < |nals| ==> nals[i] != [] && !HasStartCode(nals[i])
  {
    PackedIsConverted(nals);
    SplitIff(nals);
  }
}
