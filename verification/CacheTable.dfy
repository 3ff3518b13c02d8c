/** The table of cache entries: byte keys in lexicographic order, scanned by asset. */
module CacheTables {
  import opened Bytes
  import opened AssetIds
  import opened RowCodec

  datatype CacheType = WaveformPeaks | VideoThumbnails | VideoProxy | AudioProxy {
    function Tag(): byte {
      match this
      case WaveformPeaks => 0
      case VideoThumbnails => 1
      case VideoProxy => 2
      case AudioProxy => 3
    }
  }

  function CacheTypeFromTag(tag: byte): Option<CacheType> {
    match tag
    case 0 => Some(WaveformPeaks)
    case 1 => Some(VideoThumbnails)
    case 2 => Some(VideoProxy)
    case 3 => Some(AudioProxy)
    case _ => None
  }

  type Key = seq<byte>

  datatype Row = Row(key: Key, value: seq<byte>)

  /** The key of an entry: the asset's 24 bytes and the tag of the cache type. */
  function CacheKey(id: AssetId, tag: byte): Key { KeyBytes(id) + [tag] }

  /** The key of an entry by its bytes; the tags are 0 to 3. */
  lemma CacheKeyLayout(id: AssetId, kind: CacheType)
    ensures var key := CacheKey(id, kind.Tag());
            && |key| == 25 && key[..24] == KeyBytes(id)
            && (key[24] == 0 <==> kind == WaveformPeaks) && (key[24] == 1 <==> kind == VideoThumbnails)
            && (key[24] == 2 <==> kind == VideoProxy) && (key[24] == 3 <==> kind == AudioProxy)
    ensures forall tag: byte :: CacheTypeFromTag(tag) == None <==> tag > 3
  {
  }

  // ----- Order -----

  predicate Less(a: Key, b: Key) {
    b != [] && (a == [] || a[0] < b[0] || (a[0] == b[0] && Less(a[1..], b[1..])))
  }

  lemma {:induction false} LessIsTotal(a: Key, b: Key)
    ensures a == b || Less(a, b) || Less(b, a)
    ensures !(Less(a, b) && Less(b, a)) && !Less(a, a)
  {
    if a != [] && b != [] {
      LessIsTotal(a[1..], b[1..]);
      LessIsTotal(a[1..], a[1..]);
    } else if a != [] {
      LessIsTotal(a[1..], a[1..]);
    }
  }

  /** Byte order: the first byte that differs decides, and a proper prefix comes first. */
  lemma {:induction false} LessIff(a: Key, b: Key)
    ensures Less(a, b) <==> (a <= b && |a| < |b|) || exists i :: FirstDifference(a, b, i) && a[i] < b[i]
  {
    if a == [] || b == [] {
    } else {
      LessIff(a[1..], b[1..]);
      if a[0] == b[0] {
        assert a == [a[0]] + a[1..] && b == [b[0]] + b[1..];
        forall i: nat ensures FirstDifference(a, b, i + 1) <==> FirstDifference(a[1..], b[1..], i) { DifferenceMoves(a, b, i); }
        if i :| FirstDifference(a[1..], b[1..], i) && a[1..][i] < b[1..][i] {
          assert FirstDifference(a, b, i + 1);
        }
        if i :| FirstDifference(a, b, i) && a[i] < b[i] {
          assert FirstDifference(a, b, i - 1 + 1);
          assert a[1..][i - 1] < b[1..][i - 1];
        }
      } else {
        assert FirstDifference(a, b, 0);
      }
    }
  }

  ghost predicate FirstDifference(a: Key, b: Key, i: int) {
    0 <= i < |a| && i < |b| && a[i] != b[i] && a[..i] == b[..i]
  }

  lemma DifferenceMoves(a: Key, b: Key, i: nat)
    requires a != [] && b != [] && a[0] == b[0]
    ensures FirstDifference(a, b, i + 1) <==> FirstDifference(a[1..], b[1..], i)
  {
    if i < |a[1..]| && i < |b[1..]| {
      assert a[..i + 1] == [a[0]] + a[1..][..i] && b[..i + 1] == [b[0]] + b[1..][..i];
    }
  }

  lemma {:induction false} LessIsTransitive(a: Key, b: Key, c: Key)
    requires Less(a, b) && Less(b, c)
    ensures Less(a, c)
  {
    if a == [] || a[0] < b[0] || b[0] < c[0] {
    } else {
      LessIsTransitive(a[1..], b[1..], c[1..]);
    }
  }

  ghost predicate Sorted(rows: seq<Row>) {
    forall i, j :: 0 <= i < j < |rows| ==> Less(rows[i].key, rows[j].key)
  }

  // ----- The asset's entries -----

  /** The key is that of an entry of the asset whose key bytes are `prefix`. */
  predicate Matches(key: Key, prefix: Key) {
    |key| == 25 && prefix <= key
  }

  function Filter(rows: seq<Row>, prefix: Key): (r: seq<Row>)
    ensures WellKeyed(r)
  {
    if rows == [] then []
    else if Matches(rows[0].key, prefix) then [rows[0]] + Filter(rows[1..], prefix)
    else Filter(rows[1..], prefix)
  }

  function Without(rows: seq<Row>, prefix: Key): seq<Row> {
    if rows == [] then []
    else if Matches(rows[0].key, prefix) then Without(rows[1..], prefix)
    else [rows[0]] + Without(rows[1..], prefix)
  }

  /** The rows from `prefix` on, in key order. */
  function From(rows: seq<Row>, prefix: Key): seq<Row> {
    if rows != [] && Less(rows[0].key, prefix) then From(rows[1..], prefix) else rows
  }

  /** The rows a scan sees that stops at the first foreign key. */
  function TakeMatching(rows: seq<Row>, prefix: Key): (r: seq<Row>)
    ensures WellKeyed(r)
  {
    if rows == [] || !Matches(rows[0].key, prefix) then []
    else [rows[0]] + TakeMatching(rows[1..], prefix)
  }

  ghost predicate WellKeyed(rows: seq<Row>) {
    forall i :: 0 <= i < |rows| ==> |rows[i].key| == 25
  }

  lemma {:induction false} PrefixIsNotAfter(key: Key, prefix: Key)
    requires prefix <= key
    ensures !Less(key, prefix)
  {
    if prefix == [] {
    } else {
      assert prefix[1..] <= key[1..];
      PrefixIsNotAfter(key[1..], prefix[1..]);
    }
  }

  /** Once the keys have left the range of `prefix` upwards they do not come back. */
  lemma {:induction false} RangeIsLeft(prefix: Key, a: Key, b: Key)
    requires |prefix| <= |a| && !Less(a, prefix) && !(prefix <= a) && Less(a, b)
    ensures !(prefix <= b)
  {
    if prefix <= b {
      if a[0] == prefix[0] {
        assert prefix == [prefix[0]] + prefix[1..] && a == [a[0]] + a[1..] && prefix[1..] <= b[1..];
        RangeIsLeft(prefix[1..], a[1..], b[1..]);
      }
    }
  }

  lemma {:induction false} NothingMatches(rows: seq<Row>, prefix: Key)
    requires forall i :: 0 <= i < |rows| ==> !Matches(rows[i].key, prefix)
    ensures Filter(rows, prefix) == []
  {
    if rows == [] {
    } else {
      NothingMatches(rows[1..], prefix);
    }
  }

  lemma {:induction false} FromStarts(rows: seq<Row>, prefix: Key)
    ensures Filter(From(rows, prefix), prefix) == Filter(rows, prefix)
  {
    if rows == [] || !Less(rows[0].key, prefix) {
    } else {
      if Matches(rows[0].key, prefix) {
        PrefixIsNotAfter(rows[0].key, prefix);
      }
      FromStarts(rows[1..], prefix);
    }
  }

  lemma {:induction false} TakeIsFilter(rows: seq<Row>, prefix: Key)
    requires Sorted(rows) && WellKeyed(rows) && |prefix| == 24
    requires rows != [] ==> !Less(rows[0].key, prefix)
    ensures TakeMatching(rows, prefix) == Filter(rows, prefix)
  {
    if rows == [] {
    } else {
      var rest := rows[1..];
      if Matches(rows[0].key, prefix) {
        if rest != [] && Less(rest[0].key, prefix) {
          LessIsTransitive(rows[0].key, rest[0].key, prefix);
        }
        TakeIsFilter(rest, prefix);
      } else {
        forall i | 0 <= i < |rows| ensures !Matches(rows[i].key, prefix) {
          if i > 0 {
            RangeIsLeft(prefix, rows[0].key, rows[i].key);
          }
        }
        NothingMatches(rows, prefix);
      }
    }
  }

  lemma {:induction false} FromIsSuffix(rows: seq<Row>, prefix: Key) returns (k: nat)
    ensures k <= |rows| && From(rows, prefix) == rows[k..]
    ensures From(rows, prefix) != [] ==> !Less(From(rows, prefix)[0].key, prefix)
  {
    if rows != [] && Less(rows[0].key, prefix) {
      k := FromIsSuffix(rows[1..], prefix);
      k := k + 1;
    } else {
      k := 0;
    }
  }

  /** A scan from the asset's key bytes that stops at the first foreign key sees exactly the rows of
      the asset, wherever they stand in the table. */
  lemma RangeScanIsFilter(rows: seq<Row>, prefix: Key)
    requires Sorted(rows) && WellKeyed(rows) && |prefix| == 24
    ensures TakeMatching(From(rows, prefix), prefix) == Filter(rows, prefix)
  {
    var k := FromIsSuffix(rows, prefix);
    TakeIsFilter(From(rows, prefix), prefix);
    FromStarts(rows, prefix);
  }

  /** It needs the keys to have their full length: a bare asset key would end the scan at once. */
  lemma BareKeyEndsScan(id: AssetId)
    ensures var prefix := KeyBytes(id);
            var rows := [Row(prefix, []), Row(CacheKey(id, 0), [])];
            && Sorted(rows)
            && TakeMatching(From(rows, prefix), prefix) == []
            && Filter(rows, prefix) == [Row(CacheKey(id, 0), [])]
  {
    var prefix := KeyBytes(id);
    var bare, entry := Row(prefix, []), Row(CacheKey(id, 0), []);
    var rows := [bare, entry];
    ExtensionIsAfter(prefix, [0]);
    LessIsTotal(prefix, prefix);
    var rest := rows[1..];
    assert rest == [entry] && rest[1..] == [];
    assert Filter(rest, prefix) == [entry];
  }

  lemma {:induction false} ExtensionIsAfter(a: Key, more: Key)
    requires more != []
    ensures Less(a, a + more)
  {
    if a == [] {
    } else {
      assert (a + more)[1..] == a[1..] + more;
      ExtensionIsAfter(a[1..], more);
    }
  }

  // ----- Storing and looking up -----

  function Stored(rows: seq<Row>, row: Row): seq<Row> {
    if rows == [] || Less(row.key, rows[0].key) then [row] + rows
    else if row.key == rows[0].key then [row] + rows[1..]
    else [rows[0]] + Stored(rows[1..], row)
  }

  function Lookup(rows: seq<Row>, key: Key): Option<seq<byte>> {
    if rows == [] then None else if rows[0].key == key then Some(rows[0].value) else Lookup(rows[1..], key)
  }

  /** The row is the table's row for its key. */
  ghost predicate Holds(rows: seq<Row>, row: Row) {
    Lookup(rows, row.key) == Some(row.value)
  }

  /** `key` comes before every row of `rows`. */
  ghost predicate Precedes(key: Key, rows: seq<Row>) {
    forall i :: 0 <= i < |rows| ==> Less(key, rows[i].key)
  }

  lemma SortedCons(row: Row, rows: seq<Row>)
    ensures Sorted([row] + rows) <==> Precedes(row.key, rows) && Sorted(rows)
  {
    var all := [row] + rows;
    if Sorted(all) {
      forall i | 0 <= i < |rows| ensures Less(row.key, rows[i].key) {
        assert all[0] == row && all[i + 1] == rows[i];
      }
      forall i, j | 0 <= i < j < |rows| ensures Less(rows[i].key, rows[j].key) {
        assert all[i + 1] == rows[i] && all[j + 1] == rows[j];
      }
    }
  }

  lemma BeforeAll(key: Key, rows: seq<Row>)
    requires Sorted(rows) && rows != [] && Less(key, rows[0].key)
    ensures Precedes(key, rows)
  {
    forall i | 0 <= i < |rows| ensures Less(key, rows[i].key) {
      if i > 0 {
        LessIsTransitive(key, rows[0].key, rows[i].key);
      }
    }
  }

  lemma {:induction false} StoredKeepsOrder(rows: seq<Row>, row: Row)
    requires Sorted(rows)
    ensures Sorted(Stored(rows, row))
    ensures forall key :: Less(key, row.key) && Precedes(key, rows) ==> Precedes(key, Stored(rows, row))
    ensures WellKeyed(rows) && |row.key| == 25 ==> WellKeyed(Stored(rows, row))
  {
    LessIsTotal(row.key, if rows == [] then [] else rows[0].key);
    if rows == [] {
    } else {
      var head, rest := rows[0], rows[1..];
      assert rows == [head] + rest;
      SortedCons(head, rest);
      if Less(row.key, head.key) {
        BeforeAll(row.key, rows);
        SortedCons(row, rows);
      } else if row.key == head.key {
        SortedCons(row, rest);
      } else {
        StoredKeepsOrder(rest, row);
        SortedCons(head, Stored(rest, row));
        assert forall key :: Precedes(key, rows) ==> Less(key, rows[0].key) && Precedes(key, rest);
      }
    }
  }

  /** Storing changes the entry of one key. */
  lemma {:induction false} StoredLookup(rows: seq<Row>, row: Row, key: Key)
    requires Sorted(rows)
    ensures Lookup(Stored(rows, row), key) == if key == row.key then Some(row.value) else Lookup(rows, key)
  {
    if rows == [] || Less(row.key, rows[0].key) || row.key == rows[0].key {
    } else {
      StoredLookup(rows[1..], row, key);
    }
  }

  /** Removing an asset's rows removes the entries of its keys and no other. */
  lemma {:induction false} WithoutLookup(rows: seq<Row>, prefix: Key, key: Key)
    ensures Lookup(Without(rows, prefix), key) == if Matches(key, prefix) then None else Lookup(rows, key)
  {
    if rows == [] {
    } else {
      WithoutLookup(rows[1..], prefix, key);
      assert ([rows[0]] + Without(rows[1..], prefix))[1..] == Without(rows[1..], prefix);
    }
  }

  /** The rows that stay and those that go make up the table; a second removal finds nothing. */
  lemma {:induction false} WithoutIsComplement(rows: seq<Row>, prefix: Key)
    ensures |rows| == |Without(rows, prefix)| + |Filter(rows, prefix)|
    ensures Filter(Without(rows, prefix), prefix) == []
    ensures Without(Without(rows, prefix), prefix) == Without(rows, prefix)
  {
    if rows == [] {
    } else {
      WithoutIsComplement(rows[1..], prefix);
      assert ([rows[0]] + Without(rows[1..], prefix))[1..] == Without(rows[1..], prefix);
    }
  }

  lemma {:induction false} WithoutKeepsOrder(rows: seq<Row>, prefix: Key)
    requires Sorted(rows)
    ensures Sorted(Without(rows, prefix))
    ensures forall key :: Precedes(key, rows) ==> Precedes(key, Without(rows, prefix))
    ensures WellKeyed(rows) ==> WellKeyed(Without(rows, prefix))
  {
    if rows == [] {
    } else {
      var head, rest := rows[0], rows[1..];
      assert rows == [head] + rest;
      SortedCons(head, rest);
      WithoutKeepsOrder(rest, prefix);
      SortedCons(head, Without(rest, prefix));
      assert forall key :: Precedes(key, rows) ==> Less(key, rows[0].key) && Precedes(key, rest);
    }
  }

  /** A cache key belongs to one asset only. */
  lemma KeysOfAsset(a: AssetId, b: AssetId, tag: byte)
    ensures Matches(CacheKey(a, tag), KeyBytes(b)) <==> a == b
  {
    KeyPrefix(KeyBytes(a), KeyBytes(b), tag);
    KeyDecodes(a);
    KeyDecodes(b);
  }

  lemma KeyPrefix(a: Key, b: Key, tag: byte)
    requires |a| == |b|
    ensures b <= a + [tag] <==> a == b
  {
    assert (a + [tag])[..|b|] == a;
  }

  // ----- Removing the listed keys one by one -----

  function Drop(rows: seq<Row>, keys: seq<Key>): seq<Row> {
    if rows == [] then []
    else if rows[0].key in keys then Drop(rows[1..], keys)
    else [rows[0]] + Drop(rows[1..], keys)
  }

  function Keys(rows: seq<Row>): (keys: seq<Key>)
    ensures |keys| == |rows|
    ensures forall i :: 0 <= i < |rows| ==> keys[i] == rows[i].key
  {
    seq(|rows|, i requires 0 <= i < |rows| => rows[i].key)
  }

  lemma {:induction false} DropNothing(rows: seq<Row>)
    ensures Drop(rows, []) == rows
  {
    if rows == [] {
    } else {
      DropNothing(rows[1..]);
    }
  }

  lemma {:induction false} DropOneMore(rows: seq<Row>, keys: seq<Key>, key: Key)
    ensures Drop(Drop(rows, keys), [key]) == Drop(rows, keys + [key])
  {
    if rows == [] {
    } else {
      DropOneMore(rows[1..], keys, key);
      assert ([rows[0]] + Drop(rows[1..], keys))[1..] == Drop(rows[1..], keys);
    }
  }

  lemma {:induction false} DropLookup(rows: seq<Row>, keys: seq<Key>, key: Key)
    ensures Lookup(Drop(rows, keys), key) == if key in keys then None else Lookup(rows, key)
  {
    if rows == [] {
    } else {
      DropLookup(rows[1..], keys, key);
      assert ([rows[0]] + Drop(rows[1..], keys))[1..] == Drop(rows[1..], keys);
    }
  }

  lemma {:induction false} DropIsWithout(rows: seq<Row>, prefix: Key, keys: seq<Key>)
    requires forall i :: 0 <= i < |rows| ==> (rows[i].key in keys <==> Matches(rows[i].key, prefix))
    ensures Drop(rows, keys) == Without(rows, prefix)
  {
    if rows == [] {
    } else {
      DropIsWithout(rows[1..], prefix, keys);
    }
  }

  lemma {:induction false} FilterHolds(rows: seq<Row>, prefix: Key)
    requires Sorted(rows)
    ensures Sorted(Filter(rows, prefix))
    ensures forall row :: row in Filter(rows, prefix) <==> Matches(row.key, prefix) && Holds(rows, row)
    ensures forall key :: Precedes(key, rows) ==> Precedes(key, Filter(rows, prefix))
  {
    if rows == [] {
    } else {
      var head, rest := rows[0], rows[1..];
      assert rows == [head] + rest;
      SortedCons(head, rest);
      FilterHolds(rest, prefix);
      SortedCons(head, Filter(rest, prefix));
      NotBefore(head.key, rest);
      assert forall key :: Precedes(key, rows) ==> Less(key, rows[0].key) && Precedes(key, rest);
    }
  }

  lemma {:induction false} NotBefore(key: Key, rows: seq<Row>)
    requires Precedes(key, rows)
    ensures Lookup(rows, key) == None
  {
    if rows == [] {
    } else {
      LessIsTotal(key, rows[0].key);
      NotBefore(key, rows[1..]);
    }
  }

  lemma {:induction false} RowsHold(rows: seq<Row>, i: nat)
    requires Sorted(rows) && i < |rows|
    ensures Holds(rows, rows[i])
  {
    if i == 0 {
    } else {
      LessIsTotal(rows[0].key, rows[i].key);
      RowsHold(rows[1..], i - 1);
    }
  }

  // ----- The table -----

  /** A row without a whole key is not a cache entry. */
  function DecodeRow(row: Row): Result<(CacheType, Utf8)> {
    if |row.key| != 25 then Err
    else
      var kind, path := CacheTypeFromTag(row.key[24]), GetStr(row.value, 0);
      if kind == None || path == Bad then Err else Ok((kind.value, path.value))
  }

  type RowDecoder = Row -> Result<(CacheType, Utf8)>

  function DecodeRows(decode: RowDecoder, rows: seq<Row>): Result<seq<(CacheType, Utf8)>> {
    if rows == [] then Ok([])
    else
      var entries :- DecodeRows(decode, rows[..|rows| - 1]);
      var entry :- decode(rows[|rows| - 1]);
      Ok(entries + [entry])
  }

  /** Decoding fails exactly if some row does; otherwise it goes row by row. */
  lemma {:induction false} DecodeRowsIff(decode: RowDecoder, rows: seq<Row>)
    ensures DecodeRows(decode, rows).Ok? <==> forall i :: 0 <= i < |rows| ==> decode(rows[i]).Ok?
    ensures DecodeRows(decode, rows).Ok? ==>
              var entries := DecodeRows(decode, rows).value;
              |entries| == |rows| && forall i :: 0 <= i < |rows| ==> Ok(entries[i]) == decode(rows[i])
  {
    if rows == [] {
    } else {
      var rest := rows[..|rows| - 1];
      DecodeRowsIff(decode, rest);
      assert forall i :: 0 <= i < |rest| ==> rest[i] == rows[i];
    }
  }

  lemma {:induction false} TakeStops(rows: seq<Row>, prefix: Key, i: nat)
    requires i <= |rows| && forall j :: 0 <= j < i ==> Matches(rows[j].key, prefix)
    ensures rows[..i] <= TakeMatching(rows, prefix)
    ensures i == |rows| || !Matches(rows[i].key, prefix) ==> TakeMatching(rows, prefix) == rows[..i]
  {
    if i == 0 {
    } else {
      TakeStops(rows[1..], prefix, i - 1);
      assert rows[..i] == [rows[0]] + rows[1..][..i - 1];
    }
  }

  /** The first `i` rows of the scan are the asset's and have been decoded. */
  ghost predicate Scanned(decode: RowDecoder, scan: seq<Row>, prefix: Key, i: nat, entries: seq<(CacheType, Utf8)>) {
    && i <= |scan|
    && (forall j :: 0 <= j < i ==> Matches(scan[j].key, prefix))
    && DecodeRows(decode, scan[..i]) == Ok(entries)
  }

  lemma ScanGoesOn(decode: RowDecoder, scan: seq<Row>, prefix: Key, i: nat, entries: seq<(CacheType, Utf8)>)
    requires Scanned(decode, scan, prefix, i, entries) && i < |scan| && Matches(scan[i].key, prefix)
    ensures decode(scan[i]).Ok? ==> Scanned(decode, scan, prefix, i + 1, entries + [decode(scan[i]).value])
    ensures decode(scan[i]) == Err ==> DecodeRows(decode, TakeMatching(scan, prefix)) == Err
  {
    TakeStops(scan, prefix, i + 1);
    assert scan[..i + 1][..i] == scan[..i];
    if decode(scan[i]) == Err {
      assert scan[..i + 1][i] == TakeMatching(scan, prefix)[i];
      DecodeRowsIff(decode, TakeMatching(scan, prefix));
    }
  }

  class CacheTable {
    var rows: seq<Row>

    ghost predicate Valid() reads this { Sorted(rows) && WellKeyed(rows) }

    constructor ()
      ensures Valid() && rows == []
    {
      rows := [];
    }

    method RecordCacheEntry(id: AssetId, kind: CacheType, path: Utf8)
      requires Valid()
      modifies this
      ensures Valid()
      ensures rows == Stored(old(rows), Row(CacheKey(id, kind.Tag()), PutBytes([], path)))
    {
      var e := new Enc();
      e.Bytes(path);
      var row := Row(CacheKey(id, kind.Tag()), e.buf);
      StoredKeepsOrder(rows, row);
      rows := Stored(rows, row);
    }

    method GetCacheEntry(id: AssetId, kind: CacheType) returns (result: Result<Option<Utf8>>)
      ensures var value := Lookup(rows, CacheKey(id, kind.Tag()));
              && (value == None ==> result == Ok(None))
              && (value.Some? && GetStr(value.value, 0).Got? ==> result == Ok(Some(GetStr(value.value, 0).value)))
              && (value.Some? && GetStr(value.value, 0) == Bad ==> result == Err)
    {
      var value := Lookup(rows, CacheKey(id, kind.Tag()));
      if value == None {
        return Ok(None);
      }
      var d := new Dec(value.value);
      var path :- d.Str();
      result := Ok(Some(path));
    }

    static method ReadEntry(row: Row) returns (entry: Result<(CacheType, Utf8)>)
      requires |row.key| == 25
      ensures entry == DecodeRow(row)
    {
      var kind := CacheTypeFromTag(row.key[24]);
      if kind == None {
        return Err;
      }
      var d := new Dec(row.value);
      var path :- d.Str();
      entry := Ok((kind.value, path));
    }

    method ListCacheEntries(id: AssetId) returns (result: Result<seq<(CacheType, Utf8)>>)
      requires Valid()
      ensures result == DecodeRows(DecodeRow, Filter(rows, KeyBytes(id)))
    {
      var prefix := KeyBytes(id);
      RangeScanIsFilter(rows, prefix);
      var scan := From(rows, prefix);
      var entries: seq<(CacheType, Utf8)> := [];
      var i := 0;
      while i < |scan|
        invariant Scanned(DecodeRow, scan, prefix, i, entries)
      {
        var key := scan[i].key;
        if |key| != 25 || key[..24] != prefix {
          break;
        }
        var entry := ReadEntry(scan[i]);
        ScanGoesOn(DecodeRow, scan, prefix, i, entries);
        if entry == Err {
          return Err;
        }
        entries := entries + [entry.value];
        i := i + 1;
      }
      TakeStops(scan, prefix, i);
      result := Ok(entries);
    }

    /** Collects all keys of the asset, then removes them one by one. */
    method InvalidateCaches(id: AssetId) returns (removed: nat)
      requires Sorted(rows)
      modifies this
      ensures rows == Without(old(rows), KeyBytes(id))
      ensures removed == |Filter(old(rows), KeyBytes(id))|
      ensures old(Valid()) ==> Valid()
    {
      ghost var was := rows;
      var prefix := KeyBytes(id);
      FromStarts(rows, prefix);
      var keys := Keys(Filter(From(rows, prefix), prefix));
      KeysToRemove(was, prefix);
      removed := 0;
      DropNothing(was);
      for i := 0 to |keys|
        invariant rows == Drop(was, keys[..i])
        invariant removed == i
      {
        DropLookup(was, keys[..i], keys[i]);
        DropOneMore(was, keys[..i], keys[i]);
        assert keys[..i + 1] == keys[..i] + [keys[i]];
        if Lookup(rows, keys[i]).Some? {
          removed := removed + 1;
        }
        rows := Drop(rows, [keys[i]]);
      }
      assert keys[..|keys|] == keys;
      DropIsWithout(was, prefix, keys);
      WithoutKeepsOrder(was, prefix);
    }
  }

  /** The keys collected for removal are those of the asset, each once, and all are in the table. */
  lemma KeysToRemove(rows: seq<Row>, prefix: Key)
    requires Sorted(rows)
    ensures var keys := Keys(Filter(rows, prefix));
            && (forall i :: 0 <= i < |keys| ==> keys[i] !in keys[..i] && Lookup(rows, keys[i]).Some?)
            && (forall i :: 0 <= i < |rows| ==> (rows[i].key in keys <==> Matches(rows[i].key, prefix)))
  {
    var picked := Filter(rows, prefix);
    var keys := Keys(picked);
    FilterHolds(rows, prefix);
    forall i | 0 <= i < |keys| ensures keys[i] !in keys[..i] && Lookup(rows, keys[i]).Some? {
      assert picked[i] in picked;
      forall j | 0 <= j < i ensures keys[j] != keys[i] {
        LessIsTotal(keys[j], keys[i]);
      }
    }
    forall i | 0 <= i < |rows| ensures rows[i].key in keys <==> Matches(rows[i].key, prefix) {
      RowsHold(rows, i);
      if Matches(rows[i].key, prefix) {
        var j :| 0 <= j < |picked| && picked[j] == rows[i];
        assert keys[j] == rows[i].key;
      }
      if rows[i].key in keys {
        var j :| 0 <= j < |keys| && keys[j] == rows[i].key;
        assert picked[j] in picked;
      }
    }
  }

  // ----- What the listing means -----

  /** The row of an entry. */
  function EntryRow(id: AssetId, kind: CacheType, path: Utf8): Row {
    Row(CacheKey(id, kind.Tag()), PutBytes([], path))
  }

  ghost predicate GenuineRow(row: Row) {
    exists id, kind, path: Utf8 :: Short(path) && row == EntryRow(id, kind, path)
  }

  /** Every row was written by `RecordCacheEntry` with a path of 32-bit length. */
  ghost predicate Genuine(rows: seq<Row>) {
    forall row :: row in rows ==> GenuineRow(row)
  }

  lemma {:induction false} StoredRows(rows: seq<Row>, row: Row)
    ensures forall r :: r in Stored(rows, row) ==> r == row || r in rows
  {
    if rows == [] {
    } else {
      StoredRows(rows[1..], row);
    }
  }

  lemma {:induction false} KeptRows(rows: seq<Row>, prefix: Key)
    ensures forall r :: r in Without(rows, prefix) ==> r in rows
    ensures forall r :: r in Filter(rows, prefix) ==> r in rows
  {
    if rows == [] {
    } else {
      KeptRows(rows[1..], prefix);
    }
  }

  lemma GenuineKept(rows: seq<Row>, row: Row, prefix: Key)
    requires Genuine(rows) && GenuineRow(row)
    ensures Genuine(Stored(rows, row)) && Genuine(Without(rows, prefix)) && Genuine(Filter(rows, prefix))
  {
    StoredRows(rows, row);
    KeptRows(rows, prefix);
  }

  lemma EntryDecodes(id: AssetId, kind: CacheType, path: Utf8)
    requires Short(path)
    ensures DecodeRow(EntryRow(id, kind, path)) == Ok((kind, path))
  {
    StrUndoes([], path, PutBytes([], path));
  }

  lemma GenuineDecodes(row: Row) returns (id: AssetId, kind: CacheType, path: Utf8)
    requires GenuineRow(row)
    ensures Short(path) && row == EntryRow(id, kind, path) && DecodeRow(row) == Ok((kind, path))
  {
    id, kind, path :| Short(path) && row == EntryRow(id, kind, path);
    EntryDecodes(id, kind, path);
  }

  lemma ListedEntry(rows: seq<Row>, asset: AssetId, row: Row, kind: CacheType, path: Utf8)
    requires Sorted(rows) && Genuine(rows) && row in Filter(rows, KeyBytes(asset))
    requires DecodeRow(row) == Ok((kind, path))
    ensures Holds(rows, EntryRow(asset, kind, path))
  {
    FilterHolds(rows, KeyBytes(asset));
    GenuineKept(rows, EntryRow(asset, kind, []), KeyBytes(asset));
    var id, k, p := GenuineDecodes(row);
    KeysOfAsset(id, asset, k.Tag());
  }

  lemma ListedIffRecorded(rows: seq<Row>, asset: AssetId, listing: seq<(CacheType, Utf8)>, kind: CacheType, path: Utf8)
    requires Sorted(rows) && Genuine(rows) && Short(path)
    requires DecodeRows(DecodeRow, Filter(rows, KeyBytes(asset))) == Ok(listing)
    ensures (kind, path) in listing <==> Holds(rows, EntryRow(asset, kind, path))
  {
    var picked := Filter(rows, KeyBytes(asset));
    DecodeRowsIff(DecodeRow, picked);
    if (kind, path) in listing {
      var i :| 0 <= i < |picked| && listing[i] == (kind, path);
      ListedEntry(rows, asset, picked[i], kind, path);
    }
    if Holds(rows, EntryRow(asset, kind, path)) {
      FilterHolds(rows, KeyBytes(asset));
      KeysOfAsset(asset, asset, kind.Tag());
      EntryDecodes(asset, kind, path);
      var i :| 0 <= i < |picked| && picked[i] == EntryRow(asset, kind, path);
      assert listing[i] == (kind, path);
    }
  }

  /** The listing of an asset succeeds and shows exactly the entries recorded for it, whatever else
      the table holds. */
  lemma ListingShowsRecorded(rows: seq<Row>, asset: AssetId)
    requires Sorted(rows) && Genuine(rows)
    ensures var listing := DecodeRows(DecodeRow, Filter(rows, KeyBytes(asset)));
            && listing.Ok?
            && forall kind, path: Utf8 :: Short(path) ==>
                 ((kind, path) in listing.value <==> Holds(rows, EntryRow(asset, kind, path)))
  {
    var picked := Filter(rows, KeyBytes(asset));
    GenuineKept(rows, EntryRow(asset, WaveformPeaks, []), KeyBytes(asset));
    forall i | 0 <= i < |picked| ensures DecodeRow(picked[i]).Ok? {
      var id, k, p := GenuineDecodes(picked[i]);
    }
    DecodeRowsIff(DecodeRow, picked);
    forall kind, path: Utf8 | Short(path)
      ensures (kind, path) in DecodeRows(DecodeRow, picked).value <==> Holds(rows, EntryRow(asset, kind, path))
    {
      ListedIffRecorded(rows, asset, DecodeRows(DecodeRow, picked).value, kind, path);
    }
  }
}
