/** The proxy stream container: a header and a table of length-prefixed frames, each encoded
    without loss. */
module Containers {
  import opened Bytes
  import opened ContainerHeaders
  import opened Pixels

  // ----- Writing -----

  datatype Sequence = Sequence(version: byte, maxWidth: u16, maxHeight: u16, transformId: byte, bitDepths: seq<byte>)

  function SequenceOf(h: Header): Sequence {
    Sequence(VERSION, h.width % 0x1_0000, h.height % 0x1_0000, TRANSFORM_ID, [BIT_DEPTH, BIT_DEPTH, BIT_DEPTH])
  }

  /** The lossless frame codec, which lives in another crate. */
  datatype Codec = Codec(encode: (Sequence, seq<Plane>) -> Option<seq<byte>>,
                         decode: (Sequence, seq<byte>) -> Option<seq<Plane>>)

  /** What that crate promises: decoding undoes encoding under the sequence header that fits. */
  ghost predicate Lossless(codec: Codec) {
    forall s: Sequence, planes: seq<Plane>, payload: seq<byte> ::
      codec.encode(s, planes) == Some(payload) ==> codec.decode(s, payload) == Some(planes)
  }

  /** A payload behind the low 32 bits of its length. */
  function Frame(payload: seq<byte>): (bytes: seq<byte>)
    ensures |bytes| == 4 + |payload|
  {
    LittleEndian(|payload| % U32_LIMIT, 4) + payload
  }

  /** The frame table. */
  function Table(payloads: seq<seq<byte>>): seq<byte> {
    if payloads == [] then [] else Frame(payloads[0]) + Table(payloads[1..])
  }

  lemma {:induction false} TableAppend(a: seq<seq<byte>>, b: seq<seq<byte>>)
    ensures Table(a + b) == Table(a) + Table(b)
  {
    if a == [] {
      assert a + b == b;
    } else {
      assert (a + b)[1..] == a[1..] + b;
      TableAppend(a[1..], b);
    }
  }

  /** `payloads` are the encodings of `frames`, one each, in order. */
  ghost predicate Encoded(codec: Codec, h: Header, frames: seq<seq<byte>>, payloads: seq<seq<byte>>) {
    && |frames| == |payloads|
    && forall i :: 0 <= i < |frames| ==>
         && |frames[i]| == h.width * h.height * 4
         && codec.encode(SequenceOf(h), Planes(frames[i], h.width, h.height)) == Some(payloads[i])
  }

  lemma EncodedAppend(codec: Codec, h: Header, frames: seq<seq<byte>>, payloads: seq<seq<byte>>, rgba: seq<byte>, payload: seq<byte>)
    requires Encoded(codec, h, frames, payloads) && |rgba| == h.width * h.height * 4
    requires codec.encode(SequenceOf(h), Planes(rgba, h.width, h.height)) == Some(payload)
    ensures Encoded(codec, h, frames + [rgba], payloads + [payload])
  {
  }

  lemma AppendedFile(head: seq<byte>, payloads: seq<seq<byte>>, payload: seq<byte>)
    ensures head + Table(payloads) + LittleEndian(|payload| % U32_LIMIT, 4) + payload
            == head + Table(payloads + [payload])
  {
    TableAppend(payloads, [payload]);
    OneFrame(payload);
    Regroup(head, Table(payloads), LittleEndian(|payload| % U32_LIMIT, 4), payload);
  }

  lemma CountUp(n: nat)
    ensures (n % U32_LIMIT + 1) % U32_LIMIT == (n + 1) % U32_LIMIT
  {
  }

  lemma PatchedFile(head: seq<byte>, table: seq<byte>, raw: seq<byte>)
    requires |head| == |raw|
    ensures Overwrite(head + table, 0, raw) == raw + table
  {
  }

  class Writer {
    const header: Header
    const codec: Codec
    var file: seq<byte>
    var frameCount: u32
    ghost var frames: seq<seq<byte>>
    ghost var payloads: seq<seq<byte>>

    ghost predicate Valid() reads this {
      && header.width < 0x1_0000 && header.height < 0x1_0000 && header.frameCount == 0
      && Encoded(codec, header, frames, payloads)
      && file == HeaderBytes(header) + Table(payloads)
      && frameCount == |frames| % U32_LIMIT
    }

    constructor (header: Header, codec: Codec, file: seq<byte>)
      requires header.width < 0x1_0000 && header.height < 0x1_0000 && header.frameCount == 0
      requires file == HeaderBytes(header)
      ensures Valid() && frames == [] && this.header == header && this.codec == codec
    {
      this.header, this.codec := header, codec;
      this.file, frameCount := file, 0;
      frames, payloads := [], [];
    }

    /** Only the 16-bit range of the dimensions is checked here. */
    static method Create(width: u32, height: u32, fps: u64, codec: Codec) returns (result: Result<Writer>)
      ensures result.Ok? <==> width < 0x1_0000 && height < 0x1_0000
      ensures result.Ok? ==> fresh(result.value) && result.value.Valid() && result.value.frames == []
      ensures result.Ok? ==> result.value.header == Header(width, height, fps, 0) && result.value.codec == codec
    {
      if width > 0xFFFF || height > 0xFFFF {
        return Err;
      }
      var header := Header(width, height, fps, 0);
      var raw := WriteHeader(header);
      var writer := new Writer(header, codec, raw);
      result := Ok(writer);
    }

    /** Appends one frame, or changes nothing. */
    method WriteFrame(rgba: seq<byte>) returns (ok: bool)
      requires Valid()
      modifies this
      ensures Valid()
      ensures ok <==> |rgba| == header.width * header.height * 4
                      && codec.encode(SequenceOf(header), Planes(rgba, header.width, header.height)).Some?
      ensures ok ==> frames == old(frames) + [rgba]
      ensures !ok ==> frames == old(frames) && file == old(file) && frameCount == old(frameCount)
    {
      var expected := header.width * header.height * 4;
      if |rgba| != expected {
        return false;
      }
      var planes := RgbaToPlanes(rgba, header.width, header.height);
      var payload := codec.encode(SequenceOf(header), planes);
      if payload == None {
        return false;
      }
      EncodedAppend(codec, header, frames, payloads, rgba, payload.value);
      AppendedFile(HeaderBytes(header), payloads, payload.value);
      CountUp(|frames|);
      file := file + LittleEndian(|payload.value| % U32_LIMIT, 4);
      file := file + payload.value;
      frameCount := (frameCount + 1) % U32_LIMIT;
      frames, payloads := frames + [rgba], payloads + [payload.value];
      ok := true;
    }

    /** Patches the frame count into the header; the table stays as it is. */
    method Finish()
      requires Valid()
      modifies this
      ensures file == HeaderBytes(header.(frameCount := |frames| % U32_LIMIT)) + Table(payloads)
      ensures frames == old(frames) && payloads == old(payloads)
    {
      var raw := WriteHeader(header);
      raw := Overwrite(raw, 24, LittleEndian(frameCount, 4));
      PatchedCount(header, frameCount);
      PatchedFile(HeaderBytes(header), Table(payloads), raw);
      file := Overwrite(file, 0, raw);
    }
  }

  lemma OneFrame(payload: seq<byte>)
    ensures Table([payload]) == Frame(payload)
  {
    var rest := [payload][1..];
    assert rest == [] && Frame(payload) + [] == Frame(payload);
  }

  /** `data` with the bytes from `at` on replaced by `bytes`. */
  function Overwrite(data: seq<byte>, at: nat, bytes: seq<byte>): (r: seq<byte>)
    requires at + |bytes| <= |data|
  {
    data[..at] + bytes + data[at + |bytes|..]
  }

  lemma OverwriteMiddle(front: seq<byte>, was: seq<byte>, now: seq<byte>, back: seq<byte>)
    requires |was| == |now|
    ensures Overwrite(front + was + back, |front|, now) == front + now + back
  {
  }

  lemma PatchedCount(h: Header, count: u32)
    ensures Overwrite(HeaderBytes(h), 24, LittleEndian(count, 4)) == HeaderBytes(h.(frameCount := count))
  {
    var front := MAGIC + [0] + LittleEndian(h.width, 4) + LittleEndian(h.height, 4) + LittleEndian(h.fps, 8);
    OverwriteMiddle(front, LittleEndian(h.frameCount, 4), LittleEndian(count, 4), [VERSION, TRANSFORM_ID, PLANE_COUNT, BIT_DEPTH]);
  }

  // ----- Scanning the frame table -----

  datatype Extent = Extent(offset: nat, length: nat)

  /** The length of the frame at `cursor`, if its prefix can be read and its payload ends within
      `fileLen`. */
  function EntryAt(data: seq<byte>, fileLen: nat, cursor: nat): Option<u32> {
    if cursor + 4 > |data| then None
    else
      var length := Word(data, cursor);
      if length > 0 && cursor + 4 + length > fileLen then None else Some(length)
  }

  /** One entry per frame from `cursor` on, up to the first that is cut off. */
  function Scan(data: seq<byte>, fileLen: nat, cursor: nat): seq<Extent>
    decreases |data| - cursor
  {
    match EntryAt(data, fileLen, cursor)
    case None => []
    case Some(length) => [Extent(cursor + 4, length)] + Scan(data, fileLen, cursor + 4 + length)
  }

  /** The reader stands behind the header when the scan begins. */
  method ScanFrameTable(data: seq<byte>, fileLen: nat) returns (offsets: seq<Extent>)
    ensures offsets == Scan(data, fileLen, HEADER_LEN)
  {
    offsets := [];
    var cursor: nat := HEADER_LEN;
    ghost var whole := Scan(data, fileLen, cursor);
    while true
      invariant offsets + Scan(data, fileLen, cursor) == whole
      decreases |data| - cursor
    {
      ghost var entry := EntryAt(data, fileLen, cursor);
      if cursor + 4 > |data| {
        assert entry == None;
        break;
      }
      var length := Word(data, cursor);
      cursor := cursor + 4;
      if length > (if fileLen > cursor then fileLen - cursor else 0) {
        assert entry == None;
        break;
      }
      assert entry == Some(length);
      ThreeParts(offsets, [Extent(cursor, length)], Scan(data, fileLen, cursor + length));
      offsets := offsets + [Extent(cursor, length)];
      cursor := cursor + length;
    }
  }

  /** Where the next length prefix would be read behind `es`. */
  function EndOf(es: seq<Extent>, cursor: nat): nat {
    if es == [] then cursor else es[|es| - 1].offset + es[|es| - 1].length
  }

  /** The entry lies in the file, behind its own length prefix. */
  predicate InFile(data: seq<byte>, e: Extent) {
    4 <= e.offset && e.offset + e.length <= |data| && e.length == Word(data, e.offset - 4)
  }

  ghost predicate Contiguous(data: seq<byte>, es: seq<Extent>, cursor: nat) {
    && (forall i :: 0 <= i < |es| ==> InFile(data, es[i]))
    && (es != [] ==> es[0].offset == cursor + 4)
    && forall i :: 0 <= i < |es| - 1 ==> es[i + 1].offset == es[i].offset + es[i].length + 4
  }

  lemma ContiguousStep(data: seq<byte>, x: Extent, rest: seq<Extent>, cursor: nat)
    requires x.offset == cursor + 4 && InFile(data, x)
    requires Contiguous(data, rest, x.offset + x.length)
    ensures Contiguous(data, [x] + rest, cursor)
  {
    var es := [x] + rest;
    forall i | 0 <= i < |es| ensures InFile(data, es[i]) {
      assert i > 0 ==> es[i] == rest[i - 1];
    }
    forall i | 0 <= i < |es| - 1 ensures es[i + 1].offset == es[i].offset + es[i].length + 4 {
      assert es[i + 1] == rest[i];
      if i > 0 {
        assert es[i] == rest[i - 1] && rest[i - 1 + 1] == rest[i];
      }
    }
  }

  /** Whatever the bytes are: the entries follow each other without gap or overlap, each behind its
      own length prefix, all inside the file; and the scan stops only where the next length prefix
      is cut off or its payload would overrun the file. */
  lemma {:induction false} ScanSound(data: seq<byte>, cursor: nat)
    requires cursor <= |data|
    ensures var es := Scan(data, |data|, cursor); var end := EndOf(es, cursor);
            && Contiguous(data, es, cursor)
            && end <= |data|
            && (end + 4 <= |data| ==> end + 4 + Word(data, end) > |data|)
    decreases |data| - cursor
  {
    var entry := EntryAt(data, |data|, cursor);
    EntryBounds(data, cursor);
    if entry.Some? {
      var x := Extent(cursor + 4, entry.value);
      var next := x.offset + x.length;
      var rest := Scan(data, |data|, next);
      assert Scan(data, |data|, cursor) == [x] + rest;
      ScanSound(data, next);
      ContiguousStep(data, x, rest, cursor);
      EndOfStep(x, rest, cursor);
    } else {
      assert Scan(data, |data|, cursor) == [];
    }
  }

  lemma EntryBounds(data: seq<byte>, cursor: nat)
    requires cursor <= |data|
    ensures var entry := EntryAt(data, |data|, cursor);
            if entry.Some? then InFile(data, Extent(cursor + 4, entry.value))
            else cursor + 4 <= |data| ==> cursor + 4 + Word(data, cursor) > |data|
  {
  }

  lemma EndOfStep(x: Extent, rest: seq<Extent>, cursor: nat)
    ensures EndOf([x] + rest, cursor) == EndOf(rest, x.offset + x.length)
  {
  }

  /** Entries of a scan never overlap and come in file order. */
  lemma {:induction false} EntriesDisjoint(data: seq<byte>, cursor: nat, i: nat, j: nat)
    requires cursor <= |data| && i < j < |Scan(data, |data|, cursor)|
    ensures var es := Scan(data, |data|, cursor); es[i].offset + es[i].length + 4 <= es[j].offset
    decreases j
  {
    ScanSound(data, cursor);
    var es := Scan(data, |data|, cursor);
    assert es[j - 1 + 1].offset == es[j - 1].offset + es[j - 1].length + 4;
    if i == j - 1 {
    } else {
      EntriesDisjoint(data, cursor, i, j - 1);
    }
  }

  // ----- What a scan of a written file finds -----

  /** Where the payloads lie in a table that begins at `start`. */
  function Extents(payloads: seq<seq<byte>>, start: nat): (es: seq<Extent>)
    ensures |es| == |payloads|
  {
    if payloads == [] then []
    else [Extent(start + 4, |payloads[0]|)] + Extents(payloads[1..], start + 4 + |payloads[0]|)
  }

  ghost predicate LengthsFit(payloads: seq<seq<byte>>) {
    forall i :: 0 <= i < |payloads| ==> |payloads[i]| < U32_LIMIT
  }

  /** How many payloads lie wholly below offset `n`. */
  function Complete(payloads: seq<seq<byte>>, at: nat, n: nat): (k: nat)
    ensures k <= |payloads|
  {
    if payloads == [] || at + 4 + |payloads[0]| > n then 0
    else 1 + Complete(payloads[1..], at + 4 + |payloads[0]|, n)
  }

  /** It is the longest prefix of the table that fits. */
  lemma {:induction false} CompleteIsLongest(payloads: seq<seq<byte>>, at: nat, n: nat)
    ensures var k := Complete(payloads, at, n);
            && (k > 0 ==> at + |Table(payloads[..k])| <= n)
            && (k < |payloads| ==> at + |Table(payloads[..k + 1])| > n)
  {
    if payloads == [] {
    } else {
      var next := at + 4 + |payloads[0]|;
      if next > n {
        TableHead(payloads, 1);
      } else {
        var k := Complete(payloads[1..], next, n);
        CompleteIsLongest(payloads[1..], next, n);
        TableHead(payloads, k + 1);
        if k + 1 < |payloads| {
          TableHead(payloads, k + 2);
        }
      }
    }
  }

  lemma TableHead(payloads: seq<seq<byte>>, k: nat)
    requires 1 <= k <= |payloads|
    ensures |Table(payloads[..k])| == 4 + |payloads[0]| + |Table(payloads[1..][..k - 1])|
  {
    assert payloads[..k][1..] == payloads[1..][..k - 1];
  }

  /** From offset `at` on the file is the table of `payloads`. */
  ghost predicate Holds(file: seq<byte>, at: nat, payloads: seq<seq<byte>>) {
    at <= |file| && file[at..] == Table(payloads)
  }

  lemma HoldsFront(file: seq<byte>, at: nat, payloads: seq<seq<byte>>)
    requires Holds(file, at, payloads) && payloads != []
    ensures var p := payloads[0]; var next := at + 4 + |p|;
            && next <= |file| && file[at + 4..next] == p
            && Word(file, at) == |p| % U32_LIMIT
            && Holds(file, next, payloads[1..])
  {
    var p, rest := payloads[0], Table(payloads[1..]);
    var length := LittleEndian(|p| % U32_LIMIT, 4);
    var next := at + 4 + |p|;
    ThreeParts(length, p, rest);
    TailSlices(file, at, 0, 4);
    TailSlices(file, at, 4, 4 + |p|);
    WordRoundTrips();
  }

  /** The length prefixes of `payloads` stand where the table puts them, up to the end of the file. */
  ghost predicate Prefixed(file: seq<byte>, at: nat, payloads: seq<seq<byte>>)
    decreases |payloads|
  {
    if payloads == [] then at == |file|
    else
      var next := at + 4 + |payloads[0]|;
      next <= |file| && Word(file, at) == |payloads[0]| % U32_LIMIT && Prefixed(file, next, payloads[1..])
  }

  lemma {:induction false} HoldsPrefixed(file: seq<byte>, at: nat, payloads: seq<seq<byte>>)
    requires Holds(file, at, payloads)
    ensures Prefixed(file, at, payloads)
    decreases |payloads|
  {
    if payloads == [] {
      assert |file| == at + |Table([])|;
    } else {
      HoldsFront(file, at, payloads);
      HoldsPrefixed(file, at + 4 + |payloads[0]|, payloads[1..]);
    }
  }

  lemma WordSurvivesCut(file: seq<byte>, at: nat, n: nat)
    requires at + 4 <= n <= |file|
    ensures Word(file[..n], at) == Word(file, at)
  {
    assert file[..n][at..at + 4] == file[at..at + 4];
  }

  lemma TakeFront<T>(x: T, rest: seq<T>, k: nat)
    requires k <= |rest|
    ensures ([x] + rest)[..k + 1] == [x] + rest[..k]
  {
  }

  /** A written file cut off at any length scans to exactly the frames that are complete in it. */
  lemma {:induction false} ScanTruncated(file: seq<byte>, at: nat, payloads: seq<seq<byte>>, n: nat)
    requires Prefixed(file, at, payloads) && LengthsFit(payloads) && n <= |file|
    ensures Scan(file[..n], n, at) == Extents(payloads, at)[..Complete(payloads, at, n)]
    decreases |payloads|
  {
    if payloads == [] {
    } else {
      var p, rest := payloads[0], payloads[1..];
      var next := at + 4 + |p|;
      LengthsFitSplit(payloads);
      if at + 4 > n {
        assert Scan(file[..n], n, at) == [];
      } else {
        WordSurvivesCut(file, at, n);
        if next <= n {
          ScanTruncated(file, next, rest, n);
          TakeFront(Extent(at + 4, |p|), Extents(rest, next), Complete(rest, next, n));
        } else {
          assert Scan(file[..n], n, at) == [];
        }
      }
    }
  }

  /** A written file cut off at any length, header patched or not, scans to its longest prefix of
      frames that are complete in what is left. */
  lemma TruncatedFile(h: Header, payloads: seq<seq<byte>>, n: nat) returns (k: nat)
    requires LengthsFit(payloads) && n <= |HeaderBytes(h) + Table(payloads)|
    ensures k <= |payloads|
    ensures Scan((HeaderBytes(h) + Table(payloads))[..n], n, HEADER_LEN) == Extents(payloads, HEADER_LEN)[..k]
    ensures k > 0 ==> HEADER_LEN + |Table(payloads[..k])| <= n
    ensures k < |payloads| ==> HEADER_LEN + |Table(payloads[..k + 1])| > n
  {
    var file := HeaderBytes(h) + Table(payloads);
    assert file[HEADER_LEN..] == Table(payloads);
    HoldsPrefixed(file, HEADER_LEN, payloads);
    ScanTruncated(file, HEADER_LEN, payloads, n);
    CompleteIsLongest(payloads, HEADER_LEN, n);
    k := Complete(payloads, HEADER_LEN, n);
  }

  lemma LengthsFitSplit(payloads: seq<seq<byte>>)
    requires payloads != []
    ensures LengthsFit(payloads) <==> |payloads[0]| < U32_LIMIT && LengthsFit(payloads[1..])
  {
    if LengthsFit(payloads[1..]) {
      assert forall i :: 1 <= i < |payloads| ==> payloads[i] == payloads[1..][i - 1];
    }
  }

  /** The whole file: the scan finds every payload where it was written, exactly when every length
      fits its 32-bit prefix; a longer payload always makes it go wrong. */
  lemma {:induction false} ScanWrittenIff(file: seq<byte>, at: nat, payloads: seq<seq<byte>>)
    requires Prefixed(file, at, payloads)
    ensures Scan(file, |file|, at) == Extents(payloads, at) <==> LengthsFit(payloads)
    decreases |payloads|
  {
    if payloads == [] {
    } else {
      LengthsFitSplit(payloads);
      var p, rest := payloads[0], payloads[1..];
      var low, next := |p| % U32_LIMIT, at + 4 + |p|;
      var tail := Scan(file, |file|, at + 4 + low);
      if |p| < U32_LIMIT {
        ScanWrittenIff(file, next, rest);
        SameTails(Extent(at + 4, low), tail, Extents(rest, next));
      } else {
        assert ([Extent(at + 4, low)] + tail)[0] != ([Extent(at + 4, |p|)] + Extents(rest, next))[0];
      }
    }
  }

  lemma SameTails<T>(x: T, a: seq<T>, b: seq<T>)
    ensures [x] + a == [x] + b <==> a == b
  {
    if [x] + a == [x] + b {
      assert a == ([x] + a)[1..] && b == ([x] + b)[1..];
    }
  }

  /** The payloads stand where the table puts them. */
  ghost predicate Stand(file: seq<byte>, at: nat, payloads: seq<seq<byte>>)
    decreases |payloads|
  {
    payloads == []
    || (var next := at + 4 + |payloads[0]|;
        next <= |file| && file[at + 4..next] == payloads[0] && Stand(file, next, payloads[1..]))
  }

  lemma {:induction false} HoldsStand(file: seq<byte>, at: nat, payloads: seq<seq<byte>>)
    requires Holds(file, at, payloads)
    ensures Stand(file, at, payloads)
    decreases |payloads|
  {
    if payloads == [] {
    } else {
      HoldsFront(file, at, payloads);
      HoldsStand(file, at + 4 + |payloads[0]|, payloads[1..]);
    }
  }

  lemma {:induction false} StandsAt(file: seq<byte>, at: nat, payloads: seq<seq<byte>>, i: nat)
    requires Stand(file, at, payloads) && i < |payloads|
    ensures var e := Extents(payloads, at)[i];
            e.offset + e.length <= |file| && file[e.offset..e.offset + e.length] == payloads[i]
    decreases i
  {
    if i == 0 {
    } else {
      StandsAt(file, at + 4 + |payloads[0]|, payloads[1..], i - 1);
    }
  }

  /** The bytes of the `i`-th extent are the `i`-th payload. */
  lemma PayloadAt(file: seq<byte>, at: nat, payloads: seq<seq<byte>>, i: nat)
    requires Holds(file, at, payloads) && i < |payloads|
    ensures var e := Extents(payloads, at)[i];
            e.offset + e.length <= |file| && file[e.offset..e.offset + e.length] == payloads[i]
  {
    HoldsStand(file, at, payloads);
    StandsAt(file, at, payloads, i);
  }

  /** Reading one frame back: the payload decoder of the video source. */
  function DecodePayload(codec: Codec, s: Sequence, payload: seq<byte>, width: u32, height: u32): Result<seq<byte>> {
    var planes := codec.decode(s, payload);
    if planes == None then Err else Joined(planes.value, Area(width, height))
  }

  function Joined(planes: seq<Plane>, pixels: nat): Result<seq<byte>> {
    if WellFormed(planes, pixels) then Ok(Rgba(planes, pixels)) else Err
  }

  function Area(width: u32, height: u32): nat { width * height }

  function Payload(file: seq<byte>, e: Extent): seq<byte>
    requires e.offset + e.length <= |file|
  {
    file[e.offset..e.offset + e.length]
  }

  ghost predicate ReadsBack(codec: Codec, h: Header, file: seq<byte>, es: seq<Extent>, frames: seq<seq<byte>>) {
    && |es| == |frames|
    && forall i :: 0 <= i < |es| ==>
         && es[i].offset + es[i].length <= |file|
         && DecodePayload(codec, SequenceOf(h), Payload(file, es[i]), h.width, h.height) == Ok(Opaque(frames[i]))
  }

  lemma FrameReadsBack(codec: Codec, h: Header, frames: seq<seq<byte>>, payloads: seq<seq<byte>>, file: seq<byte>, at: nat, i: nat)
    requires Holds(file, at, payloads) && Lossless(codec) && Encoded(codec, h, frames, payloads) && i < |frames|
    ensures var e := Extents(payloads, at)[i];
            && e.offset + e.length <= |file|
            && DecodePayload(codec, SequenceOf(h), Payload(file, e), h.width, h.height) == Ok(Opaque(frames[i]))
  {
    PayloadAt(file, at, payloads, i);
    FrameDecodes(codec, h, frames[i], payloads[i]);
  }

  lemma FrameDecodes(codec: Codec, h: Header, frame: seq<byte>, payload: seq<byte>)
    requires Lossless(codec) && |frame| == h.width * h.height * 4
    requires codec.encode(SequenceOf(h), Planes(frame, h.width, h.height)) == Some(payload)
    ensures DecodePayload(codec, SequenceOf(h), payload, h.width, h.height) == Ok(Opaque(frame))
  {
    PlanesRoundTrip(frame, h.width, h.height);
  }

  /** What the writer leaves behind reads back whole: the header with the number of frames, an
      extent for each, and from every extent the frame that was written, made opaque. */
  lemma WrittenFileReadsBack(codec: Codec, h: Header, frames: seq<seq<byte>>, payloads: seq<seq<byte>>)
    requires Lossless(codec) && ValidHeader(h) && Encoded(codec, h, frames, payloads) && LengthsFit(payloads)
    ensures var done := h.(frameCount := |frames| % U32_LIMIT);
            var file := HeaderBytes(done) + Table(payloads);
            && Parse(file[..HEADER_LEN]) == Ok(done)
            && ReadsBack(codec, done, file, Scan(file, |file|, HEADER_LEN), frames)
  {
    var done := h.(frameCount := |frames| % U32_LIMIT);
    var raw := HeaderBytes(done);
    var file := raw + Table(payloads);
    assert file[..HEADER_LEN] == raw;
    HeaderRoundTrip(done);
    assert file[HEADER_LEN..] == Table(payloads);
    HoldsPrefixed(file, HEADER_LEN, payloads);
    ScanWrittenIff(file, HEADER_LEN, payloads);
    var es := Extents(payloads, HEADER_LEN);
    assert Encoded(codec, done, frames, payloads);
    forall i | 0 <= i < |es|
      ensures es[i].offset + es[i].length <= |file|
      ensures DecodePayload(codec, SequenceOf(done), Payload(file, es[i]), h.width, h.height) == Ok(Opaque(frames[i]))
    {
      FrameReadsBack(codec, done, frames, payloads, file, HEADER_LEN, i);
    }
  }
}
