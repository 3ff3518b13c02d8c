/** Rows of the job table, and the table itself. */
module JobTables {
  import opened Bytes
  import opened AssetIds
  import opened JobQueues
  import opened JobStates
  import opened RowCodec

  /** The progress fraction is carried as the bits of its double. */
  datatype JobRecord = JobRecord(jobId: u64, assetId: AssetId, priority: Priority, state: JobState, kind: Utf8,
                                 progress: u64, resumeHint: u64, payload: Utf8,
                                 createdMs: u64, updatedMs: u64, error: Option<Utf8>)

  function PriorityFromTag(tag: byte): Option<Priority> {
    match tag
    case 0 => Some(Low)
    case 1 => Some(Normal)
    case 2 => Some(High)
    case 3 => Some(Critical)
    case _ => None
  }

  // ----- The row, in two halves -----

  datatype Head = Head(assetId: AssetId, priority: Priority, state: JobState, kind: Utf8)
  datatype Tail = Tail(progress: u64, resumeHint: u64, payload: Utf8, createdMs: u64, updatedMs: u64, error: Option<Utf8>)

  function HeadOf(r: JobRecord): Head { Head(r.assetId, r.priority, r.state, r.kind) }

  function TailOf(r: JobRecord): Tail { Tail(r.progress, r.resumeHint, r.payload, r.createdMs, r.updatedMs, r.error) }

  function Record(jobId: u64, h: Head, t: Tail): JobRecord {
    JobRecord(jobId, h.assetId, h.priority, h.state, h.kind,
              t.progress, t.resumeHint, t.payload, t.createdMs, t.updatedMs, t.error)
  }

  function PutHead(buf: seq<byte>, h: Head): seq<byte> {
    PutBytes(PutU8(PutU8(PutBytes(buf, KeyBytes(h.assetId)), h.priority.Rank()), h.state.Tag()), h.kind)
  }

  function PutTail(buf: seq<byte>, t: Tail): seq<byte> {
    var buf := PutBytes(PutU64(PutU64(buf, t.progress), t.resumeHint), t.payload);
    PutOpt(PutStr, PutU64(PutU64(buf, t.createdMs), t.updatedMs), t.error)
  }

  function PutStr(buf: seq<byte>, s: Utf8): seq<byte> { PutBytes(buf, s) }

  function GetKey(row: seq<byte>, pos: nat): Step<AssetId> {
    var (key, pos) :- GetBytes(row, pos);
    match FromKeyBytes(key)
    case Ok(id) => Got(id, pos)
    case Err => Bad
  }

  function GetPriority(row: seq<byte>, pos: nat): Step<Priority> {
    var (tag, pos) :- GetU8(row, pos);
    match PriorityFromTag(tag)
    case Some(p) => Got(p, pos)
    case None => Bad
  }

  function GetState(row: seq<byte>, pos: nat): Step<JobState> {
    var (tag, pos) :- GetU8(row, pos);
    match StateFromTag(tag)
    case Some(s) => Got(s, pos)
    case None => Bad
  }

  function GetHead(row: seq<byte>, pos: nat): Step<Head> {
    var (assetId, pos) :- GetKey(row, pos);
    var (priority, pos) :- GetPriority(row, pos);
    var (state, pos) :- GetState(row, pos);
    var (kind, pos) :- GetStr(row, pos);
    Got(Head(assetId, priority, state, kind), pos)
  }

  function GetTail(row: seq<byte>, pos: nat): Step<Tail> {
    var (progress, pos) :- GetU64(row, pos);
    var (resumeHint, pos) :- GetU64(row, pos);
    var (payload, pos) :- GetStr(row, pos);
    var (createdMs, pos) :- GetU64(row, pos);
    var (updatedMs, pos) :- GetU64(row, pos);
    var (error, pos) :- GetOpt(GetStr, row, pos);
    Got(Tail(progress, resumeHint, payload, createdMs, updatedMs, error), pos)
  }

  /** The stored row; the identifier is the table's key. */
  function Encoded(r: JobRecord): seq<byte> { PutTail(PutHead([], HeadOf(r)), TailOf(r)) }

  /** Bytes behind the last field are not looked at. */
  function Decoded(jobId: u64, row: seq<byte>): Result<JobRecord> {
    var h := GetHead(row, 0);
    if h == Bad then Err
    else
      var t := GetTail(row, h.pos);
      if t == Bad then Err else Ok(Record(jobId, h.value, t.value))
  }

  /** The update time never goes back, and is the current time unless the record is ahead of it. */
  function Stamped(r: JobRecord, now: u64): JobRecord {
    r.(updatedMs := if r.updatedMs > now then r.updatedMs else now)
  }

  predicate ShortRecord(r: JobRecord) {
    Short(r.kind) && Short(r.payload) && (r.error.Some? ==> Short(r.error.value))
  }

  // ----- The row methods -----

  method EncodeJobRow(r: JobRecord, now: u64) returns (row: seq<byte>)
    ensures row == Encoded(Stamped(r, now))
  {
    var e := new Enc();
    EncodeHead(e, r);
    EncodeTail(e, r, if r.updatedMs > now then r.updatedMs else now);
    row := e.buf;
  }

  method EncodeHead(e: Enc, r: JobRecord)
    modifies e
    ensures e.buf == PutHead(old(e.buf), HeadOf(r))
  {
    e.Bytes(KeyBytes(r.assetId));
    e.U8(r.priority.Rank());
    e.U8(r.state.Tag());
    e.Bytes(r.kind);
  }

  method EncodeTail(e: Enc, r: JobRecord, updatedMs: u64)
    modifies e
    ensures e.buf == PutTail(old(e.buf), TailOf(r.(updatedMs := updatedMs)))
  {
    e.U64(r.progress);
    e.U64(r.resumeHint);
    e.Bytes(r.payload);
    e.U64(r.createdMs);
    e.U64(updatedMs);
    match r.error {
      case Some(text) =>
        e.U8(1);
        e.Bytes(text);
      case None =>
        e.U8(0);
    }
  }

  method DecodeJobRecord(jobId: u64, row: seq<byte>) returns (result: Result<JobRecord>)
    ensures result == Decoded(jobId, row)
  {
    var d := new Dec(row);
    var head :- DecodeHead(d);
    var tail :- DecodeTail(d);
    result := Ok(Record(jobId, head, tail));
  }

  method DecodeHead(d: Dec) returns (r: Result<Head>)
    modifies d
    ensures d.Took(GetHead(d.data, old(d.pos)), r)
  {
    var key :- d.Bytes();
    var assetId :- FromKeyBytes(key);
    var tag :- d.U8();
    var priority := PriorityFromTag(tag);
    if priority == None {
      return Err;
    }
    tag :- d.U8();
    var state := StateFromTag(tag);
    if state == None {
      return Err;
    }
    var kind :- d.Str();
    r := Ok(Head(assetId, priority.value, state.value, kind));
  }

  method DecodeTail(d: Dec) returns (r: Result<Tail>)
    modifies d
    ensures d.Took(GetTail(d.data, old(d.pos)), r)
  {
    var progress :- d.U64();
    var resumeHint :- d.U64();
    var payload :- d.Str();
    var createdMs :- d.U64();
    var updatedMs :- d.U64();
    var flag :- d.U8();
    var error: Option<Utf8> := None;
    if flag == 1 {
      var text :- d.Str();
      error := Some(text);
    }
    r := Ok(Tail(progress, resumeHint, payload, createdMs, updatedMs, error));
  }

  // ----- Round trip -----

  lemma TagsRoundTrip(p: Priority, s: JobState)
    ensures PriorityFromTag(p.Rank()) == Some(p) && StateFromTag(s.Tag()) == Some(s)
  {
  }

  /** No other byte is a priority or a state. */
  lemma UnknownTags(tag: byte)
    ensures PriorityFromTag(tag) == None <==> tag > 3
    ensures StateFromTag(tag) == None <==> tag > 4
  {
  }

  /** The stored tags: 0 to 3 from Low to Critical, and 0 to 4 for Pending, Running, Completed, Failed
      and Cancelled. */
  predicate TagsAre(priority: byte, state: byte, p: Priority, s: JobState) {
    && (priority == 0 <==> p == Low) && (priority == 1 <==> p == Normal)
    && (priority == 2 <==> p == High) && (priority == 3 <==> p == Critical)
    && (state == 0 <==> s == Pending) && (state == 1 <==> s == Running)
    && (state == 2 <==> s == Completed) && (state == 3 <==> s == Failed) && (state == 4 <==> s == Cancelled)
  }

  /** A row is the framed 24-byte key, a byte of priority and one of state, the framed kind, progress and
      hint, and the rest of the tail. */
  lemma JobLayout(r: JobRecord)
    ensures exists priority: byte, state: byte ::
              && TagsAre(priority, state, r.priority, r.state)
              && Encoded(r) == Framed(KeyBytes(r.assetId)) + [priority, state] + Framed(r.kind)
                               + (LittleEndian(r.progress, 8) + LittleEndian(r.resumeHint, 8)) + Rest(TailOf(r))
  {
    var front := Framed(KeyBytes(r.assetId)) + [r.priority.Rank(), r.state.Tag()] + Framed(r.kind);
    assert PutHead([], HeadOf(r)) == front by {
      HeadLayout([], HeadOf(r));
      assert [] + front == front;
    }
    TailLayout(front, TailOf(r));
    assert TagsAre(r.priority.Rank(), r.state.Tag(), r.priority, r.state);
  }

  /** The fields of the tail behind its first two words: payload, times, and the error behind its
      presence byte. */
  function Rest(t: Tail): seq<byte> {
    Framed(t.payload) + LittleEndian(t.createdMs, 8) + LittleEndian(t.updatedMs, 8)
    + (if t.error.Some? then [1] + Framed(t.error.value) else [0])
  }

  lemma TagsJoin(front: seq<byte>, key: seq<byte>, p: byte, s: byte, kind: seq<byte>)
    ensures front + key + [p] + [s] + kind == front + (key + [p, s] + kind)
  {
    Associates(front + key, [p], [s]);
    assert [p] + [s] == [p, s];
    Regroup(front, key, [p, s], kind);
    Associates(key, [p, s], kind);
  }

  lemma HeadLayout(buf: seq<byte>, h: Head)
    ensures PutHead(buf, h) == buf + (Framed(KeyBytes(h.assetId)) + [h.priority.Rank(), h.state.Tag()] + Framed(h.kind))
  {
    var key := Framed(KeyBytes(h.assetId));
    assert PutBytes(buf, KeyBytes(h.assetId)) == buf + key by { PutBytesAppends(buf, KeyBytes(h.assetId)); }
    var tagged := buf + key + [h.priority.Rank()] + [h.state.Tag()];
    assert PutHead(buf, h) == PutBytes(tagged, h.kind);
    assert PutBytes(tagged, h.kind) == tagged + Framed(h.kind) by { PutBytesAppends(tagged, h.kind); }
    TagsJoin(buf, key, h.priority.Rank(), h.state.Tag(), Framed(h.kind));
  }

  lemma WordsJoin(front: seq<byte>, a: seq<byte>, b: seq<byte>, text: seq<byte>, c: seq<byte>, d: seq<byte>, last: seq<byte>)
    ensures front + a + b + text + c + d + last == front + (a + b) + (text + c + d + last)
  {
    var f := front + a + b;
    Associates(front, a, b);
    Associates(f, text, c);
    Associates(f, text + c, d);
    Associates(f, text + c + d, last);
  }

  lemma TailLayout(buf: seq<byte>, t: Tail)
    ensures PutTail(buf, t) == buf + (LittleEndian(t.progress, 8) + LittleEndian(t.resumeHint, 8)) + Rest(t)
  {
    var b2 := buf + LittleEndian(t.progress, 8) + LittleEndian(t.resumeHint, 8);
    assert PutBytes(b2, t.payload) == b2 + Framed(t.payload) by { PutBytesAppends(b2, t.payload); }
    var b5 := b2 + Framed(t.payload) + LittleEndian(t.createdMs, 8) + LittleEndian(t.updatedMs, 8);
    assert PutTail(buf, t) == PutOpt(PutStr, b5, t.error);
    var error := if t.error.Some? then [1] + Framed(t.error.value) else [0];
    assert PutOpt(PutStr, b5, t.error) == b5 + error by { OptTextLayout(b5, t.error); }
    WordsJoin(buf, LittleEndian(t.progress, 8), LittleEndian(t.resumeHint, 8), Framed(t.payload),
              LittleEndian(t.createdMs, 8), LittleEndian(t.updatedMs, 8), error);
  }

  lemma OptTextLayout(buf: seq<byte>, v: Option<Utf8>)
    ensures PutOpt(PutStr, buf, v) == buf + if v.Some? then [1] + Framed(v.value) else [0]
  {
    if v.Some? {
      PutBytesAppends(buf + [1], v.value);
      Associates(buf, [1], Framed(v.value));
    }
  }

  lemma KeyUndoes(buf: seq<byte>, id: AssetId, row: seq<byte>)
    requires PutBytes(buf, KeyBytes(id)) <= row
    ensures Undoes(GetKey(row, |buf|), buf, id, PutBytes(buf, KeyBytes(id)), row)
  {
    BytesUndo(buf, KeyBytes(id), row);
    KeyDecodes(id);
  }

  lemma HeadUndoes(buf: seq<byte>, h: Head, row: seq<byte>)
    requires Short(h.kind) && PutHead(buf, h) <= row
    ensures Undoes(GetHead(row, |buf|), buf, h, PutHead(buf, h), row)
  {
    var b1 := PutBytes(buf, KeyBytes(h.assetId));
    var b2 := PutU8(b1, h.priority.Rank());
    var b3 := PutU8(b2, h.state.Tag());
    TagsRoundTrip(h.priority, h.state);
    StrUndoes(b3, h.kind, row);
    U8Undoes(b2, h.state.Tag(), row);
    U8Undoes(b1, h.priority.Rank(), row);
    KeyUndoes(buf, h.assetId, row);
    assert GetKey(row, |buf|) == Got(h.assetId, |b1|) && GetPriority(row, |b1|) == Got(h.priority, |b2|);
    assert GetState(row, |b2|) == Got(h.state, |b3|);
  }

  lemma OptStrUndoes(buf: seq<byte>, v: Option<Utf8>, row: seq<byte>)
    requires (v.Some? ==> Short(v.value)) && PutOpt(PutStr, buf, v) <= row
    ensures Undoes(GetOpt(GetStr, row, |buf|), buf, v, PutOpt(PutStr, buf, v), row)
  {
    if v.Some? {
      StrUndoes(PutU8(buf, 1), v.value, row);
    }
    OptUndoes(GetStr, PutStr, buf, v, row);
  }

  lemma TailUndoes(buf: seq<byte>, t: Tail, row: seq<byte>)
    requires Short(t.payload) && (t.error.Some? ==> Short(t.error.value)) && PutTail(buf, t) <= row
    ensures Undoes(GetTail(row, |buf|), buf, t, PutTail(buf, t), row)
  {
    var b1 := PutU64(buf, t.progress);
    var b2 := PutU64(b1, t.resumeHint);
    var b3 := PutBytes(b2, t.payload);
    var b4 := PutU64(b3, t.createdMs);
    var b5 := PutU64(b4, t.updatedMs);
    OptStrUndoes(b5, t.error, row);
    U64Undoes(b4, t.updatedMs, row);
    U64Undoes(b3, t.createdMs, row);
    StrUndoes(b2, t.payload, row);
    U64Undoes(b1, t.resumeHint, row);
    U64Undoes(buf, t.progress, row);
    TailSteps(t, row, |buf|, |b1|, |b2|, |b3|, |b4|, |b5|, |PutTail(buf, t)|);
  }

  lemma TailSteps(t: Tail, row: seq<byte>, p0: nat, p1: nat, p2: nat, p3: nat, p4: nat, p5: nat, p6: nat)
    requires GetU64(row, p0) == Got(t.progress, p1) && GetU64(row, p1) == Got(t.resumeHint, p2)
    requires GetStr(row, p2) == Got(t.payload, p3) && GetU64(row, p3) == Got(t.createdMs, p4)
    requires GetU64(row, p4) == Got(t.updatedMs, p5) && GetOpt(GetStr, row, p5) == Got(t.error, p6)
    ensures GetTail(row, p0) == Got(t, p6)
  {
  }

  lemma TailParts(row: seq<byte>, p0: nat) returns (p1: nat, p2: nat, p3: nat, p4: nat, p5: nat)
    requires GetTail(row, p0).Got?
    ensures var t := GetTail(row, p0).value;
            && GetU64(row, p0) == Got(t.progress, p1) && GetU64(row, p1) == Got(t.resumeHint, p2)
            && GetStr(row, p2) == Got(t.payload, p3) && GetU64(row, p3) == Got(t.createdMs, p4)
            && GetU64(row, p4) == Got(t.updatedMs, p5) && GetOpt(GetStr, row, p5) == Got(t.error, GetTail(row, p0).pos)
  {
    p1 := GetU64(row, p0).pos;
    p2 := GetU64(row, p1).pos;
    p3 := GetStr(row, p2).pos;
    p4 := GetU64(row, p3).pos;
    p5 := GetU64(row, p4).pos;
  }

  lemma HeadLocal(row: seq<byte>, longer: seq<byte>, pos: nat)
    requires row <= longer
    ensures Same(GetHead(row, pos), GetHead(longer, pos), row)
  {
    if GetHead(row, pos).Got? {
      WordsLocal(row, longer);
      StrLocal(row, longer);
      assert Same(GetBytes(row, pos), GetBytes(longer, pos), row);
    }
  }

  lemma TailLocal(row: seq<byte>, longer: seq<byte>, pos: nat)
    requires row <= longer
    ensures Same(GetTail(row, pos), GetTail(longer, pos), row)
  {
    if GetTail(row, pos).Got? {
      WordsLocal(row, longer);
      StrLocal(row, longer);
      var p1, p2, p3, p4, p5 := TailParts(row, pos);
      OptLocal(GetStr, row, longer, p5);
      assert Same(GetU64(row, pos), GetU64(longer, pos), row) && Same(GetU64(row, p1), GetU64(longer, p1), row);
      assert Same(GetStr(row, p2), GetStr(longer, p2), row) && Same(GetU64(row, p3), GetU64(longer, p3), row);
      assert Same(GetU64(row, p4), GetU64(longer, p4), row);
      TailSteps(GetTail(row, pos).value, longer, pos, p1, p2, p3, p4, p5, GetTail(row, pos).pos);
    }
  }

  /** A row decodes to the record it was made from, whatever follows it. */
  lemma JobRoundTrip(r: JobRecord, row: seq<byte>)
    requires ShortRecord(r) && Encoded(r) <= row
    ensures Decoded(r.jobId, row) == Ok(r)
    ensures GetHead(row, 0).Got? && GetTail(row, GetHead(row, 0).pos) == Got(TailOf(r), |Encoded(r)|)
  {
    var head := PutHead([], HeadOf(r));
    TailUndoes(head, TailOf(r), row);
    HeadUndoes([], HeadOf(r), row);
  }

  lemma DecodedIsShort(jobId: u64, row: seq<byte>)
    requires Decoded(jobId, row).Ok?
    ensures ShortRecord(Decoded(jobId, row).value) && Decoded(jobId, row).value.jobId == jobId
  {
    HeadIsShort(row, 0);
    TailIsShort(row, GetHead(row, 0).pos);
  }

  lemma HeadIsShort(row: seq<byte>, pos: nat)
    requires GetHead(row, pos).Got?
    ensures Short(GetHead(row, pos).value.kind)
  {
    StrIsShort(row, GetState(row, GetPriority(row, GetKey(row, pos).pos).pos).pos);
  }

  lemma TailIsShort(row: seq<byte>, pos: nat)
    requires GetTail(row, pos).Got?
    ensures var t := GetTail(row, pos).value; Short(t.payload) && (t.error.Some? ==> Short(t.error.value))
  {
    var p1, p2, p3, p4, p5 := TailParts(row, pos);
    StrIsShort(row, p2);
    OptStrIsShort(row, p5);
  }

  lemma OptStrIsShort(row: seq<byte>, pos: nat)
    requires GetOpt(GetStr, row, pos).Got?
    ensures var s := GetOpt(GetStr, row, pos).value; s.Some? ==> Short(s.value)
  {
    if GetOpt(GetStr, row, pos).value.Some? {
      StrIsShort(row, pos + 1);
    }
  }

  /** Decoding a stored row gives back the record, with its update time refreshed, exactly when
      every string has a 32-bit length. */
  lemma JobRoundTripIff(r: JobRecord, now: u64)
    ensures Decoded(r.jobId, Encoded(Stamped(r, now))) == Ok(Stamped(r, now)) <==> ShortRecord(r)
    ensures var s := Stamped(r, now);
            && s == r.(updatedMs := s.updatedMs) && s.updatedMs >= now && s.updatedMs >= r.updatedMs
            && (s.updatedMs == now || s.updatedMs == r.updatedMs)
  {
    var s := Stamped(r, now);
    if ShortRecord(r) {
      JobRoundTrip(s, Encoded(s));
    }
    if Decoded(r.jobId, Encoded(s)) == Ok(s) {
      DecodedIsShort(r.jobId, Encoded(s));
    }
  }

  /** Unlike an asset row, a job row may be followed by anything; but it cannot lose a byte. */
  lemma JobRowPrefixes(r: JobRecord, row: seq<byte>)
    requires ShortRecord(r)
    ensures Encoded(r) <= row ==> Decoded(r.jobId, row) == Ok(r)
    ensures row <= Encoded(r) ==> (Decoded(r.jobId, row).Ok? <==> row == Encoded(r))
  {
    var code := Encoded(r);
    JobRoundTrip(r, code);
    if code <= row {
      JobRoundTrip(r, row);
    }
    if row <= code && Decoded(r.jobId, row).Ok? {
      HeadLocal(row, code, 0);
      TailLocal(row, code, GetHead(row, 0).pos);
    }
  }

  // ----- The table -----

  type RowDecoder = (u64, seq<byte>) -> Result<JobRecord>

  ghost predicate AllDecodeBy(decode: RowDecoder, rows: map<u64, seq<byte>>) {
    forall id :: id in rows ==> decode(id, rows[id]).Ok?
  }

  ghost function RecordsBy(decode: RowDecoder, rows: map<u64, seq<byte>>): map<u64, JobRecord>
    requires AllDecodeBy(decode, rows)
  {
    map id | id in rows :: decode(id, rows[id]).value
  }

  ghost predicate AllDecode(rows: map<u64, seq<byte>>) {
    AllDecodeBy(Decoded, rows)
  }

  ghost function Records(rows: map<u64, seq<byte>>): map<u64, JobRecord>
    requires AllDecode(rows)
  {
    RecordsBy(Decoded, rows)
  }

  /** Storing a record is storing it among the records. */
  lemma StoreRecord(rows: map<u64, seq<byte>>, r: JobRecord, now: u64)
    requires AllDecode(rows) && ShortRecord(r)
    ensures AllDecode(rows[r.jobId := Encoded(Stamped(r, now))])
    ensures Records(rows[r.jobId := Encoded(Stamped(r, now))]) == Records(rows)[r.jobId := Stamped(r, now)]
  {
    JobRoundTripIff(r, now);
    StoreRow(Decoded, rows, r.jobId, Encoded(Stamped(r, now)));
  }

  lemma StoreRow(decode: RowDecoder, rows: map<u64, seq<byte>>, id: u64, row: seq<byte>)
    requires AllDecodeBy(decode, rows) && decode(id, row).Ok?
    ensures AllDecodeBy(decode, rows[id := row])
    ensures RecordsBy(decode, rows[id := row]) == RecordsBy(decode, rows)[id := decode(id, row).value]
  {
  }

  /** `order` runs through `ids` once, in ascending order. */
  ghost predicate Ascending(order: seq<u64>, ids: set<u64>) {
    && (forall i, j :: 0 <= i < j < |order| ==> order[i] < order[j])
    && (forall id :: id in order <==> id in ids)
  }

  function DecodeAll(decode: RowDecoder, order: seq<u64>, rows: map<u64, seq<byte>>): Result<seq<JobRecord>>
    requires forall id :: id in order ==> id in rows
  {
    if order == [] then Ok([])
    else
      var last := order[|order| - 1];
      var jobs :- DecodeAll(decode, order[..|order| - 1], rows);
      var r :- decode(last, rows[last]);
      Ok(jobs + [r])
  }

  /** A listing succeeds exactly when every row decodes; then it holds their records in order. */
  lemma {:induction false} DecodeAllIff(decode: RowDecoder, order: seq<u64>, rows: map<u64, seq<byte>>)
    requires forall id :: id in order ==> id in rows
    ensures DecodeAll(decode, order, rows).Ok? <==>
              forall i :: 0 <= i < |order| ==> decode(order[i], rows[order[i]]).Ok?
    ensures DecodeAll(decode, order, rows).Ok? ==>
              var jobs := DecodeAll(decode, order, rows).value;
              |jobs| == |order| && forall i :: 0 <= i < |order| ==> Ok(jobs[i]) == decode(order[i], rows[order[i]])
  {
    if order == [] {
    } else {
      var rest := order[..|order| - 1];
      DecodeAllIff(decode, rest, rows);
      assert forall i :: 0 <= i < |rest| ==> rest[i] == order[i];
    }
  }

  lemma DecodeAllStep(decode: RowDecoder, order: seq<u64>, rows: map<u64, seq<byte>>, i: nat, jobs: seq<JobRecord>)
    requires (forall id :: id in order ==> id in rows) && i < |order|
    requires DecodeAll(decode, order[..i], rows) == Ok(jobs)
    ensures var r := decode(order[i], rows[order[i]]);
            if r.Ok? then DecodeAll(decode, order[..i + 1], rows) == Ok(jobs + [r.value])
            else DecodeAll(decode, order, rows) == Err
  {
    assert order[..i + 1][..i] == order[..i];
    DecodeAllIff(decode, order, rows);
  }

  /** The records of the identifiers in `order`. */
  ghost predicate Lists(jobs: seq<JobRecord>, order: seq<u64>, records: map<u64, JobRecord>) {
    && |jobs| == |order|
    && forall i :: 0 <= i < |order| ==> order[i] in records && jobs[i] == records[order[i]] && jobs[i].jobId == order[i]
  }

  /** Listing a sound table yields its records, each once, in ascending order of identifier; one
      corrupt row makes the whole listing fail. */
  lemma ListingIff(order: seq<u64>, rows: map<u64, seq<byte>>)
    requires Ascending(order, rows.Keys)
    ensures DecodeAll(Decoded, order, rows).Ok? <==> AllDecode(rows)
    ensures AllDecode(rows) ==> Lists(DecodeAll(Decoded, order, rows).value, order, Records(rows))
  {
    DecodeAllIff(Decoded, order, rows);
    if DecodeAll(Decoded, order, rows).Ok? {
      forall id | id in rows ensures Decoded(id, rows[id]).Ok? {
        assert id in order;
      }
    }
    if AllDecode(rows) {
      forall i | 0 <= i < |order| ensures DecodeAll(Decoded, order, rows).value[i].jobId == order[i] {
        DecodedIsShort(order[i], rows[order[i]]);
      }
    }
  }

  function InState(jobs: seq<JobRecord>, state: JobState): seq<JobRecord> {
    if jobs == [] then []
    else InState(jobs[..|jobs| - 1], state) + (if jobs[|jobs| - 1].state == state then [jobs[|jobs| - 1]] else [])
  }

  lemma {:induction false} InStateIff(jobs: seq<JobRecord>, state: JobState, r: JobRecord)
    ensures r in InState(jobs, state) <==> r in jobs && r.state == state
  {
    if jobs == [] {
    } else {
      InStateIff(jobs[..|jobs| - 1], state, r);
      assert jobs == jobs[..|jobs| - 1] + [jobs[|jobs| - 1]];
    }
  }

  class JobTable {
    var rows: map<u64, seq<byte>>

    constructor ()
      ensures rows == map[]
    {
      rows := map[];
    }

    method UpsertJob(r: JobRecord, now: u64)
      modifies this
      ensures rows == old(rows)[r.jobId := Encoded(Stamped(r, now))]
    {
      var row := EncodeJobRow(r, now);
      rows := rows[r.jobId := row];
    }

    method GetJob(id: u64) returns (result: Result<Option<JobRecord>>)
      ensures AllDecode(rows) ==> result == Ok(if id in rows then Some(Records(rows)[id]) else None)
      ensures result == Err <==> id in rows && Decoded(id, rows[id]) == Err
    {
      if id !in rows {
        return Ok(None);
      }
      var r :- DecodeJobRecord(id, rows[id]);
      result := Ok(Some(r));
    }

    method DeleteJob(id: u64) returns (removed: bool)
      modifies this
      ensures rows == old(rows) - {id} && (removed <==> id in old(rows))
    {
      removed := id in rows;
      rows := rows - {id};
    }

    /** `order` is the ascending order in which the store iterates. One corrupt row makes the whole
        listing fail. */
    method AllJobs(order: seq<u64>) returns (result: Result<seq<JobRecord>>)
      requires Ascending(order, rows.Keys)
      ensures result == DecodeAll(Decoded, order, rows)
    {
      var jobs: seq<JobRecord> := [];
      for i := 0 to |order|
        invariant DecodeAll(Decoded, order[..i], rows) == Ok(jobs)
      {
        var r := DecodeJobRecord(order[i], rows[order[i]]);
        DecodeAllStep(Decoded, order, rows, i, jobs);
        if r == Err {
          return Err;
        }
        jobs := jobs + [r.value];
      }
      assert order[..|order|] == order;
      result := Ok(jobs);
    }

    method JobsInState(order: seq<u64>, state: JobState) returns (result: Result<seq<JobRecord>>)
      requires Ascending(order, rows.Keys)
      ensures result.Ok? <==> DecodeAll(Decoded, order, rows).Ok?
      ensures result.Ok? ==> result.value == InState(DecodeAll(Decoded, order, rows).value, state)
    {
      var jobs :- AllJobs(order);
      var picked: seq<JobRecord> := [];
      for i := 0 to |jobs|
        invariant picked == InState(jobs[..i], state)
      {
        assert jobs[..i + 1][..i] == jobs[..i];
        if jobs[i].state == state {
          picked := picked + [jobs[i]];
        }
      }
      assert jobs[..|jobs|] == jobs;
      result := Ok(picked);
    }
  }
}
