/** Rows of the asset table. */
module AssetTables {
  import opened Bytes
  import opened AssetIds
  import opened RowCodec

  datatype MediaType = Audio | Video | Image {
    function Tag(): byte {
      match this
      case Audio => 0
      case Video => 1
      case Image => 2
    }
  }

  function MediaTypeFromTag(tag: byte): Option<MediaType> {
    match tag
    case 0 => Some(Audio)
    case 1 => Some(Video)
    case 2 => Some(Image)
    case _ => None
  }

  lemma UnknownMediaType(tag: byte)
    ensures MediaTypeFromTag(tag) == None <==> tag > 2
  {
  }

  /** Rates and durations are carried as the bits of their doubles. */
  datatype VideoInfo = VideoInfo(width: u32, height: u32, frameRate: u64, codec: Utf8, pixelFormat: Utf8,
                                 bitRate: Option<u64>, frameCount: u32, duration: u64)

  datatype AudioInfo = AudioInfo(sampleRate: u32, channels: u16, bitDepth: u16, codec: Utf8,
                                 bitRate: Option<u64>, duration: u64)

  datatype MediaInfo = MediaInfo(id: AssetId, path: Utf8, name: Utf8, size: u64, mediaType: MediaType,
                                 duration: Option<u64>, video: Option<VideoInfo>, audio: Option<AudioInfo>)

  /** Duration, video and audio. */
  type Streams = (Option<u64>, Option<VideoInfo>, Option<AudioInfo>)

  function PutVideo(buf: seq<byte>, v: VideoInfo): seq<byte> {
    var buf := PutU64(PutU32(PutU32(buf, v.width), v.height), v.frameRate);
    var buf := PutBytes(PutBytes(buf, v.codec), v.pixelFormat);
    PutU64(PutU32(PutOpt(PutU64, buf, v.bitRate), v.frameCount), v.duration)
  }

  function PutAudio(buf: seq<byte>, a: AudioInfo): seq<byte> {
    var buf := PutU16(PutU16(PutU32(buf, a.sampleRate), a.channels), a.bitDepth);
    PutU64(PutOpt(PutU64, PutBytes(buf, a.codec), a.bitRate), a.duration)
  }

  function PutId(buf: seq<byte>, id: AssetId): seq<byte> {
    PutU64(PutU64(PutU64(buf, id.pathHash), id.mtimeMs), id.size)
  }

  function PutStreams(buf: seq<byte>, streams: Streams): seq<byte> {
    PutOpt(PutAudio, PutOpt(PutVideo, PutOpt(PutU64, buf, streams.0), streams.1), streams.2)
  }

  function PutMedia(buf: seq<byte>, m: MediaInfo): seq<byte> {
    var buf := PutU8(PutBytes(PutBytes(PutId(buf, m.id), m.path), m.name), m.mediaType.Tag());
    PutStreams(buf, (m.duration, m.video, m.audio))
  }

  function GetVideo(row: seq<byte>, pos: nat): Step<VideoInfo> {
    var (width, pos) :- GetU32(row, pos);
    var (height, pos) :- GetU32(row, pos);
    var (frameRate, pos) :- GetU64(row, pos);
    var (codec, pos) :- GetStr(row, pos);
    var (pixelFormat, pos) :- GetStr(row, pos);
    var (bitRate, pos) :- GetOpt(GetU64, row, pos);
    var (frameCount, pos) :- GetU32(row, pos);
    var (duration, pos) :- GetU64(row, pos);
    Got(VideoInfo(width, height, frameRate, codec, pixelFormat, bitRate, frameCount, duration), pos)
  }

  function GetAudio(row: seq<byte>, pos: nat): Step<AudioInfo> {
    var (sampleRate, pos) :- GetU32(row, pos);
    var (channels, pos) :- GetU16(row, pos);
    var (bitDepth, pos) :- GetU16(row, pos);
    var (codec, pos) :- GetStr(row, pos);
    var (bitRate, pos) :- GetOpt(GetU64, row, pos);
    var (duration, pos) :- GetU64(row, pos);
    Got(AudioInfo(sampleRate, channels, bitDepth, codec, bitRate, duration), pos)
  }

  function GetMediaType(row: seq<byte>, pos: nat): Step<MediaType> {
    var (tag, pos) :- GetU8(row, pos);
    match MediaTypeFromTag(tag)
    case Some(t) => Got(t, pos)
    case None => Bad
  }

  function GetId(row: seq<byte>, pos: nat): Step<AssetId> {
    var (pathHash, pos) :- GetU64(row, pos);
    var (mtimeMs, pos) :- GetU64(row, pos);
    var (size, pos) :- GetU64(row, pos);
    Got(AssetId(pathHash, mtimeMs, size), pos)
  }

  function GetStreams(row: seq<byte>, pos: nat): Step<Streams> {
    var (duration, pos) :- GetOpt(GetU64, row, pos);
    var (video, pos) :- GetOpt(GetVideo, row, pos);
    var (audio, pos) :- GetOpt(GetAudio, row, pos);
    Got((duration, video, audio), pos)
  }

  function GetMedia(row: seq<byte>, pos: nat): Step<MediaInfo> {
    var (id, pos) :- GetId(row, pos);
    var (path, pos) :- GetStr(row, pos);
    var (name, pos) :- GetStr(row, pos);
    var (mediaType, pos) :- GetMediaType(row, pos);
    var (streams, pos) :- GetStreams(row, pos);
    Got(MediaInfo(id, path, name, id.size, mediaType, streams.0, streams.1, streams.2), pos)
  }

  /** The row of an asset. */
  function Encoded(m: MediaInfo): seq<byte> { PutMedia([], m) }

  /** A row is decoded whole or not at all. */
  function Decoded(row: seq<byte>): Result<MediaInfo> {
    var step := GetMedia(row, 0);
    if step.Got? && step.pos >= |row| then Ok(step.value) else Err
  }

  // ----- The row methods -----

  method EncodeMediaInfo(m: MediaInfo) returns (row: seq<byte>)
    ensures row == Encoded(m)
  {
    var e := new Enc();
    e.U64(m.id.pathHash);
    e.U64(m.id.mtimeMs);
    e.U64(m.id.size);
    e.Bytes(m.path);
    e.Bytes(m.name);
    e.U8(m.mediaType.Tag());
    EncodeStreams(e, m);
    row := e.buf;
  }

  method EncodeStreams(e: Enc, m: MediaInfo)
    modifies e
    ensures e.buf == PutStreams(old(e.buf), (m.duration, m.video, m.audio))
  {
    e.OptU64(m.duration);
    e.U8(if m.video.Some? then 1 else 0);
    if m.video.Some? {
      EncodeVideo(e, m.video.value);
    }
    e.U8(if m.audio.Some? then 1 else 0);
    if m.audio.Some? {
      EncodeAudio(e, m.audio.value);
    }
  }

  method EncodeVideo(e: Enc, v: VideoInfo)
    modifies e
    ensures e.buf == PutVideo(old(e.buf), v)
  {
    e.U32(v.width);
    e.U32(v.height);
    e.U64(v.frameRate);
    e.Bytes(v.codec);
    e.Bytes(v.pixelFormat);
    e.OptU64(v.bitRate);
    e.U32(v.frameCount);
    e.U64(v.duration);
  }

  method EncodeAudio(e: Enc, a: AudioInfo)
    modifies e
    ensures e.buf == PutAudio(old(e.buf), a)
  {
    e.U32(a.sampleRate);
    e.U16(a.channels);
    e.U16(a.bitDepth);
    e.Bytes(a.codec);
    e.OptU64(a.bitRate);
    e.U64(a.duration);
  }

  method DecodeMediaInfo(row: seq<byte>) returns (result: Result<MediaInfo>)
    ensures result == Decoded(row)
  {
    var d := new Dec(row);
    var id :- DecodeId(d);
    var path :- d.Str();
    var name :- d.Str();
    var tag :- d.U8();
    var mediaType := MediaTypeFromTag(tag);
    if mediaType == None {
      return Err;
    }
    var streams :- DecodeStreams(d);
    var empty := d.IsEmpty();
    if !empty {
      return Err;
    }
    result := Ok(MediaInfo(id, path, name, id.size, mediaType.value, streams.0, streams.1, streams.2));
  }

  method DecodeId(d: Dec) returns (r: Result<AssetId>)
    modifies d
    ensures d.Took(GetId(d.data, old(d.pos)), r)
  {
    var pathHash :- d.U64();
    var mtimeMs :- d.U64();
    var size :- d.U64();
    r := Ok(AssetId(pathHash, mtimeMs, size));
  }

  method DecodeStreams(d: Dec) returns (r: Result<Streams>)
    modifies d
    ensures d.Took(GetStreams(d.data, old(d.pos)), r)
  {
    var duration :- d.OptU64();
    var flag :- d.U8();
    var video: Option<VideoInfo> := None;
    if flag == 1 {
      var v :- DecodeVideo(d);
      video := Some(v);
    }
    flag :- d.U8();
    var audio: Option<AudioInfo> := None;
    if flag == 1 {
      var a :- DecodeAudio(d);
      audio := Some(a);
    }
    r := Ok((duration, video, audio));
  }

  method DecodeVideo(d: Dec) returns (r: Result<VideoInfo>)
    modifies d
    ensures d.Took(GetVideo(d.data, old(d.pos)), r)
  {
    var width :- d.U32();
    var height :- d.U32();
    var frameRate :- d.U64();
    var codec :- d.Str();
    var pixelFormat :- d.Str();
    var bitRate :- d.OptU64();
    var frameCount :- d.U32();
    var duration :- d.U64();
    r := Ok(VideoInfo(width, height, frameRate, codec, pixelFormat, bitRate, frameCount, duration));
  }

  method DecodeAudio(d: Dec) returns (r: Result<AudioInfo>)
    modifies d
    ensures d.Took(GetAudio(d.data, old(d.pos)), r)
  {
    var sampleRate :- d.U32();
    var channels :- d.U16();
    var bitDepth :- d.U16();
    var codec :- d.Str();
    var bitRate :- d.OptU64();
    var duration :- d.U64();
    r := Ok(AudioInfo(sampleRate, channels, bitDepth, codec, bitRate, duration));
  }

  // ----- Round trip and prefix freedom -----

  predicate ShortVideo(v: VideoInfo) { Short(v.codec) && Short(v.pixelFormat) }

  predicate ShortStreams(s: Streams) {
    (s.1.Some? ==> ShortVideo(s.1.value)) && (s.2.Some? ==> Short(s.2.value.codec))
  }

  /** Strings have a 32-bit length, and the size field repeats the size in the identity. */
  predicate Storable(m: MediaInfo) {
    m.size == m.id.size && Short(m.path) && Short(m.name) && ShortStreams((m.duration, m.video, m.audio))
  }

  // ----- The layout -----

  function VideoBytes(v: VideoInfo): seq<byte> {
    LittleEndian(v.width, 4) + LittleEndian(v.height, 4) + LittleEndian(v.frameRate, 8) + Framed(v.codec)
    + Framed(v.pixelFormat) + OptWord(v.bitRate) + LittleEndian(v.frameCount, 4) + LittleEndian(v.duration, 8)
  }

  function AudioBytes(a: AudioInfo): seq<byte> {
    LittleEndian(a.sampleRate, 4) + LittleEndian(a.channels, 2) + LittleEndian(a.bitDepth, 2) + Framed(a.codec)
    + OptWord(a.bitRate) + LittleEndian(a.duration, 8)
  }

  lemma SixJoin(buf: seq<byte>, a: seq<byte>, b: seq<byte>, c: seq<byte>, d: seq<byte>, e: seq<byte>, f: seq<byte>)
    ensures buf + a + b + c + d + e + f == buf + (a + b + c + d + e + f)
  {
    Associates(buf, a, b);
    Associates(buf, a + b, c);
    Associates(buf, a + b + c, d);
    Associates(buf, a + b + c + d, e);
    Associates(buf, a + b + c + d + e, f);
  }

  lemma VideoLayout(buf: seq<byte>, v: VideoInfo)
    ensures PutVideo(buf, v) == buf + VideoBytes(v)
  {
    var w, h, r := LittleEndian(v.width, 4), LittleEndian(v.height, 4), LittleEndian(v.frameRate, 8);
    var b3 := buf + w + h + r;
    assert PutBytes(b3, v.codec) == b3 + Framed(v.codec) by { PutBytesAppends(b3, v.codec); }
    var b4 := b3 + Framed(v.codec);
    assert PutBytes(b4, v.pixelFormat) == b4 + Framed(v.pixelFormat) by { PutBytesAppends(b4, v.pixelFormat); }
    var b5 := b4 + Framed(v.pixelFormat);
    assert PutOpt(PutU64, b5, v.bitRate) == b5 + OptWord(v.bitRate) by { PutOptWordAppends(b5, v.bitRate); }
    var front := w + h + r + Framed(v.codec) + Framed(v.pixelFormat) + OptWord(v.bitRate);
    SixJoin(buf, w, h, r, Framed(v.codec), Framed(v.pixelFormat), OptWord(v.bitRate));
    Associates(buf, front, LittleEndian(v.frameCount, 4));
    Associates(buf, front + LittleEndian(v.frameCount, 4), LittleEndian(v.duration, 8));
  }

  lemma AudioLayout(buf: seq<byte>, a: AudioInfo)
    ensures PutAudio(buf, a) == buf + AudioBytes(a)
  {
    var b3 := buf + LittleEndian(a.sampleRate, 4) + LittleEndian(a.channels, 2) + LittleEndian(a.bitDepth, 2);
    assert PutBytes(b3, a.codec) == b3 + Framed(a.codec) by { PutBytesAppends(b3, a.codec); }
    var b4 := b3 + Framed(a.codec);
    assert PutOpt(PutU64, b4, a.bitRate) == b4 + OptWord(a.bitRate) by { PutOptWordAppends(b4, a.bitRate); }
    SixJoin(buf, LittleEndian(a.sampleRate, 4), LittleEndian(a.channels, 2), LittleEndian(a.bitDepth, 2),
            Framed(a.codec), OptWord(a.bitRate), LittleEndian(a.duration, 8));
  }

  function StreamBytes(s: Streams): seq<byte> {
    OptWord(s.0) + (if s.1.Some? then [1] + VideoBytes(s.1.value) else [0])
    + (if s.2.Some? then [1] + AudioBytes(s.2.value) else [0])
  }

  lemma StreamsLayout(buf: seq<byte>, s: Streams)
    ensures PutStreams(buf, s) == buf + StreamBytes(s)
  {
    var video := if s.1.Some? then [1] + VideoBytes(s.1.value) else [0];
    var audio := if s.2.Some? then [1] + AudioBytes(s.2.value) else [0];
    var b1 := buf + OptWord(s.0);
    assert PutOpt(PutU64, buf, s.0) == b1 by { PutOptWordAppends(buf, s.0); }
    assert PutOpt(PutVideo, b1, s.1) == b1 + video by {
      if s.1.Some? { VideoLayout(b1 + [1], s.1.value); Associates(b1, [1], VideoBytes(s.1.value)); }
    }
    var b2 := b1 + video;
    assert PutOpt(PutAudio, b2, s.2) == b2 + audio by {
      if s.2.Some? { AudioLayout(b2 + [1], s.2.value); Associates(b2, [1], AudioBytes(s.2.value)); }
    }
    Associates(buf, OptWord(s.0), video);
    Associates(buf, OptWord(s.0) + video, audio);
  }

  /** A row is the three words of the identity, path and name, a byte of media type (0 to 2 for audio,
      video and image), and the streams, each behind a byte that says whether it is there. */
  lemma MediaLayout(m: MediaInfo)
    ensures exists tag: byte ::
              && (tag == 0 <==> m.mediaType == Audio) && (tag == 1 <==> m.mediaType == Video) && (tag == 2 <==> m.mediaType == Image)
              && Encoded(m) == LittleEndian(m.id.pathHash, 8) + LittleEndian(m.id.mtimeMs, 8) + LittleEndian(m.id.size, 8)
                               + Framed(m.path) + Framed(m.name) + [tag] + StreamBytes((m.duration, m.video, m.audio))
  {
    var a, b, c := LittleEndian(m.id.pathHash, 8), LittleEndian(m.id.mtimeMs, 8), LittleEndian(m.id.size, 8);
    assert [] + a == a;
    var b1 := a + b + c;
    assert PutBytes(b1, m.path) == b1 + Framed(m.path) by { PutBytesAppends(b1, m.path); }
    var b2 := b1 + Framed(m.path);
    assert PutBytes(b2, m.name) == b2 + Framed(m.name) by { PutBytesAppends(b2, m.name); }
    var tagged := b2 + Framed(m.name) + [m.mediaType.Tag()];
    StreamsLayout(tagged, (m.duration, m.video, m.audio));
    assert Encoded(m) == tagged + StreamBytes((m.duration, m.video, m.audio));
  }

  // ----- Round trips -----

  lemma VideoUndoes(buf: seq<byte>, v: VideoInfo, row: seq<byte>)
    requires ShortVideo(v) && PutVideo(buf, v) <= row
    ensures Undoes(GetVideo(row, |buf|), buf, v, PutVideo(buf, v), row)
  {
    var b1 := PutU32(buf, v.width);
    var b2 := PutU32(b1, v.height);
    var b3 := PutU64(b2, v.frameRate);
    var b4 := PutBytes(b3, v.codec);
    var b5 := PutBytes(b4, v.pixelFormat);
    var b6 := PutOpt(PutU64, b5, v.bitRate);
    var b7 := PutU32(b6, v.frameCount);
    U64Undoes(b7, v.duration, row);
    U32Undoes(b6, v.frameCount, row);
    OptU64Undoes(b5, v.bitRate, row);
    StrUndoes(b4, v.pixelFormat, row);
    StrUndoes(b3, v.codec, row);
    U64Undoes(b2, v.frameRate, row);
    U32Undoes(b1, v.height, row);
    U32Undoes(buf, v.width, row);
  }

  lemma AudioUndoes(buf: seq<byte>, a: AudioInfo, row: seq<byte>)
    requires Short(a.codec) && PutAudio(buf, a) <= row
    ensures Undoes(GetAudio(row, |buf|), buf, a, PutAudio(buf, a), row)
  {
    var b1 := PutU32(buf, a.sampleRate);
    var b2 := PutU16(b1, a.channels);
    var b3 := PutU16(b2, a.bitDepth);
    var b4 := PutBytes(b3, a.codec);
    var b5 := PutOpt(PutU64, b4, a.bitRate);
    U64Undoes(b5, a.duration, row);
    OptU64Undoes(b4, a.bitRate, row);
    StrUndoes(b3, a.codec, row);
    U16Undoes(b2, a.bitDepth, row);
    U16Undoes(b1, a.channels, row);
    U32Undoes(buf, a.sampleRate, row);
  }

  lemma IdUndoes(buf: seq<byte>, id: AssetId, row: seq<byte>)
    requires PutId(buf, id) <= row
    ensures Undoes(GetId(row, |buf|), buf, id, PutId(buf, id), row)
  {
    var b1 := PutU64(buf, id.pathHash);
    var b2 := PutU64(b1, id.mtimeMs);
    U64Undoes(b2, id.size, row);
    U64Undoes(b1, id.mtimeMs, row);
    U64Undoes(buf, id.pathHash, row);
  }

  lemma OptVideoUndoes(buf: seq<byte>, v: Option<VideoInfo>, row: seq<byte>)
    requires (v.Some? ==> ShortVideo(v.value)) && PutOpt(PutVideo, buf, v) <= row
    ensures Undoes(GetOpt(GetVideo, row, |buf|), buf, v, PutOpt(PutVideo, buf, v), row)
  {
    if v.Some? {
      VideoUndoes(PutU8(buf, 1), v.value, row);
    }
    OptUndoes(GetVideo, PutVideo, buf, v, row);
  }

  lemma OptAudioUndoes(buf: seq<byte>, a: Option<AudioInfo>, row: seq<byte>)
    requires (a.Some? ==> Short(a.value.codec)) && PutOpt(PutAudio, buf, a) <= row
    ensures Undoes(GetOpt(GetAudio, row, |buf|), buf, a, PutOpt(PutAudio, buf, a), row)
  {
    if a.Some? {
      AudioUndoes(PutU8(buf, 1), a.value, row);
    }
    OptUndoes(GetAudio, PutAudio, buf, a, row);
  }

  lemma StreamsSteps(s: Streams, row: seq<byte>, p0: nat, p1: nat, p2: nat, p3: nat)
    requires GetOpt(GetU64, row, p0) == Got(s.0, p1) && GetOpt(GetVideo, row, p1) == Got(s.1, p2)
    requires GetOpt(GetAudio, row, p2) == Got(s.2, p3)
    ensures GetStreams(row, p0) == Got(s, p3)
  {
  }

  lemma StreamsUndo(buf: seq<byte>, s: Streams, row: seq<byte>)
    requires ShortStreams(s) && PutStreams(buf, s) <= row
    ensures Undoes(GetStreams(row, |buf|), buf, s, PutStreams(buf, s), row)
  {
    var b1 := PutOpt(PutU64, buf, s.0);
    var b2 := PutOpt(PutVideo, b1, s.1);
    OptAudioUndoes(b2, s.2, row);
    OptVideoUndoes(b1, s.1, row);
    OptU64Undoes(buf, s.0, row);
    StreamsSteps(s, row, |buf|, |b1|, |b2|, |PutStreams(buf, s)|);
  }

  lemma MediaUndoes(buf: seq<byte>, m: MediaInfo, row: seq<byte>)
    requires Storable(m) && PutMedia(buf, m) <= row
    ensures Undoes(GetMedia(row, |buf|), buf, m, PutMedia(buf, m), row)
  {
    var b1 := PutId(buf, m.id);
    var b2 := PutBytes(b1, m.path);
    var b3 := PutBytes(b2, m.name);
    var b4 := PutU8(b3, m.mediaType.Tag());
    StreamsUndo(b4, (m.duration, m.video, m.audio), row);
    MediaTypeUndoes(b3, m.mediaType, row);
    StrUndoes(b2, m.name, row);
    StrUndoes(b1, m.path, row);
    IdUndoes(buf, m.id, row);
    MediaSteps(m, row, |buf|, |b1|, |b2|, |b3|, |b4|, |PutMedia(buf, m)|);
  }

  lemma MediaTypeUndoes(buf: seq<byte>, t: MediaType, row: seq<byte>)
    requires PutU8(buf, t.Tag()) <= row
    ensures Undoes(GetMediaType(row, |buf|), buf, t, PutU8(buf, t.Tag()), row)
  {
    U8Undoes(buf, t.Tag(), row);
  }

  lemma MediaSteps(m: MediaInfo, row: seq<byte>, p0: nat, p1: nat, p2: nat, p3: nat, p4: nat, p5: nat)
    requires m.size == m.id.size
    requires GetId(row, p0) == Got(m.id, p1) && GetStr(row, p1) == Got(m.path, p2) && GetStr(row, p2) == Got(m.name, p3)
    requires GetMediaType(row, p3) == Got(m.mediaType, p4)
    requires GetStreams(row, p4) == Got((m.duration, m.video, m.audio), p5)
    ensures GetMedia(row, p0) == Got(m, p5)
  {
  }

  lemma VideoLocal(row: seq<byte>, longer: seq<byte>, pos: nat)
    requires row <= longer
    ensures Same(GetVideo(row, pos), GetVideo(longer, pos), row)
  {
    if GetVideo(row, pos).Got? {
      WordsLocal(row, longer);
      StrLocal(row, longer);
      OptLocal(GetU64, row, longer, GetStr(row, GetStr(row, pos + 16).pos).pos);
    }
  }

  lemma AudioLocal(row: seq<byte>, longer: seq<byte>, pos: nat)
    requires row <= longer
    ensures Same(GetAudio(row, pos), GetAudio(longer, pos), row)
  {
    if GetAudio(row, pos).Got? {
      WordsLocal(row, longer);
      StrLocal(row, longer);
      OptLocal(GetU64, row, longer, GetStr(row, pos + 8).pos);
    }
  }

  lemma StreamsLocal(row: seq<byte>, longer: seq<byte>, pos: nat)
    requires row <= longer
    ensures Same(GetStreams(row, pos), GetStreams(longer, pos), row)
  {
    if GetStreams(row, pos).Got? {
      WordsLocal(row, longer);
      OptLocal(GetU64, row, longer, pos);
      var p := GetOpt(GetU64, row, pos).pos;
      forall p: nat ensures Same(GetVideo(row, p), GetVideo(longer, p), row) { VideoLocal(row, longer, p); }
      OptLocal(GetVideo, row, longer, p);
      forall p: nat ensures Same(GetAudio(row, p), GetAudio(longer, p), row) { AudioLocal(row, longer, p); }
      OptLocal(GetAudio, row, longer, GetOpt(GetVideo, row, p).pos);
    }
  }

  /** The steps a successful decoding went through. */
  lemma MediaParts(row: seq<byte>, p0: nat) returns (p1: nat, p2: nat, p3: nat, p4: nat)
    requires GetMedia(row, p0).Got?
    ensures var m := GetMedia(row, p0).value;
            && m.size == m.id.size
            && GetId(row, p0) == Got(m.id, p1) && GetStr(row, p1) == Got(m.path, p2) && GetStr(row, p2) == Got(m.name, p3)
            && GetMediaType(row, p3) == Got(m.mediaType, p4)
            && GetStreams(row, p4) == Got((m.duration, m.video, m.audio), GetMedia(row, p0).pos)
  {
    p1 := GetId(row, p0).pos;
    p2 := GetStr(row, p1).pos;
    p3 := GetStr(row, p2).pos;
    p4 := GetMediaType(row, p3).pos;
  }

  lemma IdLocal(row: seq<byte>, longer: seq<byte>, pos: nat)
    requires row <= longer
    ensures Same(GetId(row, pos), GetId(longer, pos), row)
    ensures Same(GetMediaType(row, pos), GetMediaType(longer, pos), row)
  {
    WordsLocal(row, longer);
  }

  lemma MediaLocal(row: seq<byte>, longer: seq<byte>, pos: nat)
    requires row <= longer
    ensures Same(GetMedia(row, pos), GetMedia(longer, pos), row)
  {
    if GetMedia(row, pos).Got? {
      var p1, p2, p3, p4 := MediaParts(row, pos);
      IdLocal(row, longer, pos);
      IdLocal(row, longer, p3);
      StrLocal(row, longer);
      assert Same(GetStr(row, p1), GetStr(longer, p1), row) && Same(GetStr(row, p2), GetStr(longer, p2), row);
      StreamsLocal(row, longer, p4);
      MediaSteps(GetMedia(row, pos).value, longer, pos, p1, p2, p3, p4, GetMedia(row, pos).pos);
    }
  }

  lemma VideoIsShort(row: seq<byte>, pos: nat)
    requires GetVideo(row, pos).Got?
    ensures ShortVideo(GetVideo(row, pos).value)
  {
    StrIsShort(row, pos + 16);
    StrIsShort(row, GetStr(row, pos + 16).pos);
  }

  lemma StreamsAreShort(row: seq<byte>, pos: nat)
    requires GetStreams(row, pos).Got?
    ensures ShortStreams(GetStreams(row, pos).value)
  {
    var p := GetOpt(GetU64, row, pos).pos;
    OptVideoIsShort(row, p);
    OptAudioIsShort(row, GetOpt(GetVideo, row, p).pos);
  }

  lemma OptVideoIsShort(row: seq<byte>, pos: nat)
    requires GetOpt(GetVideo, row, pos).Got?
    ensures var v := GetOpt(GetVideo, row, pos).value; v.Some? ==> ShortVideo(v.value)
  {
    if GetOpt(GetVideo, row, pos).value.Some? {
      VideoIsShort(row, pos + 1);
    }
  }

  lemma OptAudioIsShort(row: seq<byte>, pos: nat)
    requires GetOpt(GetAudio, row, pos).Got?
    ensures var a := GetOpt(GetAudio, row, pos).value; a.Some? ==> Short(a.value.codec)
  {
    if GetOpt(GetAudio, row, pos).value.Some? {
      StrIsShort(row, pos + 1 + 8);
    }
  }

  lemma MediaStorable(row: seq<byte>, pos: nat)
    requires GetMedia(row, pos).Got?
    ensures Storable(GetMedia(row, pos).value)
  {
    var p1, p2, p3, p4 := MediaParts(row, pos);
    StrIsShort(row, p1);
    StrIsShort(row, p2);
    StreamsAreShort(row, p4);
  }

  /** Decoding undoes encoding exactly for the storable records. */
  lemma MediaRoundTripIff(m: MediaInfo)
    ensures Decoded(Encoded(m)) == Ok(m) <==> Storable(m)
  {
    if Storable(m) {
      MediaUndoes([], m, Encoded(m));
    }
    if Decoded(Encoded(m)) == Ok(m) {
      MediaStorable(Encoded(m), 0);
    }
  }

  /** Every accepted row, even one with odd presence flags, means a record that survives being
      stored again. */
  lemma AcceptedRowsAreStable(row: seq<byte>)
    requires Decoded(row).Ok?
    ensures Decoded(Encoded(Decoded(row).value)) == Decoded(row)
  {
    MediaStorable(row, 0);
    MediaRoundTripIff(Decoded(row).value);
  }

  /** Every strict prefix and every proper extension of an encoding is refused: of the rows that
      begin an encoding or that it begins, only the encoding itself is accepted. */
  lemma RowIsPrefixFree(m: MediaInfo, row: seq<byte>)
    requires Storable(m) && (row <= Encoded(m) || Encoded(m) <= row)
    ensures Decoded(row).Ok? <==> row == Encoded(m)
  {
    var code := Encoded(m);
    MediaUndoes([], m, code);
    if Decoded(row).Ok? {
      if row <= code {
        MediaLocal(row, code, 0);
      } else {
        MediaLocal(code, row, 0);
      }
    }
  }
}
