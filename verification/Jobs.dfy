/** The concrete jobs: what they persist of themselves, and how recovery rebuilds them. */
module Jobs {
  import opened Bytes
  import opened AssetIds
  import opened JobQueues
  import opened RowCodec
  import opened Payloads

  datatype Profile = Profile(name: seq<byte>, width: u32, height: u32, frameRate: Option<u64>, videoCodec: string,
                             videoBitRate: u64, audioCodec: string, audioBitRate: u64)

  /** The number of bits per second, the codecs and the sizes of the two default presets. */
  function Proxy1080pLow(): Profile {
    Profile(Ascii("1080p Low"), 1920, 1080, None, "kinetix-lossless", 2_000_000, "aac", 128_000)
  }

  function AudioProxyFlac(): Profile {
    Profile(Ascii("Audio Proxy (FLAC)"), 0, 0, None, "", 0, "flac", 0)
  }

  /** A text of ASCII characters; any other character does not occur in this module. */
  function Ascii(s: string): (t: seq<byte>)
    ensures |t| == |s|
  {
    seq(|s|, i requires 0 <= i < |s| => s[i] as int % 0x80)
  }

  datatype PipelineJob =
    | Waveform(id: u64, assetId: AssetId, path: seq<byte>, chunkSize: u32, sampleRate: u32)
    | Thumbnails(id: u64, assetId: AssetId, path: seq<byte>, interval: u64, width: u32, height: u32)
    | VideoProxy(id: u64, assetId: AssetId, path: seq<byte>, output: seq<byte>, profile: Profile)
    | AudioProxy(id: u64, assetId: AssetId, path: seq<byte>, output: seq<byte>, profile: Profile)
  {
    function Kind(): seq<byte> {
      match this
      case Waveform(_, _, _, _, _) => Ascii("waveform")
      case Thumbnails(_, _, _, _, _, _) => Ascii("thumbnails")
      case VideoProxy(_, _, _, _, _) => Ascii("video_proxy")
      case AudioProxy(_, _, _, _, _) => Ascii("audio_proxy")
    }

    function Priority(): Priority {
      if Waveform? then High else Normal
    }

    /** The parameters, separated by U+0001. */
    function Payload(floats: FloatText): seq<byte> {
      match this
      case Waveform(_, _, path, chunkSize, sampleRate) =>
        Join(path, Join(Decimal(chunkSize), Decimal(sampleRate)))
      case Thumbnails(_, _, path, interval, width, height) =>
        Join(path, Join(floats.format(interval), Join(Decimal(width), Decimal(height))))
      case VideoProxy(_, _, path, output, profile) => Join(path, Join(output, profile.name))
      case AudioProxy(_, _, path, output, profile) => Join(path, Join(output, profile.name))
    }
  }

  /** The kinds byte for byte: `waveform`, `thumbnails`, `video_proxy`, `audio_proxy`. Only a waveform
      has a high priority. */
  lemma PersistedKind(job: PipelineJob)
    ensures job.Priority() == if job.Waveform? then High else Normal
    ensures job.Waveform? ==> job.Kind() == [0x77, 0x61, 0x76, 0x65, 0x66, 0x6F, 0x72, 0x6D]
    ensures job.Thumbnails? ==> job.Kind() == [0x74, 0x68, 0x75, 0x6D, 0x62, 0x6E, 0x61, 0x69, 0x6C, 0x73]
    ensures job.VideoProxy? ==> job.Kind() == [0x76, 0x69, 0x64, 0x65, 0x6F, 0x5F, 0x70, 0x72, 0x6F, 0x78, 0x79]
    ensures job.AudioProxy? ==> job.Kind() == [0x61, 0x75, 0x64, 0x69, 0x6F, 0x5F, 0x70, 0x72, 0x6F, 0x78, 0x79]
  {
  }

  /** The payloads: a byte 01 separates the fields. */
  lemma PersistedPayload(floats: FloatText, job: PipelineJob)
    ensures job.Waveform? ==>
              job.Payload(floats) == job.path + [1] + Decimal(job.chunkSize) + [1] + Decimal(job.sampleRate)
    ensures job.Thumbnails? ==>
              job.Payload(floats) == job.path + [1] + floats.format(job.interval) + [1] + Decimal(job.width) + [1] + Decimal(job.height)
    ensures job.VideoProxy? || job.AudioProxy? ==>
              job.Payload(floats) == job.path + [1] + job.output + [1] + job.profile.name
  {
    match job
    case Waveform(_, _, path, chunkSize, sampleRate) => JoinTwice(path, Decimal(chunkSize), Decimal(sampleRate));
    case Thumbnails(_, _, path, interval, width, height) =>
      JoinTwice(path, floats.format(interval), Join(Decimal(width), Decimal(height)));
      JoinsOn(path + [1] + floats.format(interval) + [1], Decimal(width), Decimal(height));
    case VideoProxy(_, _, path, output, profile) => JoinTwice(path, output, profile.name);
    case AudioProxy(_, _, path, output, profile) => JoinTwice(path, output, profile.name);
  }

  lemma JoinTwice(a: seq<byte>, b: seq<byte>, c: seq<byte>)
    ensures Join(a, Join(b, c)) == a + [1] + b + [1] + c
  {
    JoinsOn(a + [1], b, c);
  }

  lemma JoinsOn(front: seq<byte>, a: seq<byte>, b: seq<byte>)
    ensures front + Join(a, b) == front + a + [1] + b
  {
  }

  /** How the standard library writes and reads doubles, given by their bits. */
  datatype FloatText = FloatText(format: u64 -> Utf8, parse: seq<byte> -> Option<u64>)

  predicate IsNan(bits: u64) { bits % 0x8000_0000_0000_0000 > 0x7FF0_0000_0000_0000 }

  /** By the fields of the double: the exponent is all ones and the mantissa is not zero. */
  lemma IsNanIff(bits: u64)
    ensures IsNan(bits) <==> bits / 0x10_0000_0000_0000 % 0x800 == 0x7FF && bits % 0x10_0000_0000_0000 != 0
  {
    var sign, exponent, mantissa := bits / 0x8000_0000_0000_0000, bits / 0x10_0000_0000_0000 % 0x800, bits % 0x10_0000_0000_0000;
    assert bits == 0x8000_0000_0000_0000 * sign + 0x10_0000_0000_0000 * exponent + mantissa;
  }

  /** Printing uses no separator, and reading undoes it for everything but NaN. */
  ghost predicate Faithful(floats: FloatText) {
    && (forall x: u64 :: NoSep(floats.format(x)))
    && forall x: u64 :: !IsNan(x) ==> floats.parse(floats.format(x)) == Some(x)
  }

  /** A job from its persisted record, if the kind is known and the numbers parse; proxies come back
      with the default preset. */
  function Rebuild(floats: FloatText, id: u64, assetId: AssetId, kind: seq<byte>, payload: seq<byte>): Option<PipelineJob> {
    var fields := Split(payload);
    if kind == Ascii("waveform") then
      var chunkSize, sampleRate := ParseU32(Field(fields, 1)), ParseU32(Field(fields, 2));
      if chunkSize == None || sampleRate == None then None
      else Some(Waveform(id, assetId, Field(fields, 0), chunkSize.value, sampleRate.value))
    else if kind == Ascii("thumbnails") then
      var interval := floats.parse(Field(fields, 1));
      var width, height := ParseU32(Field(fields, 2)), ParseU32(Field(fields, 3));
      if interval == None || width == None || height == None then None
      else Some(Thumbnails(id, assetId, Field(fields, 0), interval.value, width.value, height.value))
    else if kind == Ascii("video_proxy") then
      Some(VideoProxy(id, assetId, Field(fields, 0), Field(fields, 1), Proxy1080pLow()))
    else if kind == Ascii("audio_proxy") then
      Some(AudioProxy(id, assetId, Field(fields, 0), Field(fields, 1), AudioProxyFlac()))
    else None
  }

  lemma RebuiltFields(floats: FloatText, id: u64, assetId: AssetId, kind: seq<byte>, payload: seq<byte>)
    requires Rebuild(floats, id, assetId, kind, payload).Some?
    ensures var job, fields := Rebuild(floats, id, assetId, kind, payload).value, Split(payload);
            && job.id == id && job.assetId == assetId && job.path == Field(fields, 0)
            && (job.Waveform? ==>
                  ParseU32(Field(fields, 1)) == Some(job.chunkSize) && ParseU32(Field(fields, 2)) == Some(job.sampleRate))
            && (job.Thumbnails? ==>
                  floats.parse(Field(fields, 1)) == Some(job.interval)
                  && ParseU32(Field(fields, 2)) == Some(job.width) && ParseU32(Field(fields, 3)) == Some(job.height))
            && (job.VideoProxy? ==> job.output == Field(fields, 1) && job.profile == Proxy1080pLow())
            && (job.AudioProxy? ==> job.output == Field(fields, 1) && job.profile == AudioProxyFlac())
  {
  }

  lemma KindsDiffer()
    ensures |Ascii("waveform")| == 8 && |Ascii("thumbnails")| == 10
    ensures |Ascii("video_proxy")| == 11 && |Ascii("audio_proxy")| == 11
    ensures Ascii("video_proxy") != Ascii("audio_proxy")
  {
    assert Ascii("video_proxy")[0] == 'v' as int && Ascii("audio_proxy")[0] == 'a' as int;
  }

  /** What a caller can check before submitting: the paths hold no separator, the preset is the
      default one, and the interval prints readably. */
  ghost predicate Restorable(floats: FloatText, job: PipelineJob) {
    match job
    case Waveform(_, _, path, _, _) => NoSep(path)
    case Thumbnails(_, _, path, interval, _, _) =>
      NoSep(path) && floats.parse(floats.format(interval)) == Some(interval)
    case VideoProxy(_, _, path, output, profile) => NoSep(path) && NoSep(output) && profile == Proxy1080pLow()
    case AudioProxy(_, _, path, output, profile) => NoSep(path) && NoSep(output) && profile == AudioProxyFlac()
  }

  function Again(floats: FloatText, job: PipelineJob): Option<PipelineJob> {
    Rebuild(floats, job.id, job.assetId, job.Kind(), job.Payload(floats))
  }

  lemma WaveformRestores(floats: FloatText, job: PipelineJob)
    requires job.Waveform?
    ensures Again(floats, job) == Some(job) <==> Restorable(floats, job)
  {
    var chunk, rate := Decimal(job.chunkSize), Decimal(job.sampleRate);
    TwoFields(job.path, chunk, rate);
    SplitWhole(rate);
    DecimalRoundTrip(job.chunkSize);
    DecimalRoundTrip(job.sampleRate);
  }

  lemma SizeFields(width: u32, height: u32)
    ensures Split(Join(Decimal(width), Decimal(height))) == [Decimal(width)] + [Decimal(height)]
  {
    DecimalRoundTrip(width);
    DecimalRoundTrip(height);
    SplitJoin(Decimal(width), Decimal(height));
    SplitWhole(Decimal(height));
  }

  /** The four fields of a thumbnail payload. */
  lemma FourFields(all: seq<seq<byte>>, path: seq<byte>, interval: seq<byte>, width: seq<byte>, height: seq<byte>)
    requires all == [path, interval] + ([width] + [height])
    ensures Field(all, 0) == path && Field(all, 1) == interval && Field(all, 2) == width && Field(all, 3) == height
  {
  }

  lemma ThumbnailFields(path: seq<byte>, interval: seq<byte>, width: u32, height: u32)
    requires NoSep(interval)
    ensures var all := Split(Join(path, Join(interval, Join(Decimal(width), Decimal(height)))));
            && (Field(all, 0) == path <==> NoSep(path))
            && (NoSep(path) ==> Field(all, 1) == interval && Field(all, 2) == Decimal(width) && Field(all, 3) == Decimal(height))
  {
    TwoFields(path, interval, Join(Decimal(width), Decimal(height)));
    SizeFields(width, height);
    if NoSep(path) {
      FourFields(Split(Join(path, Join(interval, Join(Decimal(width), Decimal(height))))), path, interval, Decimal(width), Decimal(height));
    }
  }

  lemma ThumbnailsRestore(floats: FloatText, job: PipelineJob)
    requires job.Thumbnails? && Faithful(floats)
    ensures Again(floats, job) == Some(job) <==> Restorable(floats, job)
  {
    KindsDiffer();
    ThumbnailFields(job.path, floats.format(job.interval), job.width, job.height);
    DecimalRoundTrip(job.width);
    DecimalRoundTrip(job.height);
    ThumbnailsRebuilt(floats, job, job.Payload(floats));
  }

  /** What the fields of a payload make of a thumbnail job. */
  lemma ThumbnailsRebuilt(floats: FloatText, job: PipelineJob, payload: seq<byte>)
    requires job.Thumbnails?
    requires var all := Split(payload);
             && (Field(all, 0) == job.path <==> NoSep(job.path))
             && (NoSep(job.path) ==> Field(all, 1) == floats.format(job.interval)
                                     && ParseU32(Field(all, 2)) == Some(job.width) && ParseU32(Field(all, 3)) == Some(job.height))
    ensures Rebuild(floats, job.id, job.assetId, job.Kind(), payload) == Some(job) <==> Restorable(floats, job)
  {
    KindsDiffer();
  }

  lemma ProxyRestores(floats: FloatText, job: PipelineJob)
    requires job.VideoProxy? || job.AudioProxy?
    ensures Again(floats, job) == Some(job) <==> Restorable(floats, job)
  {
    KindsDiffer();
    TwoFields(job.path, job.output, job.profile.name);
  }

  /** Rebuilding undoes persisting exactly for the restorable jobs: a separator in a path, or a
      preset other than the default one, always changes the job. */
  lemma RebuildUndoesPayloadIff(floats: FloatText, job: PipelineJob)
    requires Faithful(floats)
    ensures Again(floats, job) == Some(job) <==> Restorable(floats, job)
  {
    if job.Waveform? {
      WaveformRestores(floats, job);
    } else if job.Thumbnails? {
      ThumbnailsRestore(floats, job);
    } else {
      ProxyRestores(floats, job);
    }
  }

  lemma RebuiltKind(floats: FloatText, id: u64, assetId: AssetId, kind: seq<byte>, payload: seq<byte>)
    requires Rebuild(floats, id, assetId, kind, payload).Some?
    ensures Rebuild(floats, id, assetId, kind, payload).value.Kind() == kind
  {
  }

  lemma RebuiltIsRestorable(floats: FloatText, id: u64, assetId: AssetId, kind: seq<byte>, payload: seq<byte>)
    requires Faithful(floats) && Rebuild(floats, id, assetId, kind, payload).Some?
    requires var job := Rebuild(floats, id, assetId, kind, payload).value; job.Thumbnails? ==> !IsNan(job.interval)
    ensures Restorable(floats, Rebuild(floats, id, assetId, kind, payload).value)
  {
    RebuiltFields(floats, id, assetId, kind, payload);
    FieldHasNoSep(payload, 0);
    FieldHasNoSep(payload, 1);
  }

  /** What recovery rebuilds it can rebuild again from the record it then writes, whatever the first
      record looked like. */
  lemma RebuildIsStable(floats: FloatText, id: u64, assetId: AssetId, kind: seq<byte>, payload: seq<byte>)
    requires Faithful(floats)
    ensures var job := Rebuild(floats, id, assetId, kind, payload);
            job.Some? && (job.value.Thumbnails? ==> !IsNan(job.value.interval)) ==>
              && Again(floats, job.value) == job
              && job.value.id == id && job.value.assetId == assetId && job.value.Kind() == kind
  {
    var job := Rebuild(floats, id, assetId, kind, payload);
    if job.Some? && (job.value.Thumbnails? ==> !IsNan(job.value.interval)) {
      RebuiltKind(floats, id, assetId, kind, payload);
      RebuiltFields(floats, id, assetId, kind, payload);
      RebuiltIsRestorable(floats, id, assetId, kind, payload);
      RebuildUndoesPayloadIff(floats, job.value);
    }
  }
}
