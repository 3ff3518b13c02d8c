/** RGBA frames split into 16-bit colour planes and joined again. */
module Pixels {
  import opened Bytes

  const CHANNELS := 3
  const DEPTH: byte := 16

  datatype Plane = Plane(width: u32, height: u32, bitDepth: byte, data: seq<u16>)

  /** `v * 257` fills both bytes of the sample with `v`. */
  function Widen(v: byte): u16 {
    var wide: int := v;
    wide * 257
  }

  /** One colour channel of an RGBA buffer, widened to 16 bits; pixels the buffer lacks are zero. */
  function Channel(rgba: seq<byte>, channel: nat, pixels: nat): (data: seq<u16>)
    requires channel < 4
    ensures |data| == pixels
  {
    seq(pixels, i requires 0 <= i < pixels => if i < |rgba| / 4 then Widen(rgba[4 * i + channel]) else 0)
  }

  function Planes(rgba: seq<byte>, width: u32, height: u32): seq<Plane> {
    var pixels := width * height;
    [Plane(width, height, DEPTH, Channel(rgba, 0, pixels)),
     Plane(width, height, DEPTH, Channel(rgba, 1, pixels)),
     Plane(width, height, DEPTH, Channel(rgba, 2, pixels))]
  }

  /** A buffer with more pixels than the planes hold would be indexed out of range. */
  method RgbaToPlanes(rgba: seq<byte>, width: u32, height: u32) returns (planes: seq<Plane>)
    requires |rgba| / 4 <= width * height
    ensures planes == Planes(rgba, width, height)
    ensures |planes| == 3 && forall i :: 0 <= i < |rgba| / 4 ==> PixelStands(rgba, planes, i)
    ensures forall c :: 0 <= c < 3 ==> planes[c] == Plane(width, height, 16, planes[c].data)
  {
    var pixels := width * height;
    var r := new u16[pixels](_ => 0);
    var g := new u16[pixels](_ => 0);
    var b := new u16[pixels](_ => 0);
    for i := 0 to |rgba| / 4
      invariant forall j :: 0 <= j < pixels ==> r[j] == if j < i then Widen(rgba[4 * j]) else 0
      invariant forall j :: 0 <= j < pixels ==> g[j] == if j < i then Widen(rgba[4 * j + 1]) else 0
      invariant forall j :: 0 <= j < pixels ==> b[j] == if j < i then Widen(rgba[4 * j + 2]) else 0
    {
      r[i] := Widen(rgba[4 * i]);
      g[i] := Widen(rgba[4 * i + 1]);
      b[i] := Widen(rgba[4 * i + 2]);
    }
    assert r[..] == Channel(rgba, 0, pixels);
    assert g[..] == Channel(rgba, 1, pixels);
    assert b[..] == Channel(rgba, 2, pixels);
    planes := [Plane(width, height, DEPTH, r[..]), Plane(width, height, DEPTH, g[..]),
               Plane(width, height, DEPTH, b[..])];
  }

  /** Red, green and blue of pixel `i`, each filling both bytes of its sample in the plane of its colour. */
  ghost predicate PixelStands(rgba: seq<byte>, planes: seq<Plane>, i: nat)
    requires i < |rgba| / 4 && |planes| == 3
  {
    var (red: int, green: int, blue: int) := (rgba[4 * i], rgba[4 * i + 1], rgba[4 * i + 2]);
    && i < |planes[0].data| && planes[0].data[i] == red * 0x100 + red
    && i < |planes[1].data| && planes[1].data[i] == green * 0x100 + green
    && i < |planes[2].data| && planes[2].data[i] == blue * 0x100 + blue
  }

  predicate WellFormed(planes: seq<Plane>, pixels: nat) {
    |planes| == CHANNELS && forall c :: 0 <= c < CHANNELS ==> |planes[c].data| == pixels
  }

  /** The high byte of every sample, channels interleaved, alpha opaque. */
  function Rgba(planes: seq<Plane>, pixels: nat): (rgba: seq<byte>)
    requires WellFormed(planes, pixels)
    ensures |rgba| == pixels * 4
  {
    seq(pixels * 4, k requires 0 <= k < pixels * 4 => if k % 4 == 3 then 255 else planes[k % 4].data[k / 4] / 256)
  }

  /** Pixel `i` has the high bytes of the three planes as red, green and blue, and is opaque. */
  ghost predicate PixelJoins(rgba: seq<byte>, planes: seq<Plane>, i: nat)
    requires |planes| == 3 && i < |planes[0].data| && i < |planes[1].data| && i < |planes[2].data| && 4 * i + 3 < |rgba|
  {
    && rgba[4 * i] == planes[0].data[i] / 0x100 && rgba[4 * i + 1] == planes[1].data[i] / 0x100
    && rgba[4 * i + 2] == planes[2].data[i] / 0x100 && rgba[4 * i + 3] == 255
  }

  lemma PixelsJoin(planes: seq<Plane>, pixels: nat)
    requires WellFormed(planes, pixels)
    ensures forall i :: 0 <= i < pixels ==> PixelJoins(Rgba(planes, pixels), planes, i)
  {
  }

  /** The first `n` samples of a channel stand in the buffer. */
  ghost predicate Copied(rgba: seq<byte>, channel: nat, data: seq<u16>, n: nat) {
    n <= |data| && forall j :: 0 <= j < n ==> j * 4 + channel < |rgba| && rgba[j * 4 + channel] == data[j] / 256
  }

  lemma CopiedElsewhere(was: seq<byte>, rgba: seq<byte>, written: nat, channel: nat, data: seq<u16>, n: nat)
    requires Copied(was, channel, data, n) && |rgba| == |was| && written != channel < 4
    requires forall k :: 0 <= k < |was| && k % 4 != written ==> rgba[k] == was[k]
    ensures Copied(rgba, channel, data, n)
  {
  }

  lemma Assembled(rgba: seq<byte>, planes: seq<Plane>, pixels: nat)
    requires WellFormed(planes, pixels) && |rgba| == pixels * 4
    requires forall c :: 0 <= c < 3 ==> Copied(rgba, c, planes[c].data, pixels)
    requires forall j :: 0 <= j < pixels ==> rgba[j * 4 + 3] == 255
    ensures rgba == Rgba(planes, pixels)
  {
    forall k | 0 <= k < pixels * 4 ensures rgba[k] == Rgba(planes, pixels)[k] {
      var j, c := k / 4, k % 4;
      assert k == j * 4 + c;
      if c < 3 {
        assert Copied(rgba, c, planes[c].data, pixels);
      }
    }
  }

  /** The pass over one plane. */
  method CopyChannel(rgba: array<byte>, channel: nat, data: seq<u16>)
    requires channel < 4 && rgba.Length == |data| * 4
    modifies rgba
    ensures Copied(rgba[..], channel, data, |data|)
    ensures forall k :: 0 <= k < rgba.Length && k % 4 != channel ==> rgba[k] == old(rgba[k])
  {
    for i := 0 to |data|
      invariant forall j :: 0 <= j < i ==> rgba[j * 4 + channel] == data[j] / 256
      invariant forall k :: 0 <= k < rgba.Length && k % 4 != channel ==> rgba[k] == old(rgba[k])
    {
      rgba[i * 4 + channel] := data[i] / 256;
    }
  }

  /** The pass that makes every pixel opaque. */
  method FillAlpha(rgba: array<byte>, pixels: nat)
    requires rgba.Length == pixels * 4
    modifies rgba
    ensures forall k :: 0 <= k < rgba.Length && k % 4 != 3 ==> rgba[k] == old(rgba[k])
    ensures forall j :: 0 <= j < pixels ==> rgba[j * 4 + 3] == 255
  {
    for i := 0 to pixels
      invariant forall k :: 0 <= k < rgba.Length && k % 4 != 3 ==> rgba[k] == old(rgba[k])
      invariant forall j :: 0 <= j < i ==> rgba[j * 4 + 3] == 255
    {
      rgba[i * 4 + 3] := 255;
    }
  }

  method PlanesToRgba(planes: seq<Plane>, width: u32, height: u32) returns (result: Result<seq<byte>>)
    ensures result.Ok? <==> WellFormed(planes, width * height)
    ensures result.Ok? ==> result.value == Rgba(planes, width * height)
    ensures result.Ok? ==> forall i :: 0 <= i < width * height ==> PixelJoins(result.value, planes, i)
  {
    if |planes| != CHANNELS {
      return Err;
    }
    var pixels := width * height;
    var rgba := new byte[pixels * 4](_ => 0);
    for channel := 0 to |planes|
      invariant forall c :: 0 <= c < channel ==> |planes[c].data| == pixels && Copied(rgba[..], c, planes[c].data, pixels)
    {
      if |planes[channel].data| != pixels {
        return Err;
      }
      ghost var was := rgba[..];
      CopyChannel(rgba, channel, planes[channel].data);
      forall c | 0 <= c < channel ensures Copied(rgba[..], c, planes[c].data, pixels) {
        CopiedElsewhere(was, rgba[..], channel, c, planes[c].data, pixels);
      }
    }
    ghost var colours := rgba[..];
    FillAlpha(rgba, pixels);
    forall c | 0 <= c < 3 ensures Copied(rgba[..], c, planes[c].data, pixels) {
      CopiedElsewhere(colours, rgba[..], 3, c, planes[c].data, pixels);
    }
    Assembled(rgba[..], planes, pixels);
    PixelsJoin(planes, pixels);
    result := Ok(rgba[..]);
  }

  /** The same picture with every pixel opaque. */
  function Opaque(rgba: seq<byte>): (r: seq<byte>)
    ensures |r| == |rgba|
  {
    seq(|rgba|, k requires 0 <= k < |rgba| => if k % 4 == 3 then 255 else rgba[k])
  }

  /** Splitting a frame into planes and joining them again keeps every colour exactly and makes
      every pixel opaque. */
  lemma PlanesRoundTrip(rgba: seq<byte>, width: u32, height: u32)
    requires |rgba| == width * height * 4
    ensures WellFormed(Planes(rgba, width, height), width * height)
    ensures Rgba(Planes(rgba, width, height), width * height) == Opaque(rgba)
  {
    var pixels := width * height;
    var planes := Planes(rgba, width, height);
    forall k | 0 <= k < |rgba| ensures Rgba(planes, pixels)[k] == Opaque(rgba)[k] {
      if k % 4 != 3 {
        assert planes[k % 4].data[k / 4] == Widen(rgba[4 * (k / 4) + k % 4]);
        assert Widen(rgba[k]) / 256 == rgba[k];
      }
    }
  }

  ghost predicate AllWidened(data: seq<u16>) {
    forall i :: 0 <= i < |data| ==> data[i] % 257 == 0
  }

  lemma ChannelSurvives(planes: seq<Plane>, pixels: nat, c: nat)
    requires WellFormed(planes, pixels) && c < 3
    ensures Channel(Rgba(planes, pixels), c, pixels) == planes[c].data <==> AllWidened(planes[c].data)
  {
    var data, again := planes[c].data, Channel(Rgba(planes, pixels), c, pixels);
    forall i | 0 <= i < pixels ensures again[i] == data[i] <==> data[i] % 257 == 0 {
      assert Rgba(planes, pixels)[4 * i + c] == data[i] / 256;
      HighByteTimes257(data[i]);
    }
    assert again == data <==> forall i :: 0 <= i < pixels ==> again[i] == data[i];
  }

  /** Conversely 16-bit planes survive the 8-bit picture exactly when every sample is a widened byte. */
  lemma WidenedPlanesSurvive(planes: seq<Plane>, width: u32, height: u32)
    requires WellFormed(planes, width * height)
    requires forall c :: 0 <= c < 3 ==>
               planes[c].width == width && planes[c].height == height && planes[c].bitDepth == DEPTH
    ensures Planes(Rgba(planes, width * height), width, height) == planes <==>
              AllWidened(planes[0].data) && AllWidened(planes[1].data) && AllWidened(planes[2].data)
  {
    ChannelSurvives(planes, width * height, 0);
    ChannelSurvives(planes, width * height, 1);
    ChannelSurvives(planes, width * height, 2);
    var again := Planes(Rgba(planes, width * height), width, height);
    assert again == planes <==> again[0] == planes[0] && again[1] == planes[1] && again[2] == planes[2];
  }

  lemma HighByteTimes257(v: u16)
    ensures v / 256 * 257 == v <==> v % 257 == 0
  {
  }
}
