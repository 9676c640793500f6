/** Accepting an uploaded image by its bytes: which files pass, and why the others do not. */
module ImageFile {
  import opened Common
  import opened Jpeg

  const MAX_IMAGE_DIMENSION: nat := 8192
  const MAX_IMAGE_PIXELS: nat := 16_777_216
  const MIN_HEADER_BYTES: nat := 12

  datatype ImageType = PngImage | JpegImage | GifImage

  // ---- Signatures ----

  const PNG_SIGNATURE: seq<byte> := [0x89, 0x50, 0x4E, 0x47, 0x0D, 0x0A, 0x1A, 0x0A]
  const JPEG_SIGNATURE: seq<byte> := [0xFF, 0xD8, 0xFF]
  const GIF87_SIGNATURE: seq<byte> := [0x47, 0x49, 0x46, 0x38, 0x37, 0x61]
  const GIF89_SIGNATURE: seq<byte> := [0x47, 0x49, 0x46, 0x38, 0x39, 0x61]

  const FILE_SIGNATURES: seq<(ImageType, seq<byte>)> := [
    (PngImage, PNG_SIGNATURE), (JpegImage, JPEG_SIGNATURE), (GifImage, GIF87_SIGNATURE), (GifImage, GIF89_SIGNATURE)]

  predicate HasSignature(b: seq<byte>, t: ImageType) {
    match t
    case PngImage => PNG_SIGNATURE <= b
    case JpegImage => JPEG_SIGNATURE <= b
    case GifImage => GIF87_SIGNATURE <= b || GIF89_SIGNATURE <= b
  }

  /** No file carries the signatures of two types. */
  lemma OneSignature(b: seq<byte>, t: ImageType, t': ImageType)
    requires HasSignature(b, t) && HasSignature(b, t')
    ensures t == t'
  {
    assert PNG_SIGNATURE[0] == 0x89 && JPEG_SIGNATURE[0] == FF && GIF87_SIGNATURE[0] == GIF89_SIGNATURE[0] == 0x47;
  }

  /** `sniffImageMimeType`: the first signature that is a prefix. */
  method Sniff(b: seq<byte>) returns (t: Option<ImageType>)
    ensures forall u :: t == Some(u) <==> HasSignature(b, u)
    ensures t == Some(PngImage) <==> [0x89, 0x50, 0x4E, 0x47, 0x0D, 0x0A, 0x1A, 0x0A] <= b
    ensures t == Some(JpegImage) <==> [0xFF, 0xD8, 0xFF] <= b
    ensures t == Some(GifImage) <==>
      [0x47, 0x49, 0x46, 0x38, 0x37, 0x61] <= b || [0x47, 0x49, 0x46, 0x38, 0x39, 0x61] <= b
  {
    for i := 0 to |FILE_SIGNATURES|
      invariant forall k :: 0 <= k < i ==> !(FILE_SIGNATURES[k].1 <= b)
    {
      if FILE_SIGNATURES[i].1 <= b {
        var found := FILE_SIGNATURES[i].0;
        forall u | HasSignature(b, u) ensures u == found { OneSignature(b, u, found); }
        return Some(found);
      }
    }
    assert !(FILE_SIGNATURES[0].1 <= b) && !(FILE_SIGNATURES[1].1 <= b);
    assert !(FILE_SIGNATURES[2].1 <= b) && !(FILE_SIGNATURES[3].1 <= b);
    t := None;
  }

  // ---- Sizes at fixed offsets ----

  function Big32(n: nat): (s: seq<byte>)
    requires n < 0x1_0000_0000
    ensures |s| == 4
  {
    Big(n / 0x1_0000) + Big(n % 0x1_0000)
  }

  function U32(b: seq<byte>, at: nat): nat
    requires at + 4 <= |b|
  {
    U16(b, at) * 0x1_0000 + U16(b, at + 2)
  }

  lemma Halves(high: nat, low: nat, n: nat)
    requires low < 0x1_0000
    ensures high * 0x1_0000 + low == n <==> high == n / 0x1_0000 && low == n % 0x1_0000
  {
  }

  lemma BigInjective(m: nat, n: nat)
    requires m < 0x1_0000 && n < 0x1_0000 && Big(m) == Big(n)
    ensures m == n
  {
    assert U16(Big(m), 0) == U16(Big(n), 0);
  }

  lemma U32Iff(b: seq<byte>, at: nat, n: nat)
    requires at + 4 <= |b| && n < 0x1_0000_0000
    ensures U32(b, at) == n <==> b[at..at + 4] == Big32(n)
  {
    BigU16(b, at);
    BigU16(b, at + 2);
    hide U16, Big;
    var high, low := U16(b, at), U16(b, at + 2);
    Halves(high, low, n);
    assert b[at..at + 4] == Big(high) + Big(low);
    if b[at..at + 4] == Big32(n) {
      assert Big(high) == Big32(n)[..2] == Big(n / 0x1_0000) && Big(low) == Big32(n)[2..] == Big(n % 0x1_0000);
      BigInjective(high, n / 0x1_0000);
      BigInjective(low, n % 0x1_0000);
    }
  }

  function Little(n: nat): (s: seq<byte>)
    requires n < 0x1_0000
    ensures |s| == 2
  {
    [n % 256, n / 256]
  }

  function U16Little(b: seq<byte>, at: nat): nat
    requires at + 2 <= |b|
  {
    var low: int := b[at];
    var high: int := b[at + 1];
    high * 256 + low
  }

  lemma U16LittleIff(b: seq<byte>, at: nat, n: nat)
    requires at + 2 <= |b| && n < 0x1_0000
    ensures U16Little(b, at) == n <==> b[at..at + 2] == Little(n)
  {
    assert b[at..at + 2] == [b[at], b[at + 1]];
  }

  /** The chunk name as the code compares it: ASCII decoding drops each byte's top bit. */
  predicate NamesIhdr(b: seq<byte>)
    requires |b| >= 16
  {
    b[12] % 128 == 0x49 && b[13] % 128 == 0x48 && b[14] % 128 == 0x44 && b[15] % 128 == 0x52
  }

  /** `probePng` */
  method ProbePng(b: seq<byte>) returns (r: Option<Dimensions>)
    ensures forall d :: r == Some(d) <==> PngSize(b, d)
    ensures r.Some? <==>
      |b| >= 24 && b[12] % 128 == 0x49 && b[13] % 128 == 0x48 && b[14] % 128 == 0x44 && b[15] % 128 == 0x52
    ensures r.Some? ==>
      && r.value.width == ((b[16] as int * 256 + b[17]) * 256 + b[18]) * 256 + b[19]
      && r.value.height == ((b[20] as int * 256 + b[21]) * 256 + b[22]) * 256 + b[23]
  {
    if |b| < 24 { return None; }
    if !NamesIhdr(b) { return None; }
    r := Some(Dimensions(U32(b, 16), U32(b, 20)));
    forall d ensures r == Some(d) <==> PngSize(b, d) {
      if d.width < 0x1_0000_0000 { U32Iff(b, 16, d.width); }
      if d.height < 0x1_0000_0000 { U32Iff(b, 20, d.height); }
    }
  }

  /** Width and height of `d` are where a PNG header has them. */
  ghost predicate PngSize(b: seq<byte>, d: Dimensions) {
    && |b| >= 24 && NamesIhdr(b) && d.width < 0x1_0000_0000 && d.height < 0x1_0000_0000
    && b[16..20] == Big32(d.width) && b[20..24] == Big32(d.height)
  }

  /** `probeGif` */
  method ProbeGif(b: seq<byte>) returns (r: Option<Dimensions>)
    ensures forall d :: r == Some(d) <==> GifSize(b, d)
    ensures r.Some? <==> |b| >= 10
    ensures r.Some? ==>
      r.value.width == b[7] as int * 256 + b[6] && r.value.height == b[9] as int * 256 + b[8]
  {
    if |b| < 10 { return None; }
    r := Some(Dimensions(U16Little(b, 6), U16Little(b, 8)));
    forall d ensures r == Some(d) <==> GifSize(b, d) {
      if d.width < 0x1_0000 { U16LittleIff(b, 6, d.width); }
      if d.height < 0x1_0000 { U16LittleIff(b, 8, d.height); }
    }
  }

  ghost predicate GifSize(b: seq<byte>, d: Dimensions) {
    && |b| >= 10 && d.width < 0x1_0000 && d.height < 0x1_0000
    && b[6..8] == Little(d.width) && b[8..10] == Little(d.height)
  }

  // ---- Accepting a file ----

  /** The file, read as type `t`, has a header of this size. */
  ghost predicate HasSize(b: seq<byte>, t: ImageType, d: Dimensions) {
    match t
    case PngImage => PngSize(b, d)
    case JpegImage => HasFrame(b, d)
    case GifImage => GifSize(b, d)
  }

  /** `probeImageDimensions` */
  method ProbeImage(b: seq<byte>, t: ImageType) returns (r: Option<Dimensions>)
    ensures forall d :: r == Some(d) <==> HasSize(b, t, d)
  {
    match t
    case PngImage => r := ProbePng(b);
    case GifImage => r := ProbeGif(b);
    case JpegImage =>
      r := ProbeJpeg(b);
      forall d ensures r == Some(d) <==> HasFrame(b, d) { ProbeIff(b, d); }
  }

  predicate Positive(d: Dimensions) { d.width > 0 && d.height > 0 }

  predicate WithinLimits(d: Dimensions) {
    d.width <= 8192 && d.height <= 8192 && d.width * d.height <= 16_777_216
  }

  datatype Verdict = Valid(image: ImageType) | TooSmall | Unrecognised | Mismatch | Malformed | TooLarge

  ghost predicate NoPositiveSize(b: seq<byte>, t: ImageType) { forall d :: HasSize(b, t, d) ==> !Positive(d) }

  /** Long enough, of type `t` by its signature, and declared so. */
  predicate Genuine(b: seq<byte>, declared: Option<ImageType>, t: ImageType) {
    |b| >= 12 && HasSignature(b, t) && declared == Some(t)
  }

  /** `validateFileMagicBytes`; a declared type other than the three is `None`. */
  method Validate(b: seq<byte>, declared: Option<ImageType>) returns (v: Verdict)
    ensures forall t :: v == Valid(t) <==>
      Genuine(b, declared, t) && exists d :: HasSize(b, t, d) && Positive(d) && WithinLimits(d)
    ensures v.TooLarge? <==>
      exists t, d :: Genuine(b, declared, t) && HasSize(b, t, d) && Positive(d) && !WithinLimits(d)
    ensures v.Malformed? <==>
      exists t :: Genuine(b, declared, t) && NoPositiveSize(b, t)
    ensures v.TooSmall? <==> |b| < 12
    ensures v.Unrecognised? <==> |b| >= 12 && forall t :: !HasSignature(b, t)
    ensures v.Mismatch? <==> |b| >= 12 && exists t :: HasSignature(b, t) && declared != Some(t)
    ensures v.Valid? ==>
      exists d ::
        && HasSize(b, v.image, d)
        && 0 < d.width <= 8192 && 0 < d.height <= 8192 && d.width * d.height <= 16_777_216
    ensures v.TooLarge? ==>
      exists t, d ::
        && HasSize(b, t, d)
        && (d.width > 8192 || d.height > 8192 || d.width * d.height > 16_777_216)
  {
    hide HasSize, HasSignature;
    if |b| < MIN_HEADER_BYTES { return TooSmall; }
    var sniffed := Sniff(b);
    if sniffed.None? { return Unrecognised; }
    assert HasSignature(b, sniffed.value);
    if sniffed != declared { return Mismatch; }
    var t := sniffed.value;
    var dimensions := ProbeImage(b, t);
    if dimensions.None? || dimensions.value.width == 0 || dimensions.value.height == 0 {
      assert NoPositiveSize(b, t);
      return Malformed;
    }
    var d := dimensions.value;
    assert HasSize(b, t, d) && !NoPositiveSize(b, t);
    if d.width > MAX_IMAGE_DIMENSION || d.height > MAX_IMAGE_DIMENSION || d.width * d.height > MAX_IMAGE_PIXELS {
      return TooLarge;
    }
    v := Valid(t);
  }

  /** A PNG whose chunk name has every top bit set passes just the same. */
  lemma IhdrTopBitsIgnored(b: seq<byte>, b': seq<byte>, d: Dimensions)
    requires |b| == |b'| >= 24 && forall k :: 0 <= k < |b| ==>
      (if 12 <= k < 16 then b[k] % 128 == b'[k] % 128 else b[k] == b'[k])
    ensures PngSize(b, d) <==> PngSize(b', d)
  {
    assert b[16..20] == b'[16..20] && b[20..24] == b'[20..24];
  }
}
