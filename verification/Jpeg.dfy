/** The JPEG header probe: exactly which byte strings give it a size, and which size. */
module Jpeg {
  import opened Common

  type byte = x: int | 0 <= x < 256

  datatype Dimensions = Dimensions(width: nat, height: nat)

  const FF: byte := 0xFF

  // ---- Markers ----

  /** Markers without a length field: SOI, RST0 to RST7 and TEM. */
  predicate IsStandalone(m: byte) { m == 0xD8 || 0xD0 <= m <= 0xD7 || m == 0x01 }

  /** EOI and SOS end the walk. */
  predicate EndsWalk(m: byte) { m == 0xD9 || m == 0xDA }

  /** A start of frame: C0 to CF, without DHT (C4), JPG (C8) and DAC (CC). */
  predicate IsSof(m: byte) { 0xC0 <= m <= 0xCF && m != 0xC4 && m != 0xC8 && m != 0xCC }

  function U16(b: seq<byte>, at: nat): nat
    requires at + 2 <= |b|
  {
    var high: int := b[at];
    var low: int := b[at + 1];
    high * 256 + low
  }

  // ---- The probe ----

  /** What the walk returns from `offset` on. */
  function ProbeAt(b: seq<byte>, offset: nat): Option<Dimensions>
    decreases |b| - offset
  {
    if offset + 3 >= |b| || b[offset] != FF then None
    else
      var m := b[offset + 1];
      if m == FF then ProbeAt(b, offset + 1)
      else if IsStandalone(m) then ProbeAt(b, offset + 2)
      else if EndsWalk(m) || U16(b, offset + 2) < 2 then None
      else if !IsSof(m) then ProbeAt(b, offset + 2 + U16(b, offset + 2))
      else if offset + 9 > |b| then None
      else Some(Dimensions(U16(b, offset + 7), U16(b, offset + 5)))
  }

  /** `probeJpeg`: on every buffer it terminates, stays in bounds, and agrees with `ProbeAt`. */
  method ProbeJpeg(b: seq<byte>) returns (r: Option<Dimensions>)
    ensures r == ProbeAt(b, 2)
  {
    var offset: nat := 2;
    while offset + 3 < |b|
      invariant ProbeAt(b, 2) == ProbeAt(b, offset)
      decreases |b| - offset
    {
      if b[offset] != FF { return None; }
      var marker := b[offset + 1];
      while marker == FF && offset + 2 < |b|
        invariant offset + 2 <= |b| && b[offset] == FF && marker == b[offset + 1]
        invariant ProbeAt(b, 2) == ProbeAt(b, offset)
        decreases |b| - offset
      {
        offset := offset + 1;
        marker := b[offset + 1];
      }
      if IsStandalone(marker) {
        offset := offset + 2;
        continue;
      }
      if EndsWalk(marker) { return None; }
      if offset + 4 > |b| { return None; }
      var segmentLength := U16(b, offset + 2);
      if segmentLength < 2 { return None; }
      if IsSof(marker) {
        if offset + 9 > |b| { return None; }
        return Some(Dimensions(U16(b, offset + 7), U16(b, offset + 5)));
      }
      offset := offset + 2 + segmentLength;
    }
    r := None;
  }

  /**
   * The walk byte by byte: fill bytes and markers without a length are stepped
   * over, other segments by their length, EOI and SOS end it, and a start of
   * frame gives the height and width behind its length and precision.
   */
  lemma WalkByByte(b: seq<byte>, at: nat)
    ensures at + 3 >= |b| || b[at] != 0xFF ==> ProbeAt(b, at).None?
    ensures at + 3 < |b| && b[at] == 0xFF ==>
      var m, length: int := b[at + 1], b[at + 2] as int * 256 + b[at + 3];
      if m == 0xFF then ProbeAt(b, at) == ProbeAt(b, at + 1)
      else if m in {0x01, 0xD0, 0xD1, 0xD2, 0xD3, 0xD4, 0xD5, 0xD6, 0xD7, 0xD8} then
        ProbeAt(b, at) == ProbeAt(b, at + 2)
      else if m in {0xD9, 0xDA} || length < 2 then ProbeAt(b, at).None?
      else if m !in {0xC0, 0xC1, 0xC2, 0xC3, 0xC5, 0xC6, 0xC7, 0xC9, 0xCA, 0xCB, 0xCD, 0xCE, 0xCF} then
        ProbeAt(b, at) == ProbeAt(b, at + 2 + length)
      else if at + 9 > |b| then ProbeAt(b, at).None?
      else
        && ProbeAt(b, at).Some?
        && ProbeAt(b, at).value.height == b[at + 5] as int * 256 + b[at + 6]
        && ProbeAt(b, at).value.width == b[at + 7] as int * 256 + b[at + 8]
  {
  }

  // ---- What a header looks like ----

  /** What may stand between SOI and the frame header (ITU-T T.81, B.1.1.2 to B.1.1.4). */
  datatype Element = Fill | Standalone(marker: byte) | Segment(marker: byte, payload: seq<byte>)

  /** The markers that start a frame (ITU-T T.81, table B.1). */
  const FRAMES: set<byte> := {0xC0, 0xC1, 0xC2, 0xC3, 0xC5, 0xC6, 0xC7, 0xC9, 0xCA, 0xCB, 0xCD, 0xCE, 0xCF}

  predicate ValidElement(e: Element) {
    match e
    case Fill => true
    case Standalone(m) => m in {0x01, 0xD0, 0xD1, 0xD2, 0xD3, 0xD4, 0xD5, 0xD6, 0xD7, 0xD8}
    case Segment(m, payload) =>
      && m !in {0x01, 0xD0, 0xD1, 0xD2, 0xD3, 0xD4, 0xD5, 0xD6, 0xD7, 0xD8, 0xD9, 0xDA, 0xFF}
      && m !in FRAMES && |payload| + 2 < 0x1_0000
  }

  predicate ValidElements(es: seq<Element>) { forall k :: 0 <= k < |es| ==> ValidElement(es[k]) }

  /** The part of a frame header the probe reads (ITU-T T.81, B.2.2). */
  datatype Frame = Frame(marker: byte, length: nat, precision: byte, size: Dimensions)

  predicate ValidFrame(f: Frame) {
    f.marker in FRAMES && 2 <= f.length < 0x1_0000 && f.size.width < 0x1_0000 && f.size.height < 0x1_0000
  }

  function Big(n: nat): (s: seq<byte>)
    requires n < 0x1_0000
    ensures |s| == 2 && U16(s, 0) == n
  {
    [n / 256, n % 256]
  }

  function PrintElement(e: Element): (s: seq<byte>)
    requires ValidElement(e)
    ensures |s| > 0 && s[0] == FF
  {
    match e
    case Fill => [FF]
    case Standalone(m) => [FF, m]
    case Segment(m, payload) => [FF, m, (|payload| + 2) / 256, (|payload| + 2) % 256] + payload
  }

  function Print(es: seq<Element>): seq<byte>
    requires ValidElements(es)
  {
    if es == [] then [] else PrintElement(es[0]) + Print(es[1..])
  }

  function PrintFrame(f: Frame): (s: seq<byte>)
    requires ValidFrame(f)
    ensures |s| == 9 && s[0] == FF
  {
    [FF, f.marker, f.length / 256, f.length % 256, f.precision,
     f.size.height / 256, f.size.height % 256, f.size.width / 256, f.size.width % 256]
  }

  /** A header from its first element on, followed by anything. */
  function Header(es: seq<Element>, f: Frame, tail: seq<byte>): (s: seq<byte>)
    requires ValidElements(es) && ValidFrame(f)
    ensures |s| >= 9 && s[0] == FF
  {
    Print(es) + (PrintFrame(f) + tail)
  }

  lemma HeaderIsFrame(f: Frame, tail: seq<byte>)
    requires ValidFrame(f)
    ensures Header([], f, tail) == PrintFrame(f) + tail
  {
    hide PrintFrame;
  }

  lemma HeaderUnfolds(es: seq<Element>, f: Frame, tail: seq<byte>)
    requires ValidElements(es) && ValidFrame(f) && es != []
    ensures Header(es, f, tail) == PrintElement(es[0]) + Header(es[1..], f, tail)
  {
  }

  // ---- Printing, then probing ----

  lemma {:induction false} ProbeFindsFrame(b: seq<byte>, offset: nat, es: seq<Element>, f: Frame, tail: seq<byte>)
    requires offset <= |b| && ValidElements(es) && ValidFrame(f) && b[offset..] == Header(es, f, tail)
    ensures ProbeAt(b, offset) == Some(f.size)
    decreases |es|
  {
    hide Header, Print, PrintElement, PrintFrame, ProbeAt, U16;
    if es == [] {
      HeaderIsFrame(f, tail);
      FrameIsRead(b, offset, f, tail);
    } else {
      HeaderUnfolds(es, f, tail);
      ElementIsSkipped(b, offset, es[0], Header(es[1..], f, tail));
      ProbeFindsFrame(b, offset + |PrintElement(es[0])|, es[1..], f, tail);
    }
  }

  lemma FrameIsRead(b: seq<byte>, offset: nat, f: Frame, tail: seq<byte>)
    requires offset <= |b| && ValidFrame(f) && b[offset..] == PrintFrame(f) + tail
    ensures ProbeAt(b, offset) == Some(f.size)
  {
    var s := PrintFrame(f);
    assert forall k :: 0 <= k < 9 ==> b[offset + k] == b[offset..][k] == s[k];
    assert s[2..4] == Big(f.length) && s[5..7] == Big(f.size.height) && s[7..9] == Big(f.size.width);
    assert U16(b, offset + 2) == U16(s[2..4], 0);
    assert U16(b, offset + 5) == U16(s[5..7], 0);
    assert U16(b, offset + 7) == U16(s[7..9], 0);
  }

  /** The walk steps over one element. */
  lemma ElementIsSkipped(b: seq<byte>, offset: nat, e: Element, rest: seq<byte>)
    requires offset <= |b| && ValidElement(e) && b[offset..] == PrintElement(e) + rest
    requires |rest| >= 9 && rest[0] == FF
    ensures ProbeAt(b, offset) == ProbeAt(b, offset + |PrintElement(e)|)
    ensures offset + |PrintElement(e)| <= |b| && b[offset + |PrintElement(e)|..] == rest
  {
    var s := PrintElement(e);
    assert b[offset + |s|..] == b[offset..][|s|..] == rest;
    assert forall k :: 0 <= k < |s| ==> b[offset + k] == b[offset..][k] == s[k];
    match e
    case Fill => assert b[offset + 1] == rest[0];
    case Standalone(m) =>
    case Segment(m, payload) =>
      assert s[2..4] == Big(|payload| + 2);
      assert U16(b, offset + 2) == U16(s[2..4], 0);
  }

  // ---- Probing, then reconstructing what was printed ----

  lemma BigU16(b: seq<byte>, at: nat)
    requires at + 2 <= |b|
    ensures U16(b, at) < 0x1_0000 && Big(U16(b, at)) == b[at..at + 2]
  {
  }

  lemma {:induction false} ProbedHeader(b: seq<byte>, offset: nat) returns (es: seq<Element>, f: Frame, tail: seq<byte>)
    requires offset <= |b| && ProbeAt(b, offset).Some?
    ensures ValidElements(es) && ValidFrame(f) && b[offset..] == Header(es, f, tail)
    ensures f.size == ProbeAt(b, offset).value
    decreases |b| - offset
  {
    hide Header, Print, PrintElement, PrintFrame;
    var m := b[offset + 1];
    if m != FF && !IsStandalone(m) && IsSof(m) {
      f, tail := FrameAt(b, offset);
      es := [];
      HeaderIsFrame(f, tail);
    } else {
      var e, next := ElementAt(b, offset);
      es, f, tail := ProbedHeader(b, next);
      var rest := es;
      es := [e] + es;
      assert es[1..] == rest;
      HeaderUnfolds(es, f, tail);
      assert b[offset..] == b[offset..next] + b[next..];
    }
  }

  lemma FrameAt(b: seq<byte>, offset: nat) returns (f: Frame, tail: seq<byte>)
    requires offset + 9 <= |b| && b[offset] == FF && IsSof(b[offset + 1]) && U16(b, offset + 2) >= 2
    ensures ValidFrame(f) && b[offset..] == PrintFrame(f) + tail
    ensures f.size == Dimensions(U16(b, offset + 7), U16(b, offset + 5))
  {
    BigU16(b, offset + 2);
    BigU16(b, offset + 5);
    BigU16(b, offset + 7);
    f := Frame(b[offset + 1], U16(b, offset + 2), b[offset + 4], Dimensions(U16(b, offset + 7), U16(b, offset + 5)));
    tail := b[offset + 9..];
  }

  /** The element the walk steps over at `offset`. */
  lemma ElementAt(b: seq<byte>, offset: nat) returns (e: Element, next: nat)
    requires ProbeAt(b, offset).Some? && (b[offset + 1] == FF || !IsSof(b[offset + 1]))
    ensures ValidElement(e) && offset < next <= |b| && b[offset..next] == PrintElement(e)
    ensures ProbeAt(b, next) == ProbeAt(b, offset)
  {
    hide U16, Big;
    var m := b[offset + 1];
    if m == FF {
      e, next := Fill, offset + 1;
    } else if IsStandalone(m) {
      e, next := Standalone(m), offset + 2;
    } else {
      next := offset + 2 + U16(b, offset + 2);
      e := SegmentAt(b, offset, next);
    }
  }

  lemma SegmentAt(b: seq<byte>, offset: nat, next: nat) returns (e: Element)
    requires offset + 4 <= next <= |b| && b[offset] == FF && next == offset + 2 + U16(b, offset + 2)
    requires b[offset + 1] != FF && !IsStandalone(b[offset + 1]) && !EndsWalk(b[offset + 1]) && !IsSof(b[offset + 1])
    ensures ValidElement(e) && b[offset..next] == PrintElement(e)
  {
    BigU16(b, offset + 2);
    hide U16, Big;
    var payload := b[offset + 4..next];
    e := Segment(b[offset + 1], payload);
    assert b[offset..next] == [FF, b[offset + 1]] + b[offset + 2..offset + 4] + payload;
  }

  /** The buffer is two bytes, a list of elements, a frame header of size `d`, and anything after it. */
  ghost predicate HasFrame(b: seq<byte>, d: Dimensions) {
    |b| >= 2 && exists es, f, tail :: IsHeader(b[2..], es, f, tail) && f.size == d
  }

  ghost predicate IsHeader(s: seq<byte>, es: seq<Element>, f: Frame, tail: seq<byte>) {
    ValidElements(es) && ValidFrame(f) && s == Header(es, f, tail)
  }

  /** The probe gives a size exactly for well-formed headers, and then the frame's own. */
  lemma ProbeIff(b: seq<byte>, d: Dimensions)
    ensures ProbeAt(b, 2) == Some(d) <==> HasFrame(b, d)
  {
    if ProbeAt(b, 2) == Some(d) {
      var es, f, tail := ProbedHeader(b, 2);
      assert IsHeader(b[2..], es, f, tail);
    }
    if HasFrame(b, d) {
      var es, f, tail :| IsHeader(b[2..], es, f, tail) && f.size == d;
      ProbeFindsFrame(b, 2, es, f, tail);
    }
  }
}
