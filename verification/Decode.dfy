/** The shared page-size arithmetic, and what the broker accepts from a decode child. */
module Decode {
  import opened Common
  import opened Pump

  // ---------- Page size ----------

  datatype Size = Size(width: nat, height: nat, scale: real)

  function Max(a: nat, b: nat): nat { if a >= b then a else b }

  predicate SwapsSides(orientation: int) { 5 <= orientation <= 8 }

  /** One side scaled so the long edge is the limit, rounded half up, never below one pixel. */
  function ScaledSide(side: nat, limit: nat, longEdge: nat): nat
    requires longEdge > 0
  {
    var n := (side * limit * 2 + longEdge) / (longEdge * 2);
    if n < 1 then 1 else n
  }

  function ScaledSize(sourceWidth: nat, sourceHeight: nat, orientation: int, limit: nat): Size {
    var width := if SwapsSides(orientation) then sourceHeight else sourceWidth;
    var height := if SwapsSides(orientation) then sourceWidth else sourceHeight;
    var longEdge := Max(width, height);
    if longEdge <= limit then Size(width, height, 1.0)
    else Size(ScaledSide(width, limit, longEdge), ScaledSide(height, limit, longEdge), limit as real / longEdge as real)
  }

  /** `n` is `x / d` rounded half up. */
  predicate HalfUp(n: nat, x: nat, d: nat) {
    2 * n * d <= 2 * x + d < 2 * (n + 1) * d
  }

  lemma DivBounds(a: nat, b: nat)
    requires b > 0
    ensures (a / b) * b <= a < (a / b + 1) * b
  {
  }

  lemma RoundedHalfUp(x: nat, d: nat)
    requires d > 0
    ensures HalfUp((2 * x + d) / (2 * d), x, d)
  {
    var q := (2 * x + d) / (2 * d);
    DivBounds(2 * x + d, 2 * d);
    assert q * (2 * d) == 2 * q * d;
    assert (q + 1) * (2 * d) == 2 * (q + 1) * d;
  }

  lemma MulMonotone(a: nat, b: nat, c: nat)
    requires a <= b
    ensures a * c <= b * c
  {
  }

  lemma MulStrict(a: nat, b: nat, c: nat)
    requires a * c < b * c
    ensures a < b
  {
    if a >= b {
      MulMonotone(b, a, c);
    }
  }

  lemma RoundedAtMost(x: nat, d: nat, limit: nat)
    requires d > 0 && x <= limit * d
    ensures (2 * x + d) / (2 * d) <= limit
  {
    var q := (2 * x + d) / (2 * d);
    DivBounds(2 * x + d, 2 * d);
    assert q * (2 * d) <= 2 * (limit * d) + d < (limit + 1) * (2 * d) by {
      assert (limit + 1) * (2 * d) == 2 * (limit * d) + 2 * d;
    }
    MulStrict(q, limit + 1, 2 * d);
  }

  lemma RoundedExact(d: nat, limit: nat)
    requires d > 0
    ensures (2 * (limit * d) + d) / (2 * d) == limit
  {
    var q := (2 * (limit * d) + d) / (2 * d);
    RoundedAtMost(limit * d, d, limit);
    DivBounds(2 * (limit * d) + d, 2 * d);
    assert limit * (2 * d) < (q + 1) * (2 * d) by {
      assert limit * (2 * d) == 2 * (limit * d);
    }
    MulStrict(limit, q + 1, 2 * d);
  }

  lemma ScaledSideIs(side: nat, limit: nat, longEdge: nat)
    requires longEdge > 0
    ensures var q := (2 * (side * limit) + longEdge) / (2 * longEdge);
            ScaledSide(side, limit, longEdge) == if q < 1 then 1 else q
  {
    assert side * limit * 2 + longEdge == 2 * (side * limit) + longEdge && longEdge * 2 == 2 * longEdge;
  }

  /** A scaled side lies in 1..limit, is within half a pixel unless clamped, and the long side is the limit. */
  lemma ScaledSideBounds(side: nat, limit: nat, longEdge: nat)
    requires 1 <= side <= longEdge && 1 <= limit < longEdge
    ensures 1 <= ScaledSide(side, limit, longEdge) <= limit
    ensures HalfUp(ScaledSide(side, limit, longEdge), side * limit, longEdge)
            || (ScaledSide(side, limit, longEdge) == 1 && 2 * (side * limit) < longEdge)
    ensures side == longEdge ==> ScaledSide(side, limit, longEdge) == limit
  {
    hide ScaledSide, HalfUp;
    var x := side * limit;
    ScaledSideIs(side, limit, longEdge);
    RoundedHalfUp(x, longEdge);
    assert x <= limit * longEdge by {
      MulMonotone(side, longEdge, limit);
      assert longEdge * limit == limit * longEdge;
    }
    RoundedAtMost(x, longEdge, limit);
    if side == longEdge {
      assert x == limit * longEdge;
      RoundedExact(longEdge, limit);
    }
    if (2 * x + longEdge) / (2 * longEdge) < 1 {
      DivBounds(2 * x + longEdge, 2 * longEdge);
    }
  }

  /** Page sizes: both sides in 1..limit, the long side exactly the limit when scaling, and a page
      that already fits is left alone. */
  lemma PageSizeBounds(w: nat, h: nat, orientation: int, limit: nat)
    requires w >= 1 && h >= 1 && limit >= 1
    ensures var s := ScaledSize(w, h, orientation, limit);
            && 1 <= s.width <= limit && 1 <= s.height <= limit
            && (Max(w, h) > limit ==> Max(s.width, s.height) == limit)
            && (Max(w, h) <= limit ==> {s.width, s.height} == {w, h} && s.scale == 1.0)
  {
    if Max(w, h) > limit {
      ScaledSideBounds(w, limit, Max(w, h));
      ScaledSideBounds(h, limit, Max(w, h));
    }
  }

  /** Resizing a page that was already resized changes nothing. */
  lemma PageSizeFixpoint(w: nat, h: nat, orientation: int, limit: nat)
    requires w >= 1 && h >= 1 && limit >= 1
    ensures var s := ScaledSize(w, h, orientation, limit);
            ScaledSize(s.width, s.height, 1, limit) == Size(s.width, s.height, 1.0)
  {
    PageSizeBounds(w, h, orientation, limit);
  }

  // ---------- Requests and responses ----------

  datatype Request = Request(byteCount: nat, maxSourceBytes: nat, maxSourcePixels: nat, maxSourceEdge: nat,
                             maxLongEdge: nat, memoryBytes: nat, cpuSeconds: nat)

  const MEMORY_PAGE_BYTES := 4096
  const RESPONSE_HEADER_MAX_BYTES := 1024

  /** The value checks of `parse_request`. */
  predicate ValidRequest(q: Request) {
    && q.byteCount >= 1 && q.maxSourceBytes >= 1 && q.maxSourcePixels >= 1 && q.maxSourceEdge >= 1
    && q.maxLongEdge >= 1 && q.memoryBytes >= 1 && q.cpuSeconds >= 1
    && q.memoryBytes % MEMORY_PAGE_BYTES == 0
    && q.byteCount <= q.maxSourceBytes
  }

  function StdoutCap(q: Request): nat {
    RESPONSE_HEADER_MAX_BYTES + q.maxLongEdge * q.maxLongEdge * 3
  }

  datatype Mode = Gray | Rgb

  function Channels(mode: Mode): nat { if mode.Gray? then 1 else 3 }

  datatype Refusal = Unreadable | TooManyPixels | SourceEdge | UnsupportedMode | Animated

  datatype Header = Refused(reason: Refusal)
                  | Decoded(mode: Mode, width: int, height: int, sourceWidth: int, sourceHeight: int,
                            orientation: int, scale: real)

  datatype Page = Page(mode: Mode, width: nat, height: nat, sourceWidth: nat, sourceHeight: nat,
                       orientation: nat, scale: real, pixels: seq<byte>)

  datatype Answer = PageAnswer(page: Page) | ChildRefusal(reason: Refusal) | FailedValidation | Budget | ChildError

  /** The JSON lines of the wire: `parse` reads one line, LF included, and refuses anything but one header. */
  datatype Wire = Wire(encode: Header -> seq<byte>, parse: seq<byte> -> Option<Header>)


  /** The broker's checks of a decoded header and its body. */
  predicate ValidDecoded(h: Header, body: seq<byte>, q: Request) {
    && h.Decoded?
    && 1 <= h.orientation <= 8
    && h.sourceWidth >= 1 && h.sourceHeight >= 1
    && h.sourceWidth * h.sourceHeight <= q.maxSourcePixels
    && h.sourceWidth <= q.maxSourceEdge && h.sourceHeight <= q.maxSourceEdge
    && (var derived := ScaledSize(h.sourceWidth, h.sourceHeight, h.orientation, q.maxLongEdge);
        h.width == derived.width && h.height == derived.height && h.scale == derived.scale)
    && 1 <= h.width <= q.maxLongEdge && 1 <= h.height <= q.maxLongEdge
    && |body| == h.width * h.height * Channels(h.mode)
  }

  function ParseResponse(w: Wire, stream: seq<byte>, q: Request): Answer {
    var n := Newline(stream);
    if n == |stream| || n > RESPONSE_HEADER_MAX_BYTES then FailedValidation
    else if |stream[..n + 1]| > RESPONSE_HEADER_MAX_BYTES then FailedValidation
    else
      match w.parse(stream[..n + 1])
      case None => FailedValidation
      case Some(h) =>
        var body := stream[n + 1..];
        if h.Refused? then
          if body == [] then ChildRefusal(h.reason) else FailedValidation
        else if ValidDecoded(h, body, q) then
          PageAnswer(Page(h.mode, h.width, h.height, h.sourceWidth, h.sourceHeight, h.orientation, h.scale, body))
        else FailedValidation
  }

  // ---------- The child ----------

  /** What the image library reports of an asset that it could open and load. */
  datatype Source = Source(width: nat, height: nat, gray: bool, knownMode: bool, animatedPng: bool,
                           exifOrientation: Option<int>)
  datatype Opened = Bomb | Broken | Opened(source: Source, loads: bool)

  function Orientation(s: Source): nat {
    if s.exifOrientation.Some? && 1 <= s.exifOrientation.value <= 8 then s.exifOrientation.value else 1
  }

  /** The header path of the child, refusals first in the child's order. */
  function ChildHeader(o: Opened, q: Request): Header {
    match o
    case Bomb => Refused(TooManyPixels)
    case Broken => Refused(Unreadable)
    case Opened(s, loads) =>
      if s.width < 1 || s.height < 1 then Refused(Unreadable)
      else if s.width * s.height > q.maxSourcePixels then Refused(TooManyPixels)
      else if Max(s.width, s.height) > q.maxSourceEdge then Refused(SourceEdge)
      else if !s.knownMode then Refused(UnsupportedMode)
      else if s.animatedPng then Refused(Animated)
      else if !loads then Refused(Unreadable)
      else
        var size := ScaledSize(s.width, s.height, Orientation(s), q.maxLongEdge);
        Decoded(if s.gray then Gray else Rgb, size.width, size.height, s.width, s.height, Orientation(s), size.scale)
  }

  /** Every header the child can produce under this request survives the wire, on one short line. */
  ghost predicate WireOk(w: Wire, q: Request) {
    forall o :: var h := ChildHeader(o, q);
                && w.parse(w.encode(h)) == Some(h)
                && 1 <= |w.encode(h)| <= RESPONSE_HEADER_MAX_BYTES
                && Newline(w.encode(h)) == |w.encode(h)| - 1
  }

  /** The displayed size after the orientation transpose, before any resize. */
  function Displayed(s: Source): (nat, nat) {
    if SwapsSides(Orientation(s)) then (s.height, s.width) else (s.width, s.height)
  }

  function Bytes(width: nat, height: nat, channels: nat): nat {
    width * height * channels
  }

  /** The pixel count the child writes: the displayed image, resized only when the sizes differ. */
  function ChildPixelCount(s: Source, q: Request): nat {
    var size := ScaledSize(s.width, s.height, Orientation(s), q.maxLongEdge);
    var image := if Displayed(s) != (size.width, size.height) then (size.width, size.height) else Displayed(s);
    Bytes(image.0, image.1, Channels(if s.gray then Gray else Rgb))
  }

  ghost predicate ChildWrites(w: Wire, o: Opened, q: Request, stream: seq<byte>) {
    var h := ChildHeader(o, q);
    w.encode(h) <= stream
    && |stream| == |w.encode(h)| + if h.Decoded? then ChildPixelCount(o.source, q) else 0
  }

  lemma AreaBound(a: nat, b: nat, m: nat, c: nat)
    requires a <= m && b <= m && c <= 3
    ensures a * b * c <= m * m * 3
  {
    MulMonotone(a, m, b);
    MulMonotone(b, m, m);
    assert a * b <= m * b == b * m <= m * m;
    MulMonotone(a * b, m * m, c);
    assert (m * m) * c <= (m * m) * 3;
  }

  /** Whatever the child decodes or refuses, the broker accepts as exactly that, within its read cap. */
  lemma ChildIsAccepted(w: Wire, o: Opened, q: Request, stream: seq<byte>)
    requires WireOk(w, q) && ValidRequest(q) && ChildWrites(w, o, q, stream)
    ensures |stream| <= StdoutCap(q)
    ensures var h := ChildHeader(o, q);
            match h
            case Refused(reason) => ParseResponse(w, stream, q) == ChildRefusal(reason)
            case Decoded(mode, width, height, sw, sh, orientation, scale) =>
              ParseResponse(w, stream, q) ==
              PageAnswer(Page(mode, width, height, sw, sh, orientation, scale, stream[|w.encode(h)|..]))
  {
    var h := ChildHeader(o, q);
    var line := w.encode(h);
    assert stream == line + stream[|line|..];
    NewlineInPrefix(line, stream[|line|..]);
    assert stream[..|line|] == line;
    if h.Decoded? {
      var s := o.source;
      PageSizeBounds(s.width, s.height, Orientation(s), q.maxLongEdge);
      AreaBound(h.width, h.height, q.maxLongEdge, Channels(h.mode));
      assert ValidDecoded(h, stream[|line|..], q);
    }
  }

  // ---------- Exit status ----------

  const EXIT_BUDGET := 3
  const EXIT_CHILD_ERROR := 4

  datatype ChildResult = ChildResult(returncode: Option<int>, timedOut: bool, overflowed: bool,
                                     bodyWritten: bool, stream: seq<byte>)

  function MapExit(w: Wire, r: ChildResult, q: Request): Answer {
    if r.overflowed || r.timedOut then Budget
    else if r.returncode == Some(0) then
      if !r.bodyWritten then FailedValidation else ParseResponse(w, r.stream, q)
    else if r.returncode == Some(EXIT_BUDGET) then Budget
    else if r.returncode == Some(EXIT_CHILD_ERROR) then ChildError
    else Budget
  }

  /** A page needs exit 0, the whole body written, no timeout, no overflow, and a header and body
      that pass every check. */
  lemma PageOnlyOnSuccess(w: Wire, r: ChildResult, q: Request)
    ensures MapExit(w, r, q).PageAnswer? <==>
            && r.returncode == Some(0) && r.bodyWritten && !r.timedOut && !r.overflowed
            && (var n := Newline(r.stream);
                n < |r.stream| && n < RESPONSE_HEADER_MAX_BYTES
                && w.parse(r.stream[..n + 1]).Some?
                && ValidDecoded(w.parse(r.stream[..n + 1]).value, r.stream[n + 1..], q))
  {
  }

  predicate Clean(r: ChildResult) {
    r.returncode == Some(0) && r.bodyWritten && !r.timedOut && !r.overflowed
  }

  /** Of a child's own output the broker makes a page exactly when the child decoded and ended cleanly, the page it
      decoded at the derived size with every pixel, and repeats a refusal exactly when it refused and ended cleanly. */
  lemma CleanChildAnswers(w: Wire, o: Opened, q: Request, r: ChildResult)
    requires WireOk(w, q) && ValidRequest(q) && ChildWrites(w, o, q, r.stream)
    ensures var h, a := ChildHeader(o, q), MapExit(w, r, q);
            && (a.PageAnswer? <==> Clean(r) && h.Decoded?)
            && (a.ChildRefusal? <==> Clean(r) && h.Refused?)
            && (a.PageAnswer? ==>
                  var size := ScaledSize(o.source.width, o.source.height, Orientation(o.source), q.maxLongEdge);
                  && (a.page.width, a.page.height) == (size.width, size.height)
                  && |a.page.pixels| == a.page.width * a.page.height * Channels(a.page.mode)
                  && r.stream == w.encode(h) + a.page.pixels)
            && (a.ChildRefusal? ==> a.reason == h.reason)
  {
    ChildIsAccepted(w, o, q, r.stream);
    hide ScaledSize, ParseResponse, Orientation;
    var h := ChildHeader(o, q);
    assert r.stream == w.encode(h) + r.stream[|w.encode(h)|..];
  }
}
