/**
 * The page-fit arithmetic of the PDF export: the captured canvas is scaled to
 * fit inside the page less a 10 mm margin on each side, keeping its aspect
 * ratio, and centred. Arithmetic is over exact reals; the source's
 * floating-point rounding is not modelled.
 */
module PdfFit {
  import opened Wrappers

  datatype PageFormat = A4 | Letter
  datatype Orientation = Portrait | Landscape

  /** The export options; every key may be left out. */
  datatype ExportOptions = ExportOptions(filename: Option<string>, quality: Option<real>, format: Option<PageFormat>, orientation: Option<Orientation>)

  datatype Settings = Settings(filename: string, quality: real, format: PageFormat, orientation: Orientation)

  /** The defaults filled in for missing options: 'resume.pdf', quality 1, A4, portrait. */
  function Resolve(o: ExportOptions): (r: Settings)
    ensures o.filename.None? ==> r.filename == "resume.pdf"
    ensures o.quality.None? ==> r.quality == 1.0
    ensures o.format.None? ==> r.format == A4
    ensures o.orientation.None? ==> r.orientation == Portrait
    ensures o.filename.Some? ==> r.filename == o.filename.value
    ensures o.quality.Some? ==> r.quality == o.quality.value
    ensures o.format.Some? ==> r.format == o.format.value
    ensures o.orientation.Some? ==> r.orientation == o.orientation.value
  {
    Settings(o.filename.GetOr("resume.pdf"), o.quality.GetOr(1.0), o.format.GetOr(A4), o.orientation.GetOr(Portrait))
  }

  /** The canvas is captured at twice the requested quality. */
  function CaptureScale(s: Settings): (r: real)
    ensures s.quality > 0.0 ==> r > s.quality
  {
    s.quality * 2.0
  }

  /** From the caller's options: scale 2 when no quality is given, twice the quality otherwise. */
  lemma CaptureOfOptions(o: ExportOptions)
    ensures o.quality.None? ==> CaptureScale(Resolve(o)) == 2.0
    ensures o.quality.Some? ==> CaptureScale(Resolve(o)) == 2.0 * o.quality.value
  {
  }

  /** Millimetres per CSS pixel at 96 dpi, as the source rounds it. */
  const MmPerPx: real := 0.264583

  /** The total margin on each axis: 10 mm on either side. */
  const Margin: real := 20.0

  datatype Box = Box(w: real, h: real)

  /** The page box the source computes: from the format alone, in portrait. */
  function FormatBox(f: PageFormat): Box {
    match f
    case A4 => Box(210.0, 297.0)
    case Letter => Box(216.0, 279.0)
  }

  /** The page the PDF document actually has: the format's box, turned on its side for landscape. */
  function OrientedBox(f: PageFormat, o: Orientation): (r: Box)
    ensures o == Portrait ==> r == FormatBox(f)
    ensures o == Landscape ==> r == Box(FormatBox(f).h, FormatBox(f).w)
  {
    var b := FormatBox(f);
    if o == Portrait then b else Box(b.h, b.w)
  }

  /** Where the image goes: its top-left corner and its size, in millimetres. */
  datatype Placement = Placement(x: real, y: real, w: real, h: real)

  function Min(a: real, b: real): (r: real)
    ensures r <= a && r <= b && (r == a || r == b)
  {
    if a <= b then a else b
  }

  /**
   * Scaling a canvas of `cw` by `ch` pixels into `box`: the ratio is the smaller
   * of the two axis ratios, and the image is centred.
   */
  function FitInto(box: Box, cw: real, ch: real): (r: Placement)
    requires box.w > Margin && box.h > Margin
    requires cw > 0.0 && ch > 0.0
    ensures r.w <= box.w - Margin && r.h <= box.h - Margin
    ensures r.w == box.w - Margin || r.h == box.h - Margin
    ensures r.w > 0.0 && r.h > 0.0
    ensures r.w * ch == r.h * cw
    ensures r.x >= Margin / 2.0 && r.y >= Margin / 2.0
    ensures r.x + r.w + r.x == box.w && r.y + r.h + r.y == box.h
  {
    var pw := cw * MmPerPx;
    var ph := ch * MmPerPx;
    var a := (box.w - Margin) / pw;
    var b := (box.h - Margin) / ph;
    var ratio := Min(a, b);
    var w := pw * ratio;
    var h := ph * ratio;
    FitBounds(box.w - Margin, box.h - Margin, pw, ph);
    Placement((box.w - w) / 2.0, (box.h - h) / 2.0, w, h)
  }

  /** The arithmetic core of the fit: both sides within the bounds, one of them on it, the aspect kept. */
  lemma FitBounds(mw: real, mh: real, pw: real, ph: real)
    requires mw > 0.0 && mh > 0.0 && pw > 0.0 && ph > 0.0
    ensures var ratio := Min(mw / pw, mh / ph);
      && pw * ratio <= mw && ph * ratio <= mh
      && (pw * ratio == mw || ph * ratio == mh)
      && ratio > 0.0
  {
    var a := mw / pw;
    var b := mh / ph;
    assert pw * a == mw;
    assert ph * b == mh;
    if a <= b {
      assert ph * a <= ph * b;
    } else {
      assert pw * b <= pw * a;
    }
  }

  /** The export as written: the page box ignores the orientation. */
  function PlaceAsWritten(s: Settings, cw: real, ch: real): (r: Placement)
    requires cw > 0.0 && ch > 0.0
    ensures r.x >= 10.0 && r.y >= 10.0
    ensures r.w * ch == r.h * cw
  {
    FitInto(FormatBox(s.format), cw, ch)
  }

  /** The image lies on the page with at least 10 mm to spare on every side. */
  predicate OnPage(p: Placement, page: Box) {
    p.x >= 10.0 && p.y >= 10.0 && p.x + p.w <= page.w - 10.0 && p.y + p.h <= page.h - 10.0
  }

  /**
   * For a landscape A4 export of a tall canvas the as-written placement runs off
   * the page: the image is 277 mm tall on a page 210 mm tall.
   */
  lemma LandscapeOverflows(cw: real, ch: real)
    requires cw == 100.0 && ch == 1000.0
    ensures var p := PlaceAsWritten(Settings("resume.pdf", 1.0, A4, Landscape), cw, ch);
      p.h == 277.0 && p.y + p.h > OrientedBox(A4, Landscape).h
      && !OnPage(p, OrientedBox(A4, Landscape))
  {
    var p := PlaceAsWritten(Settings("resume.pdf", 1.0, A4, Landscape), cw, ch);
    assert p.w * 1000.0 == p.h * 100.0;
    assert p.w <= 190.0 && p.h <= 277.0;
    assert p.w == 190.0 || p.h == 277.0;
  }

  /** The corrected export: the image is fitted into the page the document really has. */
  function Place(s: Settings, cw: real, ch: real): (r: Placement)
    requires cw > 0.0 && ch > 0.0
    ensures OnPage(r, OrientedBox(s.format, s.orientation))
    ensures r.w * ch == r.h * cw
    ensures r.w == OrientedBox(s.format, s.orientation).w - Margin || r.h == OrientedBox(s.format, s.orientation).h - Margin
  {
    FitInto(OrientedBox(s.format, s.orientation), cw, ch)
  }

  /** In portrait, the only orientation the toolbar uses, the correction changes nothing. */
  lemma PortraitUnchanged(s: Settings, cw: real, ch: real)
    requires cw > 0.0 && ch > 0.0 && s.orientation == Portrait
    ensures Place(s, cw, ch) == PlaceAsWritten(s, cw, ch)
  {
  }
}
