/**
 * The date helpers: conversion between stored date strings and date values,
 * formatting, validity and comparison. The date library's ISO parser, the
 * built-in `Date` string constructor and the pattern formatter are
 * parameters; a date value is its millisecond time, or `None` when it is an
 * "Invalid Date".
 */
module DateUtils {
  import opened Wrappers
  import opened Strings

  /** A `Date` object: valid exactly when it has a time. */
  datatype JsDate = JsDate(time: Option<int>)

  predicate IsValid(d: JsDate) {
    d.time.Some?
  }

  /** What the helpers accept: `undefined`/`null`, a string, or a `Date`. */
  datatype DateArg = Absent | Str(s: string) | DateObj(d: JsDate)

  /** The two string parsers: the library's ISO parser, then the `Date` constructor. */
  datatype Parsers = Parsers(parseIso: string -> Option<int>, construct: string -> Option<int>)

  predicate IsBlank(s: string) {
    Trim(s) == ""
  }

  /**
   * `toDate`: absent and falsy inputs give nothing; a `Date` is kept when valid;
   * a string that is blank gives nothing, otherwise the ISO parse is tried first
   * and the constructor only when that parse is invalid.
   */
  function ToDate(v: DateArg, p: Parsers): (r: Option<JsDate>)
    ensures r.Some? ==> IsValid(r.value)
    ensures v.Absent? ==> r.None?
    ensures v.DateObj? ==> (r.Some? <==> IsValid(v.d)) && (r.Some? ==> r.value == v.d)
    ensures v.Str? && IsBlank(v.s) ==> r.None?
    ensures v.Str? && !IsBlank(v.s) && p.parseIso(v.s).Some? ==> r == Some(JsDate(p.parseIso(v.s)))
    ensures v.Str? && !IsBlank(v.s) && p.parseIso(v.s).None? ==> (r.Some? <==> p.construct(v.s).Some?) && (r.Some? ==> r.value.time == p.construct(v.s))
  {
    match v
    case Absent => None
    case DateObj(d) => if IsValid(d) then Some(d) else None
    case Str(s) =>
      if s == "" then None
      else if Trim(s) == "" then None
      else
        var iso := JsDate(p.parseIso(s));
        if IsValid(iso) then Some(iso)
        else
          var fallback := JsDate(p.construct(s));
          if IsValid(fallback) then Some(fallback) else None
  }

  /** `toDate` of `undefined`, `null` and `''` is nothing, whatever the parsers. */
  lemma ToDateOfNothing(p: Parsers)
    ensures ToDate(Absent, p).None? && ToDate(Str(""), p).None?
  {
  }

  /** `toISOString`: '' for an absent or invalid date, else the rendering of its time. */
  function ToISOString(d: Option<JsDate>, render: int -> string): (r: string)
    ensures (d.None? || !IsValid(d.value)) ==> r == ""
    ensures d.Some? && IsValid(d.value) ==> r == render(d.value.time.value)
  {
    if d.None? || !IsValid(d.value) then "" else render(d.value.time.value)
  }

  /**
   * The date picker's loop: a valid date written with `toISOString` and read back
   * with `toDate` is the same date, provided the ISO parser reads the rendering back
   * and the rendering is not blank.
   */
  lemma IsoRoundTrip(d: JsDate, p: Parsers, render: int -> string)
    requires IsValid(d)
    requires p.parseIso(render(d.time.value)) == d.time
    requires !IsBlank(render(d.time.value))
    ensures ToDate(Str(ToISOString(Some(d), render)), p) == Some(d)
  {
  }

  /** An invalid or missing date is written as '', which reads back as no date. */
  lemma InvalidWritesNothing(d: Option<JsDate>, p: Parsers, render: int -> string)
    requires d.None? || !IsValid(d.value)
    ensures ToDate(Str(ToISOString(d, render)), p).None?
  {
  }

  /** `isValidDate`. */
  predicate IsValidDate(v: DateArg, p: Parsers) {
    ToDate(v, p).Some?
  }

  /**
   * `formatDate`: '' when there is no date, otherwise the formatter's output for
   * the pattern; the formatter returns `None` where the library throws, which
   * also gives ''.
   */
  function FormatDate(v: DateArg, pattern: string, p: Parsers, format: (int, string) -> Option<string>): (r: string)
    ensures !IsValidDate(v, p) ==> r == ""
    ensures IsValidDate(v, p) ==> r == format(ToDate(v, p).value.time.value, pattern).GetOr("")
  {
    match ToDate(v, p)
    case None => ""
    case Some(d) =>
      match format(d.time.value, pattern)
      case None => ""
      case Some(text) => text
  }

  const ShortPattern: string := "yyyy-MM"
  const FullPattern: string := "yyyy年M月d日"

  /** `formatShort`: the 'yyyy-MM' pattern, '' when there is no date. */
  function FormatShort(v: DateArg, p: Parsers, format: (int, string) -> Option<string>): (r: string)
    ensures !IsValidDate(v, p) ==> r == ""
    ensures IsValidDate(v, p) ==> r == format(ToDate(v, p).value.time.value, "yyyy-MM").GetOr("")
  {
    FormatDate(v, ShortPattern, p, format)
  }

  /** `formatFull`: the 'yyyy年M月d日' pattern, '' when there is no date. */
  function FormatFull(v: DateArg, p: Parsers, format: (int, string) -> Option<string>): (r: string)
    ensures !IsValidDate(v, p) ==> r == ""
    ensures IsValidDate(v, p) ==> r == format(ToDate(v, p).value.time.value, "yyyy年M月d日").GetOr("")
  {
    FormatDate(v, FullPattern, p, format)
  }

  /** A non-empty formatted date, under any pattern, implies the input was a valid date. */
  lemma FormattedImpliesValid(v: DateArg, pattern: string, p: Parsers, format: (int, string) -> Option<string>)
    ensures FormatDate(v, pattern, p, format) != "" ==> IsValidDate(v, p)
  {
  }

  /** `compare`: `None` when either side is not a date, else the sign of the time difference. */
  function Compare(a: DateArg, b: DateArg, p: Parsers): (r: Option<int>)
    ensures r.None? <==> !IsValidDate(a, p) || !IsValidDate(b, p)
    ensures r.Some? ==> r.value in {-1, 0, 1}
    ensures r == Some(-1) <==> r.Some? && ToDate(a, p).value.time.value < ToDate(b, p).value.time.value
    ensures r == Some(1) <==> r.Some? && ToDate(a, p).value.time.value > ToDate(b, p).value.time.value
  {
    var d1 := ToDate(a, p);
    var d2 := ToDate(b, p);
    if d1.None? || d2.None? then None
    else
      var t1 := d1.value.time.value;
      var t2 := d2.value.time.value;
      if t1 < t2 then Some(-1) else if t1 > t2 then Some(1) else Some(0)
  }

  /** Swapping the arguments negates the result; a date compares equal to itself. */
  lemma CompareAntisymmetric(a: DateArg, b: DateArg, p: Parsers)
    ensures Compare(b, a, p).None? <==> Compare(a, b, p).None?
    ensures Compare(a, b, p).Some? ==> Compare(b, a, p) == Some(-Compare(a, b, p).value)
    ensures IsValidDate(a, p) <==> Compare(a, a, p) == Some(0)
  {
  }

  /** "Earlier than" is transitive. */
  lemma CompareTransitive(a: DateArg, b: DateArg, c: DateArg, p: Parsers)
    ensures Compare(a, b, p) == Some(-1) && Compare(b, c, p) == Some(-1) ==> Compare(a, c, p) == Some(-1)
  {
  }
}
