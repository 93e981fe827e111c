/**
 * The small formatting rules the preview components share: the date shown in
 * a range, the proficiency label, the page padding and font size, and the
 * tinted chip background.
 */
module PreviewFormat {
  import opened Strings
  import opened Resume
  import OthersEditor

  /**
   * The previews' date rule: '' stays ''; otherwise the text is split on '-'
   * and shown as `${year}.${month}`, where a missing second piece is the
   * JavaScript value `undefined`, interpolated as the text "undefined".
   */
  function FormatDate(date: string): (r: string)
    ensures r == "" <==> date == ""
  {
    if date == "" then ""
    else
      var pieces := Split(date, '-');
      var month := if |pieces| >= 2 then pieces[1] else "undefined";
      pieces[0] + "." + month
  }

  /** 'YYYY-MM', optionally followed by '-' and more, is shown as 'YYYY.MM'. */
  lemma FormatDateYearMonth(year: string, month: string, rest: string)
    requires '-' !in year && '-' !in month
    requires rest == "" || rest[0] == '-'
    ensures FormatDate(year + "-" + month + rest) == year + "." + month
  {
    var date := year + "-" + month + rest;
    assert date == year + ['-'] + (month + rest);
    SplitAtSeparator(year, '-', month + rest);
    if rest == "" {
      assert month + rest == month;
      SplitNoSeparator(month, '-');
    } else {
      assert month + rest == month + ['-'] + rest[1..];
      SplitAtSeparator(month, '-', rest[1..]);
    }
  }

  /** Text with no '-' has no month: 'Spring' is shown as 'Spring.undefined'. */
  lemma FormatDateWithoutDash(date: string)
    requires date != "" && '-' !in date
    ensures FormatDate(date) == date + ".undefined"
  {
    SplitNoSeparator(date, '-');
  }

  /** The rule on sample dates: '2020-01' is shown as '2020.01', and '2024-12-01' as '2024.12'. */
  lemma FormatDateSamples(month: string, day: string)
    requires month == "2020-01" && day == "2024-12-01"
    ensures FormatDate(month) == "2020.01"
    ensures FormatDate(day) == "2024.12"
  {
    assert month == "2020" + "-" + "01" + "";
    FormatDateYearMonth("2020", "01", "");
    assert day == "2024" + "-" + "12" + "-01";
    FormatDateYearMonth("2024", "12", "-01");
  }

  /** `getLanguageLevel`: the Chinese label of one of the four level tokens, any other text shown as it is. */
  function LanguageLabel(level: string): (r: string)
    ensures level in LevelTokens ==> r == OthersEditor.LevelOptionLabel(ParseLevel(level).value)
    ensures level !in LevelTokens ==> r == level
  {
    if level == "beginner" then "初级"
    else if level == "intermediate" then "中级"
    else if level == "advanced" then "高级"
    else if level == "native" then "母语"
    else level
  }

  /** A stored level is always shown translated, with the caption the editor's select uses. */
  lemma LanguageLabelTranslates(l: LanguageLevel)
    ensures LanguageLabel(LevelToken(l)) != LevelToken(l)
    ensures LanguageLabel(LevelToken(l)) == OthersEditor.LevelOptionLabel(l)
  {
    LevelTokenRoundTrip(l);
  }

  /** Page padding in millimetres: 15 when compact, 25 when relaxed, 20 otherwise. */
  function PaddingMm(s: Spacing): int {
    if s == Compact then 15 else if s == Relaxed then 25 else 20
  }

  /** Base font size in pixels: 12 when small, 16 when large, 14 otherwise. */
  function FontPx(f: FontSize): int {
    if f == Small then 12 else if f == Large then 16 else 14
  }

  function SpacingRank(s: Spacing): int {
    match s
    case Compact => 0
    case Normal => 1
    case Relaxed => 2
  }

  function FontSizeRank(f: FontSize): int {
    match f
    case Small => 0
    case Medium => 1
    case Large => 2
  }

  /** A roomier spacing never gives less padding, a larger size never a smaller font, and the steps are 5 mm and 2 px. */
  lemma ScalesMonotone(a: Spacing, b: Spacing, f: FontSize, g: FontSize)
    ensures SpacingRank(a) <= SpacingRank(b) ==> PaddingMm(a) <= PaddingMm(b)
    ensures PaddingMm(a) == 15 + 5 * SpacingRank(a)
    ensures FontSizeRank(f) <= FontSizeRank(g) ==> FontPx(f) <= FontPx(g)
    ensures FontPx(f) == 12 + 2 * FontSizeRank(f)
  {
  }

  /** The alpha suffixes appended to the theme colour for tag and chip backgrounds. */
  const TechTagAlpha: string := "20"
  const SkillChipAlpha: string := "15"
}
