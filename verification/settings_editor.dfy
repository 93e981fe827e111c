/** The settings panel: theme-colour swatches and the font-size and spacing selects. */
module SettingsEditor {
  import opened Wrappers
  import opened Resume
  import opened Defaults
  import opened Store

  /** One colour swatch: its hex colour and its name (the button's title). */
  datatype Swatch = Swatch(color: string, name: string)

  const Swatches: seq<Swatch> := [
    Swatch("#3b82f6", "蓝色"),
    Swatch("#10b981", "绿色"),
    Swatch("#f59e0b", "橙色"),
    Swatch("#ef4444", "红色"),
    Swatch("#8b5cf6", "紫色"),
    Swatch("#6b7280", "灰色")
  ]

  /** A swatch is drawn with the dark border exactly when it is the configured colour. */
  predicate Highlighted(c: ResumeConfig, i: nat)
    requires i < |Swatches|
  {
    c.primaryColor == Swatches[i].color
  }

  /** Clicking swatch `i`: `updateConfig({ primaryColor })`, nothing else changes. */
  function ClickSwatch(s: State, i: nat): (r: State)
    requires i < |Swatches|
    ensures r.data == s.data
    ensures r.config == s.config.(primaryColor := Swatches[i].color)
  {
    UpdateConfig(s, ConfigPatch(None, Some(Swatches[i].color), None, None))
  }

  /** The swatch colours are pairwise distinct. */
  lemma SwatchesDistinct()
    ensures forall i, j :: 0 <= i < j < |Swatches| ==> Swatches[i].color != Swatches[j].color
  {
  }

  /** After clicking swatch `i`, swatch `i` and no other is highlighted. */
  lemma {:induction false} ClickHighlightsExactlyOne(s: State, i: nat, j: nat)
    requires i < |Swatches| && j < |Swatches|
    ensures Highlighted(ClickSwatch(s, i).config, j) <==> i == j
  {
    SwatchesDistinct();
    if i < j {
      assert Swatches[i].color != Swatches[j].color;
    } else if j < i {
      assert Swatches[j].color != Swatches[i].color;
    }
  }

  /** The built-in configuration's colour is the first (blue) swatch. */
  lemma DefaultColorIsBlue()
    ensures Highlighted(DefaultConfig, 0)
  {
  }

  /** One option of a select: the union member, its token (the option value) and its caption. */
  datatype Choice<T> = Choice(member: T, token: string, caption: string)

  const FontSizeOptions: seq<Choice<FontSize>> := [
    Choice(Small, "small", "小号"),
    Choice(Medium, "medium", "中号"),
    Choice(Large, "large", "大号")
  ]

  const SpacingOptions: seq<Choice<Spacing>> := [
    Choice(Compact, "compact", "紧凑"),
    Choice(Normal, "normal", "正常"),
    Choice(Relaxed, "relaxed", "宽松")
  ]

  /** Each select offers exactly its union's tokens, every member once, each token naming its member. */
  lemma OptionsMatchUnions(f: FontSize, sp: Spacing)
    ensures |FontSizeOptions| == |FontSizeTokens| && |SpacingOptions| == |SpacingTokens|
    ensures forall i :: 0 <= i < |FontSizeOptions| ==> FontSizeOptions[i].token == FontSizeTokens[i] == FontSizeToken(FontSizeOptions[i].member)
    ensures forall i :: 0 <= i < |SpacingOptions| ==> SpacingOptions[i].token == SpacingTokens[i] == SpacingToken(SpacingOptions[i].member)
    ensures exists i :: 0 <= i < |FontSizeOptions| && FontSizeOptions[i].member == f
    ensures exists i :: 0 <= i < |SpacingOptions| && SpacingOptions[i].member == sp
  {
    match f {
      case Small => assert FontSizeOptions[0].member == f;
      case Medium => assert FontSizeOptions[1].member == f;
      case Large => assert FontSizeOptions[2].member == f;
    }
    match sp {
      case Compact => assert SpacingOptions[0].member == sp;
      case Normal => assert SpacingOptions[1].member == sp;
      case Relaxed => assert SpacingOptions[2].member == sp;
    }
  }

  /** Picking a font size: `updateConfig({ fontSize })`; the select then shows the picked option. */
  function PickFontSize(s: State, i: nat): (r: State)
    requires i < |FontSizeOptions|
    ensures r.data == s.data
    ensures r.config == s.config.(fontSize := FontSizeOptions[i].member)
    ensures FontSizeToken(r.config.fontSize) == FontSizeOptions[i].token
  {
    UpdateConfig(s, ConfigPatch(None, None, Some(FontSizeOptions[i].member), None))
  }

  /** Picking a spacing: `updateConfig({ spacing })`; the select then shows the picked option. */
  function PickSpacing(s: State, i: nat): (r: State)
    requires i < |SpacingOptions|
    ensures r.data == s.data
    ensures r.config == s.config.(spacing := SpacingOptions[i].member)
    ensures SpacingToken(r.config.spacing) == SpacingOptions[i].token
  {
    UpdateConfig(s, ConfigPatch(None, None, None, Some(SpacingOptions[i].member)))
  }

  /** The three settings controls write disjoint keys, so their order does not matter. */
  lemma SettingsCommute(s: State, i: nat, j: nat, k: nat)
    requires i < |Swatches| && j < |FontSizeOptions| && k < |SpacingOptions|
    ensures PickSpacing(PickFontSize(ClickSwatch(s, i), j), k) == ClickSwatch(PickFontSize(PickSpacing(s, k), j), i)
  {
  }
}
