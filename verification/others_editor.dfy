/** The languages and certificates editors, which share one form. */
module OthersEditor {
  import opened Wrappers
  import opened Resume
  import opened ListEdit

  // ---------------------------------------------------------------------------
  // Languages

  function LanguageId(l: Language): string { l.id }

  /** The language-add button: appends `{name: '', level: 'intermediate'}` with the fresh id. */
  function AddLanguage(xs: seq<Language>, freshId: string): (r: seq<Language>)
    ensures |r| == |xs| + 1 && r[..|xs|] == xs
    ensures r[|xs|] == Language(freshId, "", Intermediate)
    ensures UniqueIds(xs, LanguageId) ==> (UniqueIds(r, LanguageId) <==> freshId !in Ids(xs, LanguageId))
  {
    var l := Language(freshId, "", Intermediate);
    AppendUniqueIff(xs, l, LanguageId);
    xs + [l]
  }

  /** The language-delete button: every entry with the id is dropped, the rest keep their order. */
  function RemoveLanguage(xs: seq<Language>, id: string): (r: seq<Language>)
    ensures forall i :: 0 <= i < |r| ==> r[i].id != id && r[i] in xs
    ensures forall i :: 0 <= i < |xs| && xs[i].id != id ==> xs[i] in r
    ensures UniqueIds(xs, LanguageId) ==> UniqueIds(r, LanguageId)
    ensures var ps := KeptPositions(xs, id, LanguageId, 0); |r| == |ps| && forall i :: 0 <= i < |ps| ==> r[i] == xs[ps[i]]
  {
    RemoveKeepsUnique(xs, id, LanguageId);
    RemoveKeepsOrder(xs, id, LanguageId, 0);
    assert xs[0..] == xs;
    RemoveById(xs, id, LanguageId)
  }

  /** One option of the proficiency select: the wire token and the caption shown. */
  datatype LevelOption = LevelOption(token: string, caption: string)

  const LevelOptions: seq<LevelOption> := [
    LevelOption("beginner", "初级"),
    LevelOption("intermediate", "中级"),
    LevelOption("advanced", "高级"),
    LevelOption("native", "母语")
  ]

  /** The label of a level as the select lists it. */
  function LevelOptionLabel(l: LanguageLevel): (r: string)
    ensures exists i :: 0 <= i < |LevelOptions| && LevelOptions[i] == LevelOption(LevelToken(l), r)
  {
    match l
    case Beginner => assert LevelOptions[0] == LevelOption(LevelToken(l), "初级"); "初级"
    case Intermediate => assert LevelOptions[1] == LevelOption(LevelToken(l), "中级"); "中级"
    case Advanced => assert LevelOptions[2] == LevelOption(LevelToken(l), "高级"); "高级"
    case Native => assert LevelOptions[3] == LevelOption(LevelToken(l), "母语"); "母语"
  }

  /** The select offers exactly the four level tokens, in the order of the union, each naming a level. */
  lemma LevelOptionsAreLevels()
    ensures |LevelOptions| == |LevelTokens|
    ensures forall i :: 0 <= i < |LevelOptions| ==> LevelOptions[i].token == LevelTokens[i]
    ensures forall i :: 0 <= i < |LevelOptions| ==> ParseLevel(LevelOptions[i].token).Some?
  {
  }

  datatype LanguageEdit = SetLanguageName(value: string) | SetLevel(level: LanguageLevel)

  function ApplyLanguage(l: Language, edit: LanguageEdit): (r: Language)
    ensures r.id == l.id
    ensures edit.SetLanguageName? ==> r.name == edit.value && r.level == l.level
    ensures edit.SetLevel? ==> r.level == edit.level && r.name == l.name
  {
    match edit
    case SetLanguageName(v) => l.(name := v)
    case SetLevel(v) => l.(level := v)
  }

  /**
   * Picking an option in the select: the option's token is cast to the level
   * union; every option the select offers is a member, so the cast is sound.
   */
  function PickLevel(l: Language, option: nat): (r: Language)
    requires option < |LevelOptions|
    ensures LevelToken(r.level) == LevelOptions[option].token
    ensures r.id == l.id && r.name == l.name
  {
    var parsed := ParseLevel(LevelOptions[option].token);
    ApplyLanguage(l, SetLevel(parsed.value))
  }

  function UpdateLanguage(xs: seq<Language>, id: string, edit: LanguageEdit): (r: seq<Language>)
    ensures |r| == |xs|
    ensures forall i :: 0 <= i < |xs| ==> r[i].id == xs[i].id
    ensures forall i :: 0 <= i < |xs| && xs[i].id != id ==> r[i] == xs[i]
    ensures forall i :: 0 <= i < |xs| && xs[i].id == id ==> r[i] == ApplyLanguage(xs[i], edit)
  {
    MapById(xs, id, LanguageId, (l: Language) => ApplyLanguage(l, edit))
  }

  // ---------------------------------------------------------------------------
  // Certificates

  function CertificateId(c: Certificate): string { c.id }

  /** The certificate-add button: appends an entry of empty strings, with the link present but empty. */
  function AddCertificate(xs: seq<Certificate>, freshId: string): (r: seq<Certificate>)
    ensures |r| == |xs| + 1 && r[..|xs|] == xs
    ensures r[|xs|] == Certificate(freshId, "", "", "", Some(""))
    ensures UniqueIds(xs, CertificateId) ==> (UniqueIds(r, CertificateId) <==> freshId !in Ids(xs, CertificateId))
  {
    var c := Certificate(freshId, "", "", "", Some(""));
    AppendUniqueIff(xs, c, CertificateId);
    xs + [c]
  }

  /** The certificate-delete button. */
  function RemoveCertificate(xs: seq<Certificate>, id: string): (r: seq<Certificate>)
    ensures forall i :: 0 <= i < |r| ==> r[i].id != id && r[i] in xs
    ensures forall i :: 0 <= i < |xs| && xs[i].id != id ==> xs[i] in r
    ensures UniqueIds(xs, CertificateId) ==> UniqueIds(r, CertificateId)
    ensures var ps := KeptPositions(xs, id, CertificateId, 0); |r| == |ps| && forall i :: 0 <= i < |ps| ==> r[i] == xs[ps[i]]
  {
    RemoveKeepsUnique(xs, id, CertificateId);
    RemoveKeepsOrder(xs, id, CertificateId, 0);
    assert xs[0..] == xs;
    RemoveById(xs, id, CertificateId)
  }

  datatype CertificateField = CertName | Issuer | Date | Url

  datatype CertificateEdit = SetCertName(value: string) | SetIssuer(value: string) | SetDate(value: string) | SetUrl(value: string)

  function CertificateGet(c: Certificate, f: CertificateField): FieldValue {
    match f
    case CertName => Text(c.name)
    case Issuer => Text(c.issuer)
    case Date => Text(c.date)
    case Url => MaybeText(c.url)
  }

  function CertificateTouches(edit: CertificateEdit): CertificateField {
    match edit
    case SetCertName(_) => CertName
    case SetIssuer(_) => Issuer
    case SetDate(_) => Date
    case SetUrl(_) => Url
  }

  /** One certificate after an input: only the touched field changes, to the typed value. */
  function ApplyCertificate(c: Certificate, edit: CertificateEdit): (r: Certificate)
    ensures r.id == c.id
    ensures forall f :: f != CertificateTouches(edit) ==> CertificateGet(r, f) == CertificateGet(c, f)
    ensures CertificateGet(r, CertificateTouches(edit)) == (if edit.SetUrl? then MaybeText(Some(edit.value)) else Text(edit.value))
  {
    match edit
    case SetCertName(v) => c.(name := v)
    case SetIssuer(v) => c.(issuer := v)
    case SetDate(v) => c.(date := v)
    case SetUrl(v) => c.(url := Some(v))
  }

  function UpdateCertificate(xs: seq<Certificate>, id: string, edit: CertificateEdit): (r: seq<Certificate>)
    ensures |r| == |xs|
    ensures forall i :: 0 <= i < |xs| ==> r[i].id == xs[i].id
    ensures forall i :: 0 <= i < |xs| && xs[i].id != id ==> r[i] == xs[i]
    ensures forall i :: 0 <= i < |xs| && xs[i].id == id ==> r[i] == ApplyCertificate(xs[i], edit)
  {
    MapById(xs, id, CertificateId, (c: Certificate) => ApplyCertificate(c, edit))
  }

  /** Certificate inputs on different fields commute. */
  lemma CertificateEditsCommute(c: Certificate, a: CertificateEdit, b: CertificateEdit)
    requires CertificateTouches(a) != CertificateTouches(b)
    ensures ApplyCertificate(ApplyCertificate(c, a), b) == ApplyCertificate(ApplyCertificate(c, b), a)
  {
  }
}
