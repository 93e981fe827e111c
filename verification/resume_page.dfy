/**
 * The whole preview page: padding and font from the configuration, the
 * profile header, then the non-empty sections in a fixed order.
 *
 * The page component reads its header from a key `personalInfo` that the
 * resume data does not have; `RenderAsWritten` models that and always fails,
 * `Render` is the page reading the header from `profile`.
 */
module ResumePage {
  import opened Wrappers
  import opened Resume
  import opened Store
  import opened PreviewFormat
  import opened Preview

  datatype Page = Page(paddingMm: int, fontPx: int, header: HeaderView, sections: seq<Section>)

  /** The page's section order. */
  const SectionOrder: seq<SectionKind> := [ExperienceSection, ProjectsSection, EducationSection, SkillsSection, LanguagesSection, CertificatesSection]

  /** The number of entries in one section list. */
  function EntryCount(d: ResumeData, k: SectionKind): nat {
    match k
    case EducationSection => |d.education|
    case ExperienceSection => |d.experience|
    case ProjectsSection => |d.projects|
    case SkillsSection => |d.skills|
    case LanguagesSection => |d.languages|
    case CertificatesSection => |d.certificates|
  }

  function KindOf(b: Body): SectionKind {
    match b
    case Experiences(_) => ExperienceSection
    case Projects(_) => ProjectsSection
    case Educations(_) => EducationSection
    case Skills(_) => SkillsSection
    case Languages(_) => LanguagesSection
    case Certificates(_) => CertificatesSection
  }

  /**
   * One section as the page draws it: like the standalone component, except that
   * the page gives the projects a '项目经历' heading.
   */
  function PageSection(d: ResumeData, color: string, k: SectionKind): (r: Option<Section>)
    ensures r.None? <==> EntryCount(d, k) == 0
    ensures r.Some? ==> KindOf(r.value.body) == k && r.value.heading.Some?
  {
    match k
    case ExperienceSection => ExperiencePreview(d.experience, color)
    case ProjectsSection =>
      if d.projects == [] then None
      else Some(Section(Some(Heading("项目经历", color)), Projects(ProjectEntries(d.projects, color))))
    case EducationSection => EducationPreview(d.education, color)
    case SkillsSection => SkillsPreview(d.skills, color)
    case LanguagesSection => LanguagePreview(d.languages, color)
    case CertificatesSection => CertificatePreview(d.certificates, color)
  }

  /** The kinds, among `order`, whose lists are non-empty, in the same order. */
  function Visible(d: ResumeData, order: seq<SectionKind>): (r: seq<SectionKind>)
    ensures forall i :: 0 <= i < |r| ==> r[i] in order && EntryCount(d, r[i]) > 0
    ensures forall k :: k in order && EntryCount(d, k) > 0 ==> k in r
  {
    if order == [] then []
    else (if EntryCount(d, order[0]) > 0 then [order[0]] else []) + Visible(d, order[1..])
  }

  /** The sections drawn for the kinds in `order`, skipping empty lists. */
  function Sections(d: ResumeData, color: string, order: seq<SectionKind>): (r: seq<Section>)
    ensures |r| <= |order|
  {
    if order == [] then []
    else
      var here := PageSection(d, color, order[0]);
      (if here.Some? then [here.value] else []) + Sections(d, color, order[1..])
  }

  function Kinds(ss: seq<Section>): (r: seq<SectionKind>)
    ensures |r| == |ss| && forall i :: 0 <= i < |ss| ==> r[i] == KindOf(ss[i].body)
  {
    seq(|ss|, i requires 0 <= i < |ss| => KindOf(ss[i].body))
  }

  /** The drawn sections are exactly the visible kinds, in order. */
  lemma {:induction false} SectionsAreVisible(d: ResumeData, color: string, order: seq<SectionKind>)
    ensures Kinds(Sections(d, color, order)) == Visible(d, order)
  {
    if order != [] {
      SectionsAreVisible(d, color, order[1..]);
      var here := PageSection(d, color, order[0]);
      var head: seq<Section> := if here.Some? then [here.value] else [];
      var rest := Sections(d, color, order[1..]);
      assert Sections(d, color, order) == head + rest;
      KindsConcat(head, rest);
      assert Kinds(head) == (if EntryCount(d, order[0]) > 0 then [order[0]] else []);
    }
  }

  /** Each drawn section is exactly the page's section of its kind, so its entries are those of the list, in order. */
  lemma {:induction false} SectionsArePageSections(d: ResumeData, color: string, order: seq<SectionKind>)
    ensures AllPageSections(d, color, Sections(d, color, order))
  {
    if order != [] {
      SectionsArePageSections(d, color, order[1..]);
      var here := PageSection(d, color, order[0]);
      var head: seq<Section> := if here.Some? then [here.value] else [];
      var rest := Sections(d, color, order[1..]);
      var ss := Sections(d, color, order);
      assert ss == head + rest;
      forall i | 0 <= i < |ss|
        ensures PageSection(d, color, KindOf(ss[i].body)) == Some(ss[i])
      {
        if i < |head| {
          assert ss[i] == here.value && KindOf(here.value.body) == order[0];
        } else {
          var j := i - |head|;
          assert 0 <= j < |rest| && ss[i] == rest[j];
          assert PageSection(d, color, KindOf(rest[j].body)) == Some(rest[j]);
        }
      }
    }
  }

  /** Each section is the page's section of its own kind. */
  predicate AllPageSections(d: ResumeData, color: string, ss: seq<Section>) {
    forall i :: 0 <= i < |ss| ==> PageSection(d, color, KindOf(ss[i].body)) == Some(ss[i])
  }

  lemma KindsConcat(a: seq<Section>, b: seq<Section>)
    ensures Kinds(a + b) == Kinds(a) + Kinds(b)
  {
  }

  /** The two keys the page could destructure its header from: the resume data's `profile`, and `personalInfo`, which it does not have. */
  datatype HeaderKey = ProfileKey | PersonalInfoKey

  /** The header read through `key`: the profile under `profile`, `undefined` under `personalInfo`. */
  function HeaderSource(d: ResumeData, key: HeaderKey): (r: Option<Profile>)
    ensures r.Some? <==> key == ProfileKey
    ensures r.Some? ==> r.value == d.profile
  {
    match key
    case ProfileKey => Some(d.profile)
    case PersonalInfoKey => None
  }

  /** The page drawn with its header read through `key`; reading `name` of `undefined` throws, modelled as `None`. */
  function RenderWith(d: ResumeData, c: ResumeConfig, key: HeaderKey): (r: Option<Page>)
    ensures r.Some? <==> key == ProfileKey
  {
    match HeaderSource(d, key)
    case None => None
    case Some(p) =>
      Some(Page(PaddingMm(c.spacing), FontPx(c.fontSize), ProfileHeader(p, c.primaryColor), Sections(d, c.primaryColor, SectionOrder)))
  }

  /** The page as written: the header is read from `personalInfo`. */
  function RenderAsWritten(d: ResumeData, c: ResumeConfig): (r: Option<Page>)
    ensures r.None?
  {
    RenderWith(d, c, PersonalInfoKey)
  }

  /**
   * The page with its header read from `profile`: padding and font from the
   * configuration, the same header as the profile component, and the non-empty
   * sections in the fixed order.
   */
  function Render(d: ResumeData, c: ResumeConfig): (r: Page)
    ensures r.paddingMm == PaddingMm(c.spacing) && r.fontPx == FontPx(c.fontSize)
    ensures r.header == ProfileHeader(d.profile, c.primaryColor)
    ensures Kinds(r.sections) == Visible(d, SectionOrder)
    ensures forall i :: 0 <= i < |r.sections| ==> PageSection(d, c.primaryColor, KindOf(r.sections[i].body)) == Some(r.sections[i])
  {
    SectionsAreVisible(d, c.primaryColor, SectionOrder);
    SectionsArePageSections(d, c.primaryColor, SectionOrder);
    RenderWith(d, c, ProfileKey).value
  }

  /** The as-written page fails on every resume and configuration, while the corrected one always draws. */
  lemma AsWrittenAlwaysFails(d: ResumeData, c: ResumeConfig)
    ensures RenderAsWritten(d, c).None?
    ensures RenderWith(d, c, ProfileKey) == Some(Render(d, c))
  {
  }

  /** A section appears on the page exactly when its list is non-empty. */
  lemma SectionShownIff(d: ResumeData, c: ResumeConfig, k: SectionKind)
    ensures (exists i :: 0 <= i < |Render(d, c).sections| && KindOf(Render(d, c).sections[i].body) == k) <==> EntryCount(d, k) > 0
  {
    assert k in SectionOrder by {
      match k {
        case ExperienceSection => assert SectionOrder[0] == k;
        case ProjectsSection => assert SectionOrder[1] == k;
        case EducationSection => assert SectionOrder[2] == k;
        case SkillsSection => assert SectionOrder[3] == k;
        case LanguagesSection => assert SectionOrder[4] == k;
        case CertificatesSection => assert SectionOrder[5] == k;
      }
    }
    ShownIffVisible(d, Render(d, c).sections, SectionOrder, k);
  }

  lemma ShownIffVisible(d: ResumeData, ss: seq<Section>, order: seq<SectionKind>, k: SectionKind)
    requires Kinds(ss) == Visible(d, order) && k in order
    ensures (exists i :: 0 <= i < |ss| && KindOf(ss[i].body) == k) <==> EntryCount(d, k) > 0
  {
    var ks := Kinds(ss);
    if EntryCount(d, k) > 0 {
      var i :| 0 <= i < |ks| && ks[i] == k;
      assert KindOf(ss[i].body) == k;
    }
  }

  /** With every list non-empty, all six sections show, in the fixed order. */
  lemma AllSectionsInOrder(d: ResumeData, c: ResumeConfig)
    requires forall k :: EntryCount(d, k) > 0
    ensures Kinds(Render(d, c).sections) == SectionOrder
  {
    VisibleAll(d, SectionOrder);
  }

  lemma {:induction false} VisibleAll(d: ResumeData, order: seq<SectionKind>)
    requires forall i :: 0 <= i < |order| ==> EntryCount(d, order[i]) > 0
    ensures Visible(d, order) == order
  {
    if order != [] {
      VisibleAll(d, order[1..]);
    }
  }

  /** Every page section other than projects is exactly its standalone component; projects differ only by the heading. */
  lemma PageMatchesComponents(d: ResumeData, c: ResumeConfig)
    ensures PageSection(d, c.primaryColor, ExperienceSection) == ExperiencePreview(d.experience, c.primaryColor)
    ensures PageSection(d, c.primaryColor, EducationSection) == EducationPreview(d.education, c.primaryColor)
    ensures PageSection(d, c.primaryColor, SkillsSection) == SkillsPreview(d.skills, c.primaryColor)
    ensures PageSection(d, c.primaryColor, LanguagesSection) == LanguagePreview(d.languages, c.primaryColor)
    ensures PageSection(d, c.primaryColor, CertificatesSection) == CertificatePreview(d.certificates, c.primaryColor)
    ensures d.projects != [] ==>
      PageSection(d, c.primaryColor, ProjectsSection).value.body == ProjectsPreview(d.projects, c.primaryColor).value.body
      && ProjectsPreview(d.projects, c.primaryColor).value.heading.None?
  {
  }
}
