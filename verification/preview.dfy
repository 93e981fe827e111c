/**
 * The preview components, rendered to an abstract view: the text each element
 * shows, which optional elements appear, and which blocks go through the
 * markdown renderer (kept opaque as `Markdown(source)`).
 */
module Preview {
  import opened Wrappers
  import opened Resume
  import opened PreviewFormat
  import OthersEditor

  /** A text block: handed to the markdown renderer, or shown as a plain paragraph. */
  datatype Block = Markdown(source: string) | Plain(text: string)

  /** A section heading, drawn in the theme colour. */
  datatype Heading = Heading(text: string, color: string)

  /** A tag or skill chip. */
  datatype Chip = Chip(text: string, background: string, color: string)

  datatype Link = Link(caption: string, href: string)

  datatype HeaderView = HeaderView(name: string, nameColor: string, title: string, contacts: seq<string>, summary: Option<Block>)

  datatype ExperienceView = ExperienceView(position: string, subtitle: string, range: string, description: Option<Block>, achievements: Option<seq<string>>)

  datatype ProjectView = ProjectView(name: string, description: Block, range: string, technologies: Option<seq<Chip>>, highlights: Option<seq<string>>, links: seq<Link>)

  datatype EducationView = EducationView(school: string, subtitle: string, gpaLine: Option<string>, range: string, description: Option<Block>)

  datatype SkillView = SkillView(category: string, chips: seq<Chip>)

  datatype LanguageView = LanguageView(name: string, levelLabel: string)

  datatype CertificateView = CertificateView(name: string, issuer: string, date: string)

  datatype Body =
    | Experiences(experience: seq<ExperienceView>)
    | Projects(projects: seq<ProjectView>)
    | Educations(education: seq<EducationView>)
    | Skills(skills: seq<SkillView>)
    | Languages(languages: seq<LanguageView>)
    | Certificates(certificates: seq<CertificateView>)

  datatype Section = Section(heading: Option<Heading>, body: Body)

  // ---------------------------------------------------------------------------
  // Shared text shapes

  /** The range text: the JSX `{start}{' '}-{end}` reads "start -end". */
  function DateRange(start: string, end: string): (r: string)
    ensures r == start + " -" + end
  {
    start + " " + "-" + end
  }

  /** The "a • b" subtitle line. */
  function Subtitle(a: string, b: string): string {
    a + " " + "•" + " " + b
  }

  /** The non-empty strings of a list, in their order. */
  function NonEmpty(xs: seq<string>): (r: seq<string>)
    ensures |r| <= |xs|
    ensures forall i :: 0 <= i < |r| ==> r[i] != "" && r[i] in xs
    ensures forall i :: 0 <= i < |xs| && xs[i] != "" ==> xs[i] in r
    ensures (forall i :: 0 <= i < |xs| ==> xs[i] != "") ==> r == xs
  {
    if xs == [] then []
    else if xs[0] == "" then NonEmpty(xs[1..])
    else [xs[0]] + NonEmpty(xs[1..])
  }

  /** Filtering works piecewise, so the kept strings keep their relative order and multiplicity. */
  lemma {:induction false} NonEmptyConcat(xs: seq<string>, ys: seq<string>)
    ensures NonEmpty(xs + ys) == NonEmpty(xs) + NonEmpty(ys)
  {
    if xs != [] {
      assert (xs + ys)[0] == xs[0];
      assert (xs + ys)[1..] == xs[1..] + ys;
      NonEmptyConcat(xs[1..], ys);
    } else {
      assert xs + ys == ys;
    }
  }

  // ---------------------------------------------------------------------------
  // Profile

  /** The six contact candidates in display order: email, phone, location, website, LinkedIn, GitHub. */
  function ContactCandidates(p: Profile): seq<string> {
    [p.email, p.phone, p.location, p.website.GetOr(""), p.linkedin.GetOr(""), p.github.GetOr("")]
  }

  /**
   * The profile header: name in the theme colour, title, the contact fields
   * that are set, and the summary, always through the markdown renderer, when
   * it is non-empty. The markdown flag is not consulted.
   */
  function ProfileHeader(p: Profile, color: string): (r: HeaderView)
    ensures r.name == p.name && r.title == p.title && r.nameColor == color
    ensures r.contacts == NonEmpty(ContactCandidates(p))
    ensures forall i :: 0 <= i < |r.contacts| ==> r.contacts[i] != "" && r.contacts[i] in ContactCandidates(p)
    ensures p.email != "" <==> p.email in r.contacts
    ensures p.phone != "" <==> p.phone in r.contacts
    ensures p.location != "" <==> p.location in r.contacts
    ensures HasText(p.website) <==> p.website.GetOr("") in r.contacts
    ensures HasText(p.linkedin) <==> p.linkedin.GetOr("") in r.contacts
    ensures HasText(p.github) <==> p.github.GetOr("") in r.contacts
    ensures r.summary.Some? <==> p.summary != ""
    ensures r.summary.Some? ==> r.summary.value == Markdown(p.summary)
  {
    var contacts := NonEmpty(ContactCandidates(p));
    var cs := ContactCandidates(p);
    assert cs[0] == p.email && cs[1] == p.phone && cs[2] == p.location;
    assert cs[3] == p.website.GetOr("") && cs[4] == p.linkedin.GetOr("") && cs[5] == p.github.GetOr("");
    HeaderView(p.name, color, p.title, contacts, if p.summary != "" then Some(Markdown(p.summary)) else None)
  }

  /** The header ignores the summary's markdown flag. */
  lemma SummaryFlagIgnored(p: Profile, color: string, flag: Option<bool>)
    ensures ProfileHeader(p.(summaryMarkdown := flag), color) == ProfileHeader(p, color)
  {
  }

  /** With every contact field filled, all six show, in the fixed order. */
  lemma AllContactsInOrder(p: Profile, color: string)
    requires p.email != "" && p.phone != "" && p.location != ""
    requires HasText(p.website) && HasText(p.linkedin) && HasText(p.github)
    ensures ProfileHeader(p, color).contacts == [p.email, p.phone, p.location, p.website.value, p.linkedin.value, p.github.value]
  {
    var cs := ContactCandidates(p);
    assert cs == [p.email, p.phone, p.location, p.website.value, p.linkedin.value, p.github.value];
    assert forall i :: 0 <= i < |cs| ==> cs[i] != "";
    assert NonEmpty(cs) == cs;
  }

  // ---------------------------------------------------------------------------
  // Experience

  /** The end of an experience's range: '至今' for the current job, else the formatted end date. */
  function ExperienceEnd(e: Experience): (r: string)
    ensures e.current ==> r == "至今"
    ensures !e.current ==> r == FormatDate(e.endDate)
  {
    if e.current then "至今" else FormatDate(e.endDate)
  }

  function ExperienceEntry(e: Experience): (r: ExperienceView)
    ensures r.position == e.position
    ensures r.subtitle == Subtitle(e.company, e.location)
    ensures r.range == FormatDate(e.startDate) + " -" + ExperienceEnd(e)
    ensures r.description.Some? <==> e.description != ""
    ensures r.description.Some? ==> r.description.value == Markdown(e.description)
    ensures r.achievements.Some? <==> |e.achievements| > 0
    ensures r.achievements.Some? ==> r.achievements.value == e.achievements
  {
    ExperienceView(
      e.position,
      Subtitle(e.company, e.location),
      DateRange(FormatDate(e.startDate), ExperienceEnd(e)),
      if e.description != "" then Some(Markdown(e.description)) else None,
      if |e.achievements| > 0 then Some(e.achievements) else None)
  }

  /** For the current job the end date is never shown, whatever it holds. */
  lemma CurrentHidesEndDate(e: Experience, otherEnd: string)
    requires e.current
    ensures ExperienceEntry(e.(endDate := otherEnd)) == ExperienceEntry(e)
    ensures ExperienceEntry(e).range == FormatDate(e.startDate) + " -至今"
  {
  }

  /** `ExperiencePreview`: nothing for an empty list, else the headed section with one entry per experience, in order. */
  function ExperiencePreview(xs: seq<Experience>, color: string): (r: Option<Section>)
    ensures r.None? <==> xs == []
    ensures r.Some? ==> r.value.heading == Some(Heading("工作经历", color)) && r.value.body.Experiences?
    ensures r.Some? ==> |r.value.body.experience| == |xs| && forall i :: 0 <= i < |xs| ==> r.value.body.experience[i] == ExperienceEntry(xs[i])
  {
    if xs == [] then None
    else Some(Section(Some(Heading("工作经历", color)), Experiences(seq(|xs|, i requires 0 <= i < |xs| => ExperienceEntry(xs[i])))))
  }

  // ---------------------------------------------------------------------------
  // Projects

  /** The links row: the project link when the url is non-empty, then the GitHub link when that is. */
  function ProjectLinks(p: Project): (r: seq<Link>)
    ensures |r| <= 2
    ensures (exists i :: 0 <= i < |r| && r[i].caption == "项目链接") <==> HasText(p.url)
    ensures (exists i :: 0 <= i < |r| && r[i].caption == "GitHub") <==> HasText(p.github)
    ensures forall i :: 0 <= i < |r| ==> r[i] == Link("项目链接", p.url.GetOr("")) || r[i] == Link("GitHub", p.github.GetOr(""))
    ensures |r| == (if HasText(p.url) then 1 else 0) + (if HasText(p.github) then 1 else 0)
    ensures HasText(p.url) ==> r[0] == Link("项目链接", p.url.value)
    ensures HasText(p.github) ==> r[|r| - 1] == Link("GitHub", p.github.value)
  {
    var a := if HasText(p.url) then [Link("项目链接", p.url.value)] else [];
    var b := if HasText(p.github) then [Link("GitHub", p.github.value)] else [];
    var r := a + b;
    assert HasText(p.url) ==> r[0].caption == "项目链接";
    assert HasText(p.github) ==> r[|r| - 1].caption == "GitHub";
    r
  }

  /** Technology tags: each tinted with the theme colour plus the '20' alpha. */
  function TechChips(techs: seq<string>, color: string): (r: seq<Chip>)
    ensures |r| == |techs|
    ensures forall i :: 0 <= i < |techs| ==> r[i] == Chip(techs[i], color + "20", color)
  {
    seq(|techs|, i requires 0 <= i < |techs| => Chip(techs[i], color + TechTagAlpha, color))
  }

  function ProjectEntry(p: Project, color: string): (r: ProjectView)
    ensures r.name == p.name
    ensures r.description == (if IsSet(p.descriptionMarkdown) then Markdown(p.description) else Plain(p.description))
    ensures r.range == FormatDate(p.startDate) + " -" + FormatDate(p.endDate)
    ensures r.technologies.Some? <==> |p.technologies| > 0
    ensures r.technologies.Some? ==> r.technologies.value == TechChips(p.technologies, color)
    ensures r.highlights.Some? <==> |p.highlights| > 0
    ensures r.highlights.Some? ==> r.highlights.value == p.highlights
    ensures r.links == ProjectLinks(p)
  {
    ProjectView(
      p.name,
      if IsSet(p.descriptionMarkdown) then Markdown(p.description) else Plain(p.description),
      DateRange(FormatDate(p.startDate), FormatDate(p.endDate)),
      if |p.technologies| > 0 then Some(TechChips(p.technologies, color)) else None,
      if |p.highlights| > 0 then Some(p.highlights) else None,
      ProjectLinks(p))
  }

  /** The project entries, in list order. */
  function ProjectEntries(xs: seq<Project>, color: string): (r: seq<ProjectView>)
    ensures |r| == |xs| && forall i :: 0 <= i < |xs| ==> r[i] == ProjectEntry(xs[i], color)
  {
    seq(|xs|, i requires 0 <= i < |xs| => ProjectEntry(xs[i], color))
  }

  /** `ProjectsPreview`: nothing for an empty list, else the entries with no section heading. */
  function ProjectsPreview(xs: seq<Project>, color: string): (r: Option<Section>)
    ensures r.None? <==> xs == []
    ensures r.Some? ==> r.value.heading.None? && r.value.body == Projects(ProjectEntries(xs, color))
  {
    if xs == [] then None else Some(Section(None, Projects(ProjectEntries(xs, color))))
  }

  // ---------------------------------------------------------------------------
  // Education

  function EducationEntry(e: Education): (r: EducationView)
    ensures r.school == e.school
    ensures r.subtitle == Subtitle(e.degree, e.major)
    ensures r.gpaLine.Some? <==> HasText(e.gpa)
    ensures r.gpaLine.Some? ==> r.gpaLine.value == "GPA:" + e.gpa.value
    ensures r.range == FormatDate(e.startDate) + " -" + FormatDate(e.endDate)
    ensures r.description.Some? <==> HasText(e.description)
    ensures r.description.Some? ==> r.description.value == (if IsSet(e.descriptionMarkdown) then Markdown(e.description.value) else Plain(e.description.value))
  {
    EducationView(
      e.school,
      Subtitle(e.degree, e.major),
      if HasText(e.gpa) then Some("GPA:" + e.gpa.value) else None,
      DateRange(FormatDate(e.startDate), FormatDate(e.endDate)),
      if HasText(e.description) then
        Some(if IsSet(e.descriptionMarkdown) then Markdown(e.description.value) else Plain(e.description.value))
      else None)
  }

  /** `EducationPreview`. */
  function EducationPreview(xs: seq<Education>, color: string): (r: Option<Section>)
    ensures r.None? <==> xs == []
    ensures r.Some? ==> r.value.heading == Some(Heading("教育经历", color)) && r.value.body.Educations?
    ensures r.Some? ==> |r.value.body.education| == |xs| && forall i :: 0 <= i < |xs| ==> r.value.body.education[i] == EducationEntry(xs[i])
  {
    if xs == [] then None
    else Some(Section(Some(Heading("教育经历", color)), Educations(seq(|xs|, i requires 0 <= i < |xs| => EducationEntry(xs[i])))))
  }

  // ---------------------------------------------------------------------------
  // Skills, languages, certificates

  /** A skill: its category heading, then one chip per item tinted with the '15' alpha; no items still shows the heading. */
  function SkillEntry(s: Skill, color: string): (r: SkillView)
    ensures r.category == s.category
    ensures |r.chips| == |s.items| && forall i :: 0 <= i < |s.items| ==> r.chips[i] == Chip(s.items[i], color + "15", color)
  {
    SkillView(s.category, seq(|s.items|, i requires 0 <= i < |s.items| => Chip(s.items[i], color + SkillChipAlpha, color)))
  }

  /** `SkillsPreview`. */
  function SkillsPreview(xs: seq<Skill>, color: string): (r: Option<Section>)
    ensures r.None? <==> xs == []
    ensures r.Some? ==> r.value.heading == Some(Heading("专业技能", color)) && r.value.body.Skills?
    ensures r.Some? ==> |r.value.body.skills| == |xs| && forall i :: 0 <= i < |xs| ==> r.value.body.skills[i] == SkillEntry(xs[i], color)
  {
    if xs == [] then None
    else Some(Section(Some(Heading("专业技能", color)), Skills(seq(|xs|, i requires 0 <= i < |xs| => SkillEntry(xs[i], color)))))
  }

  function LanguageEntry(l: Language): (r: LanguageView)
    ensures r.name == l.name && r.levelLabel != LevelToken(l.level)
    ensures r.levelLabel == OthersEditor.LevelOptionLabel(l.level)
  {
    LanguageLabelTranslates(l.level);
    LanguageView(l.name, LanguageLabel(LevelToken(l.level)))
  }

  /** `LanguagePreview`. */
  function LanguagePreview(xs: seq<Language>, color: string): (r: Option<Section>)
    ensures r.None? <==> xs == []
    ensures r.Some? ==> r.value.heading == Some(Heading("语言能力", color)) && r.value.body.Languages?
    ensures r.Some? ==> |r.value.body.languages| == |xs| && forall i :: 0 <= i < |xs| ==> r.value.body.languages[i] == LanguageEntry(xs[i])
  {
    if xs == [] then None
    else Some(Section(Some(Heading("语言能力", color)), Languages(seq(|xs|, i requires 0 <= i < |xs| => LanguageEntry(xs[i])))))
  }

  /** A certificate: name, issuer and formatted date; the url is never shown. */
  function CertificateEntry(c: Certificate): (r: CertificateView)
    ensures r == CertificateView(c.name, c.issuer, FormatDate(c.date))
  {
    CertificateView(c.name, c.issuer, FormatDate(c.date))
  }

  /** The certificate url has no effect on what is shown. */
  lemma CertificateUrlHidden(c: Certificate, url: Option<string>)
    ensures CertificateEntry(c.(url := url)) == CertificateEntry(c)
  {
  }

  /** `CertificatePreview`. */
  function CertificatePreview(xs: seq<Certificate>, color: string): (r: Option<Section>)
    ensures r.None? <==> xs == []
    ensures r.Some? ==> r.value.heading == Some(Heading("证书认证", color)) && r.value.body.Certificates?
    ensures r.Some? ==> |r.value.body.certificates| == |xs| && forall i :: 0 <= i < |xs| ==> r.value.body.certificates[i] == CertificateEntry(xs[i])
  {
    if xs == [] then None
    else Some(Section(Some(Heading("证书认证", color)), Certificates(seq(|xs|, i requires 0 <= i < |xs| => CertificateEntry(xs[i])))))
  }
}
