/**
 * The resume data model: one profile, six ordered section lists, and the
 * display configuration. Optional TypeScript fields (`website?`, `gpa?`, ...)
 * are `Option`s; string-literal unions are datatypes with their wire tokens.
 */
module Resume {
  import opened Wrappers

  datatype Profile = Profile(
    name: string,
    title: string,
    email: string,
    phone: string,
    location: string,
    website: Option<string>,
    linkedin: Option<string>,
    github: Option<string>,
    summary: string,
    summaryMarkdown: Option<bool>)

  datatype Education = Education(
    id: string,
    school: string,
    degree: string,
    major: string,
    startDate: string,
    endDate: string,
    gpa: Option<string>,
    description: Option<string>,
    descriptionMarkdown: Option<bool>)

  datatype Experience = Experience(
    id: string,
    company: string,
    position: string,
    startDate: string,
    endDate: string,
    current: bool,
    location: string,
    description: string,
    descriptionMarkdown: Option<bool>,
    achievements: seq<string>)

  datatype Project = Project(
    id: string,
    name: string,
    description: string,
    descriptionMarkdown: Option<bool>,
    technologies: seq<string>,
    startDate: string,
    endDate: string,
    url: Option<string>,
    github: Option<string>,
    highlights: seq<string>)

  datatype Skill = Skill(id: string, category: string, items: seq<string>)

  datatype LanguageLevel = Beginner | Intermediate | Advanced | Native

  datatype Language = Language(id: string, name: string, level: LanguageLevel)

  datatype Certificate = Certificate(id: string, name: string, issuer: string, date: string, url: Option<string>)

  /** Exactly one profile and six ordered lists. */
  datatype ResumeData = ResumeData(
    profile: Profile,
    education: seq<Education>,
    experience: seq<Experience>,
    projects: seq<Project>,
    skills: seq<Skill>,
    languages: seq<Language>,
    certificates: seq<Certificate>)

  datatype Template = Modern | Classic | Minimal | Creative
  datatype FontSize = Small | Medium | Large
  datatype Spacing = Compact | Normal | Relaxed

  datatype ResumeConfig = ResumeConfig(
    template: Template,
    primaryColor: string,
    fontSize: FontSize,
    spacing: Spacing)

  /** JavaScript truthiness of an optional boolean flag such as `descriptionMarkdown`. */
  predicate IsSet(flag: Option<bool>) {
    flag == Some(true)
  }

  /** JavaScript truthiness of an optional string: present and non-empty. */
  predicate HasText(s: Option<string>) {
    s.Some? && s.value != ""
  }

  // ---------------------------------------------------------------------------
  // String-literal unions and their tokens

  const LevelTokens: seq<string> := ["beginner", "intermediate", "advanced", "native"]

  function LevelToken(l: LanguageLevel): string {
    match l
    case Beginner => "beginner"
    case Intermediate => "intermediate"
    case Advanced => "advanced"
    case Native => "native"
  }

  /** The level a token names, if it is one of the four members of the union. */
  function ParseLevel(s: string): (r: Option<LanguageLevel>)
    ensures r.Some? <==> s in LevelTokens
    ensures r.Some? ==> LevelToken(r.value) == s
  {
    if s == "beginner" then Some(Beginner)
    else if s == "intermediate" then Some(Intermediate)
    else if s == "advanced" then Some(Advanced)
    else if s == "native" then Some(Native)
    else None
  }

  /** A language level is exactly one of the four tokens, and the token names it back. */
  lemma LevelTokenRoundTrip(l: LanguageLevel)
    ensures LevelToken(l) in LevelTokens
    ensures ParseLevel(LevelToken(l)) == Some(l)
  {
  }

  const TemplateTokens: seq<string> := ["modern", "classic", "minimal", "creative"]
  const FontSizeTokens: seq<string> := ["small", "medium", "large"]
  const SpacingTokens: seq<string> := ["compact", "normal", "relaxed"]

  function TemplateToken(t: Template): string {
    match t
    case Modern => "modern"
    case Classic => "classic"
    case Minimal => "minimal"
    case Creative => "creative"
  }

  function FontSizeToken(f: FontSize): string {
    match f
    case Small => "small"
    case Medium => "medium"
    case Large => "large"
  }

  function SpacingToken(s: Spacing): string {
    match s
    case Compact => "compact"
    case Normal => "normal"
    case Relaxed => "relaxed"
  }

  /** Each configuration union is exactly its token list, and distinct members have distinct tokens. */
  lemma ConfigTokensExact(t: Template, t': Template, f: FontSize, f': FontSize, s: Spacing, s': Spacing)
    ensures TemplateToken(t) in TemplateTokens && (TemplateToken(t) == TemplateToken(t') ==> t == t')
    ensures FontSizeToken(f) in FontSizeTokens && (FontSizeToken(f) == FontSizeToken(f') ==> f == f')
    ensures SpacingToken(s) in SpacingTokens && (SpacingToken(s) == SpacingToken(s') ==> s == s')
  {
  }

  // ---------------------------------------------------------------------------
  // Field-wise views, used to state "only this field changes"

  /** The value of one field of a record, whatever its TypeScript type. */
  datatype FieldValue =
    | Text(text: string)
    | MaybeText(maybeText: Option<string>)
    | Flag(flag: bool)
    | MaybeFlag(maybeFlag: Option<bool>)
    | Texts(texts: seq<string>)
    | Level(level: LanguageLevel)

  datatype ProfileKey = NameKey | TitleKey | EmailKey | PhoneKey | LocationKey | WebsiteKey | LinkedinKey | GithubKey | SummaryKey | SummaryMarkdownKey

  function ProfileGet(p: Profile, k: ProfileKey): FieldValue {
    match k
    case NameKey => Text(p.name)
    case TitleKey => Text(p.title)
    case EmailKey => Text(p.email)
    case PhoneKey => Text(p.phone)
    case LocationKey => Text(p.location)
    case WebsiteKey => MaybeText(p.website)
    case LinkedinKey => MaybeText(p.linkedin)
    case GithubKey => MaybeText(p.github)
    case SummaryKey => Text(p.summary)
    case SummaryMarkdownKey => MaybeFlag(p.summaryMarkdown)
  }

  /** Two profiles that agree on every key are the same profile. */
  lemma ProfileExtensional(p: Profile, q: Profile)
    requires forall k :: ProfileGet(p, k) == ProfileGet(q, k)
    ensures p == q
  {
    assert ProfileGet(p, NameKey) == ProfileGet(q, NameKey);
    assert ProfileGet(p, TitleKey) == ProfileGet(q, TitleKey);
    assert ProfileGet(p, EmailKey) == ProfileGet(q, EmailKey);
    assert ProfileGet(p, PhoneKey) == ProfileGet(q, PhoneKey);
    assert ProfileGet(p, LocationKey) == ProfileGet(q, LocationKey);
    assert ProfileGet(p, WebsiteKey) == ProfileGet(q, WebsiteKey);
    assert ProfileGet(p, LinkedinKey) == ProfileGet(q, LinkedinKey);
    assert ProfileGet(p, GithubKey) == ProfileGet(q, GithubKey);
    assert ProfileGet(p, SummaryKey) == ProfileGet(q, SummaryKey);
    assert ProfileGet(p, SummaryMarkdownKey) == ProfileGet(q, SummaryMarkdownKey);
  }

  /** The configuration's keys; the values reuse `FieldValue` through the tokens of the unions. */
  datatype ConfigKey = TemplateKey | PrimaryColorKey | FontSizeKey | SpacingKey

  function ConfigGet(c: ResumeConfig, k: ConfigKey): FieldValue {
    match k
    case TemplateKey => Text(TemplateToken(c.template))
    case PrimaryColorKey => Text(c.primaryColor)
    case FontSizeKey => Text(FontSizeToken(c.fontSize))
    case SpacingKey => Text(SpacingToken(c.spacing))
  }

  /** Two configurations that agree on every key are the same configuration. */
  lemma ConfigExtensional(c: ResumeConfig, d: ResumeConfig)
    requires forall k :: ConfigGet(c, k) == ConfigGet(d, k)
    ensures c == d
  {
    assert ConfigGet(c, TemplateKey) == ConfigGet(d, TemplateKey);
    assert ConfigGet(c, FontSizeKey) == ConfigGet(d, FontSizeKey);
    assert ConfigGet(c, SpacingKey) == ConfigGet(d, SpacingKey);
    assert ConfigGet(c, PrimaryColorKey) == ConfigGet(d, PrimaryColorKey);
  }
}
