/**
 * The resume store: the state `{ resumeData, config }` and its actions, each a
 * pure `State -> State` function. Subscription and notification are not modelled.
 */
module Store {
  import opened Wrappers
  import opened Resume
  import opened Defaults

  datatype State = State(data: ResumeData, config: ResumeConfig)

  /** The store's initial state: the built-in resume and configuration. */
  const Initial: State := State(DefaultResumeData, DefaultConfig)

  // ---------------------------------------------------------------------------
  // Partial profiles and their shallow merge

  /**
   * `Partial<Profile>`: every key is absent (`None`) or present. An optional key
   * may be present with the value `undefined`, hence `Option<Option<_>>`.
   */
  datatype ProfilePatch = ProfilePatch(
    name: Option<string>,
    title: Option<string>,
    email: Option<string>,
    phone: Option<string>,
    location: Option<string>,
    website: Option<Option<string>>,
    linkedin: Option<Option<string>>,
    github: Option<Option<string>>,
    summary: Option<string>,
    summaryMarkdown: Option<Option<bool>>)

  const NoProfileChange: ProfilePatch := ProfilePatch(None, None, None, None, None, None, None, None, None, None)

  function AsText(o: Option<string>): Option<FieldValue> {
    match o
    case Some(v) => Some(Text(v))
    case None => None
  }

  function AsMaybeText(o: Option<Option<string>>): Option<FieldValue> {
    match o
    case Some(v) => Some(MaybeText(v))
    case None => None
  }

  /** The value a patch carries for a key, or `None` when the key is absent. */
  function PatchValue(p: ProfilePatch, k: ProfileKey): Option<FieldValue> {
    match k
    case NameKey => AsText(p.name)
    case TitleKey => AsText(p.title)
    case EmailKey => AsText(p.email)
    case PhoneKey => AsText(p.phone)
    case LocationKey => AsText(p.location)
    case WebsiteKey => AsMaybeText(p.website)
    case LinkedinKey => AsMaybeText(p.linkedin)
    case GithubKey => AsMaybeText(p.github)
    case SummaryKey => AsText(p.summary)
    case SummaryMarkdownKey => if p.summaryMarkdown.Some? then Some(MaybeFlag(p.summaryMarkdown.value)) else None
  }

  /** Two patches mention no key in common. */
  predicate DisjointProfilePatches(a: ProfilePatch, b: ProfilePatch) {
    forall k :: !(PatchValue(a, k).Some? && PatchValue(b, k).Some?)
  }

  /** `{ ...profile, ...patch }`: the keys present in the patch are overwritten, every other key is kept. */
  function MergeProfile(p: Profile, patch: ProfilePatch): (r: Profile)
    ensures forall k :: ProfileGet(r, k) == PatchValue(patch, k).GetOr(ProfileGet(p, k))
  {
    var r := Profile(
      patch.name.GetOr(p.name),
      patch.title.GetOr(p.title),
      patch.email.GetOr(p.email),
      patch.phone.GetOr(p.phone),
      patch.location.GetOr(p.location),
      patch.website.GetOr(p.website),
      patch.linkedin.GetOr(p.linkedin),
      patch.github.GetOr(p.github),
      patch.summary.GetOr(p.summary),
      patch.summaryMarkdown.GetOr(p.summaryMarkdown));
    MergedKeys(p, patch, r);
    r
  }

  /** Reads each key of a merged profile back, one key at a time. */
  lemma MergedKeys(p: Profile, patch: ProfilePatch, r: Profile)
    requires r.name == patch.name.GetOr(p.name) && r.title == patch.title.GetOr(p.title)
    requires r.email == patch.email.GetOr(p.email) && r.phone == patch.phone.GetOr(p.phone)
    requires r.location == patch.location.GetOr(p.location) && r.website == patch.website.GetOr(p.website)
    requires r.linkedin == patch.linkedin.GetOr(p.linkedin) && r.github == patch.github.GetOr(p.github)
    requires r.summary == patch.summary.GetOr(p.summary) && r.summaryMarkdown == patch.summaryMarkdown.GetOr(p.summaryMarkdown)
    ensures forall k :: ProfileGet(r, k) == PatchValue(patch, k).GetOr(ProfileGet(p, k))
  {
    forall k ensures ProfileGet(r, k) == PatchValue(patch, k).GetOr(ProfileGet(p, k)) {
      match k {
        case NameKey =>
        case TitleKey =>
        case EmailKey =>
        case PhoneKey =>
        case LocationKey =>
        case WebsiteKey =>
        case LinkedinKey =>
        case GithubKey =>
        case SummaryKey =>
        case SummaryMarkdownKey =>
      }
    }
  }

  /** Merges with disjoint key sets commute. */
  lemma MergeProfileCommutes(p: Profile, a: ProfilePatch, b: ProfilePatch)
    requires DisjointProfilePatches(a, b)
    ensures MergeProfile(MergeProfile(p, a), b) == MergeProfile(MergeProfile(p, b), a)
  {
    var x := MergeProfile(MergeProfile(p, a), b);
    var y := MergeProfile(MergeProfile(p, b), a);
    forall k ensures ProfileGet(x, k) == ProfileGet(y, k) {
      assert !(PatchValue(a, k).Some? && PatchValue(b, k).Some?);
    }
    ProfileExtensional(x, y);
  }

  /** Merging the same patch twice is merging it once; the empty patch changes nothing. */
  lemma MergeProfileIdempotent(p: Profile, a: ProfilePatch)
    ensures MergeProfile(MergeProfile(p, a), a) == MergeProfile(p, a)
    ensures MergeProfile(p, NoProfileChange) == p
  {
    var x := MergeProfile(MergeProfile(p, a), a);
    forall k ensures ProfileGet(x, k) == ProfileGet(MergeProfile(p, a), k) { }
    ProfileExtensional(x, MergeProfile(p, a));
    forall k ensures ProfileGet(MergeProfile(p, NoProfileChange), k) == ProfileGet(p, k) { }
    ProfileExtensional(MergeProfile(p, NoProfileChange), p);
  }

  // ---------------------------------------------------------------------------
  // Partial configurations and their shallow merge

  /** `Partial<ResumeConfig>`. */
  datatype ConfigPatch = ConfigPatch(
    template: Option<Template>,
    primaryColor: Option<string>,
    fontSize: Option<FontSize>,
    spacing: Option<Spacing>)

  function ConfigPatchValue(p: ConfigPatch, k: ConfigKey): Option<FieldValue> {
    match k
    case TemplateKey => if p.template.Some? then Some(Text(TemplateToken(p.template.value))) else None
    case PrimaryColorKey => AsText(p.primaryColor)
    case FontSizeKey => if p.fontSize.Some? then Some(Text(FontSizeToken(p.fontSize.value))) else None
    case SpacingKey => if p.spacing.Some? then Some(Text(SpacingToken(p.spacing.value))) else None
  }

  predicate DisjointConfigPatches(a: ConfigPatch, b: ConfigPatch) {
    forall k :: !(ConfigPatchValue(a, k).Some? && ConfigPatchValue(b, k).Some?)
  }

  /** `{ ...config, ...patch }`. */
  function MergeConfig(c: ResumeConfig, patch: ConfigPatch): (r: ResumeConfig)
    ensures forall k :: ConfigGet(r, k) == ConfigPatchValue(patch, k).GetOr(ConfigGet(c, k))
  {
    ResumeConfig(
      patch.template.GetOr(c.template),
      patch.primaryColor.GetOr(c.primaryColor),
      patch.fontSize.GetOr(c.fontSize),
      patch.spacing.GetOr(c.spacing))
  }

  /** Configuration merges with disjoint key sets commute. */
  lemma MergeConfigCommutes(c: ResumeConfig, a: ConfigPatch, b: ConfigPatch)
    requires DisjointConfigPatches(a, b)
    ensures MergeConfig(MergeConfig(c, a), b) == MergeConfig(MergeConfig(c, b), a)
  {
    var x := MergeConfig(MergeConfig(c, a), b);
    var y := MergeConfig(MergeConfig(c, b), a);
    forall k ensures ConfigGet(x, k) == ConfigGet(y, k) {
      assert !(ConfigPatchValue(a, k).Some? && ConfigPatchValue(b, k).Some?);
    }
    ConfigExtensional(x, y);
  }

  // ---------------------------------------------------------------------------
  // Actions

  /** `updatePersonalInfo(info)`: shallow-merges into the profile; the lists and the config are untouched. */
  function UpdatePersonalInfo(s: State, info: ProfilePatch): (r: State)
    ensures r.config == s.config
    ensures r.data.(profile := s.data.profile) == s.data
    ensures forall k :: ProfileGet(r.data.profile, k) == PatchValue(info, k).GetOr(ProfileGet(s.data.profile, k))
  {
    s.(data := s.data.(profile := MergeProfile(s.data.profile, info)))
  }

  /** `updateEducation(list)`: replaces the list, nothing else changes. */
  function UpdateEducation(s: State, list: seq<Education>): (r: State)
    ensures r.data.education == list
    ensures r.config == s.config && r.data.(education := s.data.education) == s.data
  {
    s.(data := s.data.(education := list))
  }

  /** `updateExperience(list)`. */
  function UpdateExperience(s: State, list: seq<Experience>): (r: State)
    ensures r.data.experience == list
    ensures r.config == s.config && r.data.(experience := s.data.experience) == s.data
  {
    s.(data := s.data.(experience := list))
  }

  /** `updateProjects(list)`. */
  function UpdateProjects(s: State, list: seq<Project>): (r: State)
    ensures r.data.projects == list
    ensures r.config == s.config && r.data.(projects := s.data.projects) == s.data
  {
    s.(data := s.data.(projects := list))
  }

  /** `updateSkills(list)`. */
  function UpdateSkills(s: State, list: seq<Skill>): (r: State)
    ensures r.data.skills == list
    ensures r.config == s.config && r.data.(skills := s.data.skills) == s.data
  {
    s.(data := s.data.(skills := list))
  }

  /** `updateLanguages(list)`. */
  function UpdateLanguages(s: State, list: seq<Language>): (r: State)
    ensures r.data.languages == list
    ensures r.config == s.config && r.data.(languages := s.data.languages) == s.data
  {
    s.(data := s.data.(languages := list))
  }

  /** `updateCertificates(list)`. */
  function UpdateCertificates(s: State, list: seq<Certificate>): (r: State)
    ensures r.data.certificates == list
    ensures r.config == s.config && r.data.(certificates := s.data.certificates) == s.data
  {
    s.(data := s.data.(certificates := list))
  }

  /** `updateConfig(patch)`: shallow-merges into the config and never touches the resume data. */
  function UpdateConfig(s: State, patch: ConfigPatch): (r: State)
    ensures r.data == s.data
    ensures forall k :: ConfigGet(r.config, k) == ConfigPatchValue(patch, k).GetOr(ConfigGet(s.config, k))
  {
    s.(config := MergeConfig(s.config, patch))
  }

  /** `resetResume()`: the built-in defaults, whatever the state was. */
  function ResetResume(s: State): (r: State)
    ensures r.data == DefaultResumeData && r.config == DefaultConfig
  {
    Initial
  }

  /** Reset is idempotent and forgets the state it started from. */
  lemma ResetIdempotent(s: State, t: State)
    ensures ResetResume(ResetResume(s)) == ResetResume(s)
    ensures ResetResume(s) == ResetResume(t)
  {
  }

  // ---------------------------------------------------------------------------
  // Sequences of actions

  datatype Action =
    | ProfileAction(info: ProfilePatch)
    | EducationAction(education: seq<Education>)
    | ExperienceAction(experience: seq<Experience>)
    | ProjectsAction(projects: seq<Project>)
    | SkillsAction(skills: seq<Skill>)
    | LanguagesAction(languages: seq<Language>)
    | CertificatesAction(certificates: seq<Certificate>)
    | ConfigAction(patch: ConfigPatch)
    | ResetAction

  function Step(s: State, a: Action): State {
    match a
    case ProfileAction(info) => UpdatePersonalInfo(s, info)
    case EducationAction(l) => UpdateEducation(s, l)
    case ExperienceAction(l) => UpdateExperience(s, l)
    case ProjectsAction(l) => UpdateProjects(s, l)
    case SkillsAction(l) => UpdateSkills(s, l)
    case LanguagesAction(l) => UpdateLanguages(s, l)
    case CertificatesAction(l) => UpdateCertificates(s, l)
    case ConfigAction(p) => UpdateConfig(s, p)
    case ResetAction => ResetResume(s)
  }

  /** The actions applied in order. */
  function Run(s: State, actions: seq<Action>): State
    decreases |actions|
  {
    if actions == [] then s else Run(Step(s, actions[0]), actions[1..])
  }

  lemma {:induction false} RunSnoc(s: State, actions: seq<Action>, a: Action)
    ensures Run(s, actions + [a]) == Step(Run(s, actions), a)
    decreases |actions|
  {
    if actions == [] {
      assert actions + [a] == [a];
      assert [a][1..] == [];
    } else {
      assert (actions + [a])[0] == actions[0];
      assert (actions + [a])[1..] == actions[1..] + [a];
      RunSnoc(Step(s, actions[0]), actions[1..], a);
    }
  }

  datatype SectionKind = EducationSection | ExperienceSection | ProjectsSection | SkillsSection | LanguagesSection | CertificatesSection

  /** The contents of one section list, whichever section it is. */
  datatype SectionList =
    | EducationList(education: seq<Education>)
    | ExperienceList(experience: seq<Experience>)
    | ProjectsList(projects: seq<Project>)
    | SkillsList(skills: seq<Skill>)
    | LanguagesList(languages: seq<Language>)
    | CertificatesList(certificates: seq<Certificate>)

  function SectionOf(d: ResumeData, k: SectionKind): SectionList {
    match k
    case EducationSection => EducationList(d.education)
    case ExperienceSection => ExperienceList(d.experience)
    case ProjectsSection => ProjectsList(d.projects)
    case SkillsSection => SkillsList(d.skills)
    case LanguagesSection => LanguagesList(d.languages)
    case CertificatesSection => CertificatesList(d.certificates)
  }

  /** The list an action writes into a section, if it writes that section at all. */
  function Writes(a: Action, k: SectionKind): Option<SectionList> {
    match a
    case EducationAction(l) => if k == EducationSection then Some(EducationList(l)) else None
    case ExperienceAction(l) => if k == ExperienceSection then Some(ExperienceList(l)) else None
    case ProjectsAction(l) => if k == ProjectsSection then Some(ProjectsList(l)) else None
    case SkillsAction(l) => if k == SkillsSection then Some(SkillsList(l)) else None
    case LanguagesAction(l) => if k == LanguagesSection then Some(LanguagesList(l)) else None
    case CertificatesAction(l) => if k == CertificatesSection then Some(CertificatesList(l)) else None
    case ResetAction => Some(SectionOf(DefaultResumeData, k))
    case _ => None
  }

  /** A single step replaces a section exactly when the action writes it. */
  lemma StepSection(s: State, a: Action, k: SectionKind)
    ensures SectionOf(Step(s, a).data, k) == Writes(a, k).GetOr(SectionOf(s.data, k))
  {
  }

  /** The last write to a section, scanning the actions from the end; the starting list if none writes it. */
  function LastWrite(s: State, actions: seq<Action>, k: SectionKind): SectionList
    decreases |actions|
  {
    if actions == [] then SectionOf(s.data, k)
    else
      var a := actions[|actions| - 1];
      if Writes(a, k).Some? then Writes(a, k).value else LastWrite(s, actions[..|actions| - 1], k)
  }

  /** After any sequence of actions, each section holds the last list written to it: replacement, not merge. */
  lemma {:induction false} RunIsLastWrite(s: State, actions: seq<Action>, k: SectionKind)
    ensures SectionOf(Run(s, actions).data, k) == LastWrite(s, actions, k)
    decreases |actions|
  {
    if actions != [] {
      var init := actions[..|actions| - 1];
      var a := actions[|actions| - 1];
      assert init + [a] == actions;
      RunSnoc(s, init, a);
      RunIsLastWrite(s, init, k);
      StepSection(Run(s, init), a, k);
    }
  }

  /** Whatever happened before, a reset returns exactly to the defaults. */
  lemma ResetForgetsHistory(s: State, actions: seq<Action>)
    ensures Run(s, actions + [ResetAction]) == Initial
  {
    RunSnoc(s, actions, ResetAction);
  }
}
