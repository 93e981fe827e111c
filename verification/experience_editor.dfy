/** The work-experience editor's list edits, lifted out of its event handlers. */
module ExperienceEditor {
  import opened Wrappers
  import opened Strings
  import opened Resume
  import opened ListEdit

  function IdOf(e: Experience): string { e.id }

  /** An entry as `addExperience` creates it: empty strings, not current, no achievements. */
  predicate IsBlank(e: Experience) {
    && e.company == "" && e.position == "" && e.startDate == "" && e.endDate == ""
    && !e.current && e.location == "" && e.description == ""
    && e.descriptionMarkdown.None? && e.achievements == []
  }

  /** `addExperience`: appends one blank entry with the fresh id, existing entries unchanged. */
  function Add(xs: seq<Experience>, freshId: string): (r: seq<Experience>)
    ensures |r| == |xs| + 1 && r[..|xs|] == xs
    ensures r[|xs|].id == freshId && IsBlank(r[|xs|])
    ensures UniqueIds(xs, IdOf) ==> (UniqueIds(r, IdOf) <==> freshId !in Ids(xs, IdOf))
  {
    var e := Experience(freshId, "", "", "", "", false, "", "", None, []);
    AppendUniqueIff(xs, e, IdOf);
    xs + [e]
  }

  /** `removeExperience(id)`: every entry with the id is dropped, the rest keep their order. */
  function Remove(xs: seq<Experience>, id: string): (r: seq<Experience>)
    ensures forall i :: 0 <= i < |r| ==> r[i].id != id && r[i] in xs
    ensures forall i :: 0 <= i < |xs| && xs[i].id != id ==> xs[i] in r
    ensures UniqueIds(xs, IdOf) ==> UniqueIds(r, IdOf)
    ensures var ps := KeptPositions(xs, id, IdOf, 0); |r| == |ps| && forall i :: 0 <= i < |ps| ==> r[i] == xs[ps[i]]
  {
    RemoveKeepsUnique(xs, id, IdOf);
    RemoveKeepsOrder(xs, id, IdOf, 0);
    assert xs[0..] == xs;
    RemoveById(xs, id, IdOf)
  }

  /** The fields of an entry, for stating which ones an edit touches. */
  datatype Field = Id | Company | Position | StartDate | EndDate | Current | Location | Description | DescriptionMarkdown | Achievements

  function Get(e: Experience, f: Field): FieldValue {
    match f
    case Id => Text(e.id)
    case Company => Text(e.company)
    case Position => Text(e.position)
    case StartDate => Text(e.startDate)
    case EndDate => Text(e.endDate)
    case Current => Flag(e.current)
    case Location => Text(e.location)
    case Description => Text(e.description)
    case DescriptionMarkdown => MaybeFlag(e.descriptionMarkdown)
    case Achievements => Texts(e.achievements)
  }

  /** The inputs of one entry's form: text fields, date pickers, the "current" checkbox and the achievements text. */
  datatype Edit =
    | SetCompany(value: string)
    | SetPosition(value: string)
    | SetStartDate(value: string)
    | SetEndDate(value: string)
    | SetLocation(value: string)
    | SetDescription(value: string)
    | SetAchievementsText(text: string)
    | SetCurrent(checked: bool)

  /** The fields an input may change. */
  function Touches(edit: Edit): set<Field> {
    match edit
    case SetCompany(_) => {Company}
    case SetPosition(_) => {Position}
    case SetStartDate(_) => {StartDate}
    case SetEndDate(_) => {EndDate}
    case SetLocation(_) => {Location}
    case SetDescription(_) => {Description}
    case SetAchievementsText(_) => {Achievements}
    case SetCurrent(_) => {Current, EndDate}
  }

  /** One entry after an input: only the touched fields change, to the value the input produced. */
  function Apply(e: Experience, edit: Edit): (r: Experience)
    ensures forall f :: f !in Touches(edit) ==> Get(r, f) == Get(e, f)
    ensures edit.SetCompany? ==> r.company == edit.value
    ensures edit.SetPosition? ==> r.position == edit.value
    ensures edit.SetStartDate? ==> r.startDate == edit.value
    ensures edit.SetEndDate? ==> r.endDate == edit.value
    ensures edit.SetLocation? ==> r.location == edit.value
    ensures edit.SetDescription? ==> r.description == edit.value
    ensures edit.SetAchievementsText? ==> Join(r.achievements, "\n") == edit.text && forall i :: 0 <= i < |r.achievements| ==> '\n' !in r.achievements[i]
    ensures edit.SetCurrent? ==> r.current == edit.checked && (edit.checked ==> r.endDate == "") && (!edit.checked ==> r.endDate == e.endDate)
  {
    match edit
    case SetCompany(v) => e.(company := v)
    case SetPosition(v) => e.(position := v)
    case SetStartDate(v) => e.(startDate := v)
    case SetEndDate(v) => e.(endDate := v)
    case SetLocation(v) => e.(location := v)
    case SetDescription(v) => e.(description := v)
    case SetAchievementsText(t) => e.(achievements := SplitLines(t))
    case SetCurrent(c) => e.(current := c, endDate := if c then "" else e.endDate)
  }

  /** An input on entry `id`: `experience.map(item => item.id === id ? {...item, ...} : item)`. */
  function Update(xs: seq<Experience>, id: string, edit: Edit): (r: seq<Experience>)
    ensures |r| == |xs|
    ensures forall i :: 0 <= i < |xs| ==> r[i].id == xs[i].id
    ensures forall i :: 0 <= i < |xs| && xs[i].id != id ==> r[i] == xs[i]
    ensures forall i :: 0 <= i < |xs| && xs[i].id == id ==> r[i] == Apply(xs[i], edit)
  {
    MapById(xs, id, IdOf, (e: Experience) => Apply(e, edit))
  }

  /** The end-date picker is disabled while the entry is current. */
  predicate EndDateDisabled(e: Experience) {
    e.current
  }

  /** The achievements text box shows the list joined by newlines. */
  function AchievementsText(e: Experience): string {
    JoinLines(e.achievements)
  }

  /** Ticking "current" clears the end date for good: unticking afterwards does not bring it back. */
  lemma TickThenUntickLosesEndDate(e: Experience)
    ensures Apply(Apply(e, SetCurrent(true)), SetCurrent(false)).endDate == ""
    ensures !Apply(Apply(e, SetCurrent(true)), SetCurrent(false)).current
    ensures EndDateDisabled(Apply(e, SetCurrent(true)))
  {
  }

  /** Re-entering the shown achievements text changes nothing when the list is non-empty and every item is one line. */
  lemma AchievementsRoundTrip(e: Experience)
    requires |e.achievements| >= 1
    requires forall i :: 0 <= i < |e.achievements| ==> '\n' !in e.achievements[i]
    ensures Apply(e, SetAchievementsText(AchievementsText(e))) == e
  {
    LinesRoundTrip(e.achievements);
  }

  /** An entry with no achievements gets one empty achievement if its (empty) text is re-entered. */
  lemma EmptyAchievementsBecomeOneBlank(e: Experience)
    requires e.achievements == []
    ensures Apply(e, SetAchievementsText(AchievementsText(e))).achievements == [""]
  {
    LinesEmptyListBecomesOneBlank();
  }

  /** Inputs on different fields commute; repeating an input is the same as giving it once. */
  lemma EditsCommute(e: Experience, a: Edit, b: Edit)
    requires Touches(a) !! Touches(b)
    ensures Apply(Apply(e, a), b) == Apply(Apply(e, b), a)
    ensures Apply(Apply(e, a), a) == Apply(e, a)
  {
  }
}
