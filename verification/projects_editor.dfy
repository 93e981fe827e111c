/** The projects editor's list edits: add, remove, and the per-entry inputs. */
module ProjectsEditor {
  import opened Wrappers
  import opened Strings
  import opened Resume
  import opened ListEdit

  function IdOf(p: Project): string { p.id }

  /** An entry as `addProject` creates it: empty strings, empty links present, no technologies or highlights. */
  predicate IsBlank(p: Project) {
    && p.name == "" && p.description == "" && p.descriptionMarkdown.None?
    && p.technologies == [] && p.startDate == "" && p.endDate == ""
    && p.url == Some("") && p.github == Some("") && p.highlights == []
  }

  /** `addProject`: appends one blank entry with the fresh id, existing entries unchanged. */
  function Add(xs: seq<Project>, freshId: string): (r: seq<Project>)
    ensures |r| == |xs| + 1 && r[..|xs|] == xs
    ensures r[|xs|].id == freshId && IsBlank(r[|xs|])
    ensures UniqueIds(xs, IdOf) ==> (UniqueIds(r, IdOf) <==> freshId !in Ids(xs, IdOf))
  {
    var p := Project(freshId, "", "", None, [], "", "", Some(""), Some(""), []);
    AppendUniqueIff(xs, p, IdOf);
    xs + [p]
  }

  /** `removeProject(id)`: every entry with the id is dropped, the rest keep their order. */
  function Remove(xs: seq<Project>, id: string): (r: seq<Project>)
    ensures forall i :: 0 <= i < |r| ==> r[i].id != id && r[i] in xs
    ensures forall i :: 0 <= i < |xs| && xs[i].id != id ==> xs[i] in r
    ensures UniqueIds(xs, IdOf) ==> UniqueIds(r, IdOf)
    ensures var ps := KeptPositions(xs, id, IdOf, 0); |r| == |ps| && forall i :: 0 <= i < |ps| ==> r[i] == xs[ps[i]]
  {
    RemoveKeepsUnique(xs, id, IdOf);
    RemoveKeepsOrder(xs, id, IdOf, 0);
    assert xs[0..] == xs;
    RemoveById(xs, id, IdOf)
  }

  /** The fields of an entry, for stating which ones an input touches. */
  datatype Field = Id | Name | Description | DescriptionMarkdown | Technologies | StartDate | EndDate | Url | Github | Highlights

  function Get(p: Project, f: Field): FieldValue {
    match f
    case Id => Text(p.id)
    case Name => Text(p.name)
    case Description => Text(p.description)
    case DescriptionMarkdown => MaybeFlag(p.descriptionMarkdown)
    case Technologies => Texts(p.technologies)
    case StartDate => Text(p.startDate)
    case EndDate => Text(p.endDate)
    case Url => MaybeText(p.url)
    case Github => MaybeText(p.github)
    case Highlights => Texts(p.highlights)
  }

  /** The inputs of one entry's form. */
  datatype Edit =
    | SetName(value: string)
    | SetUrl(value: string)
    | SetStartDate(value: string)
    | SetEndDate(value: string)
    | SetGithub(value: string)
    | SetDescription(value: string)
    | SetTechnologiesText(text: string)
    | SetHighlightsText(text: string)

  /** The one field each input writes. */
  function Touches(edit: Edit): Field {
    match edit
    case SetName(_) => Name
    case SetUrl(_) => Url
    case SetStartDate(_) => StartDate
    case SetEndDate(_) => EndDate
    case SetGithub(_) => Github
    case SetDescription(_) => Description
    case SetTechnologiesText(_) => Technologies
    case SetHighlightsText(_) => Highlights
  }

  /** One entry after an input: only the touched field changes, to the value the input produced. */
  function Apply(p: Project, edit: Edit): (r: Project)
    ensures forall f :: f != Touches(edit) ==> Get(r, f) == Get(p, f)
    ensures edit.SetName? ==> r.name == edit.value
    ensures edit.SetUrl? ==> r.url == Some(edit.value)
    ensures edit.SetStartDate? ==> r.startDate == edit.value
    ensures edit.SetEndDate? ==> r.endDate == edit.value
    ensures edit.SetGithub? ==> r.github == Some(edit.value)
    ensures edit.SetDescription? ==> r.description == edit.value
    ensures edit.SetTechnologiesText? ==> r.technologies == ParseCommaList(edit.text)
    ensures edit.SetTechnologiesText? ==> forall i :: 0 <= i < |r.technologies| ==> IsCleanItem(r.technologies[i])
    ensures edit.SetHighlightsText? ==> JoinLines(r.highlights) == edit.text && forall i :: 0 <= i < |r.highlights| ==> '\n' !in r.highlights[i]
  {
    match edit
    case SetName(v) => p.(name := v)
    case SetUrl(v) => p.(url := Some(v))
    case SetStartDate(v) => p.(startDate := v)
    case SetEndDate(v) => p.(endDate := v)
    case SetGithub(v) => p.(github := Some(v))
    case SetDescription(v) => p.(description := v)
    case SetTechnologiesText(t) => p.(technologies := ParseCommaList(t))
    case SetHighlightsText(t) => p.(highlights := SplitLines(t))
  }

  /** An input on entry `id`, applied by mapping over the list. */
  function Update(xs: seq<Project>, id: string, edit: Edit): (r: seq<Project>)
    ensures |r| == |xs|
    ensures forall i :: 0 <= i < |xs| ==> r[i].id == xs[i].id
    ensures forall i :: 0 <= i < |xs| && xs[i].id != id ==> r[i] == xs[i]
    ensures forall i :: 0 <= i < |xs| && xs[i].id == id ==> r[i] == Apply(xs[i], edit)
  {
    MapById(xs, id, IdOf, (p: Project) => Apply(p, edit))
  }

  /** The technologies box shows the list joined by ", ". */
  function TechnologiesText(p: Project): string {
    ShowCommaList(p.technologies)
  }

  /** The highlights box shows the list joined by newlines. */
  function HighlightsText(p: Project): string {
    JoinLines(p.highlights)
  }

  /** Re-entering the shown technologies text changes nothing when every technology is clean. */
  lemma TechnologiesRoundTrip(p: Project)
    requires forall i :: 0 <= i < |p.technologies| ==> IsCleanItem(p.technologies[i])
    ensures Apply(p, SetTechnologiesText(TechnologiesText(p))) == p
  {
    CommaListRoundTrip(p.technologies);
  }

  /** After one technologies input, re-entering the shown text is a no-op. */
  lemma TechnologiesInputSettles(p: Project, text: string)
    ensures var q := Apply(p, SetTechnologiesText(text));
      Apply(q, SetTechnologiesText(TechnologiesText(q))) == q
  {
    var q := Apply(p, SetTechnologiesText(text));
    TechnologiesRoundTrip(q);
  }

  /** Re-entering the shown highlights text changes nothing when the list is non-empty and every item is one line. */
  lemma HighlightsRoundTrip(p: Project)
    requires |p.highlights| >= 1
    requires forall i :: 0 <= i < |p.highlights| ==> '\n' !in p.highlights[i]
    ensures Apply(p, SetHighlightsText(HighlightsText(p))) == p
  {
    LinesRoundTrip(p.highlights);
  }

  /** Inputs on different fields commute; repeating an input is the same as giving it once. */
  lemma EditsCommute(p: Project, a: Edit, b: Edit)
    requires Touches(a) != Touches(b)
    ensures Apply(Apply(p, a), b) == Apply(Apply(p, b), a)
    ensures Apply(Apply(p, a), a) == Apply(p, a)
  {
  }
}
