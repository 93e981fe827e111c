/** The education editor's list edits, including its two description widgets. */
module EducationEditor {
  import opened Wrappers
  import opened Resume
  import opened ListEdit

  function IdOf(e: Education): string { e.id }

  /** An entry as `addEducation` creates it: empty strings, with GPA and description present but empty. */
  predicate IsBlank(e: Education) {
    && e.school == "" && e.degree == "" && e.major == "" && e.startDate == "" && e.endDate == ""
    && e.gpa == Some("") && e.description == Some("") && e.descriptionMarkdown.None?
  }

  /** `addEducation`: appends one blank entry with the fresh id, existing entries unchanged. */
  function Add(xs: seq<Education>, freshId: string): (r: seq<Education>)
    ensures |r| == |xs| + 1 && r[..|xs|] == xs
    ensures r[|xs|].id == freshId && IsBlank(r[|xs|])
    ensures UniqueIds(xs, IdOf) ==> (UniqueIds(r, IdOf) <==> freshId !in Ids(xs, IdOf))
  {
    var e := Education(freshId, "", "", "", "", "", Some(""), Some(""), None);
    AppendUniqueIff(xs, e, IdOf);
    xs + [e]
  }

  /** `removeEducation(id)`: every entry with the id is dropped, the rest keep their order. */
  function Remove(xs: seq<Education>, id: string): (r: seq<Education>)
    ensures forall i :: 0 <= i < |r| ==> r[i].id != id && r[i] in xs
    ensures forall i :: 0 <= i < |xs| && xs[i].id != id ==> xs[i] in r
    ensures UniqueIds(xs, IdOf) ==> UniqueIds(r, IdOf)
    ensures var ps := KeptPositions(xs, id, IdOf, 0); |r| == |ps| && forall i :: 0 <= i < |ps| ==> r[i] == xs[ps[i]]
  {
    RemoveKeepsUnique(xs, id, IdOf);
    RemoveKeepsOrder(xs, id, IdOf, 0);
    assert xs[0..] == xs;
    RemoveById(xs, id, IdOf)
  }

  /** The fields of an entry, for stating which ones an input touches. */
  datatype Field = Id | School | Degree | Major | StartDate | EndDate | Gpa | Description | DescriptionMarkdown

  function Get(e: Education, f: Field): FieldValue {
    match f
    case Id => Text(e.id)
    case School => Text(e.school)
    case Degree => Text(e.degree)
    case Major => Text(e.major)
    case StartDate => Text(e.startDate)
    case EndDate => Text(e.endDate)
    case Gpa => MaybeText(e.gpa)
    case Description => MaybeText(e.description)
    case DescriptionMarkdown => MaybeFlag(e.descriptionMarkdown)
  }

  /** The inputs of one entry's form. */
  datatype Edit =
    | SetSchool(value: string)
    | SetDegree(value: string)
    | SetMajor(value: string)
    | SetGpa(value: string)
    | SetStartDate(value: string)
    | SetEndDate(value: string)
    | SetDescription(value: string)

  /** The one field each input writes. */
  function Touches(edit: Edit): Field {
    match edit
    case SetSchool(_) => School
    case SetDegree(_) => Degree
    case SetMajor(_) => Major
    case SetGpa(_) => Gpa
    case SetStartDate(_) => StartDate
    case SetEndDate(_) => EndDate
    case SetDescription(_) => Description
  }

  /** One entry after an input: only the touched field changes, to the typed value. */
  function Apply(e: Education, edit: Edit): (r: Education)
    ensures r.id == e.id
    ensures forall f :: f != Touches(edit) ==> Get(r, f) == Get(e, f)
    ensures Get(r, Touches(edit)) == (if Touches(edit) in {Gpa, Description} then MaybeText(Some(edit.value)) else Text(edit.value))
  {
    match edit
    case SetSchool(v) => e.(school := v)
    case SetDegree(v) => e.(degree := v)
    case SetMajor(v) => e.(major := v)
    case SetGpa(v) => e.(gpa := Some(v))
    case SetStartDate(v) => e.(startDate := v)
    case SetEndDate(v) => e.(endDate := v)
    case SetDescription(v) => e.(description := Some(v))
  }

  /** An input on entry `id`, applied by mapping over the list. */
  function Update(xs: seq<Education>, id: string, edit: Edit): (r: seq<Education>)
    ensures |r| == |xs|
    ensures forall i :: 0 <= i < |xs| ==> r[i].id == xs[i].id
    ensures forall i :: 0 <= i < |xs| && xs[i].id != id ==> r[i] == xs[i]
    ensures forall i :: 0 <= i < |xs| && xs[i].id == id ==> r[i] == Apply(xs[i], edit)
  {
    MapById(xs, id, IdOf, (e: Education) => Apply(e, edit))
  }

  /** The GPA box shows `gpa || ''`. */
  function GpaText(e: Education): (r: string)
    ensures HasText(e.gpa) <==> r != ""
    ensures e.gpa.Some? ==> r == e.gpa.value
  {
    e.gpa.GetOr("")
  }

  /**
   * The description widget: a markdown editor showing `description || ''` when the
   * entry's markdown flag is set, otherwise a plain text area bound to the raw field.
   */
  datatype DescriptionBox = MarkdownBox(shown: string) | PlainBox(raw: Option<string>)

  function DescriptionWidget(e: Education): (r: DescriptionBox)
    ensures r.MarkdownBox? <==> IsSet(e.descriptionMarkdown)
    ensures r.MarkdownBox? ==> r.shown == e.description.GetOr("")
    ensures r.PlainBox? ==> r.raw == e.description
  {
    if IsSet(e.descriptionMarkdown) then MarkdownBox(e.description.GetOr("")) else PlainBox(e.description)
  }

  /** Typing into whichever description widget is shown writes the same update. */
  function TypeDescription(e: Education, box: DescriptionBox, typed: string): (r: Education)
    ensures r == Apply(e, SetDescription(typed))
    ensures r.description == Some(typed)
  {
    match box
    case MarkdownBox(_) => e.(description := Some(typed))
    case PlainBox(_) => e.(description := Some(typed))
  }

  /** Re-entering the shown GPA is a no-op exactly when the GPA is present; a missing GPA becomes an empty one. */
  lemma GpaRoundTrip(e: Education)
    ensures Apply(e, SetGpa(GpaText(e))) == e <==> e.gpa.Some?
    ensures e.gpa.None? ==> Apply(e, SetGpa(GpaText(e))).gpa == Some("")
  {
  }

  /** Inputs on different fields commute; repeating an input is the same as giving it once. */
  lemma EditsCommute(e: Education, a: Edit, b: Edit)
    requires Touches(a) != Touches(b)
    ensures Apply(Apply(e, a), b) == Apply(Apply(e, b), a)
    ensures Apply(Apply(e, a), a) == Apply(e, a)
  {
  }
}
