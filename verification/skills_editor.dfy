/** The skills editor: categories with a comma-separated item list. */
module SkillsEditor {
  import opened Strings
  import opened Resume
  import opened ListEdit
  import Defaults

  function IdOf(s: Skill): string { s.id }

  /** `addSkill`: appends an empty category with no items and the fresh id, existing entries unchanged. */
  function Add(xs: seq<Skill>, freshId: string): (r: seq<Skill>)
    ensures |r| == |xs| + 1 && r[..|xs|] == xs
    ensures r[|xs|] == Skill(freshId, "", [])
    ensures UniqueIds(xs, IdOf) ==> (UniqueIds(r, IdOf) <==> freshId !in Ids(xs, IdOf))
  {
    var s := Skill(freshId, "", []);
    AppendUniqueIff(xs, s, IdOf);
    xs + [s]
  }

  /** `removeSkill(id)`: every entry with the id is dropped, the rest keep their order. */
  function Remove(xs: seq<Skill>, id: string): (r: seq<Skill>)
    ensures forall i :: 0 <= i < |r| ==> r[i].id != id && r[i] in xs
    ensures forall i :: 0 <= i < |xs| && xs[i].id != id ==> xs[i] in r
    ensures UniqueIds(xs, IdOf) ==> UniqueIds(r, IdOf)
    ensures var ps := KeptPositions(xs, id, IdOf, 0); |r| == |ps| && forall i :: 0 <= i < |ps| ==> r[i] == xs[ps[i]]
  {
    RemoveKeepsUnique(xs, id, IdOf);
    RemoveKeepsOrder(xs, id, IdOf, 0);
    assert xs[0..] == xs;
    RemoveById(xs, id, IdOf)
  }

  datatype Edit = SetCategory(value: string) | SetItemsText(text: string)

  /** One category after an input: the name input sets the category, the list box re-parses the items. */
  function Apply(s: Skill, edit: Edit): (r: Skill)
    ensures r.id == s.id
    ensures edit.SetCategory? ==> r.category == edit.value && r.items == s.items
    ensures edit.SetItemsText? ==> r.category == s.category
    ensures edit.SetItemsText? ==> r.items == ParseCommaList(edit.text)
    ensures edit.SetItemsText? ==> forall i :: 0 <= i < |r.items| ==> IsCleanItem(r.items[i])
  {
    match edit
    case SetCategory(v) => s.(category := v)
    case SetItemsText(t) => s.(items := ParseCommaList(t))
  }

  /** An input on category `id`, applied by mapping over the list. */
  function Update(xs: seq<Skill>, id: string, edit: Edit): (r: seq<Skill>)
    ensures |r| == |xs|
    ensures forall i :: 0 <= i < |xs| ==> r[i].id == xs[i].id
    ensures forall i :: 0 <= i < |xs| && xs[i].id != id ==> r[i] == xs[i]
    ensures forall i :: 0 <= i < |xs| && xs[i].id == id ==> r[i] == Apply(xs[i], edit)
  {
    MapById(xs, id, IdOf, (s: Skill) => Apply(s, edit))
  }

  /** The list box shows the items joined by ", ". */
  function ItemsText(s: Skill): string {
    ShowCommaList(s.items)
  }

  /** Re-entering the shown items changes nothing when every item is clean. */
  lemma ItemsRoundTrip(s: Skill)
    requires forall i :: 0 <= i < |s.items| ==> IsCleanItem(s.items[i])
    ensures Apply(s, SetItemsText(ItemsText(s))) == s
  {
    CommaListRoundTrip(s.items);
  }

  /** After one items input the list box is stable: what it shows parses back to the same items. */
  lemma ItemsInputSettles(s: Skill, text: string)
    ensures var t := Apply(s, SetItemsText(text));
      Apply(t, SetItemsText(ItemsText(t))) == t
  {
    ItemsRoundTrip(Apply(s, SetItemsText(text)));
  }

  /** The built-in item lists hold clean items only. */
  lemma DefaultItemsClean()
    ensures forall i :: 0 <= i < |Defaults.FrontEndItems| ==> IsCleanItem(Defaults.FrontEndItems[i])
    ensures forall i :: 0 <= i < |Defaults.ToolItems| ==> IsCleanItem(Defaults.ToolItems[i])
  {
  }

  /** The built-in categories survive the editor: showing their items and reading the text back leaves each one unchanged. */
  lemma DefaultSkillsSurvive(s: Skill)
    requires s in Defaults.DefaultSkills
    ensures Apply(s, SetItemsText(ItemsText(s))) == s
  {
    DefaultItemsClean();
    assert s.items == Defaults.FrontEndItems || s.items == Defaults.ToolItems;
    ItemsRoundTrip(s);
  }
}
