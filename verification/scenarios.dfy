/** End-to-end runs: editor inputs, through the store, to the rendered page. */
module Scenarios {
  import opened Wrappers
  import opened Resume
  import opened Store
  import opened PreviewFormat
  import opened Preview
  import opened ResumePage
  import ExperienceEditor
  import ProfileEditor
  import Debounce

  /** The experience list after adding an entry and filling it in as a current job. */
  function AddCurrentJob(xs: seq<Experience>, id: string, company: string, position: string, start: string): seq<Experience> {
    var ys := ExperienceEditor.Add(xs, id);
    var ys1 := ExperienceEditor.Update(ys, id, ExperienceEditor.SetCompany(company));
    var ys2 := ExperienceEditor.Update(ys1, id, ExperienceEditor.SetPosition(position));
    var ys3 := ExperienceEditor.Update(ys2, id, ExperienceEditor.SetStartDate(start));
    ExperienceEditor.Update(ys3, id, ExperienceEditor.SetCurrent(true))
  }

  /** The filled-in entry is the new last one, with the typed values and the flag set. */
  lemma {:induction false} AddCurrentJobLast(xs: seq<Experience>, id: string, company: string, position: string, start: string)
    ensures var ys := AddCurrentJob(xs, id, company, position, start);
      && |ys| == |xs| + 1
      && ys[|xs|].position == position && ys[|xs|].startDate == start && ys[|xs|].current
  {
    var n := |xs|;
    var ys := ExperienceEditor.Add(xs, id);
    assert ys[n].id == id;
    var ys1 := ExperienceEditor.Update(ys, id, ExperienceEditor.SetCompany(company));
    assert ys1[n].id == id;
    var ys2 := ExperienceEditor.Update(ys1, id, ExperienceEditor.SetPosition(position));
    assert ys2[n].id == id && ys2[n].position == position;
    var ys3 := ExperienceEditor.Update(ys2, id, ExperienceEditor.SetStartDate(start));
    assert ys3[n].id == id && ys3[n].position == position && ys3[n].startDate == start;
    var ys4 := ExperienceEditor.Update(ys3, id, ExperienceEditor.SetCurrent(true));
    assert ys4[n] == ExperienceEditor.Apply(ys3[n], ExperienceEditor.SetCurrent(true));
  }

  /** A non-empty experience list is the page's first section, one entry per job. */
  lemma ExperienceFirstOnPage(d: ResumeData, c: ResumeConfig)
    requires |d.experience| >= 1
    ensures var page := Render(d, c);
      && |page.sections| >= 1
      && page.sections[0].body.Experiences?
      && |page.sections[0].body.experience| == |d.experience|
      && forall i :: 0 <= i < |d.experience| ==> page.sections[0].body.experience[i] == ExperienceEntry(d.experience[i])
  {
    assert Sections(d, c.primaryColor, SectionOrder)[0] == PageSection(d, c.primaryColor, ExperienceSection).value;
  }

  /** A current last job shows on the page as the last experience entry, its range ending in '至今'. */
  lemma CurrentLastOnPage(d: ResumeData, c: ResumeConfig, position: string, start: string)
    requires |d.experience| >= 1
    requires var e := d.experience[|d.experience| - 1]; e.current && e.position == position && e.startDate == start
    ensures var page := Render(d, c);
      && |page.sections| >= 1
      && page.sections[0].body.Experiences?
      && |page.sections[0].body.experience| == |d.experience|
      && page.sections[0].body.experience[|d.experience| - 1].position == position
      && page.sections[0].body.experience[|d.experience| - 1].range == FormatDate(start) + " -至今"
  {
    ExperienceFirstOnPage(d, c);
    var v := ExperienceEntry(d.experience[|d.experience| - 1]);
    assert v.position == position && v.range == FormatDate(start) + " -至今";
  }

  /**
   * Adding a job, filling in company, position and start, and ticking "current":
   * the page's first section is the experience section, and its last entry shows
   * the position and a range ending in '至今'.
   */
  lemma CurrentJobReachesPage(s: State, id: string, company: string, position: string, start: string)
    ensures var xs := AddCurrentJob(s.data.experience, id, company, position, start);
      var page := Render(UpdateExperience(s, xs).data, s.config);
      && |page.sections| >= 1
      && page.sections[0].body.Experiences?
      && |page.sections[0].body.experience| == |xs|
      && page.sections[0].body.experience[|xs| - 1].position == position
      && page.sections[0].body.experience[|xs| - 1].range == FormatDate(start) + " -至今"
  {
    var xs := AddCurrentJob(s.data.experience, id, company, position, start);
    AddCurrentJobLast(s.data.experience, id, company, position, start);
    CurrentLastOnPage(UpdateExperience(s, xs).data, s.config, position, start);
  }

  /** Storing one advanced English entry shows it on the page as 'English' / '高级'. */
  lemma LanguageReachesPage(s: State, id: string)
    ensures var d := UpdateLanguages(s, [Language(id, "English", Advanced)]).data;
      var section := PageSection(d, s.config.primaryColor, LanguagesSection);
      section.Some? && section.value.body == Languages([LanguageView("English", "高级")])
  {
  }

  /**
   * A debounced typing session in the profile form: once the last timer has run
   * out, the page header shows the last name typed, whether or not it passed
   * the schema.
   */
  lemma TypedNameReachesHeader(s: State, calls: seq<Debounce.Call<ProfileEditor.FormValues>>)
    requires |calls| >= 1
    ensures var fires := Debounce.Simulate(calls, Debounce.ProfileWait, 0, None);
      var t := ProfileEditor.Deliver(s, fires);
      Render(t.data, t.config).header.name == calls[|calls| - 1].args.name
  {
    ProfileEditor.SessionSettles(s, calls);
  }

  /** Resetting after any history brings back the built-in page. */
  lemma ResetRestoresPage(s: State)
    ensures var t := ResetResume(s);
      Render(t.data, t.config) == Render(Initial.data, Initial.config)
  {
  }
}
