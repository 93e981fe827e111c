/**
 * The profile form: nine text inputs checked by a schema, whose every change
 * is forwarded, debounced, to the store's `updatePersonalInfo`.
 */
module ProfileEditor {
  import opened Wrappers
  import opened Strings
  import opened Resume
  import opened Defaults
  import opened Store
  import opened Debounce

  /** The form's values: every field is a string. */
  datatype FormValues = FormValues(
    name: string,
    title: string,
    email: string,
    phone: string,
    location: string,
    website: string,
    linkedin: string,
    github: string,
    summary: string)

  /** The form's hard-coded initial values. */
  const DefaultFormValues: FormValues := FormValues(
    "张三", "前端开发工程师", "zhangsan@example.com", "+86 138-0000-0000", "北京市", "", "", "",
    "具有3年前端开发经验的工程师，熟练掌握React、Vue等现代前端框架，有丰富的项目开发和团队协作经验。")

  /** The schema's complaints. */
  datatype FormError = NameTooShort | TitleEmpty | EmailInvalid | SummaryTooLong

  /**
   * The schema: the name has at least 2 and the summary at most 500 UTF-16 code
   * units, the title is non-empty, and the email passes the email check, which is
   * a parameter here. The other five fields accept any string.
   */
  function Validate(v: FormValues, isEmail: string -> bool): (r: set<FormError>)
    ensures NameTooShort in r <==> Utf16Length(v.name) < 2
    ensures TitleEmpty in r <==> v.title == ""
    ensures EmailInvalid in r <==> !isEmail(v.email)
    ensures SummaryTooLong in r <==> Utf16Length(v.summary) > 500
  {
    (if Utf16Length(v.name) < 2 then {NameTooShort} else {})
    + (if v.title == "" then {TitleEmpty} else {})
    + (if !isEmail(v.email) then {EmailInvalid} else {})
    + (if Utf16Length(v.summary) > 500 then {SummaryTooLong} else {})
  }

  /** The values the form watcher hands on: a partial profile carrying all nine keys. */
  function Forward(v: FormValues): (r: ProfilePatch)
    ensures forall k :: k != SummaryMarkdownKey ==> PatchValue(r, k).Some?
    ensures PatchValue(r, SummaryMarkdownKey).None?
  {
    ProfilePatch(Some(v.name), Some(v.title), Some(v.email), Some(v.phone), Some(v.location),
      Some(Some(v.website)), Some(Some(v.linkedin)), Some(Some(v.github)), Some(v.summary), None)
  }

  /** The profile the store holds after a forwarded change: the form's values, with the markdown flag kept. */
  function Applied(p: Profile, v: FormValues): (r: Profile)
    ensures r.name == v.name && r.title == v.title && r.email == v.email && r.phone == v.phone
    ensures r.location == v.location && r.summary == v.summary
    ensures r.website == Some(v.website) && r.linkedin == Some(v.linkedin) && r.github == Some(v.github)
    ensures r.summaryMarkdown == p.summaryMarkdown
  {
    MergeProfile(p, Forward(v))
  }

  /** The form's initial values reproduce the built-in profile exactly. */
  lemma DefaultFormMatchesDefaultProfile()
    ensures Applied(DefaultProfile, DefaultFormValues) == DefaultProfile
  {
  }

  /** The initial values pass the schema whenever the email check accepts the sample address. */
  lemma DefaultFormValid(isEmail: string -> bool)
    requires isEmail(DefaultFormValues.email)
    ensures Validate(DefaultFormValues, isEmail) == {}
  {
    var v := DefaultFormValues;
    assert |v.name| == 2 && |v.summary| <= 250;
    assert Utf16Length(v.name) >= 2 && Utf16Length(v.summary) <= 500;
  }

  /**
   * Forwarding does not consult the schema: a one-letter name, an empty title,
   * a bad email or an over-long summary reaches the store all the same.
   */
  lemma InvalidValuesAreStored(s: State, v: FormValues, isEmail: string -> bool)
    ensures Validate(v, isEmail) != {} ==> UpdatePersonalInfo(s, Forward(v)).data.profile.name == v.name
    ensures UpdatePersonalInfo(s, Forward(v)).data.profile == Applied(s.data.profile, v)
  {
  }

  /** The form only writes: the profile already in the store is overwritten field by field, whatever it was. */
  lemma ForwardOverwrites(p: Profile, q: Profile, v: FormValues)
    requires p.summaryMarkdown == q.summaryMarkdown
    ensures Applied(p, v) == Applied(q, v)
  {
  }

  /** The store after the debounced deliveries, applied in order. */
  function Deliver(s: State, fires: seq<Fire<FormValues>>): (r: State)
    ensures r.config == s.config
    ensures r.data.(profile := s.data.profile) == s.data
    decreases |fires|
  {
    if fires == [] then s
    else Deliver(UpdatePersonalInfo(s, Forward(fires[0].args)), fires[1..])
  }

  /** After the deliveries, the profile holds the last delivered values. */
  lemma {:induction false} DeliverLastWins(s: State, fires: seq<Fire<FormValues>>)
    requires |fires| >= 1
    ensures Deliver(s, fires).data.profile == Applied(s.data.profile, fires[|fires| - 1].args)
    decreases |fires|
  {
    if |fires| > 1 {
      var t := UpdatePersonalInfo(s, Forward(fires[0].args));
      DeliverLastWins(t, fires[1..]);
      assert fires[1..][|fires[1..]| - 1] == fires[|fires| - 1];
    }
  }

  /**
   * A session of edits, debounced by 300 ms: once the timer of the last
   * change has run out, the store holds exactly the last values typed.
   */
  lemma SessionSettles(s: State, calls: seq<Call<FormValues>>)
    requires |calls| >= 1
    ensures var fires := Simulate(calls, ProfileWait, 0, None);
      Deliver(s, fires).data.profile == Applied(s.data.profile, calls[|calls| - 1].args)
  {
    DebounceIsQuiet(calls, ProfileWait);
    LastCallDelivered(calls, ProfileWait, 0);
    DeliverLastWins(s, Quiet(calls, ProfileWait, 0));
  }
}
