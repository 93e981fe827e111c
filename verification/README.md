# Online resume editor — a Dafny model

This project models the core of a browser resume editor written in TypeScript
and React. The parts it covers:

- the resume data types and the built-in sample resume;
- the Zustand store and its nine actions;
- the seven section editors: profile, education, experience, projects, skills,
  languages and certificates, plus the settings panel;
- the debounced profile form;
- the date helpers;
- the preview components and the whole preview page;
- the PDF page-fitting arithmetic;
- the toolbar's export and print handlers.

Everything is pure functions over immutable datatypes, so a state change is a
function from one `State` to the next. Where the source leans on a library or
the browser, the model takes that behaviour as a parameter:

- `Date.now()` ids are a `freshId` argument;
- date-fns parsing and formatting are the `Parsers` and `format` arguments;
- zod's email check is an `isEmail` predicate;
- the markdown renderer is an opaque `Markdown` block;
- the canvas size is a pair of reals.

Modules, one per concern:

- `Wrappers` holds `Option`.
- `Strings` holds JavaScript `split`, `join` and `trim`, the comma-list and
  line-list round trips, and the UTF-16 length that zod counts.
- `Resume` holds the data types.
- `Defaults` holds the sample resume.
- `ListEdit` holds the generic filter-by-id and map-by-id used by every editor.
- `Store` holds the store.
- `ExperienceEditor`, `ProjectsEditor`, `EducationEditor`, `SkillsEditor`,
  `OthersEditor`, `SettingsEditor` and `ProfileEditor` are the editors.
- `Debounce` models the timer behind the profile form.
- `DateUtils` models the date helpers.
- `PreviewFormat` holds the preview's own date format, its level labels and
  its size scales.
- `Preview` holds the section components.
- `ResumePage` is the page.
- `PdfFit` is the PDF layout.
- `Toolbar` holds the toolbar's handlers.
- `Scenarios` holds end-to-end runs from an editor input to the page.

## Model

| member | source | states |
|---|---|---|
| Resume.ParseLevel | src/types/resume.ts:71 | a level string is accepted exactly when it is one of the four union members, and the accepted level prints back as the same string |
| Resume.LevelTokenRoundTrip | src/types/resume.ts:71 | every language level has a token among the four, and parsing that token gives the level back |
| Resume.ConfigTokensExact | src/types/resume.ts:95-103 | template, font-size and spacing values each print to a distinct member of their string unions |
| Defaults.DefaultIdsUnique | src/config/defaultResumeData.ts:7-102 | in every list of the sample resume the ids are pairwise distinct |
| Defaults.DefaultCurrentWithEndDate | src/config/defaultResumeData.ts:31-47 | the sample job is marked current yet keeps an end date, so "current implies no end date" is not an invariant of the data |
| ListEdit.RemoveById | src/components/biz/ExperienceEditor.tsx:33-35 | `filter(x => x.id !== id)`: no element with the id survives, every element with another id does, every result element comes from the list, and a list without the id comes back unchanged |
| ListEdit.RemoveConcat | src/components/biz/ExperienceEditor.tsx:33-35 | removing by id distributes over concatenation |
| ListEdit.RemoveKeepsOrder | src/components/biz/ExperienceEditor.tsx:33-35 | the filter keeps order and multiplicity: its result is the list read at the ascending positions of the elements with another id, and nothing else |
| ListEdit.RemoveIdempotent | src/components/biz/ExperienceEditor.tsx:33-35 | deleting the same id twice is deleting it once |
| ListEdit.RemoveKeepsUnique | src/components/biz/ExperienceEditor.tsx:33-35 | removal keeps ids unique |
| ListEdit.RemoveUniqueDropsOne | src/components/biz/ExperienceEditor.tsx:33-35 | with unique ids, deleting an id that is present shortens the list by exactly one |
| ListEdit.MapById | src/components/biz/ExperienceEditor.tsx:75-79 | `map(x => x.id === id ? f(x) : x)` keeps the length, applies `f` to the elements with the id and leaves every other element as it was |
| ListEdit.MapKeepsIds | src/components/biz/ExperienceEditor.tsx:75-79 | an edit that keeps ids keeps the id list, and with it uniqueness |
| ListEdit.MapUniqueTouchesOne | src/components/biz/ExperienceEditor.tsx:75-79 | with unique ids, an input changes at most one entry |
| ListEdit.AppendUniqueIff | src/components/biz/ExperienceEditor.tsx:27 | appending to a list with unique ids keeps them unique exactly when the new id is not already present |
| Store.MergeProfile | src/stores/useResumeStore.ts:44 | `{ ...profile, ...info }`: every key present in the patch takes the patch's value, and every other key keeps the old one |
| Store.MergeProfileCommutes | src/stores/useResumeStore.ts:40-46 | two profile patches with disjoint keys give the same profile in either order |
| Store.MergeProfileIdempotent | src/stores/useResumeStore.ts:40-46 | applying the same patch twice equals applying it once, and the empty patch changes nothing |
| Store.MergeConfig | src/stores/useResumeStore.ts:101 | `{ ...config, ...newConfig }`: each key present in the patch is overwritten and the others are kept |
| Store.MergeConfigCommutes | src/stores/useResumeStore.ts:99-102 | configuration patches with disjoint keys commute |
| Store.UpdatePersonalInfo | src/stores/useResumeStore.ts:40-46 | only the profile changes, key by key as in the shallow merge; the lists and the config are untouched |
| Store.UpdateEducation | src/stores/useResumeStore.ts:51-54 | the education list is replaced wholesale and nothing else changes |
| Store.UpdateExperience | src/stores/useResumeStore.ts:59-62 | the experience list is replaced and nothing else changes |
| Store.UpdateProjects | src/stores/useResumeStore.ts:67-70 | the projects list is replaced and nothing else changes |
| Store.UpdateSkills | src/stores/useResumeStore.ts:75-78 | the skills list is replaced and nothing else changes |
| Store.UpdateLanguages | src/stores/useResumeStore.ts:83-86 | the languages list is replaced and nothing else changes |
| Store.UpdateCertificates | src/stores/useResumeStore.ts:91-94 | the certificates list is replaced and nothing else changes |
| Store.UpdateConfig | src/stores/useResumeStore.ts:99-102 | the resume data is untouched, and each configuration key follows the shallow merge |
| Store.ResetResume | src/stores/useResumeStore.ts:107-111 | whatever the state, the result is the sample resume with the default configuration |
| Store.ResetIdempotent | src/stores/useResumeStore.ts:107-111 | reset is idempotent and does not depend on the state it starts from |
| Store.StepSection | src/stores/useResumeStore.ts:51-111 | one action replaces a section list exactly when it writes that section (a reset writes the default list), and leaves it alone otherwise |
| Store.RunIsLastWrite | src/stores/useResumeStore.ts:51-111 | after any sequence of actions each section holds the last list written to it: list updates replace, they never merge |
| Store.ResetForgetsHistory | src/stores/useResumeStore.ts:107-111 | whatever actions came before, a final reset yields exactly the initial state |
| ExperienceEditor.Add | src/components/biz/ExperienceEditor.tsx:15-28 | appends one blank entry with the fresh id, keeps the existing entries, and keeps ids unique exactly when the fresh id is new |
| ExperienceEditor.Remove | src/components/biz/ExperienceEditor.tsx:33-35 | the result is exactly the entries whose id differs, in their original order (the list read at the ascending positions of the entries with another id), with ids kept unique |
| ExperienceEditor.Apply | src/components/biz/ExperienceEditor.tsx:75-181 | each input sets its own field and no other; the achievements box stores newline-free lines that join back to the typed text; ticking "current" sets the flag and clears the end date, and unticking keeps whatever end date there is |
| ExperienceEditor.Update | src/components/biz/ExperienceEditor.tsx:75-79 | an input on one entry changes only the entries with that id and never an id |
| ExperienceEditor.TickThenUntickLosesEndDate | src/components/biz/ExperienceEditor.tsx:117-134 | ticking then unticking "current" leaves the end date empty, and while ticked the end-date picker is disabled |
| ExperienceEditor.AchievementsRoundTrip | src/components/biz/ExperienceEditor.tsx:176-180 | with at least one achievement and no newlines inside any, showing the list and reading the box back changes nothing |
| ExperienceEditor.EmptyAchievementsBecomeOneBlank | src/components/biz/ExperienceEditor.tsx:176-180 | an empty achievement list read back through the box becomes one empty line |
| ExperienceEditor.EditsCommute | src/components/biz/ExperienceEditor.tsx:75-179 | inputs on different fields commute, and repeating an input is idempotent |
| ProjectsEditor.Add | src/components/biz/ProjectsEditor.tsx:12-25 | appends one blank project (empty url and github strings) with the fresh id; uniqueness is kept exactly when the id is new |
| ProjectsEditor.Remove | src/components/biz/ProjectsEditor.tsx:30-32 | the result is exactly the projects whose id differs, in their original order (the list read at the ascending positions of the entries with another id), with ids kept unique |
| ProjectsEditor.Apply | src/components/biz/ProjectsEditor.tsx:72-181 | each input sets its own field and no other; the technologies box stores exactly the comma-list parse of the typed text, whose items are non-empty, trimmed and comma-free; the highlights box stores newline-free lines that join back to the typed text |
| ProjectsEditor.Update | src/components/biz/ProjectsEditor.tsx:73-78 | an input changes only the projects with that id and never an id |
| ProjectsEditor.TechnologiesRoundTrip | src/components/biz/ProjectsEditor.tsx:162-164 | clean technologies survive being shown with `join(', ')` and read back |
| ProjectsEditor.TechnologiesInputSettles | src/components/biz/ProjectsEditor.tsx:162-164 | after one edit of the technologies box, re-reading what it shows changes nothing more |
| ProjectsEditor.HighlightsRoundTrip | src/components/biz/ProjectsEditor.tsx:177-180 | newline-free highlights, at least one, survive the box's join and split |
| ProjectsEditor.EditsCommute | src/components/biz/ProjectsEditor.tsx:73-181 | inputs on different fields commute; repeating an input is idempotent |
| EducationEditor.Add | src/components/biz/EducationEditor.tsx:12-24 | appends one blank entry with the fresh id; uniqueness is kept exactly when the id is new |
| EducationEditor.Remove | src/components/biz/EducationEditor.tsx:29-31 | the result is exactly the entries whose id differs, in their original order (the list read at the ascending positions of the entries with another id), with ids kept unique |
| EducationEditor.Apply | src/components/biz/EducationEditor.tsx:71-76 | an input sets its own field and leaves the id and every other field unchanged; GPA and description become present strings |
| EducationEditor.Update | src/components/biz/EducationEditor.tsx:71-76 | an input changes only the entries with that id and never an id |
| EducationEditor.GpaText | src/components/biz/EducationEditor.tsx:114 | the GPA box shows `gpa \|\| ''`: empty exactly when the GPA is absent or empty |
| EducationEditor.GpaRoundTrip | src/components/biz/EducationEditor.tsx:114-118 | echoing the GPA box back leaves the entry unchanged exactly when a GPA is present; an absent GPA becomes the empty string |
| EducationEditor.DescriptionWidget | src/components/biz/EducationEditor.tsx:160-186 | the markdown editor shows when the markdown flag is truthy, with `description \|\| ''`; otherwise a plain text area is bound to the raw field |
| EducationEditor.TypeDescription | src/components/biz/EducationEditor.tsx:160-186 | typing in either widget stores the typed text as the description |
| EducationEditor.EditsCommute | src/components/biz/EducationEditor.tsx:71-186 | inputs on different fields commute; repeating an input is idempotent |
| SkillsEditor.Add | src/components/biz/SkillsEditor.tsx:10-17 | appends an empty category with no items and the fresh id; uniqueness is kept exactly when the id is new |
| SkillsEditor.Remove | src/components/biz/SkillsEditor.tsx:22-24 | the result is exactly the categories whose id differs, in their original order (the list read at the ascending positions of the entries with another id), with ids kept unique |
| SkillsEditor.Apply | src/components/biz/SkillsEditor.tsx:67-90 | the category input sets the name only; the items box stores exactly the comma-list parse of the typed text, whose items are non-empty, trimmed and comma-free, and keeps the name |
| SkillsEditor.Update | src/components/biz/SkillsEditor.tsx:67-90 | an input changes only the categories with that id |
| SkillsEditor.ItemsRoundTrip | src/components/biz/SkillsEditor.tsx:84-86 | clean items survive being shown with `join(', ')` and read back |
| SkillsEditor.ItemsInputSettles | src/components/biz/SkillsEditor.tsx:84-86 | after one edit of the items box, re-reading what it shows changes nothing more |
| SkillsEditor.DefaultItemsClean | src/config/defaultResumeData.ts:65-76 | the sample skill items are all non-empty, trimmed and comma-free |
| SkillsEditor.DefaultSkillsSurvive | src/components/biz/SkillsEditor.tsx:84-86 | each sample category survives showing its items in the box and reading them back |
| OthersEditor.AddLanguage | src/components/biz/OthersEditor.tsx:29-36 | appends an unnamed intermediate language with the fresh id; uniqueness is kept exactly when the id is new |
| OthersEditor.RemoveLanguage | src/components/biz/OthersEditor.tsx:51-53 | the result is exactly the languages whose id differs, in their original order (the list read at the ascending positions of the entries with another id), with ids kept unique |
| OthersEditor.LevelOptionLabel | src/components/biz/OthersEditor.tsx:93-98 | every level has an option in the select, and this is its caption |
| OthersEditor.LevelOptionsAreLevels | src/components/biz/OthersEditor.tsx:89-98 | the four options are the four union members, in order, so the `as` cast on a picked value always yields a valid level |
| OthersEditor.ApplyLanguage | src/components/biz/OthersEditor.tsx:71-98 | the name input changes only the name; the level select changes only the level |
| OthersEditor.PickLevel | src/components/biz/OthersEditor.tsx:87-98 | picking an option stores the level whose token is that option's value, and keeps id and name |
| OthersEditor.UpdateLanguage | src/components/biz/OthersEditor.tsx:71-92 | an input changes only the languages with that id |
| OthersEditor.AddCertificate | src/components/biz/OthersEditor.tsx:112-121 | appends a blank certificate with an empty url string and the fresh id; uniqueness is kept exactly when the id is new |
| OthersEditor.RemoveCertificate | src/components/biz/OthersEditor.tsx:136-138 | the result is exactly the certificates whose id differs, in their original order (the list read at the ascending positions of the entries with another id), with ids kept unique |
| OthersEditor.ApplyCertificate | src/components/biz/OthersEditor.tsx:156-213 | each input sets its own field and no other, and never the id |
| OthersEditor.UpdateCertificate | src/components/biz/OthersEditor.tsx:156-213 | an input changes only the certificates with that id |
| OthersEditor.CertificateEditsCommute | src/components/biz/OthersEditor.tsx:156-213 | inputs on different certificate fields commute |
| SettingsEditor.ClickSwatch | src/components/biz/SettingsEditor.tsx:16-26 | a swatch click sets the primary colour to that swatch and changes nothing else |
| SettingsEditor.SwatchesDistinct | src/components/biz/SettingsEditor.tsx:16-23 | the six swatch colours are pairwise distinct |
| SettingsEditor.ClickHighlightsExactlyOne | src/components/biz/SettingsEditor.tsx:26-31 | after clicking swatch i, swatch j is highlighted exactly when j = i |
| SettingsEditor.DefaultColorIsBlue | src/components/biz/SettingsEditor.tsx:17-31 | with the default configuration the first (blue) swatch is highlighted |
| SettingsEditor.OptionsMatchUnions | src/components/biz/SettingsEditor.tsx:46-66 | the font-size and spacing options are exactly the union members, in order, and every configuration value is offered |
| SettingsEditor.PickFontSize | src/components/biz/SettingsEditor.tsx:46-53 | picking a font-size option stores that size, whose token is the option's value, and changes nothing else |
| SettingsEditor.PickSpacing | src/components/biz/SettingsEditor.tsx:60-67 | picking a spacing option stores that spacing and changes nothing else |
| SettingsEditor.SettingsCommute | src/components/biz/SettingsEditor.tsx:26-61 | colour, font-size and spacing choices commute with one another |
| ProfileEditor.Validate | src/components/biz/ProfileEditor.tsx:10-24 | the schema's complaints: a name shorter than 2 UTF-16 units, an empty title, an address the email check rejects, a summary over 500 units; each is raised exactly when its condition holds |
| ProfileEditor.Forward | src/components/biz/ProfileEditor.tsx:62-66 | the watcher forwards a patch carrying all nine form keys and never the markdown flag |
| ProfileEditor.Applied | src/components/biz/ProfileEditor.tsx:56-66 | after a forwarded change the profile holds the form's values, with the optional links as present strings and the markdown flag kept |
| ProfileEditor.DefaultFormMatchesDefaultProfile | src/components/biz/ProfileEditor.tsx:29-39 | forwarding the form's initial values onto the sample profile gives back the sample profile |
| ProfileEditor.DefaultFormValid | src/components/biz/ProfileEditor.tsx:10-39 | the initial values pass the schema whenever the email check accepts the sample address |
| ProfileEditor.InvalidValuesAreStored | src/components/biz/ProfileEditor.tsx:55-66 | values reach the store whether or not they pass the schema |
| ProfileEditor.ForwardOverwrites | src/components/biz/ProfileEditor.tsx:62-66 | a forwarded change overwrites every form key, so the previous profile matters only through its markdown flag |
| ProfileEditor.Deliver | src/components/biz/ProfileEditor.tsx:55-60 | delivering debounced values touches only the profile |
| ProfileEditor.DeliverLastWins | src/components/biz/ProfileEditor.tsx:55-60 | after several deliveries the profile reflects the last one alone |
| ProfileEditor.SessionSettles | src/components/biz/ProfileEditor.tsx:45-66 | once the last timer of a typing session has run out, the stored profile holds the last values typed |
| Debounce.Quiet | src/components/biz/ProfileEditor.tsx:46-52 | the closed-form rule: the deliveries are the calls followed by a quiet gap of at least `wait` (or the last call), each with its own arguments, in call order |
| Debounce.QuietComplete | src/components/biz/ProfileEditor.tsx:46-52 | every call followed by a quiet gap, and the last call, is delivered |
| Debounce.SimulateIsQuiet | src/components/biz/ProfileEditor.tsx:46-52 | the step-by-step timer simulation, where each call clears the pending timer and a timer due by the next call fires first, equals the closed-form rule from any point |
| Debounce.DebounceIsQuiet | src/components/biz/ProfileEditor.tsx:46-52 | the simulation from the start equals the closed-form rule |
| Debounce.BurstFiresLastOnly | src/components/biz/ProfileEditor.tsx:46-58 | a burst of calls closer together than the wait delivers only the last call |
| Debounce.LastCallDelivered | src/components/biz/ProfileEditor.tsx:46-52 | the last call is always delivered, and it is the last delivery |
| Debounce.DeliveriesChronological | src/components/biz/ProfileEditor.tsx:46-52 | for calls in time order the deliveries are in time order too |
| DateUtils.ToDate | src/lib/dateUtils.ts:14-38 | a falsy value or a blank string gives no date; a Date object is kept exactly when valid; a string is tried with the ISO parser, then with the `Date` constructor; whatever comes back is valid |
| DateUtils.ToDateOfNothing | src/lib/dateUtils.ts:15-16 | absent values and the empty string give no date |
| DateUtils.ToISOString | src/lib/dateUtils.ts:45-49 | an absent or invalid date renders as the empty string, a valid one through the renderer |
| DateUtils.IsoRoundTrip | src/lib/dateUtils.ts:14-49 | a valid date, rendered and parsed back by a parser that reads the renderer's output, is the same date |
| DateUtils.InvalidWritesNothing | src/lib/dateUtils.ts:14-49 | an invalid date renders as text that parses to no date |
| DateUtils.FormatDate | src/lib/dateUtils.ts:57-68 | an invalid input formats as the empty string; a valid one is formatted with the pattern, and a formatter that throws also yields the empty string |
| DateUtils.FormatShort | src/lib/dateUtils.ts:75-77 | formatting with the 'yyyy-MM' pattern |
| DateUtils.FormatFull | src/lib/dateUtils.ts:84-86 | formatting with the 'yyyy年M月d日' pattern |
| DateUtils.FormattedImpliesValid | src/lib/dateUtils.ts:57-95 | a non-empty formatted date implies the input was a valid date |
| DateUtils.Compare | src/lib/dateUtils.ts:111-123 | no result exactly when either side is invalid; otherwise -1, 0 or 1, with -1 exactly when the first is earlier and 1 exactly when it is later |
| DateUtils.CompareAntisymmetric | src/lib/dateUtils.ts:111-123 | swapping the arguments negates the result, and a date compares equal to itself exactly when valid |
| DateUtils.CompareTransitive | src/lib/dateUtils.ts:111-123 | "earlier than" is transitive |
| PreviewFormat.FormatDate | src/components/biz/ExpericencePreview.tsx:11-16 | the preview's date text is empty exactly when the stored date is empty |
| PreviewFormat.FormatDateYearMonth | src/components/biz/ExpericencePreview.tsx:11-16 | a 'year-month[-…]' string shows as 'year.month' |
| PreviewFormat.FormatDateWithoutDash | src/components/biz/ExpericencePreview.tsx:11-16 | a non-empty date without '-' shows with '.undefined' appended, since the destructured month is undefined |
| PreviewFormat.FormatDateSamples | src/components/biz/ExpericencePreview.tsx:11-16 | '2020-01' shows as '2020.01' and '2024-12-01' as '2024.12' |
| PreviewFormat.LanguageLabel | src/components/biz/LanguagePreview.tsx:7-15 | a known level shows the same Chinese caption as the editor's select; any other text shows unchanged |
| PreviewFormat.LanguageLabelTranslates | src/components/biz/LanguagePreview.tsx:7-15 | every level is translated and never shown as its raw token |
| PreviewFormat.ScalesMonotone | src/components/biz/ResumePreview.tsx:46-47 | padding grows 15, 20, 25 mm from compact to relaxed and font size 12, 14, 16 px from small to large; both are monotone |
| Preview.NonEmpty | src/components/biz/ProfilePreview.tsx:20-55 | the conditional spans keep every non-empty candidate and nothing else, and a list without empty strings is kept whole |
| Preview.NonEmptyConcat | src/components/biz/ProfilePreview.tsx:20-55 | dropping empty strings works piecewise, so the kept contacts stay in the candidates' order |
| Preview.ProfileHeader | src/components/biz/ProfilePreview.tsx:9-75 | the header shows name and title with the name in the theme colour; its contacts are the non-empty ones of email, phone, location, website, LinkedIn and GitHub, in that order, each shown exactly when it is non-empty; the summary goes through markdown exactly when it is non-empty |
| Preview.SummaryFlagIgnored | src/components/biz/ProfilePreview.tsx:57-75 | the header does not depend on the summary's markdown flag |
| Preview.AllContactsInOrder | src/components/biz/ProfilePreview.tsx:20-55 | with all six contact fields filled, all six show, in the fixed order |
| Preview.ExperienceEnd | src/components/biz/ExpericencePreview.tsx:49 | a current job ends in '至今', any other in its formatted end date |
| Preview.ExperienceEntry | src/components/biz/ExpericencePreview.tsx:30-80 | an entry shows the position, the subtitle 'company • location', the range, the description through markdown exactly when non-empty, and the achievements exactly when there are any |
| Preview.CurrentHidesEndDate | src/components/biz/ExpericencePreview.tsx:49 | for a current job the stored end date is invisible: any other end date draws the same entry, ending in '至今' |
| Preview.ExperiencePreview | src/components/biz/ExpericencePreview.tsx:18-80 | nothing is drawn for an empty list; otherwise the '工作经历' heading and one entry per job, in order |
| Preview.ProjectLinks | src/components/biz/ProjectsPreview.tsx:92-102 | at most one project link and one GitHub link: the project link shows exactly when the url is non-empty and comes first, the GitHub link shows exactly when github is non-empty and comes last |
| Preview.ProjectEntry | src/components/biz/ProjectsPreview.tsx:24-103 | the links are the project link when the url is set and the GitHub link when github is set; the description goes through markdown exactly when the flag is set; technologies and highlights show exactly when non-empty |
| Preview.ProjectsPreview | src/components/biz/ProjectsPreview.tsx:19-105 | nothing for an empty list; otherwise the entries, with no heading |
| Preview.EducationEntry | src/components/biz/EducationPreview.tsx:30-86 | the subtitle is 'degree • major'; the GPA line 'GPA:'+gpa shows exactly when a GPA is non-empty; the description shows exactly when non-empty, through markdown exactly when flagged |
| Preview.EducationPreview | src/components/biz/EducationPreview.tsx:18-89 | nothing for an empty list; otherwise the '教育经历' heading and one entry per school |
| Preview.SkillsPreview | src/components/biz/SkillsPreview.tsx:7-41 | nothing for an empty list; otherwise the '专业技能' heading and one entry per category |
| Preview.LanguageEntry | src/components/biz/LanguagePreview.tsx:28-35 | the name, and as level the same caption the editor's select shows for it, never the raw token |
| Preview.LanguagePreview | src/components/biz/LanguagePreview.tsx:17-38 | nothing for an empty list; otherwise the '语言能力' heading and one entry per language |
| Preview.CertificateUrlHidden | src/components/biz/CertificatePreview.tsx:26-33 | changing a certificate's url does not change what is drawn |
| Preview.CertificatePreview | src/components/biz/CertificatePreview.tsx:14-36 | nothing for an empty list; otherwise the '证书认证' heading and one entry per certificate |
| ResumePage.PageSection | src/components/biz/ResumePreview.tsx:122-421 | a section is drawn exactly when its list is non-empty, and it is always the section of the asked kind with a heading |
| ResumePage.Visible | src/components/biz/ResumePreview.tsx:122-421 | the visible kinds are those of the order whose lists are non-empty |
| ResumePage.SectionsAreVisible | src/components/biz/ResumePreview.tsx:122-421 | the drawn sections are exactly the visible kinds, in order |
| ResumePage.SectionsArePageSections | src/components/biz/ResumePreview.tsx:122-421 | every drawn section is exactly the page's section of its own kind |
| ResumePage.HeaderSource | src/components/biz/ResumePreview.tsx:14 | of the two keys the page could read its header from, only `profile` holds the profile; `personalInfo` is not a key of the resume data and reads `undefined` |
| ResumePage.RenderWith | src/components/biz/ResumePreview.tsx:14-119 | the page draws when its header is read from `profile` and fails when it is read from `personalInfo` |
| ResumePage.RenderAsWritten | src/components/biz/ResumePreview.tsx:14-57 | reading the header from `personalInfo` fails for every resume |
| ResumePage.Render | src/components/biz/ResumePreview.tsx:40-421 | padding and font come from the configuration, the header equals the profile component's, the sections are the non-empty lists in the order experience, projects, education, skills, languages, certificates, and each drawn section is the page's section of its kind, entries in list order |
| ResumePage.AsWrittenAlwaysFails | src/components/biz/ResumePreview.tsx:14 | the as-written page fails on every input, while the corrected one always draws |
| ResumePage.SectionShownIff | src/components/biz/ResumePreview.tsx:122-421 | a section appears on the page exactly when its list is non-empty |
| ResumePage.AllSectionsInOrder | src/components/biz/ResumePreview.tsx:122-421 | with every list non-empty all six sections show, in the fixed order |
| ResumePage.PageMatchesComponents | src/components/biz/ResumePreview.tsx:122-421 | each page section equals its standalone component, except that the page gives projects the '项目经历' heading |
| PdfFit.Resolve | src/lib/pdfExport.ts:20-25 | missing options default to 'resume.pdf', quality 1, A4 and portrait, and given options are kept |
| PdfFit.CaptureScale | src/lib/pdfExport.ts:53 | for any positive quality the canvas is captured at a scale finer than the quality asked for |
| PdfFit.CaptureOfOptions | src/lib/pdfExport.ts:19-53 | from the caller's options, the capture scale is 2 when no quality is given and twice the quality otherwise |
| PdfFit.OrientedBox | src/lib/pdfExport.ts:81-85 | the page jsPDF creates: the format's box, with the sides swapped in landscape |
| PdfFit.FitInto | src/lib/pdfExport.ts:64-89 | the image fits within the page less a 20 mm margin, touches that bound on one axis, keeps the canvas's aspect ratio, and is centred |
| PdfFit.FitBounds | src/lib/pdfExport.ts:71-77 | the smaller ratio keeps both sides within the bounds and meets one of them |
| PdfFit.PlaceAsWritten | src/lib/pdfExport.ts:64-89 | the as-written placement keeps the aspect ratio and at least a 10 mm offset, but is computed against the portrait box |
| PdfFit.LandscapeOverflows | src/lib/pdfExport.ts:64-89 | a landscape A4 export of a 100×1000 canvas places a 277 mm tall image on a 210 mm tall page |
| PdfFit.Place | src/lib/pdfExport.ts:64-89 | the corrected placement lies on the page jsPDF really creates, with at least 10 mm to spare on every side, and keeps the aspect ratio |
| PdfFit.PortraitUnchanged | src/lib/pdfExport.ts:64-89 | in portrait, the only orientation the toolbar uses, the correction changes nothing |
| Toolbar.FileName | src/components/biz/Toolbar.tsx:15-52 | the file is named after the profile name with '-简历.pdf' or '-简历.png' |
| Toolbar.HandleExport | src/components/biz/Toolbar.tsx:15-52 | the flag is raised first and lowered last; the export runs exactly when the preview element exists; the success toast shows exactly when the export resolves, the error toast exactly when it throws, and nothing shows without the element |
| Toolbar.ExportLowersFlag | src/components/biz/Toolbar.tsx:15-52 | whatever happens, the exporting flag ends lowered, and it is raised while the export runs |
| Toolbar.HandlePrint | src/components/biz/Toolbar.tsx:57-62 | print runs exactly when the element exists, with no flag change and no toast |
| Toolbar.Click | src/components/biz/Toolbar.tsx:68-99 | while an export runs every button is disabled and a click does nothing; otherwise each button runs its handler |
| Toolbar.PrintKeepsFlag | src/components/biz/Toolbar.tsx:57-62 | printing never changes the exporting flag |
| Strings.Split | src/components/biz/ProjectsEditor.tsx:164 | `split` on one character yields at least one piece, and no piece contains the separator |
| Strings.JoinSplit | src/components/biz/ProjectsEditor.tsx:177-180 | joining the pieces of a split with the separator gives the text back |
| Strings.SplitJoin | src/components/biz/ProjectsEditor.tsx:177-180 | splitting a join of separator-free pieces gives the pieces back |
| Strings.TrimStart | src/components/biz/ProjectsEditor.tsx:164 | drops exactly the leading whitespace |
| Strings.TrimEnd | src/components/biz/ProjectsEditor.tsx:164 | drops exactly the trailing whitespace |
| Strings.Trim | src/components/biz/ProjectsEditor.tsx:164 | the result is a contiguous slice of the input with only whitespace cut from either end, and has no whitespace at either end; a trimmed string is unchanged, and the result is empty exactly when the input is all whitespace |
| Strings.TrimAndDropEmpty | src/components/biz/ProjectsEditor.tsx:164 | `.map(t => t.trim()).filter(t => t)` yields at most one non-empty trimmed item per piece and keeps separator-freeness |
| Strings.TrimAndDropKeeps | src/components/biz/ProjectsEditor.tsx:164 | the trim of every non-blank piece is kept, and nothing is kept when every piece is blank |
| Strings.TrimAndDropConcat | src/components/biz/ProjectsEditor.tsx:164 | trimming and dropping works piecewise over a concatenation of piece lists, so the kept items stay in order |
| Strings.SplitConcat | src/components/biz/ProjectsEditor.tsx:164 | splitting at a separator gives the pieces before it followed by the pieces after it |
| Strings.ParseCommaList | src/components/biz/SkillsEditor.tsx:84-86 | the parsed items are non-empty, trimmed and comma-free |
| Strings.ParseCommaListKeeps | src/components/biz/SkillsEditor.tsx:84-86 | every non-blank piece between commas appears, trimmed, among the items, and an all-blank text has none |
| Strings.ParseCommaListPiecewise | src/components/biz/SkillsEditor.tsx:84-86 | the parse of `a,b` is the parse of `a` followed by the parse of `b` |
| Strings.ParseCommaListOne | src/components/biz/SkillsEditor.tsx:84-86 | a comma-free text of one clean item with a space before it, and at most one after, parses to that item alone |
| Strings.TrimPadded | src/components/biz/ProjectsEditor.tsx:164 | one space before a trimmed non-empty item, and at most one after, is exactly what trimming removes |
| Strings.CommaListRoundTrip | src/components/biz/SkillsEditor.tsx:84-86 | clean items survive `join(', ')` followed by the parse |
| Strings.CommaListParseStable | src/components/biz/SkillsEditor.tsx:84-86 | parsing what a parse displays changes nothing |
| Strings.SplitLines | src/components/biz/ExperienceEditor.tsx:176-180 | `split('\n')` gives at least one line, none containing a newline, joining back to the text |
| Strings.LinesRoundTrip | src/components/biz/ExperienceEditor.tsx:176-180 | a non-empty list of newline-free lines survives join and split |
| Strings.LinesEmptyListBecomesOneBlank | src/components/biz/ExperienceEditor.tsx:176-180 | the empty list comes back as one empty line |
| Strings.LinesKeepBlanks | src/components/biz/ExperienceEditor.tsx:176-180 | blank lines are kept, not filtered |
| Strings.Utf16Length | src/components/biz/ProfileEditor.tsx:11-21 | the length zod counts: one unit per character of the Basic Multilingual Plane and two for any other, so it lies between the code-point count and twice it |
| Strings.Utf16LengthConcat | src/components/biz/ProfileEditor.tsx:11-21 | the count is additive over concatenation, so with the one-character case it fixes the count of every text |
| Scenarios.AddCurrentJobLast | src/components/biz/ExperienceEditor.tsx:15-134 | adding a job and filling in position, start and "current" leaves it as the new last entry with those values |
| Scenarios.ExperienceFirstOnPage | src/components/biz/ResumePreview.tsx:122-184 | a non-empty experience list is the page's first section, one entry per job |
| Scenarios.CurrentLastOnPage | src/components/biz/ResumePreview.tsx:122-184 | a current last job shows as the last experience entry, its range ending in '至今' |
| Scenarios.CurrentJobReachesPage | src/components/biz/ExperienceEditor.tsx:15-134 | from the editor's inputs through the store to the page: the new job shows last, with its position and a range ending in '至今' |
| Scenarios.LanguageReachesPage | src/components/biz/ResumePreview.tsx:383-400 | a stored advanced English entry shows as 'English' / '高级' |
| Scenarios.TypedNameReachesHeader | src/components/biz/ProfileEditor.tsx:55-66 | after a debounced typing session settles, the page header shows the last name typed, whether or not it passed the schema |
| Scenarios.ResetRestoresPage | src/stores/useResumeStore.ts:107-111 | after a reset the page is the sample resume's page |

## Left out

- Rendering beyond structure. Markdown is an opaque block. CSS classes, icons, layout and the sanitiser are not modelled.
- The colour helpers (`src/lib/colorUtils.ts`) and the UI widgets (Select, DatePicker, Checkbox, MarkdownEditor). These are context only: each widget is reduced to the value it hands to `onChange`.
- date-fns and the `Date` constructor: parsing, validity and formatting are parameters (`Parsers`, `format`). Time zones and locales are not modelled.
- zod's email check: the `isEmail` predicate parameter.
- Timers and clocks. The debounce is a function from a time-stamped call list to its deliveries. A timer due at the same instant as the next call fires first. `DateUtils.now` and the `Date.now()` ids are parameters or left out.
- html2canvas, jsPDF, `window.open`, `document` and printing. The PDF module keeps only the page-fitting arithmetic. Image export and print are effects in the toolbar's effect list.
- The loading overlay and the error re-throw inside `exportToPDF`. The toolbar sees only "resolves" or "throws".
- Floating point. The PDF arithmetic is on exact reals, with 0.264583 mm per pixel as an exact constant.
- Toast rendering: toasts are effects with their text.
- A print failure: `printResume` can throw when no window opens, and `handlePrint` does not catch it. The model shows print as one effect.
- Duplicate React keys and the re-render cycle: each state is rendered from scratch.
- The unused `addLanguage` helper (src/components/biz/OthersEditor.tsx:11-18) is identical to the button's inline handler, which is modelled.
- The template is never chosen in the UI. `UpdateConfig` can set it, and nothing reads it.
- PdfFit.FitInto: requires a canvas of positive size; a zero-size canvas divides by zero in the source.
- DateUtils.FormatDate: takes the pattern as an argument. The default pattern 'yyyy年MM月dd日' of `formatDate` (src/lib/dateUtils.ts) is not modelled, because no caller relies on it.
- PreviewFormat.LanguageLabel: ignores JavaScript's prototype lookup. `levels['constructor']` would yield a function rather than fall back to the raw text.

## Findings

| source | as written | input that shows it | evidently intended | confidence | as-written member | corrected member |
|---|---|---|---|---|---|---|
| src/components/biz/ResumePreview.tsx:14 | the page destructures `personalInfo` from the resume data, whose profile key is `profile`, so `personalInfo.name` at line 57 reads a property of `undefined` and throws | any resume, e.g. the sample resume | read the header from `profile`, as the profile component does | high (not executed) | ResumePage.RenderAsWritten, ResumePage.AsWrittenAlwaysFails | ResumePage.Render |
| src/lib/pdfExport.ts:64-65 | the page box is always the portrait box of the format, while jsPDF is created with the requested orientation (lines 81-85) | A4, landscape, canvas 100×1000 px: the image is 277 mm tall at y = 10 on a 210 mm tall page | fit into the page of the requested orientation | medium (not executed; the toolbar itself always exports portrait) | PdfFit.PlaceAsWritten, PdfFit.LandscapeOverflows | PdfFit.Place |
