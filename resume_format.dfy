/**
  `format_resume` (main.py:404-550): the parsed résumé record rendered as
  Markdown, section by section in a fixed order, each section and each
  optional line present only when its field is truthy.

  A missing key, JSON null and the empty string all read as "" here, and a
  missing or empty list as []; Python's truthiness then becomes `!= ""` and
  `!= []`.
*/
module ResumeFormat {
  import opened Wrappers
  import opened Text

  datatype Education = Education(
    institution: string, location: string, degree: string, major: string, minor: string,
    additionalMajors: seq<string>, additionalMinors: seq<string>, graduationDate: string,
    gpa: string, testScores: string, relevantCoursework: seq<string>, honors: seq<string>)

  datatype Experience = Experience(
    company: string, location: string, position: string, dates: string,
    responsibilities: seq<string>)

  datatype Project = Project(
    name: string, description: string, technologies: seq<string>, achievements: seq<string>)

  datatype Extracurricular = Extracurricular(
    organization: string, role: string, dates: string, achievements: seq<string>)

  datatype Sport = Sport(
    activity: string, level: string, dates: string, achievements: seq<string>)

  datatype SkillGroup = SkillGroup(category: string, items: seq<string>)

  datatype Resume = Resume(
    contactInfo: map<string, string>, summary: string, education: seq<Education>,
    experience: seq<Experience>, projects: seq<Project>,
    extracurriculars: seq<Extracurricular>, sports: seq<Sport>, skills: seq<SkillGroup>)

  const Title := "### Resume Summary\n\n"
  const ParseFailure := "Error: Failed to parse resume"

  // ---------------------------------------------------------------------
  // The rendering, as functions

  /** `f"{prefix}{v}\n"` when `v` is truthy, nothing otherwise. */
  function OptLine(prefix: string, v: string): string {
    if v != "" then prefix + v + "\n" else ""
  }

  function Bullet(item: string): string {
    "  * " + item + "\n"
  }

  /** A label line followed by one `  * item` line per item, when there are items. */
  function BulletList(heading: string, items: seq<string>): string {
    if items != [] then heading + ConcatMap(items, Bullet) else ""
  }

  /** `contact_info.get(k)`, with "" for a missing key. */
  function ContactField(c: map<string, string>, k: string): string {
    if k in c then c[k] else ""
  }

  /** `any(contact_info.values())`: some value, under any key, is truthy. */
  predicate AnyContact(c: map<string, string>) {
    c.Values - {""} != {}
  }

  /** The truthy ones of name, email, phone and location, one line each, then a blank line. */
  function ContactLines(c: map<string, string>): string {
    OptLine("- **Name:** ", ContactField(c, "name"))
    + OptLine("- **Email:** ", ContactField(c, "email"))
    + OptLine("- **Phone:** ", ContactField(c, "phone"))
    + OptLine("- **Location:** ", ContactField(c, "location"))
    + "\n"
  }

  function ContactSection(c: map<string, string>): string {
    if AnyContact(c) then Header(ContactInformation) + ContactLines(c) else ""
  }

  function SummarySection(summary: string): string {
    if summary != "" then Header(ProfessionalSummary) + (summary + "\n\n") else ""
  }

  /** `f"{prefix}{v}"` when `v` is truthy, nothing otherwise. */
  function OptText(prefix: string, v: string): string {
    if v != "" then prefix + v else ""
  }

  /** `f"{prefix}{', '.join(xs)}"` when `xs` is non-empty, nothing otherwise. */
  function OptJoined(prefix: string, xs: seq<string>): string {
    if xs != [] then prefix + Join(", ", xs) else ""
  }

  /**
    The degree line of an education entry: the degree, then " in" the
    major, the minor, the additional majors and the additional minors that
    are present; nothing at all without a degree.
  */
  function DegreeLine(e: Education): (line: string)
    ensures line == "" <==> e.degree == ""
    ensures line != "" ==> |line| > |e.degree| + 2 && line[..|e.degree| + 2] == "- " + e.degree
                           && line[|line| - 1] == '\n'
  {
    if e.degree != "" then
      var line := "- " + e.degree
        + OptText(" in ", e.major)
        + OptText(" with a minor in ", e.minor)
        + OptJoined(" and ", e.additionalMajors)
        + OptJoined(" with additional minors in ", e.additionalMinors)
        + "\n";
      assert line[..|e.degree| + 2] == "- " + e.degree;
      line
    else ""
  }

  /** A graduation date is shown unless it is empty, "present" in any case, or a range. */
  predicate ShowsGraduation(g: string) {
    g != "" && Lower(g) != "present" && '-' !in g
  }

  function GraduationLine(g: string): string {
    if ShowsGraduation(g) then "- Expected Graduation: " + g + "\n" else ""
  }

  /** The lines of an education entry before the graduation date. */
  function EducationHead(e: Education): string {
    "**" + e.institution + "**\n"
    + OptLine("- Location: ", e.location)
    + DegreeLine(e)
  }

  /** The lines of an education entry after the graduation date, and the blank line. */
  function EducationTail(e: Education): string {
    OptLine("- GPA: ", e.gpa)
    + OptLine("- Test Scores: ", e.testScores)
    + BulletList("- Relevant Coursework:\n", e.relevantCoursework)
    + BulletList("- Honors & Awards:\n", e.honors)
    + "\n"
  }

  function EducationEntry(e: Education): string {
    EducationHead(e) + GraduationLine(e.graduationDate) + EducationTail(e)
  }

  function ExperienceEntry(x: Experience): string {
    "**" + x.company + "**\n"
    + OptLine("- Location: ", x.location)
    + OptLine("- Position: ", x.position)
    + OptLine("- Dates: ", x.dates)
    + BulletList("- Key Responsibilities:\n", x.responsibilities)
    + "\n"
  }

  function ProjectEntry(p: Project): string {
    "**" + p.name + "**\n"
    + OptLine("- ", p.description)
    + BulletList("- Technologies:\n", p.technologies)
    + BulletList("- Key Achievements:\n", p.achievements)
    + "\n"
  }

  function ExtracurricularEntry(x: Extracurricular): string {
    "**" + x.organization + "**\n"
    + OptLine("- Role: ", x.role)
    + OptLine("- Dates: ", x.dates)
    + BulletList("- Key Achievements:\n", x.achievements)
    + "\n"
  }

  function SportEntry(s: Sport): string {
    "**" + s.activity + "**\n"
    + OptLine("- Level: ", s.level)
    + OptLine("- Dates: ", s.dates)
    + BulletList("- Achievements:\n", s.achievements)
    + "\n"
  }

  function SkillItem(item: string): string {
    "- " + item + "\n"
  }

  /** A skill group renders to nothing exactly when its category is empty or missing. */
  function SkillGroupEntry(g: SkillGroup): (s: string)
    ensures s == "" <==> g.category == ""
  {
    if g.category != "" then "**" + g.category + "**\n" + ConcatMap(g.items, SkillItem) + "\n"
    else ""
  }

  datatype Section =
    | ContactInformation | ProfessionalSummary | EducationHistory | ProfessionalExperience
    | ProjectList | ExtracurricularActivities | SportsAndAthletics | SkillsAndAdditional

  /** The order in which `format_resume` emits its sections. */
  const SectionOrder: seq<Section> := [
    ContactInformation, ProfessionalSummary, EducationHistory, ProfessionalExperience,
    ProjectList, ExtracurricularActivities, SportsAndAthletics, SkillsAndAdditional]

  function Header(k: Section): string {
    match k
    case ContactInformation => "#### Contact Information\n"
    case ProfessionalSummary => "#### Professional Summary\n"
    case EducationHistory => "#### Education\n"
    case ProfessionalExperience => "#### Professional Experience\n"
    case ProjectList => "#### Projects\n"
    case ExtracurricularActivities => "#### Extracurricular Activities\n"
    case SportsAndAthletics => "#### Sports & Athletics\n"
    case SkillsAndAdditional => "#### Skills & Additional Information\n"
  }

  /** The field that decides a section is truthy. */
  predicate Present(r: Resume, k: Section) {
    match k
    case ContactInformation => AnyContact(r.contactInfo)
    case ProfessionalSummary => r.summary != ""
    case EducationHistory => r.education != []
    case ProfessionalExperience => r.experience != []
    case ProjectList => r.projects != []
    case ExtracurricularActivities => r.extracurriculars != []
    case SportsAndAthletics => r.sports != []
    case SkillsAndAdditional => r.skills != []
  }

  /** A header followed by one entry per element, when there are elements. */
  function ListSection<T>(header: string, xs: seq<T>, entry: T -> string): string {
    if xs != [] then header + ConcatMap(xs, entry) else ""
  }

  /** The text of section `k`, "" when it is not emitted. */
  function SectionText(r: Resume, k: Section): string {
    match k
    case ContactInformation => ContactSection(r.contactInfo)
    case ProfessionalSummary => SummarySection(r.summary)
    case EducationHistory => ListSection(Header(EducationHistory), r.education, EducationEntry)
    case ProfessionalExperience => ListSection(Header(ProfessionalExperience), r.experience, ExperienceEntry)
    case ProjectList => ListSection(Header(ProjectList), r.projects, ProjectEntry)
    case ExtracurricularActivities => ListSection(Header(ExtracurricularActivities), r.extracurriculars, ExtracurricularEntry)
    case SportsAndAthletics => ListSection(Header(SportsAndAthletics), r.sports, SportEntry)
    case SkillsAndAdditional => ListSection(Header(SkillsAndAdditional), r.skills, SkillGroupEntry)
  }

  /** The text of every section, in `SectionOrder`. */
  function SectionTexts(r: Resume): (ts: seq<string>)
    ensures |ts| == |SectionOrder|
  {
    seq(|SectionOrder|, i requires 0 <= i < |SectionOrder| => SectionText(r, SectionOrder[i]))
  }

  /** The first `n` sections of `SectionOrder`, rendered. */
  function SectionsUpTo(r: Resume, n: nat): string
    requires n <= |SectionOrder|
  {
    if n == 0 then "" else SectionsUpTo(r, n - 1) + SectionText(r, SectionOrder[n - 1])
  }

  /** What `format_resume` returns. */
  function Render(parsed: Option<Resume>): string {
    match parsed
    case None => ParseFailure
    case Some(r) => Title + SectionsUpTo(r, |SectionOrder|)
  }

  /** Where section `n` of `SectionOrder` starts in the output of `format_resume`. */
  function SectionOffset(r: Resume, n: nat): nat
    requires n <= |SectionOrder|
  {
    |Title| + |SectionsUpTo(r, n)|
  }

  lemma {:induction false} SectionsUpToIsConcat(r: Resume, n: nat)
    requires n <= |SectionOrder|
    ensures SectionsUpTo(r, n) == Concat(SectionTexts(r)[..n])
  {
    if n > 0 {
      SectionsUpToIsConcat(r, n - 1);
      ConcatSnoc(SectionTexts(r), n - 1);
    }
  }

  /** `s` begins with `h`. */
  predicate HeadedBy(s: string, h: string) {
    |h| <= |s| && s[..|h|] == h
  }

  /** Rendering one more section appends exactly that section's text. */
  lemma EmitSection(r: Resume, n: nat, before: string, after: string)
    requires n < |SectionOrder|
    requires before == Title + SectionsUpTo(r, n)
    requires after == before + SectionText(r, SectionOrder[n])
    ensures after == Title + SectionsUpTo(r, n + 1)
  {
    ConcatAssoc(Title, SectionsUpTo(r, n), SectionText(r, SectionOrder[n]));
  }

  // ---------------------------------------------------------------------
  // Properties of the rendering

  /**
    The error text comes out exactly when the résumé could not be parsed;
    otherwise the output starts with the title.
  */
  lemma FailureTextOnlyWithoutResume(parsed: Option<Resume>)
    ensures Render(parsed) == ParseFailure <==> parsed.None?
    ensures parsed.Some? ==> HeadedBy(Render(parsed), Title)
  {
    if parsed.Some? {
      var out := Render(parsed);
      assert out[0] == Title[0] != ParseFailure[0];
      assert out[..|Title|] == Title;
    }
  }

  lemma ListSectionHeaded<T>(header: string, xs: seq<T>, entry: T -> string)
    requires header != ""
    ensures var s := ListSection(header, xs, entry);
            (s != "" <==> xs != []) && (xs != [] ==> HeadedBy(s, header))
  {
  }

  /** A section is emitted, headed by its header, exactly when its field is truthy. */
  lemma SectionHeaded(r: Resume, k: Section)
    ensures var s := SectionText(r, k);
            (s != "" <==> Present(r, k)) && (Present(r, k) ==> HeadedBy(s, Header(k)))
  {
    match k
    case ContactInformation =>
      var h := Header(ContactInformation);
      assert (h + ContactLines(r.contactInfo))[..|h|] == h;
    case ProfessionalSummary =>
      var h := Header(ProfessionalSummary);
      assert (h + (r.summary + "\n\n"))[..|h|] == h;
    case EducationHistory =>
      ListSectionHeaded(Header(EducationHistory), r.education, EducationEntry);
    case ProfessionalExperience =>
      ListSectionHeaded(Header(ProfessionalExperience), r.experience, ExperienceEntry);
    case ProjectList =>
      ListSectionHeaded(Header(ProjectList), r.projects, ProjectEntry);
    case ExtracurricularActivities =>
      ListSectionHeaded(Header(ExtracurricularActivities), r.extracurriculars, ExtracurricularEntry);
    case SportsAndAthletics =>
      ListSectionHeaded(Header(SportsAndAthletics), r.sports, SportEntry);
    case SkillsAndAdditional =>
      ListSectionHeaded(Header(SkillsAndAdditional), r.skills, SkillGroupEntry);
  }

  /** A section that is not truthy adds nothing: the next section starts where it would have. */
  lemma AbsentSectionIsSkipped(r: Resume, n: nat)
    requires n < |SectionOrder| && !Present(r, SectionOrder[n])
    ensures SectionOffset(r, n + 1) == SectionOffset(r, n)
  {
    SectionHeaded(r, SectionOrder[n]);
  }

  /** A truthy section's header stands at the section's offset in the output. */
  lemma HeaderAtOffset(r: Resume, n: nat)
    requires n < |SectionOrder| && Present(r, SectionOrder[n])
    ensures var out := Render(Some(r));
            var h, i := Header(SectionOrder[n]), SectionOffset(r, n);
            i + |h| <= |out| && out[i..i + |h|] == h
  {
    var ts := SectionTexts(r);
    SectionHeaded(r, SectionOrder[n]);
    SectionsUpToIsConcat(r, n);
    SectionsUpToIsConcat(r, |SectionOrder|);
    assert ts[..|SectionOrder|] == ts;
    PrefixBehindHead(Title, ts, n, Header(SectionOrder[n]));
  }

  /**
    The headers come out in the fixed order: when sections m < n are both
    truthy, the header of m stands at its offset, the header of n at its own,
    and the first ends before the second begins.
  */
  lemma HeadersInFixedOrder(r: Resume, m: nat, n: nat)
    requires m < n < |SectionOrder|
    requires Present(r, SectionOrder[m]) && Present(r, SectionOrder[n])
    ensures var out := Render(Some(r));
            var hm, hn := Header(SectionOrder[m]), Header(SectionOrder[n]);
            var i, j := SectionOffset(r, m), SectionOffset(r, n);
            i + |hm| <= j && j + |hn| <= |out|
            && out[i..i + |hm|] == hm && out[j..j + |hn|] == hn
  {
    HeaderAtOffset(r, m);
    HeaderAtOffset(r, n);
    SectionHeaded(r, SectionOrder[m]);
    SectionsUpToIsConcat(r, m);
    SectionsUpToIsConcat(r, n);
    PiecesInOrder(SectionTexts(r), m, n);
  }

  /**
    The graduation date only ever adds its own line: an entry is the entry
    without the date with `GraduationLine` inserted, and that line is there
    exactly when the date is non-empty, not "present" in any letter case and
    free of '-'.
  */
  lemma ExpectedGraduationLine(e: Education)
    ensures GraduationLine(e.graduationDate) != "" <==> ShowsGraduation(e.graduationDate)
    ensures var without := EducationEntry(e.(graduationDate := ""));
            exists cut :: 0 <= cut <= |without|
                          && EducationEntry(e) == without[..cut] + GraduationLine(e.graduationDate) + without[cut..]
  {
    var e0 := e.(graduationDate := "");
    var head, tail := EducationHead(e), EducationTail(e);
    assert DegreeLine(e0) == DegreeLine(e);
    assert EducationHead(e0) == head && EducationTail(e0) == tail;
    assert GraduationLine("") == "";
    assert head + "" == head;
    var without := EducationEntry(e0);
    assert without == head + tail;
    assert without[..|head|] == head && without[|head|..] == tail;
  }

  /** The skill groups whose category is truthy, in order. */
  function NamedGroups(gs: seq<SkillGroup>): (named: seq<SkillGroup>)
    ensures forall g :: g in named ==> g in gs && g.category != ""
  {
    if gs == [] then []
    else
      var last := gs[|gs| - 1];
      NamedGroups(gs[..|gs| - 1]) + (if last.category != "" then [last] else [])
  }

  lemma ConcatMapAppend<T>(xs: seq<T>, x: T, f: T -> string)
    ensures ConcatMap(xs + [x], f) == ConcatMap(xs, f) + f(x)
  {
    assert (xs + [x])[..|xs|] == xs;
  }

  /** A skill group with an empty or missing category contributes nothing to the skills section. */
  lemma {:induction false} UnnamedSkillGroupsContributeNothing(gs: seq<SkillGroup>)
    ensures ConcatMap(gs, SkillGroupEntry) == ConcatMap(NamedGroups(gs), SkillGroupEntry)
  {
    if gs != [] {
      var init, last := gs[..|gs| - 1], gs[|gs| - 1];
      UnnamedSkillGroupsContributeNothing(init);
      if last.category != "" {
        ConcatMapAppend(NamedGroups(init), last, SkillGroupEntry);
      } else {
        assert NamedGroups(gs) == NamedGroups(init);
      }
    }
  }

  /**
    The contact header follows any truthy value, also under a key other than
    name, email, phone and location; when none of those four is truthy the
    section is the header and a blank line.
  */
  lemma ContactHeaderFromAnyKey(c: map<string, string>)
    requires AnyContact(c)
    requires ContactField(c, "name") == "" && ContactField(c, "email") == ""
    requires ContactField(c, "phone") == "" && ContactField(c, "location") == ""
    ensures ContactSection(c) == Header(ContactInformation) + "\n"
  {
  }

  // ---------------------------------------------------------------------
  // The rendering as `format_resume` performs it, appending to `output`.
  // The ghost `added` follows what a method has appended so far, in the
  // grouping of the function that specifies it.

  /** `if v: output += f"{prefix}{v}\n"`. */
  method AppendOptLine(output: string, prefix: string, v: string) returns (res: string)
    ensures res == output + OptLine(prefix, v)
  {
    res := output;
    if v != "" {
      res := res + (prefix + v + "\n");
    }
  }

  /** A heading and one `  * item` line per item, when there are items. */
  method AppendBulletList(output: string, heading: string, items: seq<string>) returns (res: string)
    ensures res == output + BulletList(heading, items)
  {
    res := output;
    if items != [] {
      res := res + heading;
      for i := 0 to |items|
        invariant res == output + heading + ConcatMap(items[..i], Bullet)
      {
        ConcatMapSnoc(items, i, Bullet);
        ConcatAssoc(output + heading, ConcatMap(items[..i], Bullet), Bullet(items[i]));
        res := res + ("  * " + items[i] + "\n");
      }
      assert items[..|items|] == items;
      ConcatAssoc(output, heading, ConcatMap(items, Bullet));
    }
  }

  method AppendContact(output: string, r: Resume) returns (res: string)
    ensures res == output + SectionText(r, ContactInformation)
  {
    var c := r.contactInfo;
    res := output;
    if AnyContact(c) {
      res := res + "#### Contact Information\n";
      ghost var start := res;
      var name, email := ContactField(c, "name"), ContactField(c, "email");
      var phone, location := ContactField(c, "phone"), ContactField(c, "location");
      res := AppendOptLine(res, "- **Name:** ", name);
      ghost var added := OptLine("- **Name:** ", name);
      res := AppendOptLine(res, "- **Email:** ", email);
      ConcatAssoc(start, added, OptLine("- **Email:** ", email));
      added := added + OptLine("- **Email:** ", email);
      res := AppendOptLine(res, "- **Phone:** ", phone);
      ConcatAssoc(start, added, OptLine("- **Phone:** ", phone));
      added := added + OptLine("- **Phone:** ", phone);
      res := AppendOptLine(res, "- **Location:** ", location);
      ConcatAssoc(start, added, OptLine("- **Location:** ", location));
      added := added + OptLine("- **Location:** ", location);
      res := res + "\n";
      ConcatAssoc(start, added, "\n");
      ConcatAssoc(output, Header(ContactInformation), ContactLines(c));
    }
    assert res == output + ContactSection(c);
  }

  method AppendSummary(output: string, r: Resume) returns (res: string)
    ensures res == output + SectionText(r, ProfessionalSummary)
  {
    res := output;
    if r.summary != "" {
      res := res + "#### Professional Summary\n";
      res := res + (r.summary + "\n\n");
      ConcatAssoc(output, Header(ProfessionalSummary), r.summary + "\n\n");
    }
    assert res == output + SummarySection(r.summary);
  }

  /** The degree, with the major, minor and additional ones that are truthy. */
  method AppendDegreeLine(output: string, e: Education) returns (res: string)
    ensures res == output + DegreeLine(e)
  {
    res := output;
    if e.degree != "" {
      res := res + ("- " + e.degree);
      ghost var added := "- " + e.degree;
      if e.major != "" { res := res + (" in " + e.major); }
      ConcatAssoc(output, added, OptText(" in ", e.major));
      added := added + OptText(" in ", e.major);
      assert res == output + added;
      if e.minor != "" { res := res + (" with a minor in " + e.minor); }
      ConcatAssoc(output, added, OptText(" with a minor in ", e.minor));
      added := added + OptText(" with a minor in ", e.minor);
      assert res == output + added;
      if e.additionalMajors != [] { res := res + (" and " + Join(", ", e.additionalMajors)); }
      ConcatAssoc(output, added, OptJoined(" and ", e.additionalMajors));
      added := added + OptJoined(" and ", e.additionalMajors);
      assert res == output + added;
      if e.additionalMinors != [] {
        res := res + (" with additional minors in " + Join(", ", e.additionalMinors));
      }
      ConcatAssoc(output, added, OptJoined(" with additional minors in ", e.additionalMinors));
      added := added + OptJoined(" with additional minors in ", e.additionalMinors);
      assert res == output + added;
      res := res + "\n";
      ConcatAssoc(output, added, "\n");
    }
  }

  method AppendEducationEntry(output: string, e: Education) returns (res: string)
    ensures res == output + EducationEntry(e)
  {
    res := output + ("**" + e.institution + "**\n");
    ghost var added := "**" + e.institution + "**\n";
    res := AppendOptLine(res, "- Location: ", e.location);
    ConcatAssoc(output, added, OptLine("- Location: ", e.location));
    added := added + OptLine("- Location: ", e.location);
    res := AppendDegreeLine(res, e);
    ConcatAssoc(output, added, DegreeLine(e));
    added := added + DegreeLine(e);
    if e.graduationDate != "" {
      var gradDate := e.graduationDate;
      if Lower(gradDate) != "present" && '-' !in gradDate {
        res := res + ("- Expected Graduation: " + gradDate + "\n");
      }
    }
    ConcatAssoc(output, added, GraduationLine(e.graduationDate));
    added := added + GraduationLine(e.graduationDate);
    assert res == output + added;
    ghost var start := res;
    res := AppendOptLine(res, "- GPA: ", e.gpa);
    ghost var tail := OptLine("- GPA: ", e.gpa);
    res := AppendOptLine(res, "- Test Scores: ", e.testScores);
    ConcatAssoc(start, tail, OptLine("- Test Scores: ", e.testScores));
    tail := tail + OptLine("- Test Scores: ", e.testScores);
    res := AppendBulletList(res, "- Relevant Coursework:\n", e.relevantCoursework);
    ConcatAssoc(start, tail, BulletList("- Relevant Coursework:\n", e.relevantCoursework));
    tail := tail + BulletList("- Relevant Coursework:\n", e.relevantCoursework);
    res := AppendBulletList(res, "- Honors & Awards:\n", e.honors);
    ConcatAssoc(start, tail, BulletList("- Honors & Awards:\n", e.honors));
    tail := tail + BulletList("- Honors & Awards:\n", e.honors);
    res := res + "\n";
    ConcatAssoc(start, tail, "\n");
    ConcatAssoc(output, added, tail + "\n");
  }

  method AppendExperienceEntry(output: string, x: Experience) returns (res: string)
    ensures res == output + ExperienceEntry(x)
  {
    res := output + ("**" + x.company + "**\n");
    ghost var added := "**" + x.company + "**\n";
    res := AppendOptLine(res, "- Location: ", x.location);
    ConcatAssoc(output, added, OptLine("- Location: ", x.location));
    added := added + OptLine("- Location: ", x.location);
    res := AppendOptLine(res, "- Position: ", x.position);
    ConcatAssoc(output, added, OptLine("- Position: ", x.position));
    added := added + OptLine("- Position: ", x.position);
    res := AppendOptLine(res, "- Dates: ", x.dates);
    ConcatAssoc(output, added, OptLine("- Dates: ", x.dates));
    added := added + OptLine("- Dates: ", x.dates);
    res := AppendBulletList(res, "- Key Responsibilities:\n", x.responsibilities);
    ConcatAssoc(output, added, BulletList("- Key Responsibilities:\n", x.responsibilities));
    added := added + BulletList("- Key Responsibilities:\n", x.responsibilities);
    res := res + "\n";
    ConcatAssoc(output, added, "\n");
  }

  method AppendProjectEntry(output: string, p: Project) returns (res: string)
    ensures res == output + ProjectEntry(p)
  {
    res := output + ("**" + p.name + "**\n");
    ghost var added := "**" + p.name + "**\n";
    res := AppendOptLine(res, "- ", p.description);
    ConcatAssoc(output, added, OptLine("- ", p.description));
    added := added + OptLine("- ", p.description);
    res := AppendBulletList(res, "- Technologies:\n", p.technologies);
    ConcatAssoc(output, added, BulletList("- Technologies:\n", p.technologies));
    added := added + BulletList("- Technologies:\n", p.technologies);
    res := AppendBulletList(res, "- Key Achievements:\n", p.achievements);
    ConcatAssoc(output, added, BulletList("- Key Achievements:\n", p.achievements));
    added := added + BulletList("- Key Achievements:\n", p.achievements);
    res := res + "\n";
    ConcatAssoc(output, added, "\n");
  }

  method AppendExtracurricularEntry(output: string, x: Extracurricular) returns (res: string)
    ensures res == output + ExtracurricularEntry(x)
  {
    res := output + ("**" + x.organization + "**\n");
    ghost var added := "**" + x.organization + "**\n";
    res := AppendOptLine(res, "- Role: ", x.role);
    ConcatAssoc(output, added, OptLine("- Role: ", x.role));
    added := added + OptLine("- Role: ", x.role);
    res := AppendOptLine(res, "- Dates: ", x.dates);
    ConcatAssoc(output, added, OptLine("- Dates: ", x.dates));
    added := added + OptLine("- Dates: ", x.dates);
    res := AppendBulletList(res, "- Key Achievements:\n", x.achievements);
    ConcatAssoc(output, added, BulletList("- Key Achievements:\n", x.achievements));
    added := added + BulletList("- Key Achievements:\n", x.achievements);
    res := res + "\n";
    ConcatAssoc(output, added, "\n");
  }

  method AppendSportEntry(output: string, s: Sport) returns (res: string)
    ensures res == output + SportEntry(s)
  {
    res := output + ("**" + s.activity + "**\n");
    ghost var added := "**" + s.activity + "**\n";
    res := AppendOptLine(res, "- Level: ", s.level);
    ConcatAssoc(output, added, OptLine("- Level: ", s.level));
    added := added + OptLine("- Level: ", s.level);
    res := AppendOptLine(res, "- Dates: ", s.dates);
    ConcatAssoc(output, added, OptLine("- Dates: ", s.dates));
    added := added + OptLine("- Dates: ", s.dates);
    res := AppendBulletList(res, "- Achievements:\n", s.achievements);
    ConcatAssoc(output, added, BulletList("- Achievements:\n", s.achievements));
    added := added + BulletList("- Achievements:\n", s.achievements);
    res := res + "\n";
    ConcatAssoc(output, added, "\n");
  }

  /** A named group: its category in bold, one `- item` line per item, a blank line. */
  method AppendSkillGroup(output: string, g: SkillGroup) returns (res: string)
    ensures res == output + SkillGroupEntry(g)
  {
    res := output;
    if g.category != "" {
      var head := "**" + g.category + "**\n";
      res := res + head;
      for k := 0 to |g.items|
        invariant res == output + head + ConcatMap(g.items[..k], SkillItem)
      {
        ConcatMapSnoc(g.items, k, SkillItem);
        ConcatAssoc(output + head, ConcatMap(g.items[..k], SkillItem), SkillItem(g.items[k]));
        res := res + ("- " + g.items[k] + "\n");
      }
      assert g.items[..|g.items|] == g.items;
      res := res + "\n";
      ConcatAssoc(output + head, ConcatMap(g.items, SkillItem), "\n");
      ConcatAssoc(output, head + ConcatMap(g.items, SkillItem), "\n");
      ConcatAssoc(output, head, ConcatMap(g.items, SkillItem));
    }
  }

  method AppendEducation(output: string, r: Resume) returns (res: string)
    ensures res == output + SectionText(r, EducationHistory)
  {
    var xs := r.education;
    res := output;
    if xs != [] {
      var header := "#### Education\n";
      res := res + header;
      for i := 0 to |xs|
        invariant res == output + header + ConcatMap(xs[..i], EducationEntry)
      {
        ConcatMapSnoc(xs, i, EducationEntry);
        ConcatAssoc(output + header, ConcatMap(xs[..i], EducationEntry), EducationEntry(xs[i]));
        res := AppendEducationEntry(res, xs[i]);
      }
      assert xs[..|xs|] == xs;
      ConcatAssoc(output, header, ConcatMap(xs, EducationEntry));
    }
    assert res == output + ListSection(Header(EducationHistory), xs, EducationEntry);
  }

  method AppendExperience(output: string, r: Resume) returns (res: string)
    ensures res == output + SectionText(r, ProfessionalExperience)
  {
    var xs := r.experience;
    res := output;
    if xs != [] {
      var header := "#### Professional Experience\n";
      res := res + header;
      for i := 0 to |xs|
        invariant res == output + header + ConcatMap(xs[..i], ExperienceEntry)
      {
        ConcatMapSnoc(xs, i, ExperienceEntry);
        ConcatAssoc(output + header, ConcatMap(xs[..i], ExperienceEntry), ExperienceEntry(xs[i]));
        res := AppendExperienceEntry(res, xs[i]);
      }
      assert xs[..|xs|] == xs;
      ConcatAssoc(output, header, ConcatMap(xs, ExperienceEntry));
    }
    assert res == output + ListSection(Header(ProfessionalExperience), xs, ExperienceEntry);
  }

  method AppendProjects(output: string, r: Resume) returns (res: string)
    ensures res == output + SectionText(r, ProjectList)
  {
    var xs := r.projects;
    res := output;
    if xs != [] {
      var header := "#### Projects\n";
      res := res + header;
      for i := 0 to |xs|
        invariant res == output + header + ConcatMap(xs[..i], ProjectEntry)
      {
        ConcatMapSnoc(xs, i, ProjectEntry);
        ConcatAssoc(output + header, ConcatMap(xs[..i], ProjectEntry), ProjectEntry(xs[i]));
        res := AppendProjectEntry(res, xs[i]);
      }
      assert xs[..|xs|] == xs;
      ConcatAssoc(output, header, ConcatMap(xs, ProjectEntry));
    }
    assert res == output + ListSection(Header(ProjectList), xs, ProjectEntry);
  }

  method AppendExtracurriculars(output: string, r: Resume) returns (res: string)
    ensures res == output + SectionText(r, ExtracurricularActivities)
  {
    var xs := r.extracurriculars;
    res := output;
    if xs != [] {
      var header := "#### Extracurricular Activities\n";
      res := res + header;
      for i := 0 to |xs|
        invariant res == output + header + ConcatMap(xs[..i], ExtracurricularEntry)
      {
        ConcatMapSnoc(xs, i, ExtracurricularEntry);
        ConcatAssoc(output + header, ConcatMap(xs[..i], ExtracurricularEntry), ExtracurricularEntry(xs[i]));
        res := AppendExtracurricularEntry(res, xs[i]);
      }
      assert xs[..|xs|] == xs;
      ConcatAssoc(output, header, ConcatMap(xs, ExtracurricularEntry));
    }
    assert res == output + ListSection(Header(ExtracurricularActivities), xs, ExtracurricularEntry);
  }

  method AppendSports(output: string, r: Resume) returns (res: string)
    ensures res == output + SectionText(r, SportsAndAthletics)
  {
    var xs := r.sports;
    res := output;
    if xs != [] {
      var header := "#### Sports & Athletics\n";
      res := res + header;
      for i := 0 to |xs|
        invariant res == output + header + ConcatMap(xs[..i], SportEntry)
      {
        ConcatMapSnoc(xs, i, SportEntry);
        ConcatAssoc(output + header, ConcatMap(xs[..i], SportEntry), SportEntry(xs[i]));
        res := AppendSportEntry(res, xs[i]);
      }
      assert xs[..|xs|] == xs;
      ConcatAssoc(output, header, ConcatMap(xs, SportEntry));
    }
    assert res == output + ListSection(Header(SportsAndAthletics), xs, SportEntry);
  }

  method AppendSkills(output: string, r: Resume) returns (res: string)
    ensures res == output + SectionText(r, SkillsAndAdditional)
  {
    var xs := r.skills;
    res := output;
    if xs != [] {
      var header := "#### Skills & Additional Information\n";
      res := res + header;
      for i := 0 to |xs|
        invariant res == output + header + ConcatMap(xs[..i], SkillGroupEntry)
      {
        ConcatMapSnoc(xs, i, SkillGroupEntry);
        ConcatAssoc(output + header, ConcatMap(xs[..i], SkillGroupEntry), SkillGroupEntry(xs[i]));
        res := AppendSkillGroup(res, xs[i]);
      }
      assert xs[..|xs|] == xs;
      ConcatAssoc(output, header, ConcatMap(xs, SkillGroupEntry));
    }
    assert res == output + ListSection(Header(SkillsAndAdditional), xs, SkillGroupEntry);
  }

  /** One section of `format_resume`, chosen by its kind. */
  method AppendSection(output: string, r: Resume, k: Section) returns (res: string)
    ensures res == output + SectionText(r, k)
  {
    match k
    case ContactInformation => res := AppendContact(output, r);
    case ProfessionalSummary => res := AppendSummary(output, r);
    case EducationHistory => res := AppendEducation(output, r);
    case ProfessionalExperience => res := AppendExperience(output, r);
    case ProjectList => res := AppendProjects(output, r);
    case ExtracurricularActivities => res := AppendExtracurriculars(output, r);
    case SportsAndAthletics => res := AppendSports(output, r);
    case SkillsAndAdditional => res := AppendSkills(output, r);
  }

  /** `format_resume`: the title, then every section in `SectionOrder`. */
  method FormatResume(parsed: Option<Resume>) returns (output: string)
    ensures output == Render(parsed)
  {
    if parsed.None? {
      return ParseFailure;
    }
    var r := parsed.value;
    output := Title;
    assert output == Title + SectionsUpTo(r, 0);
    var next := AppendSection(output, r, SectionOrder[0]);
    EmitSection(r, 0, output, next);
    output := AppendSection(next, r, SectionOrder[1]);
    EmitSection(r, 1, next, output);
    next := AppendSection(output, r, SectionOrder[2]);
    EmitSection(r, 2, output, next);
    output := AppendSection(next, r, SectionOrder[3]);
    EmitSection(r, 3, next, output);
    next := AppendSection(output, r, SectionOrder[4]);
    EmitSection(r, 4, output, next);
    output := AppendSection(next, r, SectionOrder[5]);
    EmitSection(r, 5, next, output);
    next := AppendSection(output, r, SectionOrder[6]);
    EmitSection(r, 6, output, next);
    output := AppendSection(next, r, SectionOrder[7]);
    EmitSection(r, 7, next, output);
  }
}
