/** What generate_resume_pdf and create_simple_resume_pdf put in the story,
    section by section, as functions of the resume snapshot. The builder
    methods in PdfGenerator are proved to produce exactly these sequences.
    Lists that the source extends in a loop are defined by recursion on their
    last element, the order in which the loop appends. */
module ResumeStory {
  import opened Wrappers
  import opened Text
  import opened Calendar
  import opened Models
  import opened Layout

  /** add_section_header: a small spacer, the title, then a rule. */
  function SectionHeader(title: string): seq<Block>
  {
    [Spacer(1), Paragraph(title, SectionTitle), HorizontalRule(SectionRule)]
  }

  // ---------------------------------------------------------------- header

  /** a is b with some elements left out, the rest in their order. */
  predicate IsSubsequence<T(==)>(a: seq<T>, b: seq<T>)
    decreases |b|
  {
    a == [] || (b != [] && ((a[0] == b[0] && IsSubsequence(a[1..], b[1..])) || IsSubsequence(a, b[1..])))
  }

  /** The non-empty texts among xs, in their order. */
  function PresentTexts(xs: seq<string>): (r: seq<string>)
    ensures |r| <= |xs|
    ensures forall k :: 0 <= k < |r| ==> r[k] != "" && r[k] in xs
    ensures r == [] <==> forall k :: 0 <= k < |xs| ==> xs[k] == ""
  {
    if xs == [] then []
    else
      var rest := PresentTexts(xs[1..]);
      assert forall k :: 0 <= k < |rest| ==> rest[k] in xs by {
        forall k | 0 <= k < |rest| ensures rest[k] in xs {
          var i :| 0 <= i < |xs[1..]| && xs[1..][i] == rest[k];
          assert xs[i + 1] == rest[k];
        }
      }
      if xs[0] != "" then [xs[0]] + rest
      else
        assert (forall k :: 0 <= k < |xs[1..]| ==> xs[1..][k] == "") ==> forall k :: 0 <= k < |xs| ==> xs[k] == "" by {
          if forall k :: 0 <= k < |xs[1..]| ==> xs[1..][k] == "" {
            forall k | 0 <= k < |xs| ensures xs[k] == "" {
              if k > 0 { assert xs[k] == xs[1..][k - 1]; }
            }
          }
        }
        rest
  }

  /** "Label: url" for each link whose URL is set, in the given order; each
      link is given with its "Label: " prefix. */
  function LabelledLinks(links: seq<(string, Option<string>)>): (r: seq<string>)
    ensures |r| <= |links|
    ensures r == [] <==> forall k :: 0 <= k < |links| ==> !IsSet(links[k].1)
  {
    if links == [] then []
    else
      var rest := LabelledLinks(links[1..]);
      if IsSet(links[0].1) then [links[0].0 + links[0].1.value] + rest
      else
        assert (forall k :: 0 <= k < |links[1..]| ==> !IsSet(links[1..][k].1)) ==>
               forall k :: 0 <= k < |links| ==> !IsSet(links[k].1) by {
          if forall k :: 0 <= k < |links[1..]| ==> !IsSet(links[1..][k].1) {
            forall k | 0 <= k < |links| ensures !IsSet(links[k].1) {
              if k > 0 { assert links[k] == links[1..][k - 1]; }
            }
          }
        }
        rest
  }

  lemma PresentTextsCons(x: string, xs: seq<string>)
    ensures PresentTexts([x] + xs) == (if x != "" then [x] else []) + PresentTexts(xs)
  {
    assert ([x] + xs)[1..] == xs;
  }

  /** PresentTexts keeps the order of xs: its result is xs with some
      elements left out. */
  lemma {:induction false} PresentTextsInOrder(xs: seq<string>)
    ensures IsSubsequence(PresentTexts(xs), xs)
  {
    if xs != [] {
      var x, tail := xs[0], xs[1..];
      PresentTextsInOrder(tail);
      var rest := PresentTexts(tail);
      if x != "" {
        assert PresentTexts(xs) == [x] + rest;
        assert ([x] + rest)[1..] == rest;
      } else {
        assert PresentTexts(xs) == rest;
      }
    }
  }

  /** PresentTexts keeps every non-empty text of xs as often as it occurs
      there, and leaves out every empty one. */
  lemma {:induction false} PresentTextsKeepsEveryText(xs: seq<string>)
    ensures multiset(PresentTexts(xs)) == multiset(xs)["" := 0]
  {
    if xs != [] {
      var x, tail := xs[0], xs[1..];
      PresentTextsKeepsEveryText(tail);
      var rest := PresentTexts(tail);
      assert xs == [x] + tail;
      assert multiset(xs) == multiset{x} + multiset(tail);
      if x != "" {
        assert PresentTexts(xs) == [x] + rest;
        assert multiset([x] + rest) == multiset{x} + multiset(rest);
      } else {
        assert PresentTexts(xs) == rest;
      }
    }
  }

  lemma LabelledLinksCons(link: (string, Option<string>), links: seq<(string, Option<string>)>)
    ensures LabelledLinks([link] + links) ==
      (if IsSet(link.1) then [link.0 + link.1.value] else []) + LabelledLinks(links)
  {
    assert ([link] + links)[1..] == links;
  }

  /** The "Label: url" text of one link, or "" when its URL is not set. */
  function LinkText(link: (string, Option<string>)): string
  {
    if IsSet(link.1) then link.0 + link.1.value else ""
  }

  /** The text of every link, set or not, in the given order. */
  function LinkTexts(links: seq<(string, Option<string>)>): (r: seq<string>)
    ensures |r| == |links|
    ensures forall k :: 0 <= k < |links| ==> r[k] == LinkText(links[k])
  {
    seq(|links|, k requires 0 <= k < |links| => LinkText(links[k]))
  }

  /** LabelledLinks is PresentTexts over the link texts: every link whose URL
      is set gives its "Label: url" text, in the order of the links, and no
      other text appears. */
  lemma {:induction false} LabelledLinksArePresentTexts(links: seq<(string, Option<string>)>)
    ensures LabelledLinks(links) == PresentTexts(LinkTexts(links))
  {
    if links != [] {
      var link, tail := links[0], links[1..];
      LabelledLinksArePresentTexts(tail);
      assert LinkTexts(links) == [LinkText(link)] + LinkTexts(tail);
      PresentTextsCons(LinkText(link), LinkTexts(tail));
      assert links == [link] + tail;
      LabelledLinksCons(link, tail);
    }
  }

  /** contact_parts: email, phone and location, those that are non-empty. */
  function ContactParts(r: Resume): seq<string>
  {
    PresentTexts([r.email, r.phone, r.location])
  }

  /** ContactParts is what three guarded appends build. */
  lemma ContactPartsInOrder(r: Resume)
    ensures ContactParts(r) ==
      (if r.email != "" then [r.email] else []) + (if r.phone != "" then [r.phone] else [])
      + (if r.location != "" then [r.location] else [])
  {
    assert [r.email, r.phone, r.location] == [r.email] + ([r.phone] + ([r.location] + []));
    PresentTextsCons(r.email, [r.phone] + ([r.location] + []));
    PresentTextsCons(r.phone, [r.location] + []);
    PresentTextsCons(r.location, []);
    AppendAssoc((if r.email != "" then [r.email] else []), (if r.phone != "" then [r.phone] else []),
                (if r.location != "" then [r.location] else []));
  }

  /** social_links: LinkedIn, GitHub and Portfolio, those whose URL is set. */
  function SocialLinks(r: Resume): seq<string>
  {
    LabelledLinks([("LinkedIn: ", r.linkedinUrl), ("GitHub: ", r.githubUrl), ("Portfolio: ", r.portfolioUrl)])
  }

  /** SocialLinks is what three guarded appends build. */
  lemma SocialLinksInOrder(r: Resume)
    ensures SocialLinks(r) ==
      (if IsSet(r.linkedinUrl) then ["LinkedIn: " + r.linkedinUrl.value] else [])
      + (if IsSet(r.githubUrl) then ["GitHub: " + r.githubUrl.value] else [])
      + (if IsSet(r.portfolioUrl) then ["Portfolio: " + r.portfolioUrl.value] else [])
  {
    var li, gh, pf := ("LinkedIn: ", r.linkedinUrl), ("GitHub: ", r.githubUrl), ("Portfolio: ", r.portfolioUrl);
    assert [li, gh, pf] == [li] + ([gh] + ([pf] + []));
    LabelledLinksCons(li, [gh] + ([pf] + []));
    LabelledLinksCons(gh, [pf] + []);
    LabelledLinksCons(pf, []);
    AppendAssoc((if IsSet(r.linkedinUrl) then ["LinkedIn: " + r.linkedinUrl.value] else []),
                (if IsSet(r.githubUrl) then ["GitHub: " + r.githubUrl.value] else []),
                (if IsSet(r.portfolioUrl) then ["Portfolio: " + r.portfolioUrl.value] else []));
  }

  /** A one-paragraph line of the texts joined by sep, or nothing when there
      are no texts. */
  function JoinedLine(texts: seq<string>, sep: string, style: Style): seq<Block>
  {
    if texts != [] then [Paragraph(Join(sep, texts), style)] else []
  }

  /** Spacer, upper-cased name, the contact line and the links line when they
      have anything in them, and a larger spacer. */
  function HeaderBlocks(r: Resume): seq<Block>
  {
    [Spacer(1), Paragraph(Upper(r.name), NameTitle)]
    + JoinedLine(ContactParts(r), " • ", ContactInfo)
    + JoinedLine(SocialLinks(r), " | ", LinkStyle)
    + [Spacer(2)]
  }

  // --------------------------------------------------------------- summary

  /** The summary section, when the summary has a non-whitespace character. */
  function SummaryBlocks(r: Resume): seq<Block>
  {
    if r.summary != "" && Strip(r.summary) != "" then
      SectionHeader("PROFESSIONAL SUMMARY") + [Paragraph(CollapseWhitespace(r.summary), SummaryText)]
    else []
  }

  // ------------------------------------------------------------ experience

  /** Left side of a date range: '%b %Y' of the start, or nothing. */
  function StartText(start: Option<Date>): string
  {
    if start.Some? then MonthYear(start.value) else ""
  }

  /** Right side of a date range: "Present" for a current entry, else '%b %Y'
      of the end, or nothing. */
  function EndText(end: Option<Date>, current: bool): string
  {
    if current then "Present" else if end.Some? then MonthYear(end.value) else ""
  }

  /** The date range shown beside a company or an institution. */
  function DateRange(start: Option<Date>, end: Option<Date>, current: bool): string
  {
    StartText(start) + " - " + EndText(end, current)
  }

  /** Two rows: company and date range, then position and an empty cell. */
  function ExperienceTable(e: Experience): Block
  {
    Table([[Cell("<b>" + e.company + "</b>", Company), Cell(DateRange(e.startDate, e.endDate, e.current), DateStyle)],
           [Cell(e.position, Position), Cell("", DateStyle)]])
  }

  /** The bullet for one line of a description: none for a blank line. */
  function LineBullet(line: string): seq<Block>
  {
    if Strip(line) != "" then [Paragraph("• " + Strip(line), CustomBodyText)] else []
  }

  /** One bullet per non-blank line of the description. */
  function DescriptionBullets(description: string): seq<Block>
  {
    if description != "" then Concat(SplitOn(description, '\n'), LineBullet) else []
  }

  function ExperienceEntry(e: Experience): seq<Block>
  {
    [ExperienceTable(e)] + DescriptionBullets(e.description) + [Spacer(1)]
  }

  function ExperienceSection(es: seq<Experience>): seq<Block>
  {
    if es != [] then SectionHeader("PROFESSIONAL EXPERIENCE") + Concat(es, ExperienceEntry) else []
  }

  // ---------------------------------------------------------------- skills

  /** ordered_levels: the only buckets that are ever shown, in this order. */
  const DisplayOrder: seq<string> := ["Expert", "Advanced", "Intermediate", "Beginner"]

  /** The bucket a skill's level falls in: the title-cased level, or "Other"
      for an empty level. */
  function LevelKey(level: string): string
  {
    if level != "" then Title(level) else "Other"
  }

  /** The names in one bucket, in input order; skills without a name are dropped. */
  function NamesAt(skills: seq<Skill>, level: string): seq<string>
  {
    if skills == [] then []
    else
      var s := skills[|skills| - 1];
      NamesAt(skills[..|skills| - 1], level) + (if s.name != "" && LevelKey(s.level) == level then [s.name] else [])
  }

  /** skills_by_level.get(level, []) */
  function Bucket(byLevel: map<string, seq<string>>, level: string): seq<string>
  {
    if level in byLevel then byLevel[level] else []
  }

  lemma NamesAtStep(skills: seq<Skill>, i: nat, level: string)
    requires i < |skills|
    ensures NamesAt(skills[..i + 1], level) == NamesAt(skills[..i], level)
      + (if skills[i].name != "" && LevelKey(skills[i].level) == level then [skills[i].name] else [])
  {
    assert skills[..i + 1][..i] == skills[..i];
  }

  /** A bold "Level:" line, the names separated by ", ", and a spacer; nothing
      for an empty bucket. */
  function LevelGroup(level: string, names: seq<string>): seq<Block>
  {
    if names != [] then
      [Paragraph("<b><font color=\"black\">" + level + ":</font></b>", Position),
       Paragraph(Join(", ", names), CustomBodyText),
       Spacer(1)]
    else []
  }

  /** The groups for the given levels, in that order. */
  function SkillGroups(skills: seq<Skill>, levels: seq<string>): seq<Block>
  {
    if levels == [] then []
    else
      var level := levels[|levels| - 1];
      SkillGroups(skills, levels[..|levels| - 1]) + LevelGroup(level, NamesAt(skills, level))
  }

  lemma SkillGroupsStep(skills: seq<Skill>, levels: seq<string>, k: nat)
    requires k < |levels|
    ensures SkillGroups(skills, levels[..k + 1]) == SkillGroups(skills, levels[..k]) + LevelGroup(levels[k], NamesAt(skills, levels[k]))
  {
    assert levels[..k + 1][..k] == levels[..k];
  }

  /** The title is shown whenever the resume has a skill row at all, even if
      no bucket ends up shown. */
  function SkillsSection(skills: seq<Skill>): seq<Block>
  {
    if skills != [] then SectionHeader("TECHNICAL SKILLS") + SkillGroups(skills, DisplayOrder) else []
  }

  // -------------------------------------------------------------- projects

  function ProjectLinks(p: ResumeProject): seq<string>
  {
    LabelledLinks([("Live Demo: ", p.projectUrl), ("Source Code: ", p.githubUrl)])
  }

  /** ProjectLinks is what two guarded appends build. */
  lemma ProjectLinksInOrder(p: ResumeProject)
    ensures ProjectLinks(p) ==
      (if IsSet(p.projectUrl) then ["Live Demo: " + p.projectUrl.value] else [])
      + (if IsSet(p.githubUrl) then ["Source Code: " + p.githubUrl.value] else [])
  {
    var live, source := ("Live Demo: ", p.projectUrl), ("Source Code: ", p.githubUrl);
    assert [live, source] == [live] + ([source] + []);
    LabelledLinksCons(live, [source] + []);
    LabelledLinksCons(source, []);
  }

  /** Bold name, links line, description, technologies line, spacer; the
      middle three only when they have content. */
  function ProjectEntry(p: ResumeProject): seq<Block>
  {
    [Paragraph("<b>" + p.name + "</b>", Company)]
    + JoinedLine(ProjectLinks(p), " | ", LinkStyle)
    + (if p.description != "" then [Paragraph(p.description, CustomBodyText)] else [])
    + (if p.technologies != [] then [Paragraph("<b>Technologies:</b> " + Join(", ", p.technologies), CustomBodyText)] else [])
    + [Spacer(1)]
  }

  function ProjectsSection(ps: seq<ResumeProject>): seq<Block>
  {
    if ps != [] then SectionHeader("PROJECTS") + Concat(ps, ProjectEntry) else []
  }

  // ------------------------------------------------------------- education

  /** Institution and date range, degree and an empty cell, and a
      "Field: ..." row when the field of study is not empty. */
  function EducationTable(e: Education): Block
  {
    Table([[Cell("<b>" + e.institution + "</b>", Company), Cell(DateRange(e.startDate, e.endDate, e.current), DateStyle)],
           [Cell(e.degree, Position), Cell("", DateStyle)]]
          + (if e.fieldOfStudy != "" then [[Cell("Field: " + e.fieldOfStudy, CustomBodyText), Cell("", DateStyle)]] else []))
  }

  function EducationEntry(e: Education): seq<Block>
  {
    [EducationTable(e)]
    + (if e.description != "" then [Paragraph(e.description, CustomBodyText)] else [])
    + [Spacer(1)]
  }

  function EducationSection(es: seq<Education>): seq<Block>
  {
    if es != [] then SectionHeader("EDUCATION") + Concat(es, EducationEntry) else []
  }

  // ---------------------------------------------------------------- footer

  /** A rule, then "Generated on <now>". */
  function FooterBlocks(now: DateTime): seq<Block>
  {
    [HorizontalRule(FooterRule), Paragraph("Generated on " + FormatTimestamp(now), ContactInfo)]
  }

  // ----------------------------------------------------------------- story

  /** The whole story, sections in their fixed order. */
  function Story(r: Resume, now: DateTime): seq<Block>
  {
    HeaderBlocks(r) + SummaryBlocks(r) + ExperienceSection(r.experiences) + SkillsSection(r.skills)
    + ProjectsSection(r.projects) + EducationSection(r.educations) + FooterBlocks(now)
  }

  // ------------------------------------------------- the simple resume story

  /** The dictionary create_simple_resume_pdf reads; None is a missing key. */
  datatype SimpleResumeData = SimpleResumeData(
    name: Option<string>,
    email: Option<string>,
    phone: Option<string>,
    summary: Option<string>)

  function TextOrEmpty(v: Option<string>): string
  {
    if v.Some? then v.value else ""
  }

  /** Name, the email/phone line, and a "SUMMARY" section with the summary as
      given (not whitespace-normalised). */
  function SimpleStory(d: SimpleResumeData): seq<Block>
  {
    [Paragraph(Upper(TextOrEmpty(d.name)), NameTitle)]
    + JoinedLine(PresentTexts([TextOrEmpty(d.email), TextOrEmpty(d.phone)]), " • ", ContactInfo)
    + (if IsSet(d.summary) then SectionHeader("SUMMARY") + [Paragraph(d.summary.value, SummaryText)] else [])
  }
}
