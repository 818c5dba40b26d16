/** What the resume story promises: the sections appear in a fixed order and
    only when they have content, the name opens the story and the footer closes
    it, date ranges split cleanly into their two sides, description lines turn
    into stripped bullets, and every shown skill is listed exactly once. */
module StoryProperties {
  import opened Wrappers
  import opened Text
  import opened Calendar
  import opened Models
  import opened Layout
  import opened ResumeStory

  // -------------------------------------------------------- section titles

  /** The title a block contributes: its text when it is a section title. */
  function TitleOf(b: Block): seq<string>
  {
    if b.Paragraph? && b.style == SectionTitle then [b.text] else []
  }

  /** The section titles of a story, in order. */
  function SectionTitles(blocks: seq<Block>): seq<string>
  {
    if blocks == [] then [] else TitleOf(blocks[0]) + SectionTitles(blocks[1..])
  }

  lemma {:induction false} SectionTitlesAppend(a: seq<Block>, b: seq<Block>)
    ensures SectionTitles(a + b) == SectionTitles(a) + SectionTitles(b)
  {
    if a == [] {
      assert a + b == b;
    } else {
      assert (a + b)[1..] == a[1..] + b;
      SectionTitlesAppend(a[1..], b);
      AppendAssoc(TitleOf(a[0]), SectionTitles(a[1..]), SectionTitles(b));
    }
  }

  /** No block is a section title. */
  predicate Untitled(blocks: seq<Block>)
  {
    forall k :: 0 <= k < |blocks| ==> TitleOf(blocks[k]) == []
  }

  lemma {:induction false} UntitledHasNoTitles(blocks: seq<Block>)
    requires Untitled(blocks)
    ensures SectionTitles(blocks) == []
  {
    if blocks != [] {
      assert TitleOf(blocks[0]) == [];
      UntitledHasNoTitles(blocks[1..]);
    }
  }

  lemma SectionWithTitle(title: string, body: seq<Block>)
    requires SectionTitles(body) == []
    ensures SectionTitles(SectionHeader(title) + body) == [title]
  {
    var rule := [HorizontalRule(SectionRule)];
    UntitledHasNoTitles(rule);
    SectionTitlesAppend([Spacer(1), Paragraph(title, SectionTitle)], rule);
    assert [Spacer(1), Paragraph(title, SectionTitle)][1..] == [Paragraph(title, SectionTitle)];
    assert [Paragraph(title, SectionTitle)][1..] == [];
    assert SectionTitles([Spacer(1), Paragraph(title, SectionTitle)]) == [title];
    assert SectionHeader(title) == [Spacer(1), Paragraph(title, SectionTitle)] + rule;
    SectionTitlesAppend(SectionHeader(title), body);
  }

  lemma HeaderHasNoTitles(r: Resume)
    ensures SectionTitles(HeaderBlocks(r)) == []
  {
    assert Untitled(HeaderBlocks(r));
    UntitledHasNoTitles(HeaderBlocks(r));
  }

  lemma {:induction false} UntitledConcat<T>(xs: seq<T>, f: T -> seq<Block>)
    requires forall k :: 0 <= k < |xs| ==> Untitled(f(xs[k]))
    ensures Untitled(Concat(xs, f))
  {
    if xs != [] {
      var init := xs[..|xs| - 1];
      assert forall k :: 0 <= k < |init| ==> init[k] == xs[k];
      UntitledConcat(init, f);
    }
  }

  lemma DescriptionIsUntitled(description: string)
    ensures Untitled(DescriptionBullets(description))
  {
    if description != "" {
      UntitledConcat(SplitOn(description, '\n'), LineBullet);
    }
  }

  lemma ExperienceEntryIsUntitled(e: Experience)
    ensures Untitled(ExperienceEntry(e))
  {
    DescriptionIsUntitled(e.description);
  }

  lemma {:induction false} SkillGroupsAreUntitled(skills: seq<Skill>, levels: seq<string>)
    ensures Untitled(SkillGroups(skills, levels))
  {
    if levels != [] {
      SkillGroupsAreUntitled(skills, levels[..|levels| - 1]);
    }
  }

  /** The section titles a resume calls for: one per section with content,
      in the fixed order summary, experience, skills, projects, education. */
  function ExpectedTitles(r: Resume): seq<string>
  {
    (if !IsBlank(r.summary) then ["PROFESSIONAL SUMMARY"] else [])
    + (if r.experiences != [] then ["PROFESSIONAL EXPERIENCE"] else [])
    + (if r.skills != [] then ["TECHNICAL SKILLS"] else [])
    + (if r.projects != [] then ["PROJECTS"] else [])
    + (if r.educations != [] then ["EDUCATION"] else [])
  }

  lemma SummaryTitles(r: Resume)
    ensures SectionTitles(SummaryBlocks(r)) == (if !IsBlank(r.summary) then ["PROFESSIONAL SUMMARY"] else [])
  {
    if !IsBlank(r.summary) {
      var text := [Paragraph(CollapseWhitespace(r.summary), SummaryText)];
      UntitledHasNoTitles(text);
      SectionWithTitle("PROFESSIONAL SUMMARY", text);
    }
  }

  lemma ExperienceTitles(es: seq<Experience>)
    ensures SectionTitles(ExperienceSection(es)) == (if es != [] then ["PROFESSIONAL EXPERIENCE"] else [])
  {
    if es != [] {
      forall k | 0 <= k < |es| ensures Untitled(ExperienceEntry(es[k])) {
        ExperienceEntryIsUntitled(es[k]);
      }
      UntitledConcat(es, ExperienceEntry);
      UntitledHasNoTitles(Concat(es, ExperienceEntry));
      SectionWithTitle("PROFESSIONAL EXPERIENCE", Concat(es, ExperienceEntry));
    }
  }

  lemma SkillsTitles(skills: seq<Skill>)
    ensures SectionTitles(SkillsSection(skills)) == (if skills != [] then ["TECHNICAL SKILLS"] else [])
  {
    if skills != [] {
      SkillGroupsAreUntitled(skills, DisplayOrder);
      UntitledHasNoTitles(SkillGroups(skills, DisplayOrder));
      SectionWithTitle("TECHNICAL SKILLS", SkillGroups(skills, DisplayOrder));
    }
  }

  lemma ProjectsTitles(ps: seq<ResumeProject>)
    ensures SectionTitles(ProjectsSection(ps)) == (if ps != [] then ["PROJECTS"] else [])
  {
    if ps != [] {
      assert forall k :: 0 <= k < |ps| ==> Untitled(ProjectEntry(ps[k]));
      UntitledConcat(ps, ProjectEntry);
      UntitledHasNoTitles(Concat(ps, ProjectEntry));
      SectionWithTitle("PROJECTS", Concat(ps, ProjectEntry));
    }
  }

  lemma EducationTitles(es: seq<Education>)
    ensures SectionTitles(EducationSection(es)) == (if es != [] then ["EDUCATION"] else [])
  {
    if es != [] {
      assert forall k :: 0 <= k < |es| ==> Untitled(EducationEntry(es[k]));
      UntitledConcat(es, EducationEntry);
      UntitledHasNoTitles(Concat(es, EducationEntry));
      SectionWithTitle("EDUCATION", Concat(es, EducationEntry));
    }
  }

  /** Titles of a story assembled from parts, when the first and last part
      carry none. */
  lemma TitlesOfParts(h: seq<Block>, s: seq<Block>, e: seq<Block>, k: seq<Block>,
                      p: seq<Block>, d: seq<Block>, f: seq<Block>,
                      ts: seq<string>, te: seq<string>, tk: seq<string>, tp: seq<string>, td: seq<string>)
    requires SectionTitles(h) == [] && SectionTitles(f) == []
    requires SectionTitles(s) == ts && SectionTitles(e) == te && SectionTitles(k) == tk
    requires SectionTitles(p) == tp && SectionTitles(d) == td
    ensures SectionTitles(h + s + e + k + p + d + f) == ts + te + tk + tp + td
  {
    SectionTitlesAppend(h, s);
    assert SectionTitles(h + s) == ts;
    SectionTitlesAppend(h + s, e);
    SectionTitlesAppend(h + s + e, k);
    SectionTitlesAppend(h + s + e + k, p);
    SectionTitlesAppend(h + s + e + k + p, d);
    SectionTitlesAppend(h + s + e + k + p + d, f);
    assert ts + te + tk + tp + td + [] == ts + te + tk + tp + td;
  }

  lemma FooterHasNoTitles(now: DateTime)
    ensures SectionTitles(FooterBlocks(now)) == []
  {
    UntitledHasNoTitles(FooterBlocks(now));
  }

  /** The story shows exactly the sections that have content, each once, in
      the fixed order; nothing else in it is a section title. */
  lemma StorySectionTitles(r: Resume, now: DateTime)
    ensures SectionTitles(Story(r, now)) == ExpectedTitles(r)
  {
    HeaderHasNoTitles(r);
    FooterHasNoTitles(now);
    SummaryTitles(r);
    ExperienceTitles(r.experiences);
    SkillsTitles(r.skills);
    ProjectsTitles(r.projects);
    EducationTitles(r.educations);
    TitlesOfParts(HeaderBlocks(r), SummaryBlocks(r), ExperienceSection(r.experiences),
      SkillsSection(r.skills), ProjectsSection(r.projects), EducationSection(r.educations), FooterBlocks(now),
      if !IsBlank(r.summary) then ["PROFESSIONAL SUMMARY"] else [],
      if r.experiences != [] then ["PROFESSIONAL EXPERIENCE"] else [],
      if r.skills != [] then ["TECHNICAL SKILLS"] else [],
      if r.projects != [] then ["PROJECTS"] else [],
      if r.educations != [] then ["EDUCATION"] else []);
  }

  // ------------------------------------------------------- start and end

  /** Where a story assembled from parts starts and ends, and that changing
      its last part changes nothing before it. */
  lemma FrameOfParts(h: seq<Block>, s: seq<Block>, e: seq<Block>, k: seq<Block>,
                     p: seq<Block>, d: seq<Block>, f: seq<Block>, g: seq<Block>)
    requires |h| >= 2 && |f| == 2 && |g| == 2
    ensures var x, y := h + s + e + k + p + d + f, h + s + e + k + p + d + g;
      |x| >= 4 && x[..2] == h[..2] && x[|x| - 2..] == f && x[..|x| - 2] == y[..|y| - 2]
  {
    var body := h + s + e + k + p + d;
    assert body[..2] == h[..2];
    var x := body + f;
    assert x[..2] == body[..2];
    assert x[..|x| - 2] == body;
    assert (body + g)[..|body + g| - 2] == body;
  }

  lemma HeaderOpensWithName(r: Resume)
    ensures |HeaderBlocks(r)| >= 2 && HeaderBlocks(r)[..2] == [Spacer(1), Paragraph(Upper(r.name), NameTitle)]
  {
  }

  /** The story opens with the upper-cased name, closes with the footer, and
      the clock changes nothing but the footer: two renders of one resume
      agree on everything before it. */
  lemma StoryFrame(r: Resume, now: DateTime, later: DateTime)
    ensures |Story(r, now)| >= 4
    ensures Story(r, now)[..2] == [Spacer(1), Paragraph(Upper(r.name), NameTitle)]
    ensures Story(r, now)[|Story(r, now)| - 2..] == FooterBlocks(now)
    ensures Story(r, now)[..|Story(r, now)| - 2] == Story(r, later)[..|Story(r, later)| - 2]
  {
    HeaderOpensWithName(r);
    FrameOfParts(HeaderBlocks(r), SummaryBlocks(r), ExperienceSection(r.experiences),
      SkillsSection(r.skills), ProjectsSection(r.projects), EducationSection(r.educations),
      FooterBlocks(now), FooterBlocks(later));
  }

  /** A resume with nothing but a name: the name, the spacers around it and
      the footer, with no section at all. */
  lemma SparseResumeStory(r: Resume, now: DateTime)
    requires r.email == "" && r.phone == "" && r.location == ""
    requires !IsSet(r.linkedinUrl) && !IsSet(r.githubUrl) && !IsSet(r.portfolioUrl)
    requires IsBlank(r.summary)
    requires r.experiences == [] && r.skills == [] && r.projects == [] && r.educations == []
    ensures Story(r, now) == [Spacer(1), Paragraph(Upper(r.name), NameTitle), Spacer(2)] + FooterBlocks(now)
  {
    var contact := [r.email, r.phone, r.location];
    assert forall k :: 0 <= k < |contact| ==> contact[k] == "";
    var links := [("LinkedIn: ", r.linkedinUrl), ("GitHub: ", r.githubUrl), ("Portfolio: ", r.portfolioUrl)];
    assert forall k :: 0 <= k < |links| ==> !IsSet(links[k].1);
    assert HeaderBlocks(r) == [Spacer(1), Paragraph(Upper(r.name), NameTitle), Spacer(2)];
    OnlyEnds(HeaderBlocks(r), SummaryBlocks(r), ExperienceSection(r.experiences),
      SkillsSection(r.skills), ProjectsSection(r.projects), EducationSection(r.educations), FooterBlocks(now));
  }

  lemma OnlyEnds(h: seq<Block>, s: seq<Block>, e: seq<Block>, k: seq<Block>,
                 p: seq<Block>, d: seq<Block>, f: seq<Block>)
    requires s == [] && e == [] && k == [] && p == [] && d == []
    ensures h + s + e + k + p + d + f == h + f
  {
    assert h + s + e + k + p + d == h;
  }

  // ----------------------------------------------------------- date ranges

  /** A string on either side of " - " that holds no '-' itself splits back
      into its two sides. */
  lemma SplitAroundDash(a: string, b: string)
    requires '-' !in a && '-' !in b
    ensures SplitOn(a + " - " + b, '-') == [a + " ", " " + b]
  {
    assert a + " - " + b == (a + " ") + ['-'] + (" " + b);
    SplitOnAfterPiece(a + " ", '-', " " + b);
    SplitOnWithout(" " + b, '-');
  }

  /** A date range splits on '-' into exactly its two sides; a current entry
      shows "Present" whatever its end date, an open one that is not current
      shows nothing on the right, and a missing start shows nothing on the left. */
  lemma DateRangeSides(start: Option<Date>, end: Option<Date>, current: bool)
    ensures SplitOn(DateRange(start, end, current), '-') == [StartText(start) + " ", " " + EndText(end, current)]
    ensures current ==> EndText(end, current) == "Present"
    ensures !current && end.None? ==> EndText(end, current) == ""
    ensures start.None? ==> StartText(start) == ""
  {
    assert '-' !in StartText(start);
    assert '-' !in EndText(end, current);
    SplitAroundDash(StartText(start), EndText(end, current));
  }

  /** The left side of a date range reads back as the start's month and year. */
  lemma DateRangeStartReadsBack(start: Date, end: Option<Date>, current: bool)
    ensures var left := SplitOn(DateRange(Some(start), end, current), '-')[0];
      |left| >= 1 && ParseMonthYear(left[..|left| - 1]) == Some((start.month, start.year))
  {
    DateRangeSides(Some(start), end, current);
    var left := MonthYear(start) + " ";
    assert left[..|left| - 1] == MonthYear(start);
    MonthYearRoundTrip(start);
  }

  // ---------------------------------------------------------------- bullets

  /** The non-blank lines, stripped: a reference for what the bullets show. */
  function StrippedLines(lines: seq<string>): seq<string>
  {
    if lines == [] then []
    else
      var last := Strip(lines[|lines| - 1]);
      StrippedLines(lines[..|lines| - 1]) + (if last != "" then [last] else [])
  }

  /** A bullet paragraph per text. */
  function Bullets(texts: seq<string>): seq<Block>
  {
    if texts == [] then [] else Bullets(texts[..|texts| - 1]) + [Paragraph("• " + texts[|texts| - 1], CustomBodyText)]
  }

  lemma {:induction false} BulletsAppend(texts: seq<string>, more: seq<string>)
    ensures Bullets(texts + more) == Bullets(texts) + Bullets(more)
    decreases |more|
  {
    if more != [] {
      var init := more[..|more| - 1];
      assert (texts + more)[..|texts + more| - 1] == texts + init;
      BulletsAppend(texts, init);
      assert more == init + [more[|more| - 1]];
      assert Bullets(more) == Bullets(init) + [Paragraph("• " + more[|more| - 1], CustomBodyText)];
    } else {
      assert texts + more == texts;
    }
  }

  lemma {:induction false} LineBulletsAreBullets(lines: seq<string>)
    ensures Concat(lines, LineBullet) == Bullets(StrippedLines(lines))
    ensures forall k :: 0 <= k < |StrippedLines(lines)| ==>
      StrippedLines(lines)[k] != "" && IsStripped(StrippedLines(lines)[k])
    ensures |StrippedLines(lines)| <= |lines|
  {
    if lines != [] {
      var init, last := lines[..|lines| - 1], lines[|lines| - 1];
      LineBulletsAreBullets(init);
      var before, s := StrippedLines(init), Strip(last);
      var tail := if s != "" then [s] else [];
      assert StrippedLines(lines) == before + tail;
      assert Concat(lines, LineBullet) == Concat(init, LineBullet) + LineBullet(last);
      BulletsAppend(before, tail);
      if s != "" {
        assert Bullets(tail) == [Paragraph("• " + s, CustomBodyText)] by {
          assert tail[..0] == [];
        }
      }
      var after := before + tail;
      forall k | 0 <= k < |after| ensures after[k] != "" && IsStripped(after[k]) {
        if k < |before| {
          assert after[k] == before[k];
        }
      }
    }
  }

  /** A description becomes one bullet per line that is not blank, each
      bullet showing the line stripped: never empty, never holding a line
      break. */
  lemma DescriptionBulletsAreLines(description: string)
    ensures var texts := if description != "" then StrippedLines(SplitOn(description, '\n')) else [];
      && DescriptionBullets(description) == Bullets(texts)
      && |texts| <= |SplitOn(description, '\n')|
      && forall k :: 0 <= k < |texts| ==> texts[k] != "" && IsStripped(texts[k]) && '\n' !in texts[k]
  {
    var lines := SplitOn(description, '\n');
    LineBulletsAreBullets(lines);
    if description != "" {
      NoBreaksInStrippedLines(lines);
    }
  }

  lemma {:induction false} NoBreaksInStrippedLines(lines: seq<string>)
    requires forall k :: 0 <= k < |lines| ==> '\n' !in lines[k]
    ensures forall k :: 0 <= k < |StrippedLines(lines)| ==> '\n' !in StrippedLines(lines)[k]
  {
    if lines != [] {
      var init, last := lines[..|lines| - 1], lines[|lines| - 1];
      assert forall k :: 0 <= k < |init| ==> init[k] == lines[k];
      NoBreaksInStrippedLines(init);
      StripKeepsOut(last, '\n');
      var before := StrippedLines(init);
      var after := StrippedLines(lines);
      assert after == before + (if Strip(last) != "" then [Strip(last)] else []);
      forall k | 0 <= k < |after| ensures '\n' !in after[k] {
        if k < |before| {
          assert after[k] == before[k];
        }
      }
    }
  }

  /** A description on one line gives one bullet, the line stripped. */
  lemma OneLineDescription(description: string)
    requires '\n' !in description && !IsBlank(description)
    ensures DescriptionBullets(description) == [Paragraph("• " + Strip(description), CustomBodyText)]
  {
    SplitOnWithout(description, '\n');
    ConcatOne(description, LineBullet);
  }

  // ----------------------------------------------------------------- skills

  /** The names the skills section can show: named skills whose level falls
      in one of the four display buckets, in input order. */
  function ShownNames(skills: seq<Skill>): seq<string>
  {
    if skills == [] then []
    else
      var s := skills[|skills| - 1];
      ShownNames(skills[..|skills| - 1]) + (if s.name != "" && LevelKey(s.level) in DisplayOrder then [s.name] else [])
  }

  /** The four display buckets, concatenated in display order. */
  function DisplayedNames(skills: seq<Skill>): seq<string>
  {
    NamesAt(skills, "Expert") + NamesAt(skills, "Advanced") + NamesAt(skills, "Intermediate") + NamesAt(skills, "Beginner")
  }

  /** One skill lands in at most one of four distinct buckets: in the one its
      level names when it has a name, and in none otherwise. */
  lemma PickOnce(name: string, key: string, a: string, b: string, c: string, d: string)
    requires a != b && a != c && a != d && b != c && b != d && c != d
    ensures multiset((if name != "" && key == a then [name] else []) + (if name != "" && key == b then [name] else [])
        + (if name != "" && key == c then [name] else []) + (if name != "" && key == d then [name] else []))
        == multiset(if name != "" && key in [a, b, c, d] then [name] else [])
  {
    if name == "" {
    } else if key !in [a, b, c, d] {
      assert key != a && key != b && key != c && key != d;
    } else if key == a {
    } else if key == b {
    } else if key == c {
    } else {
    }
  }

  lemma BucketsGrow(e: seq<string>, a: seq<string>, i: seq<string>, b: seq<string>,
                    e0: seq<string>, a0: seq<string>, i0: seq<string>, b0: seq<string>,
                    pe: seq<string>, pa: seq<string>, pi: seq<string>, pb: seq<string>, extra: seq<string>)
    requires e == e0 + pe && a == a0 + pa && i == i0 + pi && b == b0 + pb
    requires multiset(pe + pa + pi + pb) == multiset(extra)
    ensures multiset(e + a + i + b) == multiset(e0 + a0 + i0 + b0) + multiset(extra)
  {
  }

  /** Every name that can be shown is in exactly one display bucket, as often
      as it occurs, and nothing else is in them: unnamed skills and skills
      whose level is not one of the four never appear. */
  lemma {:induction false} EachShownSkillOnce(skills: seq<Skill>)
    ensures multiset(DisplayedNames(skills)) == multiset(ShownNames(skills))
  {
    if skills != [] {
      var init, s := skills[..|skills| - 1], skills[|skills| - 1];
      EachShownSkillOnce(init);
      var key := LevelKey(s.level);
      PickOnce(s.name, key, "Expert", "Advanced", "Intermediate", "Beginner");
      var extra := if s.name != "" && key in DisplayOrder then [s.name] else [];
      assert ShownNames(skills) == ShownNames(init) + extra;
      BucketsGrow(NamesAt(skills, "Expert"), NamesAt(skills, "Advanced"),
        NamesAt(skills, "Intermediate"), NamesAt(skills, "Beginner"),
        NamesAt(init, "Expert"), NamesAt(init, "Advanced"), NamesAt(init, "Intermediate"), NamesAt(init, "Beginner"),
        if s.name != "" && key == "Expert" then [s.name] else [],
        if s.name != "" && key == "Advanced" then [s.name] else [],
        if s.name != "" && key == "Intermediate" then [s.name] else [],
        if s.name != "" && key == "Beginner" then [s.name] else [],
        extra);
    }
  }

  lemma SkillGroupsOfFour(skills: seq<Skill>, levels: seq<string>)
    requires |levels| == 4
    ensures SkillGroups(skills, levels) ==
      LevelGroup(levels[0], NamesAt(skills, levels[0])) + LevelGroup(levels[1], NamesAt(skills, levels[1]))
      + LevelGroup(levels[2], NamesAt(skills, levels[2])) + LevelGroup(levels[3], NamesAt(skills, levels[3]))
  {
    var g0 := LevelGroup(levels[0], NamesAt(skills, levels[0]));
    SkillGroupsStep(skills, levels, 0);
    assert levels[..0] == [];
    assert SkillGroups(skills, levels[..1]) == g0;
    SkillGroupsStep(skills, levels, 1);
    SkillGroupsStep(skills, levels, 2);
    SkillGroupsStep(skills, levels, 3);
    assert levels[..4] == levels;
  }

  /** The groups come out Expert, Advanced, Intermediate, Beginner. */
  lemma SkillGroupsInDisplayOrder(skills: seq<Skill>)
    ensures SkillGroups(skills, DisplayOrder) ==
      LevelGroup("Expert", NamesAt(skills, "Expert")) + LevelGroup("Advanced", NamesAt(skills, "Advanced"))
      + LevelGroup("Intermediate", NamesAt(skills, "Intermediate")) + LevelGroup("Beginner", NamesAt(skills, "Beginner"))
  {
    SkillGroupsOfFour(skills, DisplayOrder);
  }

  lemma {:induction false} UnnamedSkillGroups(skills: seq<Skill>, levels: seq<string>)
    requires forall k :: 0 <= k < |skills| ==> skills[k].name == ""
    ensures SkillGroups(skills, levels) == []
  {
    if levels != [] {
      UnnamedSkillGroups(skills, levels[..|levels| - 1]);
      UnnamedSkillsHaveNoNames(skills, levels[|levels| - 1]);
    }
  }

  /** Skills that all lack a name still get the section title, and nothing
      under it. */
  lemma UnnamedSkillsLeaveBareTitle(skills: seq<Skill>)
    requires skills != []
    requires forall k :: 0 <= k < |skills| ==> skills[k].name == ""
    ensures SkillsSection(skills) == SectionHeader("TECHNICAL SKILLS")
  {
    UnnamedSkillGroups(skills, DisplayOrder);
    assert SectionHeader("TECHNICAL SKILLS") + [] == SectionHeader("TECHNICAL SKILLS");
  }

  lemma {:induction false} UnnamedSkillsHaveNoNames(skills: seq<Skill>, level: string)
    requires forall k :: 0 <= k < |skills| ==> skills[k].name == ""
    ensures NamesAt(skills, level) == []
  {
    if skills != [] {
      var init := skills[..|skills| - 1];
      assert forall k :: 0 <= k < |init| ==> init[k] == skills[k];
      UnnamedSkillsHaveNoNames(init, level);
    }
  }

  /** A lower-case stored level shows under its capitalised form. */
  lemma LowerLevelLabel(level: string)
    requires level != ""
    requires forall k :: 0 <= k < |level| ==> 'a' <= level[k] <= 'z'
    ensures LevelKey(level) == [UpperChar(level[0])] + level[1..]
  {
    TitleOfLowerWord(level);
  }

  lemma StoredLevelShows(i: nat)
    requires i < |SkillLevels|
    ensures LevelKey(SkillLevels[i].0) == SkillLevels[i].1 && SkillLevels[i].1 in DisplayOrder
  {
    LowerLevelLabel(SkillLevels[i].0);
  }

  /** Each stored level shows under its own display label, the default among
      them; an empty level falls in "Other", which is never shown. */
  lemma StoredLevelsShowUnderTheirLabels()
    ensures forall i :: 0 <= i < |SkillLevels| ==>
      LevelKey(SkillLevels[i].0) == SkillLevels[i].1 && SkillLevels[i].1 in DisplayOrder
    ensures LevelKey(DefaultSkillLevel) == "Intermediate"
    ensures LevelKey("") !in DisplayOrder
  {
    forall i | 0 <= i < |SkillLevels|
      ensures LevelKey(SkillLevels[i].0) == SkillLevels[i].1 && SkillLevels[i].1 in DisplayOrder
    {
      StoredLevelShows(i);
    }
    StoredLevelShows(1);
  }

  // ------------------------------------------------ projects and education

  /** A project's technologies add one paragraph, just before the closing
      spacer, and only when the list is not empty; everything else in the
      entry is what it is without technologies. */
  lemma ProjectTechnologiesLine(p: ResumeProject)
    ensures var without := ProjectEntry(p.(technologies := []));
      |without| >= 2 && without[|without| - 1] == Spacer(1) &&
      ProjectEntry(p) == without[..|without| - 1]
        + (if p.technologies != [] then [Paragraph("<b>Technologies:</b> " + Join(", ", p.technologies), CustomBodyText)] else [])
        + [Spacer(1)]
  {
    var q := p.(technologies := []);
    var head := [Paragraph("<b>" + p.name + "</b>", Company)]
      + JoinedLine(ProjectLinks(p), " | ", LinkStyle)
      + (if p.description != "" then [Paragraph(p.description, CustomBodyText)] else []);
    assert ProjectLinks(q) == ProjectLinks(p);
    assert ProjectEntry(q) == head + [Spacer(1)];
    assert (head + [Spacer(1)])[..|head|] == head;
  }

  /** The education table has the institution row and the degree row, and a
      third "Field: ..." row exactly when the field of study is not empty;
      every row has two cells. */
  lemma EducationTableRows(e: Education)
    ensures |EducationTable(e).rows| == if e.fieldOfStudy != "" then 3 else 2
    ensures forall k :: 0 <= k < |EducationTable(e).rows| ==> |EducationTable(e).rows[k]| == 2
    ensures EducationTable(e).rows[1][0] == Cell(e.degree, Position)
    ensures e.fieldOfStudy != "" ==> EducationTable(e).rows[2][0] == Cell("Field: " + e.fieldOfStudy, CustomBodyText)
  {
  }

  // ------------------------------------------------- the simple resume story

  /** The text a block contributes when it is a paragraph of the style. */
  function TextOfStyle(b: Block, style: Style): seq<string>
  {
    if b.Paragraph? && b.style == style then [b.text] else []
  }

  /** The texts of the paragraphs of one style, in order. */
  function TextsIn(blocks: seq<Block>, style: Style): seq<string>
  {
    if blocks == [] then [] else TextOfStyle(blocks[0], style) + TextsIn(blocks[1..], style)
  }

  lemma {:induction false} TextsInAppend(a: seq<Block>, b: seq<Block>, style: Style)
    ensures TextsIn(a + b, style) == TextsIn(a, style) + TextsIn(b, style)
  {
    if a == [] {
      assert a + b == b;
    } else {
      assert (a + b)[1..] == a[1..] + b;
      TextsInAppend(a[1..], b, style);
      AppendAssoc(TextOfStyle(a[0], style), TextsIn(a[1..], style), TextsIn(b, style));
    }
  }

  lemma TextsInOne(b: Block, style: Style)
    ensures TextsIn([b], style) == TextOfStyle(b, style)
  {
    assert [b][1..] == [];
  }

  lemma {:induction false} TextsInNone(blocks: seq<Block>, style: Style)
    requires forall k :: 0 <= k < |blocks| ==> !blocks[k].Paragraph? || blocks[k].style != style
    ensures TextsIn(blocks, style) == []
  {
    if blocks != [] {
      TextsInNone(blocks[1..], style);
    }
  }

  /** The email and phone line: both when both are given, email first, joined
      by " • "; the one given when only one is; no line when neither is. */
  lemma SimpleContactLine(d: SimpleResumeData)
    ensures JoinedLine(PresentTexts([TextOrEmpty(d.email), TextOrEmpty(d.phone)]), " • ", ContactInfo) ==
      if IsSet(d.email) && IsSet(d.phone) then [Paragraph(d.email.value + " • " + d.phone.value, ContactInfo)]
      else if IsSet(d.email) then [Paragraph(d.email.value, ContactInfo)]
      else if IsSet(d.phone) then [Paragraph(d.phone.value, ContactInfo)]
      else []
  {
    var e, p := TextOrEmpty(d.email), TextOrEmpty(d.phone);
    assert [e, p] == [e] + [p];
    PresentTextsCons(e, [p]);
    assert [p] == [p] + [];
    PresentTextsCons(p, []);
    if e != "" && p != "" {
      assert PresentTexts([e, p]) == [e, p];
      assert [e, p][1..] == [p];
      assert Join(" • ", [e, p]) == e + " • " + p;
    }
  }

  /** The three parts of the simple story, each read for one style. */
  lemma SimpleStoryParts(d: SimpleResumeData, style: Style)
    ensures TextsIn(SimpleStory(d), style) ==
      TextsIn([Paragraph(Upper(TextOrEmpty(d.name)), NameTitle)], style)
      + TextsIn(JoinedLine(PresentTexts([TextOrEmpty(d.email), TextOrEmpty(d.phone)]), " • ", ContactInfo), style)
      + TextsIn(if IsSet(d.summary) then SectionHeader("SUMMARY") + [Paragraph(d.summary.value, SummaryText)] else [], style)
  {
    var name := [Paragraph(Upper(TextOrEmpty(d.name)), NameTitle)];
    var contact := JoinedLine(PresentTexts([TextOrEmpty(d.email), TextOrEmpty(d.phone)]), " • ", ContactInfo);
    var summary := if IsSet(d.summary) then SectionHeader("SUMMARY") + [Paragraph(d.summary.value, SummaryText)] else [];
    TextsInAppend(name + contact, summary, style);
    TextsInAppend(name, contact, style);
  }

  /** The summary part holds one summary paragraph and no other paragraph
      of the name or contact styles. */
  lemma SimpleSummaryPart(d: SimpleResumeData, style: Style)
    requires style != SectionTitle
    ensures TextsIn(if IsSet(d.summary) then SectionHeader("SUMMARY") + [Paragraph(d.summary.value, SummaryText)] else [], style) ==
      if IsSet(d.summary) && style == SummaryText then [d.summary.value] else []
  {
    if IsSet(d.summary) {
      var p := Paragraph(d.summary.value, SummaryText);
      TextsInAppend(SectionHeader("SUMMARY"), [p], style);
      TextsInNone(SectionHeader("SUMMARY"), style);
      TextsInOne(p, style);
    }
  }

  /** The simple story has exactly one name paragraph, the name upper-cased. */
  lemma SimpleStoryName(d: SimpleResumeData)
    ensures TextsIn(SimpleStory(d), NameTitle) == [Upper(TextOrEmpty(d.name))]
  {
    var contact := JoinedLine(PresentTexts([TextOrEmpty(d.email), TextOrEmpty(d.phone)]), " • ", ContactInfo);
    SimpleStoryParts(d, NameTitle);
    SimpleSummaryPart(d, NameTitle);
    TextsInOne(Paragraph(Upper(TextOrEmpty(d.name)), NameTitle), NameTitle);
    TextsInNone(contact, NameTitle);
  }

  /** The simple story has one contact line when an email or a phone is
      given, both joined by " • " with the email first, and none otherwise. */
  lemma SimpleStoryContact(d: SimpleResumeData)
    ensures TextsIn(SimpleStory(d), ContactInfo) ==
      if IsSet(d.email) && IsSet(d.phone) then [d.email.value + " • " + d.phone.value]
      else if IsSet(d.email) then [d.email.value]
      else if IsSet(d.phone) then [d.phone.value]
      else []
  {
    var contact := JoinedLine(PresentTexts([TextOrEmpty(d.email), TextOrEmpty(d.phone)]), " • ", ContactInfo);
    var line := if IsSet(d.email) && IsSet(d.phone) then [d.email.value + " • " + d.phone.value]
      else if IsSet(d.email) then [d.email.value]
      else if IsSet(d.phone) then [d.phone.value]
      else [];
    assert TextsIn(contact, ContactInfo) == line by {
      SimpleContactLine(d);
      if contact != [] {
        TextsInOne(contact[0], ContactInfo);
      }
    }
    SimpleStoryParts(d, ContactInfo);
    SimpleSummaryPart(d, ContactInfo);
    TextsInOne(Paragraph(Upper(TextOrEmpty(d.name)), NameTitle), ContactInfo);
  }

  /** The simple story has the summary paragraph, as given, only when a
      summary is given. */
  lemma SimpleStorySummary(d: SimpleResumeData)
    ensures TextsIn(SimpleStory(d), SummaryText) == if IsSet(d.summary) then [d.summary.value] else []
  {
    var contact := JoinedLine(PresentTexts([TextOrEmpty(d.email), TextOrEmpty(d.phone)]), " • ", ContactInfo);
    SimpleStoryParts(d, SummaryText);
    SimpleSummaryPart(d, SummaryText);
    TextsInOne(Paragraph(Upper(TextOrEmpty(d.name)), NameTitle), SummaryText);
    TextsInNone(contact, SummaryText);
  }

  /** The simple story has a "SUMMARY" section title exactly when a summary is
      given, and no other. */
  lemma SimpleStoryTitles(d: SimpleResumeData)
    ensures SectionTitles(SimpleStory(d)) == if IsSet(d.summary) then ["SUMMARY"] else []
  {
    var name := [Paragraph(Upper(TextOrEmpty(d.name)), NameTitle)];
    var contact := JoinedLine(PresentTexts([TextOrEmpty(d.email), TextOrEmpty(d.phone)]), " • ", ContactInfo);
    var summary := if IsSet(d.summary) then SectionHeader("SUMMARY") + [Paragraph(d.summary.value, SummaryText)] else [];
    SectionTitlesAppend(name + contact, summary);
    SectionTitlesAppend(name, contact);
    UntitledHasNoTitles(name);
    UntitledHasNoTitles(contact);
    if IsSet(d.summary) {
      var body := [Paragraph(d.summary.value, SummaryText)];
      UntitledHasNoTitles(body);
      SectionWithTitle("SUMMARY", body);
    }
  }
}
