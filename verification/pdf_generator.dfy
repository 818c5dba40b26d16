/** ResumePDFGenerator: the builder that appends a resume's blocks to a story
    list, section by section, and the simple builder used for a plain
    dictionary. Each method is proved to append exactly what ResumeStory
    describes; the page layout that turns the story into PDF bytes is not part
    of this model. */
module PdfGenerator {
  import opened Wrappers
  import opened Text
  import opened Calendar
  import opened Models
  import opened Layout
  import opened ResumeStory

  /** add_section_header */
  method AddSectionHeader(story: StoryList, title: string)
    modifies story
    ensures story.blocks == old(story.blocks) + SectionHeader(title)
  {
    story.Append(Spacer(1));
    story.Append(Paragraph(title, SectionTitle));
    story.Append(HorizontalRule(SectionRule));
  }

  /** Name, contact line, social links line and the closing spacer. */
  method AddHeader(story: StoryList, r: Resume)
    modifies story
    ensures story.blocks == old(story.blocks) + HeaderBlocks(r)
  {
    story.Append(Spacer(1));
    story.Append(Paragraph(Upper(r.name), NameTitle));
    ghost var nameBlocks := [Spacer(1), Paragraph(Upper(r.name), NameTitle)];
    ghost var afterName := story.blocks;
    assert afterName == old(story.blocks) + nameBlocks;

    var contactParts: seq<string> := [];
    if r.email != "" {
      contactParts := contactParts + [r.email];
    }
    if r.phone != "" {
      contactParts := contactParts + [r.phone];
    }
    if r.location != "" {
      contactParts := contactParts + [r.location];
    }
    ContactPartsInOrder(r);
    assert contactParts == ContactParts(r);
    if contactParts != [] {
      story.Append(Paragraph(Join(" • ", contactParts), ContactInfo));
    }
    ghost var contactLine := JoinedLine(ContactParts(r), " • ", ContactInfo);
    ghost var afterContact := story.blocks;
    assert afterContact == afterName + contactLine;

    var socialLinks: seq<string> := [];
    if IsSet(r.linkedinUrl) {
      socialLinks := socialLinks + ["LinkedIn: " + r.linkedinUrl.value];
    }
    if IsSet(r.githubUrl) {
      socialLinks := socialLinks + ["GitHub: " + r.githubUrl.value];
    }
    if IsSet(r.portfolioUrl) {
      socialLinks := socialLinks + ["Portfolio: " + r.portfolioUrl.value];
    }
    SocialLinksInOrder(r);
    assert socialLinks == SocialLinks(r);
    if socialLinks != [] {
      story.Append(Paragraph(Join(" | ", socialLinks), LinkStyle));
    }
    ghost var linksLine := JoinedLine(SocialLinks(r), " | ", LinkStyle);
    assert story.blocks == afterContact + linksLine;

    story.Append(Spacer(2));
    AppendAssoc(old(story.blocks), nameBlocks, contactLine);
    AppendAssoc(old(story.blocks), nameBlocks + contactLine, linksLine);
    AppendAssoc(old(story.blocks), nameBlocks + contactLine + linksLine, [Spacer(2)]);
  }

  /** The professional summary, whitespace runs collapsed to single spaces. */
  method AddSummary(story: StoryList, r: Resume)
    modifies story
    ensures story.blocks == old(story.blocks) + SummaryBlocks(r)
  {
    if r.summary != "" && Strip(r.summary) != "" {
      AddSectionHeader(story, "PROFESSIONAL SUMMARY");
      var summaryText := Join(" ", Words(r.summary));
      story.Append(Paragraph(summaryText, SummaryText));
    }
  }

  /** The bullet for one description line, when the line is not blank. */
  method AddLineBullet(story: StoryList, line: string)
    modifies story
    ensures story.blocks == old(story.blocks) + LineBullet(line)
  {
    var stripped := Strip(line);
    if stripped != "" {
      story.Append(Paragraph("• " + stripped, CustomBodyText));
    }
  }

  /** One bullet per non-blank line of a description. */
  method AddBullets(story: StoryList, description: string)
    modifies story
    ensures story.blocks == old(story.blocks) + DescriptionBullets(description)
  {
    if description != "" {
      var lines := SplitOn(description, '\n');
      var j := 0;
      while j < |lines|
        invariant 0 <= j <= |lines|
        invariant story.blocks == old(story.blocks) + Concat(lines[..j], LineBullet)
      {
        ConcatStep(lines, j, LineBullet);
        AppendAssoc(old(story.blocks), Concat(lines[..j], LineBullet), LineBullet(lines[j]));
        AddLineBullet(story, lines[j]);
        j := j + 1;
      }
      ConcatAll(lines, LineBullet);
    }
  }

  /** One experience: the company/position table, the bullets, a spacer. */
  method AddExperience(story: StoryList, exp: Experience)
    modifies story
    ensures story.blocks == old(story.blocks) + ExperienceEntry(exp)
  {
    var dateRange := StartText(exp.startDate) + " - ";
    dateRange := dateRange + (if exp.current then "Present" else if exp.endDate.Some? then MonthYear(exp.endDate.value) else "");
    story.Append(Table([[Cell("<b>" + exp.company + "</b>", Company), Cell(dateRange, DateStyle)],
                        [Cell(exp.position, Position), Cell("", DateStyle)]]));
    ghost var withTable := story.blocks;
    AddBullets(story, exp.description);
    story.Append(Spacer(1));
    AppendAssoc(old(story.blocks), [ExperienceTable(exp)], DescriptionBullets(exp.description));
    AppendAssoc(old(story.blocks), [ExperienceTable(exp)] + DescriptionBullets(exp.description), [Spacer(1)]);
  }

  /** The experience section, entries in the order given. */
  method AddExperiences(story: StoryList, experiences: seq<Experience>)
    modifies story
    ensures story.blocks == old(story.blocks) + ExperienceSection(experiences)
  {
    if experiences != [] {
      AddSectionHeader(story, "PROFESSIONAL EXPERIENCE");
      ghost var withHeader := story.blocks;
      var i := 0;
      while i < |experiences|
        invariant 0 <= i <= |experiences|
        invariant story.blocks == withHeader + Concat(experiences[..i], ExperienceEntry)
      {
        ConcatStep(experiences, i, ExperienceEntry);
        AppendAssoc(withHeader, Concat(experiences[..i], ExperienceEntry), ExperienceEntry(experiences[i]));
        AddExperience(story, experiences[i]);
        i := i + 1;
      }
      ConcatAll(experiences, ExperienceEntry);
      AppendAssoc(old(story.blocks), SectionHeader("PROFESSIONAL EXPERIENCE"), Concat(experiences, ExperienceEntry));
    }
  }

  /** The bold level line, the names, a spacer; nothing for an empty bucket. */
  method AddLevelGroup(story: StoryList, level: string, names: seq<string>)
    modifies story
    ensures story.blocks == old(story.blocks) + LevelGroup(level, names)
  {
    if names != [] {
      story.Append(Paragraph("<b><font color=\"black\">" + level + ":</font></b>", Position));
      story.Append(Paragraph(Join(", ", names), CustomBodyText));
      story.Append(Spacer(1));
    }
  }

  /** skills_by_level: the named skills bucketed by LevelKey, in input order.
      The four known levels start out as empty buckets; any other key gets a
      bucket when its first skill arrives. */
  method GroupByLevel(skills: seq<Skill>) returns (skillsByLevel: map<string, seq<string>>)
    ensures forall level :: Bucket(skillsByLevel, level) == NamesAt(skills, level)
    ensures forall level :: level in DisplayOrder ==> level in skillsByLevel
  {
    skillsByLevel := map["Beginner" := [], "Intermediate" := [], "Advanced" := [], "Expert" := []];
    var i := 0;
    while i < |skills|
      invariant 0 <= i <= |skills|
      invariant forall level :: Bucket(skillsByLevel, level) == NamesAt(skills[..i], level)
      invariant forall level :: level in DisplayOrder ==> level in skillsByLevel
    {
      ghost var before := skillsByLevel;
      var skill := skills[i];
      if skill.name != "" {
        var level := if skill.level != "" then Title(skill.level) else "Other";
        assert level == LevelKey(skill.level);
        if level !in skillsByLevel {
          skillsByLevel := skillsByLevel[level := []];
        }
        skillsByLevel := skillsByLevel[level := skillsByLevel[level] + [skill.name]];
        assert forall other :: other != level ==> Bucket(skillsByLevel, other) == Bucket(before, other);
        assert Bucket(skillsByLevel, level) == Bucket(before, level) + [skill.name];
      }
      forall level
        ensures Bucket(skillsByLevel, level) == NamesAt(skills[..i + 1], level)
      {
        NamesAtStep(skills, i, level);
      }
      i := i + 1;
    }
    assert skills[..|skills|] == skills;
  }

  /** The skills section: the buckets of the four known levels, from Expert
      down to Beginner. */
  method AddSkills(story: StoryList, skills: seq<Skill>)
    modifies story
    ensures story.blocks == old(story.blocks) + SkillsSection(skills)
  {
    if skills != [] {
      AddSectionHeader(story, "TECHNICAL SKILLS");
      var skillsByLevel := GroupByLevel(skills);
      AddLevelGroups(story, skills, skillsByLevel);
      AppendAssoc(old(story.blocks), SectionHeader("TECHNICAL SKILLS"), SkillGroups(skills, DisplayOrder));
    }
  }

  /** The loop over the display order, reading each bucket with .get(level, []). */
  method AddLevelGroups(story: StoryList, skills: seq<Skill>, skillsByLevel: map<string, seq<string>>)
    requires forall level :: Bucket(skillsByLevel, level) == NamesAt(skills, level)
    modifies story
    ensures story.blocks == old(story.blocks) + SkillGroups(skills, DisplayOrder)
  {
    var orderedLevels := DisplayOrder;
    var k := 0;
    while k < |orderedLevels|
      invariant 0 <= k <= |orderedLevels|
      invariant story.blocks == old(story.blocks) + SkillGroups(skills, orderedLevels[..k])
    {
      var level := orderedLevels[k];
      SkillGroupsStep(skills, orderedLevels, k);
      AppendAssoc(old(story.blocks), SkillGroups(skills, orderedLevels[..k]), LevelGroup(level, NamesAt(skills, level)));
      var names := if level in skillsByLevel then skillsByLevel[level] else [];
      assert names == NamesAt(skills, level) by {
        assert Bucket(skillsByLevel, level) == NamesAt(skills, level);
      }
      AddLevelGroup(story, level, names);
      k := k + 1;
    }
    assert orderedLevels[..k] == DisplayOrder;
  }

  /** One project: name, links, description, technologies, spacer. */
  method AddProject(story: StoryList, proj: ResumeProject)
    modifies story
    ensures story.blocks == old(story.blocks) + ProjectEntry(proj)
  {
    story.Append(Paragraph("<b>" + proj.name + "</b>", Company));
    ghost var titleLine := [Paragraph("<b>" + proj.name + "</b>", Company)];
    ghost var afterTitle := story.blocks;

    var links: seq<string> := [];
    if IsSet(proj.projectUrl) {
      links := links + ["Live Demo: " + proj.projectUrl.value];
    }
    if IsSet(proj.githubUrl) {
      links := links + ["Source Code: " + proj.githubUrl.value];
    }
    ProjectLinksInOrder(proj);
    assert links == ProjectLinks(proj);
    if links != [] {
      story.Append(Paragraph(Join(" | ", links), LinkStyle));
    }
    ghost var linksLine := JoinedLine(ProjectLinks(proj), " | ", LinkStyle);
    assert story.blocks == afterTitle + linksLine;
    ghost var afterLinks := story.blocks;

    if proj.description != "" {
      story.Append(Paragraph(proj.description, CustomBodyText));
    }
    ghost var descriptionLine := if proj.description != "" then [Paragraph(proj.description, CustomBodyText)] else [];
    assert story.blocks == afterLinks + descriptionLine;
    ghost var afterDescription := story.blocks;

    if proj.technologies != [] {
      story.Append(Paragraph("<b>Technologies:</b> " + Join(", ", proj.technologies), CustomBodyText));
    }
    ghost var technologiesLine := if proj.technologies != [] then [Paragraph("<b>Technologies:</b> " + Join(", ", proj.technologies), CustomBodyText)] else [];
    assert story.blocks == afterDescription + technologiesLine;

    story.Append(Spacer(1));
    AppendAssoc(old(story.blocks), titleLine, linksLine);
    AppendAssoc(old(story.blocks), titleLine + linksLine, descriptionLine);
    AppendAssoc(old(story.blocks), titleLine + linksLine + descriptionLine, technologiesLine);
    AppendAssoc(old(story.blocks), titleLine + linksLine + descriptionLine + technologiesLine, [Spacer(1)]);
  }

  /** The projects section, entries in the order given. */
  method AddProjects(story: StoryList, projects: seq<ResumeProject>)
    modifies story
    ensures story.blocks == old(story.blocks) + ProjectsSection(projects)
  {
    if projects != [] {
      AddSectionHeader(story, "PROJECTS");
      ghost var withHeader := story.blocks;
      var i := 0;
      while i < |projects|
        invariant 0 <= i <= |projects|
        invariant story.blocks == withHeader + Concat(projects[..i], ProjectEntry)
      {
        ConcatStep(projects, i, ProjectEntry);
        AppendAssoc(withHeader, Concat(projects[..i], ProjectEntry), ProjectEntry(projects[i]));
        AddProject(story, projects[i]);
        i := i + 1;
      }
      ConcatAll(projects, ProjectEntry);
      AppendAssoc(old(story.blocks), SectionHeader("PROJECTS"), Concat(projects, ProjectEntry));
    }
  }

  /** One education: the institution/degree table (with a third row for the
      field of study), the description, a spacer. */
  method AddEducation(story: StoryList, edu: Education)
    modifies story
    ensures story.blocks == old(story.blocks) + EducationEntry(edu)
  {
    var dateRange := StartText(edu.startDate) + " - ";
    dateRange := dateRange + (if edu.current then "Present" else if edu.endDate.Some? then MonthYear(edu.endDate.value) else "");
    var eduData := [[Cell("<b>" + edu.institution + "</b>", Company), Cell(dateRange, DateStyle)],
                    [Cell(edu.degree, Position), Cell("", DateStyle)]];
    if edu.fieldOfStudy != "" {
      eduData := eduData + [[Cell("Field: " + edu.fieldOfStudy, CustomBodyText), Cell("", DateStyle)]];
    }
    assert Table(eduData) == EducationTable(edu);
    story.Append(Table(eduData));
    ghost var afterTable := story.blocks;
    if edu.description != "" {
      story.Append(Paragraph(edu.description, CustomBodyText));
    }
    ghost var descriptionLine := if edu.description != "" then [Paragraph(edu.description, CustomBodyText)] else [];
    assert story.blocks == afterTable + descriptionLine;
    story.Append(Spacer(1));
    AppendAssoc(old(story.blocks), [EducationTable(edu)], descriptionLine);
    AppendAssoc(old(story.blocks), [EducationTable(edu)] + descriptionLine, [Spacer(1)]);
  }

  /** The education section, entries in the order given. */
  method AddEducations(story: StoryList, educations: seq<Education>)
    modifies story
    ensures story.blocks == old(story.blocks) + EducationSection(educations)
  {
    if educations != [] {
      AddSectionHeader(story, "EDUCATION");
      ghost var withHeader := story.blocks;
      var i := 0;
      while i < |educations|
        invariant 0 <= i <= |educations|
        invariant story.blocks == withHeader + Concat(educations[..i], EducationEntry)
      {
        ConcatStep(educations, i, EducationEntry);
        AppendAssoc(withHeader, Concat(educations[..i], EducationEntry), EducationEntry(educations[i]));
        AddEducation(story, educations[i]);
        i := i + 1;
      }
      ConcatAll(educations, EducationEntry);
      AppendAssoc(old(story.blocks), SectionHeader("EDUCATION"), Concat(educations, EducationEntry));
    }
  }

  /** The footer rule and the generation time, read from the clock by the
      source and passed in here. */
  method AddFooter(story: StoryList, now: DateTime)
    modifies story
    ensures story.blocks == old(story.blocks) + FooterBlocks(now)
  {
    story.Append(HorizontalRule(FooterRule));
    story.Append(Paragraph("Generated on " + FormatTimestamp(now), ContactInfo));
  }

  /** generate_resume_pdf, up to the hand-over of the story to the layout
      library: the story is exactly ResumeStory.Story, the related rows taken
      in the order r holds them, which is the order the queries return. */
  method GenerateResumeStory(r: Resume, now: DateTime) returns (blocks: seq<Block>)
    ensures blocks == Story(r, now)
  {
    var story := new StoryList();
    AddHeader(story, r);
    assert story.blocks == HeaderBlocks(r);
    AddSummary(story, r);
    AddExperiences(story, r.experiences);
    AddSkills(story, r.skills);
    AddProjects(story, r.projects);
    AddEducations(story, r.educations);
    AddFooter(story, now);
    blocks := story.blocks;
  }

  /** create_simple_resume_pdf, up to the hand-over of the story. */
  method CreateSimpleResumeStory(d: SimpleResumeData) returns (blocks: seq<Block>)
    ensures blocks == SimpleStory(d)
  {
    var story := new StoryList();
    story.Append(Paragraph(Upper(TextOrEmpty(d.name)), NameTitle));
    var contactInfo: seq<string> := [];
    if IsSet(d.email) {
      contactInfo := contactInfo + [d.email.value];
    }
    if IsSet(d.phone) {
      contactInfo := contactInfo + [d.phone.value];
    }
    assert [TextOrEmpty(d.email), TextOrEmpty(d.phone)][1..] == [TextOrEmpty(d.phone)];
    assert contactInfo == PresentTexts([TextOrEmpty(d.email), TextOrEmpty(d.phone)]);
    ghost var nameLine := story.blocks;
    if contactInfo != [] {
      story.Append(Paragraph(Join(" • ", contactInfo), ContactInfo));
    }
    ghost var afterContact := story.blocks;
    assert afterContact == nameLine + JoinedLine(contactInfo, " • ", ContactInfo);
    if IsSet(d.summary) {
      AddSectionHeader(story, "SUMMARY");
      story.Append(Paragraph(d.summary.value, SummaryText));
      AppendAssoc(afterContact, SectionHeader("SUMMARY"), [Paragraph(d.summary.value, SummaryText)]);
    }
    blocks := story.blocks;
  }
}
