/** The records of the portfolio app. Resume and its related rows are the
    read-only snapshot the PDF builder receives; PortfolioProject is an object
    whose fields the API actions change in place. */
module Models {
  import opened Wrappers
  import opened Text
  import opened Calendar

  /** A FileField/ImageField value: the stored name and the URL the storage
      back end gives it. Django treats a field whose name is empty as unset. */
  datatype StoredFile = StoredFile(name: string, url: string)

  /** Python truthiness of an optional file field. */
  predicate HasFile(f: Option<StoredFile>) {
    f.Some? && f.value.name != ""
  }

  /** Python truthiness of a nullable URL or text field. */
  predicate IsSet(u: Option<string>) {
    u.Some? && u.value != ""
  }

  datatype Experience = Experience(
    company: string,
    position: string,
    startDate: Option<Date>,
    endDate: Option<Date>,
    current: bool,
    description: string)

  datatype Education = Education(
    institution: string,
    degree: string,
    fieldOfStudy: string,
    startDate: Option<Date>,
    endDate: Option<Date>,
    current: bool,
    description: string)

  /** level holds the stored string; only the four SkillLevels values pass the
      serializer, but the column itself accepts any text. */
  datatype Skill = Skill(name: string, level: string, category: string)

  datatype ResumeProject = ResumeProject(
    name: string,
    description: string,
    technologies: seq<string>,
    projectUrl: Option<string>,
    githubUrl: Option<string>,
    startDate: Option<Date>,
    endDate: Option<Date>)

  /** A resume with its related rows. Each list is taken in the order it is
      held here; the database sort that puts the rows in that order is not
      part of this model. */
  datatype Resume = Resume(
    id: string,
    name: string,
    title: string,
    email: string,
    phone: string,
    location: string,
    summary: string,
    githubUrl: Option<string>,
    linkedinUrl: Option<string>,
    portfolioUrl: Option<string>,
    pdfFile: Option<StoredFile>,
    isActive: bool,
    experiences: seq<Experience>,
    educations: seq<Education>,
    skills: seq<Skill>,
    projects: seq<ResumeProject>)

  /** Skill.SKILL_LEVELS: stored value and display label. */
  const SkillLevels: seq<(string, string)> :=
    [("beginner", "Beginner"), ("intermediate", "Intermediate"), ("advanced", "Advanced"), ("expert", "Expert")]

  const DefaultSkillLevel: string := "intermediate"

  /** The row the API creates for a skill whose level was not given. */
  function NewSkill(name: string, category: string, level: Option<string>): (s: Skill)
    ensures s.name == name && s.category == category
    ensures level.None? ==> s.level == DefaultSkillLevel
    ensures level.Some? ==> s.level == level.value
  {
    Skill(name, if level.Some? then level.value else DefaultSkillLevel, category)
  }

  /** The default level is one of the choices. */
  lemma DefaultSkillLevelIsAChoice()
    ensures exists i :: 0 <= i < |SkillLevels| && SkillLevels[i].0 == DefaultSkillLevel
  {
    assert SkillLevels[1].0 == DefaultSkillLevel;
  }

  /** The row the API creates for an experience or education left open:
      current defaults to False and end_date to NULL. */
  function NewExperience(company: string, position: string, startDate: Date, description: string): (e: Experience)
    ensures !e.current && e.endDate.None? && e.startDate == Some(startDate)
  {
    Experience(company, position, Some(startDate), None, false, description)
  }

  function NewEducation(institution: string, degree: string, startDate: Date): (e: Education)
    ensures !e.current && e.endDate.None? && e.startDate == Some(startDate)
    ensures e.fieldOfStudy == "" && e.description == ""
  {
    Education(institution, degree, "", Some(startDate), None, false, "")
  }

  /** A portfolio entry. technologies is a JSON column; it is modelled as a
      list of strings, the value the views and the admin store in it. */
  class PortfolioProject {
    var title: string
    var description: string
    var shortDescription: string
    var image: Option<StoredFile>
    var technologies: seq<string>
    var liveLink: Option<string>
    var githubLink: Option<string>
    var featured: bool
    var completedDate: Option<Date>

    /** A new project with the model's defaults. */
    constructor (title: string, description: string)
      ensures this.title == title && this.description == description
      ensures shortDescription == "" && image.None? && technologies == []
      ensures liveLink.None? && githubLink.None? && !featured && completedDate.None?
    {
      this.title := title;
      this.description := description;
      shortDescription := "";
      image := None;
      technologies := [];
      liveLink := None;
      githubLink := None;
      featured := false;
      completedDate := None;
    }

    /** get_technologies_display: the technologies separated by ", ", or ""
        when there are none. */
    function TechnologiesDisplay(): (r: string)
      reads this
      ensures technologies == [] ==> r == ""
      ensures |technologies| == 1 ==> r == technologies[0]
      ensures forall k :: 0 <= k < |technologies| && IsWord(technologies[k]) ==> r != ""
    {
      if technologies != [] then
        JoinStartsWithFirst(", ", technologies);
        Join(", ", technologies)
      else ""
    }
  }

  /** The display line is read back by splitting it on ',' and stripping each
      piece, so it holds every technology, in order, and nothing else. */
  lemma TechnologiesDisplayReadsBack(p: PortfolioProject)
    requires p.technologies != []
    requires forall k :: 0 <= k < |p.technologies| ==>
      IsStripped(p.technologies[k]) && ',' !in p.technologies[k]
    ensures StripEach(SplitOn(p.TechnologiesDisplay(), ',')) == p.technologies
  {
    CommaSpaceReadsBack(p.technologies);
  }
}
