/** The ORM ordering of the related rows the resume story reads, as the
    generator asks for it: order_by resolves each name against the model's
    fields and fails on a name the model does not have. */
module QueryOrder {
  import opened Wrappers
  import opened Calendar
  import opened Models
  import opened Layout
  import opened ResumeStory

  datatype QueryError = FieldError(field: string)

  /** The concrete fields of each related model, primary key and foreign key included. */
  const ExperienceFields: seq<string> :=
    ["id", "resume", "company", "position", "start_date", "end_date", "current", "description"]
  const EducationFields: seq<string> :=
    ["id", "resume", "institution", "degree", "field_of_study", "start_date", "end_date", "current", "description"]
  const ResumeProjectFields: seq<string> :=
    ["id", "resume", "name", "description", "technologies", "project_url", "github_url", "start_date", "end_date"]

  /** The field an ordering term names: a leading '-' only flips the direction. */
  function OrderField(term: string): (f: string)
    ensures term != "" && term[0] == '-' ==> term == "-" + f
    ensures (term == "" || term[0] != '-') ==> f == term
  {
    if term != "" && term[0] == '-' then term[1..] else term
  }

  /** queryset.order_by(term): fails when the term names no field of the model. */
  function OrderBy(fields: seq<string>, term: string): (r: Result<(), QueryError>)
    ensures r.Success? <==> OrderField(term) in fields
    ensures r.Failure? ==> r.error == FieldError(OrderField(term))
  {
    if OrderField(term) in fields then Success(()) else Failure(FieldError(OrderField(term)))
  }

  /** The three orderings the generator evaluates, each only when its section
      has rows, in the order the sections are built. */
  function Orderings(r: Resume): Result<(), QueryError>
  {
    if r.experiences != [] && OrderBy(ExperienceFields, "-start_date").Failure? then OrderBy(ExperienceFields, "-start_date")
    else if r.projects != [] && OrderBy(ResumeProjectFields, "-created_at").Failure? then OrderBy(ResumeProjectFields, "-created_at")
    else if r.educations != [] && OrderBy(EducationFields, "-start_date").Failure? then OrderBy(EducationFields, "-start_date")
    else Success(())
  }

  /** generate_resume_pdf as written: the story, unless an ordering fails,
      in which case the error leaves the generator and no story is built. */
  function StoryAsWritten(r: Resume, now: DateTime): Result<seq<Block>, QueryError>
  {
    match Orderings(r)
    case Failure(e) => Failure(e)
    case Success(_) => Success(Story(r, now))
  }

  /** The intended ordering, newest start first as the model's own default
      ordering already gives, resolves for every related model. */
  lemma NewestStartFirstResolves()
    ensures OrderBy(ExperienceFields, "-start_date").Success?
    ensures OrderBy(ResumeProjectFields, "-start_date").Success?
    ensures OrderBy(EducationFields, "-start_date").Success?
  {
    assert OrderField("-start_date") == "start_date";
    assert ExperienceFields[4] == "start_date";
    assert ResumeProjectFields[7] == "start_date";
    assert EducationFields[5] == "start_date";
  }

  /** No field of a resume project starts with 'c', so "created_at" names none. */
  lemma CreatedAtDoesNotResolve()
    ensures OrderBy(ResumeProjectFields, "-created_at") == Failure(FieldError("created_at"))
  {
    assert OrderField("-created_at") == "created_at";
    forall i | 0 <= i < |ResumeProjectFields| ensures ResumeProjectFields[i] != "created_at" {
      assert ResumeProjectFields[i][0] != 'c';
    }
  }

  /** Ordering projects by creation time names a field resume projects do not
      have, so every resume that lists a project fails to render. */
  lemma ProjectsBreakRenderingAsWritten(r: Resume, now: DateTime)
    requires r.projects != []
    ensures StoryAsWritten(r, now) == Failure(FieldError("created_at"))
  {
    NewestStartFirstResolves();
    CreatedAtDoesNotResolve();
  }

  /** Without projects, the orderings as written all resolve and the story is
      the one the model builds. */
  lemma RenderingWithoutProjects(r: Resume, now: DateTime)
    requires r.projects == []
    ensures StoryAsWritten(r, now) == Success(Story(r, now))
  {
    NewestStartFirstResolves();
  }
}
