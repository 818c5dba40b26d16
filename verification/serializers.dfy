/** The field validators and computed URL fields of the API serializers, and
    which serializer the portfolio project views hand incoming data to. */
module Serializers {
  import opened Wrappers
  import opened Text
  import opened Models

  // ------------------------------------------------------------ validators

  const TitleTooShort := "Title must be at least 2 characters long."
  const DescriptionTooShort := "Description must be at least 10 characters long."
  const TechnologiesNotAList := "Technologies must be a list of strings."

  /** The shape shared by the title and description validators: the value
      stripped, or the message when fewer than min characters remain. */
  function StrippedAtLeast(value: string, min: nat, message: string): (r: Result<string, string>)
    ensures r.Success? ==> IsStripped(r.value) && |r.value| >= min && |r.value| <= |value|
    ensures r.Failure? ==> r.error == message
  {
    var s := Strip(value);
    if |s| < min then Failure(message)
    else
      assert s == "" || value == value[..LeadingSpace(value)] + s + value[|value| - TrailingSpace(value)..];
      Success(s)
  }

  /** Running a validator over what it returned gives the same value back:
      a cleaned value stays clean. */
  lemma StrippedAtLeastIdempotent(value: string, min: nat, message: string)
    requires StrippedAtLeast(value, min, message).Success?
    ensures StrippedAtLeast(StrippedAtLeast(value, min, message).value, min, message)
      == StrippedAtLeast(value, min, message)
  {
    StripIdempotent(value);
  }

  /** A value fails exactly when its stripped form is too short, and the
      surrounding whitespace never decides it. */
  lemma StrippedAtLeastIgnoresPadding(value: string, min: nat, message: string)
    ensures StrippedAtLeast(value, min, message).Failure? <==> |Strip(value)| < min
    ensures StrippedAtLeast(value, min, message) == StrippedAtLeast(Strip(value), min, message)
  {
    StripIdempotent(value);
  }

  function ValidateTitle(value: string): (r: Result<string, string>)
    ensures r.Failure? <==> |Strip(value)| < 2
    ensures r.Failure? ==> r.error == TitleTooShort
    ensures r.Success? ==> r.value == Strip(value) && |r.value| >= 2
  {
    StrippedAtLeast(value, 2, TitleTooShort)
  }

  function ValidateDescription(value: string): (r: Result<string, string>)
    ensures r.Failure? <==> |Strip(value)| < 10
    ensures r.Failure? ==> r.error == DescriptionTooShort
    ensures r.Success? ==> r.value == Strip(value) && |r.value| >= 10
  {
    StrippedAtLeast(value, 10, DescriptionTooShort)
  }

  /** One space on each side of a stripped word is what Strip removes. */
  lemma StripOneSpaceEach(s: string)
    requires |s| >= 3 && s[0] == ' ' && s[|s| - 1] == ' '
    requires IsStripped(s[1..|s| - 1])
    ensures Strip(s) == s[1..|s| - 1]
  {
    assert LeadingSpace(s[1..]) == 0 by { assert s[1..][0] == s[1..|s| - 1][0]; }
    assert TrailingSpace(s[..|s| - 1]) == 0 by { assert s[..|s| - 1][|s| - 2] == s[1..|s| - 1][|s| - 3]; }
  }

  /** A blank title and a one-letter title padded with spaces are refused; a
      two-letter title with spaces around it is accepted, stripped. */
  lemma TitleExamples()
    ensures ValidateTitle("   ") == Failure(TitleTooShort)
    ensures ValidateTitle(" a ") == Failure(TitleTooShort)
    ensures ValidateTitle(" Go ") == Success("Go")
  {
    assert IsBlank("   ");
    assert " a "[1..2] == "a";
    StripOneSpaceEach(" a ");
    assert " Go "[1..3] == "Go";
    StripOneSpaceEach(" Go ");
  }

  /** The JSON values a request body can carry. */
  datatype Json =
    | JNull
    | JBool(b: bool)
    | JNumber(n: int)
    | JString(s: string)
    | JList(items: seq<Json>)
    | JObject(fields: seq<(string, Json)>)

  /** validate_technologies: any list passes unchanged, whatever its items;
      everything else is refused. */
  function ValidateTechnologies(value: Json): (r: Result<Json, string>)
    ensures r.Success? <==> value.JList?
    ensures r.Success? ==> r.value == value
    ensures r.Failure? ==> r.error == TechnologiesNotAList
  {
    if value.JList? then Success(value) else Failure(TechnologiesNotAList)
  }

  /** The check is on the container only: a list of numbers passes although
      the message speaks of strings. */
  lemma ItemsAreNotChecked()
    ensures ValidateTechnologies(JList([JNumber(1), JNull])).Success?
    ensures ValidateTechnologies(JString("React")).Failure?
  {
  }

  // ---------------------------------------------------------- URL fields

  /** get_image_url and get_pdf_url: the storage URL of a file that is set,
      None otherwise. */
  function FileUrl(f: Option<StoredFile>): (r: Option<string>)
    ensures r.None? <==> !HasFile(f)
    ensures r.Some? ==> r.value == f.value.url
  {
    if HasFile(f) then Some(f.value.url) else None
  }

  function ImageUrl(project: PortfolioProject): (r: Option<string>)
    reads project
    ensures r.None? <==> !HasFile(project.image)
    ensures r.Some? ==> r.value == project.image.value.url
  {
    FileUrl(project.image)
  }

  function PdfUrl(r: Resume): (u: Option<string>)
    ensures u.None? <==> !HasFile(r.pdfFile)
    ensures u.Some? ==> u.value == r.pdfFile.value.url
  {
    FileUrl(r.pdfFile)
  }

  // ------------------------------------ which serializer sees the input

  /** The three portfolio project serializers; only the first declares the
      title, description and technologies validators. */
  datatype ProjectSerializer = ReadSerializer | CreateSerializer | UpdateSerializer

  /** get_serializer_class of the portfolio project views. */
  function SerializerFor(action: string): (s: ProjectSerializer)
    ensures s == CreateSerializer <==> action == "create"
    ensures s == UpdateSerializer <==> action in {"update", "partial_update"}
  {
    if action == "create" then CreateSerializer
    else if action in {"update", "partial_update"} then UpdateSerializer
    else ReadSerializer
  }

  /** The message of a model CharField that must not be blank. */
  const FieldBlank := "This field may not be blank."

  /** The title a serializer stores, as the classes are written: only the
      read serializer has validate_title; the create and update serializers
      apply just the defaults of a CharField that is not blank=True, which
      strip the value and refuse it when nothing is left. */
  function AcceptTitleAsWritten(s: ProjectSerializer, title: string): (r: Result<string, string>)
    ensures s != ReadSerializer ==> (r.Failure? <==> IsBlank(title))
    ensures r.Success? ==> r.value == Strip(title)
  {
    if s == ReadSerializer then ValidateTitle(title)
    else if Strip(title) == "" then Failure(FieldBlank)
    else Success(Strip(title))
  }

  /** As written, creating or updating a project stores a one-letter title,
      the validator notwithstanding. */
  lemma WritesSkipTitleValidationAsWritten()
    ensures AcceptTitleAsWritten(SerializerFor("create"), " x ") == Success("x")
    ensures AcceptTitleAsWritten(SerializerFor("partial_update"), "x") == Success("x")
    ensures ValidateTitle(" x ").Failure? && ValidateTitle("x").Failure?
  {
    assert " x "[1..2] == "x";
    StripOneSpaceEach(" x ");
    StripOfStripped("x");
  }

  /** The intended rule: every serializer that takes input validates the
      title as validate_title does. */
  function AcceptTitle(s: ProjectSerializer, title: string): (r: Result<string, string>)
  {
    ValidateTitle(title)
  }

  /** With the validator on every input path, no stored title is shorter
      than two characters or carries surrounding whitespace. */
  lemma StoredTitlesAreValid(action: string, title: string)
    ensures AcceptTitle(SerializerFor(action), title).Success? ==>
      var t := AcceptTitle(SerializerFor(action), title).value;
      |t| >= 2 && IsStripped(t)
    ensures AcceptTitle(SerializerFor(action), title).Failure? <==> |Strip(title)| < 2
  {
  }
}
