# Resume story and portfolio API core, in Dafny

This project models the core of a Django portfolio backend, a resume and
portfolio service.

The centre of the model is `ResumePDFGenerator`. It walks a resume and its
related rows and appends layout blocks to a story list, which ReportLab then
lays out as a PDF. The story is made of spacers, styled paragraphs,
horizontal rules and tables. The model covers:

- the header: the upper-cased name, a contact line joined with " • ", and a
  social-links line joined with " | ";
- the professional summary, with its whitespace collapsed;
- the experience section: one table per entry with a `%b %Y` date range,
  plus one bullet per non-blank description line;
- the technical skills section: skills bucketed by their title-cased level
  and shown Expert, Advanced, Intermediate, Beginner;
- the projects section;
- the education section;
- the footer with its generation time;
- the smaller `create_simple_resume_pdf` story.

The builder is imperative. `Layout.StoryList` is the Python list the
generator appends to. Every builder method in `PdfGenerator` is proved to
append exactly the blocks that a specification function in `ResumeStory`
describes. `StoryProperties` then proves what the story promises about
those functions:

- which section titles appear, and in what order;
- how the story opens and closes;
- how descriptions become bullets;
- that every shown skill appears exactly once;
- how the stored skill levels map onto the display labels.

Around the generator, the model covers these parts of the API:

- the portfolio project view actions that compute something:
  - adding and removing a technology, which changes the project in place;
  - toggling `featured`;
  - the sorted list of all technologies;
  - parsing the `technologies` list filter;
  - the permission choice of both view sets;
  - the Cloudinary storage name of a resume PDF;
- the serializer validators and URL fields;
- the skill level choices and their default;
- `PortfolioProject.get_technologies_display`.

`Text` and `Calendar` model the Python string built-ins and the `strftime`
formats the code uses (C locale, ASCII case mapping). `QueryOrder` models
how the ORM resolves the field names given to `order_by`.

## Model

| member | source | states |
|---|---|---|
| Models.NewSkill | portfolio/models.py:75-86 | a skill created without a level gets the default level 'intermediate'; a given level is kept |
| Models.DefaultSkillLevelIsAChoice | portfolio/models.py:76-85 | the default level is one of the four SKILL_LEVELS choices |
| Models.NewExperience | portfolio/models.py:44-51 | a new experience is not current and has no end date (current defaults to False, end_date is nullable) |
| Models.NewEducation | portfolio/models.py:59-67 | a new education is not current, has no end date, and its blank-allowed field of study and description are empty |
| Models.PortfolioProject.constructor | portfolio/models.py:112-124 | a new project has no image or links, is not featured, and has an empty technologies list (default=list) |
| Models.PortfolioProject.TechnologiesDisplay | portfolio/models.py:134-135 | no technologies give ""; a single technology is shown as itself; any non-blank technology makes the display non-empty |
| Models.TechnologiesDisplayReadsBack | portfolio/models.py:134-135 | for a non-empty list of stripped, comma-free technologies, splitting the display on ',' and stripping each piece gives the list back: every technology, in order, joined by ", " |
| Text.Strip | portfolio/views.py:431 | str.strip(): the result has no whitespace at either end; it is empty exactly when the input is all whitespace; otherwise the input is whitespace + result + whitespace |
| Text.StripIdempotent | portfolio/serializers.py:82 | stripping twice is stripping once |
| Text.StripKeepsOut | portfolio/views.py:333 | stripping adds no character, so a comma-free piece stays comma-free |
| Text.CollapseWhitespace | portfolio/pdf_generator.py:174 | ' '.join(s.split()): the words are kept, the result is stripped and single-spaced, and it is empty exactly when s is blank |
| Text.CollapseWhitespaceIdempotent | portfolio/pdf_generator.py:174 | collapsing twice is collapsing once |
| Text.WordsOfSpaceJoin | portfolio/pdf_generator.py:174 | splitting words that were joined with single spaces gives the words back |
| Text.SplitOn | portfolio/pdf_generator.py:207 | str.split(c): at least one piece, and no piece contains c |
| Text.JoinSplitOn | portfolio/pdf_generator.py:207 | joining the pieces of s.split(c) with c gives s back |
| Text.SplitOnJoin | portfolio/views.py:333 | splitting on c pieces that were joined with c, and that hold no c, gives the pieces back |
| Text.StripEachOfStripped | portfolio/views.py:333 | stripping every piece of a list of stripped pieces changes nothing |
| Text.StripAfterSpace | portfolio/models.py:135 | one space put before a stripped text is all that stripping removes |
| Text.JoinPrefixFirst | portfolio/models.py:135 | text put before a join becomes part of its first piece |
| Text.JoinCommaSpace | portfolio/models.py:135 | joining with ", " is joining with ',' the parts, each after the first with a space in front |
| Text.SplitCommaSpace | portfolio/models.py:135 | splitting a ", " join of comma-free parts on ',' gives the first part and then each other part with its space |
| Text.CommaSpaceReadsBack | portfolio/models.py:135 | a ", " join of stripped, comma-free parts, split on ',' with each piece stripped, gives the parts back |
| Text.Upper | portfolio/pdf_generator.py:141 | str.upper(): same length, no lower-case ASCII letter left, every other character kept, and equal to the input once both are lower-cased |
| Text.Title | portfolio/pdf_generator.py:220 | str.title(): same length, and the first character is upper-cased |
| Text.TitleOfLowerWord | portfolio/pdf_generator.py:220 | a lower-case word title-cases to its first letter upper-cased, the rest kept |
| Text.TitleFromIgnoresCase | portfolio/pdf_generator.py:220 | title-casing depends only on the lower-case forms of the characters, so "EXPERT" and "expert" land in the same bucket |
| Text.TitleFromIdempotent | portfolio/pdf_generator.py:220 | title-casing twice is title-casing once |
| Text.StrLessTotal | portfolio/views.py:412 | the code-point order sorted() uses is total on distinct strings (with StrLessIrreflexive and StrLessTransitive, a strict total order) |
| Calendar.Decimal | portfolio/pdf_generator.py:182 | %Y: digits without a leading zero whose value is the year |
| Calendar.Pad2 | portfolio/pdf_generator.py:310 | %d, %I and %M: two digits whose value is n |
| Calendar.MonthYear | portfolio/pdf_generator.py:182-183 | '%b %Y' is the three-letter month, a space and the year, and contains no '-' |
| Calendar.MonthYearRoundTrip | portfolio/pdf_generator.py:182-183 | a '%b %Y' text reads back as its month and year |
| Calendar.MonthYearInjective | portfolio/pdf_generator.py:182-183 | two dates print the same '%b %Y' exactly when they share month and year |
| Calendar.Hour12 | portfolio/pdf_generator.py:310 | %I lies in 1..12 and agrees with the hour modulo 12 |
| Calendar.Meridiem | portfolio/pdf_generator.py:310 | %p is "AM" exactly before noon, else "PM" |
| Calendar.ClockRoundTrip | portfolio/pdf_generator.py:310 | %I together with %p determine the hour |
| Calendar.FormatTimestamp | portfolio/pdf_generator.py:309-310 | '%B %d, %Y at %I:%M %p': the full month name, then " dd, " with the two-digit day, the year and " at ", then "hh:mm AM" or "hh:mm PM" |
| ResumeStory.PresentTexts | portfolio/pdf_generator.py:144-150 | every kept text is a non-empty input; none are kept exactly when all inputs are empty |
| ResumeStory.PresentTextsInOrder | portfolio/pdf_generator.py:144-150 | the kept texts are a subsequence of the inputs: their order is kept |
| ResumeStory.PresentTextsKeepsEveryText | portfolio/pdf_generator.py:144-150 | as multisets, the kept texts are the inputs less every empty one: each non-empty input is kept as often as it occurs |
| ResumeStory.LabelledLinks | portfolio/pdf_generator.py:157-163 | at most one text per link; none exactly when no link is set |
| ResumeStory.LinkTexts | portfolio/pdf_generator.py:157-163 | one text per link, in order: "Label: url" when its URL is set, "" otherwise |
| ResumeStory.LabelledLinksArePresentTexts | portfolio/pdf_generator.py:157-163 | the links line holds exactly the "Label: url" texts of the set links, in the links' order, as PresentTexts of LinkTexts |
| ResumeStory.ContactPartsInOrder | portfolio/pdf_generator.py:144-150 | the contact parts are exactly what the three guarded appends build |
| ResumeStory.SocialLinksInOrder | portfolio/pdf_generator.py:157-163 | the social links are exactly what the three guarded appends build |
| ResumeStory.NamesAtStep | portfolio/pdf_generator.py:218-223 | one more skill adds its name to exactly the bucket of its level key, and only if the skill has a name |
| ResumeStory.ProjectLinksInOrder | portfolio/pdf_generator.py:245-249 | the project links are exactly what the two guarded appends build |
| PdfGenerator.AddSectionHeader | portfolio/pdf_generator.py:114-124 | appends a spacer, the title paragraph and a rule, and nothing else |
| PdfGenerator.AddHeader | portfolio/pdf_generator.py:140-168 | appends exactly HeaderBlocks(r): spacer, upper-cased name, contact line if any, links line if any, spacer |
| PdfGenerator.AddSummary | portfolio/pdf_generator.py:171-175 | appends the summary section only when the summary is not blank, with whitespace runs collapsed |
| PdfGenerator.AddBullets | portfolio/pdf_generator.py:206-209 | appends one bullet per non-blank description line, stripped |
| PdfGenerator.AddExperiences | portfolio/pdf_generator.py:178-210 | appends the experience section: the title when there are entries, then each entry's table, bullets and spacer, in the given order |
| PdfGenerator.GroupByLevel | portfolio/pdf_generator.py:217-223 | every bucket holds exactly the names of the named skills with that level key, in input order; the four display buckets always exist |
| PdfGenerator.AddSkills | portfolio/pdf_generator.py:213-235 | appends the skills section: the title whenever there are skills, then the non-empty buckets in display order |
| PdfGenerator.AddLevelGroups | portfolio/pdf_generator.py:226-235 | the loop over ordered_levels appends the groups for Expert, Advanced, Intermediate and Beginner, in that order |
| PdfGenerator.AddProjects | portfolio/pdf_generator.py:238-261 | appends the projects section: name, links line, description and technologies line when present, then a spacer per project |
| PdfGenerator.AddEducations | portfolio/pdf_generator.py:264-297 | appends the education section: per entry a table with a third "Field:" row when a field of study is set, the description when present, and a spacer |
| PdfGenerator.AddFooter | portfolio/pdf_generator.py:300-311 | appends the footer rule and "Generated on" with the given time |
| PdfGenerator.GenerateResumeStory | portfolio/pdf_generator.py:126-316 | the story built is exactly ResumeStory.Story(r, now), the story with the project query corrected to a field that exists; the code as written, whose project query fails, is QueryOrder.StoryAsWritten (see Findings) |
| PdfGenerator.CreateSimpleResumeStory | portfolio/pdf_generator.py:318-351 | the story built is exactly ResumeStory.SimpleStory(d), whose contents the SimpleStory lemmas below state |
| StoryProperties.SectionTitlesAppend | portfolio/pdf_generator.py:114-124 | the section titles of a concatenation are the titles of its parts, in order |
| StoryProperties.StorySectionTitles | portfolio/pdf_generator.py:170-297 | the story's section titles are exactly the sections that have content, each once, in the order summary, experience, skills, projects, education |
| StoryProperties.StoryFrame | portfolio/pdf_generator.py:137-311 | the story opens with a spacer and the upper-cased name and closes with the two footer blocks; a different generation time changes nothing before the footer |
| StoryProperties.SparseResumeStory | portfolio/pdf_generator.py:137-311 | a resume with only a name gives just spacer, name, spacer and footer |
| StoryProperties.DateRangeSides | portfolio/pdf_generator.py:182-183 | a date range splits on '-' into exactly its two sides; a current entry ends with "Present"; a missing date leaves its side empty |
| StoryProperties.DateRangeStartReadsBack | portfolio/pdf_generator.py:182 | the left side of a date range reads back as the start's month and year |
| StoryProperties.LineBulletsAreBullets | portfolio/pdf_generator.py:207-209 | the bullets of a list of lines are one bullet per stripped non-blank line, and each text is non-empty and stripped |
| StoryProperties.DescriptionBulletsAreLines | portfolio/pdf_generator.py:206-209 | a description gives at most one bullet per line; no bullet text is empty, has surrounding whitespace or holds a line break |
| StoryProperties.OneLineDescription | portfolio/pdf_generator.py:206-209 | a one-line description gives exactly one bullet, the line stripped |
| StoryProperties.EachShownSkillOnce | portfolio/pdf_generator.py:217-234 | the names in the four display buckets are the named skills with a display level, as a multiset: each shown exactly once |
| StoryProperties.SkillGroupsInDisplayOrder | portfolio/pdf_generator.py:226-235 | the groups come out Expert, Advanced, Intermediate, Beginner |
| StoryProperties.UnnamedSkillsLeaveBareTitle | portfolio/pdf_generator.py:213-223 | skills that all lack a name still produce the section title, with nothing under it |
| StoryProperties.LowerLevelLabel | portfolio/pdf_generator.py:220 | a lower-case stored level shows under its first letter upper-cased, the rest kept |
| StoryProperties.StoredLevelShows | portfolio/models.py:76-85 | the i-th stored level title-cases to its own display label, which is in the display order |
| StoryProperties.ProjectTechnologiesLine | portfolio/pdf_generator.py:257-261 | the technologies add one "<b>Technologies:</b> " paragraph with the list joined by ", ", just before the closing spacer, only when the list is not empty; the rest of the entry is the same without them |
| StoryProperties.EducationTableRows | portfolio/pdf_generator.py:269-287 | the education table has two cells per row and 3 rows exactly when the field of study is not empty (the third is "Field: ..."), otherwise 2; the second row is the degree |
| StoryProperties.TextsInAppend | portfolio/pdf_generator.py:329-347 | the paragraphs of one style in a concatenation are those of its parts, in order |
| StoryProperties.SimpleContactLine | portfolio/pdf_generator.py:334-342 | the contact line is email and phone joined by " • ", email first, when both are given; the one given when only one is; absent when neither is |
| StoryProperties.SimpleStoryName | portfolio/pdf_generator.py:332 | the simple story has exactly one name paragraph, the name upper-cased |
| StoryProperties.SimpleStoryContact | portfolio/pdf_generator.py:334-342 | the simple story has exactly one contact paragraph when an email or a phone is given, with the joined text above, and none otherwise |
| StoryProperties.SimpleStorySummary | portfolio/pdf_generator.py:344-347 | the simple story has the summary paragraph, unchanged, exactly when a summary is given |
| StoryProperties.SimpleStoryTitles | portfolio/pdf_generator.py:344-347 | the simple story's only section title is "SUMMARY", present exactly when a summary is given |
| StoryProperties.StoredLevelsShowUnderTheirLabels | portfolio/models.py:76-85 | each stored level title-cases to its own display label, which is in the display order; the default shows as "Intermediate"; an empty level ("Other") is never shown |
| QueryOrder.OrderBy | portfolio/pdf_generator.py:180 | for a plain field name, optionally after '-': order_by succeeds exactly when it names a field of the model, and otherwise fails naming that field |
| QueryOrder.NewestStartFirstResolves | portfolio/models.py:94-105 | '-start_date' resolves for experiences, educations and resume projects |
| QueryOrder.ProjectsBreakRenderingAsWritten | portfolio/pdf_generator.py:240 | as written, every resume with a project fails with a field error on "created_at" |
| QueryOrder.RenderingWithoutProjects | portfolio/pdf_generator.py:178-297 | as written, a resume without projects renders exactly the modelled story |
| Views.RequestedTechnology | portfolio/views.py:431 | the technology read from the request is stripped; it is empty exactly when the field is missing or blank |
| Views.WithTechnology | portfolio/views.py:439-444 | after adding, t is in the list and the old list is kept as a prefix; a t already present leaves the list as it was, and a new t is appended at the end |
| Views.WithTechnologyKeepsNoDuplicates | portfolio/views.py:442-443 | adding keeps a duplicate-free list duplicate-free |
| Views.WithTechnologyIdempotent | portfolio/views.py:442-443 | adding the same technology twice is adding it once |
| Views.RemoveFirst | portfolio/views.py:463-464 | list.remove: the list is unchanged when t is absent, and one element shorter when t is present |
| Views.RemoveFirstCounts | portfolio/views.py:463-464 | exactly one occurrence of t goes and nothing else, as multisets |
| Views.RemoveFirstSplits | portfolio/views.py:463-464 | it is the first occurrence that goes; what is before and after it stays in order |
| Views.RemoveUndoesAdd | portfolio/views.py:427-470 | removing a technology that was just added to a list without it gives the list back |
| Views.RemoveFromDistinct | portfolio/views.py:463-464 | removing from a duplicate-free list leaves t out entirely and keeps the list duplicate-free |
| Views.AddTechnology | portfolio/views.py:427-449 | a blank or missing technology answers 400 and leaves the list alone; otherwise the list becomes WithTechnology(old, t) and the answer carries it; no other field changes |
| Views.RemoveTechnology | portfolio/views.py:451-470 | a blank or missing technology answers 400 and leaves the list alone; otherwise the list becomes RemoveFirst(old, t) and the answer carries it; no other field changes |
| Views.ToggleMessageTellsState | portfolio/views.py:421-424 | the message names the project and differs between featured and unfeatured |
| Views.ToggleFeatured | portfolio/views.py:414-425 | the flag is negated, so two toggles restore it; the answer reports the new state; no other field changes |
| Views.AllTechnologies | portfolio/views.py:405-410 | a technology is collected exactly when some project lists it |
| Views.StrictlySortedIsDistinct | portfolio/views.py:412 | a strictly sorted list has no duplicates |
| Views.Least | portfolio/views.py:412 | the element picked belongs to the set and is below every other element |
| Views.SortedList | portfolio/views.py:412 | sorted(list(s)) is strictly increasing and holds exactly the elements of s |
| Views.Technologies | portfolio/views.py:403-412 | the answer is strictly sorted, has no duplicates, and holds exactly the technologies some project lists |
| Views.TechnologyFilter | portfolio/views.py:331-333 | a filter applies exactly when the parameter is present and non-empty; it has at least one piece, and each piece is stripped and comma-free |
| Views.TechnologyFilterRoundTrip | portfolio/views.py:331-333 | stripped, comma-free tags joined with commas are parsed back as the same tags |
| Views.Permissions | portfolio/views.py:321-326 | exactly one permission class, IsAuthenticated exactly for create, update, partial_update and destroy |
| Views.PublicId | portfolio/views.py:69 | the storage name is "resumes/resume_" + id, then '_', then the name with each space turned into '_' and every other character kept, so no space is left |
| Views.PublicIdInjective | portfolio/views.py:214 | for one id, names without '_' never share a storage name |
| Serializers.StrippedAtLeastIdempotent | portfolio/serializers.py:79-87 | a value that passed a validator passes again, unchanged |
| Serializers.StrippedAtLeastIgnoresPadding | portfolio/serializers.py:79-87 | a value fails exactly when its stripped form is too short, and surrounding whitespace never changes the verdict |
| Serializers.ValidateTitle | portfolio/serializers.py:79-82 | the title fails exactly when it has fewer than 2 characters once stripped, with that message; otherwise the stripped title is returned |
| Serializers.ValidateDescription | portfolio/serializers.py:84-87 | the description fails exactly when it has fewer than 10 characters once stripped, with that message; otherwise the stripped description is returned |
| Serializers.TitleExamples | portfolio/serializers.py:79-82 | "   " and " a " are refused; " Go " is accepted as "Go" |
| Serializers.ValidateTechnologies | portfolio/serializers.py:74-77 | every JSON list passes unchanged and everything else is refused with that message |
| Serializers.ItemsAreNotChecked | portfolio/serializers.py:74-77 | a list of non-strings passes; a bare string is refused |
| Serializers.ImageUrl | portfolio/serializers.py:69-72 | the image URL is present exactly when the project has an image, and is that image's URL |
| Serializers.PdfUrl | portfolio/serializers.py:42-45 | the PDF URL is present exactly when the resume has a PDF file, and is that file's URL |
| Serializers.SerializerFor | portfolio/views.py:314-319 | create gets the create serializer, update and partial_update get the update serializer, and every other action gets the read serializer |
| Serializers.AcceptTitleAsWritten | portfolio/serializers.py:89-107 | on create and update, a title is refused exactly when it is blank, and is stored stripped |
| Serializers.WritesSkipTitleValidationAsWritten | portfolio/views.py:347-369 | as written, create stores " x " as "x" and partial update stores "x", which validate_title refuses |
| Serializers.StoredTitlesAreValid | portfolio/serializers.py:79-82 | with validate_title applied on every path, a stored title is stripped and has at least 2 characters, and a title is refused exactly when its stripped form is shorter |

## Left out

- Rendering is left out: ReportLab's document template, page size, margins, fonts, colours, inch sizes, column widths, table styles and `doc.build`. Blocks keep only their text, style name, spacer height (in tenths of an inch) and table cells.
- The markup inside paragraph texts (`<b>`, `<font>`) is kept literally as text. ReportLab's interpretation of it is not modelled.
- `timezone.now()` in the footer is a parameter (`now`) of the generator.
- Cloudinary uploads, deletions and URL signing are left out, as are the network and the `print` calls. So are `regenerate_resume_pdf`, `regenerate_related_resume_pdf`, `download_pdf`, `pdf_url`, `generate_pdf`, `delete_pdf` and `remove_image`. Only the public id string they build is modelled.
- ORM querysets are left out: `exists()`, `filter`, pagination, `save()`, `get_object()` and the search and ordering backends.
  - A resume's related rows are sequences, held in the order the queries return them.
  - The database sort itself is not modelled. Only the resolution of the names given to `order_by` is, in `QueryOrder`.
- The list filter is modelled up to the tag list it parses. The OR-query it builds from that list, `technologies__contains`, is not modelled.
- `set_active`, `active`, `featured` and the create/update/destroy wrappers are left out. Their work is ORM calls and responses.
- Views.RequestedTechnology: a `technology` value that is not a string, where `.strip()` would raise, is not modelled. The field is a string or missing.
- Views.SortedList: Python's `sorted` is a built-in. Its result is modelled by a selection loop over the set, proved sorted and holding the same elements.
- Text.Upper, Text.Title: only ASCII letters change case. Python's full Unicode case mapping is not modelled.
- Calendar.Decimal: years are written without zero padding. Years below 1000 under platforms that pad `%Y` are not modelled.
- ResumeStory.SimpleStory: a key present with the value None reads like a missing key. For `name` the source would then call `None.upper()` and raise, and the model instead shows an empty name.
- Field lengths (`max_length`), e-mail and URL syntax checks, UUID generation and the `created_at`/`updated_at` timestamps are not modelled.
- The skills title is shown whenever a skill row exists, even if no skill has a name (portfolio/pdf_generator.py:213-218).
- Views.AddTechnology, Views.Technologies, Models.PortfolioProject.TechnologiesDisplay, ResumeStory.ProjectEntry: `technologies` is a JSON column that accepts any non-null JSON value, but these are modelled only for lists of strings. Not modelled: the TypeError `join` and `sorted` raise on non-string items; a string value, where `in` becomes a substring test and `.append` raises AttributeError; `set.update` on a string, which adds its letters one by one.
- Row order: the story keeps the order its input lists are in, and no ordering property is claimed about them. The newest-start-first sort of the queries and the Skill `Meta.ordering = ['category', 'name']` (portfolio/models.py:89) are not modelled.
- QueryOrder.OrderBy: only plain field names, with or without a leading '-', are modelled. Django also accepts `pk`, `<relation>_id`, lookups across relations such as `resume__name`, and `'?'`; none of these is modelled.

## Findings

| source | as written | input that shows it | evidently intended | confidence | as-written member | corrected member |
|---|---|---|---|---|---|---|
| portfolio/pdf_generator.py:240 | projects are ordered with `order_by('-created_at')`, but `ResumeProject` (portfolio/models.py:94-107) has no `created_at` field, so the ORM raises a field error | any resume with at least one project | order projects newest start first, as the model's own `Meta.ordering = ['-start_date']` does | not executed | QueryOrder.ProjectsBreakRenderingAsWritten | QueryOrder.NewestStartFirstResolves |
| portfolio/serializers.py:79-87 | `validate_title` and `validate_description` are declared only on the read serializer, while `get_serializer_class` (portfolio/views.py:314-319) hands create and update input to the other two serializers, which never call them | creating or updating a project with title "x" (or " x ") stores "x" | every serializer that accepts input applies the same validators | not executed | Serializers.WritesSkipTitleValidationAsWritten | Serializers.StoredTitlesAreValid |
