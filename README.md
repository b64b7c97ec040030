# jira-wrapper core in Dafny

This project models two parts of the jira-wrapper package.

The first part turns a markdown file of acceptance criteria into a preview of
the Jira issues it would create (`jira_wrapper/ac_parser.py`):

- `parse_markdown_file` reads the document line by line.
  - A `## X) Title` line opens a section.
  - A `### AC-CAT-NNN | Title` line opens a criterion under the open section.
  - Every other line is collected into the open criterion.
  - The next heading or the end of the document closes a criterion. It is
    appended to the open section only if it collected at least one line.
- `generate_preview_table` renders the sections as a markdown document: a fixed
  header naming the project, then per section an epic table and, when the
  section has criteria, a stories table, then a summary of the counts.
- `parse_and_preview` composes the two.

The second part is the request and response models (`jira_wrapper/models.py`):

- the `Priority` and `IssueType` enumerations
- the `IssueCreate` request with its `min_length=1` constraints, its defaults
  and `to_jira_dict`, which builds the `fields` body passed to the Jira library
- the rule by which `JiraConfig.from_env` reports missing environment variables
- `IssueResponse.from_jira_issue`, which projects a fetched issue onto the
  response model; a missing or `None` description gives `None`, a `None`
  priority or assignee gives `None`, and missing, `None` or empty labels give `[]`

## How the model is organised

- `wrappers.dfy` (`Wrappers`): `Option` and `Result`.
- `text.dfy` (`Text`): the parts of Python's `str` the code uses.
  - `isspace`, `rstrip`, `lstrip` and `strip`
  - `''.join` and `sep.join`
  - `str(n)` for natural numbers
  - `split('\n')` and its first element
- `ac_patterns.dfy` (`AcPatterns`): the two heading regular expressions, written
  as scanners over the right-stripped line. Soundness and completeness lemmas
  tie each scanner to a declarative description of what the pattern matches.
- `ac_parser.dfy` (`AcParser`): the parser in two forms.
  - `Parse` is a fold over the lines.
  - `ParseMarkdownFile` is the source's loop. Like the source, it appends
    criteria in place to `AcceptanceCriteriaSection` objects that are already in
    the result list. Its contract ties the contents of those objects to `Parse`.
  - A criterion is a value. The source changes its `description` and
    `raw_content` only before appending it, so no alias can observe the change.
- `ac_reference.dfy` (`AcReference`): an independent, positional description of
  the parser's result, and the proof that the fold computes it.
- `ac_properties.dfy` (`AcProperties`): what the parser promises, stated over the
  document's lines.
- `ac_preview.dfy` (`AcPreview`):
  - the preview as a function of the section contents, line by line
  - `GeneratePreviewTable` and its helper methods, which build the same lines
    with the source's loops and appends
  - `ParseAndPreview`
- `ac_preview_properties.dfy` (`AcPreviewProperties`): the preview's frame,
  summary counts, per-section blocks and story rows.
- `ac_preview_text.dfy` (`AcPreviewText`): splitting the preview text of a
  parsed document at its line feeds gives back exactly its lines.
- `json_dict.dfy` (`JsonDict`): JSON values, and Python's `dict` as an
  insertion-ordered association list.
  - Assigning to a present key replaces its value in place.
  - Assigning to a new key appends it.
  - `update` assigns the other dictionary's entries in order.
- `models.dfy` (`Models`): the enumerations, `IssueCreate`, `to_jira_dict`,
  `from_env` and `from_jira_issue`.

The source reads the markdown file and the environment itself. In the model,
the document is the list of its lines as `readlines()` returns them, and
`from_env` receives the values of the environment variables. A fetched Jira
issue is an abstract record whose optional parts (the description, the priority
and assignee objects, their `name` and `emailAddress`, and the labels) are
`Option` values. `None` there stands for a value of `None`, and, only where the
source reads the attribute through `getattr` with a default, also for a missing
attribute.

Long string literals are written as concatenations of short pieces. This keeps
the verifier's work on them small; the strings are the same.

## Model

| member | source | states |
|---|---|---|
| Text.RStrip | jira_wrapper/ac_parser.py:62 | `line.rstrip()` is no longer than the line and does not end in whitespace |
| Text.RStripSlice | jira_wrapper/ac_parser.py:62 | `rstrip()` removes only a whitespace run at the end: the result is a prefix of the line and the rest is all whitespace |
| Text.LStripSlice | jira_wrapper/ac_parser.py:119 | `lstrip()` removes only a whitespace run at the start: the result is a suffix and what precedes it is all whitespace |
| Text.StripEnds | jira_wrapper/ac_parser.py:119 | the result of `strip()` is empty or neither starts nor ends with whitespace, and is no longer than its input |
| Text.StripSlice | jira_wrapper/ac_parser.py:119 | `strip()` yields a slice of its input with only whitespace before and after it |
| Text.StripNoop | jira_wrapper/ac_parser.py:76 | stripping a text that has no whitespace at either end leaves it unchanged |
| Text.ConcatAppend | jira_wrapper/ac_parser.py:119-120 | `''.join` of two runs of lines is the join of the first followed by the join of the second |
| Text.JoinAppend | jira_wrapper/ac_parser.py:209 | `'\n'.join` of two non-empty runs of lines puts exactly one separator between the two joins |
| Text.NatToStringDigits | jira_wrapper/ac_parser.py:205-206 | `str(n)` is a non-empty string of decimal digits without a leading zero that reads back as `n` |
| Text.NatToStringInjective | jira_wrapper/ac_parser.py:205-206 | two counts that render the same are equal, so a rendered count identifies its count |
| Text.FirstLineSpec | jira_wrapper/ac_parser.py:186 | `s.split('\n')[0]` is a prefix of `s` without line feeds that ends where `s` ends or at a line feed |
| Text.SplitJoin | jira_wrapper/ac_parser.py:209 | splitting at line feeds the `'\n'.join` of lines that contain none gives back the lines |
| AcPatterns.SkipSpacesRun | jira_wrapper/ac_parser.py:58-59 | a `\s` scan passes only whitespace and stops at the end or at a character that is not whitespace |
| AcPatterns.SkipSpacesAt | jira_wrapper/ac_parser.py:58-59 | a whitespace run that ends at `j` is scanned exactly up to `j` |
| AcPatterns.SkipUpperRun | jira_wrapper/ac_parser.py:58-59 | a `[A-Z]` scan passes only capitals and stops at the end or at a character that is not one |
| AcPatterns.SkipUpperAt | jira_wrapper/ac_parser.py:58-59 | a run of capitals that ends at `j` is scanned exactly up to `j` |
| AcPatterns.SkipDigitsRun | jira_wrapper/ac_parser.py:59 | a `\d` scan passes only digits and stops at the end or at a character that is not one |
| AcPatterns.SkipDigitsAt | jira_wrapper/ac_parser.py:59 | a digit run that ends at `j` is scanned exactly up to `j` |
| AcPatterns.MatchSectionSound | jira_wrapper/ac_parser.py:58 | when the section scanner matches a right-stripped line, the line has the layout `##\s+([A-Z])\)\s+(.+)` and the scanner returns its two groups |
| AcPatterns.MatchSectionComplete | jira_wrapper/ac_parser.py:58 | every right-stripped line with the section layout is matched, with its letter and group 2 |
| AcPatterns.SectionLayoutGroups | jira_wrapper/ac_parser.py:58 | group 1 of a section heading is a capital letter; group 2 is non-empty, starts with a non-blank and has no line feed |
| AcPatterns.MatchCriterionSound | jira_wrapper/ac_parser.py:59 | when the criterion scanner matches a right-stripped line, the line has the layout `###\s+(AC-[A-Z]+-\d+)\s*\|\s*(.+)` and the scanner returns its two groups |
| AcPatterns.MatchCriterionComplete | jira_wrapper/ac_parser.py:59 | every right-stripped line with the criterion layout is matched, with its two groups |
| AcPatterns.CriterionLayoutGroups | jira_wrapper/ac_parser.py:59 | group 1 of a criterion heading is an `AC-<capitals>-<digits>` identifier and group 2 is title text |
| AcPatterns.TitleOfSuffix | jira_wrapper/ac_parser.py:76 | group 2 of a heading, a suffix of the right-stripped line, is left unchanged by `.strip()` |
| AcPatterns.KindOfShape | jira_wrapper/ac_parser.py:75-99 | a section heading yields a one-capital identifier; a criterion heading yields an `AC-` identifier; both yield a non-empty title without blanks at its ends or line feeds |
| AcPatterns.KindOfSectionLayout | jira_wrapper/ac_parser.py:62-66 | a line whose right-stripped text has the section layout is read as that section heading |
| AcPatterns.KindOfCriterionLayout | jira_wrapper/ac_parser.py:88-89 | a line whose right-stripped text has the criterion layout, and not the section layout, is read as that criterion heading |
| AcParser.AcceptanceCriteriaSection.constructor | jira_wrapper/ac_parser.py:77-81 | a new section object has the heading's identifier and title and an empty list of criteria |
| AcParser.Run | jira_wrapper/ac_parser.py:61-115 | while a criterion is open, its start line is one of the lines read so far, so the raw-content slice is well defined |
| AcParser.ParseMarkdownFile | jira_wrapper/ac_parser.py:51-124 | the section objects returned, with the criteria appended to them in place, hold exactly what the fold `Parse` over the lines yields |
| AcParser.ProcessLine | jira_wrapper/ac_parser.py:61-115 | one loop turn changes the parser state as one step of the fold and changes only the open section object |
| AcParser.OpenSection | jira_wrapper/ac_parser.py:65-85 | a section heading saves the open criterion, appends a fresh empty section object to the result and closes the criterion |
| AcParser.OpenCriterion | jira_wrapper/ac_parser.py:88-111 | a criterion heading saves the open criterion and opens a new one, with the open section's identifier and title (or empty ones) and its line number |
| AcParser.SavePrevious | jira_wrapper/ac_parser.py:68-72 | the open criterion, if it collected lines, gets its stripped description and raw content and is appended to the open section |
| AcReference.ParseIsSections | jira_wrapper/ac_parser.py:51-124 | the fold gives one section per section heading, holding in order the criteria with a non-empty body between it and the next section heading |
| AcReference.SavePending | jira_wrapper/ac_parser.py:117-122 | saving at a heading or at the end of the document appends exactly the criterion that the positional description expects |
| AcReference.BodyCase | jira_wrapper/ac_parser.py:114-115 | a body line only extends the open criterion's collected lines |
| AcReference.CriterionCase | jira_wrapper/ac_parser.py:88-111 | a criterion heading leaves the rest of the result as the positional description expects |
| AcReference.SectionCase | jira_wrapper/ac_parser.py:65-85 | a section heading opens the section that the positional description lists next |
| AcProperties.SectionPerHeading | jira_wrapper/ac_parser.py:65-85 | there is one section per section heading, including headings without criteria; the sections are in document order, every heading is counted, and each carries its heading's letter and title |
| AcProperties.SectionHeadingShape | jira_wrapper/ac_parser.py:75-76 | a section's identifier is one capital letter and its title is stripped, non-empty text within one line |
| AcProperties.CriteriaOfSection | jira_wrapper/ac_parser.py:88-122 | a section's criteria come, in order, from the criterion headings with a non-empty body between its heading and the next section heading; each carries the section's letter and title |
| AcProperties.OrphansDropped | jira_wrapper/ac_parser.py:117-122 | a criterion whose heading comes before the first section heading is in no section |
| AcProperties.CriterionIndex | jira_wrapper/ac_parser.py:100-109 | each criterion of the result is the one that its heading line (its `line_number` minus one) yields |
| AcProperties.CriterionHeading | jira_wrapper/ac_parser.py:88-99 | a criterion's identifier and title are those of its heading; the identifier has the form `AC-<capitals>-<digits>` and the title is stripped text |
| AcProperties.CriterionBody | jira_wrapper/ac_parser.py:113-120 | a criterion's body is every line after its heading up to the next heading or the end, and is not empty; its raw content is the heading line and the body, and its description the stripped join of the body |
| AcPreview.TruncateSpec | jira_wrapper/ac_parser.py:171-172 | a preview text is at most 60 characters: the text itself when it fits, otherwise its first 57 characters and `...` |
| AcPreview.DescriptionPreviewSpec | jira_wrapper/ac_parser.py:186-190 | a story's description preview is never empty, at most 60 characters and one line: the placeholder for an empty first line, otherwise that line, truncated |
| AcPreview.GeneratePreviewTable | jira_wrapper/ac_parser.py:145-209 | the text returned is the `'\n'`-join of the header, each section's block in turn and the summary |
| AcPreview.AppendSections | jira_wrapper/ac_parser.py:161-197 | the loop over the sections appends each section's block, in order, to the lines so far |
| AcPreview.AppendSection | jira_wrapper/ac_parser.py:162-197 | one turn appends the epic table, the stories table when there are criteria, and the closing rule |
| AcPreview.StoriesLines | jira_wrapper/ac_parser.py:179-194 | the stories heading, the column header, one story row per criterion in order, and a blank line |
| AcPreview.CountStories | jira_wrapper/ac_parser.py:201 | the count is the number of criteria over all sections |
| AcPreview.ParseAndPreview | jira_wrapper/ac_parser.py:212-226 | the result is the preview of the parsed document |
| AcPreviewProperties.PreviewFrame | jira_wrapper/ac_parser.py:145-209 | the preview has 13 header lines naming the project, then the sections' blocks, then 5 summary lines, and nothing else |
| AcPreviewProperties.PreviewTotals | jira_wrapper/ac_parser.py:199-207 | the summary states the number of sections and the number of criteria over all sections |
| AcPreviewProperties.DefaultProject | jira_wrapper/ac_parser.py:129 | a preview asked for without a project key, as `parse_and_preview` does by default, names the project `PROJ` in its header's project line |
| AcPreviewProperties.TotalStoriesAppend | jira_wrapper/ac_parser.py:201 | the story count of two runs of sections is the sum of their counts |
| AcPreviewProperties.SectionBlocksAppend | jira_wrapper/ac_parser.py:161-197 | the blocks of two runs of sections are the first run's blocks followed by the second's |
| AcPreviewProperties.SectionBlockInOrder | jira_wrapper/ac_parser.py:161-197 | each section's block appears after the blocks of the sections before it and before those after it |
| AcPreviewProperties.EpicBlock | jira_wrapper/ac_parser.py:163-197 | a section's block opens with its epic heading and epic row and closes with a rule and a blank line; it has 8 lines, plus 5 and one per criterion when there are criteria |
| AcPreviewProperties.EpicDescriptionWidth | jira_wrapper/ac_parser.py:170-172 | an epic's description preview is at most 60 characters |
| AcPreviewProperties.StoriesBlock | jira_wrapper/ac_parser.py:178-192 | in a section with criteria, the stories heading follows the epic table and the m-th story row belongs to the m-th criterion |
| AcPreviewProperties.StoriesTableIffCriteria | jira_wrapper/ac_parser.py:178 | a section's block has a stories table exactly when the section has criteria |
| AcPreviewProperties.EpicsTotalIsHeadingCount | jira_wrapper/ac_parser.py:200-205 | in the preview of a parsed document, the epics total is the number of section headings |
| AcPreviewText.CriterionIdOneLine | jira_wrapper/ac_parser.py:59 | any text of the identifier form `AC-<capitals>-<digits>` holds no line feed, so the identifier cells of a story row cannot break it across lines |
| AcPreviewText.ParsedSingleLine | jira_wrapper/ac_parser.py:75-99 | every identifier and title that a parsed section shows in the preview lies within one line |
| AcPreviewText.PreviewSplits | jira_wrapper/ac_parser.py:209 | when no shown field holds a line feed, splitting the preview at its line feeds gives exactly its lines |
| AcPreviewText.ParsedPreviewSplits | jira_wrapper/ac_parser.py:212-226 | for any document and a one-line project key, the text returned splits into exactly the header, the sections' blocks and the summary |
| JsonDict.GetKeys | jira_wrapper/models.py:87-106 | a key maps to a value exactly when it is among the dictionary's keys |
| JsonDict.SetGet | jira_wrapper/models.py:94-104 | after `d[k] = v`, `k` maps to `v` and every other key keeps its value |
| JsonDict.SetKeys | jira_wrapper/models.py:94-104 | assignment keeps the key order and appends a key that was not present |
| JsonDict.SetUnique | jira_wrapper/models.py:94-104 | assignment never duplicates a key |
| JsonDict.UpdateGet | jira_wrapper/models.py:106 | after `d.update(e)`, a key of `e` maps to its value in `e` and any other key to its value in `d` |
| JsonDict.UpdateKeys | jira_wrapper/models.py:106 | `update` keeps the keys that were present in their places and only appends new ones |
| JsonDict.UpdateUnique | jira_wrapper/models.py:106 | `update` never duplicates a key |
| Models.PriorityOf | jira_wrapper/models.py:10-17 | a priority found from a string has that string as its value |
| Models.PriorityRoundTrip | jira_wrapper/models.py:10-17 | every priority is found again from its value, so no two priorities share a value |
| Models.IssueTypeOf | jira_wrapper/models.py:20-26 | an issue type found from a string has that string as its value |
| Models.IssueTypeRoundTrip | jira_wrapper/models.py:20-26 | every issue type (`Sub-task` included) is found again from its value, so no two share one |
| Models.NewIssueCreate | jira_wrapper/models.py:66-77 | a request is built exactly when the project key and the summary are both non-empty; otherwise the error names the fields that are empty |
| Models.Defaults | jira_wrapper/models.py:70-77 | the defaults are an empty description, the `Task` type and no priority, labels, assignee, components, custom fields or parent |
| Models.StringsAt | jira_wrapper/models.py:98 | the labels sent are the request's labels, in order |
| Models.ComponentObjectsAt | jira_wrapper/models.py:102 | the i-th component object is `{'name': c}` for the i-th component |
| Models.ToJiraDict | jira_wrapper/models.py:79-108 | the guarded assignments build the body `{'fields': ...}` with the mandatory fields, the optional fields that are set, and the custom fields merged last |
| Models.FieldLookup | jira_wrapper/models.py:105-106 | a body field is the custom field of that name when there is one, and the standard field otherwise |
| Models.MandatoryGet | jira_wrapper/models.py:87-92 | the initial dictionary holds the project, summary, description and issue type, and no other key |
| Models.StandardLookup | jira_wrapper/models.py:94-104 | each optional key holds its value exactly when its guard holds; every other key holds what the initial dictionary holds |
| Models.MandatoryPresent | jira_wrapper/models.py:82-92 | unless overridden by custom fields, the body holds `{'key': project}`, the summary, the description and `{'name': t}`; `t` is the enumeration's value or the given string verbatim |
| Models.PriorityPresent | jira_wrapper/models.py:94-96 | unless overridden, `priority` is present exactly when set, as `{'name': value}` |
| Models.LabelsPresent | jira_wrapper/models.py:97-98 | unless overridden, `labels` is present exactly when the labels are set and non-empty, holding them in order and with the same length |
| Models.AssigneePresent | jira_wrapper/models.py:99-100 | unless overridden, `assignee` is present exactly when set and non-empty, as `{'name': assignee}` |
| Models.ComponentsPresent | jira_wrapper/models.py:101-102 | unless overridden, `components` is present exactly when set and non-empty; it holds one `{'name': c}` per component, in order, with the same length |
| Models.ParentPresent | jira_wrapper/models.py:103-104 | unless overridden, `parent` is present exactly when set and non-empty, as `{'key': parent}` |
| Models.CustomOverrides | jira_wrapper/models.py:105-106 | every custom field is in the body with its own value, whether it adds a key or overrides a standard field |
| Models.FieldOrder | jira_wrapper/models.py:87-106 | the body's keys begin with `project`, `summary`, `description` and `issuetype`, in that order |
| Models.FieldsUnique | jira_wrapper/models.py:87-108 | the body never holds a key twice |
| Models.FromEnv | jira_wrapper/models.py:37-63 | it fails exactly when a required variable is unset or empty, with the message listing the missing ones; otherwise it returns the values given, with a timeout of 30 when none is set |
| Models.MissingExactly | jira_wrapper/models.py:47-55 | the missing list names exactly the unset or empty variables, each once, in the order `JIRA_BASE_URL`, `JIRA_EMAIL`, `JIRA_API_TOKEN`, and is empty only when all three are set |
| Models.FromJiraIssue | jira_wrapper/models.py:125-140 | the key, id, summary, description, link and timestamps are copied; the status is the status object's name; a priority gives its `name` and an assignee its `emailAddress`, a `None` one giving `None`; missing or `None` labels give `[]`, present ones are copied |
| Models.ResponseRoundTrip | jira_wrapper/models.py:111-140 | the projection loses nothing a response holds: an issue built from a response projects back to that response |

## Left out

- `jira_wrapper/client.py`, `jira_wrapper/exceptions.py`, `jira_wrapper/__init__.py` and `scripts/` are not part of this model.
- File input: the existence check and its `FileNotFoundError` (`ac_parser.py:45-46`) and the reading of the file are not modelled; the parser receives the file's lines as `readlines()` returns them.
- Environment input: `load_dotenv()` and `os.getenv` are not modelled. `FromEnv` receives the values, with `None` for an unset variable.
- Models.FromEnv: receives `JIRA_TIMEOUT_SECONDS` already converted to an integer, so the `ValueError` that `int()` raises on a malformed value is not modelled.
- AcPatterns.KindOf: reads `\d` as the ASCII digits 0-9 only, whereas Python's `\d` also matches other Unicode decimal digits.
- There is no Unicode normalisation or encoding: strings are sequences of code points, as Python's `str` lengths and slices treat them.
- Pydantic validation beyond the two `min_length=1` constraints is not modelled: type coercion, `IssueResponse` field validation, and constructing `JiraConfig` directly.
- Models.FromJiraIssue: does not model the `AttributeError` raised for an issue that lacks `key`, `id` or one of `fields.summary`, `fields.status`, `fields.priority`, `fields.assignee`, `fields.created` and `fields.updated`, which `models.py:129-139` reads without a default; the record always has them.
- Models.FromJiraIssue: takes `created`, `updated` and the `permalink()` link as strings already, leaving out the `str()` conversion and the library call.
- AcParser.ParseMarkdownFile: does not state that the returned section objects are freshly allocated.
