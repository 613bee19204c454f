# Course-catalog chat assistant: a verified model of its deterministic core

The system answers questions about a university course catalog. A language
model turns the user's question into a tool call. The program then does four things:

- **Where filter.** It turns the tool call's loosely typed field map into a
  `$or` filter over course metadata (`BuildWhereFilterFromJSONString`).
- **Canonical names.** A fuzzy instructor name or course title is replaced by
  its nearest canonical value from a reference collection.
- **Projection.** It queries the course collection and flattens the hits into
  one text block (`queryDB`).
- **Dialogue.** It feeds the tool results back to the language model for the
  answer (`StartUserInterface`). A second tool, `email_instructor`, opens a mail
  draft instead (`emailProfessor`).

The catalog is loaded only when the program is started with the `-delete`
flag (main.go:10, db.go:35-54). Then the three collections are deleted and
recreated (`deleteCollections`, `createCollections`), the catalog is read from
a CSV file (`readCoursesFromCSV`) and shaped into the three collections
(`parseCSVIntoDatabase`):
- courses, with their metadata;
- de-duplicated instructor names;
- de-duplicated course titles.

Without the flag, the existing collections are opened as they are.

The model has one module per source concern:

| file | module | models |
|---|---|---|
| `strings.dfy` | `GoStrings` | Go's `strings.TrimSpace`, `strings.Contains`, `strings.Join` |
| `values.dfy` | `Values` | `Option`, `Result`, decoded JSON objects and comma-ok lookup |
| `filter.dfy` | `WhereFilter` | `BuildWhereFilterFromJSONString` and the canonicalisation of fuzzy fields |
| `tools.dfy` | `ToolHelpers` | `queryDB` (projection of hits) and `emailProfessor` |
| `dialogue.dfy` | `Dialogue` | `StartUserInterface`: the dialogue, tool dispatch, follow-up request |
| `course.dfy` | `Courses` | `Course` and `readCoursesFromCSV` |
| `db.dfy` | `Database` | `parseCSVIntoDatabase`, `IsNotFoundError`, `deleteCollections`, `createCollections` |

Everything outside the process is a parameter of the model. That covers the
vector store, the language model, the JSON codec, the CSV reader and the
operating system. Their answers are inputs:
- A store is a function from query text to an error or a list of hit lists.
- A completion is a transport error or a list of choices.
- The JSON decoder is a function from text to an optional decoded object.

The code's loops are modelled as `while` loops in methods. Each method is proved
equal to a specification function, and the properties are proved about those
functions:
- the member loop of the filter builder;
- the nested loops of `queryDB`;
- the scanner loop and the tool-call loop of the dialogue;
- the row loop of the CSV reader;
- the ingestion and batch loops.

The dialogue is a `Session` class whose `dialogue` field the methods append to.
The store handle is a `Db` class whose collection fields `CreateCollections`
assigns.

### Behaviour the model follows where the code is stricter than its intent

- **A failed first completion request ends the interactive loop.** `return`
  at ui.go:44 ends it; it does not just abandon the current line (`Outcome.Exited`).
- **A non-string `email` value panics.** `emailProfessor` asserts
  `data["email"].(string)` without the comma-ok form (uiHelper.go:146). A
  present but non-string value crashes the process. The model returns
  `Panicked`, and the dialogue ends with `Crashed`.
- **The follow-up reply is never appended.** The first reply is appended
  (ui.go:52), even when it calls tools. The follow-up reply is only shown
  (ui.go:102-107).
- **A narrow CSV header panics.** A row is kept when it is at least as wide as
  the header (course.go:62). With fewer than 21 header columns, a kept row with
  fewer than 21 fields indexes out of range. The model returns `ReadPanicked`
  for that case. It does not require a wide header:
  `Courses.WideHeaderNeverPanics` proves that a header of 21 or more columns
  rules the panic out.

## Model

| member | source | states |
|---|---|---|
| GoStrings.TrimSpace | uiHelper.go:25-28 | the trimmed text is empty exactly when the input is all white space, and otherwise starts and ends with a non-space character |
| GoStrings.TrimSpaceIsSlice | uiHelper.go:26 | trimming returns a slice s[i..j] of the input with only white space outside it |
| GoStrings.TrimSpaceIdempotent | uiHelper.go:39 | trimming an already trimmed value changes nothing |
| GoStrings.Contains | db.go:320 | true exactly when the substring occurs at some index |
| GoStrings.Join | uiHelper.go:133 | no parts give ""; one part gives itself; the result starts with the first part and ends with the last |
| GoStrings.JoinSnoc | uiHelper.go:133 | one more part is added after a separator |
| GoStrings.JoinAppend | uiHelper.go:133 | joining two non-empty lists is joining each, with one separator between |
| Values.Get | uiHelper.go:37 | comma-ok lookup: None exactly when no member has the key; otherwise the value of a member with that key, the only one when keys are distinct |
| WhereFilter.Build | uiHelper.go:11-99 | undecodable arguments are the only cause of the decode error; a built filter has "$or" as its only key and never exactly one clause |
| WhereFilter.Canonicalize | uiHelper.go:37-62 | the comma-ok lookup, string check, trim, k=1 query and hit test of one fuzzy field equal the canonicalisation function, and the query sent is the one that function names |
| WhereFilter.BuildWhereFilter | uiHelper.go:11-99 | the member loop, the two canonicalisations and the padding return the filter specified by Build and send exactly the reference queries of Lookups |
| WhereFilter.OrdinaryClauseOfMember | uiHelper.go:19-34 | a non-fuzzy string member gives exactly one clause, with the trimmed value, when the trimmed value is non-empty and none otherwise; a non-string member gives exactly one clause with its value unchanged |
| WhereFilter.OrdinaryClausesFromMembers | uiHelper.go:19-34 | every ordinary clause comes from a member with the same non-fuzzy key and holds its trimmed non-blank string or its unchanged value |
| WhereFilter.InstructorLookup | uiHelper.go:37-51 | a blank or non-string InstructorFullName sends no instructors query; otherwise its trimmed text is the first query, with k = 1; a store error aborts with an error and no later query |
| WhereFilter.InstructorResolution | uiHelper.go:37-62 | in a built filter: no instructor clause without usable text or without a hit; exactly one, holding the nearest document, on a hit |
| WhereFilter.SubjectLookup | uiHelper.go:64-78 | the same for TitleShortDesc against the subjects collection, queried last, and a store error aborts the build |
| WhereFilter.SubjectResolution | uiHelper.go:64-87 | in a built filter: no title clause without usable text or without a hit; exactly one, holding the nearest document, on a hit |
| WhereFilter.PadPreservesFuzzyCounts | uiHelper.go:89-91 | padding never adds a clause on a fuzzy key |
| WhereFilter.ClauseLayout | uiHelper.go:19-96 | ordinary clauses first in member order, then at most one instructor and one title clause, then the pad exactly when the count is 1; an instructor clause precedes a title clause |
| WhereFilter.NoFuzzyMembers | uiHelper.go:11-99 | an object with no InstructorFullName or TitleShortDesc member sends no reference query and builds to the padded ordinary clauses |
| WhereFilter.PlainClauses | uiHelper.go:19-34 | members on ordinary keys whose string values are already trimmed and not blank give one clause each, unchanged, in member order |
| WhereFilter.TwoFieldsNoPadding | uiHelper.go:19-96 | {"Subject":"CS","CourseNumber":"272"} gives the two clauses and no padding |
| WhereFilter.LoneTitleIsPadded | uiHelper.go:64-96 | a lone title resolved to "Software Development" gives that clause followed by {"Section":"999"} |
| ToolHelpers.QueryDb | uiHelper.go:101-134 | sends one query with text "." and at most 50 results under the filter; a store error gives ""; otherwise the text is the projection of the hits |
| ToolHelpers.ProjectHitList | uiHelper.go:120-131 | the inner loop over one hit list appends, in order, each document that decodes, re-encoded without its vector field, to what the earlier lists gave |
| ToolHelpers.FlattenAt | uiHelper.go:119-120 | hits are flattened outer list first, each inner list in its own order |
| ToolHelpers.ProjectedDocuments | uiHelper.go:121-130 | every projected document is a decodable hit without its "vector" field and with every other field kept; undecodable hits are skipped; when all decode, each is projected in place |
| ToolHelpers.NothingRetrievedGivesEmptyText | uiHelper.go:118-133 | no decodable hit, in particular no hit, gives the empty text |
| ToolHelpers.EmailProfessor | uiHelper.go:136-158 | undecodable arguments, a missing "email" and an unsupported platform are each reported exactly in their case; a non-string email panics; otherwise the command is rundll32 or open with "mailto:" + email last |
| Dialogue.ToolReplyFor | ui.go:59-79 | an email_instructor call always gets the fixed confirmation unless it panics; a get_relevant_courses call is skipped exactly when the filter fails, else gets preamble + query text + invitation; any other name gets "" |
| Dialogue.HandleToolCall | ui.go:59-79 | calling the builder, the query and the mail helper gives the reply ToolReplyFor specifies |
| Dialogue.Session.constructor | ui.go:18 | the dialogue starts as the system turn alone |
| Dialogue.Session.HandleQuestion | ui.go:24-108 | the new dialogue, the outcome and the requests sent are those of Step for the old dialogue |
| Dialogue.Session.AnswerToolCalls | ui.go:55-87 | the dialogue grows by exactly the tool turns of Dispatch, and the loop stops exactly when a call crashes |
| Dialogue.Session.Run | ui.go:23-109 | the scanner loop ends in the state and outcomes of RunAll |
| Dialogue.DispatchAppend | ui.go:55-87 | dispatching a + b is dispatching a, then b unless a crashed |
| Dialogue.CrashIsFinal | ui.go:61-65 | after a crashing call no later call is handled |
| Dialogue.SkippedCallIsInvisible | ui.go:67-71 | a skipped call is a get_relevant_courses call, and the calls after it are handled as if it had not been made |
| Dialogue.DispatchAnswersInOrder | ui.go:55-86 | each tool turn has role tool and the call's name and id, at most one per call, in call order |
| Dialogue.DispatchAnswersAll | ui.go:80-86 | when every call is answered, turn i answers call i with that call's reply |
| Dialogue.StepAppends | ui.go:25-40 | "q" leaves the dialogue alone and sends nothing; any other line appends one user turn, carried by the first request; the old dialogue is a prefix of the new one |
| Dialogue.StepWithoutTools | ui.go:41-52 | a transport error ends the loop and zero choices continue it, each with one turn added; a reply without tool calls adds exactly two turns and is shown |
| Dialogue.StepWithTools | ui.go:54-103 | the reply and its tool turns are appended in call order; unless a call crashed, exactly one follow-up request carries that dialogue; its content is shown exactly when it has one choice, and is never appended; otherwise the loop ends |
| Dialogue.RunAppendsAndStops | ui.go:23-109 | over a run the dialogue only grows, lines are handled in order, and the loop stops right after the first line that ends it |
| Dialogue.EmailCallConfirmed | ui.go:61-65 | {"email":"x@y.edu"} on macOS launches open mailto:x@y.edu and gets the fixed confirmation |
| Dialogue.EmptyResultStillInvites | ui.go:75-78 | an empty query result still gives a tool turn holding the preamble and the invitation to call another tool |
| Courses.CourseOf | course.go:66-88 | fields 0..20 of a record land in the 21 course fields by position |
| Courses.CourseOfFields | course.go:9-31 | reading a course back from its fields gives the same course |
| Courses.ReadCoursesFromCsv | course.go:38-93 | the row loop ends in the outcome ReadCourses specifies: courses, an error, or the panic |
| Courses.ConvertAppend | course.go:60-90 | the rows are converted one after another: the courses of a + b are those of a then b, and a panic in either is a panic of the whole |
| Courses.ConvertKeeps | course.go:59-90 | a row is kept exactly when it is as wide as the header; the loop panics exactly when a kept row has fewer than 21 fields, and otherwise yields one course per kept row, in order |
| Courses.WideHeaderNeverPanics | course.go:62-88 | with a header of at least 21 columns the reader never panics |
| Courses.ReadCoursesOutcome | course.go:38-93 | unopenable, empty and malformed files give their own errors; otherwise the header is consumed and each data row as wide as it becomes the course read from it |
| Database.MetadataShape | db.go:210-226 | every metadata map has exactly the 15 keys; InstructorFullName is first + " " + last; TitleShortDesc is the title; CRN is the CRN |
| Database.DistinctFirstSeen | db.go:236-249 | de-duplication keeps every element exactly once, in the order of first occurrence |
| Database.Remember | db.go:237-241 | a name is listed once, when the set does not yet hold it, and the set stays the listed names |
| Database.CollectDocuments | db.go:201-250 | one document, metadata map and id (the CRN) per course in course order; the instructor and subject lists are the de-duplicated full names and titles, and the id lists equal them |
| Database.ParseCsvIntoDatabase | db.go:182-314 | the collected documents, and the batch ranges of each of the three Add loops |
| Database.IngestedInstructors | db.go:236-241 | every course's instructor full name is listed, and every listed name belongs to a course |
| Database.IngestedSubjects | db.go:244-249 | every course title is listed, and every listed title belongs to a course |
| Database.Batches | db.go:253-258 | the loop header visits exactly the ranges [500k, min(500k + 500, n)) |
| Database.BatchRangesPartition | db.go:253-310 | the batches partition 0..n in order, each holding 1 to 500 indices, and index j lies in batch j / 500 |
| Database.BatchesCoverInOrder | db.go:254-270 | sending the batches one after another sends every element exactly once, in order |
| Database.IsNotFoundError | db.go:316-321 | false for no error; otherwise true exactly when the message contains "does not exist" |
| Database.MissingCollectionIsNotFound | db.go:316-321 | a "collection ... does not exist" message is recognised as not found |
| Database.Db.constructor | db.go:111-122 | the handle holds the client state and the three collection outcomes |
| Database.Db.DeleteCollections | db.go:126-147 | with no client: an error before any deletion; otherwise the three collections are deleted in order, not-found errors are ignored, and the first other error is returned at once |
| Database.Db.CreateCollections | db.go:150-179 | with no client or no embedding function: an error, no create call and nothing changed; otherwise the creates attempted are courses, instructors, subjects in that order up to and including the first failure, which is returned; each created collection is stored and the later fields stay untouched |

## Left out

- Language-model completions, the stdin scanner and all printing (ui.go:13-23, 34-40, 90-96, 107-108): completions and user lines are inputs (`Exchange`). A request records only the dialogue it carries, not the model identifier or the tool definitions.
- Chroma client creation, the embedding function and the collection calls (db.go:60-123, 155-176, 260-310; uiHelper.go:41-48, 68-75, 103-110): these are network services. The answers of get, create, delete and query are parameters. The `Add` calls are represented by the batch ranges they would be given.
- `log.Fatalf` paths: a CSV read error or a marshalling error in `parseCSVIntoDatabase`, a failed `Add`, `Start`, `initializeDB` and main.go. These end the process during set-up.
- `Start` and main.go's `-delete` flag (main.go:10-13, db.go:28-57): the order delete, create, parse under the flag is not modelled as one operation; each of the three steps is.
- `exec.Command`/`cmd.Start` and the `runtime.GOOS` lookup (uiHelper.go:150-161): only the platform decision and the command line are modelled. The start error is ignored by ui.go anyway.
- JSON decoding and encoding (`json.Unmarshal`, `json.Marshal`, `MarshalIndent` formatting) are parameters. A decoded object is a sequence of members with distinct keys, in the order Go's `range` visits the map. Go leaves that order unspecified, so the model takes it as given.
- CSV file opening and `encoding/csv` parsing (course.go:39-57): the file is given as its records and whether a syntax error follows them.
- tool.go: static schema declarations. Only its 15 property names are reused, as the metadata key set.
- ui_test.go and main_test.go: they need live services and a model-judged comparison.
- Strings are sequences of Unicode code points, so `TrimSpace` works on code points. Go works on UTF-8 bytes; for valid UTF-8 the two agree. Invalid byte sequences are not modelled.
- ToolHelpers.QueryDb: deleting the `vector` key updates the decoded map in place in Go. The model removes it from a map value.
- Database.MetadataShape: states the key set and the values of the CRN, InstructorFullName and TitleShortDesc keys only. The other eleven values are given by `MetadataOf`'s definition: each holds the course field of the same name.
