# QP_gen question-paper generator, modelled in Dafny

QP_gen builds examination question papers from a bank of questions. A
spreadsheet upload replaces the questions of one subject code. A web form then
asks the server for a paper: for short and for long questions it gives either
a total count or per-unit counts, optionally spread across Bloom's-taxonomy
(BT) levels. The server checks the request, splits it into buckets, draws a
random sample of matching questions per bucket, keeps at most the bucket's
count, and numbers the result.

The model has six modules:

- `Wrappers` (`wrappers.dfy`): the `Option` type (`None` also stands for `NaN`).
- `JsValues` (`js_values.dfy`): the JavaScript conversions the code relies on:
  `parseInt` without a radix, `Number` of a string, `String` of an integer, and
  `parseInt(x) || 0`, with the round trips between them.
- `QuestionStore` (`question_store.dfy`): the question record, the match
  query, and the question collection as a class over a sequence of records. Its
  methods stand for `aggregate` with `$sample`, `findOne`, `deleteMany` and
  `insertMany`. The sampler is an oracle: all it promises is at most `size`
  matching records of the collection.
- `GenerateController` (`generate_controller.dfy`): `validateConfig`, the
  bucket plan of `getRandomQuestionsWithConstraints` (`Draws`, one `Draw` per
  `getQuestions` call), the imperative selection loops (`SelectLevels`,
  `SelectUnit`, `SelectUnits`, `SelectQuestions`), the required-field check, and
  the `generatePaper` handler.
- `UploadController` (`upload_controller.dfy`): row-to-record conversion and
  the delete-then-insert replacement done by `uploadQuestions`.
- `GeneratePaperForm` (`generate_paper_form.dfy`): the form's state slots as a
  class with one method per handler, the `config` it submits, `getUniqueValues`
  and the subject drop-down filter.

The selection methods are proved against `Draws`. Each one yields a
`Selection`: one contribution per bucket, each at most the bucket's count, all
taken from the collection and matching the bucket's query. Lemmas then say how
much each mode asks for and what every query contains.

`Math.round(btCount / totalBtCount * unitCount)` is modelled as exact
round-half-up. Because each share is rounded separately, the shares of a unit
add up to the unit's count only within half the number of BT levels
(`UnitSplitSum`). `SplitOvershoots` gives a concrete case: one question over
two equally weighted levels becomes two.

## Model

| member | source | states |
|---|---|---|
| JsValues.ParseInt | backend/controllers/generateController.js:10-19 | `parseInt` is `NaN` unless the text, past leading white space, starts with a digit or a sign, and a negative result needs a minus sign |
| JsValues.StringToNumberOfBlank | frontend/src/components/GeneratePaper.jsx:329 | `Number` of blank text (the empty text included) is 0, as `StringToNumber` reads it |
| JsValues.StringToNumberSign | frontend/src/components/GeneratePaper.jsx:329 | a negative `Number` of a text needs a minus sign right after its leading white space |
| JsValues.IntToString | backend/controllers/uploadController.js:20-29 | `String(n)` starts with a minus sign exactly for a negative `n`, and every other character is a decimal digit |
| JsValues.ParseIntOfDecimal | backend/controllers/uploadController.js:25 | `parseInt` reads the decimal text of an integer back as that integer, also when what follows is neither a digit nor `x`/`X` (exactly, in the model's integers; see "## Left out" for numbers beyond 2^53) |
| JsValues.ParseIntOfWord | backend/controllers/uploadController.js:25 | `parseInt` of text that starts with a lower-case letter (`"undefined"`, `"true"`, `"false"`) is `NaN` |
| JsValues.StringToNumberOfDecimal | frontend/src/components/GeneratePaper.jsx:329 | `Number(String(n))` is `n` for every integer of the model (exact; see "## Left out" for numbers beyond 2^53) |
| JsValues.NatToStringValue | backend/controllers/generateController.js:107 | the decimal digits written for a count denote that count |
| QuestionStore.Matches | backend/controllers/generateController.js:5-23 | a query with a `NaN` semester, unit or BT-level condition matches no document, and a matching document has a non-empty text of the requested kind |
| QuestionStore.WithoutSubject | backend/controllers/uploadController.js:36 | after deleting a subject code, exactly the records of other codes remain, and their number is the old number minus the records of that code |
| QuestionStore.WithoutSubjectCounts | backend/controllers/uploadController.js:36 | every record of another code is kept as many times as it was stored, and none of the deleted code |
| QuestionStore.WithoutAbsentSubject | backend/controllers/uploadController.js:36 | deleting a code that no record carries changes nothing |
| QuestionStore.WithoutSubjectSnoc | backend/controllers/uploadController.js:36 | `filter` keeps a record appended after others exactly when its code is not the deleted one, after the kept earlier records |
| QuestionStore.WithoutSubjectAppend | backend/controllers/uploadController.js:36-38 | deleting a code from two runs of records deletes it from each run, so the kept records stay in their order |
| QuestionStore.WithoutSubjectEmpty | backend/controllers/uploadController.js:36 | deleting a code leaves nothing exactly when every record carries it |
| QuestionStore.Store.Sample | backend/controllers/generateController.js:22-25 | the `$sample` oracle: refused exactly for a negative size; otherwise at most `size` records, each in the collection and matching the query |
| QuestionStore.Store.FindBySubjectCode | backend/controllers/generateController.js:171-174 | finds a record exactly when one with the code exists, and the record found carries that code |
| QuestionStore.Store.DeleteBySubjectCode | backend/controllers/uploadController.js:36 | the collection becomes the old one without that subject code |
| QuestionStore.Store.InsertMany | backend/controllers/uploadController.js:38 | the new records follow the old ones |
| GenerateController.PositiveSumOfNonNegative | backend/controllers/generateController.js:39-42 | with no negative count, the sum of the positive counts is the sum; it is at least 0, and above 0 when some count is positive |
| GenerateController.ValidateConfig | backend/controllers/generateController.js:99-129 | passes exactly when, with BT levels on, the BT counts add up to the total count (total mode) or to the unit counts' sum (unit-wise mode); with BT levels off it always passes; each error carries its mode, the kind and the sums it reports |
| GenerateController.ValidatePaperConfig | backend/controllers/generateController.js:154-155 | passes exactly when both kinds pass; an error is short questions' exactly when they fail, and it is the error `validateConfig` throws for that kind |
| GenerateController.TotalMessageReports | backend/controllers/generateController.js:106-108 | a total-count error's message starts with the total count, which reads back with `parseInt`, and ends with the kind |
| GenerateController.UnitMessageReports | backend/controllers/generateController.js:123-125 | a unit-wise error's message starts with the unit counts' sum, which reads back with `parseInt`, and ends with the kind |
| GenerateController.ShareBounds | backend/controllers/generateController.js:46-48 | `Share` is the integer nearest to btCount × unitCount / total, with halves rounded up |
| GenerateController.ShareNonNegative | backend/controllers/generateController.js:46-48 | with non-negative counts and a positive total, no share is negative |
| GenerateController.SplitNonNegative | backend/controllers/generateController.js:44-49 | every entry of `unitBtCounts` is non-negative when the counts are |
| GenerateController.SplitWithSum | backend/controllers/generateController.js:44-49 | the shares `SplitWith` computes add up to within half a question per BT level of the exact proportional amount |
| GenerateController.UnitSplitSum | backend/controllers/generateController.js:38-49 | the shares of a unit (`UnitSplit`, the `unitBtCounts` object) add up to the unit's count, give or take half the number of BT levels |
| GenerateController.SplitOvershoots | backend/controllers/generateController.js:44-49 | one question over two equally weighted BT levels becomes one question per level, two in all |
| GenerateController.BaseOf | backend/controllers/generateController.js:5-16 | every query of a request carries its subject, branch, regulation and year unchanged; the semester condition is the `parseInt` value of the semester, or `NaN`; with a unit given, the unit condition is its `parseInt` value, or `NaN`; with none, there is no unit condition |
| GenerateController.QueryMatches | backend/controllers/generateController.js:3-23 | a stored question matches a bucket's query (`Query`) exactly when it has the request's subject code, branch, regulation and year, the `parseInt` value of its semester, a non-empty text of the kind, and the bucket's unit and BT-level values |
| GenerateController.SampleSize | backend/controllers/generateController.js:24 | `count || 100`: the `$sample` size is never 0; it is 100 for a zero count and the count itself otherwise, a negative count included (which `$sample` then refuses) |
| GenerateController.Take | backend/controllers/generateController.js:60 | `slice(0, n)` keeps the first `min(n, length)` results, in order |
| GenerateController.LevelDrawsRequested | backend/controllers/generateController.js:51-61 | the BT-level buckets (`LevelDraws`) skip counts of zero or less and ask for the sum of the positive counts |
| GenerateController.LevelDrawsShape | backend/controllers/generateController.js:74-84 | every BT-level bucket comes from a positive entry and queries its level with its count as sample size |
| GenerateController.DrawShape | backend/controllers/generateController.js:3-24 | every query of the buckets (`Draws`) holds the request's subject, branch, regulation, year, parsed semester and kind; the unit is the request's in total mode and a positive unit's in unit-wise mode; a BT level only when BT levels are on; size is the count, or 100 for 0 |
| GenerateController.UnitDrawsShape | backend/controllers/generateController.js:31-71 | every unit-wise bucket (`UnitDraws`) has a positive count, its unit's condition, and a BT level exactly when BT levels are on |
| GenerateController.UnitDrawShape | backend/controllers/generateController.js:33-70 | the buckets of one unit: positive counts equal to their sample size, the unit's condition, and one of the BT levels exactly when BT levels are on |
| GenerateController.SplitsKeyed | backend/controllers/generateController.js:44-49 | each unit's table of shares has the BT levels' keys, in their order |
| GenerateController.SelectionBound | backend/controllers/generateController.js:60 | the appended selection holds no more questions than the buckets ask for, each a stored question matching its bucket's query |
| GenerateController.SelectionExtend | backend/controllers/generateController.js:60 | pushing an admissible contribution for one more bucket extends the selection, and its questions follow the earlier ones |
| GenerateController.SelectionAppend | backend/controllers/generateController.js:51-61 | the selection for a unit's BT-level buckets, pushed after an earlier selection, extends it by all those buckets, questions in order |
| GenerateController.TakePicked | backend/controllers/generateController.js:54-60 | cutting a sample of matching stored questions to a bucket's count gives a contribution that bucket allows |
| GenerateController.SelectLevel | backend/controllers/generateController.js:51-61 | the `k`-th BT level: skipped when its count is not positive; otherwise sampled with its count and cut to it, so that the selection covers exactly the buckets of the first `k + 1` levels, the new one last |
| GenerateController.SelectLevels | backend/controllers/generateController.js:74-84 | the loop over BT levels yields a selection for exactly the BT-level buckets, in order |
| GenerateController.SelectUnit | backend/controllers/generateController.js:33-70 | one unit: skipped when its count is not positive; otherwise its shares are computed in a loop and drawn per level, or the unit is drawn as one bucket |
| GenerateController.SelectUnits | backend/controllers/generateController.js:31-71 | the loop over units extends the selection by every unit's buckets, in order |
| GenerateController.SelectQuestions | backend/controllers/generateController.js:28-97 | the questions are one admissible selection for the request's buckets, appended in order; the only failure is a negative total count in total mode without BT levels |
| GenerateController.ValidatedSplitDefined | backend/controllers/generateController.js:39-48 | after validation, with no negative count, the split never divides by a zero BT total |
| GenerateController.TotalModeRequested | backend/controllers/generateController.js:73-93 | in total mode a validated request with no negative count asks for exactly the total count, with or without BT levels |
| GenerateController.UnitWiseRequested | backend/controllers/generateController.js:62-70 | in unit-wise mode without BT levels the buckets ask for the sum of the positive unit counts |
| GenerateController.UnitDrawsRequested | backend/controllers/generateController.js:32-70 | the same, for the first n units |
| GenerateController.UnitDrawRequested | backend/controllers/generateController.js:62-69 | without BT levels a unit asks for its count when it is positive and for nothing otherwise |
| GenerateController.UnitWiseBtRequested | backend/controllers/generateController.js:37-61 | in unit-wise mode with BT levels a validated request with no negative count asks for the unit counts' sum, give or take half a question per BT level per unit |
| GenerateController.UnitDrawsBtRequested | backend/controllers/generateController.js:32-61 | the same bound, for the first n units |
| GenerateController.UnitDrawBtRequested | backend/controllers/generateController.js:37-61 | the same bound, for one unit |
| GenerateController.SplitsNear | backend/controllers/generateController.js:37-49 | for a validated request with no negative count, the shares of every positive unit add up to its count within half a question per BT level |
| GenerateController.UnitSharesNear | backend/controllers/generateController.js:44-49 | the same bound for the shares of one unit |
| GenerateController.MissingAmong | backend/controllers/generateController.js:145 | the missing fields among the first n required ones, in list order |
| GenerateController.MissingPositions | backend/controllers/generateController.js:137-147 | exactly the missing required fields, ascending; when none is missing the config is present |
| GenerateController.NothingMissing | backend/controllers/generateController.js:137-147 | none are missing exactly when subject, branch, regulation, year, semester and config are all given (unit is optional) |
| GenerateController.JoinLength | backend/controllers/generateController.js:149 | `join` keeps every part and puts one separator between neighbours: the length is the parts' lengths plus one separator per gap |
| GenerateController.JoinEnds | backend/controllers/generateController.js:149 | the joined text starts with the first part and ends with the last |
| GenerateController.MissingFields | backend/controllers/generateController.js:145-150 | the names of the missing fields, in the fixed order |
| GenerateController.AnswersFromBound | backend/controllers/generateController.js:187-198 | the numbered answers (`NumberAnswers`) run 1..n, each with a non-empty question, and there are no more of them than the buckets ask for |
| GenerateController.PaperBound | backend/controllers/generateController.js:176-198 | a paper's `totalQuestions` is short plus long answers, at most what both kinds ask for; both lists are numbered from 1 |
| GenerateController.GeneratePaper | backend/controllers/generateController.js:131-208 | 400 exactly when a required field is missing, naming them; then the first validation error; then a database error exactly for a negative total sample; then "Subject not found" exactly when no question of the subject is stored; otherwise a paper built from the request as `PaperFrom` describes |
| UploadController.TextColumn | backend/controllers/uploadController.js:20-29 | an absent or falsy cell becomes empty text; text is kept; a non-zero number becomes its decimal text, which `parseInt` reads back as the number; `true` becomes `"true"` |
| UploadController.IntColumn | backend/controllers/uploadController.js:25-31 | a number cell keeps its value; a text cell gives its `parseInt` value, or 0 for `NaN`; an absent or boolean cell gives 0 |
| UploadController.ToQuestion | backend/controllers/uploadController.js:19-32 | a record's subject code and question texts are empty exactly when their cells are absent or falsy; number cells for semester, unit and BT level are kept as they are |
| UploadController.ToQuestions | backend/controllers/uploadController.js:19-32 | exactly one record per row, in row order |
| UploadController.ReplacedContents | backend/controllers/uploadController.js:34-38 | after `Replaced`, the records of the first row's code are gone; every record of another code stays as many times as before, even when later rows carry that code; each new record is added once more; the new records come last, in order |
| UploadController.ReplacedTwice | backend/controllers/uploadController.js:34-38 | a second upload of the same rows stores again the rows whose code differs from the first row's |
| UploadController.ReplacedIdempotent | backend/controllers/uploadController.js:34-38 | uploading the same rows twice gives the store one upload gives exactly when all rows share the first row's code |
| UploadController.UploadQuestions | backend/controllers/uploadController.js:4-43 | no file or an empty sheet is refused with its message and leaves the store alone; otherwise the store is replaced as above and the response counts the rows |
| GeneratePaperForm.UpdateCount | frontend/src/components/GeneratePaper.jsx:101-103 | only entries with the matching key take the new count; length, keys and all other entries stay |
| GeneratePaperForm.ToCountMap | frontend/src/components/GeneratePaper.jsx:132-141 | the map holds exactly the entries whose count is positive |
| GeneratePaperForm.ToCountMapOrdered | frontend/src/components/GeneratePaper.jsx:147-156 | from a list with ascending keys the map's keys ascend and its counts are positive |
| GeneratePaperForm.UpdateThenMap | frontend/src/components/GeneratePaper.jsx:107-114 | after setting a key's count the map holds it when positive, drops it otherwise, and is unchanged at every other key |
| GeneratePaperForm.PerKind.Set | frontend/src/components/GeneratePaper.jsx:77-82 | `{ ...prev, [type]: v }` changes that kind's value and keeps the other kind's |
| GeneratePaperForm.BuildTypeConfig | frontend/src/components/GeneratePaper.jsx:127-158 | `useUnitWise` is true exactly for mode `'unitWise'`; the maps hold exactly the positive entries, ascending by key; no count is negative |
| GeneratePaperForm.PaperForm.constructor | frontend/src/components/GeneratePaper.jsx:6-48 | empty filters, total mode, BT levels off, BT levels 1..4 and units 1..5 all with count 0 |
| GeneratePaperForm.PaperForm.SetFilter | frontend/src/components/GeneratePaper.jsx:70-75 | only the named filter changes |
| GeneratePaperForm.PaperForm.SetMode | frontend/src/components/GeneratePaper.jsx:77-82 | only that kind's mode changes |
| GeneratePaperForm.PaperForm.ToggleBtLevels | frontend/src/components/GeneratePaper.jsx:84-89 | only that kind's BT switch flips |
| GeneratePaperForm.PaperForm.SetTotalCount | frontend/src/components/GeneratePaper.jsx:91-96 | only that kind's total changes, to the `parseInt` value of the text, or 0 for `NaN` |
| GeneratePaperForm.PaperForm.SetBtLevelCount | frontend/src/components/GeneratePaper.jsx:98-105 | only the matching level of that kind changes, to the `parseInt` value of the text, or 0 for `NaN`; the levels stay 1..4 |
| GeneratePaperForm.PaperForm.SetUnitCount | frontend/src/components/GeneratePaper.jsx:107-114 | only the matching unit of that kind changes, to the `parseInt` value of the text, or 0 for `NaN`; the units stay 1..5 |
| GeneratePaperForm.PaperForm.Config | frontend/src/components/GeneratePaper.jsx:127-158 | the submitted `config` is built per kind from the current state |
| GeneratePaperForm.PaperForm.Request | frontend/src/components/GeneratePaper.jsx:161-164 | the body is the filters plus `config`, with no negative map count, so the server never divides by a zero BT total |
| GeneratePaperForm.Flatten | frontend/src/components/GeneratePaper.jsx:117 | exactly the values of the field across all subjects, arrays flattened |
| GeneratePaperForm.Dedupe | frontend/src/components/GeneratePaper.jsx:118 | each value of the input exactly once |
| GeneratePaperForm.TextCompare | frontend/src/components/GeneratePaper.jsx:119 | the comparison is -1, 0 or 1, and 0 exactly for equal texts |
| GeneratePaperForm.CompareOrder | frontend/src/components/GeneratePaper.jsx:119 | two numbers compare by value; text that is not a number compares by `localeCompare` with the other value's text, equal exactly for equal texts; a number against such text compares as equal |
| GeneratePaperForm.Insert | frontend/src/components/GeneratePaper.jsx:119 | inserting adds exactly the one value, and keeps every other value with its multiplicity |
| GeneratePaperForm.InsertBy | frontend/src/components/GeneratePaper.jsx:119 | inserting by any comparator adds exactly the one value and keeps every other value with its multiplicity; `Insert` is this with the comparator of the sort |
| GeneratePaperForm.SortValues | frontend/src/components/GeneratePaper.jsx:119 | sorting rearranges the values; their order is stated by `SortAscending` (numbers) and `SortTextual` (texts) |
| GeneratePaperForm.InsertAscending | frontend/src/components/GeneratePaper.jsx:119 | inserting a number into numbers that ascend keeps them ascending |
| GeneratePaperForm.SortAscending | frontend/src/components/GeneratePaper.jsx:119 | numbers come out in ascending numeric order |
| GeneratePaperForm.TextCompareFlip | frontend/src/components/GeneratePaper.jsx:119 | swapping the texts negates `localeCompare` |
| GeneratePaperForm.TextCompareTrans | frontend/src/components/GeneratePaper.jsx:119 | the `localeCompare` order is transitive |
| GeneratePaperForm.CompareTextPreorder | frontend/src/components/GeneratePaper.jsx:119 | on texts that are not numbers the sort's comparator orders any two values, transitively |
| GeneratePaperForm.InsertBySorted | frontend/src/components/GeneratePaper.jsx:119 | inserting by a comparator that totally orders the values keeps a sorted list sorted |
| GeneratePaperForm.SortTextual | frontend/src/components/GeneratePaper.jsx:119 | texts that are not numbers come out in `localeCompare` order |
| GeneratePaperForm.DistinctTextAscending | frontend/src/components/GeneratePaper.jsx:118-119 | sorted texts, each present once, ascend strictly |
| GeneratePaperForm.UniqueValues | frontend/src/components/GeneratePaper.jsx:116-120 | every value of the field exactly once; ascending by number when all of them are numbers, and in strictly ascending `localeCompare` order when none of them is |
| GeneratePaperForm.UnfilteredOffersAll | frontend/src/components/GeneratePaper.jsx:324-330 | with no branch, regulation, year or semester chosen, every subject is offered (`SubjectVisible`) |
| GeneratePaperForm.ClearedFilterKeepsSubject | frontend/src/components/GeneratePaper.jsx:324-330 | clearing any one filter field never hides a subject, and the subject and unit fields play no part |
| GeneratePaperForm.OfferedChoicesKeepSubject | frontend/src/components/GeneratePaper.jsx:324-330 | choosing a subject's own branch, regulation, one of its years and one of its semesters, as the drop-downs render them, keeps it offered |

## Left out

- QuestionStore.Store.Sample: promises only at most `size` matching stored records. Randomness, uniformity and freedom from duplicates of `$sample` are not modelled. The body returns the first matches, which is one admissible answer.
- GenerateController.GeneratePaper: requires that no BT-level or unit count is negative. With negative counts the BT total can be 0 while a unit count is positive, and the split then divides by zero: a non-zero BT count gives an infinite share, and a zero one gives `NaN`. The web form sends only positive map counts (`GeneratePaperForm.PaperForm.Request`).
- GenerateController.SelectQuestions, GenerateController.UnitSplit and GenerateController.Draws: require the same absence of a zero BT total (`SplitDefined`), for the same reason.
- GenerateController.ShareBounds: exact rational rounding. Floating-point error of `Math.round` over a float quotient near one half is not modelled.
- GenerateController.GeneratePaper: any database error other than a refused negative sample size, and the database's own error text (`DatabaseError`).
- GenerateController.GeneratePaper: request fields that are not text (a numeric `semester`, say), and a `config` that lacks one of the two kinds (a `TypeError` answered with status 500).
- The filters of a request are read once (`BaseOf`); `getQuestions` repeats the same `parseInt` of the semester and unit on every call, which gives the same conditions.
- Count maps are sequences of integer keys in `Object.entries` order. Non-integer keys, fractional counts and the merging of duplicate keys are not modelled.
- UploadController.UploadQuestions: assumes `insertMany` succeeds. The schema's required-field validation, which can reject records with empty text after the delete has already run, is not modelled, and neither is the status 500 answer to it.
- Spreadsheet decoding (`xlsx.read`, `sheet_to_json`) is a library call. The model starts from the rows. A cell is an integer, a text or a boolean; fractional numbers and dates are not modelled.
- Numbers are exact unbounded integers. JavaScript numbers are IEEE doubles, which are exact only up to 2^53: a cell `"9007199254740993"` parses to 9007199254740992 there, and sums of counts and the form's `Number` values lose exactness in the same way. Double rounding beyond 2^53 is not modelled, so the round trips `JsValues.ParseIntOfDecimal` and `JsValues.StringToNumberOfDecimal` hold in JavaScript only for integers of magnitude up to 2^53.
- JsValues.IntToString: writes every digit. JavaScript's `String` switches to exponent notation from 10^21 on.
- JsValues.StringToNumber: exponent, fraction, `Infinity`, octal `0o` and binary `0b` forms of `Number` are read as `NaN`.
- GeneratePaperForm.TextCompare: `localeCompare` is modelled as code-point order. Locale collation is not modelled, and neither is the UTF-16 code-unit order JavaScript strings have, which differs from code-point order for characters above U+FFFF.
- GeneratePaperForm.SortValues: the model is a stable insertion sort. For a comparator that is not consistent (text mixed with numbers) JavaScript's result depends on the engine, and the model gives one such result.
- The form's subject list is the output of `getSubjects`. Fetching it, the loading and error slots, and `setQuestions` are I/O and are not modelled; neither is the markup.
- Express routing, the database connection, the HTTP service wrappers and the context provider are plumbing and are not modelled.
