# Vishwakarma project store, data migration and browser state, in Dafny

Vishwakarma is a Django application in which a small business drafts
"projects". For each project the user:

1. chooses one of two project types ("Grow a Business", "New Market Entry");
2. names and describes the project;
3. answers five questions.

After each answer the page shows a fixed analysis entry with a chart.
Projects live in one table behind two JSON endpoints:

- the collection endpoint lists and creates;
- the detail endpoint retrieves, merge-patches and deletes.

A data migration fills every row's analysis content with the same
five-entry analysis list. The single-page browser application does four
things:

- keeps the questionnaire's state;
- gates the statistics tab behind API keys, which it displays masked;
- builds chart configurations and the charts snapshot that is stored with a new project;
- keeps a local copy of the project list, which it filters when a project is deleted.

The Dafny project has one module per concern:

- `Wrappers`: `Option` and `Result`.
- `Text`: whitespace trimming, repetition, and decimal digits. Python's `str.strip` and JavaScript's `trim` remove different whitespace, so a trim names its runtime.
- `JsonValues`: JSON values. An object is a member list in insertion order. The module also carries the Python semantics the views rely on: `dict.get`, truthiness, `str()` and `list()`.
- `Models`: the `Project` and `ApiKeys` records, the type domain, defaults, the ISO date form and `__str__`.
- `Views`: the project store, a class holding a map from id to row and the next id. Create and update are specified by functions on the parsed payload. A method reproduces the view's step-by-step assignments and is proved equal to that specification.
- `Migration`: the row-by-row loop that fills the analysis content, proved equal to a whole-table update.
- `FrontEnd`: the analysis and statistics data, `maskKey`, `getChartConfig`, `buildChartsSnapshot`, the removal filter, and the `App` class, whose methods update the questionnaire, the key gate and the project list in place.
- `CreateFlow`: the creation body the browser posts, read by the server's POST handler. The two sides disagree on one point: a name made of U+001F passes the browser's blank check and is refused by the server.

On these points the model follows the code:

- A serialized project has no `analysis_content` key.
- Neither create nor update reads `analysis_content` from the payload.
- The error messages are the views' own: `'name' is required`, `'type' must be one of the allowed choices`, and so on.
- `questions_answered` can be set directly by an update, and a value supplied this way wins over the one derived from supplied answers.
- An update is all-or-nothing. The view assigns fields on an in-memory copy, and `save()` is reached only after every check has passed.
- A create with a `charts` that is not an object stores `{}`.
- An update whose `charts` is not an object is refused with 400.
- The model carries a `description` column because the views read and write one, even though the model declaration in `models.py` has none.

## Model

| member | source | states |
|---|---|---|
| Text.Trim | vishwakarma/artisan/views.py:37 | the result has none of the runtime's whitespace at either end, is no longer than the input, and is empty exactly when the input is all whitespace; Python's whitespace adds U+001C to U+001F and U+0085 to the shared set, JavaScript's adds U+FEFF |
| Text.TrimFindsInfix | vishwakarma/artisan/views.py:37 | trimming a string made of whitespace, a non-empty trimmed middle, and whitespace gives exactly that middle |
| Text.TrimOfTrimmed | vishwakarma/artisan/views.py:83 | trimming a string with no whitespace at its ends returns it unchanged |
| Text.TrimIdempotent | vishwakarma/artisan/views.py:83 | trimming twice is the same as trimming once |
| Text.FixedDigitsRoundTrip | vishwakarma/artisan/views.py:18 | the zero-padded decimal digits of a number that fits in the width read back as that number |
| JsonValues.GetFindsLastMember | vishwakarma/artisan/views.py:74-80 | a key lookup finds nothing exactly when no member has the key; otherwise it returns the value of the last member with that key |
| JsonValues.ArgFindsLastMember | vishwakarma/artisan/views.py:74-80 | `payload.get(key)` is null when no member has the key, and otherwise the value of the last member that has it |
| JsonValues.GetUnique | vishwakarma/artisan/views.py:37-41 | a key that occurs once is looked up to its own member's value |
| JsonValues.ArgOfSingleMember | vishwakarma/artisan/views.py:74-80 | in a one-member payload, `get` returns that member's value for its key and nothing (null) for every other key |
| JsonValues.KeysListsEachKeyOnce | vishwakarma/artisan/views.py:91 | `list()` of an object lists exactly the object's keys, each once, in the order of their first members |
| JsonValues.Keys | vishwakarma/artisan/views.py:91 | `list()` of an object is no longer than its member list, and is empty exactly when the object is |
| JsonValues.Truthy | vishwakarma/artisan/views.py:37-41 | `bool(v)` is false exactly for `None`, `False`, `0`, `""`, `[]` and `{}` |
| JsonValues.PyStrOfInteger | vishwakarma/artisan/views.py:83 | `str()` of an integer is a minus sign exactly when it is negative, then decimal digits with no leading zero (except for 0) that read back as its magnitude |
| Text.NatToStringRoundTrip | vishwakarma/artisan/views.py:83 | the decimal text of a natural number reads back as the number and starts with '0' only for zero |
| JsonValues.AsList | vishwakarma/artisan/views.py:91 | `list()` fails exactly on numbers and booleans; it returns an array's own items, a string's one-character strings in order, and an object's keys in first-insertion order (pinned down by `JsonValues.KeysListsEachKeyOnce`) |
| JsonValues.AsListKeepsTruthiness | vishwakarma/artisan/views.py:91-92 | the list `list(v)` produces is non-empty exactly when `v` is truthy |
| Models.Label | vishwakarma/artisan/models.py:5-13 | each type label is non-empty and fits the 32-character type column |
| Models.ParseType | vishwakarma/artisan/views.py:45 | the membership test raises exactly for lists and objects, which cannot be hashed |
| Models.ParseTypeExactlyLabels | vishwakarma/artisan/models.py:5-10 | a payload value is accepted as a type if and only if it is one of the two label strings |
| Models.ParseTypeRefusesOthers | vishwakarma/artisan/views.py:45-46 | any value other than the two labels, a missing one included, is not accepted as a type |
| Models.IsoFormat | vishwakarma/artisan/views.py:18 | `isoformat()` is ten characters, with dashes at positions 4 and 7 |
| Models.IsoFormatRoundTrip | vishwakarma/artisan/views.py:18 | parsing a date's `YYYY-MM-DD` form gives back the date |
| Views.CreateWithDefaults | vishwakarma/artisan/models.py:14-18 | a POST with only a usable name and a type label stores the model's defaults: `questions_answered` false, answers `[]`, charts `{}`, no analysis content, an empty description, today's date and the stripped name |
| Models.Display | vishwakarma/artisan/models.py:23-24 | the string form is the name, then " (", then the type label, then ")" |
| Models.DisplayDeterminesKind | vishwakarma/artisan/models.py:23-24 | two projects whose names have the same length and whose string forms agree have the same name and type |
| Views.ProjectToDict | vishwakarma/artisan/views.py:12-22 | a serialized row has the eight keys id, name, type, description, created_date, questions_answered, answers and charts, in order, and no `analysis_content` |
| Views.ProjectToDictLookups | vishwakarma/artisan/views.py:12-22 | each key of a serialized row reads back the field it was written from |
| Views.ProjectDictRoundTrip | vishwakarma/artisan/views.py:12-22 | reading a serialized row back gives the row, once its analysis content is supplied; serialization loses nothing else |
| Views.ProjectToDictInjective | vishwakarma/artisan/views.py:12-22 | two rows serialize alike if and only if they differ at most in their analysis content |
| Views.Serialize | vishwakarma/artisan/views.py:28 | the listing serializes each row in place, one entry per row |
| Views.RowsBelowExactlyOnce | vishwakarma/artisan/models.py:20-21 | the table's listing has every stored row exactly once, in strictly descending id order, and nothing else |
| Views.RowsBelowSound | vishwakarma/artisan/views.py:28 | every listed row is the stored row under its own id |
| Views.RowsBelowDescending | vishwakarma/artisan/models.py:20-21 | listed ids strictly decrease |
| Views.RowsBelowBounded | vishwakarma/artisan/views.py:28 | every listed row has an id below the bound |
| Views.RowsBelowComplete | vishwakarma/artisan/views.py:28 | every stored row below the bound is listed |
| Views.DescriptionText | vishwakarma/artisan/views.py:39 | a falsy description is stored as "" and a string description is stored as given |
| Views.CreateRejectsBlankName | vishwakarma/artisan/views.py:37-44 | a missing, empty or all-whitespace name gives 400 `'name' is required` whatever the type, because the name is checked first |
| Views.CreateResult | vishwakarma/artisan/views.py:37-55 | a created row has the given id, today's date, a non-empty stripped name and no analysis content; a refusal is a 400 reply or a 500 |
| Views.CreateRejectsUnknownType | vishwakarma/artisan/views.py:38-46 | with a usable name, any type other than the two labels (a missing one included) gives 400, or 500 when it is a list or an object |
| Views.CreateSucceedsIff | vishwakarma/artisan/views.py:37-46 | a create succeeds if and only if the name is a non-blank string and the type is one of the two labels |
| Views.CreatedRecordFields | vishwakarma/artisan/views.py:48-55 | a created row has the trimmed, non-empty name, the given type, today's date, `questions_answered` equal to whether the answers are non-empty, the supplied charts object or `{}`, the description as `value or ''`, the answers as `answers or []`, and no analysis content |
| Views.PatchRefusalIgnoresRow | vishwakarma/artisan/views.py:69-106 | whether an update is refused, and with which response, depends on the body only, never on the stored row |
| Views.PatchEmptyIsIdentity | vishwakarma/artisan/views.py:70-108 | an update with an empty body or `{}` leaves the row unchanged |
| Views.PatchKeepsAbsentFields | vishwakarma/artisan/views.py:74-106 | merge-patch frame: every field whose key is absent or null keeps its value, and the id and analysis content never change |
| Views.PatchQuestionsAnswered | vishwakarma/artisan/views.py:90-101 | supplied answers set `questions_answered` to whether they are non-empty, unless `questions_answered` is supplied too, which is applied later and wins; a supplied list is stored as given |
| Views.PatchResult | vishwakarma/artisan/views.py:74-106 | an updated row keeps its id and analysis content; a refusal is a 400 reply or a 500; `Views.PatchAppliesSuppliedFields` and `Views.PatchKeepsAbsentFields` give the stored fields |
| Views.PatchAppliesSuppliedFields | vishwakarma/artisan/views.py:82-106 | every supplied non-null field is stored: the stripped `str()` of the name, the given type label, the description as `value or ''`, the `charts` object, the parsed `created_date`, and the answers as `list(answers)` |
| Views.ReadSingleName | vishwakarma/artisan/views.py:74-80 | a payload holding only a name supplies that name and no other field |
| Views.PatchNameOnly | vishwakarma/artisan/views.py:82-83 | a name-only update stores the trimmed name and changes nothing else; unlike create, it accepts an all-whitespace name and stores "" |
| Views.PatchIdempotent | vishwakarma/artisan/views.py:74-108 | applying an accepted update a second time gives the same row |
| Views.PatchRejectsNonObjectCharts | vishwakarma/artisan/views.py:93-98 | a supplied `charts` that is not an object refuses the whole update, and once the type and answers have passed the reply is 400 `'charts' must be an object` |
| Views.BuildRecord | vishwakarma/artisan/views.py:37-55 | the view's sequence of reads, checks and assignments for a POST yields exactly the specified create result |
| Views.ApplyFields | vishwakarma/artisan/views.py:82-106 | the view's field-by-field assignments for a PUT/PATCH, which stop at the first failing check, yield exactly the specified merge-patch result, and the id is kept |
| Views.ApplyTrackingFields | vishwakarma/artisan/views.py:93-106 | the charts, `questions_answered` and date assignments yield the first failing check's refusal, or the row with those fields applied |
| Views.ProjectStore.constructor | vishwakarma/artisan/models.py:4-21 | the table starts empty and valid, and the first id is 1 |
| Views.ProjectStore.Ordered | vishwakarma/artisan/models.py:20-21 | `Project.objects.all()` is the specified listing of all rows, newest first |
| Views.ProjectStore.List | vishwakarma/artisan/views.py:27-29 | GET on the collection replies 200 with `results`, holding every row serialized, newest first |
| Views.ProjectStore.Create | vishwakarma/artisan/views.py:31-56 | POST inserts the specified row under the fresh id and replies 201 with it serialized, and the next id advances by one; a refusal leaves the table and the counter unchanged |
| Views.ProjectStore.Insert | vishwakarma/artisan/views.py:48-55 | `objects.create` adds exactly one row, under the next id, and advances the counter |
| Views.ProjectStore.Save | vishwakarma/artisan/views.py:108 | `save()` replaces the stored row with that id and nothing else |
| Views.ProjectStore.Retrieve | vishwakarma/artisan/views.py:65-66 | GET on an existing row replies 200 with the row serialized |
| Views.ProjectStore.Update | vishwakarma/artisan/views.py:68-109 | PUT/PATCH stores the specified merge-patched row and replies 200 with it; every refusal replies with its error and leaves the table untouched |
| Views.ProjectStore.Delete | vishwakarma/artisan/views.py:111-113 | DELETE removes exactly that row and replies 200 `{"success": true}` |
| Views.ProjectStore.ApiProjects | vishwakarma/artisan/views.py:26-58 | GET lists, POST creates, and any other method is refused with 405 "Method not allowed", with the table unchanged |
| Views.ProjectStore.ApiProjectDetail | vishwakarma/artisan/views.py:62-115 | an unknown id gives 404 for every method, before the method is looked at; otherwise GET retrieves, PUT/PATCH update, DELETE deletes, and anything else is 405 with the table unchanged |
| Views.ProjectStore.DeleteThenRequest | vishwakarma/artisan/views.py:63-113 | after a delete, any request on the same id is a 404 |
| Migration.FilledFrame | vishwakarma/artisan/migrations/0006_fill_analysis_content.py:57-59 | the filled table has the same ids; every row has the new analysis content and keeps every other field |
| Migration.FilledIdempotent | vishwakarma/artisan/migrations/0006_fill_analysis_content.py:57-59 | running the migration twice gives the same table as running it once |
| Migration.FilledKeyedById | vishwakarma/artisan/migrations/0006_fill_analysis_content.py:57-59 | the filled table still stores each row under its own id |
| Migration.FilledOnAll | vishwakarma/artisan/migrations/0006_fill_analysis_content.py:57-59 | once every row has been visited, the partly filled table is the filled table |
| Migration.VisitedAll | vishwakarma/artisan/migrations/0006_fill_analysis_content.py:57 | visiting every row that `objects.all()` lists visits every row of the table |
| Migration.SetAnalysisContent | vishwakarma/artisan/migrations/0006_fill_analysis_content.py:57-59 | the loop over all rows, saving each with the new content, leaves exactly the filled table, with the id counter untouched |
| Migration.FillRow | vishwakarma/artisan/migrations/0006_fill_analysis_content.py:58-59 | one turn of the loop adds that row to the filled part of the table |
| Migration.FillAnalysisContent | vishwakarma/artisan/migrations/0006_fill_analysis_content.py:3-59 | after the migration every row's analysis content is the fixed five-entry list and nothing else changed |
| Migration.AnalysisContentIsFrontEndData | vishwakarma/artisan/migrations/0006_fill_analysis_content.py:5-56 | the migration's list has one entry per entry of the browser's `analysisData`, and each entry is that entry written as JSON |
| FrontEnd.Last | vishwakarma/artisan/static/artisan/app.js:947-948 | `slice(-n)` is the last `n` characters, or the whole key when it is shorter |
| FrontEnd.MaskKey | vishwakarma/artisan/static/artisan/app.js:946-949 | a key of at most six characters is masked to the same length: asterisks, then its last two characters; a longer key becomes nine characters, its first three, "***" and its last three |
| FrontEnd.MaskDependsOnlyOnEnds | vishwakarma/artisan/static/artisan/app.js:946-949 | the mask reveals nothing but the key's length and ends: same-length keys that agree on the shown characters are masked alike |
| FrontEnd.ChartConfigFor | vishwakarma/artisan/static/artisan/app.js:965-997 | one dataset holding the entry's values; colours are its own or else the five base colours; a legend exactly for pie and doughnut charts; a zero-based y axis exactly for charts other than pie, doughnut and radar; no fill exactly for line charts |
| FrontEnd.LegendExcludesAxis | vishwakarma/artisan/static/artisan/app.js:985-992 | no chart has both a legend and a y axis |
| FrontEnd.AnalysisChartConfigs | vishwakarma/artisan/static/artisan/app.js:965-997 | of the five analysis charts, only the pie chart has a legend and no axis, only the line charts are unfilled, and each uses its own colours |
| FrontEnd.AnalysisChartTypes | vishwakarma/artisan/static/artisan/app.js:20-79 | there are five questions and five analysis entries, with chart types pie, bar, line, bar, line |
| FrontEnd.SnapshotEntries | vishwakarma/artisan/static/artisan/app.js:569-575 | the snapshot has one entry per analysis item, in the same order |
| FrontEnd.StatisticsSnapshotOmitsProductsAndCampaigns | vishwakarma/artisan/static/artisan/app.js:577-602 | product lines and campaigns are not part of the statistics snapshot |
| FrontEnd.SnapshotCopiesEachItem | vishwakarma/artisan/static/artisan/app.js:567-605 | the snapshot's `analysis` list has one entry per item, and each entry's title, chart type, labels and values read back unchanged, and `colors` reads back the item's colours or null |
| FrontEnd.ChartsSnapshot | vishwakarma/artisan/static/artisan/app.js:567-605 | the snapshot has exactly the keys `analysis` and `statistics`, holding the analysis entries' snapshots and the statistics' snapshot |
| FrontEnd.OptionalMember | vishwakarma/artisan/static/artisan/app.js:535-541 | an unset draft field puts nothing in the body, so every key then reads as absent; a set one is found under its own key and no other |
| FrontEnd.CreatePayload | vishwakarma/artisan/static/artisan/app.js:535-541 | each key of the creation body reads back what the browser put under it: the drafted name, type and description, or null when unset, the answers and the charts |
| FrontEnd.RemoveId | vishwakarma/artisan/static/artisan/app.js:1151 | the filtered list is never longer than the loaded one |
| FrontEnd.RemoveIdMembers | vishwakarma/artisan/static/artisan/app.js:1151 | the filter keeps exactly the entries that do not have the id |
| FrontEnd.RemoveIdConcat | vishwakarma/artisan/static/artisan/app.js:1151 | the filter keeps the surviving entries in their order: it distributes over concatenation |
| FrontEnd.RemoveIdIdempotent | vishwakarma/artisan/static/artisan/app.js:1151 | filtering again removes nothing more |
| FrontEnd.RemoveIdShrinks | vishwakarma/artisan/static/artisan/app.js:1151 | the list gets shorter exactly when some entry has the id |
| FrontEnd.App.constructor | vishwakarma/artisan/static/artisan/app.js:6-18 | the application starts at the first question, with no answers, an empty draft, the gate closed, no custom keys, no projects and no open project |
| FrontEnd.App.ReceiveProjects | vishwakarma/artisan/static/artisan/app.js:139 | the loaded list is the server's `results`, or empty when there are none |
| FrontEnd.App.ChooseType | vishwakarma/artisan/static/artisan/app.js:399-402 | picking a type records it in the draft and changes nothing else |
| FrontEnd.App.StartQuestions | vishwakarma/artisan/static/artisan/app.js:413-441 | a blank name is refused and nothing changes; otherwise the trimmed name and description are drafted, and the questionnaire restarts at question 0 with no answers and the submit button showing |
| FrontEnd.App.SubmitAnswer | vishwakarma/artisan/static/artisan/app.js:466-493 | a blank answer is refused and nothing changes; otherwise the trimmed answer is appended, and "create" is offered exactly at the last question and "next" before it |
| FrontEnd.App.NextQuestion | vishwakarma/artisan/static/artisan/app.js:521-524 | the question index goes up by exactly one and the submit button shows again |
| FrontEnd.App.ResetCreationFlow | vishwakarma/artisan/static/artisan/app.js:607-632 | back to question 0 with no answers, an empty draft and the submit button |
| FrontEnd.App.SaveApiKeys | vishwakarma/artisan/static/artisan/app.js:895-913 | the gate opens if and only if at least one of the three trimmed keys is non-empty or a custom key exists; otherwise nothing changes |
| FrontEnd.App.AddCustomApiKey | vishwakarma/artisan/static/artisan/app.js:924-930 | a blank input adds nothing; otherwise the trimmed key is appended |
| FrontEnd.App.FindProject | vishwakarma/artisan/static/artisan/app.js:1124 | `find` returns the first loaded entry with the id, or nothing exactly when no entry has it |
| FrontEnd.App.OpenProject | vishwakarma/artisan/static/artisan/app.js:641-649 | the open project is the first loaded entry with the id, and there is none exactly when no loaded entry has it |
| FrontEnd.App.DeleteProject | vishwakarma/artisan/static/artisan/app.js:1120-1156 | nothing changes when no loaded entry has the id, the user does not confirm, or the server refuses; otherwise exactly the entries with the id leave the list, in order, and the open project is closed if it was the deleted one |
| FrontEnd.ProvidedCount | vishwakarma/artisan/static/artisan/app.js:903-908 | at least one key is counted exactly when one of the three fields is not blank or a custom key exists |
| FrontEnd.CreateOfferedAfterAllAnswers | vishwakarma/artisan/static/artisan/app.js:486-490 | once "create" is offered, every question has an answer |
| CreateFlow.ReadBrowserPayload | vishwakarma/artisan/views.py:37-41 | the server reads back every field the browser put in the creation body, and an unset draft field as null |
| CreateFlow.StringArgsAccepted | vishwakarma/artisan/views.py:37-55 | a name that is not blank to Python and a type label create a row with the stripped name, the type, the description or "", the answers, `questions_answered` set exactly when an answer exists, and the charts |
| CreateFlow.BrowserCreationSucceedsIff | vishwakarma/artisan/static/artisan/app.js:533-541 | the body the questionnaire posts is accepted exactly when the drafted name is not blank to Python and the drafted type is one of the two labels |
| CreateFlow.BrowserCreationAccepted | vishwakarma/artisan/static/artisan/app.js:533-541 | an accepted creation body stores the stripped name, the drafted type and description ("" when unset), the answers, `questions_answered` set exactly when an answer exists, and the snapshot |
| CreateFlow.UnitSeparatorNameRefused | vishwakarma/artisan/views.py:37-44 | a name made of U+001F survives JavaScript's `trim()`, yet the POST refuses it with 400 `'name' is required` |

## Left out

- Django plumbing is not modelled: `JsonResponse`, `csrf_exempt`, URL routing (`urls.py`), the admin configuration (`admin.py`), the `home` view and template rendering. Database persistence becomes a `map` from id to row plus an id counter.
- The request body is modelled as already decoded: absent, not JSON, or a JSON value. Byte decoding is not modelled.
- Payloads that Python would crash on are modelled as a 500 response, not excluded by a precondition. These are:
  - a body that is valid JSON but not an object;
  - a truthy name that is not a string, on create;
  - a list or object `type`;
  - `list()` of a number or boolean;
  - `parse_date` raising.
- `django.utils.dateparse.parse_date` is not modelled. It is a parameter returning a date, no match, or an exception.
- The clock behind `created_date` is not modelled; today's date is a parameter.
- Python's `str()` of a list or dict (its `repr`) is a parameter. Integers, strings, booleans and null are converted exactly.
- JSON numbers are integers only. `json.loads` gives a float for `1.5`, and what the views make of a float is not modelled: `str()` of it as a description, `bool()` of it as `questions_answered`, and the 500 from `list()` of it as answers.
- Stored charts keep the members exactly as parsed, duplicates included. Python's `dict` keeps only the last member for a repeated key; the two agree under every key lookup and key listing, but not as raw member lists.
- The exact semantics of `dict(charts)` are not modelled. In the model, an update accepts exactly JSON objects; Python would also accept a list of pairs or an empty sequence.
- The whitespace sets are those of current Unicode. Python's `str.isspace()` and JavaScript's `trim()` follow the Unicode version of the runtime in use.
- Column widths are not enforced (255 for the name, 32 for the type, 128 for each API key). The model proves that both type labels fit the type column and that a fresh key row fits its columns.
- Browser work is not modelled: the DOM, `fetch`, Chart.js rendering (`createChart`, `createStatisticsCharts`), `setTimeout`, `alert`/`confirm`, event binding, the chat and voice features, `Math.random` and locale date formatting. Confirmation and the server's answer to a delete are parameters of `DeleteProject`.
- Which questionnaire button is visible is modelled as a state field. `SubmitAnswer` and `NextQuestion` require the state in which their button is shown, because a hidden button cannot be clicked.
- The values of the project-type radio buttons live in the page template, which is not part of this model. `CreateFlow.BrowserCreationAccepted` therefore takes a drafted type that is one of the two labels as its premise.
- FrontEnd.MaskKey: counts characters, while JavaScript's `length` and `slice(-n)` count UTF-16 code units. A key with a character outside the Basic Multilingual Plane is therefore masked differently in the browser.
- FrontEnd.Last: counts characters where `slice(-n)` counts UTF-16 code units, as for `FrontEnd.MaskKey`.
- Views.ProjectStore.Create: the reply serializes the stored description, `str(v)` for a truthy non-string `v`. The view replies with the raw value, because the instance it serializes still holds it.
- Views.ProjectStore.Update: the reply likewise serializes the stored `str(v)` description where the view replies with the raw value still held by the instance.
- The radar chart's fractional values (`app.js` lines 1072 and 1077) are not modelled; chart data are integers.
- `saveApiKeys` never stores the key values it reads, and neither does the model. The `ApiKeys` row is only a record type here.
- The AI-generation, chatbot and random-statistics endpoints are not part of this model.
- The analysis texts are defined once and shared by the browser data and the migration's list, so that the two can be proved equal. In the sources they are two identical copies.
