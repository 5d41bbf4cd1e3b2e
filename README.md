# HSE form engine: a Dafny model

This project models the core of the HSE Mobile data-collection app. The app is template driven:
- a **template** is a titled, ordered list of typed **fields**;
- filling a template produces a **submission** that refers to the template by id and stores one value per field id;
- the history view exports submissions as CSV, in one of two shapes;
- templates come from four built-in seeds or from an AI assistant, whose reply is normalised into a stored template.

The model has eight modules:

| file | module | models |
|---|---|---|
| wrappers.dfy | `Wrappers` | `Option` and `Result` |
| text.dfy | `Text` | the JavaScript string operations the core uses: `Number.prototype.toString` on non-negative integers, `join`, `startsWith` and `trim` (with the ECMAScript set of white space and line terminators); `Split` and `ParseDecimal` are their inverses, defined only to state round-trip lemmas |
| seqs.dfy | `Seqs` | `Array.prototype.filter` |
| schema.dfy | `Schema` | types.ts: the `FieldType` enumeration and its tokens, `FormField`, `FormTemplate`, `FormSubmission`, and a `Value` type for submission data; also `templates.find` by id |
| form_fill.dfy | `FormFill` | components/FormFillView.tsx: the class `FormSession`, with the fields `formData` and `errors` and one method per handler; validation is specified by `ValidationErrors` and `FailingIds` |
| export.dfy | `Export` | components/SubmissionsView.tsx: `getTemplateTitle`, `formatValue`, the scope filter, the wide and long table shapes, and the CSV text |
| store.dfy | `Store` | App.tsx: the seed templates, the seeding condition, and the class `AppState`, whose `seq` fields are replaced by the add and delete actions |
| ai_builder.dfy | `AiBuilder` | components/AIBuilderView.tsx: the prompt guard, `Normalize` (defaults and fresh field ids), and the class `Builder`, which models the loading and error state of `handleGenerate` |

Notes on the data model:
- `FormField.kind` holds the raw `type` string. An AI template may carry any token there, and `Kind()` parses it into `FieldType`.
- `FormField.caption` is the source's `label`; `label` is a reserved word in Dafny.
- `Value` is `Absent | Str | Arr | Bool`, where `Absent` is `undefined`. `Falsy` is JavaScript truthiness: every array is truthy, even the empty one.

Environment inputs are parameters:
- the clock `Date.now()` is `now`;
- `toLocaleString` is a function `formatTime: nat -> string`;
- the `confirm()` answer is `confirmed`;
- the generator's reply is a `Result<GeneratedForm>`;
- the data URI read by `FileReader` is `dataUri`.

## Model

| member | source | states |
|---|---|---|
| Schema.Token | types.ts:2-11 | each type's stored token is a non-empty lower-case word; `ParseToken` and `TokensDistinct` show the map is invertible |
| Schema.ParseFieldType | types.ts:2-11 | a parsed token is the token of the type it yields |
| Schema.ParseToken | types.ts:2-11 | parsing the token of every one of the eight types gives that type back |
| Schema.TokensDistinct | types.ts:2-11 | the eight tokens are pairwise distinct |
| Schema.Lookup | types.ts:33 | data is keyed by field id; a present key reads as its stored value, a key that is not there as `undefined` |
| Schema.LookupAfterWrite | components/FormFillView.tsx:16-17 | after a write the written key reads as the new value and every other key as before |
| Schema.FindTemplate | components/SubmissionsView.tsx:14 | `find` by id: None exactly when no template has the id, otherwise the first template with that id |
| Text.NatToString | components/FormFillView.tsx:69 | the decimal text of a clock reading is non-empty and all digits |
| Text.ParseNatToString | components/FormFillView.tsx:69 | the decimal text reads back as the same number |
| Text.NatToStringInjective | components/AIBuilderView.tsx:24 | different numbers have different decimal texts |
| Text.SplitJoin | components/SubmissionsView.tsx:44 | `split` inverts `join` when no part contains the separator's first character |
| Text.SplitGlue | components/SubmissionsView.tsx:44 | splitting a separator-free head glued to a rest extends the rest's first part |
| Text.JoinAvoids | components/SubmissionsView.tsx:44 | joining parts and a separator free of a character gives text free of it |
| Text.TrimStartEmpty | components/AIBuilderView.tsx:16 | the leading trim is empty exactly when the text is all white space |
| Text.TrimEndEmpty | components/AIBuilderView.tsx:16 | the trailing trim is empty exactly when the text is all white space |
| Text.TrimEndKeepsNonWhitespace | components/AIBuilderView.tsx:16 | the trailing trim of a text that is not all white space is not all white space |
| Text.TrimEmptyIff | components/AIBuilderView.tsx:16 | a prompt is blank after `trim` exactly when it is all white space |
| Seqs.Filter | App.tsx:122-123 | the result keeps exactly the elements that pass the test, each taken from the input, and is no longer than the input |
| Seqs.FilterCount | App.tsx:157 | each passing value keeps its number of occurrences; each failing value has none |
| Seqs.FilterConcat | components/SubmissionsView.tsx:26 | filtering is applied segment by segment and keeps input order |
| Seqs.FilterAll | components/SubmissionsView.tsx:26 | when every element passes, the filter changes nothing |
| FormFill.IsUnanswered | components/FormFillView.tsx:54 | the submit-time test: undefined, the empty string, `false` and the empty array are unanswered; a non-empty array or string and `true` are answered |
| FormFill.ValidationErrors | components/FormFillView.tsx:51-57 | the error keys are exactly the ids of required fields whose value is undefined, falsy or an empty array, and each message is 'Wajib diisi' |
| FormFill.FailingIds | components/FormFillView.tsx:53-57 | the failing ids in template order hold exactly the ids of failing required fields |
| FormFill.FirstFailingField | components/FormFillView.tsx:59-62 | the first error id is that of the first failing field in template order; every field before it passes |
| FormFill.RejectedIffSomeRequiredUnanswered | components/FormFillView.tsx:59 | an attempt fails exactly when some required field is unanswered, which is exactly when the error record is non-empty |
| FormFill.Spread | components/FormFillView.tsx:29 | spreading a string gives its characters in order, one per entry |
| FormFill.ToggleOption | components/FormFillView.tsx:26-32 | the next selection throws exactly for `true` and, on uncheck, for a non-empty string; a check ends with the option, an uncheck leaves no copy of it (see also `CheckAppends`, `UncheckFilters`) |
| FormFill.CheckAppends | components/FormFillView.tsx:26-29 | checking appends the option once at the end; an absent value counts as the empty list |
| FormFill.UncheckRemovesAll | components/FormFillView.tsx:30-31 | unchecking removes every occurrence of the option and keeps the count of every other option |
| FormFill.UncheckFilters | components/FormFillView.tsx:30-31 | unchecking an array value keeps exactly the entries different from the option, in order |
| FormFill.RemoveAppended | components/FormFillView.tsx:28-31 | filtering out an option appended to a list that lacks it gives the list back |
| FormFill.CheckThenUncheck | components/FormFillView.tsx:28-33 | checking an unselected option and then unchecking it restores the original list exactly |
| FormFill.MissingUnaffected | components/FormFillView.tsx:16-17 | writing one key does not change whether any other field is a missing required field |
| FormFill.FormSession.constructor | components/FormFillView.tsx:12-13 | a session starts with empty values and no errors |
| FormFill.FormSession.HandleChange | components/FormFillView.tsx:16-23 | sets that key and keeps every other key; removes that field's error only; every remaining error still names an unanswered required field |
| FormFill.FormSession.HandleMultiCheckboxChange | components/FormFillView.tsx:25-34 | stores the toggled list as a change of that field; a toggle that throws changes nothing |
| FormFill.FormSession.HandleFileLoaded | components/FormFillView.tsx:40-42 | the data URI read is stored as the field's string value, as a change |
| FormFill.FormSession.HandleSubmit | components/FormFillView.tsx:49-76 | validates in field order; rejects exactly when some required field fails, then replaces the error record wholesale and reports the first failing id; otherwise keeps the errors and emits one submission with id `now` as text, the template's id, the whole working record and timestamp `now` |
| Export.FirstMatchIsFound | components/SubmissionsView.tsx:14 | `find` returns the template at the first index carrying the id |
| Export.TemplateTitle | components/SubmissionsView.tsx:14 | the first matching template's title when it is non-empty; 'Unknown Form' when no template matches or the first match's title is empty |
| Export.FormatValue | components/SubmissionsView.tsx:16-21 | lists joined with "; ", booleans as Ya/Tidak, `data:image` strings as '[Photo Attached]', other strings unchanged, undefined as ""; only a list can format to a `data:image` string |
| Export.FormatListRoundTrip | components/SubmissionsView.tsx:17 | a formatted non-empty list whose options contain no ';' splits back into those options |
| Export.Quote | components/SubmissionsView.tsx:40-41 | a cell is wrapped in double quotes with its contents unchanged |
| Export.TargetSubmissions | components/SubmissionsView.tsx:24-26 | scope 'all' keeps every submission; any other scope keeps exactly those with that form id, each as often as it occurs |
| Export.TargetConcat | components/SubmissionsView.tsx:70-72 | the scope filter works segment by segment, so kept submissions stay in their order |
| Export.Labels | components/SubmissionsView.tsx:36 | one label per field, in field order |
| Export.WideRow | components/SubmissionsView.tsx:37-43 | a quoted formatted timestamp, then one quoted formatted value per field, in field order |
| Export.WideTable | components/SubmissionsView.tsx:36-44 | 1 + \|subs\| rows: an unquoted header of "Timestamp" and the labels, then one row of 1 + \|fields\| quoted cells per submission |
| Export.LongRowsOf | components/SubmissionsView.tsx:48-55 | an orphan submission gives no rows; otherwise one 4-cell quoted row of timestamp, title, label and value per field, in field order |
| Export.LongRows | components/SubmissionsView.tsx:47-56 | one 4-cell quoted row per (resolved submission, field) pair |
| Export.LongRowsSingle | components/SubmissionsView.tsx:47-56 | the rows of one submission are its `LongRowsOf` rows |
| Export.LongRowsConcat | components/SubmissionsView.tsx:47-56 | the rows of consecutive runs of submissions are concatenated in submission order, as `flatMap` does |
| Export.OrphansSkipped | components/SubmissionsView.tsx:50-55 | exporting only the resolvable submissions gives the same long rows |
| Export.Render | components/SubmissionsView.tsx:44 | the CSV text of a non-empty table with plain cells splits at line breaks into exactly its comma-joined rows (see also `RenderLines`, `CsvRoundTrip`) |
| Export.RenderLines | components/SubmissionsView.tsx:44 | one comma-joined line per row |
| Export.CsvRoundTrip | components/SubmissionsView.tsx:44 | with no escaping, the CSV text splits back into its table when no cell contains ',' or a line break |
| Export.ExportTable | components/SubmissionsView.tsx:23-58 | no output exactly when the target set is empty or a single scope names no template; otherwise the wide table of the single template, or the long header followed by the long rows |
| Export.ExportToCsv | components/SubmissionsView.tsx:23-58 | the CSV text is the rendered export table, and there is none exactly when there is no table |
| Store.SeedTemplates | App.tsx:25-91 | four seed templates, tpl-inspection, tpl-briefing, tpl-incident and tpl-punishment, with 8, 6, 12 and 7 fields, created at `now`, `now-1000`, `now-2000` and `now-3000` |
| Store.SeedIdsDistinct | App.tsx:27-77 | the four seed templates have distinct ids |
| Store.BuildersWellFormed | App.tsx:32-88 | a plain field of an option-less type, or a choice field with a non-empty option list, is well formed |
| Store.InspectionShaped | App.tsx:31-40 | the inspection fields have distinct ids, known types and non-empty option lists |
| Store.BriefingShaped | App.tsx:47-54 | the briefing fields have distinct ids and known types; there are no choice fields, so the option condition holds trivially |
| Store.IncidentShaped | App.tsx:61-74 | the incident fields have distinct ids, known types and non-empty option lists |
| Store.IncidentIdsUnique | App.tsx:62-73 | the twelve incident field ids are distinct |
| Store.PunishmentShaped | App.tsx:81-89 | the punishment fields have distinct ids and known types; there are no choice fields, so the option condition holds trivially |
| Store.SeedFieldsWellFormed | App.tsx:25-91 | in every seed template, field ids are unique, types are among the eight, and every select and multi-checkbox field has options |
| Store.InitialTemplates | App.tsx:22-25 | the saved list when it is present and non-empty, the seeds otherwise; never empty |
| Store.CascadeKeepsResolution | App.tsx:120-124 | a cascading template delete leaves no submission without its template |
| Store.DeleteSubmissionKeepsResolution | App.tsx:157 | deleting submissions leaves no submission without its template |
| Store.AppState.Load | App.tsx:18-96 | start-up loads the saved submissions, and the saved templates or the seeds |
| Store.AppState.AddTemplate | App.tsx:108-111 | templates become `[t] + old`, submissions are unchanged, the home tab shows, and no orphan is created |
| Store.AppState.StartFill | App.tsx:127-130 | selects the template and starts filling; nothing else changes |
| Store.AppState.CancelFill | App.tsx:139-150 | stops filling; nothing else changes |
| Store.AppState.AddSubmission | App.tsx:113-118 | submissions become `[s] + old`, filling ends, the selection clears and the history tab shows |
| Store.AppState.DeleteTemplate | App.tsx:120-125 | if confirmed, removes exactly the templates with that id and every submission referring to it, keeping the order of the rest; if declined, changes nothing |
| Store.AppState.DeleteSubmission | App.tsx:157 | removes exactly the submissions with that id and keeps templates unchanged |
| AiBuilder.OrDefault | components/AIBuilderView.tsx:25-26 | a missing or empty value gives the fallback; otherwise the value itself |
| AiBuilder.DashAfterDigits | components/AIBuilderView.tsx:30 | in `f-{digits}-{rest}` the first '-' after the prefix ends the digits |
| AiBuilder.FieldIdInjective | components/AIBuilderView.tsx:30 | two ids `f-{idx}-{now}` are equal only for equal positions, whatever the clock readings |
| AiBuilder.Normalize | components/AIBuilderView.tsx:23-32 | id and createdAt come from `now`; title and description are defaulted; fields are kept in order with every attribute except the new id `f-{idx}-{now}`; missing fields become []; field ids are pairwise distinct |
| AiBuilder.TypeTokensCopied | components/AIBuilderView.tsx:28-31 | each field keeps its `type` token unchecked |
| AiBuilder.Builder.constructor | components/AIBuilderView.tsx:11-13 | empty prompt, not loading, no error |
| AiBuilder.Builder.SetPrompt | components/AIBuilderView.tsx:11 | sets the prompt only |
| AiBuilder.Builder.Generate | components/AIBuilderView.tsx:15-41 | a blank prompt returns at once with no change; otherwise a reply yields the normalised template for `onAdd` and clears the error, a failure sets 'Could not generate form. Please try again.' and adds nothing, and loading ends either way |

## Left out

- `localStorage` reads and writes and JSON (de)serialisation in App.tsx are I/O. The saved collections are parameters of `Store.AppState.Load`. The write-back rule that skips an empty template list is not modelled.
- The generator service call and its JSON parsing are a network call. Its outcome is the `reply` parameter of `AiBuilder.Builder.Generate`.
- components/HomeView.tsx (the install prompt and `getIcon`) covers platform events and presentation.
- All JSX rendering and styling, the `filePreviews` map, the tab buttons and the scroll to the first error are presentation.
- The asynchronous `FileReader` read is not modelled. Only its completion is, as `FormFill.FormSession.HandleFileLoaded`.
- The Blob, URL and anchor download and the download file name are not modelled; the export ends at the CSV text.
- `AiBuilder.Builder.Generate`: the intermediate `loading = true` while the reply is awaited is set and cleared within the one method. No observer sees it, because concurrency is not modelled.
- `FormFill.FormSession.HandleSubmit`: the source takes the first error id from `Object.keys`, which lists integer-like keys (such as "10") before all others. The model reports the first failing field in template order, which is the same for every id that is not an integer-like string.
- `FormFill.FormSession.HandleSubmit`, `AiBuilder.Normalize`, `Store.SeedTemplates`: the source reads `Date.now()` separately for the id, the timestamp, each field id and each seed's creation time. The model uses one reading `now` per handler. `AiBuilder.FieldIdInjective` shows that the field ids stay distinct even when the readings differ.
- `AiBuilder.Normalize`: reply fields are assumed to be records. A `fields` value that is not an array throws inside `map`, or spreads oddly, and is not modelled. The select and multi-checkbox option invariant is proved for the seed templates only, because the source does not enforce it for AI templates.
- The field `type` string of an AI field is copied unchecked; the model follows the code (`AiBuilder.TypeTokensCopied`).
- `Text.NatToString`: clock readings are non-negative integers. Fractional or negative numbers are not modelled.
- CSV cells are not escaped, as in the source. `Export.CsvRoundTrip` states the condition under which the text still parses back.
- A scope that is the literal "all" always means every submission, even when a template has the id "all". This is kept as in the source.
- A `Bool` value never arises from the form controls, but it is modelled because `formatValue` handles it.
