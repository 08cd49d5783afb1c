# Offset-printer job scheduling and account lifecycle, in Dafny

This project models the scheduling core of a NestJS back end for an offset
printing line (the "Taiyo" printers), together with the account-lifecycle
rules of the same service. Every database table is an in-memory map and every
library call is a parameter. The operations and the properties the service
promises are stated as contracts and lemmas.

Modules, in dependency order:

- `Values`: JavaScript values (`Value`), `Option`, a date field as a body
  gives it (`BodyDate`: its timestamp and whether the raw value is truthy),
  and the `Platform` record.
  `Platform` holds the library functions the service calls: uuid validation,
  `new Date(...)`, `parseInt`, `Number`, `JSON.parse` and `String(...)`.
- `Failures`: the HTTP exceptions the service throws (400 with details, 409,
  404, 403, 401) and `Result`.
- `Text`: trimming, case mapping, whitespace collapsing, the key
  normalisation `trim → lower-case → each whitespace run to "_"`, decimal
  rendering, and JavaScript's `length` in UTF-16 code units.
- `Lookups`: the lookup table. It covers quantity units, work centres,
  priorities and lifecycle codes as seeded by `prisma/seed.ts`. It also
  covers `parseLookupId`/`resolveLookup` and the code/id index of the
  import path.
- `JobLifecycle`: the six job states, the five actions and their transition
  table, and the SCHEDULED gate for edit and delete.
- `Jobs`: the job record, the create and update validators that replace the
  yup schemas, and the two uniqueness invariants of the job table.
  - Work orders are unique.
  - No two jobs share a (work_center, planned_start_time) slot.
- `JobService`: `add`, `update`, `remove` and `transition` as functions from
  the job table to a result.
- `ImportRows`: key normalisation of one imported row, the field parsers
  that record row-scoped errors, lookup resolution by id or code, and the
  per-row candidate.
- `ImportPreview`: `validateJobImportRows`.
  - Rows are numbered from `rowStart`.
  - Duplicates within the file are detected; the first occurrence wins.
  - Work orders already in the store are flagged.
  - Schedule conflicts with stored jobs are flagged.
  - Rows are split into valid and invalid.
- `BatchGate`: the payload gate of `batchCreateFromJson`. It rejects a
  non-array body, non-object rows, forbidden keys and unknown keys.
- `JobBatch`: the rest of `batchCreateFromJson`.
  - The preview refuses all-or-nothing.
  - Otherwise rows are added sequentially and best-effort.
  - Per-row results are aggregated.
- `JobStore`: the class `Store`, which holds the job table and whose methods
  perform the service's state changes.
- `Dashboard`: `getDashboard`'s fold over the per-state group counts.
- `AccountPolicy`: `USERNAME_REGEX` and `PASSWORD_REGEX` as predicates,
  each proved equal to a plain statement of the policy.
- `Accounts`: account registration, expiry, the login and cookie status
  gates, password reset and lifecycle changes. These are pure functions plus
  the class `AccountStore` that applies them to the account table.

## Model

| member | source | states |
|---|---|---|
| Text.TrimStart | src/job-offset-printer-taiyo/job-offset-printer-taiyo.service.ts:442 | result is a suffix of the input, does not start with whitespace, and only whitespace was removed |
| Text.TrimEnd | src/job-offset-printer-taiyo/job-offset-printer-taiyo.service.ts:442 | result is a prefix of the input, does not end with whitespace, and only whitespace was removed |
| Text.TrimWithoutSpace | src/job-offset-printer-taiyo/job-offset-printer-taiyo.service.ts:442 | trimming a string with no whitespace leaves it unchanged |
| Text.ToLower | src/job-offset-printer-taiyo/job-offset-printer-taiyo.service.ts:442 | lower-casing keeps the length, maps each character, leaves no upper-case letter and keeps the whitespace positions |
| Text.ToUpper | src/job-offset-printer-taiyo/job-offset-printer-taiyo.service.ts:508 | upper-casing keeps the length, maps each character and leaves no lower-case letter |
| Text.ToLowerWithoutUpper | src/job-offset-printer-taiyo/job-offset-printer-taiyo.service.ts:442 | lower-casing a string without upper-case letters is the identity |
| Text.CollapseSpaces | src/job-offset-printer-taiyo/job-offset-printer-taiyo.service.ts:442 | replacing whitespace runs by "_" leaves no whitespace and never lengthens the key |
| Text.CollapseRun | src/job-offset-printer-taiyo/job-offset-printer-taiyo.service.ts:442 | text without whitespace is kept and each maximal whitespace run becomes exactly one "_": `x + w + y` collapses to `x + "_" + collapse(y)` |
| Text.CollapseKeepsNoUpper | src/job-offset-printer-taiyo/job-offset-printer-taiyo.service.ts:442 | collapsing whitespace introduces no upper-case letter |
| Text.CollapseWithoutSpace | src/job-offset-printer-taiyo/job-offset-printer-taiyo.service.ts:442 | collapsing a whitespace-free string is the identity |
| Text.NormalizeKeyShape | src/job-offset-printer-taiyo/job-offset-printer-taiyo.service.ts:442 | a normalised key has no whitespace and no upper-case letter, and a key already of that shape is its own normal form |
| Text.NormalizeKeyIdempotent | src/job-offset-printer-taiyo/job-offset-printer-taiyo.service.ts:207 | normalising a key twice gives the same result as normalising it once |
| Text.NatStr | src/job-offset-printer-taiyo/job-offset-printer-taiyo.service.ts:617 | the decimal rendering of a row number is a non-empty digit string with no leading zero |
| Text.NatStrValue | src/job-offset-printer-taiyo/job-offset-printer-taiyo.service.ts:617 | reading the rendered digits back as a decimal number gives the row number itself |
| Lookups.FindById | src/job-offset-printer-taiyo/job-offset-printer-taiyo.service.ts:347 | `findUnique` by id: a hit is a row with that id; a miss means no row has that id |
| Lookups.FindByIdUnique | src/job-offset-printer-taiyo/job-offset-printer-taiyo.service.ts:347 | with distinct ids, every stored lookup is found by its own id |
| Lookups.ResolveLookup | src/job-offset-printer-taiyo/job-offset-printer-taiyo.service.ts:345-355 | success returns a stored lookup of the requested type with the parsed id; an unparsable id gives the "valid lookup id" error; otherwise the "not found or invalid type" error |
| Lookups.ResolveLookupSucceeds | src/job-offset-printer-taiyo/job-offset-printer-taiyo.service.ts:345-355 | resolution succeeds exactly when the id parses and names a lookup of that type |
| Lookups.CodeIndexMeaning | src/job-offset-printer-taiyo/job-offset-printer-taiyo.service.ts:542-545 | every import lookup's upper-cased code is indexed, and every index entry comes from a lookup of that type and code |
| Lookups.BuildImportIndex | src/job-offset-printer-taiyo/job-offset-printer-taiyo.service.ts:525-545 | the loop builds the code map and the id set of the three import lookup types |
| JobLifecycle.StatesAreSeeded | prisma/seed.ts:43-48 | each job state's code and sort order is a seeded JOB_LIFECYCLE_STATE lookup, and codes identify states |
| JobLifecycle.StepFollowsEdges | src/job-offset-printer-taiyo/job-offset-printer-taiyo.service.ts:780-817 | an action succeeds from a state exactly along the five declared edges; any other source state fails with the action's Forbidden error |
| JobLifecycle.ClosedIsTerminal | src/job-offset-printer-taiyo/job-offset-printer-taiyo.service.ts:799-817 | no action leaves CLOSED |
| JobLifecycle.StepAdvances | src/job-offset-printer-taiyo/job-offset-printer-taiyo.service.ts:799-817 | every successful action strictly increases the state's rank and its seeded sort order |
| JobLifecycle.ReplayAdvances | src/job-offset-printer-taiyo/job-offset-printer-taiyo.service.ts:799-817 | a successful run of n actions raises the rank by at least n |
| JobLifecycle.LifecycleIsAcyclic | src/job-offset-printer-taiyo/job-offset-printer-taiyo.service.ts:799-817 | at most five actions succeed in a row from SCHEDULED, and no non-empty run returns to SCHEDULED |
| JobLifecycle.EveryStateReachable | src/job-offset-printer-taiyo/job-offset-printer-taiyo.service.ts:799-817 | every state is reachable from SCHEDULED |
| JobLifecycle.ReleaseRunScenario | src/job-offset-printer-taiyo/job-offset-printer-taiyo.service.ts:799-805 | release then run leads to RUNNING, and release from RUNNING is forbidden |
| JobLifecycle.GateClosesAfterFirstAction | src/job-offset-printer-taiyo/job-offset-printer-taiyo.service.ts:433-437 | edit and delete pass on SCHEDULED and fail after any successful action |
| Jobs.CreateErrors | src/job-offset-printer-taiyo/job-offset-printer-taiyo.service.ts:302-316 | the create validator reports nothing exactly when both codes are non-empty and at most 100 UTF-16 code units, quantity_order is absent or a whole number of at least 1 (null refused), the three references and the start time are present, and notes are absent or a string (null refused) |
| Jobs.UpdateErrors | src/job-offset-printer-taiyo/job-offset-printer-taiyo.service.ts:318-332 | the update validator reports nothing exactly when each supplied code is at most 100 UTF-16 code units, a supplied quantity_order is a whole number of at least 1 (null refused) and supplied notes are a string |
| Jobs.InsertKeepsInvariant | src/job-offset-printer-taiyo/job-offset-printer-taiyo.service.ts:368-401 | inserting a new job keeps both uniqueness invariants exactly when its work order and its slot are free |
| Jobs.ReplaceKeepsInvariant | src/job-offset-printer-taiyo/job-offset-printer-taiyo.service.ts:368-401 | replacing a job keeps both invariants exactly when its work order and slot are free among the other jobs |
| Jobs.RemoveAndRelabelKeepInvariant | src/job-offset-printer-taiyo/job-offset-printer-taiyo.service.ts:770-797 | deleting a job or changing only its state keeps the invariants |
| Jobs.NewJobDefaults | src/job-offset-printer-taiyo/job-offset-printer-taiyo.service.ts:695-708 | a new job is SCHEDULED; quantity_order defaults to 1; notes default to "-"; attribute defaults to null; supplied work order, start time and centre are kept; a release or due date is stored exactly when the body's value is truthy |
| Jobs.ApplyPatchFrame | src/job-offset-printer-taiyo/job-offset-printer-taiyo.service.ts:752-763 | a patch never changes id or state, an empty patch changes nothing, keys outside the schema are not written, patching is idempotent, and unsupplied fields stay |
| Jobs.ZeroCenterEscapesChecks | src/job-offset-printer-taiyo/job-offset-printer-taiyo.service.ts:737-739 | as written, `{work_center: 0}` skips resolution and the schedule check uses the old centre, yet centre 0 is written |
| Jobs.CenterToCheck | src/job-offset-printer-taiyo/job-offset-printer-taiyo.service.ts:736-743 | corrected: a supplied centre is resolved as a WORK_CENTER lookup and that id is the one checked; otherwise the current centre is checked |
| Jobs.ZeroStartEscapesCheck | src/job-offset-printer-taiyo/job-offset-printer-taiyo.service.ts:740-743 | as written, `{planned_start_time: 0}` on a job at (C, t), t not 0, is checked against (C, t), which passes; the job is stored at (C, 0), where another job already is |
| Jobs.CheckedIsWritten | src/job-offset-printer-taiyo/job-offset-printer-taiyo.service.ts:736-763 | corrected: the work order, centre and start time checked for uniqueness are exactly those written |
| JobService.Create | src/job-offset-printer-taiyo/job-offset-printer-taiyo.service.ts:678-713 | `add`: invalid input gives the validation error; success is a fresh, well-formed SCHEDULED job whose work order and slot were free |
| JobService.CreateSucceeds | src/job-offset-printer-taiyo/job-offset-printer-taiyo.service.ts:678-713 | `add` succeeds exactly when the input is valid, the three lookups resolve, the work order and slot are free and the id is new, and then builds the job from the input |
| JobService.CreateRefusesTaken | src/job-offset-printer-taiyo/job-offset-printer-taiyo.service.ts:690-691 | a taken work order or a taken slot makes `add` fail, and the work-order error arises only from a taken work order |
| JobService.CreateKeepsInvariant | src/job-offset-printer-taiyo/job-offset-printer-taiyo.service.ts:678-713 | storing the created job keeps the table invariant |
| JobService.ResolvePresent | src/job-offset-printer-taiyo/job-offset-printer-taiyo.service.ts:745-750 | an absent reference passes; a present one passes only if it resolves to a lookup of the type |
| JobService.Modify | src/job-offset-printer-taiyo/job-offset-printer-taiyo.service.ts:715-768 | corrected `update` (centre and start time checked whenever supplied): a body with no key at all is refused, while a body holding only keys outside the schema counts as non-empty; success needs a SCHEDULED job, and its merged work order and slot are free among the other jobs |
| JobService.ModifySucceeds | src/job-offset-printer-taiyo/job-offset-printer-taiyo.service.ts:715-768 | corrected `update` succeeds exactly when the id is a UUID, the body is valid and has at least one key (unknown keys count), the job exists and is SCHEDULED, every supplied reference resolves, and the merged job's work order and slot are free among the other jobs; it then answers the merged job |
| JobService.UnknownKeysKeepJob | src/job-offset-printer-taiyo/job-offset-printer-taiyo.service.ts:720-768 | a body of only keys outside the schema passes the schema and the empty-body check; on a SCHEDULED job of a consistent table `update` answers the job unchanged |
| JobService.ModifyWritesSupplied | src/job-offset-printer-taiyo/job-offset-printer-taiyo.service.ts:752-763 | each supplied field is written and each unsupplied field keeps its current value; a release or due date supplied as null or as a falsy value is cleared |
| JobService.ModifyKeepsInvariant | src/job-offset-printer-taiyo/job-offset-printer-taiyo.service.ts:715-768 | corrected `update`: storing the updated job keeps the table invariant |
| JobService.Delete | src/job-offset-printer-taiyo/job-offset-printer-taiyo.service.ts:770-778 | `remove` succeeds exactly for an existing SCHEDULED job with a valid id, returning it; any other state is Forbidden |
| JobService.MoveFollowsEdges | src/job-offset-printer-taiyo/job-offset-printer-taiyo.service.ts:780-797 | `transition` succeeds exactly along a lifecycle edge and changes only the state; a disallowed state gives that action's Forbidden error |
| JobService.DeleteAndMoveKeepInvariant | src/job-offset-printer-taiyo/job-offset-printer-taiyo.service.ts:770-797 | removing or transitioning keeps the table invariant |
| JobService.EditAndDeleteOnlyWhenScheduled | src/job-offset-printer-taiyo/job-offset-printer-taiyo.service.ts:433-437 | once a job has moved, both edit and delete of it fail |
| ImportRows.AllowedFieldsAreColumns | src/job-offset-printer-taiyo/job-offset-printer-taiyo.service.ts:27-39 | the allow-list is exactly the eleven column names, one per field |
| ImportRows.ColumnNamesAreNormal | src/job-offset-printer-taiyo/job-offset-printer-taiyo.service.ts:27-39 | every column name is its own normal form |
| ImportRows.NormalizedKeys | src/job-offset-printer-taiyo/job-offset-printer-taiyo.service.ts:439-446 | the normalised row's keys are exactly the normal forms of the raw keys |
| ImportRows.NormalizedLastWins | src/job-offset-printer-taiyo/job-offset-printer-taiyo.service.ts:439-446 | when two raw keys share a normal form, the later one's value is kept |
| ImportRows.NormalizeImportRow | src/job-offset-printer-taiyo/job-offset-printer-taiyo.service.ts:439-446 | the loop builds exactly the normalised row |
| ImportRows.NormalizedShape | src/job-offset-printer-taiyo/job-offset-printer-taiyo.service.ts:439-446 | every key of a normalised row is in normal form, and the keys are the raw keys' normal forms |
| ImportRows.ParseIntegerField | src/job-offset-printer-taiyo/job-offset-printer-taiyo.service.ts:458-468 | a blank cell gives the default; otherwise an integer of at least 1 or one row error citing the cell |
| ImportRows.ParseDateField | src/job-offset-printer-taiyo/job-offset-printer-taiyo.service.ts:448-456 | a blank cell gives null; otherwise the parsed date or one row error |
| ImportRows.ParseJsonField | src/job-offset-printer-taiyo/job-offset-printer-taiyo.service.ts:470-479 | a blank cell gives null; an object passes through; otherwise the parsed JSON or one row error |
| ImportRows.ResolveImportLookup | src/job-offset-printer-taiyo/job-offset-printer-taiyo.service.ts:481-519 | blank gives "required"; an integer must be a known id of the type; any other value must match an upper-cased code; at most one error for this row and field |
| ImportRows.NumericNeverUsesCodes | src/job-offset-printer-taiyo/job-offset-printer-taiyo.service.ts:497-506 | an integer-looking value is resolved without consulting the code map |
| ImportRows.ResolvedImportIsLookup | src/job-offset-printer-taiyo/job-offset-printer-taiyo.service.ts:481-545 | a resolved id is a lookup of the requested type, and a code matching a stored lookup is in the index |
| ImportRows.CodeCellErrors | src/job-offset-printer-taiyo/job-offset-printer-taiyo.service.ts:551-556 | work and sales order cells are error-free exactly when both are non-empty and at most 100 UTF-16 code units long |
| ImportRows.CellErrors | src/job-offset-printer-taiyo/job-offset-printer-taiyo.service.ts:551-562 | all code and field-parse errors are on this row, and there are none exactly when every cell is clean |
| ImportRows.RefErrors | src/job-offset-printer-taiyo/job-offset-printer-taiyo.service.ts:564-590 | the three lookup errors are on this row, and there are none exactly when all three references resolve |
| ImportRows.RowErrors | src/job-offset-printer-taiyo/job-offset-printer-taiyo.service.ts:547-609 | a row's errors all cite it, and there are none exactly when the row is clean |
| ImportRows.CleanRowCandidate | src/job-offset-printer-taiyo/job-offset-printer-taiyo.service.ts:592-608 | a clean row's candidate has a quantity of at least 1 (default 1), valid work and sales orders, and three resolved lookups of the right types |
| ImportPreview.CandidatesNumbered | src/job-offset-printer-taiyo/job-offset-printer-taiyo.service.ts:547-548 | there is one candidate per row, and row k is numbered k + rowStart |
| ImportPreview.ParseErrors | src/job-offset-printer-taiyo/job-offset-printer-taiyo.service.ts:547-609 | every per-row error cites a row number within the file |
| ImportPreview.FirstRowsDomain | src/job-offset-printer-taiyo/job-offset-printer-taiyo.service.ts:611-631 | a key is recorded exactly when some candidate has it |
| ImportPreview.FirstRowsValue | src/job-offset-printer-taiyo/job-offset-printer-taiyo.service.ts:611-631 | the row recorded for a key is that of its first occurrence |
| ImportPreview.DuplicateCitesFirst | src/job-offset-printer-taiyo/job-offset-printer-taiyo.service.ts:613-630 | a row is a duplicate exactly when an earlier row has its key, and then the first such row is the one cited |
| ImportPreview.DuplicateErrors | src/job-offset-printer-taiyo/job-offset-printer-taiyo.service.ts:611-631 | every duplicate error names a candidate's row |
| ImportPreview.ExistingErrors | src/job-offset-printer-taiyo/job-offset-printer-taiyo.service.ts:633-645 | every "already exists" error names a candidate's row |
| ImportPreview.ConflictErrors | src/job-offset-printer-taiyo/job-offset-printer-taiyo.service.ts:647-664 | every schedule-conflict error names a candidate's row |
| ImportPreview.CleanMeaning | src/job-offset-printer-taiyo/job-offset-printer-taiyo.service.ts:666-667 | the kept candidates are exactly those whose row has no error |
| ImportPreview.CleanCount | src/job-offset-printer-taiyo/job-offset-printer-taiyo.service.ts:666-672 | kept rows plus erroneous rows equals all rows |
| ImportPreview.ParseOne | src/job-offset-printer-taiyo/job-offset-printer-taiyo.service.ts:549-608 | one row's pass yields its candidate and its errors |
| ImportPreview.ParseAll | src/job-offset-printer-taiyo/job-offset-printer-taiyo.service.ts:547-609 | the per-row loop yields the candidates and the per-row errors of the whole file |
| ImportPreview.FindDuplicates | src/job-offset-printer-taiyo/job-offset-printer-taiyo.service.ts:611-631 | the loop over candidates with the two first-row maps yields exactly the duplicate errors |
| ImportPreview.FindExisting | src/job-offset-printer-taiyo/job-offset-printer-taiyo.service.ts:633-645 | the loop flags exactly the candidates whose work order is stored |
| ImportPreview.FindConflicts | src/job-offset-printer-taiyo/job-offset-printer-taiyo.service.ts:647-664 | the loop flags exactly the candidates whose slot is taken by a stored job |
| ImportPreview.ValidateRows | src/job-offset-printer-taiyo/job-offset-printer-taiyo.service.ts:521-676 | `validateJobImportRows`: all errors cite rows within the file; data holds the error-free candidates in order; valid plus invalid equals total |
| ImportPreview.ErrorsNameRows | src/job-offset-printer-taiyo/job-offset-printer-taiyo.service.ts:666 | every error of the preview cites a candidate's row |
| BatchGate.Rendered | src/job-offset-printer-taiyo/job-offset-printer-taiyo.service.ts:185-216 | each gate issue becomes one detail, in order |
| BatchGate.ForbiddenIssuesMeaning | src/job-offset-printer-taiyo/job-offset-printer-taiyo.service.ts:196-204 | a row has no forbidden-key issue exactly when none of its raw keys is `__proto__`, `prototype` or `constructor` |
| BatchGate.UnknownIssuesMeaning | src/job-offset-printer-taiyo/job-offset-printer-taiyo.service.ts:206-216 | a row has no unknown-key issue exactly when every normalised key is allowed |
| BatchGate.ItemIssuesMeaning | src/job-offset-printer-taiyo/job-offset-printer-taiyo.service.ts:186-219 | an item has no issue exactly when it is a plain object with clean keys |
| BatchGate.GateIssuesMeaning | src/job-offset-printer-taiyo/job-offset-printer-taiyo.service.ts:185-226 | the payload has no issue exactly when every item passes |
| BatchGate.GateIssuesRows | src/job-offset-printer-taiyo/job-offset-printer-taiyo.service.ts:187 | every issue cites a row between 1 and the number of items |
| BatchGate.ForbiddenKeysAreUnknown | src/job-offset-printer-taiyo/job-offset-printer-taiyo.service.ts:41 | forbidden keys are not in the allow-list and are their own normal forms |
| BatchGate.CheckItem | src/job-offset-printer-taiyo/job-offset-printer-taiyo.service.ts:186-219 | the per-item loops collect exactly the item's issues |
| BatchGate.PayloadGateMeaning | src/job-offset-printer-taiyo/job-offset-printer-taiyo.service.ts:178-226 | the gate passes exactly a non-empty array of passing items, returning them unchanged; otherwise one aggregated 400 with at least one detail |
| BatchGate.CheckPayload | src/job-offset-printer-taiyo/job-offset-printer-taiyo.service.ts:178-226 | the gate loop computes the gate's result |
| BatchGate.PassedRowsAreClean | src/job-offset-printer-taiyo/job-offset-printer-taiyo.service.ts:218 | rows that pass the gate are the submitted objects, with clean keys |
| JobBatch.PreviewIssues | src/job-offset-printer-taiyo/job-offset-printer-taiyo.service.ts:234 | the preview's errors are passed on one-for-one |
| JobBatch.FailedCount | src/job-offset-printer-taiyo/job-offset-printer-taiyo.service.ts:267 | failed_count is the number of distinct rows among the errors |
| JobBatch.ReadyInputAcceptable | src/job-offset-printer-taiyo/job-offset-printer-taiyo.service.ts:240-242 | a clean preview row passes `add`'s validator exactly when it has a start time and text notes, and then its lookups resolve |
| JobBatch.AddErrors | src/job-offset-printer-taiyo/job-offset-printer-taiyo.service.ts:244-261 | a failed add yields at least one error, all citing the row, one per detail when there are details |
| JobBatch.RunBatchStep | src/job-offset-printer-taiyo/job-offset-printer-taiyo.service.ts:240-263 | running k+1 rows is running k rows and then attempting row k |
| JobBatch.BatchOfCleanPreview | src/job-offset-printer-taiyo/job-offset-printer-taiyo.service.ts:228-270 | with a passing gate and a clean preview, the batch runs the preview's rows and reports their results |
| JobBatch.CleanKeepsOrder | src/job-offset-printer-taiyo/job-offset-printer-taiyo.service.ts:667 | filtering keeps the rows in increasing order |
| JobBatch.AttemptEffect | src/job-offset-printer-taiyo/job-offset-printer-taiyo.service.ts:241-262 | each attempt either adds exactly one job or records errors for its row only, changing nothing else |
| JobBatch.RunAccountsForEveryRow | src/job-offset-printer-taiyo/job-offset-printer-taiyo.service.ts:240-270 | a failing row does not stop later rows: every error names a row of the run, and the jobs created plus the distinct failed rows equal the rows attempted |
| JobBatch.RunAddsCreated | src/job-offset-printer-taiyo/job-offset-printer-taiyo.service.ts:238-263 | the table after the run is the old table plus exactly the created jobs |
| JobBatch.RunKeepsInvariant | src/job-offset-printer-taiyo/job-offset-printer-taiyo.service.ts:238-263 | the run keeps the table invariant |
| JobBatch.BatchGateRefusal | src/job-offset-printer-taiyo/job-offset-printer-taiyo.service.ts:221-226 | a refused payload throws before any preview or write |
| JobBatch.BatchPreviewRefusal | src/job-offset-printer-taiyo/job-offset-printer-taiyo.service.ts:228-236 | an invalid preview creates nothing, reports failed_count = invalid_rows, and writes nothing |
| JobBatch.BatchCleanRun | src/job-offset-printer-taiyo/job-offset-printer-taiyo.service.ts:238-270 | a clean preview runs every row: created + failed = rows, created_count is the number created, and the table grows by exactly the created jobs |
| JobBatch.NothingCreatedNothingWritten | src/job-offset-printer-taiyo/job-offset-printer-taiyo.service.ts:238-263 | when nothing was created, the table is unchanged |
| JobBatch.BatchOutcomeMeaning | src/job-offset-printer-taiyo/job-offset-printer-taiyo.service.ts:177-271 | the batch keeps the invariant, fails only at the gate, and grows the table by created_count |
| JobStore.EmptyPreview | src/job-offset-printer-taiyo/job-offset-printer-taiyo.service.ts:164-172 | an empty sheet previews as zero rows |
| JobStore.Store.constructor | src/job-offset-printer-taiyo/job-offset-printer-taiyo.service.ts:45 | a new store holds no jobs and the given lookups |
| JobStore.Store.Add | src/job-offset-printer-taiyo/job-offset-printer-taiyo.service.ts:678-713 | stores the created job or changes nothing |
| JobStore.Store.Update | src/job-offset-printer-taiyo/job-offset-printer-taiyo.service.ts:715-768 | corrected `update`: stores the updated job or changes nothing |
| JobStore.Store.Remove | src/job-offset-printer-taiyo/job-offset-printer-taiyo.service.ts:770-778 | deletes the job or changes nothing |
| JobStore.Store.Transition | src/job-offset-printer-taiyo/job-offset-printer-taiyo.service.ts:780-797 | stores the moved job or changes nothing |
| JobStore.Store.ReleaseJob | src/job-offset-printer-taiyo/job-offset-printer-taiyo.service.ts:799-801 | release is the SCHEDULED → RELEASED transition |
| JobStore.Store.RunJob | src/job-offset-printer-taiyo/job-offset-printer-taiyo.service.ts:803-805 | run is the RELEASED → RUNNING transition |
| JobStore.Store.SuspendJob | src/job-offset-printer-taiyo/job-offset-printer-taiyo.service.ts:807-809 | suspend is the {RELEASED, RUNNING} → SUSPENDED transition |
| JobStore.Store.CompleteJob | src/job-offset-printer-taiyo/job-offset-printer-taiyo.service.ts:811-813 | complete is the {RUNNING, SUSPENDED} → COMPLETED transition |
| JobStore.Store.CloseJob | src/job-offset-printer-taiyo/job-offset-printer-taiyo.service.ts:815-817 | close is the {RELEASED, COMPLETED} → CLOSED transition |
| JobStore.Store.PreviewRows | src/job-offset-printer-taiyo/job-offset-printer-taiyo.service.ts:521-676 | the preview writes nothing, and valid plus invalid equals total |
| JobStore.Store.UploadPreview | src/job-offset-printer-taiyo/job-offset-printer-taiyo.service.ts:133-175 | a missing file, a wrong extension or an unreadable workbook is refused; otherwise the sheet is previewed from row 2 |
| JobStore.Store.BatchCreate | src/job-offset-printer-taiyo/job-offset-printer-taiyo.service.ts:177-271 | the store ends in the batch's table and returns its outcome |
| JobStore.Store.AddAll | src/job-offset-printer-taiyo/job-offset-printer-taiyo.service.ts:238-263 | the sequential loop ends with the run's table, created jobs and errors |
| Dashboard.IdToCodeMeaning | src/job-offset-printer-taiyo/job-offset-printer-taiyo.service.ts:52-53 | the id-to-code map holds exactly the listed ids, and a repeated id maps to its last code |
| Dashboard.BuildIndex | src/job-offset-printer-taiyo/job-offset-printer-taiyo.service.ts:52-53 | the loop builds the id-to-code map |
| Dashboard.UnknownIdIsOther | src/job-offset-printer-taiyo/job-offset-printer-taiyo.service.ts:63 | an unrecognised lifecycle id is bucketed as OTHER |
| Dashboard.TalliedMeaning | src/job-offset-printer-taiyo/job-offset-printer-taiyo.service.ts:60-67 | each code's count is the sum of the groups mapped to it |
| Dashboard.BucketsPartition | src/job-offset-printer-taiyo/job-offset-printer-taiyo.service.ts:69-76 | total is the five named buckets plus "other" |
| Dashboard.ClosedIsOther | src/job-offset-printer-taiyo/job-offset-printer-taiyo.service.ts:75-76 | CLOSED jobs are counted within "other" |
| Dashboard.Tally | src/job-offset-printer-taiyo/job-offset-printer-taiyo.service.ts:60-67 | the loop computes the per-code counts and the total |
| Dashboard.GetDashboard | src/job-offset-printer-taiyo/job-offset-printer-taiyo.service.ts:47-88 | total is the sum of all groups; each bucket counts its state; other = max(0, total − known) covers the rest |
| AccountPolicy.CountedMeaning | src/account/account.service.ts:6 | a bounded repetition matches exactly a string of allowed characters with length in range |
| AccountPolicy.AtLeastMeaning | src/account/account.service.ts:7 | an open repetition matches exactly a long-enough string of allowed characters |
| AccountPolicy.LooksAheadMeaning | src/account/account.service.ts:7 | on a line without terminators, `(?=.*[c])` holds exactly when some character is in the class |
| AccountPolicy.UsernamePolicy | src/account/account.service.ts:6 | the username regex accepts exactly a lowercase letter followed by 3 to 19 of [a-z0-9_] |
| AccountPolicy.PasswordPolicy | src/account/account.service.ts:7 | the password regex accepts exactly 12+ allowed characters with a lowercase letter, an uppercase letter, a digit and a listed symbol |
| AccountPolicy.SymbolsAreTheSymbolClass | src/account/account.service.ts:8 | the generator's SYMBOLS are exactly the regex's symbol class |
| AccountPolicy.GeneratedShapePasses | src/account/account.service.ts:57-75 | any string of 12+ characters drawn from the generator's alphabet with one character of each kind passes the password rule |
| Accounts.StateOfCode | src/account/account.service.ts:77-83 | an account lifecycle code names exactly one state, and an unseeded code names none |
| Accounts.SchemaIssue | src/account/account.service.ts:44-55 | the schema passes exactly a valid username, a full name, a type and a role, with phone number, email and expiry date absent or non-null, and a non-empty email valid |
| Accounts.OrNull | src/account/account.service.ts:145-146 | `x || null` keeps a phone number or email exactly when it is present, not null and not empty |
| Accounts.ExpiryRule | src/account/account.service.ts:125-131 | WITH_EXPIRATION needs a truthy expiry date and PERMANENT forbids one (a falsy 0 passes); equivalently, the date the account stores keeps the type's rule |
| Accounts.RegisterSucceeds | src/account/account.service.ts:110-161 | `add` succeeds exactly when the schema, username uniqueness, type, expiry rule and generated password all pass; the account is CREATED, must change its password, and has no password change or login time; it stores the given full name, the phone number and email each only when non-empty (`|| null`), the body's expiry time exactly when that date is truthy, and the role only when it is not 0; a taken username is refused |
| Accounts.RegisteredKeepsExpiryRule | src/account/account.service.ts:125-131 | every registered account satisfies its type's expiry rule |
| Accounts.Expire | src/account/account.service.ts:98-108 | an account becomes EXPIRED only if it has type WITH_EXPIRATION and an expiry date ≤ now; otherwise it is unchanged |
| Accounts.ExpireIsIdempotentAndMonotone | src/account/account.service.ts:98-108 | expiring twice is expiring once, and an account expired now stays expired later |
| Accounts.LoginGate | src/account/account.service.ts:169-171 | login passes exactly CREATED and ACTIVE accounts |
| Accounts.CookieGate | src/account/account.service.ts:237-239 | the cookie check passes exactly CREATED and ACTIVE accounts, else "Invalid cookie" |
| Accounts.GatesAgree | src/account/account.service.ts:163-243 | login and cookie validation admit the same states |
| Accounts.SignInMeaning | src/account/account.service.ts:163-180 | after expiry: DELETED gives NotFound, DISABLED or EXPIRED gives Forbidden, a wrong password gives Unauthorized; only success sets last_login_time |
| Accounts.ExpiredCannotSignIn | src/account/account.service.ts:167-171 | an account past its expiry date cannot log in |
| Accounts.UnknownUserCannotSignIn | src/account/account.service.ts:164-165 | an unknown username gives "Invalid credentials" and changes nothing |
| Accounts.CheckCookieMeaning | src/account/account.service.ts:230-243 | the cookie is accepted exactly for an existing account that is CREATED or ACTIVE after expiry; the expiry is stored either way |
| Accounts.ResetMeaning | src/account/account.service.ts:182-209 | reset needs a policy-compliant password and an existing non-DELETED account; it clears must_change_password, stamps the change time, moves CREATED to ACTIVE and changes nothing else |
| Accounts.RelabelMeaning | src/account/account.service.ts:219-224 | setting a seeded lifecycle code on an existing account changes only its state |
| Accounts.SoftDeleteLocksOut | src/account/account.service.ts:226-228 | a soft-deleted account can no longer log in, pass the cookie check or reset its password |
| Accounts.ExpiryOverridesDeletion | src/account/account.service.ts:98-108 | a DELETED account past its expiry is relabelled EXPIRED on login and reported as expired |
| Accounts.UsernamesUnique | src/account/account.service.ts:119-120 | under the store invariant no two accounts share a username |
| Accounts.RewriteKeepsInvariant | src/account/account.service.ts:98-108 | rewriting an account without touching username, type or expiry keeps the invariant |
| Accounts.RegisterKeepsInvariant | src/account/account.service.ts:110-161 | registering keeps usernames unique and the expiry rule |
| Accounts.AccountStore.constructor | src/account/account.service.ts:12 | a new store holds no accounts |
| Accounts.AccountStore.Add | src/account/account.service.ts:110-161 | stores the registered account and its username, or changes nothing |
| Accounts.AccountStore.ExpireIfNeeded | src/account/account.service.ts:98-108 | stores and returns the expired account |
| Accounts.AccountStore.Login | src/account/account.service.ts:163-180 | applies sign-in to the table |
| Accounts.AccountStore.ResetPassword | src/account/account.service.ts:182-209 | stores the reset account or changes nothing |
| Accounts.AccountStore.SetLifecycle | src/account/account.service.ts:219-224 | stores the relabelled account or changes nothing |
| Accounts.AccountStore.SoftDelete | src/account/account.service.ts:226-228 | relabels the account DELETED or changes nothing |
| Accounts.AccountStore.ValidateCookie | src/account/account.service.ts:230-243 | applies the cookie check, including the stored expiry, to the table |

## Left out

- The Prisma database is an in-memory map per table. The check-then-act
  race between concurrent requests is not modelled; the model is
  single-threaded.
- The yup schemas (`createValidationSchema`, `updateValidationSchema`, the
  account schema) are explicit typed validators. Casting and yup's message
  texts are not modelled.
- Accounts.SchemaIssue: which message a body that breaks several rules is
  refused with is the model's own choice (the first broken rule in the
  model's order). Which rule yup reports first is not modelled; whether the
  body is refused is.
- Jobs.CreateErrors: a date field enters as a `BodyDate`, a value `date()`
  has already accepted. A value `date()` refuses as an invalid date is not
  modelled. The same holds for Jobs.UpdateErrors and Accounts.SchemaIssue.
- Jobs.UpdateErrors: an explicit null is represented on `quantity_order`,
  `notes`, `attribute` and the two nullable dates. On `work_order`,
  `sales_order`, `quantity_unit`, `work_center`, `planned_start_time` and
  `job_priority` an update body cannot carry null in the model, so the
  schema's refusal of null there is not modelled.
- Text.ToLower: maps ASCII letters only. JavaScript's `toLowerCase` also
  maps non-ASCII letters (the Kelvin sign `\u212A` to `k`, for one), so a
  header spelled with such letters normalises differently.
- Text.ToUpper: maps ASCII letters only. JavaScript's `toUpperCase` also
  maps non-ASCII letters (`ſ` to `S`, `ß` to `SS`, which changes the
  length), so a lookup code spelled with such letters matches differently.
- JobService.Modify: models `update` with two corrections. The supplied
  `work_center` is resolved and checked whenever it is present (the source
  tests its truthiness at lines 737-739). The supplied `planned_start_time`
  is checked whenever it is present (the source tests its truthiness at
  line 740). The source's own choices are `Jobs.CenterToCheckAsWritten` and
  `Jobs.NextStartTimeAsWritten`; see "## Findings".
- JobService.ModifyKeepsInvariant: holds of the corrected `update` only. As
  written, `{work_center: 0}` and `{planned_start_time: 0}` break the
  invariant (`Jobs.ZeroCenterEscapesChecks`, `Jobs.ZeroStartEscapesCheck`).
- JobService.ModifySucceeds: characterises the corrected `update`. The same
  two truthiness tests are not part of it.
- JobStore.Store.Update: runs the corrected `update` of `JobService.Modify`,
  with the same two corrections.
- Accounts.Register, Accounts.SignIn, Accounts.CheckCookie, Accounts.Reset,
  Accounts.Relabel and the `Accounts.AccountStore` methods `Add`, `Login`,
  `ResetPassword`, `SetLifecycle`, `SoftDelete`, `ValidateCookie` and
  `ExpireIfNeeded`: each answers the whole stored `Account`, password hash
  included. The service strips `password` before answering
  (`const { password, ...rest }`, account.service.ts lines 40, 159, 178,
  207, 215, 222 and 241), and lines 178 and 241 also drop the joined lookup rows. The
  model does not capture which fields reach the caller; the stored row is
  what its contracts state.
- Lookups.ParseLookupId: a reference is an integer, a string, or any other
  value (`RefOther`: a boolean, an object, NaN), and the last is refused as
  "must be a valid lookup id". A non-integral number such as 1.5 passes
  `parseLookupId` and reaches the lookup query; the model has no such
  reference, so what the query does with it is not modelled.
- `buildValidationDetails` is not part of this model.
- The library calls are abstract functions in `Platform`:
  - `uuidValidate`, `new Date(...)` (timestamps are integers), `parseInt`
    and `Number`;
  - `JSON.parse`, `String(...)` and `toISOString`.
- `Date.now()`, `new Date()` at login and reset, and `generated_at` enter
  as the `now` parameter.
- bcrypt is an abstract `hash`, and comparison is hash equality.
- `generatePassword` (`Math.random`) is not modelled. The generated password
  enters `Register` as the `generated` parameter, and `GeneratedShapePasses`
  shows that any string of its shape passes the password rule.
- XLSX reading in `uploadPreviewExcel` is an abstract `read` function from
  bytes to rows. `downloadImportTemplate` builds a workbook only and is left
  out.
- `getAll`, `getById`, `formatJob` and `findJobWithLookups` are read-only
  presentation and are left out. So are the account service's `getAll`,
  `getById` and `editRole`, which only stores a role id.
- The job lifecycle is stored as a state rather than a lookup id. Because
  of that, the "JOB_LIFECYCLE_STATE … not seeded" failure of
  `resolveLifecycle` cannot arise. Account lifecycle codes are resolved by
  `StateOfCode`, so an unseeded code there is an error.
- The account `attribute` field is not modelled. Account ids are strings
  and type ids are integers.
- JobBatch.AddErrors: the `value` echo of each batch error
  (`item?.[d.field]`) is not kept.
- ImportPreview.DuplicateErrors: a later row is a duplicate when its key
  has already been recorded. The service instead tests whether the recorded
  row number is truthy (`if (prev)`). The two agree because row numbers
  start at `rowStart`, and both callers pass 1 or 2.
- Messages are rendered from structured `ImportError` values (row, field,
  issue, echoed value). The exact English wording is kept only where a
  lemma mentions it.

## Findings

| source | as written | input that shows it | evidently intended | confidence | as-written member | corrected member |
|---|---|---|---|---|---|---|
| src/job-offset-printer-taiyo/job-offset-printer-taiyo.service.ts:737-739 | `update` chooses the centre to check with the truthiness test `data.work_center ?`, but writes `work_center` whenever it is `!== undefined` (line 757) | `update(id, {work_center: 0})` on a SCHEDULED job: lookup resolution and the schedule check run against the old centre, then centre 0 (no lookup) is written | resolve and check the supplied centre whenever one is supplied, so the centre checked is the centre written | not executed | Jobs.ZeroCenterEscapesChecks | Jobs.CheckedIsWritten |
| src/job-offset-printer-taiyo/job-offset-printer-taiyo.service.ts:740 | `update` chooses the start time to check with the truthiness test `data.planned_start_time ?`, but writes `planned_start_time` whenever it is `!== undefined` (line 758) | `update(id, {planned_start_time: 0})` on a SCHEDULED job at (C, t1) while another job is at (C, 0): the schedule check runs against (C, t1) and passes, then the job is stored at (C, 0), so two jobs share a slot | check the supplied start time whenever one is supplied, so the slot checked is the slot written | not executed | Jobs.ZeroStartEscapesCheck | Jobs.CheckedIsWritten |
