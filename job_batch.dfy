/**
  `batchCreateFromJson` after the payload gate: the preview of the rows numbered
  from 1, the all-or-nothing refusal when any row is invalid, and otherwise a
  best-effort run of `add` over the clean rows in order, aggregating what was
  created and what failed per row.
 */
module JobBatch {
  import opened Values
  import opened Text
  import opened Failures
  import opened Lookups
  import opened JobLifecycle
  import opened Jobs
  import opened JobService
  import opened ImportRows
  import opened ImportPreview
  import opened BatchGate

  /** An entry of the batch's `errors`: a preview error, or one detail of an `add`
      that failed, under the row of the item that caused it. */
  datatype BatchError =
    | PreviewIssue(issue: ImportError)
    | CreateIssue(row: int, field: string, message: string)

  function RowOf(e: BatchError): int
  {
    match e
    case PreviewIssue(i) => i.row
    case CreateIssue(r, _, _) => r
  }

  function PreviewIssues(errors: seq<ImportError>): (r: seq<BatchError>)
    ensures |r| == |errors| && forall k :: 0 <= k < |errors| ==> r[k] == PreviewIssue(errors[k])
  {
    seq(|errors|, k requires 0 <= k < |errors| => PreviewIssue(errors[k]))
  }

  /** The distinct rows among the errors. */
  function ErrorRowSet(errors: seq<BatchError>): set<int>
  {
    set e | e in errors :: RowOf(e)
  }

  /** `failed_count`: the number of distinct rows that failed (the guard on an empty
      list changes nothing, the set being empty then). */
  function FailedCount(errors: seq<BatchError>): (n: nat)
    ensures n == |ErrorRowSet(errors)|
  {
    if |errors| > 0 then |ErrorRowSet(errors)| else 0
  }

  datatype BatchOutcome = BatchOutcome(createdCount: nat, failedCount: nat, created: seq<Job>, errors: seq<BatchError>)

  /** A date of a preview row as the row carries it, `toISOString() || null`: a date
      string, which is truthy whatever the date, or null. */
  function IsoDate(t: Option<int>): (r: Option<BodyDate>)
    ensures r.Some? <==> t.Some?
    ensures r.Some? ==> r.value.truthy && r.value.time == t.value
  {
    if t.Some? then Some(BodyDate(t.value, true)) else None
  }

  /** The body `add` receives for a clean preview row (`item`): its values, with the
      lookups as ids. */
  function ToInput(c: Candidate): JobInput
  {
    JobInput(
      workOrder := Some(c.workOrder),
      salesOrder := Some(c.salesOrder),
      quantityOrder := if c.quantityOrder.Some? then Some(Some(c.quantityOrder.value as real)) else None,
      quantityUnit := if c.quantityUnit.Some? then Some(RefId(c.quantityUnit.value)) else None,
      workCenter := if c.workCenter.Some? then Some(RefId(c.workCenter.value)) else None,
      plannedStartTime := IsoDate(c.plannedStartTime),
      releaseDate := IsoDate(c.releaseDate),
      dueDate := IsoDate(c.dueDate),
      jobPriority := if c.jobPriority.Some? then Some(RefId(c.jobPriority.value)) else None,
      notes := Some(c.notes),
      attribute := Some(c.attribute))
  }

  /** What a clean preview row guarantees about its candidate. */
  ghost predicate PreviewReady(c: Candidate, ls: seq<Lookup>)
  {
    && c.quantityOrder.Some? && c.quantityOrder.value >= 1
    && c.workOrder != "" && Utf16Length(c.workOrder) <= MaxCodeLength
    && c.salesOrder != "" && Utf16Length(c.salesOrder) <= MaxCodeLength
    && c.quantityUnit.Some? && IsLookupOf(ls, c.quantityUnit.value, QuantityUnit)
    && c.workCenter.Some? && IsLookupOf(ls, c.workCenter.value, WorkCenter)
    && c.jobPriority.Some? && IsLookupOf(ls, c.jobPriority.value, JobPriority)
  }

  /** The preview lets through rows that the create schema still refuses: exactly
      those with no planned_start_time, or with notes that are not a string. The
      others pass the schema and their lookup ids resolve. */
  lemma ReadyInputAcceptable(c: Candidate, ls: seq<Lookup>, p: Platform)
    requires PreviewReady(c, ls)
    ensures CreateAcceptable(ToInput(c)) <==> c.plannedStartTime.Some? && c.notes.Text?
    ensures CreateAcceptable(ToInput(c)) ==> CreateRefsResolve(ls, ToInput(c), p)
  {
  }

  /** The entries pushed for a failed `add`: one per detail when the exception has
      details (an empty field as "unknown", an empty message as "Business validation
      failed"), otherwise one under "row" with the exception's message. Every entry
      names the item's row. */
  function AddErrors(row: int, f: Failure): (es: seq<BatchError>)
    ensures |es| > 0 && forall e :: e in es ==> RowOf(e) == row
    ensures |Details(f)| > 0 ==> |es| == |Details(f)|
  {
    var d := Details(f);
    if |d| > 0 then
      seq(|d|, k requires 0 <= k < |d| =>
        CreateIssue(row,
          if d[k].field == "" then "unknown" else d[k].field,
          if d[k].message == "" then "Business validation failed" else d[k].message))
    else [CreateIssue(row, "row", if MessageOf(f) == "" then "Failed to create job" else MessageOf(f))]
  }

  /** The table, the jobs created and the errors so far. */
  datatype BatchRun = BatchRun(table: map<JobId, Job>, created: seq<Job>, errors: seq<BatchError>)

  /** The run after an item whose `add` answered `saved`. */
  function Record(r: BatchRun, row: int, id: JobId, saved: Result<Job>): BatchRun
  {
    match saved
    case Ok(j) => BatchRun(r.table[id := j], r.created + [j], r.errors)
    case Fail(f) => BatchRun(r.table, r.created, r.errors + AddErrors(row, f))
  }

  /** One iteration of the loop: `add` the item under the id minted for it, and
      either keep the saved job or record the failure. */
  function Attempt(r: BatchRun, ls: seq<Lookup>, p: Platform, c: Candidate, id: JobId): BatchRun
  {
    Record(r, c.row, id, Create(r.table, ls, p, ToInput(c), id))
  }

  /** The loop over the first |data| clean rows; the k-th attempt gets `mint(k)`. */
  function RunBatch(jobs: map<JobId, Job>, ls: seq<Lookup>, p: Platform, data: seq<Candidate>, mint: nat -> JobId): BatchRun
  {
    if |data| == 0 then BatchRun(jobs, [], [])
    else Attempt(RunBatch(jobs, ls, p, data[..|data| - 1], mint), ls, p, data[|data| - 1], mint(|data| - 1))
  }

  /** The whole request: the result and the table afterwards. */
  function Batch(jobs: map<JobId, Job>, ls: seq<Lookup>, p: Platform, body: Value, mint: nat -> JobId)
    : (Result<BatchOutcome>, map<JobId, Job>)
  {
    match PayloadGate(body)
    case Fail(f) => (Fail(f), jobs)
    case Ok(rows) =>
      var errors := AllErrors(rows, 1, ls, jobs, p);
      var bad := ErrorRows(errors);
      if |bad| > 0 then (Ok(BatchOutcome(0, |bad|, [], PreviewIssues(errors))), jobs)
      else
        var run := RunBatch(jobs, ls, p, Clean(Candidates(rows, 1, IndexFor(ls), p), bad), mint);
        (Ok(BatchOutcome(|run.created|, FailedCount(run.errors), run.created, run.errors)), run.table)
  }

  /** The run over one more row is one more attempt. */
  lemma RunBatchStep(jobs: map<JobId, Job>, ls: seq<Lookup>, p: Platform, data: seq<Candidate>, mint: nat -> JobId, k: nat)
    requires k < |data|
    ensures RunBatch(jobs, ls, p, data[..k + 1], mint) ==
      Attempt(RunBatch(jobs, ls, p, data[..k], mint), ls, p, data[k], mint(k))
  {
    assert data[..k + 1][..k] == data[..k];
  }

  /** A clean preview sends every clean row through the run. */
  lemma BatchOfCleanPreview(jobs: map<JobId, Job>, ls: seq<Lookup>, p: Platform, body: Value, mint: nat -> JobId)
    ensures PayloadGate(body).Ok? && ErrorRows(AllErrors(PayloadGate(body).value, 1, ls, jobs, p)) == {} ==>
      var rows := PayloadGate(body).value;
      var run := RunBatch(jobs, ls, p, Clean(Candidates(rows, 1, IndexFor(ls), p), {}), mint);
      Batch(jobs, ls, p, body, mint) ==
        (Ok(BatchOutcome(|run.created|, FailedCount(run.errors), run.created, run.errors)), run.table)
  {
  }

  // ---------------------------------------------------------------------------
  // What the run guarantees

  /** Row numbers strictly increase along the list. */
  ghost predicate RowsIncrease(cs: seq<Candidate>)
  {
    forall i, j :: 0 <= i < j < |cs| ==> cs[i].row < cs[j].row
  }

  /** Keeping the clean candidates keeps the order of rows. */
  lemma {:induction false} CleanKeepsOrder(cs: seq<Candidate>, bad: set<int>)
    requires RowsIncrease(cs)
    ensures RowsIncrease(Clean(cs, bad))
  {
    if |cs| > 0 {
      var init := cs[..|cs| - 1];
      var last := cs[|cs| - 1];
      assert RowsIncrease(init) by {
        forall i, j | 0 <= i < j < |init|
          ensures init[i].row < init[j].row
        {
          assert init[i] == cs[i] && init[j] == cs[j];
        }
      }
      CleanKeepsOrder(init, bad);
      CleanMeaning(init, bad);
      var kept := Clean(init, bad);
      forall i | 0 <= i < |kept|
        ensures kept[i].row < last.row
      {
        assert kept[i] in init;
        var k :| 0 <= k < |init| && init[k] == kept[i];
        assert cs[k] == init[k];
      }
    }
  }

  /** The rows a batch runs over come in increasing order. */
  lemma PreviewRowsIncrease(rows: seq<Row>, rowStart: int, ls: seq<Lookup>, p: Platform, bad: set<int>)
    ensures RowsIncrease(Clean(Candidates(rows, rowStart, IndexFor(ls), p), bad))
  {
    CandidatesNumberedFrom(rows, rowStart, IndexFor(ls), p);
    CleanKeepsOrder(Candidates(rows, rowStart, IndexFor(ls), p), bad);
  }

  /** The rows of a list of candidates. */
  function RowSet(cs: seq<Candidate>): set<int>
  {
    set c | c in cs :: c.row
  }

  /** The attempt saved a new job under `id`, which was free, and changed nothing
      else. */
  ghost predicate Added(a: BatchRun, b: BatchRun, id: JobId)
  {
    && |b.created| == |a.created| + 1 && b.created[..|a.created|] == a.created
    && b.created[|a.created|].id == id && id !in a.table
    && b.table == a.table[id := b.created[|a.created|]] && b.errors == a.errors
  }

  /** The attempt saved nothing and appended at least one error, each under `row`. */
  ghost predicate Refused(a: BatchRun, b: BatchRun, row: int)
  {
    && b.table == a.table && b.created == a.created
    && |b.errors| > |a.errors| && b.errors[..|a.errors|] == a.errors
    && forall k :: |a.errors| <= k < |b.errors| ==> RowOf(b.errors[k]) == row
  }

  lemma AttemptEffect(r: BatchRun, ls: seq<Lookup>, p: Platform, c: Candidate, id: JobId)
    ensures Added(r, Attempt(r, ls, p, c, id), id) || Refused(r, Attempt(r, ls, p, c, id), c.row)
  {
    var a := Attempt(r, ls, p, c, id);
    match Create(r.table, ls, p, ToInput(c), id)
    case Ok(j) =>
      assert a.created[..|r.created|] == r.created;
    case Fail(f) =>
      var added := AddErrors(c.row, f);
      assert a.errors[..|r.errors|] == r.errors;
      forall k | |r.errors| <= k < |a.errors|
        ensures RowOf(a.errors[k]) == c.row
      {
        assert a.errors[k] == added[k - |r.errors|];
        assert a.errors[k] in added;
      }
  }

  /** The errors name only rows of `data`, and the jobs created and the rows that
      failed add up to the rows of `data`. */
  ghost predicate AccountsFor(r: BatchRun, data: seq<Candidate>)
  {
    ErrorRowSet(r.errors) <= RowSet(data) && |r.created| + FailedCount(r.errors) == |data|
  }

  /** An attempt on a row not seen before keeps the account balanced. */
  lemma AttemptAccounts(before: BatchRun, after: BatchRun, init: seq<Candidate>, c: Candidate, id: JobId)
    requires AccountsFor(before, init) && c.row !in RowSet(init)
    requires Added(before, after, id) || Refused(before, after, c.row)
    ensures AccountsFor(after, init + [c])
  {
    assert RowSet(init + [c]) == RowSet(init) + {c.row} by {
      forall x | x in init + [c]
        ensures x in init || x == c
      {
      }
    }
    if Refused(before, after, c.row) {
      var added := after.errors[|before.errors|..];
      assert after.errors == before.errors + added;
      RefusedRows(before.errors, added, c.row);
    } else {
      assert after.errors == before.errors;
    }
  }

  /** Errors appended under one row add that row, and only it, to the failed rows. */
  lemma RefusedRows(errors: seq<BatchError>, added: seq<BatchError>, row: int)
    requires |added| > 0
    requires forall k :: |errors| <= k < |errors + added| ==> RowOf((errors + added)[k]) == row
    ensures ErrorRowSet(errors + added) == ErrorRowSet(errors) + {row}
  {
    forall e | e in added
      ensures RowOf(e) == row
    {
      var k :| 0 <= k < |added| && added[k] == e;
      assert e == (errors + added)[|errors| + k];
    }
    assert added[0] in errors + added;
  }

  /** Every item is attempted, whatever happened to the ones before: each either
      adds one job or fails with errors under its own row only. So the rows that
      failed are rows of the data, and, rows being distinct, the jobs created and
      the rows that failed add up to the rows attempted. */
  lemma {:induction false} RunAccountsForEveryRow(jobs: map<JobId, Job>, ls: seq<Lookup>, p: Platform,
                                                   data: seq<Candidate>, mint: nat -> JobId)
    requires RowsIncrease(data)
    ensures AccountsFor(RunBatch(jobs, ls, p, data, mint), data)
  {
    if |data| > 0 {
      var n := |data| - 1;
      var before := RunBatch(jobs, ls, p, data[..n], mint);
      LastRowIsFresh(data);
      RunAccountsForEveryRow(jobs, ls, p, data[..n], mint);
      AttemptEffect(before, ls, p, data[n], mint(n));
      AccountsForLast(before, RunBatch(jobs, ls, p, data, mint), data, mint(n));
    }
  }

  /** The account of all rows follows from that of the rows before the last and the
      effect of the last attempt. */
  lemma AccountsForLast(before: BatchRun, after: BatchRun, data: seq<Candidate>, id: JobId)
    requires |data| > 0 && RowsIncrease(data)
    requires AccountsFor(before, data[..|data| - 1])
    requires Added(before, after, id) || Refused(before, after, data[|data| - 1].row)
    ensures AccountsFor(after, data)
  {
    var n := |data| - 1;
    LastRowIsFresh(data);
    AttemptAccounts(before, after, data[..n], data[n], id);
    assert data == data[..n] + [data[n]];
  }

  /** In a list of increasing rows, the rows before the last still increase and do
      not include the last one's. */
  lemma LastRowIsFresh(data: seq<Candidate>)
    requires RowsIncrease(data) && |data| > 0
    ensures RowsIncrease(data[..|data| - 1])
    ensures data[|data| - 1].row !in RowSet(data[..|data| - 1])
  {
    var init := data[..|data| - 1];
    var c := data[|data| - 1];
    forall i, j | 0 <= i < j < |init|
      ensures init[i].row < init[j].row
    {
      assert init[i] == data[i] && init[j] == data[j];
    }
    forall d | d in init
      ensures d.row != c.row
    {
      var k :| 0 <= k < |init| && init[k] == d;
      assert data[k] == d;
    }
  }

  /** Every job in `r.created` is in `r.table` as it was created, and the table is
      `jobs`, untouched, grown by exactly those jobs. */
  ghost predicate TableTracks(jobs: map<JobId, Job>, r: BatchRun)
  {
    KeepsRows(jobs, r.table) && HoldsCreated(r.table, r.created) && GrownBy(jobs, r.table, r.created)
  }

  /** Every job of `jobs` is in `table`, unchanged. */
  ghost predicate KeepsRows(jobs: map<JobId, Job>, table: map<JobId, Job>)
  {
    forall id :: id in jobs ==> id in table && table[id] == jobs[id]
  }

  /** Every job of `created` is in `table` under its id, as it was created. */
  ghost predicate HoldsCreated(table: map<JobId, Job>, created: seq<Job>)
  {
    forall k :: 0 <= k < |created| ==> created[k].id in table && table[created[k].id] == created[k]
  }

  /** `table` holds the ids of `jobs` and of `created`, and no other. */
  ghost predicate GrownBy(jobs: map<JobId, Job>, table: map<JobId, Job>, created: seq<Job>)
  {
    table.Keys == jobs.Keys + IdsOf(created) && |table| == |jobs| + |created|
  }

  /** The ids of a list of jobs. */
  function IdsOf(js: seq<Job>): (ids: set<JobId>)
    ensures forall k :: 0 <= k < |js| ==> js[k].id in ids
  {
    if |js| == 0 then {} else IdsOf(js[..|js| - 1]) + {js[|js| - 1].id}
  }

  /** An attempt, whether it adds a job or is refused, keeps the table tracking the
      jobs created. */
  lemma AttemptTracks(jobs: map<JobId, Job>, before: BatchRun, after: BatchRun, id: JobId, row: int)
    requires TableTracks(jobs, before)
    requires Added(before, after, id) || Refused(before, after, row)
    ensures TableTracks(jobs, after)
  {
    if Refused(before, after, row) {
      return;
    }
    var j := after.created[|before.created|];
    assert after == BatchRun(before.table[j.id := j], before.created + [j], before.errors);
    AddTracks(jobs, before.table, before.created, j, before.errors);
  }

  lemma AddTracks(jobs: map<JobId, Job>, table: map<JobId, Job>, created: seq<Job>, j: Job, errors: seq<BatchError>)
    requires KeepsRows(jobs, table) && HoldsCreated(table, created) && GrownBy(jobs, table, created)
    requires j.id !in table
    ensures TableTracks(jobs, BatchRun(table[j.id := j], created + [j], errors))
  {
    AddKeepsRows(jobs, table, j);
    AddHoldsCreated(table, created, j);
    AddGrows(jobs, table, created, j);
  }

  lemma AddKeepsRows(jobs: map<JobId, Job>, table: map<JobId, Job>, j: Job)
    requires KeepsRows(jobs, table) && j.id !in table
    ensures KeepsRows(jobs, table[j.id := j])
  {
  }

  lemma AddHoldsCreated(table: map<JobId, Job>, created: seq<Job>, j: Job)
    requires HoldsCreated(table, created) && j.id !in table
    ensures HoldsCreated(table[j.id := j], created + [j])
  {
    forall k | 0 <= k < |created| + 1
      ensures (created + [j])[k].id in table[j.id := j] && table[j.id := j][(created + [j])[k].id] == (created + [j])[k]
    {
      if k < |created| {
        assert (created + [j])[k] == created[k];
      }
    }
  }

  lemma AddGrows(jobs: map<JobId, Job>, table: map<JobId, Job>, created: seq<Job>, j: Job)
    requires GrownBy(jobs, table, created) && j.id !in table
    ensures GrownBy(jobs, table[j.id := j], created + [j])
  {
    IdsOfSnoc(created, j);
  }

  lemma IdsOfSnoc(js: seq<Job>, j: Job)
    ensures IdsOf(js + [j]) == IdsOf(js) + {j.id}
  {
    assert (js + [j])[..|js|] == js;
  }

  /** Every job the run created is in the final table under its own id, as it was
      created, and the table grew by exactly those jobs. */
  lemma {:induction false} RunAddsCreated(jobs: map<JobId, Job>, ls: seq<Lookup>, p: Platform,
                                          data: seq<Candidate>, mint: nat -> JobId)
    ensures TableTracks(jobs, RunBatch(jobs, ls, p, data, mint))
  {
    if |data| > 0 {
      var n := |data| - 1;
      var id := mint(n);
      RunAddsCreated(jobs, ls, p, data[..n], mint);
      var before := RunBatch(jobs, ls, p, data[..n], mint);
      AttemptEffect(before, ls, p, data[n], id);
      AttemptTracks(jobs, before, RunBatch(jobs, ls, p, data, mint), id, data[n].row);
    } else {
      assert IdsOf(RunBatch(jobs, ls, p, data, mint).created) == {};
    }
  }

  /** The run keeps both uniqueness rules and well-formedness of the table. */
  lemma {:induction false} RunKeepsInvariant(jobs: map<JobId, Job>, ls: seq<Lookup>, p: Platform,
                                             data: seq<Candidate>, mint: nat -> JobId)
    requires StoreInvariant(jobs, ls)
    ensures StoreInvariant(RunBatch(jobs, ls, p, data, mint).table, ls)
  {
    if |data| > 0 {
      var init := data[..|data| - 1];
      var c := data[|data| - 1];
      RunKeepsInvariant(jobs, ls, p, init, mint);
      var before := RunBatch(jobs, ls, p, init, mint);
      if Create(before.table, ls, p, ToInput(c), mint(|data| - 1)).Ok? {
        CreateKeepsInvariant(before.table, ls, p, ToInput(c), mint(|data| - 1));
      }
    }
  }

  /** A refused payload writes nothing and answers the gate's failure. */
  lemma BatchGateRefusal(jobs: map<JobId, Job>, ls: seq<Lookup>, p: Platform, body: Value, mint: nat -> JobId)
    requires PayloadGate(body).Fail?
    ensures Batch(jobs, ls, p, body, mint) == (Fail(PayloadGate(body).failure), jobs)
  {
  }

  /** A preview with any invalid row creates nothing, writes nothing and reports
      every preview error and the number of invalid rows. */
  lemma BatchPreviewRefusal(jobs: map<JobId, Job>, ls: seq<Lookup>, p: Platform, body: Value, mint: nat -> JobId)
    requires PayloadGate(body).Ok?
    requires ErrorRows(AllErrors(PayloadGate(body).value, 1, ls, jobs, p)) != {}
    ensures var errors := AllErrors(PayloadGate(body).value, 1, ls, jobs, p);
      Batch(jobs, ls, p, body, mint) ==
        (Ok(BatchOutcome(0, |ErrorRows(errors)|, [], PreviewIssues(errors))), jobs)
    ensures Batch(jobs, ls, p, body, mint).0.value.failedCount > 0
  {
  }

  /** A clean preview runs every row: the jobs created and the rows that failed add
      up to the rows of the payload, the table keeps every job it had and gains
      exactly the jobs created, and both uniqueness rules still hold. */
  lemma BatchCleanRun(jobs: map<JobId, Job>, ls: seq<Lookup>, p: Platform, body: Value, mint: nat -> JobId)
    requires StoreInvariant(jobs, ls)
    requires PayloadGate(body).Ok?
    requires ErrorRows(AllErrors(PayloadGate(body).value, 1, ls, jobs, p)) == {}
    ensures var (r, table) := Batch(jobs, ls, p, body, mint);
      && r.Ok? && StoreInvariant(table, ls)
      && r.value.createdCount == |r.value.created|
      && r.value.createdCount + r.value.failedCount == |PayloadGate(body).value|
      && TableTracks(jobs, BatchRun(table, r.value.created, r.value.errors))
  {
    var rows := PayloadGate(body).value;
    var bad := ErrorRows(AllErrors(rows, 1, ls, jobs, p));
    var cs := Candidates(rows, 1, IndexFor(ls), p);
    var data := Clean(cs, bad);
    var run := RunBatch(jobs, ls, p, data, mint);
    assert Batch(jobs, ls, p, body, mint) ==
      (Ok(BatchOutcome(|run.created|, FailedCount(run.errors), run.created, run.errors)), run.table);
    PreviewRowsIncrease(rows, 1, ls, p, bad);
    RunAccountsForEveryRow(jobs, ls, p, data, mint);
    RunAddsCreated(jobs, ls, p, data, mint);
    RunKeepsInvariant(jobs, ls, p, data, mint);
    CandidatesNumberedFrom(rows, 1, IndexFor(ls), p);
    CleanCount(cs, 1, bad);
    assert bad * RowsOf(cs) == {};
  }

  /** A run that created nothing leaves the table as it was. */
  lemma NothingCreatedNothingWritten(jobs: map<JobId, Job>, r: BatchRun)
    requires TableTracks(jobs, r) && r.created == []
    ensures r.table == jobs
  {
    assert r.table.Keys == jobs.Keys;
  }

  /** The outcome of a whole request: a refused payload or an invalid preview writes
      nothing, in the second case reporting every invalid row and creating none;
      otherwise every clean row is accounted for as created or failed, the table
      grows by exactly the jobs created, and both uniqueness rules still hold. */
  lemma BatchOutcomeMeaning(jobs: map<JobId, Job>, ls: seq<Lookup>, p: Platform, body: Value, mint: nat -> JobId)
    requires StoreInvariant(jobs, ls)
    ensures var (r, table) := Batch(jobs, ls, p, body, mint);
      && StoreInvariant(table, ls)
      && (PayloadGate(body).Fail? <==> r.Fail?)
      && (r.Ok? ==> r.value.createdCount == |r.value.created| && |table| == |jobs| + r.value.createdCount)
      && (r.Ok? && r.value.createdCount == 0 ==> table == jobs)
  {
    var (r, table) := Batch(jobs, ls, p, body, mint);
    if PayloadGate(body).Fail? {
      BatchGateRefusal(jobs, ls, p, body, mint);
    } else if ErrorRows(AllErrors(PayloadGate(body).value, 1, ls, jobs, p)) != {} {
      BatchPreviewRefusal(jobs, ls, p, body, mint);
    } else {
      BatchCleanRun(jobs, ls, p, body, mint);
      if r.value.createdCount == 0 {
        NothingCreatedNothingWritten(jobs, BatchRun(table, r.value.created, r.value.errors));
      }
    }
  }
}
