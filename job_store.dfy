/**
  The job service over an in-memory table: the table of jobs the store keeps,
  the lookup table it reads, and the entry points that change or read them. Every
  entry point runs its checks in the service's order and writes only on success;
  each is proved to compute the decision `JobService` defines and to keep both
  uniqueness rules.
 */
module JobStore {
  import opened Values
  import opened Text
  import opened Failures
  import opened Lookups
  import opened JobLifecycle
  import opened Jobs
  import opened JobService
  import opened ImportRows
  import opened ImportPreview
  import opened BatchGate
  import opened JobBatch

  /** An uploaded file as the framework hands it over: the bytes and the client's
      file name, either of which can be missing. */
  datatype Upload = Upload(buffer: Option<seq<bv8>>, originalName: Option<string>)

  const FileRequired: Failure := Invalid("file", "Excel file is required")
  const WrongExtension: Failure := Invalid("file", "Only .xlsx or .xls files are allowed")
  const Unreadable: Failure := Invalid("file", "Failed to parse excel file")

  predicate EndsWith(s: string, suffix: string)
  {
    |suffix| <= |s| && s[|s| - |suffix|..] == suffix
  }

  /** The extension test, on the lower-cased name. */
  predicate SpreadsheetName(name: string)
  {
    EndsWith(ToLower(name), ".xlsx") || EndsWith(ToLower(name), ".xls")
  }

  /** The preview of `rows` against the table `jobs`, as `validateJobImportRows`
      reports it. */
  function Preview(jobs: map<JobId, Job>, ls: seq<Lookup>, p: Platform, rows: seq<Row>, rowStart: int): PreviewResult
  {
    var errors := AllErrors(rows, rowStart, ls, jobs, p);
    var data := Clean(Candidates(rows, rowStart, IndexFor(ls), p), ErrorRows(errors));
    PreviewResult(|rows|, |data|, |ErrorRows(errors)|, data, errors)
  }

  /** A sheet without rows previews as all zeros, which is what the upload path
      returns for it without running the preview. */
  lemma EmptyPreview(jobs: map<JobId, Job>, ls: seq<Lookup>, p: Platform, rowStart: int)
    ensures Preview(jobs, ls, p, [], rowStart) == PreviewResult(0, 0, 0, [], [])
  {
    assert Candidates([], rowStart, IndexFor(ls), p) == [];
    assert ParseErrors([], rowStart, IndexFor(ls), p) == [];
    assert AllErrors([], rowStart, ls, jobs, p) == [];
  }

  class Store {
    var jobs: map<JobId, Job>
    const lookups: seq<Lookup>
    const platform: Platform

    /** Both uniqueness rules, ids matching keys and well-formed jobs, over a lookup
        table with distinct positive ids. */
    ghost predicate Valid()
      reads this
    {
      StoreInvariant(jobs, lookups) && ValidLookups(lookups)
    }

    constructor(ls: seq<Lookup>, p: Platform)
      requires ValidLookups(ls)
      ensures Valid() && jobs == map[] && lookups == ls && platform == p
    {
      jobs := map[];
      lookups := ls;
      platform := p;
    }

    /** `add`, with `id` the id the table mints for the new row. */
    method Add(d: JobInput, id: JobId) returns (r: Result<Job>)
      requires Valid()
      modifies this
      ensures Valid()
      ensures r == Create(old(jobs), lookups, platform, d, id)
      ensures r.Ok? ==> jobs == old(jobs)[id := r.value]
      ensures r.Fail? ==> jobs == old(jobs)
    {
      var errors := CreateErrors(d);
      if errors != [] {
        return Fail(BadRequest(errors));
      }
      var unit := ResolveLookup(lookups, d.quantityUnit.value, QuantityUnit, "quantity_unit", platform);
      if unit.Fail? {
        return Fail(unit.failure);
      }
      var center := ResolveLookup(lookups, d.workCenter.value, WorkCenter, "work_center", platform);
      if center.Fail? {
        return Fail(center.failure);
      }
      var priority := ResolveLookup(lookups, d.jobPriority.value, JobPriority, "job_priority", platform);
      if priority.Fail? {
        return Fail(priority.failure);
      }
      if WorkOrderTaken(jobs, d.workOrder.value, None) {
        return Fail(WorkOrderExists);
      }
      if SlotTaken(jobs, center.value.id, d.plannedStartTime.value.time, None) {
        return Fail(ScheduleConflict);
      }
      if id in jobs {
        return Fail(IdInUse);
      }
      var job := NewJob(id, d, unit.value.id, center.value.id, priority.value.id);
      CreateKeepsInvariant(jobs, lookups, platform, d, id);
      jobs := jobs[id := job];
      r := Ok(job);
    }

    /** `update`, with the work center resolved whenever it is present. */
    method Update(id: JobId, d: JobPatch) returns (r: Result<Job>)
      requires Valid()
      modifies this
      ensures Valid()
      ensures r == Modify(old(jobs), lookups, platform, id, d)
      ensures r.Ok? ==> jobs == old(jobs)[id := r.value]
      ensures r.Fail? ==> jobs == old(jobs)
    {
      if !platform.isUuid(id) {
        return Fail(InvalidId);
      }
      var errors := UpdateErrors(d);
      if errors != [] {
        return Fail(BadRequest(errors));
      }
      if IsEmptyPatch(d) {
        return Fail(EmptyPatch);
      }
      if id !in jobs {
        return Fail(JobNotFound);
      }
      var current := jobs[id];
      var gate := EnsureScheduled(current.lifecycle, EditGate);
      if gate.Fail? {
        return Fail(gate.failure);
      }
      var center := CenterToCheck(current, d, lookups, platform);
      if center.Fail? {
        return Fail(center.failure);
      }
      if WorkOrderTaken(jobs, NextWorkOrder(current, d), Some(id)) {
        return Fail(WorkOrderExists);
      }
      if SlotTaken(jobs, center.value, NextStartTime(current, d), Some(id)) {
        return Fail(ScheduleConflict);
      }
      var unit := ResolvePresent(lookups, d.quantityUnit, QuantityUnit, "quantity_unit", platform);
      if unit.Fail? {
        return Fail(unit.failure);
      }
      var priority := ResolvePresent(lookups, d.jobPriority, JobPriority, "job_priority", platform);
      if priority.Fail? {
        return Fail(priority.failure);
      }
      var updated := ApplyPatch(current, d, platform);
      assert Modify(jobs, lookups, platform, id, d) == Ok(updated);
      ModifyKeepsInvariant(jobs, lookups, platform, id, d);
      jobs := jobs[id := updated];
      r := Ok(updated);
    }

    /** `remove`: only a SCHEDULED job is deleted; the result is the job removed. */
    method Remove(id: JobId) returns (r: Result<Job>)
      requires Valid()
      modifies this
      ensures Valid()
      ensures r == Delete(old(jobs), platform, id)
      ensures r.Ok? ==> jobs == old(jobs) - {id}
      ensures r.Fail? ==> jobs == old(jobs)
    {
      if !platform.isUuid(id) {
        return Fail(InvalidId);
      }
      if id !in jobs {
        return Fail(JobNotFound);
      }
      var current := jobs[id];
      var gate := EnsureScheduled(current.lifecycle, DeleteGate);
      if gate.Fail? {
        return Fail(gate.failure);
      }
      RemoveAndRelabelKeepInvariant(jobs, lookups, id, current.lifecycle);
      jobs := jobs - {id};
      r := Ok(current);
    }

    /** `transition`: a forbidden move fails and leaves the table as it was. */
    method Transition(id: JobId, a: Action) returns (r: Result<Job>)
      requires Valid()
      modifies this
      ensures Valid()
      ensures r == Move(old(jobs), platform, id, a)
      ensures r.Ok? ==> jobs == old(jobs)[id := r.value]
      ensures r.Fail? ==> jobs == old(jobs)
    {
      if !platform.isUuid(id) {
        return Fail(InvalidId);
      }
      if id !in jobs {
        return Fail(JobNotFound);
      }
      var current := jobs[id];
      var next := Step(current.lifecycle, a);
      if next.Fail? {
        return Fail(next.failure);
      }
      RemoveAndRelabelKeepInvariant(jobs, lookups, id, next.value);
      var moved := current.(lifecycle := next.value);
      jobs := jobs[id := moved];
      r := Ok(moved);
    }

    method ReleaseJob(id: JobId) returns (r: Result<Job>)
      requires Valid()
      modifies this
      ensures Valid()
      ensures r == Move(old(jobs), platform, id, Release)
      ensures jobs == if r.Ok? then old(jobs)[id := r.value] else old(jobs)
    {
      r := Transition(id, Release);
    }

    method RunJob(id: JobId) returns (r: Result<Job>)
      requires Valid()
      modifies this
      ensures Valid()
      ensures r == Move(old(jobs), platform, id, Run)
      ensures jobs == if r.Ok? then old(jobs)[id := r.value] else old(jobs)
    {
      r := Transition(id, Run);
    }

    method SuspendJob(id: JobId) returns (r: Result<Job>)
      requires Valid()
      modifies this
      ensures Valid()
      ensures r == Move(old(jobs), platform, id, Suspend)
      ensures jobs == if r.Ok? then old(jobs)[id := r.value] else old(jobs)
    {
      r := Transition(id, Suspend);
    }

    method CompleteJob(id: JobId) returns (r: Result<Job>)
      requires Valid()
      modifies this
      ensures Valid()
      ensures r == Move(old(jobs), platform, id, Complete)
      ensures jobs == if r.Ok? then old(jobs)[id := r.value] else old(jobs)
    {
      r := Transition(id, Complete);
    }

    method CloseJob(id: JobId) returns (r: Result<Job>)
      requires Valid()
      modifies this
      ensures Valid()
      ensures r == Move(old(jobs), platform, id, Close)
      ensures jobs == if r.Ok? then old(jobs)[id := r.value] else old(jobs)
    {
      r := Transition(id, Close);
    }

    /** `validateJobImportRows` against the current table; it writes nothing. */
    method PreviewRows(rows: seq<Row>, rowStart: int) returns (r: PreviewResult)
      ensures r == Preview(jobs, lookups, platform, rows, rowStart)
      ensures r.validRows + r.invalidRows == r.totalRows == |rows|
    {
      r := ValidateRows(jobs, lookups, platform, rows, rowStart);
    }

    /** `uploadPreviewExcel`, with `read` standing for the spreadsheet reader (None
        when it throws): the file checks, then the preview of the sheet's rows
        numbered from 2, the header being row 1. */
    method UploadPreview(file: Upload, read: seq<bv8> -> Option<seq<Row>>) returns (r: Result<PreviewResult>)
      ensures file.buffer.None? || file.originalName.None? || file.originalName.value == "" ==>
        r == Fail(FileRequired)
      ensures file.buffer.Some? && file.originalName.Some? && file.originalName.value != "" ==>
        && (!SpreadsheetName(file.originalName.value) ==> r == Fail(WrongExtension))
        && (SpreadsheetName(file.originalName.value) && read(file.buffer.value).None? ==> r == Fail(Unreadable))
        && (SpreadsheetName(file.originalName.value) && read(file.buffer.value).Some? ==>
              r == Ok(Preview(jobs, lookups, platform, read(file.buffer.value).value, 2)))
    {
      if file.buffer.None? || file.originalName.None? || file.originalName.value == "" {
        return Fail(FileRequired);
      }
      if !SpreadsheetName(file.originalName.value) {
        return Fail(WrongExtension);
      }
      var sheet := read(file.buffer.value);
      if sheet.None? {
        return Fail(Unreadable);
      }
      var rows := sheet.value;
      if |rows| == 0 {
        EmptyPreview(jobs, lookups, platform, 2);
        return Ok(PreviewResult(0, 0, 0, [], []));
      }
      var preview := PreviewRows(rows, 2);
      r := Ok(preview);
    }

    /** `batchCreateFromJson`, with `mint(k)` the id the table mints for the k-th
        clean row: the payload gate, the preview of the rows numbered from 1, the
        refusal when any row is invalid, and otherwise one `add` per clean row. */
    method BatchCreate(body: Value, mint: nat -> JobId) returns (r: Result<BatchOutcome>)
      requires Valid()
      modifies this
      ensures Valid()
      ensures (r, jobs) == Batch(old(jobs), lookups, platform, body, mint)
    {
      var gate := CheckPayload(body);
      if gate.Fail? {
        return Fail(gate.failure);
      }
      var preview := PreviewRows(gate.value, 1);
      if preview.invalidRows > 0 {
        return Ok(BatchOutcome(0, preview.invalidRows, [], PreviewIssues(preview.errors)));
      }
      BatchOfCleanPreview(jobs, lookups, platform, body, mint);
      var created, errors := AddAll(preview.data, mint);
      r := Ok(BatchOutcome(|created|, FailedCount(errors), created, errors));
    }

    /** The loop of `batchCreateFromJson`: one `add` per row, whatever happened to
        the ones before, collecting the jobs saved and the errors of the others. */
    method AddAll(data: seq<Candidate>, mint: nat -> JobId) returns (created: seq<Job>, errors: seq<BatchError>)
      requires Valid()
      modifies this
      ensures Valid()
      ensures BatchRun(jobs, created, errors) == RunBatch(old(jobs), lookups, platform, data, mint)
    {
      created, errors := [], [];
      var k := 0;
      while k < |data|
        invariant 0 <= k <= |data|
        invariant Valid()
        invariant BatchRun(jobs, created, errors) == RunBatch(old(jobs), lookups, platform, data[..k], mint)
      {
        RunBatchStep(old(jobs), lookups, platform, data, mint, k);
        ghost var before := BatchRun(jobs, created, errors);
        var saved := Add(ToInput(data[k]), mint(k));
        if saved.Ok? {
          created := created + [saved.value];
        } else {
          errors := errors + AddErrors(data[k].row, saved.failure);
        }
        assert BatchRun(jobs, created, errors) == Record(before, data[k].row, mint(k), saved);
        k := k + 1;
      }
      assert data[..k] == data;
    }
  }
}
