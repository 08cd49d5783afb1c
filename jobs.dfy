/**
  Production jobs: the stored record, the create and update bodies with their field
  rules, the two uniqueness rules the store keeps, and how an update merges into a job.
 */
module Jobs {
  import opened Values
  import opened Failures
  import opened Lookups
  import opened JobLifecycle
  import opened Text

  type JobId = string

  /** A stored job. Lookup references are lookup ids; times are timestamps. */
  datatype Job = Job(
    id: JobId,
    workOrder: string,
    salesOrder: string,
    quantityOrder: int,
    quantityUnit: int,
    workCenter: int,
    plannedStartTime: int,
    releaseDate: Option<int>,
    dueDate: Option<int>,
    jobPriority: int,
    lifecycle: State,
    notes: string,
    attribute: Value)

  /** A create body. None is an absent key. An explicit null, which the schema
      refuses on `quantity_order` and `notes`, is `Some(None)` on the first and
      `Some(Null)` on the second; on the other fields null is either refused as
      missing (the required ones) or stored as null (the nullable ones), exactly as
      absence is, so it is folded into None there. */
  datatype JobInput = JobInput(
    workOrder: Option<string>,
    salesOrder: Option<string>,
    quantityOrder: Option<Option<real>>,
    quantityUnit: Option<LookupRef>,
    workCenter: Option<LookupRef>,
    plannedStartTime: Option<BodyDate>,
    releaseDate: Option<BodyDate>,
    dueDate: Option<BodyDate>,
    jobPriority: Option<LookupRef>,
    notes: Option<Value>,
    attribute: Option<Value>)

  /** An update body: None is a key that is absent. `Some(None)` is an explicit
      null: on a date it clears the date, on `quantity_order` the schema refuses it,
      as it refuses `Some(Null)` on `notes`. `unknownKeys` counts the body's keys
      outside the schema's fields: the schema neither refuses nor strips them, so
      they make the body non-empty while the write ignores them. */
  datatype JobPatch = JobPatch(
    workOrder: Option<string>,
    salesOrder: Option<string>,
    quantityOrder: Option<Option<real>>,
    quantityUnit: Option<LookupRef>,
    workCenter: Option<LookupRef>,
    plannedStartTime: Option<BodyDate>,
    releaseDate: Option<Option<BodyDate>>,
    dueDate: Option<Option<BodyDate>>,
    jobPriority: Option<LookupRef>,
    notes: Option<Value>,
    attribute: Option<Value>,
    unknownKeys: nat)

  /** `Object.keys(data).length === 0`: no schema field and no unknown key. */
  predicate IsEmptyPatch(d: JobPatch)
  {
    d == JobPatch(None, None, None, None, None, None, None, None, None, None, None, 0)
  }

  /** The `max(100)` of the two codes, on JavaScript's `length`. */
  const MaxCodeLength: nat := 100

  // ---------------------------------------------------------------------------
  // Field rules of the create and update schemas

  function RequiredText(field: string, v: Option<string>): seq<FieldError>
  {
    if v.None? || v.value == "" then [FieldError(field, field + " is required")]
    else if Utf16Length(v.value) > MaxCodeLength then [FieldError(field, field + " max length is 100")]
    else []
  }

  function OptionalText(field: string, v: Option<string>): seq<FieldError>
  {
    if v.Some? && Utf16Length(v.value) > MaxCodeLength then [FieldError(field, field + " max length is 100")] else []
  }

  /** `number().integer().min(1)`, not nullable: null fails the type test; for a
      number both tests run, so 0.5 fails both. */
  function PositiveQuantity(v: Option<Option<real>>): seq<FieldError>
  {
    if v == Some(None) then [FieldError("quantity_order", "quantity_order must be a `number` type")]
    else
      (if v.Some? && !IsIntegral(v.value.value) then [FieldError("quantity_order", "quantity_order must be integer")] else [])
      + (if v.Some? && v.value.value < 1.0 then [FieldError("quantity_order", "quantity_order minimum is 1")] else [])
  }

  /** A quantity the schema accepts: absent, or a whole number of at least 1. */
  predicate QuantityOk(v: Option<Option<real>>)
  {
    v.Some? ==> v.value.Some? && IsIntegral(v.value.value) && v.value.value >= 1.0
  }

  function Required<T>(field: string, v: Option<T>): seq<FieldError>
  {
    if v.None? then [FieldError(field, field + " is required")] else []
  }

  function NotesText(v: Option<Value>): seq<FieldError>
  {
    if v.Some? && !v.value.Text? then [FieldError("notes", "notes must be a `string` type")] else []
  }

  /** What the create schema demands, field by field. */
  ghost predicate CreateAcceptable(d: JobInput)
  {
    && d.workOrder.Some? && d.workOrder.value != "" && Utf16Length(d.workOrder.value) <= MaxCodeLength
    && d.salesOrder.Some? && d.salesOrder.value != "" && Utf16Length(d.salesOrder.value) <= MaxCodeLength
    && QuantityOk(d.quantityOrder)
    && d.quantityUnit.Some? && d.workCenter.Some? && d.jobPriority.Some?
    && d.plannedStartTime.Some?
    && (d.notes.Some? ==> d.notes.value.Text?)
  }

  /** The create schema, run without stopping at the first failure: the list of
      field errors is empty exactly when the body meets every rule. */
  function CreateErrors(d: JobInput): (errs: seq<FieldError>)
    ensures errs == [] <==> CreateAcceptable(d)
  {
    RequiredText("work_order", d.workOrder)
    + RequiredText("sales_order", d.salesOrder)
    + PositiveQuantity(d.quantityOrder)
    + Required("quantity_unit", d.quantityUnit)
    + Required("work_center", d.workCenter)
    + Required("planned_start_time", d.plannedStartTime)
    + Required("job_priority", d.jobPriority)
    + NotesText(d.notes)
  }

  /** What the update schema demands of the fields that are present. */
  ghost predicate UpdateAcceptable(d: JobPatch)
  {
    && (d.workOrder.Some? ==> Utf16Length(d.workOrder.value) <= MaxCodeLength)
    && (d.salesOrder.Some? ==> Utf16Length(d.salesOrder.value) <= MaxCodeLength)
    && QuantityOk(d.quantityOrder)
    && (d.notes.Some? ==> d.notes.value.Text?)
  }

  /** The update schema: empty exactly when every present field meets its rule. */
  function UpdateErrors(d: JobPatch): (errs: seq<FieldError>)
    ensures errs == [] <==> UpdateAcceptable(d)
  {
    OptionalText("work_order", d.workOrder)
    + OptionalText("sales_order", d.salesOrder)
    + PositiveQuantity(d.quantityOrder)
    + NotesText(d.notes)
  }

  // ---------------------------------------------------------------------------
  // The two uniqueness rules and the checks that guard them

  /** `assertUniqueWorkOrder`'s query: another job (not `except`) has this work order. */
  predicate WorkOrderTaken(jobs: map<JobId, Job>, workOrder: string, except: Option<JobId>)
  {
    exists id :: id in jobs && Some(id) != except && jobs[id].workOrder == workOrder
  }

  /** `assertNoTimeWorkCenterConflict`'s query: another job occupies this slot. */
  predicate SlotTaken(jobs: map<JobId, Job>, workCenter: int, plannedStartTime: int, except: Option<JobId>)
  {
    exists id :: id in jobs && Some(id) != except
      && jobs[id].workCenter == workCenter && jobs[id].plannedStartTime == plannedStartTime
  }

  const WorkOrderExists: Failure :=
    Conflict("Work order already exists", [FieldError("work_order", "Work order already exists")])

  const ScheduleConflict: Failure :=
    Conflict("Schedule conflict", [FieldError("planned_start_time", "planned_start_time conflicts with another job in the same work_center")])

  /** Each job is stored under its own id. */
  ghost predicate IdsMatch(jobs: map<JobId, Job>)
  {
    forall id :: id in jobs ==> jobs[id].id == id
  }

  /** No two jobs share a work order. */
  ghost predicate UniqueWorkOrders(jobs: map<JobId, Job>)
  {
    forall a, b :: a in jobs && b in jobs && a != b ==> jobs[a].workOrder != jobs[b].workOrder
  }

  /** No two jobs share a (work_center, planned_start_time) pair. */
  ghost predicate NoScheduleClash(jobs: map<JobId, Job>)
  {
    forall a, b :: a in jobs && b in jobs && a != b ==>
      jobs[a].workCenter != jobs[b].workCenter || jobs[a].plannedStartTime != jobs[b].plannedStartTime
  }

  /** A job's quantity is at least 1 and its references name lookups of the right type. */
  ghost predicate WellFormed(j: Job, ls: seq<Lookup>)
  {
    && j.quantityOrder >= 1
    && IsLookupOf(ls, j.quantityUnit, QuantityUnit)
    && IsLookupOf(ls, j.workCenter, WorkCenter)
    && IsLookupOf(ls, j.jobPriority, JobPriority)
  }

  ghost predicate StoreInvariant(jobs: map<JobId, Job>, ls: seq<Lookup>)
  {
    && IdsMatch(jobs)
    && UniqueWorkOrders(jobs)
    && NoScheduleClash(jobs)
    && (forall id :: id in jobs ==> WellFormed(jobs[id], ls))
  }

  /** Inserting a well-formed job under a fresh id keeps the invariant exactly when
      neither check of `add` would fire: the checks are what the invariant needs. */
  lemma InsertKeepsInvariant(jobs: map<JobId, Job>, ls: seq<Lookup>, j: Job)
    requires StoreInvariant(jobs, ls)
    requires j.id !in jobs && WellFormed(j, ls)
    ensures StoreInvariant(jobs[j.id := j], ls) <==>
      !WorkOrderTaken(jobs, j.workOrder, None) && !SlotTaken(jobs, j.workCenter, j.plannedStartTime, None)
  {
    var after := jobs[j.id := j];
    if WorkOrderTaken(jobs, j.workOrder, None) {
      var other :| other in jobs && jobs[other].workOrder == j.workOrder;
      assert after[other].workOrder == after[j.id].workOrder;
      assert !UniqueWorkOrders(after);
    }
    if SlotTaken(jobs, j.workCenter, j.plannedStartTime, None) {
      var other :| other in jobs && jobs[other].workCenter == j.workCenter && jobs[other].plannedStartTime == j.plannedStartTime;
      assert after[other].workCenter == after[j.id].workCenter;
      assert !NoScheduleClash(after);
    }
  }

  /** Replacing a job by a well-formed version of itself keeps the invariant exactly
      when neither check of `update` (which excludes the job itself) would fire. */
  lemma ReplaceKeepsInvariant(jobs: map<JobId, Job>, ls: seq<Lookup>, j: Job)
    requires StoreInvariant(jobs, ls)
    requires j.id in jobs && WellFormed(j, ls)
    ensures StoreInvariant(jobs[j.id := j], ls) <==>
      !WorkOrderTaken(jobs, j.workOrder, Some(j.id)) && !SlotTaken(jobs, j.workCenter, j.plannedStartTime, Some(j.id))
  {
    var after := jobs[j.id := j];
    if WorkOrderTaken(jobs, j.workOrder, Some(j.id)) {
      var other :| other in jobs && Some(other) != Some(j.id) && jobs[other].workOrder == j.workOrder;
      assert after[other].workOrder == after[j.id].workOrder;
      assert !UniqueWorkOrders(after);
    }
    if SlotTaken(jobs, j.workCenter, j.plannedStartTime, Some(j.id)) {
      var other :| other in jobs && Some(other) != Some(j.id)
        && jobs[other].workCenter == j.workCenter && jobs[other].plannedStartTime == j.plannedStartTime;
      assert after[other].workCenter == after[j.id].workCenter;
      assert !NoScheduleClash(after);
    }
  }

  /** Removing a job, or changing only its lifecycle state, keeps the invariant. */
  lemma RemoveAndRelabelKeepInvariant(jobs: map<JobId, Job>, ls: seq<Lookup>, id: JobId, s: State)
    requires StoreInvariant(jobs, ls)
    ensures StoreInvariant(jobs - {id}, ls)
    ensures id in jobs ==> StoreInvariant(jobs[id := jobs[id].(lifecycle := s)], ls)
  {
  }

  // ---------------------------------------------------------------------------
  // Create: the record `add` writes

  /** The payload `add` builds once every check has passed: SCHEDULED, quantity 1 and
      notes "-" unless given, attribute null unless given, and a release or due date
      only when the body's value is truthy. */
  function NewJob(id: JobId, d: JobInput, quantityUnit: int, workCenter: int, jobPriority: int): (j: Job)
    requires CreateAcceptable(d)
  {
    Job(
      id := id,
      workOrder := d.workOrder.value,
      salesOrder := d.salesOrder.value,
      quantityOrder := if d.quantityOrder.Some? then d.quantityOrder.value.value.Floor else 1,
      quantityUnit := quantityUnit,
      workCenter := workCenter,
      plannedStartTime := d.plannedStartTime.value.time,
      releaseDate := DateOrNull(d.releaseDate),
      dueDate := DateOrNull(d.dueDate),
      jobPriority := jobPriority,
      lifecycle := Scheduled,
      notes := if d.notes.Some? then d.notes.value.s else "-",
      attribute := if d.attribute.Some? then d.attribute.value else Null)
  }

  /** A created job starts SCHEDULED, carries the body's work order and slot, and has
      quantity at least 1; the defaults apply exactly to the absent fields. */
  lemma NewJobDefaults(id: JobId, d: JobInput, qu: int, wc: int, jp: int)
    requires CreateAcceptable(d)
    ensures NewJob(id, d, qu, wc, jp).lifecycle == Scheduled
    ensures NewJob(id, d, qu, wc, jp).quantityOrder >= 1
    ensures d.quantityOrder.None? ==> NewJob(id, d, qu, wc, jp).quantityOrder == 1
    ensures d.quantityOrder.Some? ==> NewJob(id, d, qu, wc, jp).quantityOrder as real == d.quantityOrder.value.value
    ensures d.notes.None? ==> NewJob(id, d, qu, wc, jp).notes == "-"
    ensures d.attribute.None? ==> NewJob(id, d, qu, wc, jp).attribute == Null
    ensures NewJob(id, d, qu, wc, jp).workOrder == d.workOrder.value
    ensures NewJob(id, d, qu, wc, jp).plannedStartTime == d.plannedStartTime.value.time
    ensures NewJob(id, d, qu, wc, jp).releaseDate.Some? <==> d.releaseDate.Some? && d.releaseDate.value.truthy
    ensures NewJob(id, d, qu, wc, jp).dueDate.Some? <==> d.dueDate.Some? && d.dueDate.value.truthy
    ensures NewJob(id, d, qu, wc, jp).workCenter == wc
  {
  }

  // ---------------------------------------------------------------------------
  // Update: how the supplied fields merge into the current job

  /** Every present lookup reference parses to an id (resolution has passed). */
  ghost predicate PatchRefsParse(d: JobPatch, p: Platform)
  {
    && (d.quantityUnit.Some? ==> ParseLookupId(d.quantityUnit.value, p).Some?)
    && (d.workCenter.Some? ==> ParseLookupId(d.workCenter.value, p).Some?)
    && (d.jobPriority.Some? ==> ParseLookupId(d.jobPriority.value, p).Some?)
  }

  /** `updateData` applied to the current row: a field changes only if it is present
      in the body (`!== undefined`), and then to the supplied value; a release or due
      date that is null or falsy clears the date. */
  function ApplyPatch(j: Job, d: JobPatch, p: Platform): (r: Job)
    requires PatchRefsParse(d, p) && UpdateAcceptable(d)
  {
    j.(
      workOrder := if d.workOrder.Some? then d.workOrder.value else j.workOrder,
      salesOrder := if d.salesOrder.Some? then d.salesOrder.value else j.salesOrder,
      quantityOrder := if d.quantityOrder.Some? then d.quantityOrder.value.value.Floor else j.quantityOrder,
      quantityUnit := if d.quantityUnit.Some? then ParseLookupId(d.quantityUnit.value, p).value else j.quantityUnit,
      workCenter := if d.workCenter.Some? then ParseLookupId(d.workCenter.value, p).value else j.workCenter,
      plannedStartTime := if d.plannedStartTime.Some? then d.plannedStartTime.value.time else j.plannedStartTime,
      releaseDate := if d.releaseDate.Some? then DateOrNull(d.releaseDate.value) else j.releaseDate,
      dueDate := if d.dueDate.Some? then DateOrNull(d.dueDate.value) else j.dueDate,
      jobPriority := if d.jobPriority.Some? then ParseLookupId(d.jobPriority.value, p).value else j.jobPriority,
      notes := if d.notes.Some? then d.notes.value.s else j.notes,
      attribute := if d.attribute.Some? then d.attribute.value else j.attribute)
  }

  /** An update keeps the job's id and lifecycle state, an empty body changes nothing,
      keys outside the schema are not written, and applying the same body twice is
      the same as once. */
  lemma ApplyPatchFrame(j: Job, d: JobPatch, p: Platform)
    requires PatchRefsParse(d, p) && UpdateAcceptable(d)
    ensures ApplyPatch(j, d, p).id == j.id && ApplyPatch(j, d, p).lifecycle == j.lifecycle
    ensures IsEmptyPatch(d) ==> ApplyPatch(j, d, p) == j
    ensures ApplyPatch(j, d.(unknownKeys := 0), p) == ApplyPatch(j, d, p)
    ensures ApplyPatch(ApplyPatch(j, d, p), d, p) == ApplyPatch(j, d, p)
    ensures d.workOrder.None? ==> ApplyPatch(j, d, p).workOrder == j.workOrder
    ensures d.plannedStartTime.None? ==> ApplyPatch(j, d, p).plannedStartTime == j.plannedStartTime
  {
  }

  /** The work order `update` checks: the supplied one if present, else the current. */
  function NextWorkOrder(j: Job, d: JobPatch): string
  {
    if d.workOrder.Some? then d.workOrder.value else j.workOrder
  }

  /** The start time `update` checks, as written: the supplied one only when it is
      truthy (`data.planned_start_time ? new Date(...) : current...`), although the
      write that follows stores any present value. */
  function NextStartTimeAsWritten(j: Job, d: JobPatch): int
  {
    if d.plannedStartTime.Some? && d.plannedStartTime.value.truthy then d.plannedStartTime.value.time
    else j.plannedStartTime
  }

  /** The start time `update` checks, corrected: the supplied one whenever it is
      present, which is the one written. */
  function NextStartTime(j: Job, d: JobPatch): int
  {
    if d.plannedStartTime.Some? then d.plannedStartTime.value.time else j.plannedStartTime
  }

  /** As written, a body `{ planned_start_time: 0 }` on a job in slot (C, t), t not 0,
      is checked against (C, t), which the job itself holds, so the check passes; the
      job is then stored at (C, 0), and a second job already there clashes with it. */
  lemma ZeroStartEscapesCheck(jobs: map<JobId, Job>, id: JobId, other: JobId, p: Platform)
    requires id in jobs && other in jobs && other != id
    requires jobs[other].workCenter == jobs[id].workCenter && jobs[other].plannedStartTime == 0
    requires jobs[id].plannedStartTime != 0
    requires !SlotTaken(jobs, jobs[id].workCenter, jobs[id].plannedStartTime, Some(id))
    ensures var d := JobPatch(None, None, None, None, None, Some(BodyDate(0, false)), None, None, None, None, None, 0);
      && NextStartTimeAsWritten(jobs[id], d) == jobs[id].plannedStartTime
      && !SlotTaken(jobs, jobs[id].workCenter, NextStartTimeAsWritten(jobs[id], d), Some(id))
      && ApplyPatch(jobs[id], d, p).plannedStartTime == 0
      && !NoScheduleClash(jobs[id := ApplyPatch(jobs[id], d, p)])
  {
    var d := JobPatch(None, None, None, None, None, Some(BodyDate(0, false)), None, None, None, None, None, 0);
    var after := jobs[id := ApplyPatch(jobs[id], d, p)];
    assert after[other].workCenter == after[id].workCenter && after[other].plannedStartTime == after[id].plannedStartTime;
  }

  /** JavaScript truthiness of a lookup reference. */
  predicate Truthy(v: LookupRef)
  {
    match v
    case RefId(i) => i != 0
    case RefText(s) => s != ""
    case RefOther(t) => t
  }

  /** The work center `update` checks, as written: it resolves the supplied value only
      when it is truthy (`data.work_center ? ... : current.work_center`), although the
      write that follows stores any present value. */
  function CenterToCheckAsWritten(j: Job, d: JobPatch, ls: seq<Lookup>, p: Platform): Result<int>
  {
    if d.workCenter.Some? && Truthy(d.workCenter.value) then
      match ResolveLookup(ls, d.workCenter.value, WorkCenter, "work_center", p)
      case Ok(l) => Ok(l.id)
      case Fail(f) => Fail(f)
    else Ok(j.workCenter)
  }

  /** As written, a body `{ work_center: 0 }` is checked against the job's current slot
      and resolves no lookup, yet the merged job would store work center 0, which is
      the id of no lookup at all. */
  lemma ZeroCenterEscapesChecks(j: Job, ls: seq<Lookup>, p: Platform)
    requires ValidLookups(ls)
    ensures var d := JobPatch(None, None, None, None, Some(RefId(0)), None, None, None, None, None, None, 0);
      && CenterToCheckAsWritten(j, d, ls, p) == Ok(j.workCenter)
      && ApplyPatch(j, d, p).workCenter == 0
      && !IsLookupOf(ls, ApplyPatch(j, d, p).workCenter, WorkCenter)
  {
  }

  /** The work center `update` checks, corrected: any present value is resolved, so
      the center checked is the center written, and it is a WORK_CENTER lookup. */
  function CenterToCheck(j: Job, d: JobPatch, ls: seq<Lookup>, p: Platform): (r: Result<int>)
    ensures r.Ok? && d.workCenter.Some? ==> ParseLookupId(d.workCenter.value, p) == Some(r.value)
    ensures r.Ok? ==> d.workCenter.Some? || r.value == j.workCenter
    ensures r.Ok? && d.workCenter.Some? ==> IsLookupOf(ls, r.value, WorkCenter)
  {
    if d.workCenter.Some? then
      match ResolveLookup(ls, d.workCenter.value, WorkCenter, "work_center", p)
      case Ok(l) => Ok(l.id)
      case Fail(f) => Fail(f)
    else Ok(j.workCenter)
  }

  /** With the correction, the work order and slot `update` checks are exactly those
      of the job it writes. */
  lemma CheckedIsWritten(j: Job, d: JobPatch, ls: seq<Lookup>, p: Platform)
    requires PatchRefsParse(d, p) && UpdateAcceptable(d)
    requires CenterToCheck(j, d, ls, p).Ok?
    ensures ApplyPatch(j, d, p).workOrder == NextWorkOrder(j, d)
    ensures ApplyPatch(j, d, p).workCenter == CenterToCheck(j, d, ls, p).value
    ensures ApplyPatch(j, d, p).plannedStartTime == NextStartTime(j, d)
  {
  }
}
