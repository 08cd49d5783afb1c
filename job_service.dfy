/**
  What `add`, `update`, `remove` and `transition` decide, as functions of the stored
  jobs and the request: the failure they throw, checked in the order the service
  checks, or the job they write. The store class runs these decisions against its
  own table.
 */
module JobService {
  import opened Values
  import opened Failures
  import opened Lookups
  import opened JobLifecycle
  import opened Jobs

  const InvalidId: Failure := Invalid("id", "Invalid UUID format")
  const EmptyPatch: Failure := Invalid("body", "At least one field is required")
  const JobNotFound: Failure := NotFound("Job not found")
  /** The insert itself fails when the minted id is already a key of the table. */
  const IdInUse: Failure := StorageError("Job id already in use")

  // ---------------------------------------------------------------------------
  // add

  /** `add`: the create schema, the three lookups in field order, the two uniqueness
      checks, then the insert of the new SCHEDULED job under the minted id. A job it
      returns is well formed and clashes with no stored job. */
  function Create(jobs: map<JobId, Job>, ls: seq<Lookup>, p: Platform, d: JobInput, id: JobId): (r: Result<Job>)
    ensures CreateErrors(d) != [] ==> r == Fail(BadRequest(CreateErrors(d)))
    ensures r.Ok? ==> && r.value.id == id && id !in jobs
                      && r.value.lifecycle == Scheduled && WellFormed(r.value, ls)
                      && !WorkOrderTaken(jobs, r.value.workOrder, None)
                      && !SlotTaken(jobs, r.value.workCenter, r.value.plannedStartTime, None)
  {
    if CreateErrors(d) != [] then Fail(BadRequest(CreateErrors(d)))
    else
      match ResolveLookup(ls, d.quantityUnit.value, QuantityUnit, "quantity_unit", p)
      case Fail(f) => Fail(f)
      case Ok(qu) =>
        match ResolveLookup(ls, d.workCenter.value, WorkCenter, "work_center", p)
        case Fail(f) => Fail(f)
        case Ok(wc) =>
          match ResolveLookup(ls, d.jobPriority.value, JobPriority, "job_priority", p)
          case Fail(f) => Fail(f)
          case Ok(jp) =>
            if WorkOrderTaken(jobs, d.workOrder.value, None) then Fail(WorkOrderExists)
            else if SlotTaken(jobs, wc.id, d.plannedStartTime.value.time, None) then Fail(ScheduleConflict)
            else if id in jobs then Fail(IdInUse)
            else Ok(NewJob(id, d, qu.id, wc.id, jp.id))
  }

  /** The three references of a create body name lookups of their types. */
  ghost predicate CreateRefsResolve(ls: seq<Lookup>, d: JobInput, p: Platform)
    requires d.quantityUnit.Some? && d.workCenter.Some? && d.jobPriority.Some?
  {
    && ParseLookupId(d.quantityUnit.value, p).Some? && IsLookupOf(ls, ParseLookupId(d.quantityUnit.value, p).value, QuantityUnit)
    && ParseLookupId(d.workCenter.value, p).Some? && IsLookupOf(ls, ParseLookupId(d.workCenter.value, p).value, WorkCenter)
    && ParseLookupId(d.jobPriority.value, p).Some? && IsLookupOf(ls, ParseLookupId(d.jobPriority.value, p).value, JobPriority)
  }

  /** `add` succeeds exactly when the body meets the schema, its references resolve,
      its work order and slot are free and the id is new; it then writes the body's
      values with the defaults for the absent ones. */
  lemma CreateSucceeds(jobs: map<JobId, Job>, ls: seq<Lookup>, p: Platform, d: JobInput, id: JobId)
    requires ValidLookups(ls)
    ensures Create(jobs, ls, p, d, id).Ok? <==>
      && CreateAcceptable(d) && CreateRefsResolve(ls, d, p)
      && !WorkOrderTaken(jobs, d.workOrder.value, None)
      && !SlotTaken(jobs, ParseLookupId(d.workCenter.value, p).value, d.plannedStartTime.value.time, None)
      && id !in jobs
    ensures Create(jobs, ls, p, d, id).Ok? ==>
      Create(jobs, ls, p, d, id).value == NewJob(id, d, ParseLookupId(d.quantityUnit.value, p).value,
        ParseLookupId(d.workCenter.value, p).value, ParseLookupId(d.jobPriority.value, p).value)
  {
    if CreateAcceptable(d) {
      ResolveLookupSucceeds(ls, d.quantityUnit.value, QuantityUnit, "quantity_unit", p);
      ResolveLookupSucceeds(ls, d.workCenter.value, WorkCenter, "work_center", p);
      ResolveLookupSucceeds(ls, d.jobPriority.value, JobPriority, "job_priority", p);
    }
  }

  /** A taken work order, or a taken slot, makes `add` fail with the conflict and
      write nothing. */
  lemma CreateRefusesTaken(jobs: map<JobId, Job>, ls: seq<Lookup>, p: Platform, d: JobInput, id: JobId)
    requires CreateAcceptable(d)
    ensures WorkOrderTaken(jobs, d.workOrder.value, None) ==> Create(jobs, ls, p, d, id).Fail?
    ensures ParseLookupId(d.workCenter.value, p).Some?
      && SlotTaken(jobs, ParseLookupId(d.workCenter.value, p).value, d.plannedStartTime.value.time, None)
      ==> Create(jobs, ls, p, d, id).Fail?
    ensures Create(jobs, ls, p, d, id) == Fail(WorkOrderExists) ==> WorkOrderTaken(jobs, d.workOrder.value, None)
  {
    var r := Create(jobs, ls, p, d, id);
    if r.Ok? {
      assert r.value.workOrder == d.workOrder.value;
      assert r.value.plannedStartTime == d.plannedStartTime.value.time;
    }
  }

  /** Inserting what `add` returns keeps both uniqueness rules and well-formedness. */
  lemma CreateKeepsInvariant(jobs: map<JobId, Job>, ls: seq<Lookup>, p: Platform, d: JobInput, id: JobId)
    requires StoreInvariant(jobs, ls)
    requires Create(jobs, ls, p, d, id).Ok?
    ensures StoreInvariant(jobs[id := Create(jobs, ls, p, d, id).value], ls)
  {
    InsertKeepsInvariant(jobs, ls, Create(jobs, ls, p, d, id).value);
  }

  // ---------------------------------------------------------------------------
  // update

  /** The resolution `update` runs for an optional reference: none when the field is
      absent, `resolveLookup` when it is present. */
  function ResolvePresent(ls: seq<Lookup>, v: Option<LookupRef>, t: LookupType, field: string, p: Platform)
    : (r: Result<()>)
    ensures r.Ok? && v.Some? ==> ParseLookupId(v.value, p).Some? && IsLookupOf(ls, ParseLookupId(v.value, p).value, t)
    ensures v.None? ==> r.Ok?
  {
    if v.None? then Ok(())
    else
      match ResolveLookup(ls, v.value, t, field, p)
      case Ok(_) => Ok(())
      case Fail(f) => Fail(f)
  }

  /** `update`, with the work center resolved whenever it is present (see
      `CenterToCheck`): the id, the schema, the empty body, the job, the SCHEDULED
      gate, the merged work order and slot against every other job, the remaining
      references, then the merge. */
  function Modify(jobs: map<JobId, Job>, ls: seq<Lookup>, p: Platform, id: JobId, d: JobPatch): (r: Result<Job>)
    ensures p.isUuid(id) && IsEmptyPatch(d) ==> r == Fail(EmptyPatch)
    ensures r.Ok? ==> && id in jobs && jobs[id].lifecycle == Scheduled
                      && r.value.id == jobs[id].id && r.value.lifecycle == Scheduled
                      && !WorkOrderTaken(jobs, r.value.workOrder, Some(id))
                      && !SlotTaken(jobs, r.value.workCenter, r.value.plannedStartTime, Some(id))
  {
    if !p.isUuid(id) then Fail(InvalidId)
    else if UpdateErrors(d) != [] then Fail(BadRequest(UpdateErrors(d)))
    else if IsEmptyPatch(d) then Fail(EmptyPatch)
    else if id !in jobs then Fail(JobNotFound)
    else
      var current := jobs[id];
      match EnsureScheduled(current.lifecycle, EditGate)
      case Fail(f) => Fail(f)
      case Ok(_) =>
        match CenterToCheck(current, d, ls, p)
        case Fail(f) => Fail(f)
        case Ok(wc) =>
          if WorkOrderTaken(jobs, NextWorkOrder(current, d), Some(id)) then Fail(WorkOrderExists)
          else if SlotTaken(jobs, wc, NextStartTime(current, d), Some(id)) then Fail(ScheduleConflict)
          else
            match ResolvePresent(ls, d.quantityUnit, QuantityUnit, "quantity_unit", p)
            case Fail(f) => Fail(f)
            case Ok(_) =>
              match ResolvePresent(ls, d.jobPriority, JobPriority, "job_priority", p)
              case Fail(f) => Fail(f)
              case Ok(_) =>
                CheckedIsWritten(current, d, ls, p);
                ApplyPatchFrame(current, d, p);
                Ok(ApplyPatch(current, d, p))
  }

  /** The references an update body supplies name lookups of their types. */
  ghost predicate PatchRefsResolve(ls: seq<Lookup>, d: JobPatch, p: Platform)
  {
    && (d.quantityUnit.Some? ==>
          ParseLookupId(d.quantityUnit.value, p).Some? && IsLookupOf(ls, ParseLookupId(d.quantityUnit.value, p).value, QuantityUnit))
    && (d.workCenter.Some? ==>
          ParseLookupId(d.workCenter.value, p).Some? && IsLookupOf(ls, ParseLookupId(d.workCenter.value, p).value, WorkCenter))
    && (d.jobPriority.Some? ==>
          ParseLookupId(d.jobPriority.value, p).Some? && IsLookupOf(ls, ParseLookupId(d.jobPriority.value, p).value, JobPriority))
  }

  /** `update` succeeds exactly when the id is a UUID, the body meets the schema and
      is not empty, the job exists and is SCHEDULED, every supplied reference
      resolves, and the merged job's work order and slot are free of every other
      job; it then answers the merged job. */
  lemma ModifySucceeds(jobs: map<JobId, Job>, ls: seq<Lookup>, p: Platform, id: JobId, d: JobPatch)
    requires ValidLookups(ls)
    ensures Modify(jobs, ls, p, id, d).Ok? <==>
      && p.isUuid(id) && UpdateAcceptable(d) && !IsEmptyPatch(d)
      && id in jobs && jobs[id].lifecycle == Scheduled
      && PatchRefsResolve(ls, d, p)
      && !WorkOrderTaken(jobs, ApplyPatch(jobs[id], d, p).workOrder, Some(id))
      && !SlotTaken(jobs, ApplyPatch(jobs[id], d, p).workCenter, ApplyPatch(jobs[id], d, p).plannedStartTime, Some(id))
    ensures Modify(jobs, ls, p, id, d).Ok? ==>
      PatchRefsParse(d, p) && UpdateAcceptable(d) && Modify(jobs, ls, p, id, d).value == ApplyPatch(jobs[id], d, p)
  {
    var r := Modify(jobs, ls, p, id, d);
    if p.isUuid(id) && UpdateAcceptable(d) && !IsEmptyPatch(d) && id in jobs && jobs[id].lifecycle == Scheduled {
      var cur := jobs[id];
      var wc := CenterToCheck(cur, d, ls, p);
      var qu := ResolvePresent(ls, d.quantityUnit, QuantityUnit, "quantity_unit", p);
      var jp := ResolvePresent(ls, d.jobPriority, JobPriority, "job_priority", p);
      if d.quantityUnit.Some? {
        ResolveLookupSucceeds(ls, d.quantityUnit.value, QuantityUnit, "quantity_unit", p);
      }
      if d.workCenter.Some? {
        ResolveLookupSucceeds(ls, d.workCenter.value, WorkCenter, "work_center", p);
      }
      if d.jobPriority.Some? {
        ResolveLookupSucceeds(ls, d.jobPriority.value, JobPriority, "job_priority", p);
      }
      assert PatchRefsResolve(ls, d, p) <==> wc.Ok? && qu.Ok? && jp.Ok?;
      if PatchRefsResolve(ls, d, p) {
        CheckedIsWritten(cur, d, ls, p);
        assert r.Ok? <==> !WorkOrderTaken(jobs, NextWorkOrder(cur, d), Some(id))
                          && !SlotTaken(jobs, wc.value, NextStartTime(cur, d), Some(id));
      }
    }
  }

  /** A body made only of keys outside the schema is not empty, so on a SCHEDULED
      job of a consistent table `update` accepts it and answers the job unchanged. */
  lemma UnknownKeysKeepJob(jobs: map<JobId, Job>, ls: seq<Lookup>, p: Platform, id: JobId, n: nat)
    requires ValidLookups(ls) && StoreInvariant(jobs, ls)
    requires p.isUuid(id) && id in jobs && jobs[id].lifecycle == Scheduled && n > 0
    ensures var d := JobPatch(None, None, None, None, None, None, None, None, None, None, None, n);
      Modify(jobs, ls, p, id, d) == Ok(jobs[id])
  {
    var d := JobPatch(None, None, None, None, None, None, None, None, None, None, None, n);
    var cur := jobs[id];
    assert ApplyPatch(cur, d, p) == cur;
    ModifySucceeds(jobs, ls, p, id, d);
  }

  /** What `update` writes: every supplied field takes the supplied value and every
      absent field keeps the current one; a release or due date that is supplied as
      null or as a falsy value is cleared. */
  lemma ModifyWritesSupplied(jobs: map<JobId, Job>, ls: seq<Lookup>, p: Platform, id: JobId, d: JobPatch)
    requires Modify(jobs, ls, p, id, d).Ok?
    ensures var j, cur := Modify(jobs, ls, p, id, d).value, jobs[id];
      && j.workOrder == (if d.workOrder.Some? then d.workOrder.value else cur.workOrder)
      && j.salesOrder == (if d.salesOrder.Some? then d.salesOrder.value else cur.salesOrder)
      && (d.quantityOrder.Some? ==> j.quantityOrder as real == d.quantityOrder.value.value)
      && (d.quantityOrder.None? ==> j.quantityOrder == cur.quantityOrder)
      && (d.quantityUnit.Some? ==> Some(j.quantityUnit) == ParseLookupId(d.quantityUnit.value, p))
      && (d.quantityUnit.None? ==> j.quantityUnit == cur.quantityUnit)
      && (d.workCenter.Some? ==> Some(j.workCenter) == ParseLookupId(d.workCenter.value, p))
      && (d.workCenter.None? ==> j.workCenter == cur.workCenter)
      && j.plannedStartTime == (if d.plannedStartTime.Some? then d.plannedStartTime.value.time else cur.plannedStartTime)
      && (d.releaseDate.None? ==> j.releaseDate == cur.releaseDate)
      && (d.releaseDate.Some? ==> (j.releaseDate.Some? <==> d.releaseDate.value.Some? && d.releaseDate.value.value.truthy))
      && (j.releaseDate.Some? && d.releaseDate.Some? ==> j.releaseDate.value == d.releaseDate.value.value.time)
      && (d.dueDate.None? ==> j.dueDate == cur.dueDate)
      && (d.dueDate.Some? ==> (j.dueDate.Some? <==> d.dueDate.value.Some? && d.dueDate.value.value.truthy))
      && (j.dueDate.Some? && d.dueDate.Some? ==> j.dueDate.value == d.dueDate.value.value.time)
      && (d.jobPriority.Some? ==> Some(j.jobPriority) == ParseLookupId(d.jobPriority.value, p))
      && (d.jobPriority.None? ==> j.jobPriority == cur.jobPriority)
      && (d.notes.Some? ==> d.notes.value == Text(j.notes))
      && (d.notes.None? ==> j.notes == cur.notes)
      && j.attribute == (if d.attribute.Some? then d.attribute.value else cur.attribute)
      && j.id == cur.id && j.lifecycle == cur.lifecycle
  {
  }

  /** Replacing the job by what `update` returns keeps both uniqueness rules and
      well-formedness: the checks used the values that are written. */
  lemma ModifyKeepsInvariant(jobs: map<JobId, Job>, ls: seq<Lookup>, p: Platform, id: JobId, d: JobPatch)
    requires StoreInvariant(jobs, ls)
    requires Modify(jobs, ls, p, id, d).Ok?
    ensures StoreInvariant(jobs[id := Modify(jobs, ls, p, id, d).value], ls)
  {
    var j := Modify(jobs, ls, p, id, d).value;
    var cur := jobs[id];
    ModifyWritesSupplied(jobs, ls, p, id, d);
    assert WellFormed(cur, ls);
    assert UpdateAcceptable(d);
    var wc := CenterToCheck(cur, d, ls, p);
    assert wc.Ok?;
    assert ResolvePresent(ls, d.quantityUnit, QuantityUnit, "quantity_unit", p).Ok?;
    assert ResolvePresent(ls, d.jobPriority, JobPriority, "job_priority", p).Ok?;
    assert WellFormed(j, ls);
    ReplaceKeepsInvariant(jobs, ls, j);
  }

  // ---------------------------------------------------------------------------
  // remove and transition

  /** `remove`: the id, the job, the SCHEDULED gate; on success the removed job. */
  function Delete(jobs: map<JobId, Job>, p: Platform, id: JobId): (r: Result<Job>)
    ensures r.Ok? <==> p.isUuid(id) && id in jobs && jobs[id].lifecycle == Scheduled
    ensures r.Ok? ==> r.value == jobs[id]
    ensures p.isUuid(id) && id in jobs && jobs[id].lifecycle != Scheduled ==>
      r.Fail? && r.failure.Forbidden?
  {
    if !p.isUuid(id) then Fail(InvalidId)
    else if id !in jobs then Fail(JobNotFound)
    else
      match EnsureScheduled(jobs[id].lifecycle, DeleteGate)
      case Fail(f) => Fail(f)
      case Ok(_) => Ok(jobs[id])
  }

  /** `transition` for one action: the id, the job, the allowed source states; on
      success the job relabelled with the action's target state. */
  function Move(jobs: map<JobId, Job>, p: Platform, id: JobId, a: Action): (r: Result<Job>)
  {
    if !p.isUuid(id) then Fail(InvalidId)
    else if id !in jobs then Fail(JobNotFound)
    else
      match Step(jobs[id].lifecycle, a)
      case Fail(f) => Fail(f)
      case Ok(t) => Ok(jobs[id].(lifecycle := t))
  }

  /** An action succeeds exactly along an arc of the lifecycle from the job's current
      state and then changes nothing but the state; from any other state it fails
      as forbidden, naming the action and the state. */
  lemma MoveFollowsEdges(jobs: map<JobId, Job>, p: Platform, id: JobId, a: Action)
    ensures Move(jobs, p, id, a).Ok? <==>
      p.isUuid(id) && id in jobs && exists t :: (jobs[id].lifecycle, a, t) in Edges
    ensures Move(jobs, p, id, a).Ok? ==>
      (jobs[id].lifecycle, a, Move(jobs, p, id, a).value.lifecycle) in Edges
      && Move(jobs, p, id, a).value == jobs[id].(lifecycle := Move(jobs, p, id, a).value.lifecycle)
    ensures p.isUuid(id) && id in jobs && jobs[id].lifecycle !in AllowedFrom(a) ==>
      Move(jobs, p, id, a) == Fail(ForbiddenMove(a, jobs[id].lifecycle))
  {
    if p.isUuid(id) && id in jobs {
      StepFollowsEdges(jobs[id].lifecycle, a);
    }
  }

  /** Removing the job, or relabelling it, keeps the invariant. */
  lemma DeleteAndMoveKeepInvariant(jobs: map<JobId, Job>, ls: seq<Lookup>, p: Platform, id: JobId, a: Action)
    requires StoreInvariant(jobs, ls)
    ensures Delete(jobs, p, id).Ok? ==> StoreInvariant(jobs - {id}, ls)
    ensures Move(jobs, p, id, a).Ok? ==> StoreInvariant(jobs[id := Move(jobs, p, id, a).value], ls)
  {
    RemoveAndRelabelKeepInvariant(jobs, ls, id, Target(a));
  }

  /** Edit and delete both need the job to be SCHEDULED; once any action has been
      taken on it, neither succeeds again. */
  lemma EditAndDeleteOnlyWhenScheduled(jobs: map<JobId, Job>, ls: seq<Lookup>, p: Platform, id: JobId,
                                       d: JobPatch, a: Action)
    requires Move(jobs, p, id, a).Ok?
    ensures Modify(jobs[id := Move(jobs, p, id, a).value], ls, p, id, d).Fail?
    ensures Delete(jobs[id := Move(jobs, p, id, a).value], p, id).Fail?
  {
    MoveFollowsEdges(jobs, p, id, a);
    StepAdvances(jobs[id].lifecycle, a);
  }
}
