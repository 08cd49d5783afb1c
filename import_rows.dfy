/**
  One row of an import (a spreadsheet row or an item of a batch-create body): key
  normalization, the per-field coercions that record row-scoped errors instead of
  stopping, lookup resolution by id or by code, and the candidate job a row yields.
 */
module ImportRows {
  import opened Values
  import opened Text
  import opened Lookups
  import Jobs

  datatype Field =
    | WorkOrderField | SalesOrderField | QuantityOrderField | QuantityUnitField
    | WorkCenterField | PlannedStartTimeField | ReleaseDateField | DueDateField
    | JobPriorityField | NotesField | AttributeField

  /** The column name of each field. */
  function FieldName(f: Field): string
  {
    match f
    case WorkOrderField => "work_order"
    case SalesOrderField => "sales_order"
    case QuantityOrderField => "quantity_order"
    case QuantityUnitField => "quantity_unit"
    case WorkCenterField => "work_center"
    case PlannedStartTimeField => "planned_start_time"
    case ReleaseDateField => "release_date"
    case DueDateField => "due_date"
    case JobPriorityField => "job_priority"
    case NotesField => "notes"
    case AttributeField => "attribute"
  }

  /** `JOB_IMPORT_ALLOWED_FIELDS` */
  const AllowedFields: set<string> := {
    "work_order", "sales_order", "quantity_order", "quantity_unit", "work_center",
    "planned_start_time", "release_date", "due_date", "job_priority", "notes", "attribute"
  }

  /** The allow-list is exactly the set of column names, and each column has its
      own name. */
  lemma AllowedFieldsAreColumns(f: Field, g: Field)
    ensures FieldName(f) in AllowedFields
    ensures FieldName(f) == FieldName(g) ==> f == g
    ensures forall k :: k in AllowedFields ==> exists h :: FieldName(h) == k
  {
    assert FieldName(WorkOrderField) == "work_order" && FieldName(SalesOrderField) == "sales_order";
    assert FieldName(QuantityOrderField) == "quantity_order" && FieldName(QuantityUnitField) == "quantity_unit";
    assert FieldName(WorkCenterField) == "work_center" && FieldName(PlannedStartTimeField) == "planned_start_time";
    assert FieldName(ReleaseDateField) == "release_date" && FieldName(DueDateField) == "due_date";
    assert FieldName(JobPriorityField) == "job_priority" && FieldName(NotesField) == "notes";
    assert FieldName(AttributeField) == "attribute";
  }

  /** Lower-case letters and `_` only. */
  predicate SnakeCase(s: string)
  {
    forall i :: 0 <= i < |s| ==> IsLower(s[i]) || s[i] == '_'
  }

  /** Every column name is its own normal form, so an allowed key survives
      normalization unchanged. */
  lemma ColumnNamesAreNormal(f: Field)
    ensures NormalizeKey(FieldName(f)) == FieldName(f)
  {
    ColumnNamesAreSnakeCase(f);
    SnakeCaseIsNormal(FieldName(f));
  }

  /** Every column name is lower-case letters and underscores. */
  lemma ColumnNamesAreSnakeCase(f: Field)
    ensures SnakeCase(FieldName(f))
  {
    match f
    case WorkOrderField => assert SnakeCase("work_order");
    case SalesOrderField => assert SnakeCase("sales_order");
    case QuantityOrderField => assert SnakeCase("quantity_order");
    case QuantityUnitField => assert SnakeCase("quantity_unit");
    case WorkCenterField => assert SnakeCase("work_center");
    case PlannedStartTimeField => assert SnakeCase("planned_start_time");
    case ReleaseDateField => assert SnakeCase("release_date");
    case DueDateField => assert SnakeCase("due_date");
    case JobPriorityField => assert SnakeCase("job_priority");
    case NotesField => assert SnakeCase("notes");
    case AttributeField => assert SnakeCase("attribute");
  }

  /** A snake-case name is its own normal form. */
  lemma SnakeCaseIsNormal(s: string)
    requires SnakeCase(s)
    ensures NormalizeKey(s) == s
  {
    assert NoSpace(s) && NoUpper(s) by {
      forall i | 0 <= i < |s|
        ensures !IsSpace(s[i]) && !IsUpper(s[i])
      {
        assert IsLower(s[i]) || s[i] == '_';
      }
    }
    NormalizeKeyShape(s);
  }

  // ---------------------------------------------------------------------------
  // Import errors

  datatype Issue =
    | Required
    | TooLong
    | NotPositiveInteger
    | NotDate
    | NotJson
    | UnknownLookupId(lookupType: LookupType)
    | UnknownLookupCode(lookupType: LookupType)
    | DuplicateWorkOrder(firstRow: int)
    | DuplicateSlot(firstRow: int)
    | AlreadyExists
    | SlotConflict

  /** The optional `value` an error echoes back. */
  datatype Echo = NoEcho | EchoValue(v: Value) | EchoText(s: string) | EchoTime(t: int)

  /** A `JobImportError`: the row number, the field, what is wrong, the echoed value. */
  datatype ImportError = ImportError(row: int, field: Field, issue: Issue, echo: Echo)

  /** The `message` text of an import error. */
  function Message(e: ImportError): string
  {
    var name := FieldName(e.field);
    match e.issue
    case Required => name + " is required"
    case TooLong => name + " max length is 100"
    case NotPositiveInteger => name + " must be integer >= 1"
    case NotDate => name + " must be a valid date"
    case NotJson => name + " must be a valid JSON object/string"
    case UnknownLookupId(t) => name + " lookup not found for type " + TypeName(t)
    case UnknownLookupCode(t) => name + " lookup code not found for type " + TypeName(t)
    case DuplicateWorkOrder(r) => "Duplicate work_order in file (first found at row " + IntStr(r) + ")"
    case DuplicateSlot(r) => "Duplicate work_center + planned_start_time in file (first found at row " + IntStr(r) + ")"
    case AlreadyExists => "Work order already exists"
    case SlotConflict => "planned_start_time conflicts with another job in the same work_center"
  }

  // ---------------------------------------------------------------------------
  // normalizeImportRow

  /** A raw row: its own keys in `Object.keys` order, with their values. */
  type Row = seq<(string, Value)>

  /** The record `normalizeImportRow` fills, after the first |row| keys: each key is
      stored under its normal form `norm(key)`, a later key overwriting an earlier one. */
  function NormalizedBy(norm: string -> string, row: Row): map<string, Value>
  {
    if |row| == 0 then map[]
    else
      var last := row[|row| - 1];
      NormalizedBy(norm, row[..|row| - 1])[norm(last.0) := last.1]
  }

  function Normalized(row: Row): map<string, Value>
  {
    NormalizedBy(NormalizeKey, row)
  }

  /** The normalized record has a key exactly for each normal form of a raw key. */
  lemma {:induction false} NormalizedKeys(norm: string -> string, row: Row)
    ensures forall k :: k in NormalizedBy(norm, row) <==> exists i :: 0 <= i < |row| && norm(row[i].0) == k
  {
    if |row| > 0 {
      var init := row[..|row| - 1];
      var last := row[|row| - 1];
      NormalizedKeys(norm, init);
      assert NormalizedBy(norm, row) == NormalizedBy(norm, init)[norm(last.0) := last.1];
      forall k | k in NormalizedBy(norm, row)
        ensures exists i :: 0 <= i < |row| && norm(row[i].0) == k
      {
        if k != norm(last.0) {
          var i :| 0 <= i < |init| && norm(init[i].0) == k;
          assert row[i] == init[i];
        }
      }
      forall k | exists i :: 0 <= i < |row| && norm(row[i].0) == k
        ensures k in NormalizedBy(norm, row)
      {
        var i :| 0 <= i < |row| && norm(row[i].0) == k;
        if i < |init| {
          assert init[i] == row[i];
        }
      }
    }
  }

  /** No later raw key has the same normal form as raw key i. */
  ghost predicate LastWithItsForm(norm: string -> string, row: Row, i: int)
    requires 0 <= i < |row|
  {
    forall j :: i < j < |row| ==> norm(row[j].0) != norm(row[i].0)
  }

  /** Under each normal form the record holds the value of the last raw key with it. */
  lemma {:induction false} NormalizedLastWins(norm: string -> string, row: Row, i: int)
    requires 0 <= i < |row| && LastWithItsForm(norm, row, i)
    ensures norm(row[i].0) in NormalizedBy(norm, row)
    ensures NormalizedBy(norm, row)[norm(row[i].0)] == row[i].1
  {
    var init := row[..|row| - 1];
    var last := row[|row| - 1];
    assert NormalizedBy(norm, row) == NormalizedBy(norm, init)[norm(last.0) := last.1];
    if i < |init| {
      assert init[i] == row[i];
      assert norm(last.0) != norm(row[i].0);
      forall j | i < j < |init|
        ensures norm(init[j].0) != norm(init[i].0)
      {
        assert init[j] == row[j];
      }
      NormalizedLastWins(norm, init, i);
    }
  }

  /** `normalizeImportRow`: fills the record key by key, so that it holds the
      normalized row (whose keys and values `NormalizedShape` and
      `NormalizedLastWins` describe). */
  method NormalizeImportRow(row: Row) returns (m: map<string, Value>)
    ensures m == Normalized(row)
  {
    m := NormalizeRowBy(NormalizeKey, row);
  }

  /** The loop of `normalizeImportRow`, for a given key normalizer `norm`. */
  method NormalizeRowBy(norm: string -> string, row: Row) returns (m: map<string, Value>)
    ensures m == NormalizedBy(norm, row)
  {
    m := map[];
    var i := 0;
    while i < |row|
      invariant 0 <= i <= |row|
      invariant m == NormalizedBy(norm, row[..i])
    {
      NormalizedStep(norm, row, i);
      m := m[norm(row[i].0) := row[i].1];
      i := i + 1;
    }
    assert row[..i] == row;
  }

  /** One more key stores its value under its normal form. */
  lemma NormalizedStep(norm: string -> string, row: Row, i: int)
    requires 0 <= i < |row|
    ensures NormalizedBy(norm, row[..i + 1]) == NormalizedBy(norm, row[..i])[norm(row[i].0) := row[i].1]
  {
    assert row[..i + 1][..i] == row[..i];
  }

  /** The normalized record's keys are the normal forms of the raw keys, and each is
      in normal form. */
  lemma NormalizedShape(row: Row)
    ensures forall k :: k in Normalized(row) ==> NormalizeKey(k) == k
    ensures forall k :: k in Normalized(row) <==> exists i :: 0 <= i < |row| && NormalizeKey(row[i].0) == k
  {
    NormalizedKeys(NormalizeKey, row);
    forall k | k in Normalized(row)
      ensures NormalizeKey(k) == k
    {
      var j :| 0 <= j < |row| && NormalizeKey(row[j].0) == k;
      NormalizeKeyIdempotent(row[j].0);
    }
  }

  /** `row.<field>` on the normalized record: undefined when the key is absent. */
  function Get(m: map<string, Value>, f: Field): Value
  {
    if FieldName(f) in m then m[FieldName(f)] else Undefined
  }

  // ---------------------------------------------------------------------------
  // The per-field coercions

  /** What a helper returns, with the errors it pushes onto the shared list. */
  datatype Parsed<T> = Parsed(value: T, errors: seq<ImportError>)

  /** The number `parseIntegerField` reads: a number as it is, anything else through
      `parseInt(String(value), 10)`; None for NaN. */
  function ReadInteger(v: Value, p: Platform): Option<real>
  {
    if v.Number? then Some(v.x)
    else match p.parseInt(Str(p, v))
      case None => None
      case Some(n) => Some(n as real)
  }

  ghost predicate IntegerOk(v: Value, p: Platform)
  {
    IsBlank(v) || (ReadInteger(v, p).Some? && IsIntegral(ReadInteger(v, p).value) && ReadInteger(v, p).value >= 1.0)
  }

  /** `parseIntegerField`: a blank cell yields the default; a value that is not an
      integer of at least 1 yields null and one error echoing it; otherwise the
      integer itself. */
  function ParseIntegerField(v: Value, f: Field, row: int, default: Option<int>, p: Platform): (r: Parsed<Option<int>>)
    ensures IsBlank(v) ==> r == Parsed(default, [])
    ensures r.errors == [] <==> IntegerOk(v, p)
    ensures r.errors != [] ==> r == Parsed(None, [ImportError(row, f, NotPositiveInteger, EchoValue(v))])
    ensures !IsBlank(v) && r.errors == [] ==>
      r.value.Some? && r.value.value >= 1 && r.value.value as real == ReadInteger(v, p).value
  {
    if IsBlank(v) then Parsed(default, [])
    else
      match ReadInteger(v, p)
      case Some(x) =>
        if IsIntegral(x) && x >= 1.0 then Parsed(Some(x.Floor), [])
        else Parsed(None, [ImportError(row, f, NotPositiveInteger, EchoValue(v))])
      case None => Parsed(None, [ImportError(row, f, NotPositiveInteger, EchoValue(v))])
  }

  ghost predicate DateOk(v: Value, p: Platform)
  {
    IsBlank(v) || p.parseDate(v).Some?
  }

  /** `parseDateField`: a blank cell yields null without error; an unparsable one
      yields null and one error; otherwise the parsed timestamp. */
  function ParseDateField(v: Value, f: Field, row: int, p: Platform): (r: Parsed<Option<int>>)
    ensures IsBlank(v) ==> r == Parsed(None, [])
    ensures r.errors == [] <==> DateOk(v, p)
    ensures r.errors != [] ==> r == Parsed(None, [ImportError(row, f, NotDate, EchoValue(v))])
    ensures !IsBlank(v) && r.errors == [] ==> r.value == p.parseDate(v)
  {
    if IsBlank(v) then Parsed(None, [])
    else
      match p.parseDate(v)
      case None => Parsed(None, [ImportError(row, f, NotDate, EchoValue(v))])
      case Some(t) => Parsed(Some(t), [])
  }

  ghost predicate JsonOk(v: Value, p: Platform)
  {
    IsBlank(v) || v.Arr? || v.Obj? || p.parseJson(Str(p, v)).Some?
  }

  /** `parseJsonField`: blank yields null; an object or array is kept as it is;
      anything else goes through `JSON.parse(String(value))`, and a failure yields
      null and one error. */
  function ParseJsonField(v: Value, f: Field, row: int, p: Platform): (r: Parsed<Value>)
    ensures IsBlank(v) ==> r == Parsed(Null, [])
    ensures (v.Arr? || v.Obj?) ==> r == Parsed(v, [])
    ensures r.errors == [] <==> JsonOk(v, p)
    ensures r.errors != [] ==> r == Parsed(Null, [ImportError(row, f, NotJson, EchoValue(v))])
  {
    if IsBlank(v) then Parsed(Null, [])
    else if v.Arr? || v.Obj? then Parsed(v, [])
    else
      match p.parseJson(Str(p, v))
      case None => Parsed(Null, [ImportError(row, f, NotJson, EchoValue(v))])
      case Some(j) => Parsed(j, [])
  }

  /** The trimmed text `resolveLookupForImport` works on. */
  function LookupText(v: Value, p: Platform): string
  {
    Trim(Str(p, v))
  }

  /** The id path applies: `Number(asString)` is an integer. */
  predicate IsNumeric(v: Value, p: Platform)
  {
    p.toNumber(LookupText(v, p)).Some? && IsIntegral(p.toNumber(LookupText(v, p)).value)
  }

  /** The key the code path looks up: the lookup type and the upper-cased text. */
  function CodeKey(v: Value, t: LookupType, p: Platform): (LookupType, string)
  {
    (t, ToUpper(LookupText(v, p)))
  }

  ghost predicate LookupOk(v: Value, t: LookupType, idx: ImportIndex, p: Platform)
  {
    && !IsBlank(v)
    && (IsNumeric(v, p) ==> (t, p.toNumber(LookupText(v, p)).value.Floor) in idx.ids)
    && (!IsNumeric(v, p) ==> CodeKey(v, t, p) in idx.codes && idx.codes[CodeKey(v, t, p)] != 0)
  }

  /** `resolveLookupForImport`: blank is "required"; an integer-looking value must
      be a known id of the type; anything else is upper-cased and looked up among the
      type's codes. Exactly one error on failure, none on success. */
  function ResolveImportLookup(v: Value, t: LookupType, f: Field, row: int, idx: ImportIndex, p: Platform)
    : (r: Parsed<Option<int>>)
    ensures IsBlank(v) ==> r == Parsed(None, [ImportError(row, f, Required, NoEcho)])
    ensures r.value.Some? <==> r.errors == []
    ensures r.errors == [] <==> LookupOk(v, t, idx, p)
    ensures |r.errors| <= 1 && forall e :: e in r.errors ==> e.row == row && e.field == f
    ensures !IsBlank(v) && IsNumeric(v, p) ==>
      (r.value.Some? ==> r.value.value == p.toNumber(LookupText(v, p)).value.Floor && (t, r.value.value) in idx.ids)
      && (r.value.None? ==> r.errors == [ImportError(row, f, UnknownLookupId(t), EchoValue(v))])
    ensures !IsBlank(v) && !IsNumeric(v, p) ==>
      (r.value.Some? ==> r.value.value == idx.codes[CodeKey(v, t, p)])
      && (r.value.None? ==> r.errors == [ImportError(row, f, UnknownLookupCode(t), EchoValue(v))])
  {
    if IsBlank(v) then Parsed(None, [ImportError(row, f, Required, NoEcho)])
    else if IsNumeric(v, p) then
      var id := p.toNumber(LookupText(v, p)).value.Floor;
      if (t, id) in idx.ids then Parsed(Some(id), [])
      else Parsed(None, [ImportError(row, f, UnknownLookupId(t), EchoValue(v))])
    else
      var key := CodeKey(v, t, p);
      if key in idx.codes && idx.codes[key] != 0 then Parsed(Some(idx.codes[key]), [])
      else Parsed(None, [ImportError(row, f, UnknownLookupCode(t), EchoValue(v))])
  }

  /** An integer-looking value never falls back to the codes: its resolution is the
      same whatever the code index holds. */
  lemma NumericNeverUsesCodes(v: Value, t: LookupType, f: Field, row: int, idx: ImportIndex,
                              codes: map<(LookupType, string), int>, p: Platform)
    requires IsNumeric(v, p)
    ensures ResolveImportLookup(v, t, f, row, idx, p) == ResolveImportLookup(v, t, f, row, idx.(codes := codes), p)
  {
  }

  /** The index `validateJobImportRows` builds from the lookup table. */
  ghost predicate IndexOf(idx: ImportIndex, ls: seq<Lookup>)
  {
    idx.codes == CodeIndex(ls) && idx.ids == set l | l in ls && l.lookupType in ImportTypes :: (l.lookupType, l.id)
  }

  /** Whatever path resolves it, a resolved import reference is the id of a lookup row
      of the asked type; and every code of a row of that type is found. */
  lemma ResolvedImportIsLookup(v: Value, t: LookupType, f: Field, row: int, idx: ImportIndex, ls: seq<Lookup>, p: Platform)
    requires IndexOf(idx, ls)
    ensures ResolveImportLookup(v, t, f, row, idx, p).value.Some? ==>
      IsLookupOf(ls, ResolveImportLookup(v, t, f, row, idx, p).value.value, t)
    ensures t in ImportTypes && !IsBlank(v) && !IsNumeric(v, p) && (exists l :: l in ls && l.lookupType == t && ToUpper(l.code) == ToUpper(LookupText(v, p)))
      ==> CodeKey(v, t, p) in idx.codes
  {
    CodeIndexMeaning(ls);
    var r := ResolveImportLookup(v, t, f, row, idx, p);
    if r.value.Some? {
      if IsNumeric(v, p) {
        var l :| l in ls && l.lookupType in ImportTypes && (l.lookupType, l.id) == (t, r.value.value);
      } else {
        var key := CodeKey(v, t, p);
        var l :| l in ls && l.lookupType in ImportTypes && key == (l.lookupType, ToUpper(l.code)) && l.id == CodeIndex(ls)[key];
      }
    }
    if t in ImportTypes && !IsBlank(v) && !IsNumeric(v, p) && (exists l :: l in ls && l.lookupType == t && ToUpper(l.code) == ToUpper(LookupText(v, p))) {
      var l :| l in ls && l.lookupType == t && ToUpper(l.code) == ToUpper(LookupText(v, p));
      assert (l.lookupType, ToUpper(l.code)) in CodeIndex(ls);
    }
  }

  // ---------------------------------------------------------------------------
  // The candidate a row yields

  /** A `JobImportCandidate`: the row number and the job data built from the row. */
  datatype Candidate = Candidate(
    row: int,
    workOrder: string,
    salesOrder: string,
    quantityOrder: Option<int>,
    quantityUnit: Option<int>,
    workCenter: Option<int>,
    plannedStartTime: Option<int>,
    releaseDate: Option<int>,
    dueDate: Option<int>,
    jobPriority: Option<int>,
    notes: Value,
    attribute: Value)

  /** `String(row.<field> ?? '').trim()` */
  function TextCell(m: map<string, Value>, f: Field, p: Platform): string
  {
    Trim(Str(p, OrElse(Get(m, f), Text(""))))
  }

  function CodeErrors(s: string, f: Field, row: int): seq<ImportError>
  {
    if s == "" then [ImportError(row, f, Required, NoEcho)] else []
  }

  function LengthErrors(s: string, f: Field, row: int): seq<ImportError>
  {
    if s != "" && Utf16Length(s) > Jobs.MaxCodeLength then [ImportError(row, f, TooLong, EchoText(s))] else []
  }

  /** Both codes are present and within 100 UTF-16 code units after trimming. */
  ghost predicate CodesClean(m: map<string, Value>, p: Platform)
  {
    && TextCell(m, WorkOrderField, p) != "" && Utf16Length(TextCell(m, WorkOrderField, p)) <= Jobs.MaxCodeLength
    && TextCell(m, SalesOrderField, p) != "" && Utf16Length(TextCell(m, SalesOrderField, p)) <= Jobs.MaxCodeLength
  }

  /** Quantity, dates and attribute coerce without error. */
  ghost predicate CellsClean(m: map<string, Value>, p: Platform)
  {
    && IntegerOk(Get(m, QuantityOrderField), p)
    && DateOk(Get(m, PlannedStartTimeField), p)
    && DateOk(Get(m, ReleaseDateField), p)
    && DateOk(Get(m, DueDateField), p)
    && JsonOk(Get(m, AttributeField), p)
  }

  /** The three references resolve. */
  ghost predicate RefsClean(m: map<string, Value>, idx: ImportIndex, p: Platform)
  {
    && LookupOk(Get(m, QuantityUnitField), QuantityUnit, idx, p)
    && LookupOk(Get(m, WorkCenterField), WorkCenter, idx, p)
    && LookupOk(Get(m, JobPriorityField), JobPriority, idx, p)
  }

  /** Everything a clean row must satisfy. */
  ghost predicate RowClean(m: map<string, Value>, idx: ImportIndex, p: Platform)
  {
    CodesClean(m, p) && CellsClean(m, p) && RefsClean(m, idx, p)
  }

  /** Work order and sales order: both "required" checks, then both length checks. */
  function CodeCellErrors(wo: string, so: string, rowNumber: int): (r: seq<ImportError>)
    ensures forall e :: e in r ==> e.row == rowNumber
    ensures r == [] <==> wo != "" && Utf16Length(wo) <= Jobs.MaxCodeLength && so != "" && Utf16Length(so) <= Jobs.MaxCodeLength
  {
    CodeErrors(wo, WorkOrderField, rowNumber) + CodeErrors(so, SalesOrderField, rowNumber)
    + LengthErrors(wo, WorkOrderField, rowNumber) + LengthErrors(so, SalesOrderField, rowNumber)
  }

  /** Quantity (default 1), the three dates, then attribute. */
  function CellErrors(m: map<string, Value>, rowNumber: int, p: Platform): (r: seq<ImportError>)
    ensures forall e :: e in r ==> e.row == rowNumber
    ensures r == [] <==> CellsClean(m, p)
  {
    var q := ParseIntegerField(Get(m, QuantityOrderField), QuantityOrderField, rowNumber, Some(1), p).errors;
    var d1 := ParseDateField(Get(m, PlannedStartTimeField), PlannedStartTimeField, rowNumber, p).errors;
    var d2 := ParseDateField(Get(m, ReleaseDateField), ReleaseDateField, rowNumber, p).errors;
    var d3 := ParseDateField(Get(m, DueDateField), DueDateField, rowNumber, p).errors;
    var j := ParseJsonField(Get(m, AttributeField), AttributeField, rowNumber, p).errors;
    JoinedErrors(q, d1, d2, d3, j, rowNumber);
    q + d1 + d2 + d3 + j
  }

  /** Five lists of errors of one row joined: empty exactly when each is, and still
      errors of that row. */
  lemma JoinedErrors(a: seq<ImportError>, b: seq<ImportError>, c: seq<ImportError>, d: seq<ImportError>,
                     e: seq<ImportError>, row: int)
    requires forall x :: x in a || x in b || x in c || x in d || x in e ==> x.row == row
    ensures a + b + c + d + e == [] <==> a == [] && b == [] && c == [] && d == [] && e == []
    ensures forall x :: x in a + b + c + d + e ==> x.row == row
  {
  }

  /** Quantity unit, work center, job priority. */
  function RefErrors(m: map<string, Value>, rowNumber: int, idx: ImportIndex, p: Platform): (r: seq<ImportError>)
    ensures forall e :: e in r ==> e.row == rowNumber
    ensures r == [] <==> RefsClean(m, idx, p)
  {
    ResolveImportLookup(Get(m, QuantityUnitField), QuantityUnit, QuantityUnitField, rowNumber, idx, p).errors
    + ResolveImportLookup(Get(m, WorkCenterField), WorkCenter, WorkCenterField, rowNumber, idx, p).errors
    + ResolveImportLookup(Get(m, JobPriorityField), JobPriority, JobPriorityField, rowNumber, idx, p).errors
  }

  /** The errors the per-row body of `validateJobImportRows` pushes, in order. Every
      field is checked and none stops the row: each error carries the row's number,
      and there is none exactly when the row meets every field rule. */
  function RowErrors(m: map<string, Value>, rowNumber: int, idx: ImportIndex, p: Platform): (r: seq<ImportError>)
    ensures forall e :: e in r ==> e.row == rowNumber
    ensures r == [] <==> RowClean(m, idx, p)
  {
    CodeCellErrors(TextCell(m, WorkOrderField, p), TextCell(m, SalesOrderField, p), rowNumber)
    + CellErrors(m, rowNumber, p) + RefErrors(m, rowNumber, idx, p)
  }

  /** The candidate the per-row body pushes. */
  function RowCandidate(m: map<string, Value>, rowNumber: int, idx: ImportIndex, p: Platform): Candidate
  {
    Candidate(
      rowNumber,
      TextCell(m, WorkOrderField, p),
      TextCell(m, SalesOrderField, p),
      ParseIntegerField(Get(m, QuantityOrderField), QuantityOrderField, rowNumber, Some(1), p).value,
      ResolveImportLookup(Get(m, QuantityUnitField), QuantityUnit, QuantityUnitField, rowNumber, idx, p).value,
      ResolveImportLookup(Get(m, WorkCenterField), WorkCenter, WorkCenterField, rowNumber, idx, p).value,
      ParseDateField(Get(m, PlannedStartTimeField), PlannedStartTimeField, rowNumber, p).value,
      ParseDateField(Get(m, ReleaseDateField), ReleaseDateField, rowNumber, p).value,
      ParseDateField(Get(m, DueDateField), DueDateField, rowNumber, p).value,
      ResolveImportLookup(Get(m, JobPriorityField), JobPriority, JobPriorityField, rowNumber, idx, p).value,
      OrElse(Get(m, NotesField), Text("-")),
      ParseJsonField(Get(m, AttributeField), AttributeField, rowNumber, p).value)
  }

  /** A clean row's candidate has every value the create path needs: a quantity of
      at least 1 (1 when the cell is blank), both codes within 100 UTF-16 code units, and
      the three lookup ids, each the id of a lookup row of its type. */
  lemma CleanRowCandidate(m: map<string, Value>, rowNumber: int, idx: ImportIndex, ls: seq<Lookup>, p: Platform)
    requires IndexOf(idx, ls)
    requires RowErrors(m, rowNumber, idx, p) == []
    ensures var c := RowCandidate(m, rowNumber, idx, p);
      && c.quantityOrder.Some? && c.quantityOrder.value >= 1
      && (IsBlank(Get(m, QuantityOrderField)) ==> c.quantityOrder == Some(1))
      && c.workOrder != "" && Utf16Length(c.workOrder) <= Jobs.MaxCodeLength
      && c.salesOrder != "" && Utf16Length(c.salesOrder) <= Jobs.MaxCodeLength
      && c.quantityUnit.Some? && IsLookupOf(ls, c.quantityUnit.value, QuantityUnit)
      && c.workCenter.Some? && IsLookupOf(ls, c.workCenter.value, WorkCenter)
      && c.jobPriority.Some? && IsLookupOf(ls, c.jobPriority.value, JobPriority)
  {
    ResolvedImportIsLookup(Get(m, QuantityUnitField), QuantityUnit, QuantityUnitField, rowNumber, idx, ls, p);
    ResolvedImportIsLookup(Get(m, WorkCenterField), WorkCenter, WorkCenterField, rowNumber, idx, ls, p);
    ResolvedImportIsLookup(Get(m, JobPriorityField), JobPriority, JobPriorityField, rowNumber, idx, ls, p);
  }
}
