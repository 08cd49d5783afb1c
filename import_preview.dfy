/**
  `validateJobImportRows`: parse every row into a candidate, flag in-file duplicates
  (the first occurrence wins), flag work orders and slots the store already holds,
  and split the candidates into the clean ones and the rows with errors.
 */
module ImportPreview {
  import opened Values
  import opened Lookups
  import opened Jobs
  import opened ImportRows

  /** The index `validateJobImportRows` builds from the lookup table. */
  function IndexFor(ls: seq<Lookup>): (idx: ImportIndex)
    ensures IndexOf(idx, ls)
  {
    ImportIndex(CodeIndex(ls), set l | l in ls && l.lookupType in ImportTypes :: (l.lookupType, l.id))
  }

  // ---------------------------------------------------------------------------
  // Phase 1: one candidate and its errors per row

  /** What the per-row body makes of a raw row and its number. */
  function RowParser(idx: ImportIndex, p: Platform): (Row, int) -> Candidate
  {
    (r: Row, n: int) => RowCandidate(Normalized(r), n, idx, p)
  }

  /** The errors the per-row body raises for a raw row and its number. */
  function RowChecker(idx: ImportIndex, p: Platform): (Row, int) -> seq<ImportError>
  {
    (r: Row, n: int) => RowErrors(Normalized(r), n, idx, p)
  }

  /** The candidates of the rows, row k numbered k + rowStart. */
  function CandidatesBy(rows: seq<Row>, rowStart: int, parse: (Row, int) -> Candidate): seq<Candidate>
  {
    if |rows| == 0 then []
    else
      CandidatesBy(rows[..|rows| - 1], rowStart, parse) + [parse(rows[|rows| - 1], |rows| - 1 + rowStart)]
  }

  function Candidates(rows: seq<Row>, rowStart: int, idx: ImportIndex, p: Platform): seq<Candidate>
  {
    CandidatesBy(rows, rowStart, RowParser(idx, p))
  }

  /** There is one candidate per row and, when the parser keeps the number it is
      given, row k is numbered k + rowStart. */
  lemma {:induction false} CandidatesNumbered(rows: seq<Row>, rowStart: int, parse: (Row, int) -> Candidate)
    requires forall r, n :: parse(r, n).row == n
    ensures |CandidatesBy(rows, rowStart, parse)| == |rows|
    ensures forall k :: 0 <= k < |rows| ==> CandidatesBy(rows, rowStart, parse)[k].row == k + rowStart
  {
    if |rows| > 0 {
      CandidatesNumbered(rows[..|rows| - 1], rowStart, parse);
    }
  }

  /** The per-row errors of the rows, in row order. */
  function ParseErrorsBy(rows: seq<Row>, rowStart: int, check: (Row, int) -> seq<ImportError>): seq<ImportError>
  {
    if |rows| == 0 then []
    else
      ParseErrorsBy(rows[..|rows| - 1], rowStart, check) + check(rows[|rows| - 1], |rows| - 1 + rowStart)
  }

  /** When the checker stamps each error with the number it is given, every error
      falls in the rows' range. */
  lemma {:induction false} ParseErrorsInRange(rows: seq<Row>, rowStart: int, check: (Row, int) -> seq<ImportError>)
    requires forall x, n, e :: e in check(x, n) ==> e.row == n
    ensures forall e :: e in ParseErrorsBy(rows, rowStart, check) ==> rowStart <= e.row < rowStart + |rows|
  {
    if |rows| > 0 {
      ParseErrorsInRange(rows[..|rows| - 1], rowStart, check);
    }
  }

  /** Parsing one more row appends its candidate. */
  lemma CandidatesStep(cs: seq<Candidate>, c: Candidate, rows: seq<Row>, i: int, rowStart: int, parse: (Row, int) -> Candidate)
    requires 0 <= i < |rows|
    requires cs == CandidatesBy(rows[..i], rowStart, parse) && c == parse(rows[i], i + rowStart)
    ensures cs + [c] == CandidatesBy(rows[..i + 1], rowStart, parse)
  {
    assert rows[..i + 1][..i] == rows[..i];
  }

  /** Checking one more row appends its errors. */
  lemma ParseErrorsStep(es: seq<ImportError>, more: seq<ImportError>, rows: seq<Row>, i: int, rowStart: int,
                        check: (Row, int) -> seq<ImportError>)
    requires 0 <= i < |rows|
    requires es == ParseErrorsBy(rows[..i], rowStart, check) && more == check(rows[i], i + rowStart)
    ensures es + more == ParseErrorsBy(rows[..i + 1], rowStart, check)
  {
    assert rows[..i + 1][..i] == rows[..i];
  }

  lemma ParserKeepsNumbers(idx: ImportIndex, p: Platform)
    ensures forall r, n :: RowParser(idx, p)(r, n).row == n
    ensures forall x, n, e :: e in RowChecker(idx, p)(x, n) ==> e.row == n
  {
    forall x, n, e | e in RowChecker(idx, p)(x, n)
      ensures e.row == n
    {
      assert RowChecker(idx, p)(x, n) == RowErrors(Normalized(x), n, idx, p);
    }
  }

  function ParseErrors(rows: seq<Row>, rowStart: int, idx: ImportIndex, p: Platform): (r: seq<ImportError>)
    ensures forall e :: e in r ==> rowStart <= e.row < rowStart + |rows|
  {
    ParserKeepsNumbers(idx, p);
    ParseErrorsInRange(rows, rowStart, RowChecker(idx, p));
    ParseErrorsBy(rows, rowStart, RowChecker(idx, p))
  }

  // ---------------------------------------------------------------------------
  // Phase 2: duplicates inside the file

  /** A candidate's work order, when it has one (`if (c.data.work_order)`). */
  function WorkOrderKey(c: Candidate): Option<string>
  {
    if c.workOrder != "" then Some(c.workOrder) else None
  }

  /** A candidate's (work_center, planned_start_time), when it has both
      (`if (c.data.work_center && c.data.planned_start_time)`). */
  function SlotKey(c: Candidate): Option<(int, int)>
  {
    if c.workCenter.Some? && c.workCenter.value != 0 && c.plannedStartTime.Some?
    then Some((c.workCenter.value, c.plannedStartTime.value)) else None
  }

  /** `workOrderRows` / `scheduleRows` after the first |cs| candidates: each key is
      set once, by the first candidate that has it. (Row numbers are at least 1, so
      `if (prev)` is "the key is present".) */
  function FirstRows<K>(cs: seq<Candidate>, key: Candidate -> Option<K>): map<K, int>
  {
    if |cs| == 0 then map[]
    else
      var m := FirstRows(cs[..|cs| - 1], key);
      var c := cs[|cs| - 1];
      if key(c).Some? && key(c).value !in m then m[key(c).value := c.row] else m
  }

  /** A key is in the first-occurrence map exactly when some candidate has it. */
  lemma {:induction false} FirstRowsDomain<K>(cs: seq<Candidate>, key: Candidate -> Option<K>, x: K)
    ensures x in FirstRows(cs, key) <==> exists k :: 0 <= k < |cs| && key(cs[k]) == Some(x)
  {
    if |cs| > 0 {
      var init := cs[..|cs| - 1];
      FirstRowsDomain(init, key, x);
      if x in FirstRows(init, key) {
        var k :| 0 <= k < |init| && key(init[k]) == Some(x);
        assert cs[k] == init[k];
      }
      if exists k :: 0 <= k < |cs| && key(cs[k]) == Some(x) {
        var k :| 0 <= k < |cs| && key(cs[k]) == Some(x);
        if k < |init| {
          assert init[k] == cs[k];
        }
      }
    }
  }

  /** No candidate before k has candidate k's key. */
  ghost predicate FirstOfItsKey<K>(cs: seq<Candidate>, key: Candidate -> Option<K>, k: int)
    requires 0 <= k < |cs|
  {
    forall j :: 0 <= j < k ==> key(cs[j]) != key(cs[k])
  }

  /** The first candidate with a key sets that key's row, and no later one changes it. */
  lemma {:induction false} FirstRowsValue<K>(cs: seq<Candidate>, key: Candidate -> Option<K>, k: int)
    requires 0 <= k < |cs| && key(cs[k]).Some? && FirstOfItsKey(cs, key, k)
    ensures key(cs[k]).value in FirstRows(cs, key)
    ensures FirstRows(cs, key)[key(cs[k]).value] == cs[k].row
  {
    var init := cs[..|cs| - 1];
    var x := key(cs[k]).value;
    FirstRowsDomain(init, key, x);
    if k < |init| {
      assert init[k] == cs[k];
      assert FirstOfItsKey(init, key, k) by {
        forall j | 0 <= j < k
          ensures key(init[j]) != key(init[k])
        {
          assert init[j] == cs[j];
        }
      }
      FirstRowsValue(init, key, k);
    } else {
      assert x !in FirstRows(init, key) by {
        forall j | 0 <= j < |init|
          ensures key(init[j]) != Some(x)
        {
          assert init[j] == cs[j];
        }
      }
    }
  }

  /** Candidate k is flagged against the first k exactly when an earlier candidate has
      its key, and then the row cited is that of the first such candidate. */
  lemma DuplicateCitesFirst<K>(cs: seq<Candidate>, k: int, key: Candidate -> Option<K>)
    requires 0 <= k < |cs| && key(cs[k]).Some?
    ensures key(cs[k]).value in FirstRows(cs[..k], key) <==> exists j :: 0 <= j < k && key(cs[j]) == key(cs[k])
    ensures key(cs[k]).value in FirstRows(cs[..k], key) ==>
      exists j :: 0 <= j < k && key(cs[j]) == key(cs[k])
        && FirstOfItsKey(cs, key, j)
        && FirstRows(cs[..k], key)[key(cs[k]).value] == cs[j].row
  {
    var init := cs[..k];
    var x := key(cs[k]).value;
    FirstRowsDomain(init, key, x);
    if exists j :: 0 <= j < k && key(cs[j]) == key(cs[k]) {
      var j := FirstWithKey(cs, k, key);
      assert init[j] == cs[j];
      assert FirstOfItsKey(init, key, j) by {
        forall i | 0 <= i < j
          ensures key(init[i]) != key(init[j])
        {
          assert init[i] == cs[i];
        }
      }
      FirstRowsValue(init, key, j);
    } else {
      forall j | 0 <= j < |init|
        ensures key(init[j]) != Some(x)
      {
        assert init[j] == cs[j];
      }
    }
  }

  /** The least index below k whose key is that of candidate k. */
  lemma FirstWithKey<K>(cs: seq<Candidate>, k: int, key: Candidate -> Option<K>) returns (j: int)
    requires 0 <= k < |cs|
    requires exists j :: 0 <= j < k && key(cs[j]) == key(cs[k])
    ensures 0 <= j < k && key(cs[j]) == key(cs[k])
    ensures FirstOfItsKey(cs, key, j)
  {
    var w :| 0 <= w < k && key(cs[w]) == key(cs[k]);
    j := 0;
    while key(cs[j]) != key(cs[k])
      invariant 0 <= j <= w
      invariant forall i :: 0 <= i < j ==> key(cs[i]) != key(cs[k])
      decreases w - j
    {
      j := j + 1;
    }
  }

  /** The duplicate errors one candidate gets, given the maps built before it. */
  function DuplicateErrorsFor(c: Candidate, woRows: map<string, int>, slotRows: map<(int, int), int>): seq<ImportError>
  {
    (if WorkOrderKey(c).Some? && c.workOrder in woRows
     then [ImportError(c.row, WorkOrderField, DuplicateWorkOrder(woRows[c.workOrder]), EchoText(c.workOrder))]
     else [])
    + (if SlotKey(c).Some? && SlotKey(c).value in slotRows
       then [ImportError(c.row, PlannedStartTimeField, DuplicateSlot(slotRows[SlotKey(c).value]), NoEcho)]
       else [])
  }

  /** The in-file duplicate errors of the candidates, in candidate order. */
  function DuplicateErrors(cs: seq<Candidate>): (r: seq<ImportError>)
    ensures forall e :: e in r ==> exists k :: 0 <= k < |cs| && cs[k].row == e.row
  {
    if |cs| == 0 then []
    else
      var init := cs[..|cs| - 1];
      var rest := DuplicateErrors(init);
      assert forall e :: e in rest ==> exists k :: 0 <= k < |cs| && cs[k].row == e.row by {
        forall e | e in rest
          ensures exists k :: 0 <= k < |cs| && cs[k].row == e.row
        {
          var k :| 0 <= k < |init| && init[k].row == e.row;
          assert cs[k] == init[k];
        }
      }
      rest + DuplicateErrorsFor(cs[|cs| - 1], FirstRows(init, WorkOrderKey), FirstRows(init, SlotKey))
  }

  // ---------------------------------------------------------------------------
  // Phases 3 and 4: against the store

  /** The "already exists" errors: one per candidate whose work order is stored. */
  function ExistingErrors(cs: seq<Candidate>, jobs: map<JobId, Job>): (r: seq<ImportError>)
    ensures forall e :: e in r ==> exists k :: 0 <= k < |cs| && cs[k].row == e.row
  {
    if |cs| == 0 then []
    else
      var init := cs[..|cs| - 1];
      var c := cs[|cs| - 1];
      var rest := ExistingErrors(init, jobs);
      assert forall e :: e in rest ==> exists k :: 0 <= k < |cs| && cs[k].row == e.row by {
        forall e | e in rest
          ensures exists k :: 0 <= k < |cs| && cs[k].row == e.row
        {
          var k :| 0 <= k < |init| && init[k].row == e.row;
          assert cs[k] == init[k];
        }
      }
      rest + (if c.workOrder != "" && WorkOrderTaken(jobs, c.workOrder, None)
              then [ImportError(c.row, WorkOrderField, AlreadyExists, EchoText(c.workOrder))] else [])
  }

  /** The schedule-conflict errors: one per candidate whose slot a stored job holds. */
  function ConflictErrors(cs: seq<Candidate>, jobs: map<JobId, Job>): (r: seq<ImportError>)
    ensures forall e :: e in r ==> exists k :: 0 <= k < |cs| && cs[k].row == e.row
  {
    if |cs| == 0 then []
    else
      var init := cs[..|cs| - 1];
      var c := cs[|cs| - 1];
      var rest := ConflictErrors(init, jobs);
      assert forall e :: e in rest ==> exists k :: 0 <= k < |cs| && cs[k].row == e.row by {
        forall e | e in rest
          ensures exists k :: 0 <= k < |cs| && cs[k].row == e.row
        {
          var k :| 0 <= k < |init| && init[k].row == e.row;
          assert cs[k] == init[k];
        }
      }
      rest + (if SlotKey(c).Some? && SlotTaken(jobs, SlotKey(c).value.0, SlotKey(c).value.1, None)
              then [ImportError(c.row, PlannedStartTimeField, SlotConflict, EchoTime(SlotKey(c).value.1))] else [])
  }

  // ---------------------------------------------------------------------------
  // Partition

  /** The rows that have at least one error (`badRows`). */
  function ErrorRows(errors: seq<ImportError>): set<int>
  {
    set e | e in errors :: e.row
  }

  /** The candidates whose row has no error, in order. */
  function Clean(cs: seq<Candidate>, bad: set<int>): seq<Candidate>
  {
    if |cs| == 0 then []
    else
      var c := cs[|cs| - 1];
      Clean(cs[..|cs| - 1], bad) + (if c.row in bad then [] else [c])
  }

  /** Consecutive row numbers from `base`. */
  ghost predicate Numbered(cs: seq<Candidate>, base: int)
  {
    forall k :: 0 <= k < |cs| ==> cs[k].row == base + k
  }

  /** The row numbers of the candidates. */
  function RowsOf(cs: seq<Candidate>): set<int>
  {
    set k | 0 <= k < |cs| :: cs[k].row
  }

  /** The clean candidates are exactly the candidates whose row has no error. */
  lemma {:induction false} CleanMeaning(cs: seq<Candidate>, bad: set<int>)
    ensures forall c :: c in Clean(cs, bad) <==> c in cs && c.row !in bad
  {
    if |cs| > 0 {
      var init := cs[..|cs| - 1];
      CleanMeaning(init, bad);
      assert cs == init + [cs[|cs| - 1]];
    }
  }

  lemma InRows(cs: seq<Candidate>, base: int, r: int)
    requires Numbered(cs, base) && base <= r < base + |cs|
    ensures r in RowsOf(cs)
  {
    assert cs[r - base].row == r;
  }

  /** The rows of a non-empty list are those of its prefix and its last row. */
  lemma RowsOfSnoc(cs: seq<Candidate>)
    requires |cs| > 0
    ensures RowsOf(cs) == RowsOf(cs[..|cs| - 1]) + {cs[|cs| - 1].row}
  {
    var init := cs[..|cs| - 1];
    forall r | r in RowsOf(cs)
      ensures r in RowsOf(init) + {cs[|cs| - 1].row}
    {
      var k :| 0 <= k < |cs| && cs[k].row == r;
      if k < |init| {
        assert init[k] == cs[k];
      }
    }
    forall r | r in RowsOf(init)
      ensures r in RowsOf(cs)
    {
      var k :| 0 <= k < |init| && init[k].row == r;
      assert cs[k] == init[k];
    }
  }

  /** With consecutive numbers the last row is new. */
  lemma LastRowIsNew(cs: seq<Candidate>, base: int)
    requires |cs| > 0 && Numbered(cs, base)
    ensures Numbered(cs[..|cs| - 1], base)
    ensures cs[|cs| - 1].row !in RowsOf(cs[..|cs| - 1])
  {
    var init := cs[..|cs| - 1];
    forall k | 0 <= k < |init|
      ensures init[k].row == base + k
    {
      assert init[k] == cs[k];
    }
  }

  /** With consecutive row numbers, every row is either kept or counted as bad. */
  lemma {:induction false} CleanCount(cs: seq<Candidate>, base: int, bad: set<int>)
    requires Numbered(cs, base)
    ensures |Clean(cs, bad)| + |bad * RowsOf(cs)| == |cs|
  {
    if |cs| == 0 {
      assert bad * RowsOf(cs) == {};
    } else {
      var init := cs[..|cs| - 1];
      var last := cs[|cs| - 1].row;
      LastRowIsNew(cs, base);
      CleanCount(init, base, bad);
      RowsOfSnoc(cs);
      if last in bad {
        assert bad * RowsOf(cs) == (bad * RowsOf(init)) + {last};
      } else {
        assert bad * RowsOf(cs) == bad * RowsOf(init);
      }
    }
  }

  /** One candidate per row, numbered from `rowStart`. */
  lemma CandidatesNumberedFrom(rows: seq<Row>, rowStart: int, idx: ImportIndex, p: Platform)
    ensures |Candidates(rows, rowStart, idx, p)| == |rows|
    ensures Numbered(Candidates(rows, rowStart, idx, p), rowStart)
  {
    ParserKeepsNumbers(idx, p);
    CandidatesNumbered(rows, rowStart, RowParser(idx, p));
  }

  /** `{ total_rows, valid_rows, invalid_rows, data, errors }` */
  datatype PreviewResult = PreviewResult(
    totalRows: nat, validRows: nat, invalidRows: nat, data: seq<Candidate>, errors: seq<ImportError>)

  /** Every error the preview reports, in order: the per-row errors, the in-file
      duplicates, the stored work orders, the stored slots. */
  function AllErrors(rows: seq<Row>, rowStart: int, ls: seq<Lookup>, jobs: map<JobId, Job>, p: Platform): seq<ImportError>
  {
    var cs := Candidates(rows, rowStart, IndexFor(ls), p);
    ParseErrors(rows, rowStart, IndexFor(ls), p) + DuplicateErrors(cs) + ExistingErrors(cs, jobs) + ConflictErrors(cs, jobs)
  }

  /** One row: normalizes it, then builds its candidate and the errors its fields
      raise. */
  method ParseOne(row: Row, rowNumber: int, idx: ImportIndex, p: Platform)
    returns (c: Candidate, errors: seq<ImportError>)
    ensures c == RowParser(idx, p)(row, rowNumber)
    ensures errors == RowChecker(idx, p)(row, rowNumber)
  {
    var m := NormalizeImportRow(row);
    c := RowCandidate(m, rowNumber, idx, p);
    errors := RowErrors(m, rowNumber, idx, p);
  }

  /** The body of the `rows.forEach` for the row at `index`: pushes the row's
      candidate and errors onto the lists built from the rows before it. */
  method ParseRow(rows: seq<Row>, index: int, rowStart: int, idx: ImportIndex, p: Platform,
                  candidates: seq<Candidate>, errors: seq<ImportError>)
    returns (candidates': seq<Candidate>, errors': seq<ImportError>)
    requires 0 <= index < |rows|
    requires candidates == CandidatesBy(rows[..index], rowStart, RowParser(idx, p))
    requires errors == ParseErrorsBy(rows[..index], rowStart, RowChecker(idx, p))
    ensures candidates' == CandidatesBy(rows[..index + 1], rowStart, RowParser(idx, p))
    ensures errors' == ParseErrorsBy(rows[..index + 1], rowStart, RowChecker(idx, p))
  {
    var c, es := ParseOne(rows[index], index + rowStart, idx, p);
    CandidatesStep(candidates, c, rows, index, rowStart, RowParser(idx, p));
    ParseErrorsStep(errors, es, rows, index, rowStart, RowChecker(idx, p));
    candidates' := candidates + [c];
    errors' := errors + es;
  }

  /** The `rows.forEach` of `validateJobImportRows`. */
  method ParseAll(rows: seq<Row>, rowStart: int, idx: ImportIndex, p: Platform)
    returns (candidates: seq<Candidate>, errors: seq<ImportError>)
    ensures candidates == Candidates(rows, rowStart, idx, p)
    ensures errors == ParseErrors(rows, rowStart, idx, p)
  {
    candidates := [];
    errors := [];
    var i := 0;
    while i < |rows|
      invariant 0 <= i <= |rows|
      invariant candidates == CandidatesBy(rows[..i], rowStart, RowParser(idx, p))
      invariant errors == ParseErrorsBy(rows[..i], rowStart, RowChecker(idx, p))
    {
      candidates, errors := ParseRow(rows, i, rowStart, idx, p, candidates, errors);
      i := i + 1;
    }
    assert rows[..i] == rows;
  }

  /** One key of the `candidates.forEach`: the first row with the key is recorded. */
  function Mark<K>(m: map<K, int>, k: Option<K>, row: int): map<K, int>
  {
    if k.Some? && k.value !in m then m[k.value := row] else m
  }

  /** The maps and the errors after candidate j follow from those before it. */
  lemma DuplicatesStep(cs: seq<Candidate>, j: int)
    requires 0 <= j < |cs|
    ensures FirstRows(cs[..j + 1], WorkOrderKey) == Mark(FirstRows(cs[..j], WorkOrderKey), WorkOrderKey(cs[j]), cs[j].row)
    ensures FirstRows(cs[..j + 1], SlotKey) == Mark(FirstRows(cs[..j], SlotKey), SlotKey(cs[j]), cs[j].row)
    ensures DuplicateErrors(cs[..j + 1])
      == DuplicateErrors(cs[..j]) + DuplicateErrorsFor(cs[j], FirstRows(cs[..j], WorkOrderKey), FirstRows(cs[..j], SlotKey))
  {
    assert cs[..j + 1][..j] == cs[..j];
  }

  /** The body of the `candidates.forEach` for one candidate. */
  method CheckDuplicate(c: Candidate, workOrderRows: map<string, int>, scheduleRows: map<(int, int), int>)
    returns (errors: seq<ImportError>, workOrderRows': map<string, int>, scheduleRows': map<(int, int), int>)
    ensures errors == DuplicateErrorsFor(c, workOrderRows, scheduleRows)
    ensures workOrderRows' == Mark(workOrderRows, WorkOrderKey(c), c.row)
    ensures scheduleRows' == Mark(scheduleRows, SlotKey(c), c.row)
  {
    errors := [];
    workOrderRows' := workOrderRows;
    scheduleRows' := scheduleRows;
    if c.workOrder != "" {
      if c.workOrder in workOrderRows {
        errors := [ImportError(c.row, WorkOrderField, DuplicateWorkOrder(workOrderRows[c.workOrder]), EchoText(c.workOrder))];
      } else {
        workOrderRows' := workOrderRows[c.workOrder := c.row];
      }
    }
    if c.workCenter.Some? && c.workCenter.value != 0 && c.plannedStartTime.Some? {
      var key := (c.workCenter.value, c.plannedStartTime.value);
      if key in scheduleRows {
        errors := errors + [ImportError(c.row, PlannedStartTimeField, DuplicateSlot(scheduleRows[key]), NoEcho)];
      } else {
        scheduleRows' := scheduleRows[key := c.row];
      }
    }
  }

  /** The `candidates.forEach` that fills `workOrderRows` and `scheduleRows`. */
  method FindDuplicates(candidates: seq<Candidate>) returns (errors: seq<ImportError>)
    ensures errors == DuplicateErrors(candidates)
  {
    var workOrderRows: map<string, int> := map[];
    var scheduleRows: map<(int, int), int> := map[];
    errors := [];
    var j := 0;
    while j < |candidates|
      invariant 0 <= j <= |candidates|
      invariant workOrderRows == FirstRows(candidates[..j], WorkOrderKey)
      invariant scheduleRows == FirstRows(candidates[..j], SlotKey)
      invariant errors == DuplicateErrors(candidates[..j])
    {
      DuplicatesStep(candidates, j);
      var es;
      es, workOrderRows, scheduleRows := CheckDuplicate(candidates[j], workOrderRows, scheduleRows);
      errors := errors + es;
      j := j + 1;
    }
    assert candidates[..j] == candidates;
  }

  /** The `findMany` on the distinct non-empty work orders and the `forEach` that
      flags the stored ones. */
  method FindExisting(candidates: seq<Candidate>, jobs: map<JobId, Job>) returns (errors: seq<ImportError>)
    ensures errors == ExistingErrors(candidates, jobs)
  {
    var workOrders := set c | c in candidates && c.workOrder != "" :: c.workOrder;
    errors := [];
    var existingSet: set<string> := {};
    if |workOrders| > 0 {
      existingSet := set id | id in jobs && jobs[id].workOrder in workOrders :: jobs[id].workOrder;
    }
    var j := 0;
    while j < |candidates|
      invariant 0 <= j <= |candidates|
      invariant errors == ExistingErrors(candidates[..j], jobs)
    {
      assert candidates[..j + 1][..j] == candidates[..j];
      var c := candidates[j];
      assert c in candidates;
      assert c.workOrder in existingSet <==> c.workOrder != "" && WorkOrderTaken(jobs, c.workOrder, None) by {
        if c.workOrder != "" && WorkOrderTaken(jobs, c.workOrder, None) {
          var id :| id in jobs && Some(id) != None && jobs[id].workOrder == c.workOrder;
          assert c.workOrder in workOrders;
        }
      }
      if c.workOrder in existingSet {
        errors := errors + [ImportError(c.row, WorkOrderField, AlreadyExists, EchoText(c.workOrder))];
      }
      j := j + 1;
    }
    assert candidates[..j] == candidates;
  }

  /** The loop that asks the store, candidate by candidate, for a job in the same slot. */
  method FindConflicts(candidates: seq<Candidate>, jobs: map<JobId, Job>) returns (errors: seq<ImportError>)
    ensures errors == ConflictErrors(candidates, jobs)
  {
    errors := [];
    var j := 0;
    while j < |candidates|
      invariant 0 <= j <= |candidates|
      invariant errors == ConflictErrors(candidates[..j], jobs)
    {
      assert candidates[..j + 1][..j] == candidates[..j];
      var c := candidates[j];
      if c.workCenter.Some? && c.workCenter.value != 0 && c.plannedStartTime.Some? {
        if SlotTaken(jobs, c.workCenter.value, c.plannedStartTime.value, None) {
          errors := errors + [ImportError(c.row, PlannedStartTimeField, SlotConflict, EchoTime(c.plannedStartTime.value))];
        }
      }
      j := j + 1;
    }
    assert candidates[..j] == candidates;
  }

  /** The preview over the stored jobs `jobs` and the lookup table `ls`: it reports
      every error, keeps exactly the candidates of the rows without one (in row order),
      and its counts add up. It only reads: its inputs are values. */
  method ValidateRows(jobs: map<JobId, Job>, ls: seq<Lookup>, p: Platform, rows: seq<Row>, rowStart: int)
    returns (r: PreviewResult)
    ensures r.errors == AllErrors(rows, rowStart, ls, jobs, p)
    ensures r.data == Clean(Candidates(rows, rowStart, IndexFor(ls), p), ErrorRows(r.errors))
    ensures r.totalRows == |rows| && r.validRows == |r.data| && r.invalidRows == |ErrorRows(r.errors)|
    ensures r.validRows + r.invalidRows == r.totalRows
    ensures forall e :: e in r.errors ==> rowStart <= e.row < rowStart + |rows|
    ensures forall c :: c in r.data ==> c.row !in ErrorRows(r.errors)
  {
    var idx := BuildImportIndex(ls);
    assert idx == IndexFor(ls);
    var candidates, parsed := ParseAll(rows, rowStart, idx, p);
    CandidatesNumberedFrom(rows, rowStart, idx, p);
    var duplicates := FindDuplicates(candidates);
    var existing := FindExisting(candidates, jobs);
    var conflicts := FindConflicts(candidates, jobs);
    var errors := parsed + duplicates + existing + conflicts;

    var badRows := ErrorRows(errors);
    var data := Clean(candidates, badRows);
    r := PreviewResult(|rows|, |data|, |badRows|, data, errors);

    ErrorsNameRows(candidates, rowStart, parsed, jobs);
    assert badRows == badRows * RowsOf(candidates);
    CleanCount(candidates, rowStart, badRows);
    CleanMeaning(candidates, badRows);
  }

  /** Every error of the preview names the row of one of the candidates: the per-row
      errors because the candidates are numbered like the rows, the others because
      each is raised for a candidate. */
  lemma ErrorsNameRows(cs: seq<Candidate>, rowStart: int, parsed: seq<ImportError>, jobs: map<JobId, Job>)
    requires Numbered(cs, rowStart)
    requires forall e :: e in parsed ==> rowStart <= e.row < rowStart + |cs|
    ensures forall e :: e in parsed + DuplicateErrors(cs) + ExistingErrors(cs, jobs) + ConflictErrors(cs, jobs) ==>
      e.row in RowsOf(cs)
  {
    forall e | e in parsed + DuplicateErrors(cs) + ExistingErrors(cs, jobs) + ConflictErrors(cs, jobs)
      ensures e.row in RowsOf(cs)
    {
      if e in parsed {
        InRows(cs, rowStart, e.row);
      }
    }
  }

}
