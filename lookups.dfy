/**
  The typed reference values (lookups) jobs point at, their resolution by id as the
  single-record paths do it, and the code/id index the import path builds.
 */
module Lookups {
  import opened Values
  import opened Text
  import opened Failures

  datatype LookupType =
    | QuantityUnit | WorkCenter | JobPriority | JobLifecycleState
    | AccountLifecycle | AccountType | AccountRole

  function TypeName(t: LookupType): string
  {
    match t
    case QuantityUnit => "QUANTITY_UNIT"
    case WorkCenter => "WORK_CENTER"
    case JobPriority => "JOB_PRIORITY"
    case JobLifecycleState => "JOB_LIFECYCLE_STATE"
    case AccountLifecycle => "ACCOUNT_LIFECYCLE"
    case AccountType => "ACCOUNT_TYPE"
    case AccountRole => "ACCOUNT_ROLE"
  }

  /** One row of the lookup table. */
  datatype Lookup = Lookup(id: int, lookupType: LookupType, code: string)

  /** The table as the database keeps it: ids are positive serials, each used once. */
  ghost predicate ValidLookups(ls: seq<Lookup>)
  {
    && (forall i :: 0 <= i < |ls| ==> ls[i].id >= 1)
    && (forall i, j :: 0 <= i < j < |ls| ==> ls[i].id != ls[j].id)
  }

  /** Some row of the table has this id and this type. */
  ghost predicate IsLookupOf(ls: seq<Lookup>, id: int, t: LookupType)
  {
    exists l :: l in ls && l.id == id && l.lookupType == t
  }

  /** `lookup.findUnique({ where: { id } })`: the row with that id, if there is one. */
  function FindById(ls: seq<Lookup>, id: int): (r: Option<Lookup>)
    ensures r.Some? ==> r.value in ls && r.value.id == id
    ensures r.None? <==> forall l :: l in ls ==> l.id != id
  {
    if |ls| == 0 then None
    else if ls[0].id == id then Some(ls[0])
    else FindById(ls[1..], id)
  }

  /** With distinct ids, the row found is the only one with that id. */
  lemma FindByIdUnique(ls: seq<Lookup>, l: Lookup)
    requires ValidLookups(ls)
    requires l in ls
    ensures FindById(ls, l.id) == Some(l)
  {
    var k :| 0 <= k < |ls| && ls[k] == l;
    var r := FindById(ls, l.id);
    var j :| 0 <= j < |ls| && ls[j] == r.value;
    assert j == k;
  }

  /** A lookup reference in a create or update body: an integer, a string meant
      to hold one, or any other value the schema's `mixed()` lets through (a
      boolean, an object, NaN), with its JavaScript truthiness. */
  datatype LookupRef = RefId(id: int) | RefText(text: string) | RefOther(truthy: bool)

  /** `parseLookupId`: a string goes through `parseInt(value, 10)`, a number is
      taken as it is, anything else is refused; None stands for the refusal
      ("must be a valid lookup id"). */
  function ParseLookupId(v: LookupRef, p: Platform): (r: Option<int>)
    ensures v.RefId? ==> r == Some(v.id)
    ensures v.RefText? ==> r == p.parseInt(v.text)
    ensures v.RefOther? ==> r.None?
  {
    match v
    case RefId(id) => Some(id)
    case RefText(s) => p.parseInt(s)
    case RefOther(_) => None
  }

  function NotALookupId(field: string): Failure
  {
    Invalid(field, field + " must be a valid lookup id")
  }

  function LookupMissing(field: string, t: LookupType): Failure
  {
    Invalid(field, field + " lookup not found or invalid type (" + TypeName(t) + ")")
  }

  /** `resolveLookup`: parse the id, fetch the row, insist on its type. It succeeds
      exactly when the id parses to the id of a row of type `t`, and then returns
      that row; otherwise the failure is a field error under `field`. */
  function ResolveLookup(ls: seq<Lookup>, v: LookupRef, t: LookupType, field: string, p: Platform)
    : (r: Result<Lookup>)
    ensures r.Ok? ==> r.value in ls && r.value.lookupType == t && ParseLookupId(v, p) == Some(r.value.id)
    ensures ParseLookupId(v, p).None? ==> r == Fail(NotALookupId(field))
    ensures ParseLookupId(v, p).Some? && r.Fail? ==> r == Fail(LookupMissing(field, t))
  {
    match ParseLookupId(v, p)
    case None => Fail(NotALookupId(field))
    case Some(id) =>
      var row := FindById(ls, id);
      if row.Some? && row.value.lookupType == t then Ok(row.value) else Fail(LookupMissing(field, t))
  }

  /** In a table with distinct ids, resolution succeeds exactly when the reference
      parses to the id of a row of the expected type. */
  lemma ResolveLookupSucceeds(ls: seq<Lookup>, v: LookupRef, t: LookupType, field: string, p: Platform)
    requires ValidLookups(ls)
    ensures ResolveLookup(ls, v, t, field, p).Ok? <==>
      ParseLookupId(v, p).Some? && IsLookupOf(ls, ParseLookupId(v, p).value, t)
  {
    var id := ParseLookupId(v, p);
    if id.Some? && IsLookupOf(ls, id.value, t) {
      var l :| l in ls && l.id == id.value && l.lookupType == t;
      FindByIdUnique(ls, l);
    }
  }

  /** The three lookup types an import row refers to. */
  const ImportTypes: set<LookupType> := {QuantityUnit, WorkCenter, JobPriority}

  /** What the import path builds from the lookup table: per type, upper-cased code
      to id (`codeMaps`) and the set of ids (`idMaps`). */
  datatype ImportIndex = ImportIndex(codes: map<(LookupType, string), int>, ids: set<(LookupType, int)>)

  /** `codeMaps` after the `forEach` over the first |ls| rows: a later row with the
      same type and upper-cased code overwrites an earlier one. */
  function CodeIndex(ls: seq<Lookup>): map<(LookupType, string), int>
  {
    if |ls| == 0 then map[]
    else
      var l := ls[|ls| - 1];
      var m := CodeIndex(ls[..|ls| - 1]);
      if l.lookupType in ImportTypes then m[(l.lookupType, ToUpper(l.code)) := l.id] else m
  }

  /** The code index holds a key exactly when some import-type row has that type and
      upper-cased code, and every id it maps to is the id of such a row. */
  lemma {:induction false} CodeIndexMeaning(ls: seq<Lookup>)
    ensures forall l :: l in ls && l.lookupType in ImportTypes ==> (l.lookupType, ToUpper(l.code)) in CodeIndex(ls)
    ensures forall key :: key in CodeIndex(ls) ==>
      exists l :: l in ls && l.lookupType in ImportTypes && key == (l.lookupType, ToUpper(l.code)) && l.id == CodeIndex(ls)[key]
  {
    if |ls| > 0 {
      var init := ls[..|ls| - 1];
      CodeIndexMeaning(init);
      assert ls == init + [ls[|ls| - 1]];
      forall key | key in CodeIndex(ls)
        ensures exists l :: l in ls && l.lookupType in ImportTypes && key == (l.lookupType, ToUpper(l.code)) && l.id == CodeIndex(ls)[key]
      {
        var last := ls[|ls| - 1];
        if last.lookupType in ImportTypes && key == (last.lookupType, ToUpper(last.code)) {
          assert last in ls;
        } else {
          assert key in CodeIndex(init);
          var l :| l in init && l.lookupType in ImportTypes && key == (l.lookupType, ToUpper(l.code)) && l.id == CodeIndex(init)[key];
          assert l in ls;
        }
      }
    }
  }

  /** Fills `codeMaps` and `idMaps` from the fetched rows of the three import types. */
  method BuildImportIndex(ls: seq<Lookup>) returns (idx: ImportIndex)
    ensures idx.codes == CodeIndex(ls)
    ensures idx.ids == set l | l in ls && l.lookupType in ImportTypes :: (l.lookupType, l.id)
    ensures forall l :: l in ls && l.lookupType in ImportTypes ==> (l.lookupType, ToUpper(l.code)) in idx.codes
    ensures forall key :: key in idx.codes ==>
      exists l :: l in ls && l.lookupType in ImportTypes && key == (l.lookupType, ToUpper(l.code)) && l.id == idx.codes[key]
  {
    var codes: map<(LookupType, string), int> := map[];
    var ids: set<(LookupType, int)> := {};
    var i := 0;
    while i < |ls|
      invariant 0 <= i <= |ls|
      invariant codes == CodeIndex(ls[..i])
      invariant ids == set l | l in ls[..i] && l.lookupType in ImportTypes :: (l.lookupType, l.id)
    {
      var l := ls[i];
      assert ls[..i + 1][..i] == ls[..i];
      assert ls[..i + 1] == ls[..i] + [l];
      if l.lookupType in ImportTypes {
        codes := codes[(l.lookupType, ToUpper(l.code)) := l.id];
        ids := ids + {(l.lookupType, l.id)};
      }
      i := i + 1;
    }
    assert ls[..i] == ls;
    idx := ImportIndex(codes, ids);
    CodeIndexMeaning(ls);
  }

  /** The reference rows the database is seeded with: type, code, sort order. */
  const SeedLookups: seq<(LookupType, string, nat)> := [
    (AccountLifecycle, "CREATED", 1), (AccountLifecycle, "ACTIVE", 2),
    (AccountLifecycle, "DISABLED", 3), (AccountLifecycle, "EXPIRED", 4),
    (AccountLifecycle, "DELETED", 5),
    (AccountType, "PERMANENT", 1), (AccountType, "WITH_EXPIRATION", 2),
    (AccountRole, "OPERATOR", 1), (AccountRole, "ADMINISTRATOR", 2), (AccountRole, "PPIC", 3),
    (AccountRole, "MAINTENANCE", 4), (AccountRole, "MAINTENANCE_ADMINISTRATOR", 5),
    (JobPriority, "HIGH", 1), (JobPriority, "MEDIUM", 2), (JobPriority, "LOW", 3),
    (JobLifecycleState, "SCHEDULED", 1), (JobLifecycleState, "RELEASED", 2),
    (JobLifecycleState, "RUNNING", 3), (JobLifecycleState, "SUSPENDED", 4),
    (JobLifecycleState, "COMPLETED", 5), (JobLifecycleState, "CLOSED", 7),
    (QuantityUnit, "BK", 1), (QuantityUnit, "EA", 2),
    (WorkCenter, "Jasuindo.OffsetPrinter.Taiyo1", 1), (WorkCenter, "Jasuindo.OffsetPrinter.Taiyo2", 2)
  ]
}
