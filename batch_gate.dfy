/**
  The payload gate of `batchCreateFromJson`: before any preview or write, the body
  must be a non-empty array of plain objects whose keys are neither forbidden nor,
  once normalized, outside the import allow-list. Every offending item and key is
  reported, in one aggregated failure.
 */
module BatchGate {
  import opened Values
  import opened Text
  import opened Failures
  import opened ImportRows

  /** `FORBIDDEN_PAYLOAD_KEYS` */
  const ForbiddenKeys: set<string> := {"__proto__", "prototype", "constructor"}

  /** What the gate objects to, for the item numbered `row` (its index plus 1). */
  datatype GateIssue =
    | NotAnObject(row: nat)
    | ForbiddenKey(row: nat, key: string)
    | UnknownKey(row: nat, key: string)

  function RowLabel(n: nat): string
  {
    "row[" + NatStr(n) + "]"
  }

  /** The `{ field, message }` pushed onto `payloadDetails` for an issue. */
  function Detail(i: GateIssue): FieldError
  {
    match i
    case NotAnObject(n) => FieldError(RowLabel(n), "Each item must be a plain JSON object")
    case ForbiddenKey(n, k) => FieldError(RowLabel(n) + "." + k, "Forbidden key is not allowed")
    case UnknownKey(n, k) => FieldError(RowLabel(n) + "." + k, "Unknown field is not allowed in batch-create payload")
  }

  /** The details of a list of issues, in the same order. */
  function Rendered(issues: seq<GateIssue>): (r: seq<FieldError>)
    ensures |r| == |issues| && forall k :: 0 <= k < |issues| ==> r[k] == Detail(issues[k])
  {
    seq(|issues|, k requires 0 <= k < |issues| => Detail(issues[k]))
  }

  const EmptyBody: Failure := Invalid("body", "Request body must be a non-empty JSON array")

  /** `Object.keys(row)` */
  function Keys(row: Row): (ks: seq<string>)
    ensures |ks| == |row| && forall k :: 0 <= k < |row| ==> ks[k] == row[k].0
  {
    seq(|row|, k requires 0 <= k < |row| => row[k].0)
  }

  /** The forbidden-key issues of the first |keys| keys of item `n`, in key order. */
  function ForbiddenIssues(keys: seq<string>, n: nat): seq<GateIssue>
  {
    if |keys| == 0 then []
    else
      var k := keys[|keys| - 1];
      ForbiddenIssues(keys[..|keys| - 1], n) + (if k in ForbiddenKeys then [ForbiddenKey(n, k)] else [])
  }

  /** The normal form of each key, in key order. */
  function NormalForms(keys: seq<string>): (forms: seq<string>)
    ensures |forms| == |keys| && forall k :: 0 <= k < |keys| ==> forms[k] == NormalizeKey(keys[k])
  {
    seq(|keys|, k requires 0 <= k < |keys| => NormalizeKey(keys[k]))
  }

  /** The unknown-key issues: each normal form that is not an allowed column,
      reported as such. */
  function UnknownIssues(forms: seq<string>, n: nat): seq<GateIssue>
  {
    if |forms| == 0 then []
    else
      var k := forms[|forms| - 1];
      UnknownIssues(forms[..|forms| - 1], n) + (if k !in AllowedFields then [UnknownKey(n, k)] else [])
  }

  /** Everything the gate reports about one item. */
  function ItemIssues(v: Value, n: nat): seq<GateIssue>
  {
    if !v.Obj? then [NotAnObject(n)]
    else ForbiddenIssues(Keys(v.fields), n) + UnknownIssues(NormalForms(Keys(v.fields)), n)
  }

  /** Everything the gate reports about the first |items| items. */
  function GateIssues(items: seq<Value>): seq<GateIssue>
  {
    if |items| == 0 then []
    else GateIssues(items[..|items| - 1]) + ItemIssues(items[|items| - 1], |items|)
  }

  /** The rows the preview receives: each object's own entries (a rejected item
      would become `{}`, but then the gate has already failed). */
  function Sanitized(items: seq<Value>): (rows: seq<Row>)
    ensures |rows| == |items|
    ensures forall k :: 0 <= k < |items| && items[k].Obj? ==> rows[k] == items[k].fields
  {
    seq(|items|, k requires 0 <= k < |items| => if items[k].Obj? then items[k].fields else [])
  }

  // ---------------------------------------------------------------------------
  // What the issues mean

  ghost predicate CleanKeys(keys: seq<string>)
  {
    forall i :: 0 <= i < |keys| ==> keys[i] !in ForbiddenKeys && NormalizeKey(keys[i]) in AllowedFields
  }

  /** No forbidden-key issue exactly when no key is forbidden; every issue names
      item `n` and one of its keys. */
  lemma {:induction false} ForbiddenIssuesMeaning(keys: seq<string>, n: nat)
    ensures ForbiddenIssues(keys, n) == [] <==> forall i :: 0 <= i < |keys| ==> keys[i] !in ForbiddenKeys
    ensures forall g :: g in ForbiddenIssues(keys, n) ==> g.ForbiddenKey? && g.row == n && g.key in keys && g.key in ForbiddenKeys
  {
    if |keys| > 0 {
      var init := keys[..|keys| - 1];
      ForbiddenIssuesMeaning(init, n);
      assert forall i :: 0 <= i < |init| ==> init[i] == keys[i];
      assert keys == init + [keys[|keys| - 1]];
    }
  }

  /** No unknown-key issue exactly when every normal form is an allowed column. */
  lemma {:induction false} UnknownIssuesMeaning(forms: seq<string>, n: nat)
    ensures UnknownIssues(forms, n) == [] <==> forall i :: 0 <= i < |forms| ==> forms[i] in AllowedFields
    ensures forall g :: g in UnknownIssues(forms, n) ==> g.UnknownKey? && g.row == n && g.key in forms && g.key !in AllowedFields
  {
    if |forms| > 0 {
      var init := forms[..|forms| - 1];
      UnknownIssuesMeaning(init, n);
      assert forall i :: 0 <= i < |init| ==> init[i] == forms[i];
      assert forms == init + [forms[|forms| - 1]];
    }
  }

  /** An item the gate lets through: a plain object whose keys are all clean. */
  ghost predicate ItemPasses(v: Value)
  {
    v.Obj? && CleanKeys(Keys(v.fields))
  }

  /** An item raises no issue exactly when it passes. */
  lemma ItemIssuesMeaning(v: Value, n: nat)
    ensures ItemIssues(v, n) == [] <==> ItemPasses(v)
  {
    if v.Obj? {
      ForbiddenIssuesMeaning(Keys(v.fields), n);
      UnknownIssuesMeaning(NormalForms(Keys(v.fields)), n);
    }
  }

  /** Every issue raised for item `n` names item `n`. */
  lemma ItemIssuesRows(v: Value, n: nat)
    ensures forall g :: g in ItemIssues(v, n) ==> g.row == n
  {
    if v.Obj? {
      ForbiddenIssuesMeaning(Keys(v.fields), n);
      UnknownIssuesMeaning(NormalForms(Keys(v.fields)), n);
    }
  }

  /** The gate raises no issue exactly when every item passes. */
  lemma {:induction false} GateIssuesMeaning(items: seq<Value>)
    ensures GateIssues(items) == [] <==> forall k :: 0 <= k < |items| ==> ItemPasses(items[k])
  {
    if |items| > 0 {
      var init := items[..|items| - 1];
      GateIssuesMeaning(init);
      ItemIssuesMeaning(items[|items| - 1], |items|);
      assert forall k :: 0 <= k < |init| ==> init[k] == items[k];
    }
  }

  /** Every issue the gate raises names an item between 1 and |items|. */
  lemma {:induction false} GateIssuesRows(items: seq<Value>)
    ensures forall g :: g in GateIssues(items) ==> 1 <= g.row <= |items|
  {
    if |items| > 0 {
      GateIssuesRows(items[..|items| - 1]);
      ItemIssuesRows(items[|items| - 1], |items|);
    }
  }

  /** A forbidden key is never an allowed column, whatever its spelling: each of the
      three is its own normal form, so such an item is also flagged as unknown. */
  lemma ForbiddenKeysAreUnknown(k: string)
    requires k in ForbiddenKeys
    ensures k !in AllowedFields
    ensures NormalizeKey(k) == k
  {
    assert k !in AllowedFields;
    ForbiddenKeysAreNormal(k);
  }

  /** Each forbidden key is lower-case letters and underscores only. */
  lemma ForbiddenKeysAreNormal(k: string)
    requires k in ForbiddenKeys
    ensures NormalizeKey(k) == k
  {
    assert SnakeCase(k);
    SnakeCaseIsNormal(k);
  }

  // ---------------------------------------------------------------------------
  // The gate as the service runs it

  /** `originalKeys.forEach(...)`: the forbidden keys of item `n`, in key order. */
  method CollectForbidden(keys: seq<string>, n: nat) returns (forbidden: seq<GateIssue>)
    ensures forbidden == ForbiddenIssues(keys, n)
  {
    forbidden := [];
    var i := 0;
    while i < |keys|
      invariant 0 <= i <= |keys|
      invariant forbidden == ForbiddenIssues(keys[..i], n)
    {
      assert keys[..i + 1][..i] == keys[..i];
      if keys[i] in ForbiddenKeys {
        forbidden := forbidden + [ForbiddenKey(n, keys[i])];
      }
      i := i + 1;
    }
    assert keys[..i] == keys;
  }

  /** The `unknownKeys` filter: each normal form of a key of item `n` that is not an
      allowed column. */
  method CollectUnknown(keys: seq<string>, n: nat) returns (unknown: seq<GateIssue>)
    ensures unknown == UnknownIssues(NormalForms(keys), n)
  {
    var forms := NormalForms(keys);
    unknown := [];
    var i := 0;
    while i < |keys|
      invariant 0 <= i <= |keys|
      invariant unknown == UnknownIssues(forms[..i], n)
    {
      assert forms[..i + 1][..i] == forms[..i];
      var normalized := NormalizeKey(keys[i]);
      if normalized !in AllowedFields {
        unknown := unknown + [UnknownKey(n, normalized)];
      }
      i := i + 1;
    }
    assert forms[..i] == forms;
  }

  /** The checks of one item. */
  method CheckItem(v: Value, n: nat) returns (issues: seq<GateIssue>)
    ensures issues == ItemIssues(v, n)
  {
    if !v.Obj? {
      return [NotAnObject(n)];
    }
    var keys := Keys(v.fields);
    var forbidden := CollectForbidden(keys, n);
    var unknown := CollectUnknown(keys, n);
    issues := forbidden + unknown;
  }

  /** The outcome of the gate: the failure it throws, or the rows it hands on. */
  function PayloadGate(body: Value): Result<seq<Row>>
  {
    if !body.Arr? || |body.items| == 0 then Fail(EmptyBody)
    else if GateIssues(body.items) != [] then Fail(BadRequest(Rendered(GateIssues(body.items))))
    else Ok(Sanitized(body.items))
  }

  /** The gate passes exactly when the body is a non-empty array of plain objects
      with clean keys, and then hands on each object's entries; otherwise the
      failure carries one detail per issue, each naming an item of the body. */
  lemma PayloadGateMeaning(body: Value)
    ensures PayloadGate(body).Ok? <==>
      body.Arr? && |body.items| > 0 && forall k :: 0 <= k < |body.items| ==> ItemPasses(body.items[k])
    ensures PayloadGate(body).Ok? ==>
      && |PayloadGate(body).value| == |body.items|
      && forall k :: 0 <= k < |body.items| ==>
           body.items[k].Obj? && PayloadGate(body).value[k] == body.items[k].fields
           && CleanKeys(Keys(PayloadGate(body).value[k]))
    ensures PayloadGate(body).Fail? && body.Arr? && |body.items| > 0 ==>
      && PayloadGate(body).failure.BadRequest?
      && |PayloadGate(body).failure.details| > 0
      && forall g :: g in GateIssues(body.items) ==> 1 <= g.row <= |body.items|
  {
    if body.Arr? && |body.items| > 0 {
      GateIssuesMeaning(body.items);
      GateIssuesRows(body.items);
      if GateIssues(body.items) == [] {
        PassedRowsAreClean(body.items);
      }
    }
  }

  /** The gate: a body that is not a non-empty array fails at once; otherwise every
      item is checked, and any issue fails the whole payload with all of them. */
  method CheckPayload(body: Value) returns (r: Result<seq<Row>>)
    ensures r == PayloadGate(body)
  {
    if !body.Arr? || |body.items| == 0 {
      return Fail(EmptyBody);
    }
    var items := body.items;
    var issues: seq<GateIssue> := [];
    var i := 0;
    while i < |items|
      invariant 0 <= i <= |items|
      invariant issues == GateIssues(items[..i])
    {
      assert items[..i + 1][..i] == items[..i];
      var found := CheckItem(items[i], i + 1);
      issues := issues + found;
      i := i + 1;
    }
    assert items[..i] == items;
    if |issues| > 0 {
      return Fail(BadRequest(Rendered(issues)));
    }
    r := Ok(Sanitized(items));
  }

  /** When the gate passes, item `k` is a plain object whose keys are all clean. */
  lemma PassedItemIsClean(items: seq<Value>, k: nat)
    requires GateIssues(items) == [] && k < |items|
    ensures items[k].Obj? && CleanKeys(Keys(items[k].fields))
  {
    GateIssuesMeaning(items);
    assert ItemPasses(items[k]);
  }

  /** When the gate passes, every row it hands on is an object's entries, and every
      key of every row normalizes to an allowed column. */
  lemma PassedRowsAreClean(items: seq<Value>)
    requires GateIssues(items) == []
    ensures forall k :: 0 <= k < |items| ==> items[k].Obj? && Sanitized(items)[k] == items[k].fields
    ensures forall k :: 0 <= k < |items| ==> CleanKeys(Keys(Sanitized(items)[k]))
  {
    var rows := Sanitized(items);
    forall k | 0 <= k < |items|
      ensures items[k].Obj? && rows[k] == items[k].fields && CleanKeys(Keys(rows[k]))
    {
      PassedItemIsClean(items, k);
    }
  }
}
