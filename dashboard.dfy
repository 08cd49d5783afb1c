/**
  `getDashboard`: the number of jobs per lifecycle state. The job table is grouped
  by its lifecycle id; each group is put in the bucket of its lookup code (OTHER
  for an id without a code), and the five working states are reported with
  everything else, CLOSED included, as "other".
 */
module Dashboard {
  /** A row of the JOB_LIFECYCLE_STATE lookups: its id and code. */
  datatype LifecycleLookup = LifecycleLookup(id: int, code: string)

  /** A group of jobs sharing a lifecycle id, and how many there are. */
  datatype Group = Group(state: int, count: nat)

  datatype Summary = Summary(
    total: nat, scheduled: nat, released: nat, running: nat,
    completed: nat, suspended: nat, other: nat, generatedAt: int)

  /** The five codes reported on their own. */
  const Known: set<string> := {"SCHEDULED", "RELEASED", "RUNNING", "COMPLETED", "SUSPENDED"}

  /** `idToCode`: filled in the order the lookups come, so a later row with the same
      id replaces an earlier one. */
  function IdToCode(ls: seq<LifecycleLookup>): map<int, string>
  {
    if |ls| == 0 then map[] else IdToCode(ls[..|ls| - 1])[ls[|ls| - 1].id := ls[|ls| - 1].code]
  }

  /** An id is mapped exactly when some lookup has it, and then to the code of the
      last lookup that has it. */
  lemma {:induction false} IdToCodeMeaning(ls: seq<LifecycleLookup>, id: int)
    ensures id in IdToCode(ls) <==> exists k :: 0 <= k < |ls| && ls[k].id == id
    ensures id in IdToCode(ls) ==> exists k :: && 0 <= k < |ls| && ls[k].id == id && IdToCode(ls)[id] == ls[k].code
                                             && forall k' :: k < k' < |ls| ==> ls[k'].id != id
  {
    if |ls| > 0 {
      var init := ls[..|ls| - 1];
      var last := ls[|ls| - 1];
      IdToCodeMeaning(init, id);
      if last.id == id {
        assert ls[|ls| - 1].id == id;
      } else {
        if id in IdToCode(ls) {
          var k :| && 0 <= k < |init| && init[k].id == id && IdToCode(init)[id] == init[k].code
                   && forall k' :: k < k' < |init| ==> init[k'].id != id;
          assert ls[k] == init[k];
          assert forall k' :: k < k' < |ls| ==> ls[k'].id != id by {
            forall k' | k < k' < |ls|
              ensures ls[k'].id != id
            {
              if k' < |init| {
                assert ls[k'] == init[k'];
              }
            }
          }
        } else {
          forall k | 0 <= k < |ls|
            ensures ls[k].id != id
          {
            if k < |init| {
              assert ls[k] == init[k];
            }
          }
        }
      }
    }
  }

  /** The loop that fills `idToCode`. */
  method BuildIndex(ls: seq<LifecycleLookup>) returns (m: map<int, string>)
    ensures m == IdToCode(ls)
  {
    m := map[];
    var i := 0;
    while i < |ls|
      invariant 0 <= i <= |ls|
      invariant m == IdToCode(ls[..i])
    {
      assert ls[..i + 1][..i] == ls[..i];
      m := m[ls[i].id := ls[i].code];
      i := i + 1;
    }
    assert ls[..i] == ls;
  }

  /** The bucket of a lifecycle id: its code, or OTHER when the id has none or its
      code is empty. */
  function BucketOf(m: map<int, string>, state: int): string
  {
    if state in m && m[state] != "" then m[state] else "OTHER"
  }

  /** A lifecycle id that no lookup has is counted as OTHER. */
  lemma UnknownIdIsOther(ls: seq<LifecycleLookup>, state: int)
    requires forall k :: 0 <= k < |ls| ==> ls[k].id != state
    ensures BucketOf(IdToCode(ls), state) == "OTHER"
  {
    IdToCodeMeaning(ls, state);
  }

  /** `counts[code] || 0`. */
  function CountOf(counts: map<string, nat>, code: string): nat
  {
    if code in counts then counts[code] else 0
  }

  /** The counts per bucket after the first |gs| groups. */
  function Tallied(m: map<int, string>, gs: seq<Group>): map<string, nat>
  {
    if |gs| == 0 then map[]
    else
      var before := Tallied(m, gs[..|gs| - 1]);
      var g := gs[|gs| - 1];
      before[BucketOf(m, g.state) := CountOf(before, BucketOf(m, g.state)) + g.count]
  }

  /** The jobs in all groups. */
  function Total(gs: seq<Group>): nat
  {
    if |gs| == 0 then 0 else Total(gs[..|gs| - 1]) + gs[|gs| - 1].count
  }

  /** The jobs in the groups whose bucket is `code`. */
  function InBucket(m: map<int, string>, gs: seq<Group>, code: string): nat
  {
    if |gs| == 0 then 0
    else InBucket(m, gs[..|gs| - 1], code) + (if BucketOf(m, gs[|gs| - 1].state) == code then gs[|gs| - 1].count else 0)
  }

  /** The jobs in the groups whose bucket is none of the five known codes. */
  function Outside(m: map<int, string>, gs: seq<Group>): nat
  {
    if |gs| == 0 then 0
    else Outside(m, gs[..|gs| - 1]) + (if BucketOf(m, gs[|gs| - 1].state) !in Known then gs[|gs| - 1].count else 0)
  }

  /** The count kept for a bucket is the sum of the groups in it. */
  lemma {:induction false} TalliedMeaning(m: map<int, string>, gs: seq<Group>, code: string)
    ensures CountOf(Tallied(m, gs), code) == InBucket(m, gs, code)
  {
    if |gs| > 0 {
      TalliedMeaning(m, gs[..|gs| - 1], code);
    }
  }

  /** Every group is in exactly one of the five known buckets or outside them. */
  lemma {:induction false} BucketsPartition(m: map<int, string>, gs: seq<Group>)
    ensures Total(gs) == InBucket(m, gs, "SCHEDULED") + InBucket(m, gs, "RELEASED") + InBucket(m, gs, "RUNNING")
                       + InBucket(m, gs, "COMPLETED") + InBucket(m, gs, "SUSPENDED") + Outside(m, gs)
  {
    if |gs| > 0 {
      BucketsPartition(m, gs[..|gs| - 1]);
    }
  }

  /** CLOSED is not reported on its own: its jobs are part of "other". */
  lemma {:induction false} ClosedIsOther(m: map<int, string>, gs: seq<Group>)
    ensures InBucket(m, gs, "CLOSED") <= Outside(m, gs)
  {
    if |gs| > 0 {
      ClosedIsOther(m, gs[..|gs| - 1]);
    }
  }

  /** The loop over the groups: the counts per bucket and the total. */
  method Tally(m: map<int, string>, gs: seq<Group>) returns (counts: map<string, nat>, total: nat)
    ensures counts == Tallied(m, gs) && total == Total(gs)
  {
    counts := map[];
    total := 0;
    var i := 0;
    while i < |gs|
      invariant 0 <= i <= |gs|
      invariant counts == Tallied(m, gs[..i]) && total == Total(gs[..i])
    {
      assert gs[..i + 1][..i] == gs[..i];
      var code := BucketOf(m, gs[i].state);
      counts := counts[code := CountOf(counts, code) + gs[i].count];
      total := total + gs[i].count;
      i := i + 1;
    }
    assert gs[..i] == gs;
  }

  /** `getDashboard` over the lifecycle lookups and the groups of the job table,
      with `now` the time of the request: the total is every job, each known state
      counts the groups whose lookup has its code, and "other" is every remaining
      job, so the seven figures partition the total. */
  method GetDashboard(ls: seq<LifecycleLookup>, gs: seq<Group>, now: int) returns (d: Summary)
    ensures d.total == Total(gs)
    ensures d.scheduled == InBucket(IdToCode(ls), gs, "SCHEDULED")
    ensures d.released == InBucket(IdToCode(ls), gs, "RELEASED")
    ensures d.running == InBucket(IdToCode(ls), gs, "RUNNING")
    ensures d.completed == InBucket(IdToCode(ls), gs, "COMPLETED")
    ensures d.suspended == InBucket(IdToCode(ls), gs, "SUSPENDED")
    ensures d.other == Outside(IdToCode(ls), gs)
    ensures d.total == d.scheduled + d.released + d.running + d.completed + d.suspended + d.other
    ensures d.generatedAt == now
  {
    var m := BuildIndex(ls);
    var counts, total := Tally(m, gs);
    var scheduled := CountOf(counts, "SCHEDULED");
    var released := CountOf(counts, "RELEASED");
    var running := CountOf(counts, "RUNNING");
    var completed := CountOf(counts, "COMPLETED");
    var suspended := CountOf(counts, "SUSPENDED");
    var known := scheduled + released + running + completed + suspended;
    var other: int := if total as int - known > 0 then total as int - known else 0;
    TalliedMeaning(m, gs, "SCHEDULED");
    TalliedMeaning(m, gs, "RELEASED");
    TalliedMeaning(m, gs, "RUNNING");
    TalliedMeaning(m, gs, "COMPLETED");
    TalliedMeaning(m, gs, "SUSPENDED");
    BucketsPartition(m, gs);
    d := Summary(total, scheduled, released, running, completed, suspended, other, now);
  }
}
