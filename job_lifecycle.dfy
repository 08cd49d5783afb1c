/**
  The job lifecycle: six states, the five actions that move a job between them, and
  the gate that allows edit and delete only while a job is SCHEDULED.
 */
module JobLifecycle {
  import opened Values
  import opened Failures
  import Lookups

  datatype State = Scheduled | Released | Running | Suspended | Completed | Closed

  /** The JOB_LIFECYCLE_STATE lookup code of each state. */
  function Code(s: State): string
  {
    match s
    case Scheduled => "SCHEDULED"
    case Released => "RELEASED"
    case Running => "RUNNING"
    case Suspended => "SUSPENDED"
    case Completed => "COMPLETED"
    case Closed => "CLOSED"
  }

  /** The seeded sort order of each state's lookup row. */
  function SortOrder(s: State): nat
  {
    match s
    case Scheduled => 1
    case Released => 2
    case Running => 3
    case Suspended => 4
    case Completed => 5
    case Closed => 7
  }

  /** Every state's code is seeded as a JOB_LIFECYCLE_STATE lookup with that sort order,
      and distinct states have distinct codes. */
  lemma StatesAreSeeded(s: State, u: State)
    ensures (Lookups.JobLifecycleState, Code(s), SortOrder(s)) in Lookups.SeedLookups
    ensures Code(s) == Code(u) ==> s == u
  {
  }

  datatype Action = Release | Run | Suspend | Complete | Close

  function ActionName(a: Action): string
  {
    match a
    case Release => "release"
    case Run => "run"
    case Suspend => "suspend"
    case Complete => "complete"
    case Close => "close"
  }

  /** The `allowedFrom` list each action passes to `transition`. */
  function AllowedFrom(a: Action): seq<State>
  {
    match a
    case Release => [Scheduled]
    case Run => [Released]
    case Suspend => [Released, Running]
    case Complete => [Running, Suspended]
    case Close => [Released, Completed]
  }

  /** The `toCode` each action passes to `transition`. */
  function Target(a: Action): State
  {
    match a
    case Release => Released
    case Run => Running
    case Suspend => Suspended
    case Complete => Completed
    case Close => Closed
  }

  function ForbiddenMove(a: Action, s: State): Failure
  {
    Forbidden("Cannot " + ActionName(a) + " job from status " + Code(s))
  }

  /** The decision `transition` takes for a job in state `s`. */
  function Step(s: State, a: Action): Result<State>
  {
    if s in AllowedFrom(a) then Ok(Target(a)) else Fail(ForbiddenMove(a, s))
  }

  /** The lifecycle as a table of (source, action, target) edges. */
  const Edges: set<(State, Action, State)> := {
    (Scheduled, Release, Released),
    (Released, Run, Running),
    (Released, Suspend, Suspended), (Running, Suspend, Suspended),
    (Running, Complete, Completed), (Suspended, Complete, Completed),
    (Released, Close, Closed), (Completed, Close, Closed)
  }

  /** An action succeeds exactly along an edge of the table; every other pair of state
      and action fails as forbidden, naming the action and the current state. */
  lemma StepFollowsEdges(s: State, a: Action)
    ensures forall t :: Step(s, a) == Ok(t) <==> (s, a, t) in Edges
    ensures Step(s, a).Fail? <==> (forall t :: (s, a, t) !in Edges)
    ensures Step(s, a).Fail? ==> Step(s, a).failure == ForbiddenMove(a, s)
  {
  }

  /** CLOSED has no way out. */
  lemma ClosedIsTerminal(a: Action)
    ensures Step(Closed, a).Fail?
  {
  }

  /** Position along the lifecycle; every allowed move goes strictly forward. */
  function Rank(s: State): nat
  {
    match s
    case Scheduled => 0
    case Released => 1
    case Running => 2
    case Suspended => 3
    case Completed => 4
    case Closed => 5
  }

  lemma StepAdvances(s: State, a: Action)
    ensures Step(s, a).Ok? ==> Rank(Step(s, a).value) > Rank(s)
    ensures Step(s, a).Ok? ==> SortOrder(Step(s, a).value) > SortOrder(s)
  {
  }

  /** Applying actions in order; None as soon as one is forbidden. */
  function Replay(s: State, acts: seq<Action>): Option<State>
    decreases |acts|
  {
    if acts == [] then Some(s)
    else
      match Step(s, acts[0])
      case Ok(t) => Replay(t, acts[1..])
      case Fail(_) => None
  }

  /** Every successful action moves at least one rank forward. */
  lemma {:induction false} ReplayAdvances(s: State, acts: seq<Action>)
    ensures Replay(s, acts).Some? ==> Rank(Replay(s, acts).value) >= Rank(s) + |acts|
    decreases |acts|
  {
    if acts != [] {
      StepAdvances(s, acts[0]);
      if Step(s, acts[0]).Ok? {
        ReplayAdvances(Step(s, acts[0]).value, acts[1..]);
      }
    }
  }

  /** A job takes at most five successful actions in its life, and once it has taken
      one it can never be SCHEDULED again. */
  lemma LifecycleIsAcyclic(s: State, acts: seq<Action>)
    ensures Replay(Scheduled, acts).Some? ==> |acts| <= 5
    ensures |acts| > 0 && Replay(s, acts).Some? ==> Replay(s, acts).value != Scheduled
  {
    ReplayAdvances(Scheduled, acts);
    ReplayAdvances(s, acts);
  }

  /** Every state is reachable from SCHEDULED, the state `add` starts a job in. */
  lemma EveryStateReachable(t: State)
    ensures exists acts :: Replay(Scheduled, acts) == Some(t)
  {
    match t
    case Scheduled =>
      assert Replay(Scheduled, []) == Some(t);
    case Released =>
      assert Replay(Scheduled, [Release]) == Replay(Released, []);
    case Running =>
      assert Replay(Scheduled, [Release, Run]) == Replay(Released, [Run]) == Replay(Running, []);
    case Suspended =>
      assert Replay(Scheduled, [Release, Suspend]) == Replay(Released, [Suspend]) == Replay(Suspended, []);
    case Completed =>
      assert Replay(Scheduled, [Release, Run, Complete]) == Replay(Released, [Run, Complete])
        == Replay(Running, [Complete]) == Replay(Completed, []);
    case Closed =>
      assert Replay(Scheduled, [Release, Close]) == Replay(Released, [Close]) == Replay(Closed, []);
  }

  /** release then run gives RUNNING; release again from RUNNING is forbidden. */
  lemma ReleaseRunScenario()
    ensures Replay(Scheduled, [Release, Run]) == Some(Running)
    ensures Step(Running, Release) == Fail(ForbiddenMove(Release, Running))
  {
    assert Replay(Scheduled, [Release, Run]) == Replay(Released, [Run]);
  }

  datatype Gate = EditGate | DeleteGate

  function GateName(g: Gate): string
  {
    match g
    case EditGate => "edit"
    case DeleteGate => "delete"
  }

  /** `ensureScheduledLifecycle`: edit and delete are allowed only in SCHEDULED. */
  function EnsureScheduled(s: State, g: Gate): Result<()>
  {
    if s == Scheduled then Ok(()) else Fail(Forbidden("Cannot " + GateName(g) + " job unless status is SCHEDULED"))
  }

  /** The gate is open in the initial state and closed for good after the first
      successful action. */
  lemma GateClosesAfterFirstAction(acts: seq<Action>, g: Gate)
    ensures EnsureScheduled(Scheduled, g).Ok?
    ensures |acts| > 0 && Replay(Scheduled, acts).Some? ==> EnsureScheduled(Replay(Scheduled, acts).value, g).Fail?
  {
    LifecycleIsAcyclic(Scheduled, acts);
  }
}
