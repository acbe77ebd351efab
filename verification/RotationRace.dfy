/**
 * The registry swap does not check the recovery claim.  When a worker that has lost
 * its claim swaps the row all the same, rotation is not safe: this run revokes the
 * credential that the registry row names.
 */
module RotationRace {
  import opened Wrappers
  import opened RotationSaga
  import opened RotationRuns
  import opened RotationSafety

  ghost predicate Reachable(exclusive: bool, s: System) {
    exists states, actions :: IsRun(exclusive, states, actions) && states[|actions|] == s
  }

  lemma RunGrows(exclusive: bool, states: seq<System>, actions: seq<Action>, a: Action)
    requires IsRun(exclusive, states, actions)
    ensures IsRun(exclusive, states + [Apply(states[|actions|], exclusive, a)], actions + [a])
  {
    var more, acts := states + [Apply(states[|actions|], exclusive, a)], actions + [a];
    assert more[0] == states[0];
    forall i | 0 <= i < |acts| ensures more[i + 1] == Apply(more[i], exclusive, acts[i]) {
      if i < |actions| {
        assert acts[i] == actions[i] && more[i] == states[i] && more[i + 1] == states[i + 1];
      }
    }
  }

  lemma ReachableStep(exclusive: bool, s: System, a: Action)
    requires Reachable(exclusive, s)
    ensures Reachable(exclusive, Apply(s, exclusive, a))
  {
    var states, actions :| IsRun(exclusive, states, actions) && states[|actions|] == s;
    RunGrows(exclusive, states, actions, a);
    var more, acts := states + [Apply(s, exclusive, a)], actions + [a];
    assert more[|acts|] == Apply(s, exclusive, a);
  }

  /** Workers may interrupt each other anywhere. */
  const Free := false

  const Second := Credential(11, 101, 7)

  /** The Agent with its first credential. */
  function Registered(): System {
    System(World(Row(1, 10, Managed(100), Some(7)), map[], {10}, map[100 := Active], {}, 0, {10}, {100}, {10}, {100}, {}),
           map[], None)
  }

  function RotationJob(phase: Phase, owner: Option<nat>, until: int, revision: nat): Job {
    Job(phase, owner, until, revision, Some(Second), Some(10), Managed(100), 1, Some(7))
  }

  /** The Agent with a second credential and job 0 in the given state; what validations were granted plays no part. */
  function Rotating(job: Job, remote: Status, sent: set<Request>, now: int, grants: set<Grant>): World {
    World(Row(1, 10, Managed(100), Some(7)), map[0 := job], {10, 11}, map[100 := Active, 101 := remote], sent, now,
          {10, 11}, {100, 101}, {10}, {100}, grants)
  }

  function Requesting(grants: set<Grant>): System {
    System(Rotating(RotationJob(Requested, None, 0, 0), Waiting, {}, 0, grants), map[], None)
  }

  /** Worker 1 has activated the new credential. */
  function ActivationReplied(grants: set<Grant>): System {
    var job := RotationJob(Requested, Some(1), 30, 1);
    System(Rotating(job, Active, {Activate(101)}, 0, grants), map[1 := Task(0, job, AwaitActivate)], None)
  }

  /** Worker 1 has read the row and is about to swap it. */
  function AboutToSwap(grants: set<Grant>): System {
    var job := RotationJob(Activated, Some(1), 30, 3);
    System(Rotating(job, Active, {Activate(101)}, 0, grants), map[1 := Task(0, job, SwapRow)], Some(1))
  }

  /** The job is verified. */
  function Validated(grants: set<Grant>): System {
    System(Rotating(RotationJob(Verified, None, 0, 0), Waiting, {}, 0, grants), map[], None)
  }

  lemma Publishes(exclusive: bool)
    ensures Apply(Apply(Registered(), exclusive, Outside(StartRotation(0))), exclusive, Outside(Publish(0, Second, 0))) == Validated({})
  {
    var s := Apply(Registered(), exclusive, Outside(StartRotation(0)));
    assert s.world.jobs == map[0 := Captured(Registered().world.row)];
  }

  lemma Consumes(exclusive: bool, grants: set<Grant>)
    ensures Apply(Validated(grants), exclusive, Outside(Consume(0))) == Requesting(grants)
  {
  }

  lemma ReachRegistered(exclusive: bool)
    ensures Reachable(exclusive, Registered())
  {
    var states, actions: seq<Action> := [Registered()], [];
    assert IsRun(exclusive, states, actions) && states[|actions|] == Registered();
  }

  lemma ReachValidated(exclusive: bool)
    ensures Reachable(exclusive, Validated({}))
  {
    var s0 := Registered();
    ReachRegistered(exclusive);
    ReachableStep(exclusive, s0, Outside(StartRotation(0)));
    ReachableStep(exclusive, Apply(s0, exclusive, Outside(StartRotation(0))), Outside(Publish(0, Second, 0)));
    Publishes(exclusive);
  }

  lemma ReachActivated(exclusive: bool, grants: set<Grant>)
    requires Reachable(exclusive, Validated(grants))
    ensures Reachable(exclusive, ActivationReplied(grants))
  {
    ReachableStep(exclusive, Validated(grants), Outside(Consume(0)));
    Consumes(exclusive, grants);
    ReachableStep(exclusive, Requesting(grants), Claim(1, 0, 1, 30));
    FirstClaims(exclusive, grants);
    ReachableStep(exclusive, JustClaimed(grants), ByFirst);
    FirstSends(exclusive, grants);
    ReachableStep(exclusive, JustSent(grants), Outside(AgentActs(Activate(101))));
    AgentActivates(exclusive, grants);
  }

  function JustClaimed(grants: set<Grant>): System {
    var job := RotationJob(Requested, Some(1), 30, 1);
    System(Rotating(job, Waiting, {}, 0, grants), map[1 := Task(0, job, Start)], Some(1))
  }

  function JustSent(grants: set<Grant>): System {
    var job := RotationJob(Requested, Some(1), 30, 1);
    System(Rotating(job, Waiting, {Activate(101)}, 0, grants), map[1 := Task(0, job, AwaitActivate)], None)
  }

  lemma FirstClaims(exclusive: bool, grants: set<Grant>)
    ensures Apply(Requesting(grants), exclusive, Claim(1, 0, 1, 30)) == JustClaimed(grants)
  {
  }

  lemma FirstSends(exclusive: bool, grants: set<Grant>)
    ensures Apply(JustClaimed(grants), exclusive, ByFirst) == JustSent(grants)
  {
  }

  lemma AgentActivates(exclusive: bool, grants: set<Grant>)
    ensures Apply(JustSent(grants), exclusive, Outside(AgentActs(Activate(101)))) == ActivationReplied(grants)
  {
  }

  /** Worker 1 alone, after the activation, with its copy of the job. */
  function Working(job: Job, pc: Pc, grants: set<Grant>): System {
    System(Rotating(job, Active, {Activate(101)}, 0, grants), map[1 := Task(0, job, pc)], Some(1))
  }

  const ByFirst := Perform(1, Ok, 30)

  lemma FirstHears(exclusive: bool, grants: set<Grant>)
    ensures Apply(ActivationReplied(grants), exclusive, ByFirst) == Working(RotationJob(Requested, Some(1), 30, 1), ActivateReplied, grants)
  {
  }

  lemma FirstRenews(exclusive: bool, grants: set<Grant>)
    ensures Apply(Working(RotationJob(Requested, Some(1), 30, 1), ActivateReplied, grants), exclusive, ByFirst) ==
            Working(RotationJob(Requested, Some(1), 30, 2), MarkActivated, grants)
  {
  }

  lemma FirstRecords(exclusive: bool, grants: set<Grant>)
    ensures Apply(Working(RotationJob(Requested, Some(1), 30, 2), MarkActivated, grants), exclusive, ByFirst) ==
            Working(RotationJob(Activated, Some(1), 30, 3), ReadRow, grants)
  {
  }

  lemma FirstReads(exclusive: bool, grants: set<Grant>)
    ensures Apply(Working(RotationJob(Activated, Some(1), 30, 3), ReadRow, grants), exclusive, ByFirst) == AboutToSwap(grants)
  {
  }

  lemma ReachAboutToSwap(exclusive: bool, grants: set<Grant>)
    requires Reachable(exclusive, Validated(grants))
    ensures Reachable(exclusive, AboutToSwap(grants))
  {
    ReachActivated(exclusive, grants);
    FirstHears(exclusive, grants);
    ReachableStep(exclusive, ActivationReplied(grants), ByFirst);
    FirstRenews(exclusive, grants);
    ReachableStep(exclusive, Working(RotationJob(Requested, Some(1), 30, 1), ActivateReplied, grants), ByFirst);
    FirstRecords(exclusive, grants);
    ReachableStep(exclusive, Working(RotationJob(Requested, Some(1), 30, 2), MarkActivated, grants), ByFirst);
    FirstReads(exclusive, grants);
    ReachableStep(exclusive, Working(RotationJob(Activated, Some(1), 30, 3), ReadRow, grants), ByFirst);
  }

  /** Worker 1 before its swap; worker 2, with the job, at `pc`. */
  function Racing(pc: Pc): System {
    var mine, yours := RotationJob(Activated, Some(1), 30, 3), RotationJob(Activated, Some(2), 60, 4);
    System(Rotating(yours, Active, {Activate(101)}, 30, {}), map[1 := Task(0, mine, SwapRow), 2 := Task(0, yours, pc)], Some(2))
  }

  lemma SecondClaim()
    ensures Apply(Apply(AboutToSwap({}), Free, Outside(Tick(30))), Free, Claim(2, 0, 2, 30)) == Racing(Start)
  {
    var s := Apply(AboutToSwap({}), Free, Outside(Tick(30)));
    var mine, yours := RotationJob(Activated, Some(1), 30, 3), RotationJob(Activated, Some(2), 60, 4);
    assert s == System(Rotating(mine, Active, {Activate(101)}, 30, {}), map[1 := Task(0, mine, SwapRow)], Some(1));
    assert Claimable(s.world, 0) && Claimed(mine, 2, 60) == yours;
    assert Apply(s, Free, Claim(2, 0, 2, 30)) == DoClaim(s, 2, 0, 2, 30);
  }

  lemma SecondReads()
    ensures Apply(Apply(Racing(Start), Free, Perform(2, Ok, 30)), Free, Perform(2, Ok, 30)) == Racing(SwapRow)
  {
    assert Apply(Racing(Start), Free, Perform(2, Ok, 30)) == Racing(ReadRow);
  }

  lemma ReachRace()
    ensures Reachable(Free, Racing(SwapRow))
  {
    ReachValidated(Free);
    ReachAboutToSwap(Free, {});
    ReachableStep(Free, AboutToSwap({}), Outside(Tick(30)));
    ReachableStep(Free, Apply(AboutToSwap({}), Free, Outside(Tick(30))), Claim(2, 0, 2, 30));
    SecondClaim();
    ReachableStep(Free, Racing(Start), Perform(2, Ok, 30));
    ReachableStep(Free, Apply(Racing(Start), Free, Perform(2, Ok, 30)), Perform(2, Ok, 30));
    SecondReads();
  }

  /** After worker 1's swap, worker 2 at `pc`. */
  function SwappedByFirst(pc: Pc, loop: nat): System {
    var s := Racing(pc);
    System(Swapped(s.world, Second), s.tasks[1 := s.tasks[1].(pc := RenewAfterSwap)], Some(loop))
  }

  lemma FirstSwaps()
    ensures Apply(Racing(SwapRow), Free, Perform(1, Ok, 30)) == SwappedByFirst(SwapRow, 1)
  {
  }

  /** That swap is made by a worker that no longer holds the job. */
  lemma FirstIsStale()
    ensures !HeldSwap(Racing(SwapRow), Free, Perform(1, Ok, 30))
  {
    var s := Racing(SwapRow);
    assert Swaps(s, 1, Ok) && !Holds(s.world, s.tasks[1]);
  }

  lemma SecondFails()
    ensures Apply(SwappedByFirst(SwapRow, 1), Free, Perform(2, Ok, 30)) == SwappedByFirst(MarkChanged, 2)
  {
    var s := SwappedByFirst(SwapRow, 1);
    assert !CanSwap(s.tasks[2].cur, s.world.row);
    assert Apply(s, Free, Perform(2, Ok, 30)) == Goto(s, 2, s.tasks[2].cur, MarkChanged);
  }

  lemma SecondRevokes()
    ensures var v := Apply(SwappedByFirst(MarkChanged, 2), Free, Perform(2, Ok, 30)).world;
            v.row.kind == Managed(101) && Revoke(101) in v.sent && v.grants == {}
  {
    var s := SwappedByFirst(MarkChanged, 2);
    assert Fenced(s, 2);
  }

  lemma ReachRevocation()
    ensures Reachable(Free, Apply(SwappedByFirst(MarkChanged, 2), Free, Perform(2, Ok, 30)))
  {
    ReachRace();
    ReachableStep(Free, Racing(SwapRow), Perform(1, Ok, 30));
    FirstSwaps();
    ReachableStep(Free, SwappedByFirst(SwapRow, 1), Perform(2, Ok, 30));
    SecondFails();
    ReachableStep(Free, SwappedByFirst(MarkChanged, 2), Perform(2, Ok, 30));
  }

  lemma RevocationArrives(s: System, rid: nat)
    requires s.world.row.kind == Managed(rid) && Revoke(rid) in s.world.sent
    ensures var v := Apply(s, Free, Outside(AgentActs(Revoke(rid)))).world;
            v.row.kind == Managed(rid) && StatusOf(v, rid) == Revoked && v.grants == s.world.grants
  {
  }

  /**
   * Worker 1, whose claim is gone, swaps the row; worker 2, whose swap then fails,
   * holds the job and revokes the credential the row now names.  It is the only swap
   * of the run and no validation ever claimed a job in it: the missing check of the
   * claim is the cause.
   */
  lemma InterruptedSwapIsUnsafe()
    ensures !HeldSwap(Racing(SwapRow), Free, Perform(1, Ok, 30))
    ensures exists s :: Reachable(Free, s) && s.world.row.kind.Managed? && StatusOf(s.world, s.world.row.kind.rid) == Revoked && s.world.grants == {}
  {
    FirstIsStale();
    ReachRevocation();
    SecondRevokes();
    var s := Apply(SwappedByFirst(MarkChanged, 2), Free, Perform(2, Ok, 30));
    ReachableStep(Free, s, Outside(AgentActs(Revoke(101))));
    RevocationArrives(s, 101);
  }
}
