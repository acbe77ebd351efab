/**
 * Two registrations that go wrong: one is committed after its credential was
 * revoked, and in one a worker that has lost its job revokes a registered
 * credential.
 */
module EnrollmentExamples {
  import opened Wrappers
  import opened EnrollmentSaga
  import opened EnrollmentSafety
  import opened EnrollmentRows
  import opened EnrollmentTheorems

  ghost predicate Reachable(exclusive: bool, s: System) {
    exists states, actions :: IsRun(exclusive, states, actions) && states[|actions|] == s
  }

  lemma RunGrows(exclusive: bool, states: seq<System>, actions: seq<Action>, a: Action)
    requires IsRun(exclusive, states, actions)
    ensures IsRun(exclusive, states + [Apply(states[|actions|], exclusive, a)], actions + [a])
  {
    var more, acts := states + [Apply(states[|actions|], exclusive, a)], actions + [a];
    assert more[0] == states[0];
    forall i | 0 <= i < |acts| ensures more[i + 1] == Apply(more[i], exclusive, acts[i]) {
      if i < |actions| {
        assert acts[i] == actions[i] && more[i] == states[i] && more[i + 1] == states[i + 1];
      }
    }
  }

  lemma Reach(exclusive: bool, s: System, a: Action, t: System)
    requires Reachable(exclusive, s) && t == Apply(s, exclusive, a)
    ensures Reachable(exclusive, t)
  {
    var states, actions :| IsRun(exclusive, states, actions) && states[|actions|] == s;
    RunGrows(exclusive, states, actions, a);
    var more, acts := states + [t], actions + [a];
    assert more[|acts|] == t;
  }

  // ---------------------------------------------------------------------------
  // The way to the commit.

  function Nothing(): System { System(World(map[], map[], {}, map[], {}, 0, {}, {}), map[], None) }

  /** Enrollment 0, with credential 100 in file 10. */
  function NewJob(phase: Phase, owner: Option<nat>, until: int, revision: nat): Job {
    Job(phase, owner, until, revision, Some(10), Some(100), false, Some(8), 5, 1)
  }

  /** Another Agent at the same endpoint. */
  const Other := Record(90, Some(900), Some(7), 5, 1, 0)

  /** The world with enrollment 0 and, if `other`, what the other Agent has left. */
  function With(rows: map<nat, Record>, other: bool, job: Job, status: Status, sent: set<Request>, now: int): World {
    if other then
      World(rows, map[0 := job], {10, 90}, map[100 := status, 900 := Active], sent, now, {10, 90}, {100, 900})
    else World(rows, map[0 := job], {10}, map[100 := status], sent, now, {10}, {100})
  }

  function Rows(other: bool): map<nat, Record> { if other then map[9 := Other] else map[] }

  function Asked(other: bool): System {
    System(With(Rows(other), other, NewJob(Requested, None, 0, 0), Waiting, {}, 0), map[], None)
  }

  /** Worker 1 at `pc`, with its copy of the job. */
  function First(other: bool, job: Job, status: Status, sent: set<Request>, pc: Pc): System {
    System(With(Rows(other), other, job, status, sent, 0), map[1 := Task(0, job, pc)], if Awaits(pc) then None else Some(1))
  }

  const ByFirst := Perform(1, Ok, 30)
  const Added := RequestActivation(0, 10, Some(100), false, Some(8), 5, 1)
  const Rival := Register(9, 90, Some(900), Some(7), 5, 1)

  lemma ReachAsked(exclusive: bool, other: bool)
    ensures Reachable(exclusive, Asked(other))
  {
    var states, actions: seq<Action> := [Nothing()], [];
    assert IsRun(exclusive, states, actions) && states[|actions|] == Nothing();
    Reach(exclusive, Nothing(), Outside(Added), Asked(false));
    if other {
      var v := After(Asked(false).world, Rival);
      assert v.store == {10, 90} && v.used == {10, 90} && v.usedRids == {100, 900};
      Reach(exclusive, Asked(false), Outside(Rival), Asked(true));
    }
  }

  lemma Claims(exclusive: bool, other: bool)
    ensures Apply(Asked(other), exclusive, Claim(1, 0, 1, 30)) == First(other, NewJob(Requested, Some(1), 30, 1), Waiting, {}, Start)
  {
  }

  lemma Begins(exclusive: bool, other: bool)
    ensures var job := NewJob(Requested, Some(1), 30, 1);
            Apply(First(other, job, Waiting, {}, Start), exclusive, ByFirst) == First(other, job, Waiting, {Activate(100)}, AwaitActivate)
  {
  }

  lemma Hears(exclusive: bool, other: bool)
    ensures var job := NewJob(Requested, Some(1), 30, 1);
            var s := First(other, job, Waiting, {Activate(100)}, AwaitActivate);
            var t := First(other, job, Active, {Activate(100)}, AwaitActivate);
            && Apply(s, exclusive, Outside(AgentActs(Activate(100)))) == t
            && Apply(t, exclusive, ByFirst) == First(other, job, Active, {Activate(100)}, ActivateReplied)
  {
  }

  lemma Renews(exclusive: bool, other: bool)
    ensures Apply(First(other, NewJob(Requested, Some(1), 30, 1), Active, {Activate(100)}, ActivateReplied), exclusive, ByFirst) ==
            First(other, NewJob(Requested, Some(1), 30, 2), Active, {Activate(100)}, MarkActivated)
  {
  }

  lemma Marks(exclusive: bool, other: bool)
    ensures Apply(First(other, NewJob(Requested, Some(1), 30, 2), Active, {Activate(100)}, MarkActivated), exclusive, ByFirst) ==
            First(other, NewJob(Activated, Some(1), 30, 3), Active, {Activate(100)}, RenewForCommit)
  {
  }

  function AtCommit(other: bool): System {
    First(other, NewJob(Activated, Some(1), 30, 4), Active, {Activate(100)}, Commit)
  }

  lemma Readies(exclusive: bool, other: bool)
    ensures Apply(First(other, NewJob(Activated, Some(1), 30, 3), Active, {Activate(100)}, RenewForCommit), exclusive, ByFirst) == AtCommit(other)
  {
  }

  lemma ReachCommit(exclusive: bool, other: bool)
    ensures Reachable(exclusive, AtCommit(other))
  {
    var one, two := NewJob(Requested, Some(1), 30, 1), NewJob(Requested, Some(1), 30, 2);
    var sent := {Activate(100)};
    ReachAsked(exclusive, other);
    Claims(exclusive, other);
    Begins(exclusive, other);
    Reach(exclusive, Asked(other), Claim(1, 0, 1, 30), First(other, one, Waiting, {}, Start));
    Reach(exclusive, First(other, one, Waiting, {}, Start), ByFirst, First(other, one, Waiting, sent, AwaitActivate));
    Hears(exclusive, other);
    Reach(exclusive, First(other, one, Waiting, sent, AwaitActivate), Outside(AgentActs(Activate(100))), First(other, one, Active, sent, AwaitActivate));
    Reach(exclusive, First(other, one, Active, sent, AwaitActivate), ByFirst, First(other, one, Active, sent, ActivateReplied));
    Renews(exclusive, other);
    Reach(exclusive, First(other, one, Active, sent, ActivateReplied), ByFirst, First(other, two, Active, sent, MarkActivated));
    Marks(exclusive, other);
    Reach(exclusive, First(other, two, Active, sent, MarkActivated), ByFirst, First(other, NewJob(Activated, Some(1), 30, 3), Active, sent, RenewForCommit));
    Readies(exclusive, other);
    Reach(exclusive, First(other, NewJob(Activated, Some(1), 30, 3), Active, sent, RenewForCommit), ByFirst, AtCommit(other));
  }

  // ---------------------------------------------------------------------------
  // A commit after the compensation has begun.

  /** Worker 1 has asked the Agent to revoke the credential, since the other Agent is in the way. */
  function Undoing(pc: Pc): System {
    var sent := {Activate(100)} + if pc == AwaitRevoke then {Revoke(100)} else {};
    First(true, NewJob(Activated, Some(1), 30, 4), Active, sent, pc)
  }

  lemma Conflicts()
    ensures Apply(AtCommit(true), true, ByFirst) == Undoing(ReadRow)
    ensures Apply(Undoing(ReadRow), true, ByFirst) == Undoing(Compensate)
  {
    assert 9 in AtCommit(true).world.rows && AtCommit(true).world.rows[9].endpoint == 5;
  }

  lemma Undoes()
    ensures Apply(Undoing(Compensate), true, ByFirst) == Undoing(AwaitRevoke)
  {
  }

  const Both := {Activate(100), Revoke(100), Revoke(900)}

  /** The process is gone, and so is the other Agent; the job is as it was left. */
  function Abandoned(now: int): System {
    var v := With(map[], true, NewJob(Activated, Some(1), 30, 4), Active, Both, now);
    System(v.(store := {10}), map[], None)
  }

  lemma Abandons()
    ensures Apply(Apply(Undoing(AwaitRevoke), true, Stop(1)), true, Outside(Remove(9))) == Abandoned(0)
    ensures Apply(Abandoned(0), true, Outside(Tick(30))) == Abandoned(30)
  {
    var u := Apply(Apply(Undoing(AwaitRevoke), true, Stop(1)), true, Outside(Remove(9)));
    assert u.world.rows == map[] && u.world.sent == Both && u.world.store == {10};
  }

  /** Worker 2 has the job at `pc`. */
  function Second(revision: nat, pc: Pc): System {
    var job := NewJob(Activated, Some(2), 60, revision);
    System(Abandoned(30).world.(jobs := map[0 := job]), map[2 := Task(0, job, pc)], Some(2))
  }

  lemma Resumes()
    ensures Apply(Abandoned(30), true, Claim(2, 0, 2, 30)) == Second(5, Start)
    ensures Apply(Second(5, Start), true, Perform(2, Ok, 30)) == Second(5, RenewForCommit)
  {
  }

  lemma ReadiesAgain()
    ensures Apply(Second(5, RenewForCommit), true, Perform(2, Ok, 30)) == Second(6, Commit)
  {
  }

  lemma ReachSecondCommit()
    ensures Reachable(true, Second(6, Commit))
  {
    ReachAbandoned();
    Resumes();
    Reach(true, Abandoned(30), Claim(2, 0, 2, 30), Second(5, Start));
    Reach(true, Second(5, Start), Perform(2, Ok, 30), Second(5, RenewForCommit));
    ReadiesAgain();
    Reach(true, Second(5, RenewForCommit), Perform(2, Ok, 30), Second(6, Commit));
  }

  lemma CommitsRevoked()
    ensures var t := Apply(Apply(Second(6, Commit), true, Perform(2, Ok, 30)), true, Outside(AgentActs(Revoke(100))));
            0 in t.world.rows && t.world.rows[0].rid == Some(100) && StatusOf(t.world, 100) == Revoked
    ensures Commits(Second(6, Commit), 2, Ok) && !Intact(Second(6, Commit).world, Second(6, Commit).world.jobs[0])
  {
    var s := Second(6, Commit);
    assert !Clash(s.world, 0, RecordOf(s.tasks[2].cur, 30));
    assert Commits(s, 2, Ok);
  }

  lemma ReachAbandoned()
    ensures Reachable(true, Abandoned(30))
  {
    ReachCommit(true, true);
    Conflicts();
    Reach(true, AtCommit(true), ByFirst, Undoing(ReadRow));
    Reach(true, Undoing(ReadRow), ByFirst, Undoing(Compensate));
    Undoes();
    Reach(true, Undoing(Compensate), ByFirst, Undoing(AwaitRevoke));
    Abandons();
    var s := Apply(Undoing(AwaitRevoke), true, Stop(1));
    Reach(true, Undoing(AwaitRevoke), Stop(1), s);
    Reach(true, s, Outside(Remove(9)), Abandoned(0));
    Reach(true, Abandoned(0), Outside(Tick(30)), Abandoned(30));
  }

  /**
   * On one event loop: a conflict starts the compensation, the process stops, the
   * Agent in the way is removed, and the next recovery registers the new Agent with
   * the credential that was sent for revocation.
   */
  lemma CompensatedIsRegistered()
    ensures exists s :: Reachable(true, s) && 0 in s.world.rows && s.world.rows[0].rid == Some(100) && StatusOf(s.world, 100) == Revoked
    ensures Reachable(true, Second(6, Commit)) && !CommitsIntact(Second(6, Commit), true, Perform(2, Ok, 30))
  {
    ReachSecondCommit();
    CommitsRevoked();
    var s := Apply(Second(6, Commit), true, Perform(2, Ok, 30));
    var t := Apply(s, true, Outside(AgentActs(Revoke(100))));
    Reach(true, Second(6, Commit), Perform(2, Ok, 30), s);
    Reach(true, s, Outside(AgentActs(Revoke(100))), t);
  }

  // ---------------------------------------------------------------------------
  // A worker that has lost its job.

  /** Worker 1 is interrupted before its commit; worker 2 has the job at `pc`. */
  function Overtaken(revision: nat, pc: Pc): System {
    var mine, yours := NewJob(Activated, Some(1), 30, 4), NewJob(Activated, Some(2), 60, revision);
    System(With(map[], false, yours, Active, {Activate(100)}, 30), map[1 := Task(0, mine, Commit), 2 := Task(0, yours, pc)], Some(2))
  }

  lemma Overtakes()
    ensures Apply(Apply(AtCommit(false), false, Outside(Tick(30))), false, Claim(2, 0, 2, 30)) == Overtaken(5, Start)
  {
  }

  lemma GoesAhead()
    ensures Apply(Overtaken(5, Start), false, Perform(2, Ok, 30)) == Overtaken(5, RenewForCommit)
  {
  }

  lemma ReadiesToo()
    ensures Apply(Overtaken(5, RenewForCommit), false, Perform(2, Ok, 30)) == Overtaken(6, Commit)
  {
  }

  /** Worker 2 has registered the Agent, and an operator has renamed it; worker 1 is at `pc`. */
  function Renamed(details: nat, loop: Option<nat>, pc: Pc): System {
    var mine := NewJob(Activated, Some(1), 30, 4);
    var done := NewJob(Consumed, None, 0, 7).(ref := None);
    System(With(map[0 := Record(10, Some(100), Some(8), 5, details, 30)], false, done, Active, {Activate(100)}, 30),
           map[1 := Task(0, mine, pc)], loop)
  }

  lemma Renames()
    ensures Apply(Renamed(1, None, Commit), false, Outside(Edit(0, 5, 2))) == Renamed(2, None, Commit)
  {
  }

  lemma RegistersIt()
    ensures Apply(Overtaken(6, Commit), false, Perform(2, Ok, 30)) == Renamed(1, None, Commit)
  {
    var s := Overtaken(6, Commit);
    assert !Clash(s.world, 0, RecordOf(s.tasks[2].cur, 30));
    assert Commits(s, 2, Ok);
  }

  lemma Misunderstands()
    ensures Apply(Renamed(2, None, Commit), false, ByFirst) == Renamed(2, Some(1), ReadRow)
    ensures Apply(Renamed(2, Some(1), ReadRow), false, ByFirst) == Renamed(2, Some(1), Compensate)
  {
  }

  lemma RevokesRegistered()
    ensures var t := Apply(Apply(Renamed(2, Some(1), Compensate), false, ByFirst), false, Outside(AgentActs(Revoke(100))));
            0 in t.world.rows && t.world.rows[0].rid == Some(100) && StatusOf(t.world, 100) == Revoked
  {
  }

  lemma ReachRenamed()
    ensures Reachable(false, Renamed(2, Some(1), Compensate))
  {
    ReachCommit(false, false);
    Overtakes();
    GoesAhead();
    ReadiesToo();
    var s := Apply(AtCommit(false), false, Outside(Tick(30)));
    Reach(false, AtCommit(false), Outside(Tick(30)), s);
    Reach(false, s, Claim(2, 0, 2, 30), Overtaken(5, Start));
    Reach(false, Overtaken(5, Start), Perform(2, Ok, 30), Overtaken(5, RenewForCommit));
    Reach(false, Overtaken(5, RenewForCommit), Perform(2, Ok, 30), Overtaken(6, Commit));
    RegistersIt();
    Renames();
    Reach(false, Overtaken(6, Commit), Perform(2, Ok, 30), Renamed(1, None, Commit));
    Reach(false, Renamed(1, None, Commit), Outside(Edit(0, 5, 2)), Renamed(2, None, Commit));
    Misunderstands();
    Reach(false, Renamed(2, None, Commit), ByFirst, Renamed(2, Some(1), ReadRow));
    Reach(false, Renamed(2, Some(1), ReadRow), ByFirst, Renamed(2, Some(1), Compensate));
  }

  /**
   * Interrupted before its commit, a worker finds the Agent registered by another
   * and renamed since, takes the row for a stranger's, and revokes the registered
   * credential without looking at its claim.
   */
  lemma StaleWorkerRevokes()
    ensures exists s :: Reachable(false, s) && 0 in s.world.rows && s.world.rows[0].rid == Some(100) && StatusOf(s.world, 100) == Revoked
    ensures Reachable(false, Renamed(2, Some(1), Compensate)) && !Holds(Renamed(2, Some(1), Compensate).world, Renamed(2, Some(1), Compensate).tasks[1])
  {
    ReachRenamed();
    RevokesRegistered();
    var s := Apply(Renamed(2, Some(1), Compensate), false, ByFirst);
    var t := Apply(s, false, Outside(AgentActs(Revoke(100))));
    Reach(false, Renamed(2, Some(1), Compensate), ByFirst, s);
    Reach(false, s, Outside(AgentActs(Revoke(100))), t);
  }
}
