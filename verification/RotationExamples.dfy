/**
 * Runs of a rotation in which what one might expect does not happen: an Agent
 * without an instance identity, and a claim from before a rewound revision.
 */
module RotationExamples {
  import opened Wrappers
  import opened RotationSaga
  import opened RotationWorld
  import opened RotationRuns
  import opened RotationSafety
  import opened RotationLoop
  import opened RotationGrants
  import opened RotationTheorems
  import opened RotationProgress
  import opened RotationRace

  // ---------------------------------------------------------------------------
  // What a worker alone reaches is reached.

  lemma AnswerReached(exclusive: bool, s: System, w: nat)
    requires Reachable(exclusive, s) && w in s.tasks
    ensures Reachable(exclusive, Answered(s, w)) && Answered(s, w).tasks == s.tasks && Answered(s, w).loop == s.loop
  {
    if Asked(s.tasks[w]).Some? {
      var e := AgentActs(Asked(s.tasks[w]).value);
      ReachableStep(exclusive, s, Outside(e));
      assert Apply(s, exclusive, Outside(e)) == Answered(s, w);
    }
  }

  lemma TurnReached(exclusive: bool, s: System, w: nat, lease: nat)
    requires Reachable(exclusive, s) && w in s.tasks && MayRun(s, w)
    ensures Reachable(exclusive, Turn(s, w, lease)) && (w in Turn(s, w, lease).tasks ==> MayRun(Turn(s, w, lease), w))
  {
    AnswerReached(exclusive, s, w);
    var u := Answered(s, w);
    ReachableStep(exclusive, u, Perform(w, Ok, lease));
    assert Apply(u, exclusive, Perform(w, Ok, lease)) == Turn(s, w, lease);
    PerformLoop(u, w, Ok, lease);
  }

  lemma {:induction false} AloneReached(exclusive: bool, s: System, w: nat, lease: nat)
    requires Reachable(exclusive, s) && w in s.tasks && MayRun(s, w)
    ensures Reachable(exclusive, Alone(s, w, lease))
    decreases Rank(s.tasks[w].pc)
  {
    TurnReached(exclusive, s, w, lease);
    if w in Turn(s, w, lease).tasks {
      RankDrops(s, w, lease);
      AloneReached(exclusive, Turn(s, w, lease), w, lease);
    }
  }

  lemma RecoveryReached(exclusive: bool, s: System, w: nat, j: nat, owner: nat, lease: nat)
    requires Reachable(exclusive, s) && s.loop.None? && w !in s.tasks && Claimable(s.world, j)
    ensures Reachable(exclusive, Recovered(s, w, j, owner, lease))
  {
    ReachableStep(exclusive, s, Claim(w, j, owner, lease));
    assert Apply(s, exclusive, Claim(w, j, owner, lease)) == DoClaim(s, w, j, owner, lease);
    AloneReached(exclusive, DoClaim(s, w, j, owner, lease), w, lease);
  }

  /** Workers share an event loop. */
  const Shared := true

  // ---------------------------------------------------------------------------
  // An Agent registered without an instance identity.

  const OldRow := Row(1, 10, Legacy, None)

  /** The Agent before its rotation. */
  function Imported(): System {
    System(World(OldRow, map[], {10}, map[], {}, 0, {10}, {}, {10}, {}, {}), map[], None)
  }

  /** The Agent with a second credential and job 0 in the given phase. */
  function Rotated(phase: Phase): System {
    var job := Job(phase, None, 0, 0, Some(Second), Some(10), Legacy, 1, None);
    System(World(OldRow, map[0 := job], {10, 11}, map[101 := Waiting], {}, 0, {10, 11}, {101}, {10}, {}, {}), map[], None)
  }

  lemma PublishesToImported()
    ensures Apply(Apply(Imported(), Shared, Outside(StartRotation(0))), Shared, Outside(Publish(0, Second, 0))) == Rotated(Verified)
  {
    var s := Apply(Imported(), Shared, Outside(StartRotation(0)));
    assert s.world.jobs == map[0 := Captured(OldRow)];
  }

  lemma ConsumesImported()
    ensures Apply(Rotated(Verified), Shared, Outside(Consume(0))) == Rotated(Requested)
  {
  }

  lemma ReachRotated()
    ensures Reachable(Shared, Rotated(Requested))
  {
    var s0 := Imported();
    var states, actions: seq<Action> := [s0], [];
    assert IsRun(Shared, states, actions) && states[|actions|] == s0;
    ReachableStep(Shared, s0, Outside(StartRotation(0)));
    ReachableStep(Shared, Apply(s0, Shared, Outside(StartRotation(0))), Outside(Publish(0, Second, 0)));
    PublishesToImported();
    ReachableStep(Shared, Rotated(Verified), Outside(Consume(0)));
    ConsumesImported();
  }

  lemma RotatedKept()
    ensures Kept(Rotated(Requested))
  {
    var s0 := Imported();
    InitiallyKept(s0);
    EventKept(s0, StartRotation(0));
    EventKept(Apply(s0, Shared, Outside(StartRotation(0))), Publish(0, Second, 0));
    PublishesToImported();
    EventKept(Rotated(Verified), Consume(0));
    ConsumesImported();
  }

  /**
   * The rotation of an Agent without an instance identity activates the new
   * credential and then, although nobody has changed the row, takes it back.
   */
  lemma ImportedAgentIsCompensated()
    ensures exists s :: Reachable(Shared, s) && s.world.row == OldRow && 0 in s.world.jobs && s.world.jobs[0].phase == Failed
              && Activate(Second.rid) in s.world.sent && StatusOf(s.world, Second.rid) == Revoked && Second.ref !in s.world.store
  {
    ReachRotated();
    var s := Rotated(Requested);
    RotatedKept();
    RecoveryReached(Shared, s, 1, 0, 1, 30);
    RecoveryEnds(s, 1, 0, 1, 30);
    ActivationSent(s, 1, 0, 1, 30);
  }

  /** A requested job that starts is first activated. */
  lemma ActivationSent(s: System, w: nat, j: nat, owner: nat, lease: nat)
    requires Kept(s) && w !in s.tasks && Claimable(s.world, j) && lease > 0
    requires s.world.jobs[j].phase == Requested && Starts(s.world, s.world.jobs[j])
    ensures Activate(s.world.jobs[j].incoming.value.rid) in Recovered(s, w, j, owner, lease).world.sent
  {
    var c := DoClaim(s, w, j, owner, lease);
    var t := Turn(c, w, lease);
    assert t.tasks[w].pc == AwaitActivate && Activate(s.world.jobs[j].incoming.value.rid) in t.world.sent;
    SentStays(t, w, lease, Activate(s.world.jobs[j].incoming.value.rid));
  }

  lemma {:induction false} SentStays(s: System, w: nat, lease: nat, r: Request)
    requires r in s.world.sent
    ensures r in Alone(s, w, lease).world.sent
    decreases if w in s.tasks then 1 + Rank(s.tasks[w].pc) else 0
  {
    if w in s.tasks {
      TurnSends(s, w, lease, r);
      if w in Turn(s, w, lease).tasks {
        RankDrops(s, w, lease);
        SentStays(Turn(s, w, lease), w, lease, r);
      }
    }
  }

  lemma TurnSends(s: System, w: nat, lease: nat, r: Request)
    requires w in s.tasks && r in s.world.sent
    ensures r in Turn(s, w, lease).world.sent
  {
  }

  // ---------------------------------------------------------------------------
  // A claim from before a rewound revision.

  /** The claim of the validation at each of its revisions. */
  const Granted := {Grant(0, 1, 1), Grant(0, 1, 2), Grant(0, 1, 3), Grant(0, 1, 4)}

  /** The validation of job 0 has a claim, renewed until the given revision. */
  function Validating(revision: nat): System {
    var s := Registered();
    var job := Captured(s.world.row).(owner := Some(1), leaseUntil := 30, revision := revision);
    s.(world := s.world.(jobs := map[0 := job], grants := set g | g in Granted && g.revision <= revision))
  }

  lemma BeginsValidation()
    ensures Apply(Apply(Registered(), Shared, Outside(StartRotation(0))), Shared, Outside(Validate(0, 1, 30))) == Validating(1)
  {
    var s := Apply(Registered(), Shared, Outside(StartRotation(0)));
    assert s.world.jobs == map[0 := Captured(Registered().world.row)];
    var u := Apply(s, Shared, Outside(Validate(0, 1, 30)));
    assert u.world.grants == {Grant(0, 1, 1)} == Validating(1).world.grants;
  }

  /** While it awaits the Agent. */
  lemma RenewsValidation(revision: nat)
    requires 1 <= revision < 4
    ensures Apply(Validating(revision), Shared, Present(Grant(0, 1, revision), Renewal(30))) == Validating(revision + 1)
  {
    var s := Validating(revision);
    assert Accepts(s.world, Grant(0, 1, revision));
    assert s.world.grants + {Grant(0, 1, revision + 1)} == Validating(revision + 1).world.grants;
  }

  /** The dispatch that began before it all ends with the row it read. */
  const EndOfDispatch := Publish(0, Second, 0)

  lemma EndsValidation()
    ensures Apply(Validating(4), Shared, Outside(EndOfDispatch)) == Validated(Granted)
    ensures Rewinds(Validating(4).world, EndOfDispatch)
  {
    assert Validating(4).world.grants == Granted;
  }

  lemma ReachValidating()
    ensures Reachable(Shared, Validating(4))
  {
    ReachRegistered(Shared);
    ReachableStep(Shared, Registered(), Outside(StartRotation(0)));
    ReachableStep(Shared, Apply(Registered(), Shared, Outside(StartRotation(0))), Outside(Validate(0, 1, 30)));
    BeginsValidation();
    for revision := 1 to 4
      invariant Reachable(Shared, Validating(revision))
    {
      ReachableStep(Shared, Validating(revision), Present(Grant(0, 1, revision), Renewal(30)));
      RenewsValidation(revision);
    }
  }

  function JustSwapped(): System {
    var job := RotationJob(Activated, Some(1), 30, 3);
    System(Swapped(Rotating(job, Active, {Activate(101)}, 0, Granted), Second), map[1 := Task(0, job, RenewAfterSwap)], Some(1))
  }

  /** Worker 1 has swapped the row and awaits the revocation of the old credential. */
  function Retiring(): System {
    var job := RotationJob(Activated, Some(1), 30, 4);
    var v := Swapped(Rotating(job, Active, {Activate(101), Revoke(100)}, 0, Granted), Second);
    System(v, map[1 := Task(0, job, AwaitRevokeOld)], None)
  }

  lemma SwapsAlone()
    ensures Apply(AboutToSwap(Granted), Shared, ByFirst) == JustSwapped()
  {
  }

  lemma RenewsAndSends()
    ensures Apply(JustSwapped(), Shared, ByFirst) == Retiring()
  {
    var s := JustSwapped();
    RenewTurn(s, 1, 30, AwaitRevokeOld);
    assert Retiring().world.sent == s.world.sent + {Revoke(100)};
  }

  lemma ReachRetiring()
    ensures Reachable(Shared, Retiring())
  {
    ReachValidating();
    ReachableStep(Shared, Validating(4), Outside(EndOfDispatch));
    EndsValidation();
    ReachAboutToSwap(Shared, Granted);
    SwapsAlone();
    ReachableStep(Shared, AboutToSwap(Granted), ByFirst);
    RenewsAndSends();
    ReachableStep(Shared, JustSwapped(), ByFirst);
  }

  const Late := Grant(0, 1, 4)

  lemma FailsAndCleans()
    ensures Harms(Retiring().world, Late, Failure)
    ensures var t := Apply(Apply(Retiring(), Shared, Present(Late, Failure)), Shared, Outside(CleanTerminal(0, true)));
            t.world.row.ref == Second.ref && Second.ref !in t.world.store
  {
    assert Accepts(Retiring().world, Late);
  }

  /**
   * With one event loop but a rewound revision: the validation's claim, granted
   * before the dispatch rewound its job, comes to be that of the recovery worker too.
   * It fails the activated job, whose cleanup deletes the credential that the row
   * names.
   */
  lemma StrayClaimIsUnsafe()
    ensures Reachable(Shared, Validating(4)) && Rewinds(Validating(4).world, EndOfDispatch)
    ensures Reachable(Shared, Retiring()) && Late in Validating(4).world.grants && Harms(Retiring().world, Late, Failure)
    ensures exists s :: Reachable(Shared, s) && s.world.row.ref !in s.world.store
  {
    ReachValidating();
    EndsValidation();
    ReachRetiring();
    FailsAndCleans();
    ReachableStep(Shared, Retiring(), Present(Late, Failure));
    ReachableStep(Shared, Apply(Retiring(), Shared, Present(Late, Failure)), Outside(CleanTerminal(0, true)));
  }
}
