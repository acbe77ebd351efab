/**
 * Submissions of one CLI enrollment
 * (backend/ic_env_guard/enrollment/orchestrator.py, `begin_cli_submission`,
 * `_complete_cli_submission` and `_publish_managed_helper`) as a transition
 * system: any number of clients connect, reconnect and submit helper tokens with
 * the same resume nonce, and one action is one call on the journal or the
 * credential store.
 */
module CliSubmission {
  import opened Wrappers

  /** `Issued` stands for all states from credential_issued to activated. */
  datatype Phase = Awaiting | Running | Issued | Closed

  /** The parts of the journal row that submissions read or write. */
  datatype Job = Job(phase: Phase, owner: Option<nat>, lease: int, revision: nat, nonce: Option<nat>, ref: Option<nat>, expires: int)

  /** The next call of a submission. */
  datatype Pc = Recheck | ReadJob | Put | Publish(ref: nat) | Discard(ref: nat)

  /** A submission: the nonce and revision it was admitted with. */
  datatype Task = Task(nonce: nat, revision: nat, pc: Pc)

  /**
   * `published` lists the nonces under which a helper token became the job's
   * credential.  `others` are the store's other credentials, `leaked` the
   * references a crash or a failing store call has left behind.
   */
  datatype System = System(
    job: Job,
    store: set<nat>,
    published: seq<nat>,
    tasks: map<nat, Task>,
    now: int,
    others: set<nat>,
    leaked: set<nat>,
    used: set<nat>,
    usedNonces: set<nat>)

  /** A call succeeds, fails without effect, or takes effect while its caller sees a failure. */
  datatype Outcome = Ok | Err | Lost

  datatype Action =
    | Tick(to: int)
    | Begin(worker: nat, nonce: nat)
    | Reconnect(worker: nat, nonce: nat)
    | Perform(worker: nat, outcome: Outcome, ref: nat)
    | Stop(worker: nat)
    | Close
    | Reopen
    | CleanTerminal

  /** The journal's fence for a CLI result: running, same owner and revision, live lease. */
  predicate Fenced(s: System, t: Task) {
    s.job.phase == Running && s.job.owner == Some(t.nonce) && s.job.revision == t.revision && s.job.lease > s.now
  }

  function End(s: System, w: nat): System { s.(tasks := s.tasks - {w}) }

  function Goto(s: System, w: nat, pc: Pc): System
    requires w in s.tasks
  {
    s.(tasks := s.tasks[w := s.tasks[w].(pc := pc)])
  }

  function Apply(s: System, a: Action): System {
    match a
    case Tick(to) => if to >= s.now then s.(now := to) else s
    case Begin(w, nonce) => DoBegin(s, w, nonce)
    case Reconnect(w, nonce) =>
      if w in s.tasks || s.job.nonce != Some(nonce) || !(s.job.phase == Running && s.job.owner == Some(nonce) && s.job.lease > s.now) then s
      else s.(tasks := s.tasks[w := Task(nonce, s.job.revision, Recheck)])
    case Perform(w, out, ref) => if w in s.tasks then DoPerform(s, w, out, ref) else s
    case Stop(w) => if w in s.tasks then DoStop(s, w) else s
    case Close => if s.job.phase == Closed then s else s.(job := Ended(s.job))
    case Reopen => if s.job.phase == Running then s.(job := Ended(s.job).(phase := Awaiting)) else s
    case CleanTerminal =>
      if s.job.phase == Closed && s.job.ref.Some? then
        s.(store := s.store - {s.job.ref.value}, job := s.job.(ref := None))
      else s
  }

  function Ended(j: Job): Job {
    j.(phase := Closed, owner := None, lease := 0, revision := j.revision + 1, nonce := None)
  }

  /** The first connection draws a nonce and claims the job until it expires. */
  function DoBegin(s: System, w: nat, nonce: nat): System {
    if w in s.tasks || s.job.phase != Awaiting || nonce in s.usedNonces then s
    else
      s.(job := s.job.(phase := Running, owner := Some(nonce), lease := s.job.expires, revision := s.job.revision + 1, nonce := Some(nonce)),
         tasks := s.tasks[w := Task(nonce, s.job.revision + 1, Recheck)], usedNonces := s.usedNonces + {nonce})
  }

  /** A submission that is cut off leaves what it has stored. */
  function DoStop(s: System, w: nat): System
    requires w in s.tasks
  {
    match s.tasks[w].pc
    case Publish(ref) => End(s.(leaked := s.leaked + {ref}), w)
    case Discard(ref) => End(s.(leaked := s.leaked + {ref}), w)
    case _ => End(s, w)
  }

  function DoPerform(s: System, w: nat, out: Outcome, ref: nat): System
    requires w in s.tasks
  {
    var t := s.tasks[w];
    match t.pc
    case Recheck =>
      if out != Ok then End(s, w)
      else if s.job.phase == Running && s.job.owner == Some(t.nonce) && s.job.revision == t.revision && s.job.expires <= s.now
      then End(s.(job := Ended(s.job)), w)
      else if Fenced(s, t) then Goto(s, w, ReadJob) else End(s, w)
    case ReadJob =>
      if out == Ok && s.job.phase == Running && s.job.owner == Some(t.nonce) && s.job.revision == t.revision then Goto(s, w, Put)
      else End(s, w)
    case Put =>
      if ref in s.used || out == Err then End(s, w)
      else if out == Lost then End(s.(store := s.store + {ref}, used := s.used + {ref}, leaked := s.leaked + {ref}), w)
      else Goto(s.(store := s.store + {ref}, used := s.used + {ref}), w, Publish(ref))
    case Publish(r) => DoPublish(s, w, out, r)
    case Discard(r) =>
      End(if out == Err then s.(leaked := s.leaked + {r}) else s.(store := s.store - {r}), w)
  }

  /** The token becomes the job's credential, or is taken out of the store again. */
  function DoPublish(s: System, w: nat, out: Outcome, r: nat): System
    requires w in s.tasks
  {
    var t := s.tasks[w];
    if out == Err || !Fenced(s, t) then Goto(s, w, Discard(r))
    else
      var u := s.(job := s.job.(phase := Issued, owner := None, lease := 0, revision := s.job.revision + 1, ref := Some(r)),
                  published := s.published + [t.nonce]);
      if out == Ok then End(u, w) else Goto(u, w, Discard(r))
  }

  // ---------------------------------------------------------------------------
  // What every step keeps.

  predicate Holding(t: Task, r: nat) { t.pc == Publish(r) || t.pc == Discard(r) }

  /** Every published claim is spent: no two are the same and the running claim is none of them. */
  ghost predicate ClaimsOk(s: System) {
    && (forall i, j :: 0 <= i < j < |s.published| ==> s.published[i] != s.published[j])
    && (forall i :: 0 <= i < |s.published| ==> s.published[i] in s.usedNonces)
    && (s.job.phase == Running && s.job.owner.Some? ==> s.job.owner.value in s.usedNonces && s.job.owner.value !in s.published)
  }

  /** Every credential in the store is accounted for. */
  ghost predicate Accounted(s: System, r: nat) {
    r in s.others || r in s.leaked || s.job.ref == Some(r) || exists w :: w in s.tasks && Holding(s.tasks[w], r)
  }

  /** What a submission holds was drawn, is not leaked, and is held by it alone. */
  ghost predicate HoldersOk(s: System) {
    && s.leaked <= s.used
    && (forall w, r :: w in s.tasks && Holding(s.tasks[w], r) ==> r in s.used && r !in s.leaked)
    && (forall w, x, r :: w in s.tasks && x in s.tasks && Holding(s.tasks[w], r) && Holding(s.tasks[x], r) ==> w == x)
  }

  ghost predicate StoreOk(s: System) {
    && (forall r :: r in s.store ==> Accounted(s, r))
    && s.store <= s.used
    && (s.job.phase == Awaiting || s.job.phase == Running ==> s.job.ref.None?)
  }

  ghost predicate Invariant(s: System) { ClaimsOk(s) && StoreOk(s) && HoldersOk(s) }

  lemma StepClaims(s: System, a: Action)
    requires ClaimsOk(s)
    ensures ClaimsOk(Apply(s, a))
  {
  }

  /** A holder of a credential keeps it, passes it to the job, drops it, or leaks it. */
  lemma HolderStep(s: System, a: Action, w: nat, r: nat)
    requires w in s.tasks && Holding(s.tasks[w], r) && r in Apply(s, a).store
    ensures Accounted(Apply(s, a), r)
  {
    var t := Apply(s, a);
    if w in t.tasks && Holding(t.tasks[w], r) {
      assert Accounted(t, r);
    }
  }

  lemma PerformHolders(s: System, w: nat, out: Outcome, ref: nat)
    requires HoldersOk(s) && w in s.tasks
    ensures HoldersOk(DoPerform(s, w, out, ref))
  {
    if s.tasks[w].pc == Put {
      PutHolders(s, w, out, ref);
    }
  }

  /** A fresh credential comes into one pair of hands. */
  lemma PutHolders(s: System, w: nat, out: Outcome, ref: nat)
    requires HoldersOk(s) && w in s.tasks && s.tasks[w].pc == Put
    ensures HoldersOk(DoPerform(s, w, out, ref))
  {
  }

  lemma StepHolders(s: System, a: Action)
    requires HoldersOk(s)
    ensures HoldersOk(Apply(s, a))
  {
    if a.Perform? && a.worker in s.tasks {
      PerformHolders(s, a.worker, a.outcome, a.ref);
    }
  }

  lemma StepStore(s: System, a: Action)
    requires StoreOk(s)
    ensures StoreOk(Apply(s, a))
  {
    var t := Apply(s, a);
    forall r | r in t.store ensures Accounted(t, r) {
      if r in s.store {
        assert Accounted(s, r);
        if w :| w in s.tasks && Holding(s.tasks[w], r) {
          HolderStep(s, a, w, r);
        }
      } else {
        assert a.Perform? && s.tasks[a.worker].pc == Put && (a.worker in t.tasks ==> Holding(t.tasks[a.worker], r));
      }
    }
  }

  // ---------------------------------------------------------------------------
  // Runs.

  /** A job waiting for the command line. */
  ghost predicate Initial(s: System) {
    && s.job.phase == Awaiting && s.job.ref.None? && s.published == [] && s.tasks == map[] && s.leaked == {}
    && s.store == s.others && s.store <= s.used
  }

  ghost predicate IsRun(states: seq<System>, actions: seq<Action>) {
    && |states| == |actions| + 1
    && Initial(states[0])
    && forall i {:trigger actions[i]} :: 0 <= i < |actions| ==> states[i + 1] == Apply(states[i], actions[i])
  }

  lemma {:induction false} RunKeeps(states: seq<System>, actions: seq<Action>, k: nat)
    requires IsRun(states, actions) && k < |states|
    ensures Invariant(states[k]) && states[k].others == states[0].store
    decreases k
  {
    if k > 0 {
      RunKeeps(states, actions, k - 1);
      assert states[k] == Apply(states[k - 1], actions[k - 1]);
      StepClaims(states[k - 1], actions[k - 1]);
      StepStore(states[k - 1], actions[k - 1]);
      StepHolders(states[k - 1], actions[k - 1]);
    }
  }

  /** How often a helper token was published under a nonce. */
  function Publications(published: seq<nat>, nonce: nat): nat {
    if published == [] then 0
    else Publications(published[..|published| - 1], nonce) + if published[|published| - 1] == nonce then 1 else 0
  }

  lemma {:induction false} DistinctCounts(published: seq<nat>, nonce: nat)
    requires forall i, j :: 0 <= i < j < |published| ==> published[i] != published[j]
    ensures Publications(published, nonce) == if nonce in published then 1 else 0
  {
    if published != [] {
      DistinctCounts(published[..|published| - 1], nonce);
    }
  }

  /** However many clients submit however often, at most one helper token is published for a claim. */
  lemma PublishedAtMostOnce(states: seq<System>, actions: seq<Action>, k: nat, nonce: nat)
    requires IsRun(states, actions) && k < |states|
    ensures Publications(states[k].published, nonce) <= 1
  {
    RunKeeps(states, actions, k);
    DistinctCounts(states[k].published, nonce);
  }

  // ---------------------------------------------------------------------------
  // Losers.

  /** A crash with a credential in hand, a put that fails after storing, or a failing deletion. */
  predicate Faulty(s: System, a: Action) {
    match a
    case Stop(w) => w in s.tasks && (s.tasks[w].pc.Publish? || s.tasks[w].pc.Discard?)
    case Perform(w, out, ref) =>
      w in s.tasks && ((s.tasks[w].pc.Put? && out == Lost && ref !in s.used) || (s.tasks[w].pc.Discard? && out == Err))
    case _ => false
  }

  /** Something is leaked exactly by such a fault. */
  lemma LeaksExactlyByFault(s: System, a: Action)
    requires HoldersOk(s)
    ensures Apply(s, a).leaked != s.leaked <==> Faulty(s, a)
    ensures s.leaked <= Apply(s, a).leaked
  {
    if a.Stop? && a.worker in s.tasks && (s.tasks[a.worker].pc.Publish? || s.tasks[a.worker].pc.Discard?) {
      assert Holding(s.tasks[a.worker], s.tasks[a.worker].pc.ref);
    }
    if a.Perform? && a.worker in s.tasks && s.tasks[a.worker].pc.Discard? {
      assert Holding(s.tasks[a.worker], s.tasks[a.worker].pc.ref);
    }
  }

  lemma {:induction false} NoFaultNoLeak(states: seq<System>, actions: seq<Action>, k: nat)
    requires IsRun(states, actions) && k < |states|
    requires forall i {:trigger actions[i]} :: 0 <= i < k ==> !Faulty(states[i], actions[i])
    ensures states[k].leaked == {}
    decreases k
  {
    if k > 0 {
      NoFaultNoLeak(states, actions, k - 1);
      RunKeeps(states, actions, k - 1);
      LeaksExactlyByFault(states[k - 1], actions[k - 1]);
      assert states[k] == Apply(states[k - 1], actions[k - 1]);
    }
  }

  /**
   * In a run without such faults the store never holds anything but its other
   * credentials, the one credential the job names, and what submissions still
   * under way hold: every losing submission that has ended has left nothing behind.
   */
  lemma LosersLeaveNothing(states: seq<System>, actions: seq<Action>, k: nat)
    requires IsRun(states, actions) && k < |states|
    requires forall i {:trigger actions[i]} :: 0 <= i < k ==> !Faulty(states[i], actions[i])
    ensures forall r :: r in states[k].store && r !in states[0].store ==>
              states[k].job.ref == Some(r) || exists w :: w in states[k].tasks && Holding(states[k].tasks[w], r)
  {
    RunKeeps(states, actions, k);
    NoFaultNoLeak(states, actions, k);
    forall r | r in states[k].store && r !in states[0].store
      ensures states[k].job.ref == Some(r) || exists w :: w in states[k].tasks && Holding(states[k].tasks[w], r)
    {
      assert Accounted(states[k], r);
    }
  }
}
