/**
 The promises of the job queue: a restart never doubles a resume job, and an aggregate a
 transfer job ever owned is left to that job for good.
 */
module JobTheorems {
  import opened Common
  import opened JobQueue

  /** A row some worker is driving or will drive, for this aggregate. */
  predicate Active(row: Row, target: Target)
  {
    row.job == ResumeTokenization(target) && (row.status.Pending? || row.status.Queued? || row.status.Running?)
  }

  predicate PendingFor(row: Row, target: Target)
  {
    row.job == ResumeTokenization(target) && row.status.Pending?
  }

  predicate AtMostOneActive(jobs: Jobs, target: Target)
  {
    forall i, j :: 0 <= i < j < |jobs| ==> !(Active(jobs[i], target) && Active(jobs[j], target))
  }

  predicate AtMostOnePending(jobs: Jobs, target: Target)
  {
    forall i, j :: 0 <= i < j < |jobs| ==> !(PendingFor(jobs[i], target) && PendingFor(jobs[j], target))
  }

  predicate HasActive(jobs: Jobs, target: Target)
  {
    exists i :: 0 <= i < |jobs| && Active(jobs[i], target)
  }

  predicate DistinctIds(world: World)
  {
    Distinct(world.interruptedMints) && Distinct(world.interruptedRedemptions)
  }

  predicate Interrupted(world: World, target: Target)
  {
    match target
    case Mint(id) => id in world.interruptedMints
    case Redemption(id) => id in world.interruptedRedemptions
  }

  // ----- What a scan pushes -----

  lemma CandidatesAreInterrupted(world: World)
    ensures forall t :: t in Candidates(world) <==> Interrupted(world, t)
    ensures DistinctIds(world) ==> Distinct(Candidates(world))
  {
    var mints, candidates := |world.interruptedMints|, Candidates(world);
    forall t | Interrupted(world, t) ensures t in candidates {
      match t
      case Mint(id) =>
        var i :| 0 <= i < mints && world.interruptedMints[i] == id;
        assert candidates[i] == t;
      case Redemption(id) =>
        var i :| 0 <= i < |world.interruptedRedemptions| && world.interruptedRedemptions[i] == id;
        assert candidates[mints + i] == t;
    }
  }

  lemma {:induction false} ScanIsSound(world: World, jobs: Jobs, candidates: seq<Target>)
    ensures var scan := ScanOf(world, jobs, candidates);
            && (Distinct(candidates) ==> Distinct(scan.pushed))
            && (forall t :: t in scan.pushed ==> t in candidates && Eligible(world, jobs, t))
            && (!scan.aborted ==> forall t :: t in candidates && Eligible(world, jobs, t) ==> t in scan.pushed)
  {
    if candidates != [] {
      var front, target := candidates[..|candidates| - 1], candidates[|candidates| - 1];
      ScanIsSound(world, jobs, front);
      assert candidates == front + [target];
    }
  }

  lemma PushesAreSound(world: World, jobs: Jobs)
    ensures DistinctIds(world) ==> Distinct(Pushes(world, jobs))
    ensures forall t :: t in Pushes(world, jobs) ==> Interrupted(world, t) && Eligible(world, jobs, t)
    ensures Readable(jobs) && !ScanOf(world, jobs, Candidates(world)).aborted ==>
              forall t :: Interrupted(world, t) && Eligible(world, jobs, t) ==> t in Pushes(world, jobs)
  {
    CandidatesAreInterrupted(world);
    ScanIsSound(world, jobs, Candidates(world));
  }

  // ----- What the two queue updates leave -----

  predicate SameWork(jobs: Jobs, others: Jobs)
  {
    |jobs| == |others| && forall i :: 0 <= i < |jobs| ==> jobs[i].job == others[i].job
  }

  lemma SweepKeepsJobs(jobs: Jobs, faults: Faults)
    ensures SameWork(jobs, Swept(jobs, faults)) && SameWork(jobs, Requeued(jobs))
  {
  }

  lemma SameWorkSameOwners(jobs: Jobs, others: Jobs, target: Target)
    requires SameWork(jobs, others)
    ensures Owned(jobs, target) <==> Owned(others, target)
  {
  }

  lemma SweptIsQuiet(jobs: Jobs, faults: Faults, target: Target)
    requires !faults.cancelFails
    ensures forall i :: 0 <= i < |Swept(jobs, faults)| ==> !PendingFor(Swept(jobs, faults)[i], target)
    ensures !faults.requeueFails ==> !HasActive(Swept(jobs, faults), target)
  {
  }

  /** Fresh rows behind a queue with nothing pending for a target: at most one is. */
  lemma FreshRowsAreSingle(jobs: Jobs, targets: seq<Target>, budget: nat, target: Target)
    requires Distinct(targets)
    ensures (forall i :: 0 <= i < |jobs| ==> !PendingFor(jobs[i], target)) ==>
        AtMostOnePending(jobs + FreshRows(targets, budget), target)
    ensures !HasActive(jobs, target) ==> AtMostOneActive(jobs + FreshRows(targets, budget), target)
    ensures HasActive(jobs + FreshRows(targets, budget), target) <==> HasActive(jobs, target) || target in targets
  {
    var added := FreshRows(targets, budget);
    var after := jobs + added;
    if HasActive(jobs, target) {
      var i :| 0 <= i < |jobs| && Active(jobs[i], target);
      assert Active(after[i], target);
    } else if target in targets {
      var i :| 0 <= i < |targets| && targets[i] == target;
      assert Active(after[|jobs| + i], target);
    }
    assert forall i :: 0 <= i < |added| ==> after[|jobs| + i] == FreshRow(targets[i], budget);
  }

  // ----- Startup resume is idempotent -----

  /** For any prior queue and any cut-off, both queue updates working: an aggregate ends up
      with at most one active resume row exactly when the restart got past its cancel step
      or there was at most one before. */
  lemma RestartKeepsOneIff(jobs: Jobs, world: World, faults: Faults, target: Target)
    requires DistinctIds(world) && !faults.cancelFails && !faults.requeueFails
    ensures AtMostOneActive(Restarted(jobs, world, faults), target) <==>
              faults.steps >= 2 || AtMostOneActive(jobs, target)
  {
    if faults.steps >= 2 {
      PushedOnce(jobs, world, faults, target);
    } else {
      assert forall i :: 0 <= i < |jobs| ==> (Active(Requeued(jobs)[i], target) <==> Active(jobs[i], target));
    }
  }

  /** With the orphan reset failing silently, the same of pending rows. */
  lemma RestartKeepsOnePendingIff(jobs: Jobs, world: World, faults: Faults, target: Target)
    requires DistinctIds(world) && !faults.cancelFails && faults.requeueFails
    ensures AtMostOnePending(Restarted(jobs, world, faults), target) <==>
              faults.steps >= 2 || AtMostOnePending(jobs, target)
  {
    if faults.steps >= 2 {
      PushedOnce(jobs, world, faults, target);
    }
  }

  lemma PushedOnce(jobs: Jobs, world: World, faults: Faults, target: Target)
    requires DistinctIds(world) && faults.steps >= 2 && !faults.cancelFails
    ensures AtMostOnePending(Restarted(jobs, world, faults), target)
    ensures !faults.requeueFails ==> AtMostOneActive(Restarted(jobs, world, faults), target)
  {
    var swept := Swept(jobs, faults);
    var pushes := Pushes(world, swept);
    PushesAreSound(world, swept);
    SweptIsQuiet(jobs, faults, target);
    FreshRowsAreSingle(swept, pushes[..Min(faults.steps - 2, |pushes|)], world.budget, target);
  }

  /** A restart that runs to its end leaves exactly one active resume row for every
      interrupted aggregate that no transfer job owns and recovery does not hold, and none
      for any other aggregate. */
  lemma CompletedRestartIsExact(jobs: Jobs, world: World, faults: Faults, target: Target)
    requires DistinctIds(world) && Completes(jobs, world, faults) && !faults.cancelFails && !faults.requeueFails
    ensures AtMostOneActive(Restarted(jobs, world, faults), target)
    ensures HasActive(Restarted(jobs, world, faults), target) <==>
              Interrupted(world, target) && !Owned(jobs, target) && !Held(world, target)
  {
    var swept := Swept(jobs, faults);
    var pushes := Pushes(world, swept);
    PushesAreSound(world, swept);
    SweepKeepsJobs(jobs, faults);
    SameWorkSameOwners(jobs, swept, target);
    SweptIsQuiet(jobs, faults, target);
    assert pushes[..Min(faults.steps - 2, |pushes|)] == pushes;
    FreshRowsAreSingle(swept, pushes, world.budget, target);
  }

  /** When the cancel fails silently, a completed restart doubles a target exactly when it
      pushes one that was already active. */
  lemma FailedCancelDoublesIff(jobs: Jobs, world: World, faults: Faults, target: Target)
    requires DistinctIds(world) && Completes(jobs, world, faults) && faults.cancelFails
    requires AtMostOneActive(jobs, target)
    ensures AtMostOneActive(Restarted(jobs, world, faults), target) <==>
              !(HasActive(jobs, target) && Interrupted(world, target) && Eligible(world, jobs, target))
  {
    var swept := Swept(jobs, faults);
    var pushes := Pushes(world, swept);
    PushesAreSound(world, swept);
    SweepKeepsJobs(jobs, faults);
    SameWorkSameOwners(jobs, swept, target);
    assert pushes[..Min(faults.steps - 2, |pushes|)] == pushes;
    assert forall i :: 0 <= i < |jobs| ==> (Active(swept[i], target) <==> Active(jobs[i], target));
    FreshRowsDoubleIff(swept, pushes, world.budget, target);
  }

  lemma FreshRowsDoubleIff(jobs: Jobs, targets: seq<Target>, budget: nat, target: Target)
    requires Distinct(targets) && AtMostOneActive(jobs, target)
    ensures AtMostOneActive(jobs + FreshRows(targets, budget), target) <==>
        !(HasActive(jobs, target) && target in targets)
  {
    var added := FreshRows(targets, budget);
    var after := jobs + added;
    if HasActive(jobs, target) && target in targets {
      var i :| 0 <= i < |jobs| && Active(jobs[i], target);
      var j :| 0 <= j < |targets| && targets[j] == target;
      assert Active(after[i], target) && Active(after[|jobs| + j], target);
    } else {
      assert forall i :: 0 <= i < |jobs| ==> after[i] == jobs[i];
      assert forall i :: 0 <= i < |added| ==> after[|jobs| + i] == FreshRow(targets[i], budget);
    }
  }

  // ----- Dead letters stay dead -----

  /** Everything that ever touches the queue: cleanup passes, restarts cut off anywhere,
      workers and operators changing the status of any row, other jobs being enqueued,
      and rows of other kinds being deleted. */
  datatype Action =
    | Cleanup
    | Restart(world: World, faults: Faults)
    | Work(row: nat, status: Status, attempts: nat)
    | Enqueue(job: Job, maxAttempts: nat)
    | Delete(row: nat)

  function Apply(jobs: Jobs, action: Action): Jobs
  {
    match action
    case Cleanup => Cleaned(jobs)
    case Restart(world, faults) => Restarted(jobs, world, faults)
    case Work(i, status, attempts) =>
      if i < |jobs| then jobs[i := jobs[i].(status := status, attempts := attempts)] else jobs
    case Enqueue(job, maxAttempts) =>
      // Only a restart enqueues resume jobs.
      if job.ResumeTokenization? then jobs else jobs + [Row(job, Pending, 0, maxAttempts)]
    case Delete(i) =>
      if i < |jobs| && !IsTransfer(jobs[i].job) then jobs[..i] + jobs[i + 1..] else jobs
  }

  function Run(jobs: Jobs, actions: seq<Action>): Jobs
  {
    if actions == [] then jobs else Apply(Run(jobs, actions[..|actions| - 1]), actions[|actions| - 1])
  }

  function ResumeRows(jobs: Jobs, target: Target): nat
  {
    if jobs == [] then 0
    else ResumeRows(jobs[..|jobs| - 1], target) + if jobs[|jobs| - 1].job == ResumeTokenization(target) then 1 else 0
  }

  lemma {:induction false} ResumeRowsSplit(left: Jobs, right: Jobs, target: Target)
    ensures ResumeRows(left + right, target) == ResumeRows(left, target) + ResumeRows(right, target)
  {
    if right == [] {
      assert left + right == left;
    } else {
      assert (left + right)[..|left + right| - 1] == left + right[..|right| - 1];
      ResumeRowsSplit(left, right[..|right| - 1], target);
    }
  }

  lemma {:induction false} SameWorkSameRows(jobs: Jobs, others: Jobs, target: Target)
    requires SameWork(jobs, others)
    ensures ResumeRows(jobs, target) == ResumeRows(others, target)
  {
    if jobs != [] {
      SameWorkSameRows(jobs[..|jobs| - 1], others[..|others| - 1], target);
    }
  }

  lemma {:induction false} NoFreshRowFor(targets: seq<Target>, budget: nat, target: Target)
    requires target !in targets
    ensures ResumeRows(FreshRows(targets, budget), target) == 0
  {
    if targets != [] {
      var front := targets[..|targets| - 1];
      assert FreshRows(targets, budget)[..|targets| - 1] == FreshRows(front, budget);
      assert targets[|targets| - 1] in targets;
      NoFreshRowFor(front, budget, target);
    }
  }

  lemma FinishedIff(row: Row)
    ensures Finished(row) <==>
              && (row.job.ResumeTokenization? || row.job.OtherJob?)
              && (|| row.status == Done || row.status == Killed
                  || (row.status == Failed && row.attempts >= row.maxAttempts))
  {
  }

  lemma {:induction false} CleanedOf(jobs: Jobs, row: Row)
    ensures multiset(Cleaned(jobs))[row] == if Finished(row) then 0 else multiset(jobs)[row]
  {
    if jobs != [] {
      var front, last := jobs[..|jobs| - 1], jobs[|jobs| - 1];
      CleanedOf(front, row);
      assert jobs == front + [last];
      assert multiset(jobs) == multiset(front) + multiset{last};
      assert multiset(Cleaned(jobs)) ==
             multiset(Cleaned(front)) + if Finished(last) then multiset{} else multiset{last};
    }
  }

  /** Cleanup deletes every row that is done, killed or out of attempts, and no other; a
      transfer row is never deleted. */
  lemma {:induction false} CleanupIsExact(jobs: Jobs, row: Row)
    ensures multiset(Cleaned(jobs))[row] ==
            if && (row.job.ResumeTokenization? || row.job.OtherJob?)
               && (|| row.status == Done || row.status == Killed
                   || (row.status == Failed && row.attempts >= row.maxAttempts))
            then 0 else multiset(jobs)[row]
  {
    FinishedIff(row);
    CleanedOf(jobs, row);
  }

  lemma {:induction false} CleanupOnlyRemoves(jobs: Jobs, target: Target)
    ensures ResumeRows(Cleaned(jobs), target) <= ResumeRows(jobs, target)
    ensures Owned(jobs, target) ==> Owned(Cleaned(jobs), target)
  {
    if jobs != [] {
      var front, row := jobs[..|jobs| - 1], jobs[|jobs| - 1];
      CleanupOnlyRemoves(front, target);
      var kept := if Finished(row) then [] else [row];
      ResumeRowsSplit(Cleaned(front), kept, target);
      if row.job == ResumeTokenization(target) {
        assert kept == [row] ==> kept[..0] == [];
      }
      if Owned(front, target) {
        var i :| 0 <= i < |Cleaned(front)| && Owns(Cleaned(front)[i].job, target);
        assert Owns(Cleaned(jobs)[i].job, target);
      } else if Owns(row.job, target) {
        assert Owns(Cleaned(jobs)[|Cleaned(front)|].job, target);
      }
    }
  }

  lemma RestartRespectsOwner(jobs: Jobs, world: World, faults: Faults, target: Target)
    requires Owned(jobs, target)
    ensures Owned(Restarted(jobs, world, faults), target)
    ensures ResumeRows(Restarted(jobs, world, faults), target) == ResumeRows(jobs, target)
  {
    SweepKeepsJobs(jobs, faults);
    SameWorkSameRows(jobs, Requeued(jobs), target);
    SameWorkSameOwners(jobs, Requeued(jobs), target);
    if faults.steps >= 2 {
      var swept := Swept(jobs, faults);
      var pushed := Pushes(world, swept)[..Min(faults.steps - 2, |Pushes(world, swept)|)];
      SameWorkSameRows(jobs, swept, target);
      SameWorkSameOwners(jobs, swept, target);
      PushesAreSound(world, swept);
      assert forall t :: t in pushed ==> t in Pushes(world, swept);
      NoFreshRowFor(pushed, world.budget, target);
      ResumeRowsSplit(swept, FreshRows(pushed, world.budget), target);
      OwnerStays(swept, FreshRows(pushed, world.budget), target);
    }
  }

  lemma OwnerStays(jobs: Jobs, more: Jobs, target: Target)
    requires Owned(jobs, target)
    ensures Owned(jobs + more, target)
  {
    var i :| 0 <= i < |jobs| && Owns(jobs[i].job, target);
    assert Owns((jobs + more)[i].job, target);
  }

  lemma DeleteRespectsOwner(jobs: Jobs, i: nat, target: Target)
    requires Owned(jobs, target) && i < |jobs| && !IsTransfer(jobs[i].job)
    ensures Owned(jobs[..i] + jobs[i + 1..], target)
    ensures ResumeRows(jobs[..i] + jobs[i + 1..], target) <= ResumeRows(jobs, target)
  {
    var after := jobs[..i] + jobs[i + 1..];
    var k :| 0 <= k < |jobs| && Owns(jobs[k].job, target);
    assert after[if k < i then k else k - 1] == jobs[k];
    assert jobs == jobs[..i] + ([jobs[i]] + jobs[i + 1..]);
    ResumeRowsSplit(jobs[..i], [jobs[i]] + jobs[i + 1..], target);
    ResumeRowsSplit([jobs[i]], jobs[i + 1..], target);
    ResumeRowsSplit(jobs[..i], jobs[i + 1..], target);
  }

  lemma WorkRespectsOwner(jobs: Jobs, action: Action, target: Target)
    requires Owned(jobs, target) && action.Work?
    ensures Owned(Apply(jobs, action), target)
    ensures ResumeRows(Apply(jobs, action), target) == ResumeRows(jobs, target)
  {
    SameWorkSameRows(jobs, Apply(jobs, action), target);
    SameWorkSameOwners(jobs, Apply(jobs, action), target);
  }

  lemma EnqueueRespectsOwner(jobs: Jobs, action: Action, target: Target)
    requires Owned(jobs, target) && action.Enqueue?
    ensures Owned(Apply(jobs, action), target)
    ensures ResumeRows(Apply(jobs, action), target) == ResumeRows(jobs, target)
  {
    if !action.job.ResumeTokenization? {
      var row := Row(action.job, Pending, 0, action.maxAttempts);
      ResumeRowsSplit(jobs, [row], target);
      OwnerStays(jobs, [row], target);
      assert [row][..0] == [];
    }
  }

  lemma ActionRespectsOwner(jobs: Jobs, action: Action, target: Target)
    requires Owned(jobs, target)
    ensures Owned(Apply(jobs, action), target)
    ensures ResumeRows(Apply(jobs, action), target) <= ResumeRows(jobs, target)
  {
    match action
    case Cleanup => CleanupOnlyRemoves(jobs, target);
    case Restart(world, faults) => RestartRespectsOwner(jobs, world, faults, target);
    case Work(_, _, _) => WorkRespectsOwner(jobs, action, target);
    case Enqueue(_, _) => EnqueueRespectsOwner(jobs, action, target);
    case Delete(i) => if i < |jobs| && !IsTransfer(jobs[i].job) { DeleteRespectsOwner(jobs, i, target); }
  }

  lemma {:induction false} OwnedForever(jobs: Jobs, actions: seq<Action>, target: Target)
    requires Owned(jobs, target)
    ensures Owned(Run(jobs, actions), target)
    ensures ResumeRows(Run(jobs, actions), target) <= ResumeRows(jobs, target)
  {
    if actions != [] {
      OwnedForever(jobs, actions[..|actions| - 1], target);
      ActionRespectsOwner(Run(jobs, actions[..|actions| - 1]), actions[|actions| - 1], target);
    }
  }

  /** From the moment a transfer job for an aggregate exists, finished or not, over every
      interleaving of cleanups, restarts and other work: the aggregate stays owned and
      never gains a resume job. */
  lemma DeadLettersStayDead(jobs: Jobs, actions: seq<Action>, i: nat, target: Target)
    requires i < |jobs|
    requires match target
             case Mint(id) => jobs[i].job == TransferEquityToMarketMaking(Some(id))
             case Redemption(id) => jobs[i].job == TransferEquityToHedging(Some(id))
    ensures var after := Run(jobs, actions);
            && ResumeRows(after, target) <= ResumeRows(jobs, target)
            && exists k :: 0 <= k < |after| && after[k].job == jobs[i].job
  {
    assert Owns(jobs[i].job, target);
    OwnedForever(jobs, actions, target);
    var after := Run(jobs, actions);
    var k :| 0 <= k < |after| && Owns(after[k].job, target);
  }

  // ----- A restart, row by row -----

  /** What a restart does to the rows it finds: it ends resume rows that are pending or in
      flight, and touches no other. */
  lemma RowsFound(jobs: Jobs, world: World, faults: Faults, i: nat)
    requires i < |jobs| && !faults.cancelFails && !faults.requeueFails
    ensures var after := Restarted(jobs, world, faults);
            && |after| >= |jobs|
            && after[i] ==
               if !jobs[i].job.ResumeTokenization? || faults.steps == 0 then jobs[i]
               else if faults.steps == 1 then
                 (if jobs[i].status == Running || jobs[i].status == Queued then jobs[i].(status := Pending)
                  else jobs[i])
               else if jobs[i].status == Pending || jobs[i].status == Running || jobs[i].status == Queued
                 then jobs[i].(status := Done)
               else jobs[i]
  {
  }

  /** Which candidates a restart pushes, if nothing cuts it off: those before the first one
      that is missing or cannot be restored, unless owned or held. */
  lemma {:induction false} PushedIff(world: World, jobs: Jobs, candidates: seq<Target>, t: Target)
    ensures t in ScanOf(world, jobs, candidates).pushed <==>
              exists k :: && 0 <= k < |candidates| && candidates[k] == t && Eligible(world, jobs, t)
                          && forall j :: 0 <= j <= k ==> !Aborts(world, candidates[j])
    ensures ScanOf(world, jobs, candidates).aborted <==>
              exists j :: 0 <= j < |candidates| && Aborts(world, candidates[j])
  {
    if candidates != [] {
      var front, n := candidates[..|candidates| - 1], |candidates| - 1;
      PushedIff(world, jobs, front, t);
      assert forall j :: 0 <= j < n ==> front[j] == candidates[j];
      if t in ScanOf(world, jobs, front).pushed {
        var k :| && 0 <= k < n && front[k] == t && Eligible(world, jobs, t)
                 && forall j :: 0 <= j <= k ==> !Aborts(world, front[j]);
        assert candidates[k] == t && forall j :: 0 <= j <= k ==> !Aborts(world, candidates[j]);
      }
    }
  }

  /** A restart examines mints before redemptions, each in the order they were read. */
  lemma CandidateOrder(world: World)
    ensures |Candidates(world)| == |world.interruptedMints| + |world.interruptedRedemptions|
    ensures forall i :: 0 <= i < |world.interruptedMints| ==> Candidates(world)[i] == Mint(world.interruptedMints[i])
    ensures forall i :: 0 <= i < |world.interruptedRedemptions| ==>
              Candidates(world)[|world.interruptedMints| + i] == Redemption(world.interruptedRedemptions[i])
  {
  }

  /** And pushes them in that order. */
  lemma {:induction false} PushedInOrder(world: World, jobs: Jobs, candidates: seq<Target>, a: nat, b: nat)
    returns (i: nat, j: nat)
    requires a < b < |ScanOf(world, jobs, candidates).pushed|
    ensures i < j < |candidates|
    ensures candidates[i] == ScanOf(world, jobs, candidates).pushed[a]
    ensures candidates[j] == ScanOf(world, jobs, candidates).pushed[b]
  {
    var front := candidates[..|candidates| - 1];
    var pushed := ScanOf(world, jobs, front).pushed;
    if b < |pushed| {
      i, j := PushedInOrder(world, jobs, front, a, b);
    } else {
      j := |candidates| - 1;
      PushedIff(world, jobs, front, pushed[a]);
      i :| 0 <= i < |front| && front[i] == pushed[a];
    }
  }

  /** A mint that some market-making transfer row names gets no resume row from any
      restart, however it is cut off and whichever of its updates fail. */
  lemma OwnedMintIsLeftAlone(jobs: Jobs, world: World, faults: Faults, i: nat, id: nat)
    requires i < |jobs| && jobs[i].job == TransferEquityToMarketMaking(Some(id))
    ensures ResumeRows(Restarted(jobs, world, faults), Mint(id)) == ResumeRows(jobs, Mint(id))
  {
    assert Owns(jobs[i].job, Mint(id));
    RestartRespectsOwner(jobs, world, faults, Mint(id));
  }

  /** Nor does a redemption that some hedging transfer row names. */
  lemma OwnedRedemptionIsLeftAlone(jobs: Jobs, world: World, faults: Faults, i: nat, id: nat)
    requires i < |jobs| && jobs[i].job == TransferEquityToHedging(Some(id))
    ensures ResumeRows(Restarted(jobs, world, faults), Redemption(id)) == ResumeRows(jobs, Redemption(id))
  {
    assert Owns(jobs[i].job, Redemption(id));
    RestartRespectsOwner(jobs, world, faults, Redemption(id));
  }

  /** One unreadable equity transfer row keeps a restart from pushing anything. */
  lemma UnreadableStops(jobs: Jobs, world: World, faults: Faults, i: nat)
    requires i < |jobs|
    requires jobs[i].job == TransferEquityToMarketMaking(None) || jobs[i].job == TransferEquityToHedging(None)
    ensures |Restarted(jobs, world, faults)| == |jobs|
  {
    SweepKeepsJobs(jobs, faults);
  }

  lemma PushedRowIsFresh(jobs: Jobs, world: World, faults: Faults, target: Target)
    requires DistinctIds(world) && Completes(jobs, world, faults) && target in Pushes(world, Swept(jobs, faults))
    ensures Row(ResumeTokenization(target), Pending, 0, world.budget) in Restarted(jobs, world, faults)
  {
    var swept := Swept(jobs, faults);
    var pushes := Pushes(world, swept);
    assert pushes[..Min(faults.steps - 2, |pushes|)] == pushes;
    var k :| 0 <= k < |pushes| && pushes[k] == target;
    assert Restarted(jobs, world, faults)[|swept| + k] == FreshRow(target, world.budget);
  }

  /** A completed restart pushes a fresh row for an interrupted mint exactly when no
      market-making transfer row names it and it is not a pre-wrap mint whose symbol is
      held for recovery; no other row for it is active. */
  lemma CompletedMints(jobs: Jobs, world: World, faults: Faults, id: nat)
    requires DistinctIds(world) && Completes(jobs, world, faults) && !faults.cancelFails && !faults.requeueFails
    ensures AtMostOneActive(Restarted(jobs, world, faults), Mint(id))
    ensures HasActive(Restarted(jobs, world, faults), Mint(id)) <==>
              && id in world.interruptedMints
              && (forall i :: 0 <= i < |jobs| ==> jobs[i].job != TransferEquityToMarketMaking(Some(id)))
              && !(id in world.mints &&
                   match world.mints[id]
                   case TokensReceived(symbol) =>
                     symbol in world.guards(id) && world.guards(id)[symbol] == HeldForRecovery
                   case WrapSubmitted(symbol) =>
                     symbol in world.guards(id) && world.guards(id)[symbol] == HeldForRecovery
                   case OtherMintState => false)
    ensures HasActive(Restarted(jobs, world, faults), Mint(id)) ==>
              Row(ResumeTokenization(Mint(id)), Pending, 0, world.budget) in Restarted(jobs, world, faults)
  {
    CompletedRestartIsExact(jobs, world, faults, Mint(id));
    assert forall i :: 0 <= i < |jobs| ==>
             (Owns(jobs[i].job, Mint(id)) <==> jobs[i].job == TransferEquityToMarketMaking(Some(id)));
    if HasActive(Restarted(jobs, world, faults), Mint(id)) {
      PushesAreSound(world, Swept(jobs, faults));
      SweepKeepsJobs(jobs, faults);
      SameWorkSameOwners(jobs, Swept(jobs, faults), Mint(id));
      PushedRowIsFresh(jobs, world, faults, Mint(id));
    }
  }

  /** And for an interrupted redemption exactly when no hedging transfer row names it. */
  lemma CompletedRedemptions(jobs: Jobs, world: World, faults: Faults, id: nat)
    requires DistinctIds(world) && Completes(jobs, world, faults) && !faults.cancelFails && !faults.requeueFails
    ensures AtMostOneActive(Restarted(jobs, world, faults), Redemption(id))
    ensures HasActive(Restarted(jobs, world, faults), Redemption(id)) <==>
              && id in world.interruptedRedemptions
              && (forall i :: 0 <= i < |jobs| ==> jobs[i].job != TransferEquityToHedging(Some(id)))
    ensures HasActive(Restarted(jobs, world, faults), Redemption(id)) ==>
              Row(ResumeTokenization(Redemption(id)), Pending, 0, world.budget) in Restarted(jobs, world, faults)
  {
    CompletedRestartIsExact(jobs, world, faults, Redemption(id));
    assert forall i :: 0 <= i < |jobs| ==>
             (Owns(jobs[i].job, Redemption(id)) <==> jobs[i].job == TransferEquityToHedging(Some(id)));
    if HasActive(Restarted(jobs, world, faults), Redemption(id)) {
      PushesAreSound(world, Swept(jobs, faults));
      SweepKeepsJobs(jobs, faults);
      SameWorkSameOwners(jobs, Swept(jobs, faults), Redemption(id));
      PushedRowIsFresh(jobs, world, faults, Redemption(id));
    }
  }

  /** A restart runs to its end exactly when it has steps for all it pushes, every equity
      transfer row can be read, and every interrupted aggregate exists and is restored. */
  lemma CompletesIff(jobs: Jobs, world: World, faults: Faults)
    ensures Completes(jobs, world, faults) <==>
              && faults.steps >= 2 + |Pushes(world, Swept(jobs, faults))|
              && (forall i :: 0 <= i < |jobs| ==>
                    jobs[i].job != TransferEquityToMarketMaking(None) && jobs[i].job != TransferEquityToHedging(None))
              && (forall i :: 0 <= i < |world.interruptedMints| ==>
                    var id := world.interruptedMints[i]; id in world.mints && world.recovers(Mint(id)))
              && (forall i :: 0 <= i < |world.interruptedRedemptions| ==>
                    var id := world.interruptedRedemptions[i];
                    id in world.redemptions && world.recovers(Redemption(id)))
  {
    var swept, candidates := Swept(jobs, faults), Candidates(world);
    SweepKeepsJobs(jobs, faults);
    PushedIff(world, swept, candidates, Mint(0));
    CandidateOrder(world);
    assert Readable(swept) <==> Readable(jobs);
    forall i | 0 <= i < |world.interruptedMints|
      ensures Aborts(world, candidates[i]) <==>
                !(world.interruptedMints[i] in world.mints && world.recovers(Mint(world.interruptedMints[i])))
    {
    }
    forall i | 0 <= i < |world.interruptedRedemptions|
      ensures Aborts(world, candidates[|world.interruptedMints| + i]) <==>
                !(world.interruptedRedemptions[i] in world.redemptions &&
                  world.recovers(Redemption(world.interruptedRedemptions[i])))
    {
    }
    if exists j :: 0 <= j < |candidates| && Aborts(world, candidates[j]) {
      var j :| 0 <= j < |candidates| && Aborts(world, candidates[j]);
      if j >= |world.interruptedMints| {
        var i := j - |world.interruptedMints|;
        assert candidates[|world.interruptedMints| + i] == Redemption(world.interruptedRedemptions[i]);
      }
    }
  }

  // ----- At most one active resume job, over every run -----

  predicate InFlight(status: Status) { status.Pending? || status.Queued? || status.Running? }

  /** A worker takes up again a resume row that had stopped being in flight. */
  predicate Reactivates(jobs: Jobs, action: Action)
  {
    && action.Work? && action.row < |jobs| && jobs[action.row].job.ResumeTokenization?
    && InFlight(action.status) && !InFlight(jobs[action.row].status)
  }

  /** A worker takes one up beside another that is in flight for the same aggregate. */
  predicate DoublesUp(jobs: Jobs, action: Action, target: Target)
  {
    Reactivates(jobs, action) && jobs[action.row].job == ResumeTokenization(target) && HasActive(jobs, target)
  }

  /** Restarts may be cut off anywhere; their two queue updates work. */
  predicate UpdatesWork(action: Action)
  {
    action.Restart? ==> DistinctIds(action.world) && !action.faults.cancelFails && !action.faults.requeueFails
  }

  predicate NeverDoublesUp(jobs: Jobs, actions: seq<Action>, target: Target)
  {
    if actions == [] then true
    else
      var before := actions[..|actions| - 1];
      NeverDoublesUp(jobs, before, target) && !DoublesUp(Run(jobs, before), actions[|actions| - 1], target)
  }

  lemma {:induction false} CleanedKeepsOne(jobs: Jobs, target: Target)
    requires AtMostOneActive(jobs, target)
    ensures AtMostOneActive(Cleaned(jobs), target)
    ensures HasActive(Cleaned(jobs), target) ==> HasActive(jobs, target)
  {
    if jobs != [] {
      var front, last := jobs[..|jobs| - 1], jobs[|jobs| - 1];
      CleanedKeepsOne(front, target);
      var rest, cleaned := Cleaned(front), Cleaned(jobs);
      assert cleaned == rest || cleaned == rest + [last];
      if HasActive(rest, target) {
        var i :| 0 <= i < |front| && Active(front[i], target);
        assert Active(jobs[i], target);
      }
      if HasActive(cleaned, target) && !HasActive(rest, target) {
        assert Active(jobs[|jobs| - 1], target);
      }
    }
  }

  lemma DeleteKeepsOne(jobs: Jobs, i: nat, target: Target)
    requires AtMostOneActive(jobs, target) && i < |jobs|
    ensures AtMostOneActive(jobs[..i] + jobs[i + 1..], target)
  {
    var after := jobs[..i] + jobs[i + 1..];
    forall j, k | 0 <= j < k < |after| ensures !(Active(after[j], target) && Active(after[k], target)) {
      assert after[j] == jobs[if j < i then j else j + 1] && after[k] == jobs[if k < i then k else k + 1];
    }
  }

  lemma QuietWorkKeepsOne(jobs: Jobs, action: Action, target: Target)
    requires AtMostOneActive(jobs, target) && action.Work?
    requires !Reactivates(jobs, action) || jobs[action.row].job != ResumeTokenization(target)
    ensures AtMostOneActive(Apply(jobs, action), target)
  {
  }

  /** A worker taking up a stopped resume row keeps at most one active exactly when no
      other row of the aggregate is in flight. */
  lemma ReactivationKeepsOneIff(jobs: Jobs, action: Action, target: Target)
    requires AtMostOneActive(jobs, target) && Reactivates(jobs, action)
    requires jobs[action.row].job == ResumeTokenization(target)
    ensures AtMostOneActive(Apply(jobs, action), target) <==> !HasActive(jobs, target)
  {
    var after, i := Apply(jobs, action), action.row;
    assert Active(after[i], target);
    if HasActive(jobs, target) {
      var j :| 0 <= j < |jobs| && Active(jobs[j], target);
      assert Active(after[j], target) && j != i;
      var low, high := if i < j then i else j, if i < j then j else i;
      assert low < high && Active(after[low], target) && Active(after[high], target);
    }
  }

  lemma StepKeepsOneIff(jobs: Jobs, action: Action, target: Target)
    requires AtMostOneActive(jobs, target) && UpdatesWork(action)
    ensures AtMostOneActive(Apply(jobs, action), target) <==> !DoublesUp(jobs, action, target)
  {
    match action
    case Cleanup => CleanedKeepsOne(jobs, target);
    case Restart(world, faults) => RestartKeepsOneIff(jobs, world, faults, target);
    case Work(_, _, _) =>
      if Reactivates(jobs, action) && jobs[action.row].job == ResumeTokenization(target) {
        ReactivationKeepsOneIff(jobs, action, target);
      } else {
        QuietWorkKeepsOne(jobs, action, target);
      }
    case Enqueue(_, _) =>
    case Delete(i) => if i < |jobs| { DeleteKeepsOne(jobs, i, target); }
  }

  /** At every point of the run at most one resume row of the aggregate is active. */
  predicate AlwaysOne(jobs: Jobs, actions: seq<Action>, target: Target)
  {
    && AtMostOneActive(Run(jobs, actions), target)
    && (actions == [] || AlwaysOne(jobs, actions[..|actions| - 1], target))
  }

  lemma {:induction false} AlwaysOneMeans(jobs: Jobs, actions: seq<Action>, target: Target, n: nat)
    requires AlwaysOne(jobs, actions, target) && n <= |actions|
    ensures AtMostOneActive(Run(jobs, actions[..n]), target)
  {
    if n == |actions| {
      assert actions[..n] == actions;
    } else {
      assert actions[..|actions| - 1][..n] == actions[..n];
      AlwaysOneMeans(jobs, actions[..|actions| - 1], target, n);
    }
  }

  /** From a queue with at most one active resume row for an aggregate, over every run of
      restarts cut off anywhere, cleanups, workers and operators: there is never more than
      one exactly when no worker takes up a stopped row beside one in flight. */
  lemma {:induction false} RunKeepsOneIff(jobs: Jobs, actions: seq<Action>, target: Target)
    requires AtMostOneActive(jobs, target) && forall i :: 0 <= i < |actions| ==> UpdatesWork(actions[i])
    ensures AlwaysOne(jobs, actions, target) <==> NeverDoublesUp(jobs, actions, target)
  {
    if actions != [] {
      var before := actions[..|actions| - 1];
      RunKeepsOneIff(jobs, before, target);
      if AlwaysOne(jobs, before, target) {
        StepKeepsOneIff(Run(jobs, before), actions[|actions| - 1], target);
      }
    }
  }

  /** A stopped row survives a restart as it is: the orphan reset leaves it alone. */
  lemma StoppedRowStays(jobs: Jobs, world: World, faults: Faults, i: nat)
    requires i < |jobs| && !InFlight(jobs[i].status)
    ensures i < |Restarted(jobs, world, faults)| && Restarted(jobs, world, faults)[i] == jobs[i]
  {
  }

  /** Taking up a row that had failed before a completed restart doubles the aggregate's
      resume exactly when the restart pushed a fresh one: when the aggregate is still
      interrupted, no transfer job owns it and recovery does not hold it. */
  lemma RetryAfterRestartDoublesIff(jobs: Jobs, world: World, faults: Faults, i: nat, attempts: nat, target: Target)
    requires DistinctIds(world) && Completes(jobs, world, faults) && !faults.cancelFails && !faults.requeueFails
    requires i < |jobs| && jobs[i].job == ResumeTokenization(target) && !InFlight(jobs[i].status)
    ensures AtMostOneActive(Apply(Restarted(jobs, world, faults), Work(i, Running, attempts)), target)
       <==> !(Interrupted(world, target) && !Owned(jobs, target) && !Held(world, target))
  {
    CompletedRestartIsExact(jobs, world, faults, target);
    StoppedRowStays(jobs, world, faults, i);
    ReactivationKeepsOneIff(Restarted(jobs, world, faults), Work(i, Running, attempts), target);
  }

  // ----- A run that doubles up -----

  const STRANDED := World([1], [], map[1 := OtherMintState], {}, (id: nat) => map[], (target: Target) => true, 5)
  const RETRYABLE := Row(ResumeTokenization(Mint(1)), Failed, 1, 5)
  const UNCUT := Faults(false, false, 3)

  /** One candidate that exists and is restored. */
  lemma OneCandidate(world: World, jobs: Jobs, target: Target)
    requires !Aborts(world, target)
    ensures ScanOf(world, jobs, [target]) == Scan(if Eligible(world, jobs, target) then [target] else [], false)
  {
    assert [target][..0] == [];
  }

  /** A restart that finds one interrupted mint, no unreadable row and nothing in flight. */
  lemma OneMintRestarts(jobs: Jobs, world: World, id: nat)
    requires Candidates(world) == [Mint(id)] && !Aborts(world, Mint(id)) && Readable(jobs)
    requires forall i :: 0 <= i < |jobs| ==> !InFlight(jobs[i].status)
    ensures Completes(jobs, world, UNCUT)
    ensures Restarted(jobs, world, UNCUT) ==
            jobs + if Eligible(world, jobs, Mint(id)) then [FreshRow(Mint(id), world.budget)] else []
  {
    assert Swept(jobs, UNCUT) == jobs;
    OneCandidate(world, jobs, Mint(id));
    var pushes := Pushes(world, jobs);
    assert pushes[..Min(1, |pushes|)] == pushes;
  }

  lemma StrandedWorld()
    ensures Candidates(STRANDED) == [Mint(1)] && !Aborts(STRANDED, Mint(1)) && !Held(STRANDED, Mint(1))
  {
  }

  lemma TwoActions(jobs: Jobs, first: Action, second: Action)
    ensures Run(jobs, [first, second]) == Apply(Apply(jobs, first), second)
  {
    assert [first, second][..1] == [first] && [first][..0] == [];
    assert Run(jobs, [first]) == Apply(Run(jobs, []), first);
  }

  /** A resume row failed with attempts left; a restart pushes a fresh one; the worker then
      retries the failed row beside it, and two run for one mint. */
  lemma RetryBesideFreshRow()
    ensures var actions := [Restart(STRANDED, UNCUT), Work(0, Running, 2)];
            && AtMostOneActive([RETRYABLE], Mint(1)) && (forall i :: 0 <= i < |actions| ==> UpdatesWork(actions[i]))
            && !AtMostOneActive(Run([RETRYABLE], actions), Mint(1))
  {
    StrandedWorld();
    OneMintRestarts([RETRYABLE], STRANDED, 1);
    assert Interrupted(STRANDED, Mint(1)) && !Owned([RETRYABLE], Mint(1));
    TwoActions([RETRYABLE], Restart(STRANDED, UNCUT), Work(0, Running, 2));
    RetryAfterRestartDoublesIff([RETRYABLE], STRANDED, UNCUT, 0, 2, Mint(1));
  }

  /** A market-making transfer that is a dead letter keeps its mint from being resumed. */
  lemma DeadLetterIsLeftAlone()
    ensures Restarted([Row(TransferEquityToMarketMaking(Some(1)), Failed, 5, 5)], STRANDED, UNCUT) ==
            [Row(TransferEquityToMarketMaking(Some(1)), Failed, 5, 5)]
  {
    var jobs := [Row(TransferEquityToMarketMaking(Some(1)), Failed, 5, 5)];
    StrandedWorld();
    assert Owns(jobs[0].job, Mint(1));
    OneMintRestarts(jobs, STRANDED, 1);
  }
}
