/**
 Ownership of interrupted transfers: which job in the durable queue may drive a mint or
 a redemption after a restart, and what the cleanup of finished jobs must keep for that.
 */
module JobQueue {
  import opened Common

  datatype Status = Pending | Queued | Running | Done | Failed | Killed

  datatype Target = Mint(id: nat) | Redemption(id: nat)

  /** A queued job. The payload of an equity transfer is None when it does not parse. */
  datatype Job =
    | ResumeTokenization(target: Target)
    | TransferEquityToMarketMaking(mint: Option<nat>)
    | TransferEquityToHedging(redemption: Option<nat>)
    | TransferUsdcToMarketMaking
    | TransferUsdcToHedging
    | OtherJob(kind: nat)

  datatype Row = Row(job: Job, status: Status, attempts: nat, maxAttempts: nat)

  type Jobs = seq<Row>

  datatype MintState = TokensReceived(symbol: Symbol) | WrapSubmitted(symbol: Symbol) | OtherMintState

  datatype Guard = ActiveTransfer | HeldForRecovery

  /** What a restart reads besides the queue. `guards` is the in-progress map as it stands
      when a mint is examined; `recovers` says whether restoring its state succeeds. */
  datatype World = World(
    interruptedMints: seq<nat>,
    interruptedRedemptions: seq<nat>,
    mints: map<nat, MintState>,
    redemptions: set<nat>,
    guards: nat -> map<Symbol, Guard>,
    recovers: Target -> bool,
    budget: nat)

  /** Where a restart is cut off, and which of its two queue updates fail silently. */
  datatype Faults = Faults(requeueFails: bool, cancelFails: bool, steps: nat)

  // ----- Queue updates -----

  function RequeuedRow(row: Row): Row
  {
    if row.job.ResumeTokenization? && (row.status.Running? || row.status.Queued?) then row.(status := Pending) else row
  }

  function CancelledRow(row: Row): Row
  {
    if row.job.ResumeTokenization? && row.status.Pending? then row.(status := Done) else row
  }

  function Requeued(jobs: Jobs): Jobs { seq(|jobs|, i requires 0 <= i < |jobs| => RequeuedRow(jobs[i])) }

  function Cancelled(jobs: Jobs): Jobs { seq(|jobs|, i requires 0 <= i < |jobs| => CancelledRow(jobs[i])) }

  predicate IsTransfer(job: Job)
  {
    || job.TransferEquityToMarketMaking? || job.TransferEquityToHedging?
    || job.TransferUsdcToMarketMaking? || job.TransferUsdcToHedging?
  }

  /** Rows the periodic cleanup deletes. */
  predicate Finished(row: Row)
  {
    && !IsTransfer(row.job)
    && (row.status.Done? || row.status.Killed? || (row.status.Failed? && row.maxAttempts <= row.attempts))
  }

  function Cleaned(jobs: Jobs): Jobs
  {
    if jobs == [] then []
    else
      var row := jobs[|jobs| - 1];
      Cleaned(jobs[..|jobs| - 1]) + if Finished(row) then [] else [row]
  }

  // ----- What a restart decides -----

  /** The transfer job that owns an aggregate, whatever state that job is in. */
  predicate Owns(job: Job, target: Target)
  {
    match target
    case Mint(id) => job == TransferEquityToMarketMaking(Some(id))
    case Redemption(id) => job == TransferEquityToHedging(Some(id))
  }

  predicate Owned(jobs: Jobs, target: Target)
  {
    exists i :: 0 <= i < |jobs| && Owns(jobs[i].job, target)
  }

  predicate Readable(jobs: Jobs)
  {
    forall i :: 0 <= i < |jobs| ==>
      jobs[i].job != TransferEquityToMarketMaking(None) && jobs[i].job != TransferEquityToHedging(None)
  }

  predicate PreWrapHeldForRecovery(mint: MintState, guards: map<Symbol, Guard>)
  {
    (mint.TokensReceived? || mint.WrapSubmitted?) && mint.symbol in guards && guards[mint.symbol] == HeldForRecovery
  }

  predicate Held(world: World, target: Target)
  {
    target.Mint? && target.id in world.mints && PreWrapHeldForRecovery(world.mints[target.id], world.guards(target.id))
  }

  /** The aggregate is missing from its store, or its state cannot be restored. */
  predicate Aborts(world: World, target: Target)
  {
    !(match target
      case Mint(id) => id in world.mints
      case Redemption(id) => id in world.redemptions) || !world.recovers(target)
  }

  predicate Eligible(world: World, jobs: Jobs, target: Target)
  {
    !Owned(jobs, target) && !Held(world, target)
  }

  /** Interrupted aggregates in the order they are examined: mints, then redemptions. */
  function Candidates(world: World): seq<Target>
  {
    seq(|world.interruptedMints|, i requires 0 <= i < |world.interruptedMints| => Mint(world.interruptedMints[i]))
    + seq(|world.interruptedRedemptions|,
        i requires 0 <= i < |world.interruptedRedemptions| => Redemption(world.interruptedRedemptions[i]))
  }

  datatype Scan = Scan(pushed: seq<Target>, aborted: bool)

  function ScanOf(world: World, jobs: Jobs, candidates: seq<Target>): Scan
  {
    if candidates == [] then Scan([], false)
    else
      var scan := ScanOf(world, jobs, candidates[..|candidates| - 1]);
      var target := candidates[|candidates| - 1];
      if scan.aborted then scan
      else if Aborts(world, target) then Scan(scan.pushed, true)
      else if Eligible(world, jobs, target) then Scan(scan.pushed + [target], false)
      else scan
  }

  function FreshRow(target: Target, budget: nat): Row { Row(ResumeTokenization(target), Pending, 0, budget) }

  function FreshRows(targets: seq<Target>, budget: nat): Jobs
  {
    seq(|targets|, i requires 0 <= i < |targets| => FreshRow(targets[i], budget))
  }

  /** The queue once the two updates have been attempted. */
  function Swept(jobs: Jobs, faults: Faults): Jobs
  {
    var requeued := if faults.requeueFails then jobs else Requeued(jobs);
    if faults.cancelFails then requeued else Cancelled(requeued)
  }

  /** The targets a restart would push if nothing cut it off. */
  function Pushes(world: World, jobs: Jobs): seq<Target>
  {
    if Readable(jobs) then ScanOf(world, jobs, Candidates(world)).pushed else []
  }

  /** The queue a restart leaves behind, cut off after `faults.steps` durable updates. */
  function Restarted(jobs: Jobs, world: World, faults: Faults): Jobs
  {
    if faults.steps == 0 then jobs
    else if faults.steps == 1 then (if faults.requeueFails then jobs else Requeued(jobs))
    else
      var swept := Swept(jobs, faults);
      var pushes := Pushes(world, swept);
      swept + FreshRows(pushes[..Min(faults.steps - 2, |pushes|)], world.budget)
  }

  /** The restart ran to its end: nothing cut it off and nothing was missing. */
  predicate Completes(jobs: Jobs, world: World, faults: Faults)
  {
    var swept := Swept(jobs, faults);
    && faults.steps >= 2 + |Pushes(world, swept)|
    && Readable(swept) && !ScanOf(world, swept, Candidates(world)).aborted
  }

  datatype Outcome = Completed | Stopped

  class JobStore {
    var jobs: Jobs

    constructor ()
      ensures jobs == []
    {
      jobs := [];
    }

    method Push(target: Target, budget: nat)
      modifies this
      ensures jobs == old(jobs) + [FreshRow(target, budget)]
    {
      jobs := jobs + [FreshRow(target, budget)];
    }

    /** Startup resume, stopped by a missing aggregate, an unreadable transfer job, a
        failed restore, or a crash after `faults.steps` durable updates. */
    method RecoverInterruptedTokenizationAggregates(world: World, faults: Faults) returns (outcome: Outcome)
      modifies this
      ensures jobs == Restarted(old(jobs), world, faults)
      ensures outcome.Completed? <==> Completes(old(jobs), world, faults)
    {
      var steps := faults.steps;
      if steps == 0 { return Stopped; }
      if !faults.requeueFails { jobs := Requeued(jobs); }
      if steps == 1 { return Stopped; }
      if !faults.cancelFails { jobs := Cancelled(jobs); }
      var loaded := jobs;
      if !Readable(loaded) { return Stopped; }
      outcome := PushEligible(world, steps - 2);
    }

    /** The two loops over interrupted mints and then redemptions. Ownership is read once,
        before the first push. */
    method PushEligible(world: World, allowed: nat) returns (outcome: Outcome)
      requires Readable(jobs)
      modifies this
      ensures var pushes := Pushes(world, old(jobs));
              && jobs == old(jobs) + FreshRows(pushes[..Min(allowed, |pushes|)], world.budget)
              && (outcome.Completed? <==> |pushes| <= allowed && !ScanOf(world, old(jobs), Candidates(world)).aborted)
    {
      var loaded, steps, candidates := jobs, allowed, Candidates(world);
      ghost var scan := Scan([], false);
      ghost var pushes := Pushes(world, loaded);
      for i := 0 to |candidates|
        invariant scan == ScanOf(world, loaded, candidates[..i]) && !scan.aborted
        invariant 0 <= steps <= allowed && allowed - steps <= |pushes| && scan.pushed == pushes[..allowed - steps]
        invariant jobs == loaded + FreshRows(scan.pushed, world.budget)
      {
        ScanStep(world, loaded, candidates, i);
        scan := ScanOf(world, loaded, candidates[..i + 1]);
        var target := candidates[i];
        if Aborts(world, target) { return Stopped; }
        if Eligible(world, loaded, target) {
          if steps == 0 { return Stopped; }
          Push(target, world.budget);
          steps := steps - 1;
        }
      }
      assert candidates[..|candidates|] == candidates;
      return Completed;
    }
  }

  /** One more candidate; what has been pushed so far is a prefix of everything pushed. */
  lemma ScanStep(world: World, jobs: Jobs, candidates: seq<Target>, i: nat)
    requires i < |candidates|
    ensures var before, after := ScanOf(world, jobs, candidates[..i]), ScanOf(world, jobs, candidates[..i + 1]);
            && after == (if before.aborted then before
                         else if Aborts(world, candidates[i]) then Scan(before.pushed, true)
                         else if Eligible(world, jobs, candidates[i]) then Scan(before.pushed + [candidates[i]], false)
                         else before)
            && after.pushed <= ScanOf(world, jobs, candidates).pushed
            && (after.aborted ==> ScanOf(world, jobs, candidates) == after)
  {
    assert candidates[..i + 1][..i] == candidates[..i];
    ScanGrows(world, jobs, candidates, i + 1);
  }

  lemma {:induction false} ScanGrows(world: World, jobs: Jobs, candidates: seq<Target>, n: nat)
    requires n <= |candidates|
    ensures var part, whole := ScanOf(world, jobs, candidates[..n]), ScanOf(world, jobs, candidates);
            part.pushed <= whole.pushed && (part.aborted ==> whole == part)
    decreases |candidates|
  {
    if n == |candidates| {
      assert candidates[..n] == candidates;
    } else {
      var front := candidates[..|candidates| - 1];
      assert front[..n] == candidates[..n];
      ScanGrows(world, jobs, front, n);
    }
  }
}
