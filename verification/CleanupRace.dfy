/**
 What a cleanup pass does to leases and jobs that appeared after its scan: neither the rollback nor
 the cancellation looks at the age of the lease again.
 */
module CleanupRace {
  import opened Options
  import opened History
  import opened Rows
  import opened Protocol
  import opened ProtocolInvariant
  import opened JobSafety
  import opened Leases
  import opened Lifecycle

  /** The pass stands at `phase` with domain `d` at hand. */
  predicate At(s: State, d: DomainId, phase: CleanPhase) {
    s.cleaner.queue != [] && s.cleaner.queue[0] == d && s.cleaner.phase == phase
  }

  lemma WriteEnds(s: State, a: Step, d: DomainId)
    requires Enabled(s, a) && a.Clean? && At(s, d, CleanWrite)
    ensures !Locked(Next(s, a).db, d)
  {
  }

  /**
   The rollback of a cleanup pass ends a lease that was not stale by the cutoff of its scan
   exactly when that lease was taken after the scan, with a lock time past the cutoff.
   */
  lemma CleanupEndsFreshLeaseIff(run: seq<State>, steps: seq<Step>, k: nat, d: DomainId) returns (i: nat)
    requires IsRun(run, steps) && Init(run[0]) && k < |steps|
    requires steps[k].Clean? && At(run[k], d, CleanWrite) && Locked(run[k].db, d)
    ensures i < k && ScannedAt(run, steps, i, k, d) && !Locked(run[k + 1].db, d)
    ensures var cutoff := run[i].clock - run[i].cfg.timeout;
            !StaleLease(run[k].db.domains[d], cutoff) <==>
              exists m :: i < m < k && LeaseFrom(run, steps, d, m, k) && LockTime(run[m], steps[m]) >= cutoff
  {
    hide Next, Enabled, LeaseFrom;
    WriteEnds(run[k], steps[k], d);
    i := QueueFromScan(run, steps, k, d);
    FreshLeaseIff(run, steps, i, k, d);
  }

  lemma FreshLeaseIff(run: seq<State>, steps: seq<Step>, i: nat, k: nat, d: DomainId)
    requires IsRun(run, steps) && i < k < |run| && ScannedAt(run, steps, i, k, d) && Locked(run[k].db, d)
    ensures var cutoff := run[i].clock - run[i].cfg.timeout;
            !StaleLease(run[k].db.domains[d], cutoff) <==>
              exists m :: i < m < k && LeaseFrom(run, steps, d, m, k) && LockTime(run[m], steps[m]) >= cutoff
  {
    hide Next, Enabled;
    forall m | i < m < k && LeaseFrom(run, steps, d, m, k)
      ensures run[k].db.domains[d].generatingSince == Some(LockTime(run[m], steps[m]))
    {
      LeaseFromStart(run, steps, d, m, k);
    }
    var m := LeaseOrigin(run, steps, d, i, k);
    if LeaseHeld(run, steps, d, i, k) {
      LeaseKeepsStart(run, steps, d, i, k);
      NoLeaseFromWhileHeld(run, steps, d, i, k);
    } else {
      assert m != i;
      assert LeaseFrom(run, steps, d, m, k);
    }
  }

  lemma NoLeaseFromWhileHeld(run: seq<State>, steps: seq<Step>, d: DomainId, i: nat, k: nat)
    requires IsRun(run, steps) && LeaseHeld(run, steps, d, i, k)
    ensures forall m :: i <= m < k ==> !LeaseFrom(run, steps, d, m, k)
  {
  }

  // ---------------------------------------------------------------- jobs

  /** Step `a` registers a job of `d`. */
  predicate Registers(s: State, a: Step, d: DomainId) {
    a.Start? && a.r in s.starters && s.starters[a.r].domain == d && s.starters[a.r].pc.BeginRegister?
  }

  lemma IssueStep(s: State, a: Step, t: Token)
    requires Ok(s) && Enabled(s, a) && t !in s.issued && t in Next(s, a).issued
    ensures Registers(s, a, Next(s, a).issued[t])
  {
  }

  lemma RegisterStep(s: State, a: Step, d: DomainId)
    requires Enabled(s, a) && Registers(s, a, d)
    ensures Next(s, a).jobs.lastToken == s.jobs.lastToken + 1
    ensures d in Next(s, a).jobs.entries && Next(s, a).jobs.entries[d] == s.jobs.lastToken + 1
  {
  }

  /** The registry entry of a domain is only ever replaced by a newer token. */
  lemma {:induction false} EntryGrows(run: seq<State>, steps: seq<Step>, i: nat, k: nat, d: DomainId, n: Token)
    requires IsRun(run, steps) && Init(run[0]) && i <= k < |run|
    requires d in run[i].jobs.entries && run[i].jobs.entries[d] >= n && run[i].jobs.lastToken >= n
    ensures run[k].jobs.lastToken >= n && (d in run[k].jobs.entries ==> run[k].jobs.entries[d] >= n)
    decreases k
  {
    hide Next, Enabled, Ok;
    if i < k {
      EntryGrows(run, steps, i, k - 1, d, n);
      RunOk(run, steps, k - 1);
      StepAdvances(run[k - 1], steps[k - 1]);
    }
  }

  lemma {:induction false} IssuedStays(run: seq<State>, steps: seq<Step>, i: nat, k: nat, t: Token)
    requires IsRun(run, steps) && Init(run[0]) && i <= k < |run| && t in run[i].issued
    ensures t in run[k].issued && run[k].issued[t] == run[i].issued[t]
    decreases k
  {
    hide Next, Enabled, Ok;
    if i < k {
      IssuedStays(run, steps, i, k - 1, t);
      RunOk(run, steps, k - 1);
      StepAdvances(run[k - 1], steps[k - 1]);
    }
  }

  /** The registered job of a domain is a new one exactly when one was registered in between. */
  lemma NewJobIff(run: seq<State>, steps: seq<Step>, i: nat, k: nat, d: DomainId)
    requires IsRun(run, steps) && Init(run[0]) && i <= k < |run| && d in run[k].jobs.entries
    ensures run[k].jobs.entries[d] !in run[i].issued <==> exists m :: i <= m < k && Registers(run[m], steps[m], d)
  {
    hide Next, Enabled;
    var t := run[k].jobs.entries[d];
    RunOk(run, steps, i);
    RunOk(run, steps, k);
    if t !in run[i].issued {
      var ps := seq(|run|, x requires 0 <= x < |run| => t in run[x].issued);
      var m := LastRise(ps, i, k);
      assert !ps[m] && ps[m + 1];
      RunOk(run, steps, m);
      IssueStep(run[m], steps[m], t);
      IssuedStays(run, steps, m + 1, k, t);
      assert Registers(run[m], steps[m], d);
    } else {
      forall m | i <= m < k ensures !Registers(run[m], steps[m], d) {
        if Registers(run[m], steps[m], d) {
          RegisterStep(run[m], steps[m], d);
          EntryGrows(run, steps, m + 1, k, d, run[m].jobs.lastToken + 1);
          LastTokenGrows(run, steps, i, m);
        }
      }
    }
  }

  lemma CancelEnds(s: State, a: Step, d: DomainId)
    requires Enabled(s, a) && a.Clean? && At(s, d, CleanCancel) && d in s.jobs.entries
    ensures s.jobs.entries[d] in Next(s, a).jobs.done && !Registers(s, a, d)
  {
  }

  /**
   The cancellation of a cleanup pass hits a job registered after its scan exactly when some start
   of the domain registered between the scan and the cancellation.
   */
  lemma CleanupCancelsNewJobIff(run: seq<State>, steps: seq<Step>, k: nat, d: DomainId) returns (i: nat)
    requires IsRun(run, steps) && Init(run[0]) && k < |steps|
    requires steps[k].Clean? && At(run[k], d, CleanCancel) && d in run[k].jobs.entries
    ensures i < k && ScannedAt(run, steps, i, k, d) && run[k].jobs.entries[d] in run[k + 1].jobs.done
    ensures run[k].jobs.entries[d] !in run[i].issued <==> exists m :: i < m < k && Registers(run[m], steps[m], d)
  {
    hide Next, Enabled, Registers;
    CancelEnds(run[k], steps[k], d);
    i := QueueFromScan(run, steps, k, d);
    NewJobIff(run, steps, i, k, d);
    assert !Registers(run[i], steps[i], d) by { NotARegistration(run[i], steps[i], d); }
  }

  lemma NotARegistration(s: State, a: Step, d: DomainId)
    requires !a.Start?
    ensures !Registers(s, a, d)
  {
  }
}
