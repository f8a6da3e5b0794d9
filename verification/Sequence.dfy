/**
 Automatic attempts run one after the other, so a failure of an attempt that had read its row
 before the previous failure means that a lease was lost while its job was running.
 */
module Sequence {
  import opened Rows
  import Backoff
  import opened Protocol
  import opened Leases
  import opened Origins
  import opened RenewalRate

  lemma AutoArrivesAlone(s: State, a: Step, r: StarterId)
    requires Enabled(s, a) && a.Arrive? && a.auto && r in s.starters
    ensures !s.starters[r].auto
  {
  }

  /** An automatic attempt arrives only when no other is under way. */
  lemma AutosInSequence(run: seq<State>, steps: seq<Step>, p: nat, k: nat, r: StarterId, p': nat)
    requires IsRun(run, steps) && UnderWay(run, steps, p, k, r) && steps[p].auto
    requires p < p' <= k && p' < |steps|
    ensures !(steps[p'].Arrive? && steps[p'].auto)
  {
    hide Next, Enabled;
    if steps[p'].Arrive? && steps[p'].auto {
      SameKind(run, steps, p, p', r);
      AutoArrivesAlone(run[p'], steps[p'], r);
    }
  }

  lemma SpawnLeaves(s: State, a: Step, r: StarterId, t: Token)
    requires Enabled(s, a) && r in s.starters && s.starters[r].pc == Spawn(t) && a.Start? && a.r == r
    ensures r !in Next(s, a).starters
  {
  }

  /** The lease that attempt `at` took for domain `d` did not last until moment `k`. */
  ghost predicate LeaseLost(run: seq<State>, steps: seq<Step>, d: DomainId, at: Attempt, k: nat)
    requires IsRun(run, steps) && k < |run|
  {
    exists i: nat, x: nat :: Took(run, steps, d, at, i) && i < x < k && !Locked(run[x].db, d)
  }

  /** Attempt `at` takes the lease at step `i`, after its checks and before starting its worker. */
  ghost predicate Took(run: seq<State>, steps: seq<Step>, d: DomainId, at: Attempt, i: nat)
    requires IsRun(run, steps)
  {
    at.arrived < i < at.spawned < |steps| && Locks(run[i], steps[i], d) && steps[i].r == at.r
  }

  /** The row an automatic attempt reads is not generating, or the attempt does not pass its checks. */
  lemma ReadsFreeRow(run: seq<State>, steps: seq<Step>, at: Attempt, d: DomainId)
    requires IsRun(run, steps) && at.arrived < at.passed < at.spawned < |steps|
    requires UnderWay(run, steps, at.arrived, at.spawned, at.r)
    requires steps[at.arrived] == Arrive(at.r, d, true, true) && Passes(run[at.passed], steps[at.passed], at.r)
    ensures !Locked(run[at.arrived].db, d)
  {
    hide Next, Enabled;
    SameKind(run, steps, at.arrived, at.passed, at.r);
    SnapshotStands(run, steps, at.arrived, at.passed, at.r);
  }

  /** The attempt took the lease between its arrival and the start of its worker. */
  lemma AttemptTook(run: seq<State>, steps: seq<Step>, at: Attempt, t: Token, d: DomainId) returns (i: nat)
    requires IsRun(run, steps) && Init(run[0]) && UnderWay(run, steps, at.arrived, at.spawned, at.r) && at.spawned < |steps|
    requires steps[at.arrived].d == d && run[at.spawned].starters[at.r].pc == Spawn(t)
    ensures Took(run, steps, d, at, i)
  {
    hide Next, Enabled, Locks;
    SameKind(run, steps, at.arrived, at.spawned, at.r);
    i := TookLease(run, steps, at.spawned, at.r);
    if i <= at.arrived {
      JustArrived(run, steps, at.arrived, at.r);
      assert false;
    }
  }

  lemma JustArrived(run: seq<State>, steps: seq<Step>, p: nat, r: StarterId)
    requires IsRun(run, steps) && p < |steps| && steps[p].Arrive? && steps[p].r == r
    ensures r in run[p + 1].starters && run[p + 1].starters[r].pc == Prepare
  {
    ArrivedAtStart(run[p], steps[p]);
  }

  /** Two automatic attempts that both started workers: one had started its worker before the other arrived. */
  lemma OneBeforeOther(run: seq<State>, steps: seq<Step>, g: nat, f: nat, b: Attempt, a: Attempt, tb: Token, ta: Token)
    requires IsRun(run, steps) && f < |run| && g < |run| && ta != tb
    requires AttemptOf(run, steps, f, ta, a) && AttemptOf(run, steps, g, tb, b)
    requires run[f].workers[ta].auto && run[g].workers[tb].auto
    ensures a.spawned < b.arrived || b.spawned < a.arrived
  {
    hide Next, Enabled, Passes;
    if a.arrived < b.arrived {
      if b.arrived <= a.spawned {
        AutosInSequence(run, steps, a.arrived, a.spawned, a.r, b.arrived);
      }
    } else if b.arrived < a.arrived {
      if a.arrived <= b.spawned {
        AutosInSequence(run, steps, b.arrived, b.spawned, b.r, a.arrived);
      }
    } else {
      assert a.r == b.r;
      SpawnIsLast(run, steps, a, b, ta);
      SpawnIsLast(run, steps, b, a, tb);
    }
  }

  /** An attempt is over once it has started its worker. */
  lemma SpawnIsLast(run: seq<State>, steps: seq<Step>, a: Attempt, b: Attempt, t: Token)
    requires IsRun(run, steps) && a.r == b.r && a.arrived == b.arrived && a.spawned < |steps|
    requires UnderWay(run, steps, a.arrived, a.spawned, a.r) && UnderWay(run, steps, b.arrived, b.spawned, b.r)
    requires run[a.spawned].starters[a.r].pc == Spawn(t) && steps[a.spawned].Start? && steps[a.spawned].r == a.r
    ensures b.spawned <= a.spawned
  {
    assert run[a.spawned + 1] == Next(run[a.spawned], steps[a.spawned]);
    SpawnLeaves(run[a.spawned], steps[a.spawned], a.r, t);
  }

  /**
   A failure of an attempt that had read its row before the previous failure: the lease of one of
   the two attempts was lost before the first failure was recorded.
   */
  lemma OldAttemptNeedsRelease(run: seq<State>, steps: seq<Step>, d: DomainId, f: nat, g: nat) returns (a: Attempt, b: Attempt)
    requires IsRun(run, steps) && Init(run[0]) && f < g < |steps|
    requires Consecutive(run, steps, d, f, g) && OldAttempt(run, steps, f, g)
    ensures MovedBy(run, steps, f, a) && MovedBy(run, steps, g, b)
    ensures LeaseLost(run, steps, d, a, f) || LeaseLost(run, steps, d, b, f)
  {
    hide Next, Enabled, Passes, Locks;
    var ta, tb := steps[f].token, steps[g].token;
    a := WorkerStems(run, steps, f, ta);
    b :| MovedBy(run, steps, g, b) && b.arrived < f;
    RecordsOnce(run, steps, f, g, ta);
    OneBeforeOther(run, steps, g, f, b, a, tb, ta);
    if a.spawned < b.arrived {
      LostBefore(run, steps, d, a, b, ta, f);
    } else {
      LostBefore(run, steps, d, b, a, tb, f);
    }
  }

  /** An attempt that arrives after another started its worker, and passes its checks, has found the lease gone. */
  lemma LostBefore(run: seq<State>, steps: seq<Step>, d: DomainId, a: Attempt, b: Attempt, ta: Token, f: nat)
    requires IsRun(run, steps) && Init(run[0]) && f < |run| && a.spawned < b.arrived < f
    requires UnderWay(run, steps, a.arrived, a.spawned, a.r) && steps[a.arrived].d == d
    requires run[a.spawned].starters[a.r].pc == Spawn(ta)
    requires b.arrived < b.passed < b.spawned < |steps| && UnderWay(run, steps, b.arrived, b.spawned, b.r)
    requires steps[b.arrived] == Arrive(b.r, d, true, true) && Passes(run[b.passed], steps[b.passed], b.r)
    ensures LeaseLost(run, steps, d, a, f)
  {
    hide Next, Enabled, Passes, Locks;
    var i := AttemptTook(run, steps, a, ta, d);
    ReadsFreeRow(run, steps, b, d);
    assert Took(run, steps, d, a, i) && i < b.arrived < f && !Locked(run[b.arrived].db, d);
  }

  /** No failing attempt lost its lease before its worker recorded the failure. */
  ghost predicate LeasesHold(run: seq<State>, steps: seq<Step>, d: DomainId, fs: seq<nat>)
    requires IsRun(run, steps) && FailureSeries(run, steps, d, fs)
  {
    forall m, at :: 0 <= m < |fs| && MovedBy(run, steps, fs[m], at) ==> !LeaseLost(run, steps, d, at, fs[m])
  }

  /** As long as leases hold until their jobs have recorded the failure, every attempt is a fresh one. */
  lemma FreshWhileLeasesHold(run: seq<State>, steps: seq<Step>, d: DomainId, fs: seq<nat>)
    requires IsRun(run, steps) && Init(run[0]) && FailureSeries(run, steps, d, fs) && LeasesHold(run, steps, d, fs)
    ensures FreshAttempts(run, steps, d, fs)
  {
    hide Next, Enabled, Init, MovedBy, Consecutive, Took, OldAttempt, LeaseLost;
    forall m | 0 < m < |fs| ensures !OldAttempt(run, steps, fs[m - 1], fs[m]) {
      if OldAttempt(run, steps, fs[m - 1], fs[m]) {
        var a, b := OldAttemptNeedsRelease(run, steps, d, fs[m - 1], fs[m]);
        LostLater(run, steps, d, b, fs[m - 1], fs[m]);
      }
    }
  }

  lemma LostLater(run: seq<State>, steps: seq<Step>, d: DomainId, at: Attempt, f: nat, g: nat)
    requires IsRun(run, steps) && f <= g < |run|
    ensures LeaseLost(run, steps, d, at, f) ==> LeaseLost(run, steps, d, at, g)
  {
    hide Took, Locked;
  }

  /**
   The failing attempts that can have started by time `t` are at most the logarithmic ramp plus
   one per `max` of elapsed time, plus one, as long as no failing job loses its lease.
   */
  lemma FailureRateWhileLeasesHold(run: seq<State>, steps: seq<Step>, d: DomainId, fs: seq<nat>, at: Attempt)
    requires IsRun(run, steps) && Init(run[0]) && FailureSeries(run, steps, d, fs) && LeasesHold(run, steps, d, fs)
    requires 0 < run[0].cfg.backoffBase && 0 < run[0].cfg.backoffMax
    requires Backoff.RampFits(run[0].cfg.backoffBase, run[0].cfg.backoffMax)
    requires MovedBy(run, steps, fs[|fs| - 1], at) && at.passed < |run|
    ensures var base, max, n := run[0].cfg.backoffBase, run[0].cfg.backoffMax, |fs|;
            n == 1 || (n - 1 - Backoff.Ramp(base, max)) * max <= run[at.passed].clock - run[fs[0]].clock
  {
    hide Next, Enabled, Init, MovedBy, FailureSeries, LeasesHold, FreshAttempts;
    FreshWhileLeasesHold(run, steps, d, fs);
    FailureRate(run, steps, d, fs, run[at.passed].clock);
  }
}
