/** How often automatic renewal of a failing domain can be retried, over whole runs. */
module RenewalRate {
  import opened Options
  import opened Rows
  import Backoff
  import opened Protocol
  import opened Leases
  import opened Origins

  /** Step `a` records the failure of an automatic renewal of `d`. */
  predicate FailsAuto(s: State, a: Step, d: DomainId) {
    a.Work? && a.token in s.workers && s.workers[a.token].domain == d && s.workers[a.token].auto
    && s.workers[a.token].pc.FailWrite? && Live(s.db, d)
  }

  /** Step `a` may clear the failures of `d`, or takes the row away. */
  predicate ClearsBackoff(s: State, a: Step, d: DomainId) {
    || Saves(s, a, d)
    || a == Handle(SwitchAutoRenew(d, true))
    || (a.Handle? && a.handler.ClaimDomain? && a.handler.d == d)
    || Resets(s, a, d)
  }

  predicate SameBackoff(db: Database, db': Database, d: DomainId) {
    Live(db, d) ==> Live(db', d) && db'.domains[d].failures == db.domains[d].failures && db'.domains[d].backoffUntil == db.domains[d].backoffUntil
  }

  lemma HandlerOnBackoff(db: Database, h: Handler, now: int, d: DomainId)
    requires DbOk(db)
    requires h != SwitchAutoRenew(d, true) && !(h.ClaimDomain? && h.d == d)
    requires h != DeleteDomain(d) && h != RemoveDomain(d) && h != RestoreDomain(d)
    ensures SameBackoff(db, HandlerDb(db, h, now), d)
  {
  }

  lemma OpOnBackoff(s: State, op: DbOp, d: DomainId)
    requires DbOk(s.db) && !op.DoHandler?
    requires op.DoSave? ==> op.rec.domainId != d
    requires op.DoFail? && op.auto ==> op.d != d
    ensures SameBackoff(s.db, Apply(s, op), d)
  {
  }

  lemma StepOnBackoff(s: State, a: Step, d: DomainId)
    requires Enabled(s, a) && DbOk(s.db) && Live(s.db, d) && !FailsAuto(s, a, d) && !ClearsBackoff(s, a, d)
    ensures SameBackoff(s.db, Next(s, a).db, d)
  {
    StepIsOp(s, a);
    if a.Handle? {
      HandlerOnBackoff(s.db, a.handler, s.clock, d);
    } else {
      OpOnBackoff(s, OpOf(s, a), d);
    }
  }

  lemma FailJobSets(db: Database, d: DomainId, message: string, base: int, max: int, now: int)
    requires Live(db, d)
    ensures var db', n := FailJob(db, d, message, true, base, max, now), db.domains[d].failures + 1;
            && Live(db', d) && db'.domains[d].failures == n
            && db'.domains[d].backoffUntil == Some(now + Backoff.Duration(base, max, n))
  {
  }

  lemma FailureSets(s: State, a: Step, d: DomainId)
    requires Enabled(s, a) && FailsAuto(s, a, d)
    ensures var db', n := Next(s, a).db, s.db.domains[d].failures + 1;
            && Live(db', d) && db'.domains[d].failures == n
            && db'.domains[d].backoffUntil == Some(s.clock + Backoff.Duration(s.cfg.backoffBase, s.cfg.backoffMax, n))
  {
    FailJobSets(s.db, d, s.workers[a.token].pc.message, s.cfg.backoffBase, s.cfg.backoffMax, s.clock);
  }

  /** Nothing between steps `f` and `g` records a failure of `d` or clears its backoff. */
  ghost predicate Undisturbed(run: seq<State>, steps: seq<Step>, d: DomainId, f: nat, g: nat)
    requires IsRun(run, steps) && g <= |steps|
  {
    forall k :: f < k < g ==> !FailsAuto(run[k], steps[k], d) && !ClearsBackoff(run[k], steps[k], d)
  }

  /** The failure count and the deadline stand as the failure at `f` left them. */
  lemma {:induction false} DeadlineStands(run: seq<State>, steps: seq<Step>, d: DomainId, f: nat, k: nat)
    requires IsRun(run, steps) && Init(run[0]) && f < k <= |steps|
    requires FailsAuto(run[f], steps[f], d) && Undisturbed(run, steps, d, f, k)
    ensures var db, n := run[k].db, run[f].db.domains[d].failures + 1;
            && Live(db, d) && db.domains[d].failures == n
            && db.domains[d].backoffUntil == Some(run[f].clock + Backoff.Duration(run[f].cfg.backoffBase, run[f].cfg.backoffMax, n))
    decreases k
  {
    hide Next;
    if k == f + 1 {
      FailureSets(run[f], steps[f], d);
    } else {
      DeadlineStands(run, steps, d, f, k - 1);
      RowInvariant(run, steps, k - 1);
      StepOnBackoff(run[k - 1], steps[k - 1], d);
    }
  }

  lemma SnapshotTaken(s: State, a: Step)
    requires Enabled(s, a) && a.Arrive?
    ensures Next(s, a).starters[a.r].snapshot == s.db.domains[a.d]
  {
  }

  lemma {:induction false} SnapshotStands(run: seq<State>, steps: seq<Step>, p: nat, q: nat, r: StarterId)
    requires IsRun(run, steps) && p < q <= |steps| && steps[p].Arrive? && steps[p].r == r
    requires forall k :: p < k <= q ==> r in run[k].starters
    ensures run[q].starters[r].snapshot == run[p].db.domains[steps[p].d]
    decreases q
  {
    hide Next;
    if p + 1 == q {
      SnapshotTaken(run[p], steps[p]);
    } else {
      SnapshotStands(run, steps, p, q - 1, r);
      assert run[q - 1 + 1] == Next(run[q - 1], steps[q - 1]) && r in run[q].starters;
      SnapshotStep(run[q - 1], steps[q - 1], r);
    }
  }

  lemma SnapshotStep(s: State, a: Step, r: StarterId)
    requires Enabled(s, a) && r in s.starters && r in Next(s, a).starters
    ensures Next(s, a).starters[r].snapshot == s.starters[r].snapshot
  {
  }

  lemma ClockStep(s: State, a: Step)
    requires Enabled(s, a)
    ensures s.clock <= Next(s, a).clock
  {
  }

  lemma {:induction false} ClockMonotone(run: seq<State>, steps: seq<Step>, i: nat, j: nat)
    requires IsRun(run, steps) && i <= j < |run|
    ensures run[i].clock <= run[j].clock
    decreases j
  {
    hide Next;
    if i < j {
      ClockMonotone(run, steps, i, j - 1);
      ClockStep(run[j - 1], steps[j - 1]);
    }
  }

  /**
   A renewal attempt that read its row at step `p`, after the failure recorded at step `f` with
   nothing recorded or cleared in between, is admitted no earlier than that failure's time plus
   the backoff for its failure count.
   */
  lemma AttemptWaitsForBackoff(run: seq<State>, steps: seq<Step>, d: DomainId, f: nat, p: nat, q: nat, r: StarterId)
    requires IsRun(run, steps) && Init(run[0]) && f < p < q < |steps|
    requires FailsAuto(run[f], steps[f], d) && Undisturbed(run, steps, d, f, p)
    requires steps[p] == Arrive(r, d, true, true) && Passes(run[q], steps[q], r) && run[q].starters[r].auto
    requires forall k :: p < k <= q ==> r in run[k].starters
    ensures run[q].clock >= run[f].clock
              + Backoff.Duration(run[f].cfg.backoffBase, run[f].cfg.backoffMax, run[f].db.domains[d].failures + 1)
  {
    hide Next;
    DeadlineStands(run, steps, d, f, p);
    SnapshotStands(run, steps, p, q, r);
  }

  /**
   Whom the checks let go on, judged by the row the attempt read when it arrived: the CNAME must
   verify and a target be set; a renewal attempt of the scan also needs the owner's switch on, a
   status other than generating and pending, and a deadline that is over.
   */
  lemma ChecksAdmitIff(run: seq<State>, steps: seq<Step>, p: nat, q: nat, r: StarterId)
    requires IsRun(run, steps) && UnderWay(run, steps, p, q, r) && q < |steps|
    requires steps[q].Start? && steps[q].r == r && run[q].starters[r].pc == Prepare
    ensures Live(run[p].db, steps[p].d) && (steps[p].auto ==> steps[p].renew) && (!steps[p].renew ==> !HasCert(run[p].db, steps[p].d))
    ensures var row := run[p].db.domains[steps[p].d];
            r in run[q + 1].starters <==>
              && steps[q].ok && row.cnameTarget != ""
              && (steps[p].auto ==>
                    && row.autoRenew && row.status != Generating && row.status != Pending
                    && (row.backoffUntil == None || row.backoffUntil.value <= run[q].clock))
    ensures r in run[q + 1].starters <==> Passes(run[q], steps[q], r)
  {
    ArrivalIsFit(run[p], steps[p]);
    SnapshotStands(run, steps, p, q, r);
    SameKind(run, steps, p, q, r);
    PrepareMoves(run[q], steps[q], r);
  }

  lemma ArrivalIsFit(s: State, a: Step)
    requires Enabled(s, a) && a.Arrive?
    ensures Live(s.db, a.d) && (a.auto ==> a.renew) && (!a.renew ==> !HasCert(s.db, a.d))
  {
  }

  lemma PrepareMoves(s: State, a: Step, r: StarterId)
    requires Enabled(s, a) && a.Start? && a.r == r && s.starters[r].pc == Prepare
    ensures r in Next(s, a).starters <==> Passes(s, a, r)
  {
  }

  // ---------------------------------------------------------------- many failures in a row

  /** Failures at `f` and `g`, with none in between and nothing cleared. */
  ghost predicate Consecutive(run: seq<State>, steps: seq<Step>, d: DomainId, f: nat, g: nat)
    requires IsRun(run, steps) && f < g < |steps|
  {
    FailsAuto(run[f], steps[f], d) && FailsAuto(run[g], steps[g], d) && Undisturbed(run, steps, d, f, g)
  }

  /** The worker that moves at step `g` stems from attempt `at`. */
  ghost predicate MovedBy(run: seq<State>, steps: seq<Step>, g: nat, at: Attempt)
    requires IsRun(run, steps) && g < |steps|
  {
    steps[g].Work? && AttemptOf(run, steps, g, steps[g].token, at)
  }

  /** The attempt whose worker fails at `g` had arrived, and read the row, before step `f`. */
  ghost predicate OldAttempt(run: seq<State>, steps: seq<Step>, f: nat, g: nat)
    requires IsRun(run, steps) && g < |steps|
  {
    exists at :: MovedBy(run, steps, g, at) && at.arrived < f
  }

  /** Two recorded failures come from two workers, and the second worker from an attempt that passed its checks. */
  lemma FailureHasAttempt(run: seq<State>, steps: seq<Step>, d: DomainId, f: nat, g: nat) returns (at: Attempt)
    requires IsRun(run, steps) && Init(run[0]) && f < g < |steps|
    requires FailsAuto(run[f], steps[f], d) && FailsAuto(run[g], steps[g], d)
    ensures steps[f].token != steps[g].token
    ensures MovedBy(run, steps, g, at) && steps[at.arrived] == Arrive(at.r, d, true, true)
  {
    hide Next, Enabled;
    RecordsOnce(run, steps, f, g, steps[f].token);
    at := WorkerStems(run, steps, g, steps[g].token);
  }

  /** The sum of the delays after 1, ..., n failures. */
  function TotalBackoff(base: int, max: int, n: nat): int {
    if n == 0 then 0 else TotalBackoff(base, max, n - 1) + Backoff.Duration(base, max, n)
  }

  /** All failures recorded from the first after a success on, up to the last of `fs`. */
  ghost predicate FailureSeries(run: seq<State>, steps: seq<Step>, d: DomainId, fs: seq<nat>)
    requires IsRun(run, steps)
  {
    && |fs| > 0 && (forall m :: 0 <= m < |fs| ==> fs[m] < |steps|)
    && FailsAuto(run[fs[0]], steps[fs[0]], d) && run[fs[0]].db.domains[d].failures == 0
    && (forall m :: 0 < m < |fs| ==> fs[m - 1] < fs[m] && Consecutive(run, steps, d, fs[m - 1], fs[m]))
  }

  /** No failure comes from an attempt that had read its row before the failure that precedes it. */
  ghost predicate FreshAttempts(run: seq<State>, steps: seq<Step>, d: DomainId, fs: seq<nat>)
    requires IsRun(run, steps) && FailureSeries(run, steps, d, fs)
  {
    forall m :: 0 < m < |fs| ==> !OldAttempt(run, steps, fs[m - 1], fs[m])
  }

  /** Between consecutive failures the second attempt waited, unless it had read its row before the first. */
  lemma RetryGap(run: seq<State>, steps: seq<Step>, d: DomainId, f: nat, g: nat, at: Attempt)
    requires IsRun(run, steps) && Init(run[0]) && f < g < |steps| && Consecutive(run, steps, d, f, g)
    requires MovedBy(run, steps, g, at)
    ensures var n := run[f].db.domains[d].failures + 1;
            && Live(run[g].db, d) && run[g].db.domains[d].failures == n
            && (OldAttempt(run, steps, f, g)
                || run[at.passed].clock >= run[f].clock + Backoff.Duration(run[f].cfg.backoffBase, run[f].cfg.backoffMax, n))
  {
    hide Next, Enabled, Init, Passes, Backoff.Duration;
    DeadlineStands(run, steps, d, f, g);
    if !OldAttempt(run, steps, f, g) {
      SameAttempt(run, steps, at);
      AttemptWaitsForBackoff(run, steps, d, f, at.arrived, at.passed, at.r);
    }
  }

  /** An attempt keeps its kind while it is under way. */
  lemma {:induction false} SameKind(run: seq<State>, steps: seq<Step>, p: nat, k: nat, r: StarterId)
    requires IsRun(run, steps) && UnderWay(run, steps, p, k, r)
    ensures run[k].starters[r].auto == steps[p].auto && run[k].starters[r].domain == steps[p].d
    decreases k
  {
    hide Next, Enabled;
    assert r in run[k].starters;
    StarterStep(run[k - 1], steps[k - 1], r);
    if k > p + 1 {
      SameKind(run, steps, p, k - 1, r);
    } else {
      ArrivedAs(run[p], steps[p]);
    }
  }

  lemma ArrivedAs(s: State, a: Step)
    requires Enabled(s, a) && a.Arrive?
    ensures var st := Next(s, a).starters[a.r]; st.auto == a.auto && st.domain == a.d
  {
  }

  lemma SameAttempt(run: seq<State>, steps: seq<Step>, at: Attempt)
    requires IsRun(run, steps) && UnderWay(run, steps, at.arrived, at.spawned, at.r) && at.arrived < at.passed < at.spawned
    ensures run[at.passed].starters[at.r].auto == steps[at.arrived].auto
  {
    SameKind(run, steps, at.arrived, at.passed, at.r);
  }

  /**
   The n-th consecutive failure, and the moment its attempt passed its checks, come no earlier
   than the first failure plus the sum of the first n - 1 delays; and the row counts the failures.
   */
  lemma {:induction false} SeriesTakesTime(run: seq<State>, steps: seq<Step>, d: DomainId, fs: seq<nat>)
    requires IsRun(run, steps) && Init(run[0]) && FailureSeries(run, steps, d, fs) && FreshAttempts(run, steps, d, fs)
    ensures var n, cfg, last := |fs|, run[0].cfg, fs[|fs| - 1];
            var earliest := run[fs[0]].clock + TotalBackoff(cfg.backoffBase, cfg.backoffMax, n - 1);
            && Live(run[last].db, d) && run[last].db.domains[d].failures == n - 1
            && run[last].clock >= earliest
            && (forall at :: n > 1 && MovedBy(run, steps, last, at) ==> run[at.passed].clock >= earliest)
  {
    hide Next, Enabled, Init, FailsAuto, Undisturbed, MovedBy, Backoff.Duration;
    var n := |fs|;
    if n == 1 {
      FirstIsLive(run, steps, d, fs);
    } else {
      var head, f, g := fs[..n - 1], fs[n - 2], fs[n - 1];
      assert forall m :: 0 <= m < n - 1 ==> head[m] == fs[m];
      SeriesTakesTime(run, steps, d, head);
      assert Consecutive(run, steps, d, f, g) && !OldAttempt(run, steps, f, g);
      ConfigFixed(run, steps, 0, f);
      forall at | MovedBy(run, steps, g, at)
        ensures at.passed < g && run[at.passed].clock >= run[f].clock + Backoff.Duration(run[0].cfg.backoffBase, run[0].cfg.backoffMax, n - 1)
      {
        AttemptEarlier(run, steps, g, at);
        RetryGap(run, steps, d, f, g, at);
      }
      var at := FailureHasAttempt(run, steps, d, f, g);
      ClockMonotone(run, steps, at.passed, g);
      RetryGap(run, steps, d, f, g, at);
    }
  }

  lemma FirstIsLive(run: seq<State>, steps: seq<Step>, d: DomainId, fs: seq<nat>)
    requires IsRun(run, steps) && FailureSeries(run, steps, d, fs)
    ensures Live(run[fs[0]].db, d) && run[fs[0]].db.domains[d].failures == 0
  {
  }

  lemma AttemptEarlier(run: seq<State>, steps: seq<Step>, g: nat, at: Attempt)
    requires IsRun(run, steps) && g < |steps| && MovedBy(run, steps, g, at)
    ensures at.passed < g
  {
  }

  lemma {:induction false} TotalBackoffGrows(base: int, max: int, n: nat)
    requires 0 < base && 0 < max && Backoff.RampFits(base, max)
    ensures TotalBackoff(base, max, n) >= 0
    ensures n > Backoff.Ramp(base, max) ==> TotalBackoff(base, max, n) >= (n - Backoff.Ramp(base, max)) * max
  {
    if n > 0 {
      TotalBackoffGrows(base, max, n - 1);
      Backoff.RampThenCap(base, max, n);
      Backoff.DoubledGrows(base, 0, n - 1);
      var k := n - Backoff.Ramp(base, max);
      assert k * max == (k - 1) * max + max;
    }
  }

  /**
   The failing attempts that can have started by time `t`, counted from the first failure after a
   success, are at most the logarithmic ramp plus one per `max` of elapsed time, plus one.
   */
  lemma FailureRate(run: seq<State>, steps: seq<Step>, d: DomainId, fs: seq<nat>, t: int)
    requires IsRun(run, steps) && Init(run[0]) && FailureSeries(run, steps, d, fs) && FreshAttempts(run, steps, d, fs)
    requires 0 < run[0].cfg.backoffBase && 0 < run[0].cfg.backoffMax
    requires Backoff.RampFits(run[0].cfg.backoffBase, run[0].cfg.backoffMax)
    requires var last := fs[|fs| - 1];
             run[last].clock <= t
             || exists at :: MovedBy(run, steps, last, at) && run[at.passed].clock <= t
    ensures var base, max, n := run[0].cfg.backoffBase, run[0].cfg.backoffMax, |fs|;
            n == 1 || (n - 1 - Backoff.Ramp(base, max)) * max <= t - run[fs[0]].clock
  {
    hide Next, Enabled, FailsAuto, MovedBy;
    var base, max, n := run[0].cfg.backoffBase, run[0].cfg.backoffMax, |fs| - 1;
    SeriesTakesTime(run, steps, d, fs);
    TotalBackoffGrows(base, max, n);
    var k := n - Backoff.Ramp(base, max);
    if k <= 0 {
      assert k * max <= 0;
    }
  }
}
