/** Why the context of a job ends: nothing but its deadline, shutdown, a replacement, or a lease that timed out. */
module Cancellation {
  import opened Options
  import opened Rows
  import opened Protocol
  import opened ProtocolInvariant
  import opened JobSafety
  import opened Leases
  import opened Lifecycle
  import opened CleanupRace
  import opened Origins
  import opened Takeover

  predicate EntryIs(s: State, d: DomainId, t: Token) {
    d in s.jobs.entries && s.jobs.entries[d] == t
  }

  /** A step that ends the context of `t`. */
  predicate EndsContext(s: State, s': State, t: Token) {
    t !in s.jobs.done && t in s'.jobs.done
  }

  lemma WhoCancels(s: State, a: Step, t: Token)
    requires Enabled(s, a) && EndsContext(s, Next(s, a), t)
    ensures
      || (a == Expire(t) && t in s.jobs.deadline && s.jobs.deadline[t] <= s.clock)
      || (a.Start? && (s.starters[a.r].pc.LockCancel? || s.starters[a.r].pc.BeginCancel?) && EntryIs(s, s.starters[a.r].domain, t))
      || (a.Clean? && a.clean.Advance? && s.cleaner.phase == CleanCancel && EntryIs(s, s.cleaner.queue[0], t))
      || (a == Shut(CancelAll) && exists d :: EntryIs(s, d, t))
  {
    if a == Shut(CancelAll) {
      var d :| d in s.jobs.entries && s.jobs.entries[d] == t;
      assert EntryIs(s, d, t);
    }
  }

  lemma DeadlineStep(s: State, a: Step, t: Token)
    requires Enabled(s, a) && t in Next(s, a).jobs.deadline
    ensures if a.Start? && s.starters[a.r].pc.BeginRegister? && t == s.jobs.lastToken + 1
            then Next(s, a).jobs.deadline[t] == s.clock + s.cfg.timeout
            else t in s.jobs.deadline && s.jobs.deadline[t] == Next(s, a).jobs.deadline[t]
  {
  }

  /** Step `i` registers the job with token `t`. */
  predicate RegistersToken(s: State, a: Step, t: Token) {
    a.Start? && a.r in s.starters && s.starters[a.r].pc.BeginRegister? && t == s.jobs.lastToken + 1
  }

  /** A deadline is one timeout after the registration. */
  lemma {:induction false} DeadlineSet(run: seq<State>, steps: seq<Step>, k: nat, t: Token) returns (i: nat)
    requires IsRun(run, steps) && Init(run[0]) && k < |run| && t in run[k].jobs.deadline
    ensures i < k && RegistersToken(run[i], steps[i], t) && run[k].jobs.deadline[t] == run[i].clock + run[i].cfg.timeout
  {
    hide Next, Enabled;
    StartEnabledHas(run[k - 1], steps[k - 1]);
    DeadlineStep(run[k - 1], steps[k - 1], t);
    if RegistersToken(run[k - 1], steps[k - 1], t) {
      i := k - 1;
    } else {
      i := DeadlineSet(run, steps, k - 1, t);
    }
  }

  lemma StartEnabledHas(s: State, a: Step)
    requires Enabled(s, a)
    ensures a.Start? ==> a.r in s.starters
  {
  }

  /** An attempt of `d` past its lock, which cancels what it is about to replace. */
  ghost predicate Replaced(run: seq<State>, steps: seq<Step>, k: nat, d: DomainId)
    requires IsRun(run, steps) && k < |steps|
  {
    && steps[k].Start? && steps[k].r in run[k].starters && run[k].starters[steps[k].r].pc.BeginCancel?
    && exists i: nat :: i < k && steps[i].Start? && steps[i].r == steps[k].r && Locks(run[i], steps[i], d)
  }

  /** An attempt of `d` that judged the lease of the row it had read stale. */
  ghost predicate TakenOver(run: seq<State>, steps: seq<Step>, k: nat, d: DomainId)
    requires IsRun(run, steps) && k < |steps|
  {
    && steps[k].Start? && steps[k].r in run[k].starters && run[k].starters[steps[k].r].pc.LockCancel?
    && exists p: nat, m: Moments :: UnderWay(run, steps, p, k, steps[k].r) && steps[p].d == d && StaleSeen(run, p, k, d, m)
  }

  /** A cleanup pass whose scan listed `d`. */
  ghost predicate CleanedUp(run: seq<State>, steps: seq<Step>, k: nat, d: DomainId)
    requires IsRun(run, steps) && k < |steps|
  {
    steps[k].Clean? && exists i: nat :: i < k && ScannedAt(run, steps, i, k, d)
  }

  /** The deadline, one timeout after the registration, is over. */
  ghost predicate TimedOut(run: seq<State>, steps: seq<Step>, k: nat, t: Token)
    requires IsRun(run, steps) && k < |steps|
  {
    steps[k] == Expire(t)
    && exists i: nat :: i < k && RegistersToken(run[i], steps[i], t) && run[i].clock + run[i].cfg.timeout <= run[k].clock
  }

  lemma EntryDomain(s: State, d: DomainId, t: Token)
    requires TokensOk(s) && EntryIs(s, d, t)
    ensures t in s.issued && s.issued[t] == d
  {
  }

  /**
   A healthy job is left alone: the context of a job ends only when its time is over, at shutdown,
   when an attempt that took the lease replaces it, or when an attempt or a cleanup pass
   found its domain's lease timed out.
   */
  lemma ContextEndsOnly(run: seq<State>, steps: seq<Step>, k: nat, t: Token)
    requires IsRun(run, steps) && Init(run[0]) && k < |steps| && EndsContext(run[k], run[k + 1], t)
    ensures || TimedOut(run, steps, k, t)
            || steps[k] == Shut(CancelAll)
            || (t in run[k].issued && (|| Replaced(run, steps, k, run[k].issued[t])
                                       || TakenOver(run, steps, k, run[k].issued[t])
                                       || CleanedUp(run, steps, k, run[k].issued[t])))
  {
    hide Next, TokensOk, SpawnsOk, CountsOk, Locks, ScannedAt, StaleSeen;
    var s, a := run[k], steps[k];
    RunOk(run, steps, k);
    WhoCancels(s, a, t);
    if a == Expire(t) {
      var i := DeadlineSet(run, steps, k, t);
    } else if a.Start? {
      EntryDomain(s, s.starters[a.r].domain, t);
      StartEnds(run, steps, k, t);
    } else if a.Clean? {
      var d := s.cleaner.queue[0];
      EntryDomain(s, d, t);
      var i := QueueFromScan(run, steps, k, d);
    }
  }

  lemma StartEnds(run: seq<State>, steps: seq<Step>, k: nat, t: Token)
    requires IsRun(run, steps) && Init(run[0]) && k < |steps| && steps[k].Start? && steps[k].r in run[k].starters
    requires run[k].starters[steps[k].r].pc.LockCancel? || run[k].starters[steps[k].r].pc.BeginCancel?
    ensures var d := run[k].starters[steps[k].r].domain; Replaced(run, steps, k, d) || TakenOver(run, steps, k, d)
  {
    hide Next, Enabled, Locks, StaleSeen;
    var r := steps[k].r;
    if run[k].starters[r].pc.BeginCancel? {
      var i := TookLease(run, steps, k, r);
    } else {
      var p := StarterArrived(run, steps, k, r);
      var m := EvidenceAlong(run, steps, p, k);
      assert StaleSeen(run, p, k, steps[p].d, m);
    }
  }
}
