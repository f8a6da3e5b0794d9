/** When a renewal attempt can still take the lease although the row asks it to wait. */
module EarlyLease {
  import opened Options
  import opened Rows
  import opened Protocol
  import opened ProtocolInvariant
  import opened Leases
  import opened Origins
  import opened RenewalRate
  import opened Takeover
  import opened Continuations

  predicate BeforeLease(pc: StarterPc) {
    || pc.Prepare? || pc.LockCert? || pc.LockRow? || pc.LockClock?
    || pc.LockInflight? || pc.LockCancel? || pc.LockWait? || pc.LockUpdate?
  }

  /** A renewal attempt of `d` on its way to the lease, while the row asks to wait until `deadline`. */
  predicate Attempts(s: State, r: StarterId, d: DomainId, deadline: int) {
    && r in s.starters && s.starters[r].auto && s.starters[r].renew && s.starters[r].domain == d
    && Live(s.db, d) && s.db.domains[d].backoffUntil == Some(deadline)
  }

  /** In `s'` attempt `r` is about to take the lease before the time the row asks it to wait for. */
  ghost predicate EarlyAt(s: State, s': State, r: StarterId, d: DomainId) {
    && Leads(s, s', Attempting(r, d)) && Locks(s', Start(r, true), d)
    && s'.db.domains[d].backoffUntil.Some? && s'.clock < s'.db.domains[d].backoffUntil.value
  }

  /** Some continuation, without another failure or a reset, in which attempt `r` takes the lease too early. */
  ghost predicate MayLeaseEarly(s: State, r: StarterId, d: DomainId) {
    exists s' :: EarlyAt(s, s', r, d)
  }

  // ---------------------------------------------------------------- what rules it out

  /** The wait is over; or a check still to come refuses the attempt, or lets it go only once the wait is over. */
  predicate TooLate(s: State, r: StarterId, d: DomainId, deadline: int)
    requires r in s.starters
  {
    var st := s.starters[r];
    || deadline <= s.clock
    || ((st.pc.Prepare? || st.pc.LockCert?) && !HasCert(s.db, d))
    || (st.pc.Prepare? && (!Renewable(st.snapshot) || (st.snapshot.backoffUntil.Some? && st.snapshot.backoffUntil.value >= deadline)))
  }

  lemma NoCertAppears(s: State, op: DbOp, d: DomainId)
    requires !HasCert(s.db, d) && (op.DoSave? ==> op.rec.domainId != d)
    ensures !HasCert(Apply(s, op), d)
  {
  }

  lemma NoCertStep(s: State, a: Step, d: DomainId)
    requires Enabled(s, a) && !HasCert(s.db, d) && !Saves(s, a, d)
    ensures !HasCert(Next(s, a).db, d)
  {
    StepIsOp(s, a);
    NoCertAppears(s, OpOf(s, a), d);
  }

  /** What one step can do to attempt `r`. */
  lemma AttemptStep(s: State, a: Step, r: StarterId)
    requires Enabled(s, a) && r in s.starters && r in Next(s, a).starters
    ensures var st, st' := s.starters[r], Next(s, a).starters[r];
            && st'.domain == st.domain && st'.auto == st.auto && st'.renew == st.renew && st'.snapshot == st.snapshot
            && (if a.Start? && a.r == r then StartPc(s, st, a.ok) == Some(st'.pc) else st'.pc == st.pc)
    ensures s.clock <= Next(s, a).clock
  {
  }

  lemma AttemptsStays(s: State, a: Step, r: StarterId, d: DomainId, deadline: int)
    requires DbOk(s.db) && Enabled(s, a) && Allowed(s, a, Attempting(r, d)) && Attempts(s, r, d, deadline)
    ensures Attempts(Next(s, a), r, d, deadline)
  {
    hide Next, FailsAuto, ClearsBackoff;
    AttemptStep(s, a, r);
    StepOnBackoff(s, a, d);
  }

  lemma TooLateStays(s: State, a: Step, r: StarterId, d: DomainId, deadline: int)
    requires DbOk(s.db) && Enabled(s, a) && Allowed(s, a, Attempting(r, d)) && Attempts(s, r, d, deadline)
    requires TooLate(s, r, d, deadline)
    ensures TooLate(Next(s, a), r, d, deadline)
  {
    hide Next, HasCert;
    AttemptStep(s, a, r);
    if !HasCert(s.db, d) {
      NoCertStep(s, a, d);
    }
  }

  lemma {:induction false} TooLateAlong(run: seq<State>, steps: seq<Step>, k: nat, r: StarterId, d: DomainId, deadline: int)
    requires IsRun(run, steps) && k < |run| && DbOk(run[0].db)
    requires forall i :: 0 <= i < k ==> Allowed(run[i], steps[i], Attempting(r, d))
    requires Attempts(run[0], r, d, deadline) && TooLate(run[0], r, d, deadline)
    ensures DbOk(run[k].db) && Attempts(run[k], r, d, deadline) && TooLate(run[k], r, d, deadline)
  {
    hide Next, DbOk, Attempts, TooLate, Allowed;
    if k > 0 {
      TooLateAlong(run, steps, k - 1, r, d, deadline);
      StepKeepsDbOk(run[k - 1], steps[k - 1]);
      assert Allowed(run[k - 1], steps[k - 1], Attempting(r, d));
      AttemptsStays(run[k - 1], steps[k - 1], r, d, deadline);
      TooLateStays(run[k - 1], steps[k - 1], r, d, deadline);
    }
  }

  lemma TooLateMeansNever(s: State, r: StarterId, d: DomainId, deadline: int)
    requires DbOk(s.db) && Attempts(s, r, d, deadline) && TooLate(s, r, d, deadline)
    ensures !MayLeaseEarly(s, r, d)
  {
    forall s' ensures !EarlyAt(s, s', r, d) {
      if Leads(s, s', Attempting(r, d)) {
        var run: seq<State>, steps: seq<Step> :| Continues(run, steps, s, s', Attempting(r, d));
        TooLateAlong(run, steps, |steps|, r, d, deadline);
      }
    }
  }

  // ---------------------------------------------------------------- a continuation when nothing rules it out

  /** A continuation from `s0` has led to `s`, with the attempt under way and the wait not over. */
  ghost predicate OnTrack(s0: State, s: State, r: StarterId, d: DomainId, deadline: int) {
    && Leads(s0, s, Attempting(r, d)) && Ok(s) && DbOk(s.db)
    && Attempts(s, r, d, deadline) && s.clock < deadline
  }

  lemma Moves(s0: State, s: State, a: Step, r: StarterId, d: DomainId, deadline: int) returns (s': State)
    requires OnTrack(s0, s, r, d, deadline) && Enabled(s, a) && Allowed(s, a, Attempting(r, d))
    requires Next(s, a).clock < deadline
    ensures s' == Next(s, a) && OnTrack(s0, s', r, d, deadline)
  {
    hide Next, Enabled, Allowed, Ok, DbOk, Attempts;
    s' := Go(s0, s, a, Attempting(r, d));
    StepKeepsOk(s, a);
    StepKeepsDbOk(s, a);
    AttemptsStays(s, a, r, d, deadline);
  }

  /** One step of the attempt itself. */
  lemma Advances(s0: State, s: State, r: StarterId, d: DomainId, deadline: int, pc: StarterPc) returns (s': State)
    requires OnTrack(s0, s, r, d, deadline) && StartEnabled(s, r, true)
    requires BeforeLease(s.starters[r].pc) && StartPc(s, s.starters[r], true) == Some(pc)
    ensures OnTrack(s0, s', r, d, deadline) && s'.starters[r].pc == pc && s'.clock == s.clock && s'.main == s.main
    ensures s'.jobs.entries == s.jobs.entries && s.jobs.done <= s'.jobs.done
  {
    hide Leads, DbOk, Ok, Attempts, Next, Allowed;
    AttemptsIsUnderWay(s, r, d, deadline);
    AdvanceStep(s, r, d, pc);
    s' := Moves(s0, s, Start(r, true), r, d, deadline);
  }

  lemma AdvanceStep(s: State, r: StarterId, d: DomainId, pc: StarterPc)
    requires StartEnabled(s, r, true) && BeforeLease(s.starters[r].pc) && StartPc(s, s.starters[r], true) == Some(pc)
    ensures var a := Start(r, true);
            && Enabled(s, a) && Allowed(s, a, Attempting(r, d))
            && var s' := Next(s, a);
               && r in s'.starters && s'.starters[r].pc == pc && s'.clock == s.clock && s'.main == s.main
               && s'.jobs.entries == s.jobs.entries && s.jobs.done <= s'.jobs.done
  {
  }

  /** Only the registry entry a worker gives up, its own stage and the counters change. */
  predicate OnlyWorker(s: State, s': State, t: Token) {
    && s'.starters == s.starters && s'.jobs.done == s.jobs.done && s'.clock == s.clock
    && (forall x :: x in s'.jobs.entries ==> x in s.jobs.entries && s'.jobs.entries[x] == s.jobs.entries[x])
    && t in s.workers && t in s'.workers && s'.workers == s.workers[t := s.workers[t].(pc := s'.workers[t].pc)]
  }

  const KEYS := Material("", "", "", "", "", 0)

  /** The next step out of an inactive worker's job: an abort inside it, then its exits. */
  function Leave(pc: WorkerPc, t: Token): Step {
    if Rank(pc) == 1 && !pc.FailGuard? then Panic(t) else Work(t, Good, KEYS)
  }

  function Left(pc: WorkerPc): nat {
    if pc.FailGuard? then 5 else if Rank(pc) == 1 then 6 else if Rank(pc) == 0 then 7 else 6 - Rank(pc)
  }

  lemma LeaveStep(s: State, t: Token, r: StarterId, d: DomainId)
    requires Ok(s) && t in s.workers && s.workers[t].pc != Exited && !TokenActive(s, t) && r in s.starters
    ensures var a := Leave(s.workers[t].pc, t);
            && Enabled(s, a) && Allowed(s, a, Attempting(r, d))
            && OnlyWorker(s, Next(s, a), t) && Left(Next(s, a).workers[t].pc) < Left(s.workers[t].pc)
            && !TokenActive(Next(s, a), t)
  {
    hide Ok;
    if Leave(s.workers[t].pc, t).Work? {
      WorkLeaves(s, t);
    }
  }

  lemma WorkLeaves(s: State, t: Token)
    requires t in s.workers && s.workers[t].pc != Exited && !TokenActive(s, t)
    requires Rank(s.workers[t].pc) != 1 || s.workers[t].pc.FailGuard?
    ensures var s' := AfterWork(s, t, Good, KEYS);
            && OnlyWorker(s, s', t) && Left(s'.workers[t].pc) < Left(s.workers[t].pc)
            && !TokenActive(s', t)
  {
    hide WorkDb;
  }

  /** An inactive worker can leave without recording anything. */
  lemma {:induction false} Drains(s0: State, s: State, r: StarterId, d: DomainId, deadline: int, t: Token) returns (s': State)
    requires OnTrack(s0, s, r, d, deadline) && t in s.workers && !TokenActive(s, t)
    ensures OnTrack(s0, s', r, d, deadline) && OnlyWorker(s, s', t) && s'.workers[t].pc == Exited
    decreases Left(s.workers[t].pc)
  {
    hide Next, Enabled, Allowed, Ok, DbOk;
    if s.workers[t].pc == Exited {
      s' := s;
    } else {
      LeaveStep(s, t, r, d);
      var s1 := Moves(s0, s, Leave(s.workers[t].pc, t), r, d, deadline);
      s' := Drains(s0, s1, r, d, deadline, t);
      OnlyWorkerChain(s, s1, s', t);
    }
  }

  lemma OnlyWorkerChain(s: State, s1: State, s2: State, t: Token)
    requires OnlyWorker(s, s1, t) && OnlyWorker(s1, s2, t)
    ensures OnlyWorker(s, s2, t)
  {
  }

  lemma CancelsAll(s0: State, s: State, r: StarterId, d: DomainId, deadline: int) returns (s': State)
    requires OnTrack(s0, s, r, d, deadline) && s.main == Serving
    ensures OnTrack(s0, s', r, d, deadline) && CancelledAt(s', d) && s'.starters == s.starters
  {
    s' := Moves(s0, s, Shut(CancelAll), r, d, deadline);
  }

  /** All workers of `d` that have begun can leave. */
  lemma {:induction false} DrainsAll(s0: State, s: State, r: StarterId, d: DomainId, deadline: int) returns (s': State)
    requires OnTrack(s0, s, r, d, deadline) && CancelledAt(s, d)
    ensures OnTrack(s0, s', r, d, deadline) && Tracked(s', d) == 0 && s'.starters == s.starters
    decreases |WorkersWith(s.workers, Tracker(d))|
  {
    hide Leads, DbOk, Attempts, TokensOk, SpawnsOk;
    var here := WorkersWith(s.workers, Tracker(d));
    assert Tracked(s, d) == |here|;
    if here == {} {
      s' := s;
    } else {
      var t :| t in here;
      DomainOf(s, t);
      var s1 := Drains(s0, s, r, d, deadline, t);
      assert WorkersWith(s1.workers, Tracker(d)) == here - {t};
      s' := DrainsAll(s0, s1, r, d, deadline);
    }
  }

  lemma DomainOf(s: State, t: Token)
    requires Ok(s) && t in s.workers && CancelledAt(s, s.workers[t].domain)
    ensures !TokenActive(s, t)
  {
  }

  /** The registered job of `d` can be started and leave. */
  lemma Unregisters(s0: State, s: State, r: StarterId, d: DomainId, deadline: int) returns (s': State)
    requires OnTrack(s0, s, r, d, deadline) && CancelledAt(s, d) && BeforeLease(s.starters[r].pc)
    ensures OnTrack(s0, s', r, d, deadline) && d !in s'.jobs.entries && s'.starters[r].pc == s.starters[r].pc
  {
    hide Leads, DbOk, Attempts, Ok;
    s' := s;
    AttemptsIsUnderWay(s, r, d, deadline);
    if d in s.jobs.entries {
      var t := s.jobs.entries[d];
      var s1 := s;
      EntryFacts(s, d);
      if t !in s.workers {
        s1 := Begins(s0, s, r, d, deadline, t);
      }
      EntryFacts(s1, d);
      s' := Drains(s0, s1, r, d, deadline, t);
      if d in s'.jobs.entries {
        EntryFacts(s', d);
      }
    }
  }

  /** The registered job of `d` is one of `d` whose worker, if any, has not left, and is not active once cancelled. */
  lemma EntryFacts(s: State, d: DomainId)
    requires Ok(s) && d in s.jobs.entries
    ensures var t := s.jobs.entries[d];
            && t in s.issued && (t in s.workers ==> s.workers[t].domain == d && s.workers[t].pc != Exited)
            && (CancelledAt(s, d) ==> !TokenActive(s, t))
  {
    hide CountsOk, SpawnsOk;
  }

  lemma Begins(s0: State, s: State, r: StarterId, d: DomainId, deadline: int, t: Token) returns (s': State)
    requires OnTrack(s0, s, r, d, deadline) && BeforeLease(s.starters[r].pc) && t in s.issued && t !in s.workers
    ensures OnTrack(s0, s', r, d, deadline) && t in s'.workers && s'.jobs == s.jobs
    ensures s'.starters[r].pc == s.starters[r].pc
  {
    hide Leads, DbOk, CountsOk, Attempts, Next, Allowed;
    assert AwaitsSpawn(s, t);
    var q :| q in s.starters && s.starters[q].pc == Spawn(t);
    AttemptsIsUnderWay(s, r, d, deadline);
    BeginStep(s, q, r, d, t);
    s' := Moves(s0, s, Start(q, true), r, d, deadline);
  }

  lemma AttemptsIsUnderWay(s: State, r: StarterId, d: DomainId, deadline: int)
    requires Attempts(s, r, d, deadline)
    ensures r in s.starters
  {
  }

  lemma BeginStep(s: State, q: StarterId, r: StarterId, d: DomainId, t: Token)
    requires q in s.starters && s.starters[q].pc == Spawn(t) && r in s.starters && BeforeLease(s.starters[r].pc)
    ensures var a := Start(q, true);
            && Enabled(s, a) && Allowed(s, a, Attempting(r, d))
            && t in Next(s, a).workers && Next(s, a).jobs == s.jobs && Next(s, a).clock == s.clock
            && r in Next(s, a).starters && Next(s, a).starters[r] == s.starters[r]
  {
  }

  /** The user verifies the CNAME again, and the lease is free. */
  lemma Frees(s0: State, s: State, r: StarterId, d: DomainId, deadline: int)
    requires OnTrack(s0, s, r, d, deadline) && s.starters[r].pc.LockUpdate?
    ensures MayLeaseEarly(s0, r, d)
  {
    hide Leads, Ok, DbOk;
    var s' := Moves(s0, s, Handle(MarkCname(d)), r, d, deadline);
    assert EarlyAt(s0, s', r, d);
  }

  lemma FromInflight(s0: State, s: State, r: StarterId, d: DomainId, deadline: int)
    requires OnTrack(s0, s, r, d, deadline) && s.starters[r].pc.LockInflight? && s.main == Serving
    ensures MayLeaseEarly(s0, r, d)
  {
    hide Leads, Ok, DbOk;
    var s1 := CancelsAll(s0, s, r, d, deadline);
    var s2 := Unregisters(s0, s1, r, d, deadline);
    var s3 := Advances(s0, s2, r, d, deadline, LockUpdate(s.starters[r].pc.lockTime));
    Frees(s0, s3, r, d, deadline);
  }

  lemma FromWait(s0: State, s: State, r: StarterId, d: DomainId, deadline: int)
    requires OnTrack(s0, s, r, d, deadline) && s.starters[r].pc.LockWait? && s.main == Serving
    ensures MayLeaseEarly(s0, r, d)
  {
    hide Leads, Ok, DbOk;
    var s1 := CancelsAll(s0, s, r, d, deadline);
    var s2 := DrainsAll(s0, s1, r, d, deadline);
    var s3 := Advances(s0, s2, r, d, deadline, LockUpdate(s.starters[r].pc.lockTime));
    Frees(s0, s3, r, d, deadline);
  }

  lemma FromRow(s0: State, s: State, r: StarterId, d: DomainId, deadline: int)
    requires OnTrack(s0, s, r, d, deadline) && s.main == Serving
    requires s.starters[r].pc.LockRow? || s.starters[r].pc.LockClock?
    ensures MayLeaseEarly(s0, r, d)
  {
    hide Leads, Ok, DbOk;
    var s1 := s;
    if s.starters[r].pc.LockRow? {
      s1 := Advances(s0, s, r, d, deadline, LockClock(s.db.domains[d]));
    }
    var s2 := Advances(s0, s1, r, d, deadline, StartPc(s1, s1.starters[r], true).value);
    FromInflight(s0, s2, r, d, deadline);
  }

  lemma FromCert(s0: State, s: State, r: StarterId, d: DomainId, deadline: int)
    requires OnTrack(s0, s, r, d, deadline) && s.starters[r].pc.LockCert? && HasCert(s.db, d) && s.main == Serving
    ensures MayLeaseEarly(s0, r, d)
  {
    hide Leads, Ok, DbOk;
    var s1 := Advances(s0, s, r, d, deadline, LockRow);
    FromRow(s0, s1, r, d, deadline);
  }

  lemma FromPrepare(s0: State, s: State, r: StarterId, d: DomainId, deadline: int)
    requires OnTrack(s0, s, r, d, deadline) && s.starters[r].pc.Prepare? && s.main == Serving
    requires !TooLate(s, r, d, deadline)
    ensures MayLeaseEarly(s0, r, d)
  {
    hide Leads, Ok, DbOk;
    var wait := s.starters[r].snapshot.backoffUntil;
    var to := if wait.Some? && wait.value > s.clock then wait.value else s.clock;
    var s1 := Moves(s0, s, Tick(to), r, d, deadline);
    var s2 := Passed(s0, s1, r, d, deadline);
    FromCert(s0, s2, r, d, deadline);
  }

  lemma Passed(s0: State, s: State, r: StarterId, d: DomainId, deadline: int) returns (s': State)
    requires OnTrack(s0, s, r, d, deadline) && s.starters[r].pc.Prepare? && MayAutoRenew(s.starters[r].snapshot, s.clock)
    ensures OnTrack(s0, s', r, d, deadline) && s'.starters[r].pc == LockCert && s'.db == s.db && s'.main == s.main
  {
    s' := Moves(s0, s, Start(r, true), r, d, deadline);
  }

  /**
   Before shutdown, a renewal attempt on its way to the lease can take it before the time the row
   asks it to wait for, with no further failure and no reset, exactly when that time is not over
   and no check still to come stops it: an attempt past its own backoff check only needs a
   certificate to be found, one before it needs a row read earlier that asks for less.
   */
  lemma EarlyLeaseIff(run: seq<State>, steps: seq<Step>, k: nat, r: StarterId, d: DomainId)
    requires IsRun(run, steps) && Init(run[0]) && k < |run| && run[k].main == Serving
    requires r in run[k].starters && run[k].starters[r].auto && run[k].starters[r].domain == d
    requires BeforeLease(run[k].starters[r].pc)
    requires Live(run[k].db, d) && run[k].db.domains[d].backoffUntil.Some?
    ensures var s, st, row := run[k], run[k].starters[r], run[k].db.domains[d];
            MayLeaseEarly(s, r, d) <==>
              && s.clock < row.backoffUntil.value
              && (st.pc.Prepare? || st.pc.LockCert? ==> HasCert(s.db, d))
              && (st.pc.Prepare? ==> Renewable(st.snapshot))
              && (st.pc.Prepare? && st.snapshot.backoffUntil.Some? ==> st.snapshot.backoffUntil.value < row.backoffUntil.value)
  {
    hide Next, Enabled, Leads, Ok, DbOk, IsRun, Init, MayLeaseEarly;
    var s, deadline := run[k], run[k].db.domains[d].backoffUntil.value;
    RunOk(run, steps, k);
    RowInvariant(run, steps, k);
    var p := StarterArrived(run, steps, k, r);
    if TooLate(s, r, d, deadline) {
      TooLateMeansNever(s, r, d, deadline);
    } else {
      Stay(s, Attempting(r, d));
      CanLeaseEarly(s, r, d, deadline);
    }
  }

  lemma CanLeaseEarly(s: State, r: StarterId, d: DomainId, deadline: int)
    requires OnTrack(s, s, r, d, deadline) && s.main == Serving
    requires BeforeLease(s.starters[r].pc) && !TooLate(s, r, d, deadline)
    ensures MayLeaseEarly(s, r, d)
  {
    hide Leads, Ok, DbOk;
    match s.starters[r].pc {
      case Prepare => FromPrepare(s, s, r, d, deadline);
      case LockCert => FromCert(s, s, r, d, deadline);
      case LockRow => FromRow(s, s, r, d, deadline);
      case LockClock(_) => FromRow(s, s, r, d, deadline);
      case LockInflight(_, _) => FromInflight(s, s, r, d, deadline);
      case LockCancel(lockTime) =>
        var s1 := Advances(s, s, r, d, deadline, LockWait(lockTime, s.clock));
        FromWait(s, s1, r, d, deadline);
      case LockWait(_, _) => FromWait(s, s, r, d, deadline);
      case LockUpdate(_) => Frees(s, s, r, d, deadline);
    }
  }
}
