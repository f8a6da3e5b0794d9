/**
 What a replaced job can still do. A token is superseded once a newer one exists for its domain.
 */
module Supersession {
  import opened Rows
  import Registry
  import opened Protocol
  import opened ProtocolInvariant
  import opened JobSafety

  predicate Superseded(s: State, t: Token) {
    t in s.issued && exists x :: x in s.issued && s.issued[x] == s.issued[t] && x > t
  }

  // ---------------------------------------------------------------- the newest token owns the entry

  predicate Finished(s: State, t: Token) {
    t in s.workers && Rank(s.workers[t].pc) > 3
  }

  /** The newest token of a domain stays in the registry until its worker removes it. */
  ghost predicate NewestOwnsEntry(s: State) {
    forall t :: t in s.issued && !Superseded(s, t) && !Finished(s, t) ==>
      s.issued[t] in s.jobs.entries && s.jobs.entries[s.issued[t]] == t
  }

  lemma SameIssued(s: State, s': State)
    requires s'.issued == s.issued
    ensures forall t :: Superseded(s', t) == Superseded(s, t)
  {
  }

  lemma SupersededStays(s: State, s': State, t: Token)
    requires forall x :: x in s.issued ==> x in s'.issued && s'.issued[x] == s.issued[x]
    ensures Superseded(s, t) ==> Superseded(s', t)
  {
    if Superseded(s, t) {
      var x :| x in s.issued && s.issued[x] == s.issued[t] && x > t;
      assert x in s'.issued && s'.issued[x] == s'.issued[t];
    }
  }

  lemma RegisterKeepsNewest(s: State, r: StarterId)
    requires Ok(s) && NewestOwnsEntry(s) && r in s.starters && s.starters[r].pc.BeginRegister?
    ensures NewestOwnsEntry(AfterStart(s, r, true))
  {
    var s', d, n := AfterStart(s, r, true), s.starters[r].domain, s.jobs.lastToken + 1;
    forall t | t in s'.issued && !Superseded(s', t) && !Finished(s', t)
      ensures s'.issued[t] in s'.jobs.entries && s'.jobs.entries[s'.issued[t]] == t
    {
      if t != n {
        assert n in s'.issued && s'.issued[n] == d && n > t;
        assert s.issued[t] != d;
        SupersededStays(s, s', t);
      }
    }
  }

  lemma KeepsNewest(s: State, s': State)
    requires Ok(s) && NewestOwnsEntry(s) && s'.issued == s.issued
    requires forall t :: Finished(s, t) ==> Finished(s', t)
    requires forall d :: d in s.jobs.entries && !Finished(s', s.jobs.entries[d]) ==>
               d in s'.jobs.entries && s'.jobs.entries[d] == s.jobs.entries[d]
    ensures NewestOwnsEntry(s')
  {
    SameIssued(s, s');
    forall x | x in s'.issued && !Superseded(s', x) && !Finished(s', x)
      ensures s'.issued[x] in s'.jobs.entries && s'.jobs.entries[s'.issued[x]] == x
    {
      assert !Finished(s, x);
      assert s.jobs.entries[s.issued[x]] == x;
    }
  }

  lemma FinishedStays(s: State, a: Step, s': State, t: Token)
    requires Evolves(s, a, s', t) && Finished(s, t)
    ensures Finished(s', t)
  {
    if a.Work? && a.token == t && s.workers[t].pc != Exited {
      WorkRank(s, t, a.outcome);
    }
  }

  lemma StepKeepsNewest(s: State, a: Step)
    requires Ok(s) && NewestOwnsEntry(s) && Enabled(s, a)
    ensures NewestOwnsEntry(Next(s, a))
  {
    if a.Start? && s.starters[a.r].pc.BeginRegister? {
      RegisterKeepsNewest(s, a.r);
    } else {
      var s' := Next(s, a);
      forall t | Finished(s, t) ensures Finished(s', t) {
        StepEvolves(s, a, t);
        FinishedStays(s, a, s', t);
      }
      EntriesKept(s, a);
      KeepsNewest(s, s');
    }
  }

  lemma WorkKeepsEntries(s: State, t: Token, o: Outcome, material: Material)
    requires t in s.workers && s.workers[t].pc != Exited
    ensures var s' := AfterWork(s, t, o, material);
            && s'.issued == s.issued
            && (forall d :: d in s.jobs.entries && !Finished(s', s.jobs.entries[d]) ==>
                  d in s'.jobs.entries && s'.jobs.entries[d] == s.jobs.entries[d])
  {
  }

  lemma EntriesKept(s: State, a: Step)
    requires Ok(s) && Enabled(s, a)
    requires a.Start? ==> !s.starters[a.r].pc.BeginRegister?
    ensures var s' := Next(s, a);
            && s'.issued == s.issued
            && (forall d :: d in s.jobs.entries && !Finished(s', s.jobs.entries[d]) ==>
                  d in s'.jobs.entries && s'.jobs.entries[d] == s.jobs.entries[d])
  {
    if Outside(a) {
      OutsideSameJobs(s, a);
    } else if a.Work? {
      WorkKeepsEntries(s, a.token, a.outcome, a.material);
    }
  }

  lemma {:induction false} RunNewest(run: seq<State>, steps: seq<Step>, k: nat)
    requires IsRun(run, steps) && Init(run[0]) && k < |run|
    ensures NewestOwnsEntry(run[k])
  {
    hide Next, Ok;
    if k > 0 {
      RunNewest(run, steps, k - 1);
      RunOk(run, steps, k - 1);
      StepKeepsNewest(run[k - 1], steps[k - 1]);
    }
  }

  /** A worker about to put its row back is superseded. */
  ghost predicate UndoersSuperseded(s: State) {
    forall t :: t in s.workers && s.workers[t].pc == UndoWrite ==> Superseded(s, t)
  }

  lemma UndoComesFromCheck(s: State, t: Token, o: Outcome)
    requires t in s.workers && s.workers[t].pc != Exited && WorkPc(s, t, o) == UndoWrite
    ensures s.workers[t].pc == UndoInflight && !Registry.Inflight(s.jobs, s.workers[t].domain)
  {
  }

  lemma UndoEvolution(s: State, a: Step, s': State, t: Token)
    requires TokensOk(s) && NewestOwnsEntry(s) && UndoersSuperseded(s) && Evolves(s, a, s', t)
    requires t in s'.workers && s'.workers[t].pc == UndoWrite
    ensures Superseded(s, t)
  {
    hide WorkPc;
    if s.workers[t].pc != UndoWrite {
      UndoComesFromCheck(s, t, a.outcome);
      assert !Finished(s, t);
    }
  }

  lemma StepKeepsUndoers(s: State, a: Step)
    requires Ok(s) && NewestOwnsEntry(s) && UndoersSuperseded(s) && Enabled(s, a)
    ensures UndoersSuperseded(Next(s, a))
  {
    hide Next;
    var s' := Next(s, a);
    StepAdvances(s, a);
    forall t | t in s'.workers && s'.workers[t].pc == UndoWrite ensures Superseded(s', t) {
      StepEvolves(s, a, t);
      UndoEvolution(s, a, s', t);
      SupersededStays(s, s', t);
    }
  }

  /**
   The roll-back at the end of a cancelled job never happens for the newest job of a domain: its
   own registry entry is still there when it looks, so only a superseded worker ever gets to it.
   A job that is cancelled without a replacement leaves its row generating.
   */
  lemma {:induction false} OnlySupersededUndo(run: seq<State>, steps: seq<Step>, k: nat)
    requires IsRun(run, steps) && Init(run[0]) && k < |run|
    ensures UndoersSuperseded(run[k])
  {
    hide Next, Ok, NewestOwnsEntry;
    if k > 0 {
      OnlySupersededUndo(run, steps, k - 1);
      RunOk(run, steps, k - 1);
      RunNewest(run, steps, k - 1);
      StepKeepsUndoers(run[k - 1], steps[k - 1]);
    }
  }

  // ---------------------------------------------------------------- the exact condition for a late write

  predicate PastGuard(pc: WorkerPc) {
    pc == SaveWrite || pc.FailWrite?
  }

  /** The step makes the job of `t` save a certificate or record a failure. */
  predicate Writes(s: State, a: Step, t: Token) {
    a.Work? && a.token == t && t in s.workers
    && ((s.workers[t].pc == SaveWrite && !a.outcome.Bad?) || s.workers[t].pc.FailWrite?)
  }

  ghost predicate WritesWithin(run: seq<State>, steps: seq<Step>, t: Token) {
    exists k :: 0 <= k < |steps| && k < |run| && Writes(run[k], steps[k], t)
  }

  ghost predicate MayStillWrite(s: State, t: Token) {
    exists run: seq<State>, steps: seq<Step> :: IsRun(run, steps) && run[0] == s && WritesWithin(run, steps, t)
  }

  lemma InactiveStaysHarmless(s: State, a: Step, t: Token)
    requires Ok(s) && Enabled(s, a) && t in s.issued && !TokenActive(s, t)
    requires t in s.workers ==> !PastGuard(s.workers[t].pc)
    ensures var s' := Next(s, a);
            t in s'.issued && !TokenActive(s', t) && (t in s'.workers ==> !PastGuard(s'.workers[t].pc))
  {
    hide Next;
    StepAdvances(s, a);
    StepEvolves(s, a, t);
    HarmlessEvolution(s, a, Next(s, a), t);
  }

  lemma HarmlessEvolution(s: State, a: Step, s': State, t: Token)
    requires Ok(s) && RegistryAdvances(s, s') && Evolves(s, a, s', t)
    requires t in s.issued && !TokenActive(s, t)
    requires t in s.workers ==> !PastGuard(s.workers[t].pc)
    ensures t in s'.issued && !TokenActive(s', t) && (t in s'.workers ==> !PastGuard(s'.workers[t].pc))
  {
  }

  lemma {:induction false} NoLateWrite(run: seq<State>, steps: seq<Step>, i: nat, k: nat, t: Token)
    requires IsRun(run, steps) && i <= k < |run| && Ok(run[i])
    requires t in run[i].issued && !TokenActive(run[i], t)
    requires t in run[i].workers ==> !PastGuard(run[i].workers[t].pc)
    ensures t in run[k].workers ==> !PastGuard(run[k].workers[t].pc)
    ensures !TokenActive(run[k], t)
    decreases k - i
  {
    hide Next;
    if i < k {
      InactiveStaysHarmless(run[i], steps[i], t);
      StepKeepsOk(run[i], steps[i]);
      NoLateWrite(run, steps, i + 1, k, t);
    }
  }

  /**
   A job that is no longer active (cancelled, superseded or ended) can still save a certificate
   or record a failure if and only if its worker already passed the last check and stands right
   before that write.
   */
  lemma LateWriteIff(run: seq<State>, steps: seq<Step>, i: nat, t: Token)
    requires IsRun(run, steps) && Init(run[0]) && i < |run|
    requires t in run[i].issued && !TokenActive(run[i], t)
    ensures MayStillWrite(run[i], t) <==> t in run[i].workers && PastGuard(run[i].workers[t].pc)
  {
    RunOk(run, steps, i);
    var s := run[i];
    if t in s.workers && PastGuard(s.workers[t].pc) {
      var a := Work(t, Good, Material("", "", "", "", "", 0));
      var run', steps' := [s, Next(s, a)], [a];
      assert IsRun(run', steps') && Writes(run'[0], steps'[0], t);
      assert WritesWithin(run', steps', t);
    } else {
      forall run': seq<State>, steps': seq<Step> | IsRun(run', steps') && run'[0] == s
        ensures !WritesWithin(run', steps', t)
      {
        forall k | 0 <= k < |steps'| ensures !Writes(run'[k], steps'[k], t) {
          NoLateWrite(run', steps', 0, k, t);
        }
      }
    }
  }

  /** No hypothesis is needed for the checks themselves: an inactive token never passes one again. */
  lemma InactivePassesNoGuard(run: seq<State>, steps: seq<Step>, i: nat, k: nat, t: Token)
    requires IsRun(run, steps) && Init(run[0]) && i <= k < |steps|
    requires t in run[i].issued && !TokenActive(run[i], t)
    requires PassesGuard(run[k], steps[k])
    ensures steps[k].token != t
  {
    hide Next;
    InactiveForever(run, steps, i, k, t);
  }

  /**
   With no hypothesis at all: a registration leaves a superseded job that may still write exactly
   when some worker of the domain stands past its last check at that moment.
   */
  lemma RegistrationIsSafeIff(run: seq<State>, steps: seq<Step>, k: nat, r: StarterId)
    requires IsRun(run, steps) && Init(run[0]) && k < |steps|
    requires steps[k].Start? && steps[k].r == r && run[k].starters[r].pc.BeginRegister?
    ensures var s, s', d := run[k], run[k + 1], run[k].starters[r].domain;
            (exists t :: Superseded(s', t) && s'.issued[t] == d && MayStillWrite(s', t))
            <==> (exists t :: t in s.workers && s.workers[t].domain == d && PastGuard(s.workers[t].pc))
  {
    var s, s', d := run[k], run[k + 1], run[k].starters[r].domain;
    RunOk(run, steps, k);
    RunOk(run, steps, k + 1);
    assert s'.workers == s.workers && s'.jobs.entries[d] == s'.jobs.lastToken;
    forall t | Superseded(s', t) && s'.issued[t] == d
      ensures MayStillWrite(s', t) <==> t in s.workers && PastGuard(s.workers[t].pc)
    {
      LateWriteIff(run, steps, k + 1, t);
    }
    forall t | t in s.workers && s.workers[t].domain == d ensures Superseded(s', t) && s'.issued[t] == d {
      assert s'.jobs.lastToken in s'.issued && s'.issued[s'.jobs.lastToken] == d;
    }
  }

  // ---------------------------------------------------------------- disciplined starts

  predicate InsideBegin(s: State, r: StarterId, d: DomainId) {
    r in s.starters && s.starters[r].domain == d && (s.starters[r].pc.BeginWait? || s.starters[r].pc.BeginRegister?)
  }

  /** Starts of domain `d` do not overlap inside beginCertJob, and each registers after a wait that succeeded. */
  ghost predicate Disciplined(s: State, a: Step, d: DomainId, waits: bool) {
    a.Start? && a.r in s.starters && s.starters[a.r].domain == d ==>
      && (s.starters[a.r].pc.BeginCancel? ==> forall q :: q in s.starters ==> !InsideBegin(s, q, d))
      && (waits && s.starters[a.r].pc.BeginRegister? ==> s.starters[a.r].pc.waited)
  }

  /** The token's context is done, or its worker already gave up its entry. */
  predicate Dead(s: State, t: Token) {
    ContextDone(s, t) || Finished(s, t)
  }

  /** A worker that has not started, is undoing a cancelled job, or is on its way out. */
  predicate Quiet(pc: WorkerPc) {
    Rank(pc) != 1 || pc in {CheckContext, UndoGuard, UndoInflight, UndoWrite} || pc.FailGuard?
  }

  predicate Harmless(s: State, t: Token) {
    t in s.workers ==> Quiet(s.workers[t].pc)
  }

  ghost predicate DisciplineOk(s: State, d: DomainId, waits: bool) {
    && (forall q, r :: q in s.starters && r in s.starters && InsideBegin(s, q, d) && InsideBegin(s, r, d) ==> q == r)
    && (forall t :: Superseded(s, t) && s.issued[t] == d ==> Dead(s, t) && (waits ==> Harmless(s, t)))
    && (forall r, t :: r in s.starters && InsideBegin(s, r, d) && t in s.issued && s.issued[t] == d ==> Dead(s, t))
    && (waits ==> forall r, t :: (r in s.starters && InsideBegin(s, r, d) && s.starters[r].pc == BeginRegister(true)
                        && t in s.issued && s.issued[t] == d) ==> Harmless(s, t))
  }

  lemma DeadEvolution(s: State, a: Step, s': State, t: Token)
    requires Ok(s) && RegistryAdvances(s, s') && Evolves(s, a, s', t)
    requires t in s.issued && Dead(s, t)
    ensures Dead(s', t)
    ensures Harmless(s, t) ==> Harmless(s', t)
  {
    if a.Work? && a.token == t && t in s.workers && s.workers[t].pc != Exited {
      WorkRank(s, t, a.outcome);
    }
    assert ContextDone(s, t) ==> !TokenActive(s, t);
  }

  lemma DeadStays(s: State, a: Step, t: Token)
    requires Ok(s) && Enabled(s, a) && t in s.issued && Dead(s, t)
    ensures Dead(Next(s, a), t)
    ensures Harmless(s, t) ==> Harmless(Next(s, a), t)
  {
    hide Next;
    StepAdvances(s, a);
    StepEvolves(s, a, t);
    DeadEvolution(s, a, Next(s, a), t);
  }

  /** Steps other than a registration and the first section of beginCertJob for `d`. */
  lemma PlainKeepsDiscipline(s: State, a: Step, d: DomainId, waits: bool)
    requires Ok(s) && Enabled(s, a) && DisciplineOk(s, d, waits)
    requires a.Start? && s.starters[a.r].domain == d ==> !s.starters[a.r].pc.BeginCancel? && !s.starters[a.r].pc.BeginRegister? && !s.starters[a.r].pc.BeginWait?
    requires a.Start? && s.starters[a.r].pc.BeginRegister? ==> s.starters[a.r].domain != d
    ensures DisciplineOk(Next(s, a), d, waits)
  {
    hide Next;
    var s' := Next(s, a);
    IssuedForOthers(s, a, d);
    forall t | t in s.issued && Dead(s, t) ensures Dead(s', t) && (Harmless(s, t) ==> Harmless(s', t)) {
      DeadStays(s, a, t);
    }
    InsideKept(s, a, d);
  }

  lemma IssuedForOthers(s: State, a: Step, d: DomainId)
    requires Ok(s) && Enabled(s, a)
    requires a.Start? && s.starters[a.r].pc.BeginRegister? ==> s.starters[a.r].domain != d
    ensures var s' := Next(s, a);
            && (forall t :: t in s'.issued && s'.issued[t] == d ==> t in s.issued && s.issued[t] == d)
            && (forall t :: Superseded(s', t) && s'.issued[t] == d ==> Superseded(s, t))
  {
    var s' := Next(s, a);
    StepAdvances(s, a);
    if Outside(a) {
      OutsideAdvances(s, a);
    }
  }

  lemma InsideKept(s: State, a: Step, d: DomainId)
    requires Ok(s) && Enabled(s, a)
    requires a.Start? && s.starters[a.r].domain == d ==> !s.starters[a.r].pc.BeginCancel? && !s.starters[a.r].pc.BeginRegister? && !s.starters[a.r].pc.BeginWait?
    ensures var s' := Next(s, a);
            forall q :: q in s'.starters && InsideBegin(s', q, d) ==>
              InsideBegin(s, q, d) && s'.starters[q] == s.starters[q]
  {
    if Outside(a) {
      OutsideSameJobs(s, a);
    } else if a.Start? {
      StartPcAfter(s, a.r, a.ok);
    }
  }

  predicate PcAfter(s: State, s': State, r: StarterId, ok: bool)
    requires r in s.starters
  {
    && (forall q :: q in s'.starters && q != r ==> q in s.starters && s'.starters[q] == s.starters[q])
    && (r in s'.starters ==> s'.starters[r].domain == s.starters[r].domain)
    && (r in s'.starters && s'.starters[r].pc.BeginWait? ==> s.starters[r].pc.BeginCancel?)
    && (r in s'.starters && s'.starters[r].pc.BeginRegister? ==> s.starters[r].pc.BeginWait? && s'.starters[r].pc.waited == ok)
  }

  lemma StartPcAfter(s: State, r: StarterId, ok: bool)
    requires r in s.starters
    ensures PcAfter(s, AfterStart(s, r, ok), r, ok)
  {
  }

  /** `s'` is `s` with starter `r` moved to `pc` and possibly the contexts of some tokens done. */
  predicate MovedTo(s: State, s': State, r: StarterId, pc: StarterPc)
    requires r in s.starters
  {
    && s'.starters == s.starters[r := s.starters[r].(pc := pc)]
    && s'.workers == s.workers && s'.issued == s.issued && s.jobs.done <= s'.jobs.done
  }

  lemma MovedKeepsDead(s: State, s': State, r: StarterId, pc: StarterPc)
    requires r in s.starters && MovedTo(s, s', r, pc)
    ensures forall t :: Dead(s, t) ==> Dead(s', t)
    ensures forall t :: Harmless(s', t) == Harmless(s, t) && Superseded(s', t) == Superseded(s, t)
  {
    SameIssued(s, s');
  }

  lemma BeginCancelKeepsDiscipline(s: State, s': State, r: StarterId, since: int, d: DomainId, waits: bool)
    requires NewestOwnsEntry(s) && DisciplineOk(s, d, waits)
    requires r in s.starters && s.starters[r].domain == d && s.starters[r].pc.BeginCancel?
    requires forall q :: q in s.starters ==> !InsideBegin(s, q, d)
    requires MovedTo(s, s', r, BeginWait(since)) && (d in s.jobs.entries ==> s.jobs.entries[d] in s'.jobs.done)
    ensures DisciplineOk(s', d, waits)
  {
    MovedKeepsDead(s, s', r, BeginWait(since));
    forall t | t in s.issued && s.issued[t] == d ensures Dead(s', t) {
      if !Superseded(s, t) && !Finished(s, t) {
        assert s.jobs.entries[d] == t;
      }
    }
    assert forall q :: InsideBegin(s', q, d) ==> q == r;
  }

  lemma BeginWaitKeepsDiscipline(s: State, s': State, r: StarterId, ok: bool, d: DomainId, waits: bool)
    requires Ok(s) && DisciplineOk(s, d, waits) && (ok ==> Tracked(s, d) == 0)
    requires r in s.starters && s.starters[r].domain == d && s.starters[r].pc.BeginWait?
    requires MovedTo(s, s', r, BeginRegister(ok))
    ensures DisciplineOk(s', d, waits)
  {
    MovedKeepsDead(s, s', r, BeginRegister(ok));
    assert InsideBegin(s, r, d);
    assert forall q :: InsideBegin(s', q, d) ==> InsideBegin(s, q, d) && q == r;
    if ok {
      forall t | t in s.issued && s.issued[t] == d ensures Harmless(s', t) {
        if t in s.workers {
          WaitEmpty(s, d, t);
        }
      }
    }
  }

  lemma RegisterKeepsDiscipline(s: State, s': State, r: StarterId, d: DomainId, waits: bool)
    requires Ok(s) && DisciplineOk(s, d, waits)
    requires r in s.starters && s.starters[r].domain == d && s.starters[r].pc.BeginRegister? && (waits ==> s.starters[r].pc.waited)
    requires s'.starters == s.starters[r := s.starters[r].(pc := Spawn(s.jobs.lastToken + 1))] && s'.workers == s.workers
    requires s'.issued == s.issued[s.jobs.lastToken + 1 := d] && s'.jobs.done == s.jobs.done
    ensures DisciplineOk(s', d, waits)
  {
    assert InsideBegin(s, r, d);
    assert forall q :: InsideBegin(s', q, d) ==> InsideBegin(s, q, d) && q != r;
    forall t | Superseded(s', t) && s'.issued[t] == d ensures Dead(s', t) && (waits ==> Harmless(s', t)) {
      assert t in s.issued && s.issued[t] == d;
      assert Dead(s, t) && (waits ==> Harmless(s, t));
    }
  }

  lemma BeginKeepsDiscipline(s: State, r: StarterId, ok: bool, d: DomainId, waits: bool)
    requires Ok(s) && NewestOwnsEntry(s) && DisciplineOk(s, d, waits)
    requires StartEnabled(s, r, ok) && Disciplined(s, Start(r, ok), d, waits) && s.starters[r].domain == d
    requires var pc := s.starters[r].pc; pc.BeginCancel? || pc.BeginWait? || pc.BeginRegister?
    ensures DisciplineOk(AfterStart(s, r, ok), d, waits)
  {
    hide Ok, NewestOwnsEntry, DisciplineOk;
    match s.starters[r].pc {
      case BeginCancel => BeginCancelKeepsDiscipline(s, AfterStart(s, r, ok), r, s.clock, d, waits);
      case BeginWait(_) => BeginWaitKeepsDiscipline(s, AfterStart(s, r, ok), r, ok, d, waits);
      case BeginRegister(_) => RegisterKeepsDiscipline(s, AfterStart(s, r, ok), r, d, waits);
    }
  }

  lemma StepKeepsDiscipline(s: State, a: Step, d: DomainId, waits: bool)
    requires Ok(s) && NewestOwnsEntry(s) && DisciplineOk(s, d, waits)
    requires Enabled(s, a) && Disciplined(s, a, d, waits)
    ensures DisciplineOk(Next(s, a), d, waits)
  {
    if a.Start? && s.starters[a.r].domain == d && (s.starters[a.r].pc.BeginCancel? || s.starters[a.r].pc.BeginWait? || s.starters[a.r].pc.BeginRegister?) {
      BeginKeepsDiscipline(s, a.r, a.ok, d, waits);
    } else {
      PlainKeepsDiscipline(s, a, d, waits);
    }
  }

  /** The discipline up to moment `i`; with `waits` the waits before registering succeed too. */
  ghost predicate DisciplinedUntil(run: seq<State>, steps: seq<Step>, i: nat, d: DomainId, waits: bool)
    requires IsRun(run, steps) && i <= |steps|
  {
    forall x :: 0 <= x < i ==> Disciplined(run[x], steps[x], d, waits)
  }

  lemma DisciplineStarts(s: State, d: DomainId, waits: bool)
    requires Init(s)
    ensures DisciplineOk(s, d, waits)
  {
  }

  lemma {:induction false} RunDiscipline(run: seq<State>, steps: seq<Step>, k: nat, d: DomainId, waits: bool)
    requires IsRun(run, steps) && Init(run[0]) && k < |run| && DisciplinedUntil(run, steps, k, d, waits)
    ensures DisciplineOk(run[k], d, waits)
  {
    hide Next, Ok, NewestOwnsEntry, DisciplineOk, Disciplined;
    if k == 0 {
      DisciplineStarts(run[0], d, waits);
    } else {
      RunDiscipline(run, steps, k - 1, d, waits);
      RunOk(run, steps, k - 1);
      RunNewest(run, steps, k - 1);
      StepKeepsDiscipline(run[k - 1], steps[k - 1], d, waits);
    }
  }

  lemma {:induction false} DeadForever(run: seq<State>, steps: seq<Step>, i: nat, k: nat, t: Token)
    requires IsRun(run, steps) && Init(run[0]) && i <= k < |run| && t in run[i].issued && Dead(run[i], t)
    ensures t in run[k].issued && Dead(run[k], t)
    decreases k
  {
    hide Next, Ok, Dead;
    if i < k {
      DeadForever(run, steps, i, k - 1, t);
      RunOk(run, steps, k - 1);
      StepAdvances(run[k - 1], steps[k - 1]);
      DeadStays(run[k - 1], steps[k - 1], t);
    }
  }

  lemma DonePassesNoContext(s: State, a: Step)
    requires Enabled(s, a) && PassesContext(s, a)
    ensures !Dead(s, a.token)
  {
  }

  lemma DeadIsInactive(s: State, t: Token)
    requires Ok(s) && t in s.issued && Dead(s, t)
    ensures !TokenActive(s, t)
  {
  }

  /**
   Supersession is safe in either start order. If up to some moment the starts of a domain do not
   overlap inside beginCertJob and every replacement registered after a wait that succeeded, then
   from that moment on a job with an older token passes no check, not even one of its context
   alone, and writes nothing; its worker has either given up its entry or holds a context that is
   already done. What other starts do afterwards does not matter.
   */
  lemma SupersessionIsSafe(run: seq<State>, steps: seq<Step>, d: DomainId, i: nat, t: Token)
    requires IsRun(run, steps) && Init(run[0]) && i < |run| && DisciplinedUntil(run, steps, i, d, true)
    requires Superseded(run[i], t) && run[i].issued[t] == d
    ensures !MayStillWrite(run[i], t)
    ensures forall k :: i <= k < |steps| && (PassesGuard(run[k], steps[k]) || PassesContext(run[k], steps[k])) ==> steps[k].token != t
    ensures Finished(run[i], t) || ContextDone(run[i], t)
  {
    hide Next;
    RunDiscipline(run, steps, i, d, true);
    SupersededPassesNothing(run, steps, d, i, t, true);
    RunOk(run, steps, i);
    DeadIsInactive(run[i], t);
    LateWriteIff(run, steps, i, t);
  }

  /**
   Without overlap alone, whatever the waits did, a superseded job passes no check any more: it
   starts no ACME work, touches neither the DNS nor the CA, and only a write it already stands
   before can still happen.
   */
  lemma SupersededPassesNothing(run: seq<State>, steps: seq<Step>, d: DomainId, i: nat, t: Token, waits: bool)
    requires IsRun(run, steps) && Init(run[0]) && i < |run| && DisciplinedUntil(run, steps, i, d, waits)
    requires Superseded(run[i], t) && run[i].issued[t] == d
    ensures Finished(run[i], t) || ContextDone(run[i], t)
    ensures forall k :: i <= k < |steps| && (PassesGuard(run[k], steps[k]) || PassesContext(run[k], steps[k])) ==> steps[k].token != t
  {
    hide Next, Enabled, Ok;
    RunDiscipline(run, steps, i, d, waits);
    RunOk(run, steps, i);
    assert Dead(run[i], t);
    DeadIsInactive(run[i], t);
    forall k | i <= k < |steps| && (PassesGuard(run[k], steps[k]) || PassesContext(run[k], steps[k])) ensures steps[k].token != t {
      if PassesGuard(run[k], steps[k]) {
        InactivePassesNoGuard(run, steps, i, k, t);
      } else {
        DonePassesNoContext(run[k], steps[k]);
        DeadForever(run, steps, i, k, t);
      }
    }
  }

  // ---------------------------------------------------------------- requests to the CA

  ghost predicate TouchesCaWithin(run: seq<State>, steps: seq<Step>, t: Token) {
    exists k :: 0 <= k < |steps| && steps[k] == CaTouch(t)
  }

  ghost predicate MayStillReachCa(s: State, t: Token) {
    exists run: seq<State>, steps: seq<Step> :: IsRun(run, steps) && run[0] == s && TouchesCaWithin(run, steps, t)
  }

  /** Its ACME call is not running, or its requests to the CA are cut off. */
  predicate CutOff(s: State, t: Token) {
    ContextDone(s, t) || (t in s.workers ==> s.workers[t].pc != AcmeRunning)
  }

  lemma CutOffEvolution(s: State, a: Step, s': State, t: Token)
    requires Ok(s) && RegistryAdvances(s, s') && Evolves(s, a, s', t)
    requires t in s.issued && !TokenActive(s, t) && CutOff(s, t)
    ensures CutOff(s', t)
  {
  }

  lemma CutOffStays(s: State, a: Step, t: Token)
    requires Ok(s) && Enabled(s, a) && t in s.issued && !TokenActive(s, t) && CutOff(s, t)
    ensures t in Next(s, a).issued && !TokenActive(Next(s, a), t) && CutOff(Next(s, a), t)
    ensures a != CaTouch(t)
  {
    hide Next;
    StepAdvances(s, a);
    StepEvolves(s, a, t);
    CutOffEvolution(s, a, Next(s, a), t);
  }

  lemma {:induction false} NoLateTouch(run: seq<State>, steps: seq<Step>, k: nat, t: Token)
    requires IsRun(run, steps) && k < |run| && Ok(run[0])
    requires t in run[0].issued && !TokenActive(run[0], t) && CutOff(run[0], t)
    ensures Ok(run[k]) && t in run[k].issued && !TokenActive(run[k], t) && CutOff(run[k], t)
  {
    hide Next, Ok, CutOff;
    if k > 0 {
      NoLateTouch(run, steps, k - 1, t);
      CutOffStays(run[k - 1], steps[k - 1], t);
      StepKeepsOk(run[k - 1], steps[k - 1]);
    }
  }

  /**
   Requests to the CA check the context alone: a job that is no longer active can still reach the
   CA exactly when its ACME call is running and nobody made its context done.
   */
  lemma LateCaRequestIff(run: seq<State>, steps: seq<Step>, i: nat, t: Token)
    requires IsRun(run, steps) && Init(run[0]) && i < |run|
    requires t in run[i].issued && !TokenActive(run[i], t)
    ensures MayStillReachCa(run[i], t) <==> t in run[i].workers && run[i].workers[t].pc == AcmeRunning && !ContextDone(run[i], t)
  {
    RunOk(run, steps, i);
    var s := run[i];
    if t in s.workers && s.workers[t].pc == AcmeRunning && !ContextDone(s, t) {
      var run', steps' := [s, s], [CaTouch(t)];
      assert IsRun(run', steps') && steps'[0] == CaTouch(t);
      assert TouchesCaWithin(run', steps', t);
    } else {
      forall run': seq<State>, steps': seq<Step> | IsRun(run', steps') && run'[0] == s
        ensures !TouchesCaWithin(run', steps', t)
      {
        forall k | 0 <= k < |steps'| ensures steps'[k] != CaTouch(t) {
          NoLateTouch(run', steps', k, t);
          CutOffStays(run'[k], steps'[k], t);
        }
      }
    }
  }
}
