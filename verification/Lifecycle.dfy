/** What one cleanup pass and an orderly shutdown achieve, whatever else runs meanwhile. */
module Lifecycle {
  import opened Options
  import opened Rows
  import RowEffects
  import opened Protocol
  import opened ProtocolInvariant
  import opened JobSafety
  import opened Leases

  // ---------------------------------------------------------------- no starts for a domain

  /** Step `a` does not advance a request or renewal attempt of domain `d`. */
  predicate NoStart(s: State, a: Step, d: DomainId) {
    a.Start? && a.r in s.starters ==> s.starters[a.r].domain != d
  }

  lemma StaysUnlocked(s: State, a: Step, d: DomainId)
    requires Enabled(s, a) && NoStart(s, a, d) && !Locked(s.db, d)
    ensures !Locked(Next(s, a).db, d)
  {
    StepOnLease(s, a, d);
  }

  /** The registered job of `d`, if any, has a worker that joined the wait group. */
  predicate EntryTracked(s: State, d: DomainId) {
    d in s.jobs.entries ==>
      s.jobs.entries[d] in s.workers && s.workers[s.jobs.entries[d]].domain == d && Rank(s.workers[s.jobs.entries[d]].pc) >= 1
  }

  lemma EntriesOnlyLeave(s: State, a: Step, d: DomainId)
    requires Ok(s) && Enabled(s, a) && NoStart(s, a, d)
    ensures d in Next(s, a).jobs.entries ==> d in s.jobs.entries && Next(s, a).jobs.entries[d] == s.jobs.entries[d]
  {
    if Outside(a) {
      OutsideSameJobs(s, a);
    }
  }

  lemma TrackedStays(s: State, a: Step, d: DomainId)
    requires Ok(s) && Enabled(s, a) && NoStart(s, a, d) && EntryTracked(s, d)
    ensures EntryTracked(Next(s, a), d)
  {
    EntriesOnlyLeave(s, a, d);
    if d in Next(s, a).jobs.entries {
      var t := s.jobs.entries[d];
      StepEvolves(s, a, t);
      TrackedEvolution(s, a, Next(s, a), t);
    }
  }

  lemma TrackedEvolution(s: State, a: Step, s': State, t: Token)
    requires Evolves(s, a, s', t) && t in s.workers && Rank(s.workers[t].pc) >= 1
    ensures t in s'.workers && s'.workers[t].domain == s.workers[t].domain && Rank(s'.workers[t].pc) >= 1
  {
    if a.Work? && a.token == t && s.workers[t].pc != Exited {
      WorkRank(s, t, a.outcome);
    }
  }

  /** A wait that succeeds finds the registry entry of a tracked job gone. */
  lemma WaitClearsEntry(s: State, d: DomainId)
    requires Ok(s) && EntryTracked(s, d) && Tracked(s, d) == 0
    ensures d !in s.jobs.entries
  {
    if d in s.jobs.entries {
      WaitEmpty(s, d, s.jobs.entries[d]);
    }
  }

  // ---------------------------------------------------------------- one cleanup pass

  lemma CleanerMoves(s: State, a: Step)
    requires Enabled(s, a)
    ensures Next(s, a).cleaner == if a.Clean? then NextCleaner(s, a.clean) else s.cleaner
  {
  }

  /** The pass over `q` has dealt with the first `n` domains. */
  ghost predicate PassAt(s: State, q: seq<DomainId>, n: nat) {
    && n <= |q| && s.cleaner.queue == q[n..]
    && (forall m :: 0 <= m < n ==> !Locked(s.db, q[m]))
    && (forall m :: 0 <= m < |q| ==> EntryTracked(s, q[m]))
    && (n < |q| && s.cleaner.phase in {CleanRecheck, CleanWrite} ==> q[n] !in s.jobs.entries)
  }

  /** Step `a` neither starts a job for the domains of `q`, nor begins another pass, nor gives up a wait. */
  predicate Undisturbing(s: State, a: Step, q: seq<DomainId>) {
    && (forall m :: 0 <= m < |q| ==> NoStart(s, a, q[m]))
    && (a.Clean? ==> a.clean.Advance? && a.clean.ok)
  }

  lemma OthersKeepPass(s: State, a: Step, q: seq<DomainId>, n: nat)
    requires Ok(s) && Enabled(s, a) && Undisturbing(s, a, q) && PassAt(s, q, n) && !a.Clean?
    ensures PassAt(Next(s, a), q, n)
  {
    hide Next;
    CleanerMoves(s, a);
    forall m | 0 <= m < |q| ensures EntryTracked(Next(s, a), q[m]) {
      TrackedStays(s, a, q[m]);
    }
    forall m | 0 <= m < n ensures !Locked(Next(s, a).db, q[m]) {
      StaysUnlocked(s, a, q[m]);
    }
    if n < |q| {
      EntriesOnlyLeave(s, a, q[n]);
    }
  }

  lemma AdvanceKeepsPass(s: State, q: seq<DomainId>, n: nat) returns (n': nat)
    requires Ok(s) && Enabled(s, Clean(Advance(true))) && PassAt(s, q, n)
    ensures PassAt(AfterClean(s, Advance(true)), q, n')
  {
    var a, s' := Clean(Advance(true)), AfterClean(s, Advance(true));
    assert s.cleaner.queue[0] == q[n] && s.cleaner.queue[1..] == q[n + 1..];
    forall m | 0 <= m < |q| ensures EntryTracked(s', q[m]) {
      TrackedStays(s, a, q[m]);
    }
    forall m | 0 <= m < n ensures !Locked(s'.db, q[m]) {
      StaysUnlocked(s, a, q[m]);
    }
    n' := if s.cleaner.phase == CleanWrite then n + 1 else n;
    if s.cleaner.phase.CleanWait? {
      WaitClearsEntry(s, q[n]);
    }
  }

  lemma PassStarts(s: State, q: seq<DomainId>)
    requires Ok(s) && Enabled(s, Clean(ListStuck(q)))
    requires forall m :: 0 <= m < |q| ==> EntryTracked(s, q[m])
    ensures PassAt(Next(s, Clean(ListStuck(q))), q, 0)
  {
    assert q[0..] == q;
  }

  lemma PassContinues(s: State, a: Step, q: seq<DomainId>, n: nat) returns (n': nat)
    requires Ok(s) && Enabled(s, a) && Undisturbing(s, a, q) && PassAt(s, q, n)
    ensures PassAt(Next(s, a), q, n')
  {
    if a.Clean? {
      n' := AdvanceKeepsPass(s, q, n);
    } else {
      n' := n;
      OthersKeepPass(s, a, q, n);
    }
  }

  lemma {:induction false} PassAlong(run: seq<State>, steps: seq<Step>, i: nat, k: nat, q: seq<DomainId>) returns (n: nat)
    requires IsRun(run, steps) && Init(run[0]) && i < k < |run| && steps[i] == Clean(ListStuck(q))
    requires forall m :: 0 <= m < |q| ==> EntryTracked(run[i], q[m])
    requires forall x :: i < x < k ==> Undisturbing(run[x], steps[x], q)
    ensures PassAt(run[k], q, n)
    decreases k
  {
    hide Next, Ok, PassAt, Undisturbing;
    RunOk(run, steps, k - 1);
    if k == i + 1 {
      n := 0;
      PassStarts(run[i], q);
    } else {
      n := PassAlong(run, steps, i, k - 1, q);
      n := PassContinues(run[k - 1], steps[k - 1], q, n);
    }
  }

  /**
   If every registered job of the stuck domains has a worker in its wait group, all waits of the
   pass succeed and no start for these domains interleaves, then a finished cleanup pass has
   taken every domain that was stuck at its scan out of generating.
   */
  lemma CleanupProgress(run: seq<State>, steps: seq<Step>, i: nat, k: nat, q: seq<DomainId>, d: DomainId)
    requires IsRun(run, steps) && Init(run[0]) && i < k < |run| && steps[i] == Clean(ListStuck(q))
    requires forall m :: 0 <= m < |q| ==> EntryTracked(run[i], q[m])
    requires forall x :: i < x < k ==> Undisturbing(run[x], steps[x], q)
    requires run[k].cleaner.queue == []
    requires d in StuckIds(run[i].db, run[i].clock - run[i].cfg.timeout)
    ensures !Locked(run[k].db, d)
  {
    hide Next;
    var n := PassAlong(run, steps, i, k, q);
    assert |q[n..]| == 0 && n == |q|;
    assert d in Elements(q);
    var m :| 0 <= m < |q| && q[m] == d;
  }

  /** The pass under way at `k` began with the scan at `i`, which listed `d`. */
  ghost predicate ScannedAt(run: seq<State>, steps: seq<Step>, i: nat, k: nat, d: DomainId)
    requires IsRun(run, steps) && i < k < |run|
  {
    && steps[i].Clean? && steps[i].clean.ListStuck? && d in steps[i].clean.queue
    && (forall x :: i < x < k ==> !(steps[x].Clean? && steps[x].clean.ListStuck?))
    && d in StuckIds(run[i].db, run[i].clock - run[i].cfg.timeout)
  }

  lemma {:induction false} QueueFromScan(run: seq<State>, steps: seq<Step>, k: nat, d: DomainId) returns (i: nat)
    requires IsRun(run, steps) && Init(run[0]) && k < |run| && d in run[k].cleaner.queue
    ensures i < k && ScannedAt(run, steps, i, k, d)
    decreases k
  {
    hide Next;
    var s, a := run[k - 1], steps[k - 1];
    CleanerMoves(s, a);
    if a.Clean? && a.clean.ListStuck? {
      i := k - 1;
      assert d in Elements(a.clean.queue);
    } else {
      assert d in s.cleaner.queue;
      i := QueueFromScan(run, steps, k - 1, d);
    }
  }

  /** A domain reaches the write phase only through a check that found no registered job. */
  lemma {:induction false} WriteAfterCheck(run: seq<State>, steps: seq<Step>, k: nat) returns (m: nat)
    requires IsRun(run, steps) && Init(run[0]) && k < |run|
    requires run[k].cleaner.queue != [] && run[k].cleaner.phase == CleanWrite
    ensures m < k && steps[m].Clean? && steps[m].clean.Advance?
    ensures run[m].cleaner.queue == run[k].cleaner.queue && run[m].cleaner.phase == CleanRecheck
    ensures run[k].cleaner.queue[0] !in run[m].jobs.entries
    decreases k
  {
    hide Next;
    var s, a := run[k - 1], steps[k - 1];
    CleanerMoves(s, a);
    if a.Clean? {
      m := k - 1;
    } else {
      assert s.cleaner == run[k].cleaner;
      m := WriteAfterCheck(run, steps, k - 1);
    }
  }

  /** A pass cancels and waits only for a domain that had a registered job when the pass came to it. */
  lemma {:induction false} CancelAfterCheck(run: seq<State>, steps: seq<Step>, k: nat) returns (m: nat)
    requires IsRun(run, steps) && Init(run[0]) && k < |run|
    requires run[k].cleaner.queue != [] && (run[k].cleaner.phase.CleanCancel? || run[k].cleaner.phase.CleanWait?)
    ensures m < k && run[m].cleaner == Cleaner(run[k].cleaner.queue, CleanCheck)
    ensures run[k].cleaner.queue[0] in run[m].jobs.entries
    decreases k
  {
    hide Next;
    var s, a := run[k - 1], steps[k - 1];
    CleanerMoves(s, a);
    if a.Clean? && s.cleaner.phase.CleanCheck? {
      m := k - 1;
    } else {
      m := CancelAfterCheck(run, steps, k - 1);
    }
  }

  /**
   The cleanup changes no other row: a step of the pass that changes a row changes the row of a
   domain that was stuck at the scan and had no registered job at the check after its wait.
   */
  lemma CleanupFrame(run: seq<State>, steps: seq<Step>, k: nat, d: DomainId) returns (i: nat, m: nat)
    requires IsRun(run, steps) && Init(run[0]) && k < |steps| && steps[k].Clean?
    requires d in run[k].db.domains && (d !in run[k + 1].db.domains || run[k + 1].db.domains[d] != run[k].db.domains[d])
    ensures i < k && ScannedAt(run, steps, i, k, d)
    ensures m < k && run[m].cleaner.phase == CleanRecheck && run[m].cleaner.queue == run[k].cleaner.queue
    ensures run[k].cleaner.queue != [] && run[k].cleaner.queue[0] == d && d !in run[m].jobs.entries
  {
    i := QueueFromScan(run, steps, k, d);
    m := WriteAfterCheck(run, steps, k);
  }

  // ---------------------------------------------------------------- shutdown

  lemma NoStartersStep(s: State, a: Step)
    requires Enabled(s, a) && s.starters == map[] && !a.Arrive?
    ensures Next(s, a).starters == map[]
  {
    if Outside(a) {
      OutsideSameJobs(s, a);
    }
  }

  lemma {:induction false} NoStarters(run: seq<State>, steps: seq<Step>, i: nat, k: nat)
    requires IsRun(run, steps) && i <= k < |run| && run[i].starters == map[]
    requires forall x :: i <= x < k ==> !steps[x].Arrive?
    ensures run[k].starters == map[]
    decreases k
  {
    hide Next;
    if i < k {
      NoStarters(run, steps, i, k - 1);
      NoStartersStep(run[k - 1], steps[k - 1]);
    }
  }

  lemma CancelAllStops(s: State, t: Token)
    requires Enabled(s, Shut(CancelAll)) && t in s.issued
    ensures !TokenActive(Next(s, Shut(CancelAll)), t)
  {
  }

  /** Once shutdown has cancelled all jobs, no job started before ever passes a liveness check again. */
  lemma ShutdownStopsJobs(run: seq<State>, steps: seq<Step>, i: nat, k: nat, t: Token)
    requires IsRun(run, steps) && Init(run[0]) && i < k < |steps|
    requires steps[i] == Shut(CancelAll) && t in run[i].issued
    ensures !TokenActive(run[k], t)
    ensures PassesGuard(run[k], steps[k]) ==> steps[k].token != t
  {
    hide Next;
    CancelAllStops(run[i], t);
    RunOk(run, steps, i);
    StepAdvances(run[i], steps[i]);
    InactiveForever(run, steps, i + 1, k, t);
  }

  /** Nothing registered, no worker that can still do anything, no slot held. */
  predicate Quiescent(s: State) {
    && s.jobs.entries == map[] && s.slots == 0
    && forall t :: t in s.workers ==> s.workers[t].pc in {ExitTracker, Exited}
  }

  /**
   A successful drain leaves no job running. What attempts still under way hold is theirs alone:
   every registered job awaits its start by one of them, every occupied slot is held by one.
   */
  lemma DrainLeaves(run: seq<State>, steps: seq<Step>, j: nat)
    requires IsRun(run, steps) && Init(run[0]) && j < |steps| && steps[j] == Shut(Drain(true))
    ensures var s := run[j];
            && (forall t :: t in s.workers ==> s.workers[t].pc in {ExitTracker, Exited})
            && (forall d :: d in s.jobs.entries ==> AwaitsSpawn(s, s.jobs.entries[d]))
            && s.slots == |StartersWithSlot(s.starters)|
  {
    RunOk(run, steps, j);
    DrainedLeaves(run[j]);
  }

  lemma DrainedLeaves(s: State)
    requires Ok(s) && s.group == 0
    ensures forall t :: t in s.workers ==> s.workers[t].pc in {ExitTracker, Exited}
    ensures forall d :: d in s.jobs.entries ==> AwaitsSpawn(s, s.jobs.entries[d])
    ensures s.slots == |StartersWithSlot(s.starters)|
  {
    hide TokensOk, SpawnsOk, AwaitsSpawn, StartersWithSlot;
    WorkersGone(s);
    EntriesAwait(s);
  }

  lemma WorkersGone(s: State)
    requires CountsOk(s) && s.group == 0
    ensures forall t :: t in s.workers ==> s.workers[t].pc in {ExitTracker, Exited}
    ensures WorkersWith(s.workers, Slot) == {}
  {
    assert WorkersWith(s.workers, Group) == {};
    forall t | t in s.workers ensures s.workers[t].pc in {ExitTracker, Exited} {
      assert t !in WorkersWith(s.workers, Group);
    }
  }

  lemma EntriesAwait(s: State)
    requires TokensOk(s) && forall t :: t in s.workers ==> s.workers[t].pc in {ExitTracker, Exited}
    ensures forall d :: d in s.jobs.entries ==> AwaitsSpawn(s, s.jobs.entries[d])
  {
    hide AwaitsSpawn;
    assert forall t :: t in s.workers ==> Rank(s.workers[t].pc) > 3;
  }

  lemma DrainedIsQuiescent(s: State)
    requires Ok(s) && s.group == 0 && s.starters == map[]
    ensures Quiescent(s)
  {
    DrainedLeaves(s);
    assert forall t :: !AwaitsSpawn(s, t);
    assert forall d :: d !in s.jobs.entries;
    assert StartersWithSlot(s.starters) == {};
  }

  /** From the drain on, with no further arrivals, the job system stays quiescent. */
  lemma QuiescentStays(s: State, a: Step)
    requires Quiescent(s) && s.starters == map[] && Enabled(s, a) && !a.Arrive?
    ensures Quiescent(Next(s, a)) && Next(s, a).starters == map[]
  {
    if Outside(a) {
      OutsideSameJobs(s, a);
    }
  }

  lemma {:induction false} QuiescentAlong(run: seq<State>, steps: seq<Step>, j: nat, k: nat)
    requires IsRun(run, steps) && j <= k < |run| && Quiescent(run[j]) && run[j].starters == map[]
    requires forall x :: j <= x < k ==> !steps[x].Arrive?
    ensures Quiescent(run[k]) && run[k].starters == map[]
    decreases k
  {
    hide Next;
    if j < k {
      QuiescentAlong(run, steps, j, k - 1);
      QuiescentStays(run[k - 1], steps[k - 1]);
    }
  }

  predicate NoLock(run: seq<State>, steps: seq<Step>, d: DomainId, i: nat, x: nat)
    requires IsRun(run, steps) && x <= |steps|
  {
    forall y :: i <= y < x ==> !Locks(run[y], steps[y], d)
  }

  /** The rollback loop over `q`, listed at `i`, has dealt with the first `n` domains by moment `x`. */
  ghost predicate UndoAt(run: seq<State>, steps: seq<Step>, i: nat, x: nat, q: seq<DomainId>, n: nat)
    requires IsRun(run, steps) && x < |run|
  {
    && n <= |q| && run[x].main == Undoing(q[n..])
    && (forall d :: Locked(run[x].db, d) && NoLock(run, steps, d, i, x) ==> d in q[n..])
  }

  lemma UndoRow(s: State, a: Step, d: DomainId, q: seq<DomainId>)
    requires Enabled(s, a) && s.main == Undoing(q) && !Locks(s, a, d)
    ensures Next(s, a).main == Undoing(if a == Shut(UndoNext) then q[1..] else q)
    ensures Locked(Next(s, a).db, d) ==> Locked(s.db, d) && (a == Shut(UndoNext) ==> d != q[0])
  {
    StepOnLease(s, a, d);
  }

  lemma UndoStep(run: seq<State>, steps: seq<Step>, i: nat, x: nat, q: seq<DomainId>, n: nat) returns (n': nat)
    requires IsRun(run, steps) && i <= x < |steps| && UndoAt(run, steps, i, x, q, n)
    ensures UndoAt(run, steps, i, x + 1, q, n')
  {
    hide Next, Locks, Locked;
    var s, a, s' := run[x], steps[x], run[x + 1];
    n' := if a == Shut(UndoNext) then n + 1 else n;
    UndoMain(s, a, q[n..]);
    assert a == Shut(UndoNext) ==> q[n..][1..] == q[n + 1..];
    forall d | Locked(s'.db, d) && NoLock(run, steps, d, i, x + 1) ensures d in q[n'..] {
      UndoRow(s, a, d, q[n..]);
      assert NoLock(run, steps, d, i, x);
      assert d in q[n..];
    }
  }

  lemma UndoMain(s: State, a: Step, q: seq<DomainId>)
    requires Enabled(s, a) && s.main == Undoing(q)
    ensures Next(s, a).main == Undoing(if a == Shut(UndoNext) then q[1..] else q)
    ensures a == Shut(UndoNext) ==> q != []
  {
  }

  lemma UndoStarts(s: State, q: seq<DomainId>, d: DomainId)
    requires Enabled(s, Shut(ListLocked(q)))
    ensures Next(s, Shut(ListLocked(q))).main == Undoing(q)
    ensures Locked(Next(s, Shut(ListLocked(q))).db, d) ==> d in q
  {
    assert d in LockedIds(s.db) ==> d in Elements(q);
  }

  lemma {:induction false} UndoAlong(run: seq<State>, steps: seq<Step>, i: nat, k: nat, q: seq<DomainId>) returns (n: nat)
    requires IsRun(run, steps) && i < k < |run| && steps[i] == Shut(ListLocked(q))
    ensures UndoAt(run, steps, i, k, q, n)
    decreases k
  {
    hide Next, Locks, Locked;
    if k == i + 1 {
      n := 0;
      assert q[0..] == q;
      UndoStarts(run[i], q, 0);
      forall d | Locked(run[k].db, d) ensures d in q {
        UndoStarts(run[i], q, d);
      }
    } else {
      n := UndoAlong(run, steps, i, k - 1, q);
      n := UndoStep(run, steps, i, k - 1, q, n);
    }
  }

  /**
   Whatever else runs meanwhile, when the rollback loop has finished a domain is generating
   exactly when an attempt took its lease after the loop had listed the rows.
   */
  lemma ShutdownLeavesIff(run: seq<State>, steps: seq<Step>, k: nat, l: nat, q: seq<DomainId>, d: DomainId)
    requires IsRun(run, steps) && k < l < |run|
    requires steps[k] == Shut(ListLocked(q)) && run[l].main == Undoing([])
    ensures Locked(run[l].db, d) <==> exists m :: k < m < l && LeaseFrom(run, steps, d, m, l)
  {
    hide Next, Locks, Locked;
    if Locked(run[l].db, d) {
      var n := UndoAlong(run, steps, k, l, q);
      assert |q[n..]| == 0;
      assert !NoLock(run, steps, d, k, l);
      var m := LeaseOrigin(run, steps, d, k, l);
      assert m != k by {
        assert !Locks(run[k], steps[k], d) by { NotALock(run[k], steps[k], d); }
      }
    }
  }

  lemma NotALock(s: State, a: Step, d: DomainId)
    requires !a.Start? || s.starters == map[]
    ensures !Locks(s, a, d)
  {
  }

  /**
   With no attempt under way at a successful drain and none afterwards, the registry is empty, no
   worker has work left and every slot is free, for good; and the finished rollback loop leaves
   no live domain generating.
   */
  lemma ShutdownIsClean(run: seq<State>, steps: seq<Step>, j: nat, k: nat, l: nat, q: seq<DomainId>)
    requires IsRun(run, steps) && Init(run[0]) && j < k < l < |run|
    requires steps[j] == Shut(Drain(true)) && run[j].starters == map[]
    requires forall x :: j <= x < l ==> !steps[x].Arrive?
    requires steps[k] == Shut(ListLocked(q)) && run[l].main == Undoing([])
    ensures forall x :: j <= x <= l ==> Quiescent(run[x])
    ensures forall d :: !Locked(run[l].db, d)
  {
    hide Next, Locks, Locked, Quiescent;
    RunOk(run, steps, j);
    DrainedIsQuiescent(run[j]);
    forall x | j <= x <= l ensures Quiescent(run[x]) {
      QuiescentAlong(run, steps, j, x);
    }
    forall d ensures !Locked(run[l].db, d) {
      ShutdownLeavesIff(run, steps, k, l, q, d);
      forall m | k < m < l ensures !LeaseFrom(run, steps, d, m, l) {
        NoStarters(run, steps, j, m);
        NotALock(run[m], steps[m], d);
      }
    }
  }

  /** Its row is generating with a certificate, or has been put back to active. */
  predicate KeptActive(db: Database, d: DomainId) {
    HasCert(db, d) && Live(db, d) && db.domains[d].status in {Generating, Active}
  }

  lemma QuietStepKeepsActive(s: State, a: Step, d: DomainId)
    requires Quiescent(s) && s.starters == map[] && Enabled(s, a) && !a.Handle? && KeptActive(s.db, d)
    ensures KeptActive(Next(s, a).db, d)
  {
    StepIsOp(s, a);
    var op := OpOf(s, a);
    assert op == Keep || op.DoRollback?;
    assert HasCert(Apply(s, op), d) == HasCert(s.db, d);
  }

  lemma {:induction false} KeptActiveAlong(run: seq<State>, steps: seq<Step>, j: nat, k: nat, d: DomainId)
    requires IsRun(run, steps) && j <= k < |run| && Quiescent(run[j]) && run[j].starters == map[]
    requires forall x :: j <= x < k ==> !steps[x].Arrive? && !steps[x].Handle?
    requires KeptActive(run[j].db, d)
    ensures KeptActive(run[k].db, d)
    decreases k
  {
    hide Next;
    if j < k {
      KeptActiveAlong(run, steps, j, k - 1, d);
      QuiescentAlong(run, steps, j, k - 1);
      QuietStepKeepsActive(run[k - 1], steps[k - 1], d);
    }
  }

  /** A generating domain that holds a certificate when the drain ends comes out of shutdown active. */
  lemma ShutdownActivatesCertified(run: seq<State>, steps: seq<Step>, j: nat, k: nat, l: nat, q: seq<DomainId>, d: DomainId)
    requires IsRun(run, steps) && Init(run[0]) && j < k < l < |run|
    requires steps[j] == Shut(Drain(true)) && run[j].starters == map[]
    requires forall x :: j <= x < l ==> !steps[x].Arrive? && !steps[x].Handle?
    requires steps[k] == Shut(ListLocked(q)) && run[l].main == Undoing([])
    requires Locked(run[j].db, d) && HasCert(run[j].db, d)
    ensures Live(run[l].db, d) && run[l].db.domains[d].status == Active
  {
    hide Next;
    ShutdownIsClean(run, steps, j, k, l, q);
    KeptActiveAlong(run, steps, j, l, d);
    assert !Locked(run[l].db, d);
  }

  // ---------------------------------------------------------------- what the two rollback loops write

  /** Step `a` is a rollback of cleanup or shutdown for domain `d`. */
  predicate RollsBack(s: State, a: Step, d: DomainId) {
    || (a.Clean? && a.clean.Advance? && s.cleaner.phase == CleanWrite && s.cleaner.queue != [] && s.cleaner.queue[0] == d)
    || (a == Shut(UndoNext) && s.main.Undoing? && s.main.queue != [] && s.main.queue[0] == d)
  }

  /** Both loops put a generating row back by its certificate and its verification, and report a time-out only on an error. */
  lemma RollbackStepWrites(s: State, a: Step, d: DomainId)
    requires Enabled(s, a) && RollsBack(s, a, d)
    ensures var db' := Next(s, a).db;
            if !Locked(s.db, d) then db' == s.db
            else
              && RowEffects.OnlyRow(s.db, db', d)
              && var row, row' := s.db.domains[d], db'.domains[d];
                 var hasCert := exists c :: c in s.db.certs && s.db.certs[c].domainId == d;
                 && row'.status == (if hasCert then Active else if row.cnameVerifiedAt.Some? then Verified else Error)
                 && row'.errorMessage == (if row'.status == Error then STUCK_MESSAGE else "") && row'.generatingSince == None
  {
    hide RollbackStuck;
    assert Next(s, a).db == RollbackStuck(s.db, d, s.clock);
    StuckWrites(s.db, d, s.clock);
  }

  lemma StuckWrites(db: Database, d: DomainId, now: int)
    ensures var db' := RollbackStuck(db, d, now);
            && RowEffects.OnlyRow(db, db', d)
            && (!Locked(db, d) ==> db' == db)
            && (Locked(db, d) ==>
                  var row, row' := db.domains[d], db'.domains[d];
                  var hasCert := exists c :: c in db.certs && db.certs[c].domainId == d;
                  && row'.status == (if hasCert then Active else if row.cnameVerifiedAt.Some? then Verified else Error)
                  && row'.errorMessage == (if row'.status == Error then STUCK_MESSAGE else "") && row'.generatingSince == None)
  {
    RowEffects.RollbackEffect(db, d, if HasCert(db, d) then "" else STUCK_MESSAGE, true, now);
    if Locked(db, d) {
      RowEffects.RollbackStuckEffect(db, d, now);
    }
  }
}
