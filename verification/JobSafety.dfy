/** Safety of the job protocol over every run: slots, waits, tokens. */
module JobSafety {
  import opened Sets
  import opened Rows
  import opened Protocol
  import opened ProtocolInvariant

  // ---------------------------------------------------------------- slots

  ghost function Running(s: State): set<Token> {
    set t | t in s.workers && Rank(s.workers[t].pc) == 1
  }

  /**
   In every reachable state the occupied slots are exactly the starters and workers holding one,
   so at most the configured number of workers run, no release finds the pool empty, and once
   every started job has left the shutdown group and no starter holds a slot, the pool is empty.
   */
  lemma SlotConservation(run: seq<State>, steps: seq<Step>, k: nat)
    requires IsRun(run, steps) && Init(run[0]) && k < |run|
    ensures var s := run[k];
            && s.slots == |StartersWithSlot(s.starters)| + |WorkersWith(s.workers, Slot)|
            && |Running(s)| <= s.slots <= s.cfg.slots
            && (forall t :: t in s.workers && s.workers[t].pc == ExitSlot ==> s.slots > 0)
            && (s.group == 0 && StartersWithSlot(s.starters) == {} ==> s.slots == 0)
  {
    RunOk(run, steps, k);
    var s := run[k];
    SubsetSize(Running(s), WorkersWith(s.workers, Slot));
    SubsetSize(WorkersWith(s.workers, Slot), WorkersWith(s.workers, Group));
    forall t | t in s.workers && s.workers[t].pc == ExitSlot ensures s.slots > 0 {
      assert t in WorkersWith(s.workers, Slot);
    }
  }

  // ---------------------------------------------------------------- waits

  /**
   When a wait for a domain's workers can succeed, every worker of the domain that had begun has
   finished: it released its slot, its registry entry is not its own any more, and it left the
   shutdown group. The others have not joined the wait group yet.
   */
  lemma WaitMeaning(run: seq<State>, steps: seq<Step>, k: nat, d: DomainId, t: Token)
    requires IsRun(run, steps) && Init(run[0]) && k < |run|
    requires Tracked(run[k], d) == 0
    requires t in run[k].workers && run[k].workers[t].domain == d
    ensures var s := run[k];
            s.workers[t].pc == Spawned
            || (s.workers[t].pc == Exited
                && !WorkerHolds(s.workers[t], Slot) && !WorkerHolds(s.workers[t], Group)
                && (d in s.jobs.entries ==> s.jobs.entries[d] != t))
  {
    RunOk(run, steps, k);
    WaitEmpty(run[k], d, t);
  }

  lemma WaitEmpty(s: State, d: DomainId, t: Token)
    requires Ok(s) && Tracked(s, d) == 0 && t in s.workers && s.workers[t].domain == d
    ensures s.workers[t].pc in {Spawned, Exited}
  {
    assert WorkersWith(s.workers, Tracker(d)) == {};
    assert t !in WorkersWith(s.workers, Tracker(d));
  }

  /** What any step may do to the worker of `t`. */
  predicate Evolves(s: State, a: Step, s': State, t: Token) {
    && (t in s.workers ==> t in s'.workers && s'.workers[t].domain == s.workers[t].domain)
    && (t in s'.workers && t !in s.workers ==> s'.workers[t].pc == Spawned)
    && (t in s'.workers && t in s.workers && s'.workers[t].pc != s.workers[t].pc ==>
          || (a.Work? && a.token == t && s.workers[t].pc != Exited && s'.workers[t].pc == WorkPc(s, t, a.outcome))
          || (a.Panic? && a.token == t && Rank(s.workers[t].pc) == 1 && s'.workers[t].pc.FailGuard?))
  }

  lemma StepEvolves(s: State, a: Step, t: Token)
    requires Ok(s) && Enabled(s, a)
    ensures Evolves(s, a, Next(s, a), t)
  {
    if Outside(a) {
      OutsideSameJobs(s, a);
    }
  }

  // ---------------------------------------------------------------- tokens

  /** What any step may do to the registry: contexts only become done, new entries are fresh tokens. */
  predicate RegistryAdvances(s: State, s': State) {
    && s.jobs.done <= s'.jobs.done
    && s.jobs.lastToken <= s'.jobs.lastToken
    && (forall t :: t in s.issued ==> t in s'.issued && s'.issued[t] == s.issued[t])
    && (forall d :: d in s'.jobs.entries ==>
          s'.jobs.entries[d] > s.jobs.lastToken || (d in s.jobs.entries && s'.jobs.entries[d] == s.jobs.entries[d]))
  }

  lemma StartAdvances(s: State, r: StarterId, ok: bool)
    requires Ok(s) && r in s.starters
    ensures RegistryAdvances(s, AfterStart(s, r, ok))
  {
    var pc := s.starters[r].pc;
    if pc.BeginRegister? {
      assert AfterStart(s, r, ok).jobs.lastToken !in s.issued;
    }
  }

  lemma OutsideAdvances(s: State, a: Step)
    requires Enabled(s, a) && Outside(a)
    ensures RegistryAdvances(s, Next(s, a)) && Next(s, a).issued == s.issued
  {
    OutsideSameJobs(s, a);
  }

  lemma StepAdvances(s: State, a: Step)
    requires Ok(s) && Enabled(s, a)
    ensures RegistryAdvances(s, Next(s, a))
  {
    if Outside(a) {
      OutsideAdvances(s, a);
    } else if a.Start? {
      StartAdvances(s, a.r, a.ok);
    }
  }

  /**
   A token that is cancelled, superseded or ended never becomes active again, whatever happens
   later; and a token issued later is a new one.
   */
  lemma {:induction false} InactiveForever(run: seq<State>, steps: seq<Step>, i: nat, j: nat, t: Token)
    requires IsRun(run, steps) && Init(run[0]) && i <= j < |run|
    requires t in run[i].issued && !TokenActive(run[i], t)
    ensures t in run[j].issued && run[j].issued[t] == run[i].issued[t] && !TokenActive(run[j], t)
    decreases j - i
  {
    hide Next;
    if i < j {
      RunOk(run, steps, i);
      StepAdvances(run[i], steps[i]);
      assert !TokenActive(run[i + 1], t);
      InactiveForever(run, steps, i + 1, j, t);
    }
  }

  /** Only issued tokens have contexts. */
  predicate ContextsOk(s: State) {
    && (forall t :: t in s.jobs.done ==> t in s.issued)
    && (forall t :: t in s.jobs.deadline ==> t in s.issued)
  }

  lemma StartKeepsContexts(s: State, r: StarterId, ok: bool)
    requires Ok(s) && ContextsOk(s) && r in s.starters
    ensures ContextsOk(AfterStart(s, r, ok))
  {
    StartAdvances(s, r, ok);
  }

  lemma OutsideKeepsContexts(s: State, a: Step)
    requires Ok(s) && ContextsOk(s) && Enabled(s, a) && Outside(a)
    ensures ContextsOk(Next(s, a))
  {
  }

  lemma StepKeepsContexts(s: State, a: Step)
    requires Ok(s) && ContextsOk(s) && Enabled(s, a)
    ensures ContextsOk(Next(s, a))
  {
    if Outside(a) {
      OutsideKeepsContexts(s, a);
    } else if a.Start? {
      StartKeepsContexts(s, a.r, a.ok);
    }
  }

  lemma {:induction false} RunContextsOk(run: seq<State>, steps: seq<Step>, k: nat)
    requires IsRun(run, steps) && Init(run[0]) && k < |run|
    ensures ContextsOk(run[k])
  {
    hide Next;
    if k > 0 {
      RunContextsOk(run, steps, k - 1);
      RunOk(run, steps, k - 1);
      StepKeepsContexts(run[k - 1], steps[k - 1]);
    }
  }

  /** Registering issues a token nobody held before and makes it the domain's only active one. */
  lemma RegistrationIsFresh(run: seq<State>, steps: seq<Step>, k: nat, r: StarterId)
    requires IsRun(run, steps) && Init(run[0]) && k < |steps|
    requires steps[k].Start? && steps[k].r == r && run[k].starters[r].pc.BeginRegister?
    ensures var s', d := run[k + 1], run[k].starters[r].domain;
            var t := s'.jobs.lastToken;
            && (forall i :: 0 <= i <= k ==> t !in run[i].issued && t !in run[i].workers)
            && TokenActive(s', t) && s'.issued[t] == d
            && (forall x :: x in s'.issued && s'.issued[x] == d && x != t ==> !TokenActive(s', x))
  {
    var t := run[k + 1].jobs.lastToken;
    RunContextsOk(run, steps, k);
    forall i | 0 <= i <= k ensures t !in run[i].issued && t !in run[i].workers {
      LastTokenGrows(run, steps, i, k);
      RunOk(run, steps, i);
    }
  }

  lemma {:induction false} LastTokenGrows(run: seq<State>, steps: seq<Step>, i: nat, j: nat)
    requires IsRun(run, steps) && Init(run[0]) && i <= j < |run|
    ensures run[i].jobs.lastToken <= run[j].jobs.lastToken
    decreases j - i
  {
    hide Next;
    if i < j {
      RunOk(run, steps, i);
      StepAdvances(run[i], steps[i]);
      LastTokenGrows(run, steps, i + 1, j);
    }
  }

  /** A worker ending its own job leaves every other entry in place, a newer one of its domain included. */
  lemma StaleEndIsHarmless(s: State, t: Token, o: Outcome, material: Material, d: DomainId)
    requires Enabled(s, Work(t, o, material))
    requires d in s.jobs.entries && s.jobs.entries[d] != t
    ensures var s' := Next(s, Work(t, o, material));
            d in s'.jobs.entries && s'.jobs.entries[d] == s.jobs.entries[d]
  {
  }
}
