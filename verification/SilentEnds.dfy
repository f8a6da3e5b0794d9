/** When a job ends without recording anything, and so leaves its row as it was. */
module SilentEnds {
  import opened Rows
  import opened Protocol
  import opened ProtocolInvariant
  import opened JobSafety
  import opened Origins
  import opened Supersession

  /** Step `a` ends the body of the job of `t`. */
  predicate Ends(s: State, a: Step, t: Token) {
    a.Work? && a.token == t && t in s.workers && Rank(s.workers[t].pc) == 1 && WorkPc(s, t, a.outcome) == ExitSlot
  }

  /** The ACME call of `t` comes back cancelled or timed out. */
  predicate Aborts(s: State, a: Step, t: Token) {
    a.Work? && a.token == t && t in s.workers && s.workers[t].pc == AcmeRunning && a.outcome == Aborted
  }

  /** A job past the check of its undo is not active. */
  predicate UndoersInactive(s: State) {
    forall t :: t in s.workers && s.workers[t].pc in {UndoInflight, UndoWrite} ==> !TokenActive(s, t)
  }

  lemma UndoStays(s: State, a: Step, s': State, t: Token)
    requires Ok(s) && UndoersInactive(s) && RegistryAdvances(s, s') && Evolves(s, a, s', t)
    requires t in s'.workers && s'.workers[t].pc in {UndoInflight, UndoWrite}
    ensures !TokenActive(s', t)
  {
    hide Ok, RegistryAdvances, TokenActive;
    UndoFrom(s, a, s', t);
    if TokenActive(s', t) {
      ActiveBefore(s, s', t);
    }
  }

  lemma UndoFrom(s: State, a: Step, s': State, t: Token)
    requires UndoersInactive(s) && Evolves(s, a, s', t) && t in s'.workers && s'.workers[t].pc in {UndoInflight, UndoWrite}
    ensures t in s.workers && !TokenActive(s, t)
  {
    hide TokenActive;
  }

  lemma {:induction false} UndoersAreInactive(run: seq<State>, steps: seq<Step>, k: nat)
    requires IsRun(run, steps) && Init(run[0]) && k < |run|
    ensures UndoersInactive(run[k])
  {
    hide Next, Ok;
    if k > 0 {
      UndoersAreInactive(run, steps, k - 1);
      RunOk(run, steps, k - 1);
      StepAdvances(run[k - 1], steps[k - 1]);
      forall t | t in run[k].workers && run[k].workers[t].pc in {UndoInflight, UndoWrite} ensures !TokenActive(run[k], t) {
        StepEvolves(run[k - 1], steps[k - 1], t);
        UndoStays(run[k - 1], steps[k - 1], run[k], t);
      }
    }
  }

  /** The call of `t` was aborted at step `j`, and the worker did not panic from there to moment `k`. */
  ghost predicate AbortedAt(run: seq<State>, steps: seq<Step>, j: nat, k: nat, t: Token)
    requires IsRun(run, steps)
  {
    j < k < |run| && Aborts(run[j], steps[j], t) && forall x :: j < x < k ==> steps[x] != Panic(t)
  }

  lemma ActiveBefore(s: State, s': State, t: Token)
    requires Ok(s) && RegistryAdvances(s, s') && t in s.workers && TokenActive(s', t)
    ensures TokenActive(s, t)
  {
    hide CountsOk, SpawnsOk;
    assert t in s.issued;
  }

  /** An active job gets to its undo only from an aborted call. */
  lemma UndoStep(s: State, a: Step, s': State, t: Token)
    requires Ok(s) && Evolves(s, a, s', t) && t in s'.workers && s'.workers[t].pc == UndoGuard
    requires t in s.workers ==> TokenActive(s, t)
    ensures t in s.workers
    ensures s.workers[t].pc == UndoGuard || Aborts(s, a, t)
  {
  }

  lemma PanicMoves(s: State, t: Token)
    requires Enabled(s, Panic(t))
    ensures Next(s, Panic(t)).workers[t].pc.FailGuard?
  {
  }

  lemma {:induction false} UndoFromAbort(run: seq<State>, steps: seq<Step>, k: nat, t: Token) returns (j: nat)
    requires IsRun(run, steps) && Init(run[0]) && k < |run|
    requires t in run[k].workers && run[k].workers[t].pc == UndoGuard && TokenActive(run[k], t)
    ensures AbortedAt(run, steps, j, k, t)
  {
    hide Next, Enabled, Ok, RegistryAdvances, TokenActive;
    var s, a := run[k - 1], steps[k - 1];
    RunOk(run, steps, k - 1);
    StepAdvances(s, a);
    StepEvolves(s, a, t);
    if t in s.workers {
      ActiveBefore(s, run[k], t);
    }
    UndoStep(s, a, run[k], t);
    if s.workers[t].pc == UndoGuard {
      j := UndoFromAbort(run, steps, k - 1, t);
      if a == Panic(t) {
        PanicMoves(s, t);
      }
    } else {
      j := k - 1;
    }
  }

  lemma AbortMoves(s: State, a: Step, t: Token)
    requires Enabled(s, a) && Aborts(s, a, t)
    ensures t in Next(s, a).workers && Next(s, a).workers[t].pc == UndoGuard
  {
  }

  lemma UndoOrLeft(s: State, a: Step, s': State, t: Token)
    requires Evolves(s, a, s', t) && t in s.workers && a != Panic(t)
    requires s.workers[t].pc == UndoGuard && TokenActive(s, t)
    ensures s'.workers[t].pc in {UndoGuard, ExitSlot}
  {
  }

  /** After an abort, without a panic, an active job stays before its undo until it ends. */
  lemma {:induction false} AbortedStays(run: seq<State>, steps: seq<Step>, j: nat, k: nat, t: Token)
    requires IsRun(run, steps) && Init(run[0]) && AbortedAt(run, steps, j, k, t)
    requires t in run[k].workers && Rank(run[k].workers[t].pc) == 1 && TokenActive(run[k], t)
    ensures run[k].workers[t].pc == UndoGuard
    decreases k
  {
    hide Next, Enabled, Ok, RegistryAdvances, TokenActive;
    if k == j + 1 {
      AbortMoves(run[j], steps[j], t);
    } else {
      AbortMoves(run[j], steps[j], t);
      RankNeverFalls(run, steps, j + 1, k - 1, t);
      RankNeverFalls(run, steps, k - 1, k, t);
      RunOk(run, steps, k - 1);
      StepAdvances(run[k - 1], steps[k - 1]);
      ActiveBefore(run[k - 1], run[k], t);
      StepEvolves(run[k - 1], steps[k - 1], t);
      AbortedStays(run, steps, j, k - 1, t);
      UndoOrLeft(run[k - 1], steps[k - 1], run[k], t);
    }
  }

  /** Without a write an active job can end only before its undo. */
  lemma EndCases(s: State, a: Step, t: Token)
    requires Enabled(s, a) && Ends(s, a, t) && TokenActive(s, t) && UndoersInactive(s)
    ensures !Writes(s, a, t) <==> s.workers[t].pc == UndoGuard
    ensures !Writes(s, a, t) ==> Next(s, a).db == s.db
  {
    assert s.workers[t].pc !in {UndoInflight, UndoWrite};
  }

  /**
   A job that was neither cancelled nor replaced ends without saving and without recording a
   failure exactly when its ACME call came back cancelled or timed out and the worker did not
   panic afterwards. It then changes nothing: a row that is generating stays so.
   */
  lemma SilentEndIff(run: seq<State>, steps: seq<Step>, e: nat, t: Token)
    requires IsRun(run, steps) && Init(run[0]) && e < |steps| && Ends(run[e], steps[e], t) && TokenActive(run[e], t)
    ensures !Writes(run[e], steps[e], t) <==> exists j :: 0 <= j < e && AbortedAt(run, steps, j, e, t)
    ensures !Writes(run[e], steps[e], t) ==> run[e + 1].db == run[e].db
  {
    hide Next, TokenActive, Writes;
    UndoersAreInactive(run, steps, e);
    EndCases(run[e], steps[e], t);
    if run[e].workers[t].pc == UndoGuard {
      var j := UndoFromAbort(run, steps, e, t);
    }
    forall j | 0 <= j < e && AbortedAt(run, steps, j, e, t) ensures run[e].workers[t].pc == UndoGuard {
      AbortedStays(run, steps, j, e, t);
    }
  }

  /** What the end of a job that was cancelled but not replaced leaves of the lease. */
  lemma QuietEnd(s: State, a: Step, t: Token)
    requires Enabled(s, a) && Ends(s, a, t) && s.workers[t].pc != UndoWrite
    ensures !Writes(s, a, t) ==> Next(s, a).db == s.db
    ensures Writes(s, a, t) ==> !Locked(Next(s, a).db, s.workers[t].domain)
  {
  }

  /**
   A job that was not replaced leaves its row generating when it ends, cancelled or not, exactly
   when the row was generating and the job neither saved nor recorded a failure.
   */
  lemma UnreplacedLeavesLeaseIff(run: seq<State>, steps: seq<Step>, e: nat, t: Token)
    requires IsRun(run, steps) && Init(run[0]) && e < |steps| && Ends(run[e], steps[e], t) && !Superseded(run[e], t)
    ensures var d := run[e].workers[t].domain;
            Locked(run[e + 1].db, d) <==> Locked(run[e].db, d) && !Writes(run[e], steps[e], t)
  {
    hide Next, Superseded, Writes;
    OnlySupersededUndo(run, steps, e);
    QuietEnd(run[e], steps[e], t);
  }
}
