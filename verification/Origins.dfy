/** Every worker stems from an attempt that arrived and passed its checks, and it records at most one failure. */
module Origins {
  import opened Options
  import opened Protocol
  import opened ProtocolInvariant
  import opened JobSafety

  /** Attempt `r` arrived at step `p` and is still under way at moment `k`. */
  ghost predicate UnderWay(run: seq<State>, steps: seq<Step>, p: nat, k: nat, r: StarterId)
    requires IsRun(run, steps)
  {
    p < k < |run| && steps[p].Arrive? && steps[p].r == r && forall x :: p < x <= k ==> r in run[x].starters
  }

  /** Step `a` lets attempt `r` go on from its checks to taking the lease. */
  predicate Passes(s: State, a: Step, r: StarterId) {
    a.Start? && a.r == r && r in s.starters && s.starters[r].pc == Prepare && StartPc(s, s.starters[r], a.ok).Some?
  }

  lemma StarterStep(s: State, a: Step, r: StarterId)
    requires Enabled(s, a) && r in Next(s, a).starters
    ensures var st' := Next(s, a).starters[r];
            if r in s.starters then
              && s.starters[r].domain == st'.domain && s.starters[r].renew == st'.renew && s.starters[r].auto == st'.auto
              && (s.starters[r].pc == Prepare && st'.pc != Prepare ==> Passes(s, a, r))
            else a == Arrive(r, st'.domain, st'.renew, st'.auto) && st'.pc == Prepare && (st'.auto ==> st'.renew)
  {
  }

  lemma {:induction false} StarterArrived(run: seq<State>, steps: seq<Step>, k: nat, r: StarterId) returns (p: nat)
    requires IsRun(run, steps) && Init(run[0]) && k < |run| && r in run[k].starters
    ensures UnderWay(run, steps, p, k, r)
    ensures var st := run[k].starters[r]; steps[p] == Arrive(r, st.domain, st.renew, st.auto) && (st.auto ==> st.renew)
  {
    hide Next, Enabled;
    StarterStep(run[k - 1], steps[k - 1], r);
    if r in run[k - 1].starters {
      p := StarterArrived(run, steps, k - 1, r);
    } else {
      p := k - 1;
    }
  }

  lemma {:induction false} StarterPassed(run: seq<State>, steps: seq<Step>, p: nat, k: nat, r: StarterId) returns (q: nat)
    requires IsRun(run, steps) && UnderWay(run, steps, p, k, r) && run[k].starters[r].pc != Prepare
    ensures p < q < k && Passes(run[q], steps[q], r)
    decreases k
  {
    hide Next, Enabled, Passes;
    StarterStep(run[k - 1], steps[k - 1], r);
    if k == p + 1 {
      ArrivedAtStart(run[p], steps[p]);
      q := p;
    } else if run[k - 1].starters[r].pc == Prepare {
      q := k - 1;
    } else {
      q := StarterPassed(run, steps, p, k - 1, r);
    }
  }

  lemma ArrivedAtStart(s: State, a: Step)
    requires Enabled(s, a) && a.Arrive?
    ensures a.r in Next(s, a).starters && Next(s, a).starters[a.r].pc == Prepare
  {
  }

  /** The life of an attempt up to starting its worker: arrival, passing the checks, starting the goroutine. */
  datatype Attempt = Attempt(r: StarterId, arrived: nat, passed: nat, spawned: nat)

  ghost predicate AttemptOf(run: seq<State>, steps: seq<Step>, k: nat, t: Token, at: Attempt)
    requires IsRun(run, steps)
  {
    k < |run| && t in run[k].workers &&
    var w := run[k].workers[t];
    && at.arrived < at.passed < at.spawned < k
    && UnderWay(run, steps, at.arrived, at.spawned, at.r)
    && steps[at.arrived] == Arrive(at.r, w.domain, w.renew, w.auto) && (w.auto ==> w.renew)
    && Passes(run[at.passed], steps[at.passed], at.r)
    && run[at.spawned].starters[at.r].pc == Spawn(t) && steps[at.spawned].Start? && steps[at.spawned].r == at.r
  }

  lemma WorkerStep(s: State, a: Step, t: Token)
    requires SpawnsOk(s) && Enabled(s, a) && t in Next(s, a).workers
    ensures var w' := Next(s, a).workers[t];
            if t in s.workers then w' == s.workers[t].(pc := w'.pc)
            else a.Start? && a.r in s.starters && s.starters[a.r].pc == Spawn(t) && w' == NewWorker(s.starters[a.r])
  {
  }

  /** Every worker stems from an attempt that arrived, passed its checks and then started it. */
  lemma {:induction false} WorkerStems(run: seq<State>, steps: seq<Step>, k: nat, t: Token) returns (at: Attempt)
    requires IsRun(run, steps) && Init(run[0]) && k < |run| && t in run[k].workers
    ensures AttemptOf(run, steps, k, t, at)
  {
    hide Next, Enabled, Passes, TokensOk, SpawnsOk, CountsOk;
    RunOk(run, steps, k - 1);
    WorkerStep(run[k - 1], steps[k - 1], t);
    if t in run[k - 1].workers {
      at := WorkerStems(run, steps, k - 1, t);
    } else {
      var r := steps[k - 1].r;
      var p := StarterArrived(run, steps, k - 1, r);
      var q := StarterPassed(run, steps, p, k - 1, r);
      at := Attempt(r, p, q, k - 1);
    }
  }

  lemma {:induction false} RankNeverFalls(run: seq<State>, steps: seq<Step>, i: nat, k: nat, t: Token)
    requires IsRun(run, steps) && Init(run[0]) && i <= k < |run| && t in run[i].workers
    ensures t in run[k].workers && Rank(run[k].workers[t].pc) >= Rank(run[i].workers[t].pc)
    decreases k
  {
    hide Next, Rank;
    if i < k {
      RankNeverFalls(run, steps, i, k - 1, t);
      RunOk(run, steps, k - 1);
      StepEvolves(run[k - 1], steps[k - 1], t);
      RankStep(run[k - 1], steps[k - 1], run[k], t);
    }
  }

  lemma RankStep(s: State, a: Step, s': State, t: Token)
    requires Evolves(s, a, s', t) && t in s.workers
    ensures Rank(s'.workers[t].pc) >= Rank(s.workers[t].pc)
  {
    if a.Work? && a.token == t && s.workers[t].pc != Exited {
      WorkRank(s, t, a.outcome);
    }
  }

  /** Step `a` is worker `t` recording the failure of its job. */
  predicate Records(s: State, a: Step, t: Token) {
    a.Work? && a.token == t && t in s.workers && s.workers[t].pc.FailWrite?
  }

  lemma RecordEnds(s: State, a: Step, t: Token)
    requires Enabled(s, a) && Records(s, a, t)
    ensures t in Next(s, a).workers && Rank(Next(s, a).workers[t].pc) == 2
  {
  }

  /** A worker records at most one failure. */
  lemma RecordsOnce(run: seq<State>, steps: seq<Step>, f: nat, g: nat, t: Token)
    requires IsRun(run, steps) && Init(run[0]) && f < g < |steps| && Records(run[f], steps[f], t)
    ensures !Records(run[g], steps[g], t)
  {
    hide Next;
    RecordEnds(run[f], steps[f], t);
    RankNeverFalls(run, steps, f + 1, g, t);
  }
}
