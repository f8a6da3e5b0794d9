/** What an attempt has seen of a domain's jobs by the time it takes the lease. */
module Takeover {
  import opened Options
  import opened Rows
  import opened Protocol
  import opened ProtocolInvariant
  import opened JobSafety
  import opened Leases

  /** What one step may do to the progress of starter `r`. */
  predicate StarterMoves(s: State, a: Step, s': State, r: StarterId)
    requires r in s.starters && r in s'.starters
  {
    var st, st' := s.starters[r], s'.starters[r];
    && st'.domain == st.domain
    && if a.Start? && a.r == r then StartPc(s, st, a.ok) == Some(st'.pc) else st'.pc == st.pc
  }

  lemma StepMovesStarter(s: State, a: Step, r: StarterId)
    requires Enabled(s, a) && r in s.starters && r in Next(s, a).starters
    ensures StarterMoves(s, a, Next(s, a), r)
  {
  }

  /** No job of `d` is registered, or the registered one is cancelled. */
  predicate CancelledAt(s: State, d: DomainId) {
    d in s.jobs.entries ==> s.jobs.entries[d] in s.jobs.done
  }

  /** At most jobs of `d` whose goroutine has not begun are left. */
  predicate NoneRunning(s: State, d: DomainId) {
    forall t :: t in s.workers && s.workers[t].domain == d ==> s.workers[t].pc in {Spawned, Exited}
  }

  lemma CancelStep(s: State, r: StarterId, ok: bool)
    requires StartEnabled(s, r, ok) && s.starters[r].pc.LockCancel?
    ensures CancelledAt(Next(s, Start(r, ok)), s.starters[r].domain)
  {
  }

  lemma WaitStep(s: State, r: StarterId, ok: bool)
    requires Ok(s) && StartEnabled(s, r, ok) && s.starters[r].pc.LockWait? && StartPc(s, s.starters[r], ok).Some?
    ensures NoneRunning(s, s.starters[r].domain)
  {
    forall t | t in s.workers && s.workers[t].domain == s.starters[r].domain ensures s.workers[t].pc in {Spawned, Exited} {
      WaitEmpty(s, s.starters[r].domain, t);
    }
  }

  /** When an attempt read the row, judged the lease stale, had the job cancelled, and found nobody left. */
  datatype Moments = Moments(read: nat, judged: nat, cancelled: nat, quiet: nat)

  /** The row read at one moment was stale by the clock of a later one. */
  ghost predicate StaleSeen(run: seq<State>, i: nat, j: nat, d: DomainId, m: Moments)
    requires j < |run|
  {
    && i < m.read < m.judged <= j && d in run[m.read].db.domains
    && StaleLease(run[m.read].db.domains[d], run[m.judged].clock - run[m.judged].cfg.timeout)
  }

  /** The evidence an attempt holds at each point of lockDomainForCertJob, as moments of its own past. */
  ghost predicate Evidence(run: seq<State>, i: nat, j: nat, d: DomainId, pc: StarterPc, m: Moments)
    requires j < |run|
  {
    match pc
    case LockClock(current) => i < m.read < j && d in run[m.read].db.domains && run[m.read].db.domains[d] == current
    case LockInflight(_, stale) => stale ==> StaleSeen(run, i, j, d, m)
    case LockCancel(_) => StaleSeen(run, i, j, d, m)
    case LockWait(_, _) => StaleSeen(run, i, j, d, m) && m.judged < m.cancelled <= j && CancelledAt(run[m.cancelled], d)
    case LockUpdate(_) => Justified(run, i, j, d, m)
    case _ => true
  }

  /** A moment without a registered job; or a stale lease, then a cancelled job, then nobody running. */
  ghost predicate Justified(run: seq<State>, i: nat, j: nat, d: DomainId, m: Moments)
    requires j < |run|
  {
    || (i < m.quiet <= j && d !in run[m.quiet].jobs.entries)
    || (StaleSeen(run, i, j, d, m) && m.judged < m.cancelled <= m.quiet <= j
        && CancelledAt(run[m.cancelled], d) && NoneRunning(run[m.quiet], d))
  }

  /** The evidence grows with each step of the attempt; `j` is the moment before the step. */
  lemma EvidenceGrows(run: seq<State>, steps: seq<Step>, i: nat, j: nat, r: StarterId, d: DomainId, m: Moments) returns (m': Moments)
    requires IsRun(run, steps) && Init(run[0]) && i < j < |steps|
    requires r in run[j].starters && run[j].starters[r].domain == d && r in run[j + 1].starters
    requires Evidence(run, i, j, d, run[j].starters[r].pc, m)
    ensures run[j + 1].starters[r].domain == d
    ensures Evidence(run, i, j + 1, d, run[j + 1].starters[r].pc, m')
  {
    hide Next, Ok, CancelledAt, NoneRunning, StaleLease;
    m' := m;
    var s, a := run[j], steps[j];
    StepMovesStarter(s, a, r);
    if a.Start? && a.r == r {
      match s.starters[r].pc {
        case LockRow => m' := m.(read := j);
        case LockClock(_) => m' := m.(judged := j);
        case LockInflight(_, _) => m' := m.(quiet := j);
        case LockCancel(_) =>
          m' := m.(cancelled := j + 1);
          CancelStep(s, r, a.ok);
        case LockWait(_, _) =>
          m' := m.(quiet := j);
          RunOk(run, steps, j);
          WaitStep(s, r, a.ok);
        case _ =>
      }
    }
  }

  lemma {:induction false} EvidenceAlong(run: seq<State>, steps: seq<Step>, i: nat, j: nat) returns (m: Moments)
    requires IsRun(run, steps) && Init(run[0]) && i < j < |run| && steps[i].Arrive?
    requires forall k :: i < k <= j ==> steps[i].r in run[k].starters
    ensures var st := run[j].starters[steps[i].r];
            st.domain == steps[i].d && Evidence(run, i, j, st.domain, st.pc, m)
    decreases j
  {
    hide Next, Enabled, Init;
    var r, d := steps[i].r, steps[i].d;
    if j == i + 1 {
      m := Moments(0, 0, 0, 0);
      ArrivalMoves(run[i], steps[i]);
    } else {
      m := EvidenceAlong(run, steps, i, j - 1);
      m := EvidenceGrows(run, steps, i, j - 1, r, d, m);
    }
  }

  lemma ArrivalMoves(s: State, a: Step)
    requires Enabled(s, a) && a.Arrive?
    ensures a.r in Next(s, a).starters && Next(s, a).starters[a.r].pc == Prepare && Next(s, a).starters[a.r].domain == a.d
  {
  }

  /**
   An attempt takes the lease only if, since it began, it saw the domain without a registered
   job, or it judged the lease of the row it read stale, then cancelled the registered job, and
   then found every worker of the domain that had begun gone.
   */
  lemma TakeoverIsJustified(run: seq<State>, steps: seq<Step>, i: nat, j: nat) returns (m: Moments)
    requires IsRun(run, steps) && Init(run[0]) && i < j < |steps| && steps[i].Arrive?
    requires forall k :: i < k <= j ==> steps[i].r in run[k].starters
    requires Locks(run[j], steps[j], steps[i].d) && steps[j].r == steps[i].r
    ensures Justified(run, i, j, steps[i].d, m)
  {
    m := EvidenceAlong(run, steps, i, j);
  }

  // ---------------------------------------------------------------- giving up a wait

  /** Step `i` is the first section of beginCertJob of attempt `r`. */
  predicate BeginsAt(s: State, a: Step, r: StarterId) {
    a.Start? && a.r == r && r in s.starters && s.starters[r].pc.BeginCancel?
  }

  lemma WaitingStep(s: State, a: Step, r: StarterId)
    requires Enabled(s, a) && r in Next(s, a).starters
    ensures s.clock <= Next(s, a).clock && Next(s, a).cfg == s.cfg
    ensures var pc' := Next(s, a).starters[r].pc;
            && (pc'.BeginWait? ==> (BeginsAt(s, a, r) && pc'.since == s.clock) || (r in s.starters && s.starters[r].pc == pc'))
            && (pc' == BeginRegister(false) ==>
                  r in s.starters && (s.starters[r].pc == pc' || (s.starters[r].pc.BeginWait? && s.clock >= s.starters[r].pc.since + s.cfg.timeout)))
  {
  }

  /** An attempt that is about to register after giving up its wait cancelled the old job at least a timeout ago. */
  lemma {:induction false} GivesUpLate(run: seq<State>, steps: seq<Step>, k: nat, r: StarterId) returns (i: nat)
    requires IsRun(run, steps) && Init(run[0]) && k < |run| && r in run[k].starters
    requires run[k].starters[r].pc.BeginWait? || run[k].starters[r].pc == BeginRegister(false)
    ensures i < k && BeginsAt(run[i], steps[i], r) && run[i].cfg == run[k].cfg
    ensures if run[k].starters[r].pc.BeginWait? then run[i].clock == run[k].starters[r].pc.since
            else run[k].clock >= run[i].clock + run[k].cfg.timeout
  {
    hide Next, Enabled, BeginsAt;
    WaitingStep(run[k - 1], steps[k - 1], r);
    if BeginsAt(run[k - 1], steps[k - 1], r) && run[k].starters[r].pc.BeginWait? && run[k].starters[r].pc.since == run[k - 1].clock {
      i := k - 1;
    } else {
      i := GivesUpLate(run, steps, k - 1, r);
    }
  }
}
