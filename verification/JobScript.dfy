/**
 What a job does, told from the answers it got: a worker saves, records a failure, or ends silently
 as a script of the CNAME check, the certificate lookup, the ACME call and the save says.
 */
module JobScript {
  import opened Options
  import opened Rows
  import RowEffects
  import Registry
  import opened Protocol
  import opened ProtocolInvariant
  import opened JobSafety
  import opened Leases
  import opened Origins
  import opened Supersession
  import opened SilentEnds

  /** The answers a job got so far. */
  datatype Log = Log(
    cname: Option<Outcome>, load: Option<Outcome>, hadCert: bool, call: Option<Outcome>, save: Option<Outcome>, panicked: bool)

  const EMPTY := Log(None, None, false, None, None, false)

  /** Step `a` brings the job of `t` an answer. */
  function Noted(s: State, a: Step, t: Token, l: Log): Log {
    if a == Panic(t) then l.(panicked := true)
    else if a.Work? && a.token == t && t in s.workers then
      match s.workers[t].pc
      case VerifyCname => l.(cname := Some(a.outcome))
      case LoadExisting => l.(load := Some(a.outcome), hadCert := HasCert(s.db, s.workers[t].domain))
      case AcmeRunning => l.(call := Some(a.outcome))
      case SaveWrite => l.(save := Some(a.outcome))
      case _ => l
    else l
  }

  ghost function LogOf(run: seq<State>, steps: seq<Step>, k: nat, t: Token): Log
    requires IsRun(run, steps) && k < |run|
  {
    if k == 0 then EMPTY else Noted(run[k - 1], steps[k - 1], t, LogOf(run, steps, k - 1, t))
  }

  datatype Verdict = Undecided | Saved | Failed(message: string) | Silent

  const NO_TARGET := "CNAME target not configured for this domain"
  const NO_CERTIFICATE := "no existing certificate to renew"
  const PANIC := "internal error during certificate operation"

  /**
   The script: a target, a CNAME that points there, a certificate if one is to be renewed, an ACME
   call that succeeds, a save that works. The first that is missing decides the failure recorded;
   a call that was cancelled or timed out leaves no trace.
   */
  function VerdictOf(w: Worker, l: Log): Verdict {
    if l.cname.None? then Undecided
    else if w.cnameTarget == "" then Failed(NO_TARGET)
    else if l.cname.value.Bad? then Failed(l.cname.value.message)
    else if l.load.None? then Undecided
    else if w.renew && !l.hadCert then Failed(NO_CERTIFICATE)
    else if l.hadCert && l.load.value.Bad? then Failed(l.load.value.message)
    else if l.call.None? then Undecided
    else if l.call.value.Aborted? then Silent
    else if !l.call.value.Good? then Failed(l.call.value.message)
    else if l.save.None? then Undecided
    else if l.save.value.Bad? then Failed(l.save.value.message)
    else Saved
  }

  /** How far the worker is fits the answers it got. */
  predicate Fits(w: Worker, l: Log, active: bool) {
    if l.panicked then w.pc == FailGuard(PANIC) || w.pc == FailWrite(PANIC) || Rank(w.pc) >= 2
    else
      match w.pc
      case Spawned => l == EMPTY
      case CheckContext => l == EMPTY
      case VerifyCname => l == EMPTY
      case LoadExisting => l.cname.Some? && l.load.None? && l.call.None? && l.save.None? && VerdictOf(w, l).Undecided?
      case AcmeGuard => l.cname.Some? && l.load.Some? && l.call.None? && l.save.None? && VerdictOf(w, l).Undecided?
      case AcmeRunning => l.cname.Some? && l.load.Some? && l.call.None? && l.save.None? && VerdictOf(w, l).Undecided?
      case AcmeReturned(error) =>
        l.call.Some? && l.save.None? && (if error.Some? then VerdictOf(w, l) == Failed(error.value) else SaveDue(w, l))
      case ErrorContext(message) => VerdictOf(w, l) == Failed(message)
      case SaveContext => SaveDue(w, l)
      case SaveGuard => SaveDue(w, l)
      case SaveWrite => SaveDue(w, l)
      case FailGuard(message) => VerdictOf(w, l) == Failed(message)
      case FailWrite(message) => VerdictOf(w, l) == Failed(message)
      case UndoGuard => active ==> VerdictOf(w, l) == Silent
      case UndoInflight => !active
      case UndoWrite => !active
      case _ => true
  }

  /** Only the save itself is missing. */
  predicate SaveDue(w: Worker, l: Log) {
    l.call == Some(Good) && l.save.None? && VerdictOf(w, l).Undecided? && VerdictOf(w, l.(save := Some(Good))) == Saved
  }

  lemma WorkFits(s: State, t: Token, o: Outcome, material: Material, l: Log)
    requires t in s.workers && s.workers[t].pc != Exited && Fits(s.workers[t], l, TokenActive(s, t))
    ensures Fits(s.workers[t].(pc := WorkPc(s, t, o)), Noted(s, Work(t, o, material), t, l), TokenActive(s, t))
  {
    hide HasCert, Registry.Inflight, WorkPc, Noted, Fits;
    var w := s.workers[t];
    if w.pc.AcmeRunning? || w.pc.AcmeReturned? || w.pc.ErrorContext? {
      CallFits(s, t, o, material, l);
    } else if w.pc.Spawned? || w.pc.CheckContext? || w.pc.VerifyCname? || w.pc.LoadExisting? || w.pc.AcmeGuard? {
      EarlyFits(s, t, o, material, l);
    } else {
      LateFits(s, t, o, material, l);
    }
  }

  lemma EarlyFits(s: State, t: Token, o: Outcome, material: Material, l: Log)
    requires t in s.workers && Fits(s.workers[t], l, TokenActive(s, t))
    requires var pc := s.workers[t].pc; pc.Spawned? || pc.CheckContext? || pc.VerifyCname? || pc.LoadExisting? || pc.AcmeGuard?
    ensures Fits(s.workers[t].(pc := WorkPc(s, t, o)), Noted(s, Work(t, o, material), t, l), TokenActive(s, t))
  {
    hide HasCert, Registry.Inflight;
    assert ContextDone(s, t) ==> !TokenActive(s, t);
  }

  lemma CallFits(s: State, t: Token, o: Outcome, material: Material, l: Log)
    requires t in s.workers && Fits(s.workers[t], l, TokenActive(s, t))
    requires var pc := s.workers[t].pc; pc.AcmeRunning? || pc.AcmeReturned? || pc.ErrorContext?
    ensures Fits(s.workers[t].(pc := WorkPc(s, t, o)), Noted(s, Work(t, o, material), t, l), TokenActive(s, t))
  {
    hide HasCert, Registry.Inflight;
    assert ContextDone(s, t) ==> !TokenActive(s, t);
  }

  lemma LateFits(s: State, t: Token, o: Outcome, material: Material, l: Log)
    requires t in s.workers && s.workers[t].pc != Exited && Fits(s.workers[t], l, TokenActive(s, t))
    requires var pc := s.workers[t].pc;
             && !pc.Spawned? && !pc.CheckContext? && !pc.VerifyCname? && !pc.LoadExisting? && !pc.AcmeGuard?
             && !pc.AcmeRunning? && !pc.AcmeReturned? && !pc.ErrorContext?
    ensures Fits(s.workers[t].(pc := WorkPc(s, t, o)), Noted(s, Work(t, o, material), t, l), TokenActive(s, t))
  {
    hide HasCert, Registry.Inflight;
    assert ContextDone(s, t) ==> !TokenActive(s, t);
  }

  /** What one step does to the worker of `t`. */
  predicate WorkerMoves(s: State, a: Step, s': State, t: Token) {
    && (t in s.workers ==> t in s'.workers)
    && (t in s'.workers && t !in s.workers ==> s'.workers[t].pc == Spawned && !(a.Work? && a.token == t) && a != Panic(t))
    && (t in s.workers && t in s'.workers ==>
          s'.workers[t] == s.workers[t].(pc :=
            if a.Work? && a.token == t then WorkPc(s, t, a.outcome) else if a == Panic(t) then FailGuard(PANIC) else s.workers[t].pc))
  }

  lemma StepMovesWorker(s: State, a: Step, t: Token)
    requires SpawnsOk(s) && Enabled(s, a)
    ensures WorkerMoves(s, a, Next(s, a), t)
  {
  }

  lemma StepFits(s: State, a: Step, s': State, t: Token, l: Log)
    requires Enabled(s, a) && WorkerMoves(s, a, s', t)
    requires t in s.workers ==> Fits(s.workers[t], l, TokenActive(s, t))
    requires t !in s.workers ==> l == EMPTY
    requires t in s.workers && TokenActive(s', t) ==> TokenActive(s, t)
    ensures t in s'.workers ==> Fits(s'.workers[t], Noted(s, a, t, l), TokenActive(s', t))
    ensures t !in s'.workers ==> Noted(s, a, t, l) == EMPTY
  {
    hide WorkPc, TokenActive, VerdictOf;
    if a.Work? && a.token == t && t in s.workers {
      WorkFits(s, t, a.outcome, a.material, l);
    }
  }

  lemma {:induction false} LogFits(run: seq<State>, steps: seq<Step>, k: nat, t: Token)
    requires IsRun(run, steps) && Init(run[0]) && k < |run|
    ensures t in run[k].workers ==> Fits(run[k].workers[t], LogOf(run, steps, k, t), TokenActive(run[k], t))
    ensures t !in run[k].workers ==> LogOf(run, steps, k, t) == EMPTY
  {
    hide Next, Enabled, Fits, Noted, TokenActive, RegistryAdvances, TokensOk, SpawnsOk, CountsOk;
    if k > 0 {
      var s, a := run[k - 1], steps[k - 1];
      LogFits(run, steps, k - 1, t);
      RunOk(run, steps, k - 1);
      StepMovesWorker(s, a, t);
      StepAdvances(s, a);
      if t in s.workers && TokenActive(run[k], t) {
        ActiveBefore(s, run[k], t);
      }
      StepFits(s, a, run[k], t, LogOf(run, steps, k - 1, t));
    }
  }

  // ---------------------------------------------------------------- what it means

  /** Step `a` makes the job of `t` save its certificate. */
  predicate SavesNow(s: State, a: Step, t: Token) {
    a.Work? && a.token == t && t in s.workers && s.workers[t].pc == SaveWrite && !a.outcome.Bad?
  }

  /** Step `a` makes the job of `t` record a failure with this message. */
  predicate RecordsNow(s: State, a: Step, t: Token, message: string) {
    a.Work? && a.token == t && t in s.workers && s.workers[t].pc == FailWrite(message)
  }

  /** A job that saves was told so by every answer; a recorded failure is the one the answers decide, or a panic. */
  lemma WritesMatchAnswers(run: seq<State>, steps: seq<Step>, k: nat, t: Token)
    requires IsRun(run, steps) && Init(run[0]) && k < |steps| && t in run[k].workers
    ensures var w, l := run[k].workers[t], LogOf(run, steps, k + 1, t);
            && (SavesNow(run[k], steps[k], t) ==> !l.panicked && VerdictOf(w, l) == Saved)
            && (forall message :: RecordsNow(run[k], steps[k], t, message) ==>
                  if l.panicked then message == PANIC else VerdictOf(w, l) == Failed(message))
  {
    hide Next, Enabled;
    LogFits(run, steps, k, t);
  }

  /**
   A job that is active when it ends does what its answers say: it saves, records exactly the
   failure decided, or, after a cancelled or timed-out call, does nothing; after a panic it
   records the panic.
   */
  lemma EndMatchesAnswers(run: seq<State>, steps: seq<Step>, e: nat, t: Token)
    requires IsRun(run, steps) && Init(run[0]) && e < |steps| && Ends(run[e], steps[e], t) && TokenActive(run[e], t)
    ensures var s, a, w, l := run[e], steps[e], run[e].workers[t], LogOf(run, steps, e + 1, t);
            if l.panicked then RecordsNow(s, a, t, PANIC)
            else
              match VerdictOf(w, l)
              case Saved => SavesNow(s, a, t)
              case Failed(message) => RecordsNow(s, a, t, message)
              case Silent => !Writes(s, a, t) && run[e + 1].db == s.db
              case Undecided => false
  {
    hide Enabled;
    LogFits(run, steps, e, t);
    EndFits(run[e], steps[e], t, LogOf(run, steps, e, t));
    if !Writes(run[e], steps[e], t) {
      SilentEndIff(run, steps, e, t);
    }
  }

  lemma EndFits(s: State, a: Step, t: Token, l: Log)
    requires Ends(s, a, t) && TokenActive(s, t) && Fits(s.workers[t], l, true)
    ensures var w, l' := s.workers[t], Noted(s, a, t, l);
            if l'.panicked then RecordsNow(s, a, t, PANIC)
            else
              match VerdictOf(w, l')
              case Saved => SavesNow(s, a, t)
              case Failed(message) => RecordsNow(s, a, t, message)
              case Silent => !Writes(s, a, t)
              case Undecided => false
  {
    hide HasCert;
    assert !ContextDone(s, t);
  }

  /** The ACME call of `t` comes back with `o` at step `j`. */
  predicate CallReturns(s: State, a: Step, t: Token, o: Outcome) {
    a.Work? && a.token == t && t in s.workers && s.workers[t].pc == AcmeRunning && a.outcome == o
  }

  lemma CallIsNoted(s: State, a: Step, t: Token, l: Log)
    ensures var l' := Noted(s, a, t, l);
            l'.call != l.call ==> l'.call.Some? && CallReturns(s, a, t, l'.call.value)
  {
  }

  lemma {:induction false} CallHappened(run: seq<State>, steps: seq<Step>, k: nat, t: Token) returns (j: nat)
    requires IsRun(run, steps) && k < |run|
    ensures var call := LogOf(run, steps, k, t).call;
            call.Some? ==> j < k && CallReturns(run[j], steps[j], t, call.value)
  {
    hide Next, Enabled, Noted;
    j := 0;
    if k > 0 {
      CallIsNoted(run[k - 1], steps[k - 1], t, LogOf(run, steps, k - 1, t));
      j := CallHappened(run, steps, k - 1, t);
      if LogOf(run, steps, k, t).call != LogOf(run, steps, k - 1, t).call {
        j := k - 1;
      }
    }
  }

  /** A job saves only after its ACME call succeeded. */
  lemma SaveNeedsGoodCall(run: seq<State>, steps: seq<Step>, k: nat, t: Token) returns (j: nat)
    requires IsRun(run, steps) && Init(run[0]) && k < |steps| && SavesNow(run[k], steps[k], t)
    ensures j < k && CallReturns(run[j], steps[j], t, Good)
  {
    hide Next, Enabled;
    LogFits(run, steps, k, t);
    j := CallHappened(run, steps, k, t);
  }

  /** A job makes one ACME call. */
  lemma OneCall(run: seq<State>, steps: seq<Step>, i: nat, j: nat, t: Token, o: Outcome, p: Outcome)
    requires IsRun(run, steps) && Init(run[0]) && i < j < |steps|
    requires CallReturns(run[i], steps[i], t, o)
    ensures !CallReturns(run[j], steps[j], t, p)
  {
    hide Next, Enabled;
    CallStays(run, steps, i, j, t, o);
    LogFits(run, steps, j, t);
    LogFits(run, steps, i, t);
  }

  lemma {:induction false} CallStays(run: seq<State>, steps: seq<Step>, i: nat, j: nat, t: Token, o: Outcome)
    requires IsRun(run, steps) && Init(run[0]) && i < j < |run| && CallReturns(run[i], steps[i], t, o)
    ensures LogOf(run, steps, j, t).call.Some?
    decreases j
  {
    hide Next, Enabled;
    if i + 1 < j {
      CallStays(run, steps, i, j - 1, t, o);
    }
  }

  /** A job whose ACME call came back with an error, cancelled or timed out never saves. */
  lemma FailedCallNeverSaves(run: seq<State>, steps: seq<Step>, i: nat, k: nat, t: Token, o: Outcome)
    requires IsRun(run, steps) && Init(run[0]) && i < |steps| && k < |steps|
    requires CallReturns(run[i], steps[i], t, o) && !o.Good?
    ensures !SavesNow(run[k], steps[k], t)
  {
    hide Next, Enabled;
    if SavesNow(run[k], steps[k], t) {
      var j := SaveNeedsGoodCall(run, steps, k, t);
      if i < j {
        OneCall(run, steps, i, j, t, o, Good);
      } else if j < i {
        OneCall(run, steps, j, i, t, Good, o);
      }
    }
  }

  // ---------------------------------------------------------------- what is saved

  /**
   What a job saves: the certificate row of its domain carries its user, its name and the new key
   material afterwards, and the certificates of other domains are as before.
   */
  lemma SaveStepStores(s: State, a: Step, t: Token) returns (c: CertId)
    requires Enabled(s, a) && DbOk(s.db) && SavesNow(s, a, t)
    ensures var db', w := Next(s, a).db, s.workers[t];
            && c in db'.certs && db'.certs[c].domainId == w.domain && db'.certs[c].userId == w.user
            && db'.certs[c].domain == w.name && db'.certs[c].material == a.material
            && (forall x :: x in db'.certs && db'.certs[x].domainId == w.domain ==> x == c)
            && (forall x :: x in s.db.certs && x != c ==> x in db'.certs && db'.certs[x] == s.db.certs[x])
  {
    hide SaveCert;
    var w := s.workers[t];
    c := RowEffects.SaveStores(s.db, NewCertificate(w, a.material), s.clock);
  }

  /** What a job records: its message, an active row only for a renewal of the scan with a certificate, and the backoff. */
  lemma RecordStepWrites(s: State, a: Step, t: Token, message: string)
    requires Enabled(s, a) && RecordsNow(s, a, t, message) && Live(s.db, s.workers[t].domain)
    ensures var db', w := Next(s, a).db, s.workers[t];
            && RowEffects.OnlyRow(s.db, db', w.domain)
            && var row, row' := s.db.domains[w.domain], db'.domains[w.domain];
               && row'.errorMessage == message && row'.generatingSince == None
               && row'.status == (if w.auto && (exists c :: c in s.db.certs && s.db.certs[c].domainId == w.domain) then Active else Error)
               && row'.failures == row.failures + (if w.auto then 1 else 0)
  {
    hide FailJob;
    var w := s.workers[t];
    RowEffects.FailureEffect(s.db, w.domain, message, w.auto, s.cfg.backoffBase, s.cfg.backoffMax, s.clock);
  }

  /** What a job that undoes its lease writes: nothing unless the row is generating, and an error only without certificate and verification. */
  lemma UndoStepWrites(s: State, a: Step, t: Token)
    requires Enabled(s, a) && a.Work? && a.token == t && s.workers[t].pc == UndoWrite
    ensures var db', w := Next(s, a).db, s.workers[t];
            if !Locked(s.db, w.domain) then db' == s.db
            else
              && RowEffects.OnlyRow(s.db, db', w.domain)
              && var row, row' := s.db.domains[w.domain], db'.domains[w.domain];
                 var hasCert := exists c :: c in s.db.certs && s.db.certs[c].domainId == w.domain;
                 && row'.status == (if hasCert then Active else if row.cnameVerifiedAt.Some? then Verified else Error)
                 && row'.errorMessage == (if row'.status == Error || (hasCert && w.auto) then CANCELLED_MESSAGE else "")
  {
    hide Rollback;
    var w := s.workers[t];
    RowEffects.RollbackEffect(s.db, w.domain, if w.auto then CANCELLED_MESSAGE else "", true, s.clock);
  }
}
