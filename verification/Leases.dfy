/** Whole-run properties of the domain and certificate rows. */
module Leases {
  import opened Options
  import opened Rows
  import opened Protocol

  // ---------------------------------------------------------------- the database side of a step

  datatype DbOp =
    | Keep
    | DoMark(d: DomainId)
    | DoLock(d: DomainId, lockTime: int)
    | DoError(d: DomainId, message: string)
    | DoRollback(d: DomainId, message: string)
    | DoSave(rec: Certificate)
    | DoFail(d: DomainId, message: string, auto: bool)
    | DoHandler(h: Handler)

  ghost function Apply(s: State, op: DbOp): Database {
    match op
    case Keep => s.db
    case DoMark(d) => MarkVerified(s.db, d, s.clock)
    case DoLock(d, lockTime) => Lock(s.db, d, lockTime, lockTime - s.cfg.timeout, s.clock)
    case DoError(d, message) => SetError(s.db, d, message, s.clock)
    case DoRollback(d, message) => Rollback(s.db, d, message, true, s.clock)
    case DoSave(rec) => SaveCert(s.db, rec, s.clock)
    case DoFail(d, message, auto) => FailJob(s.db, d, message, auto, s.cfg.backoffBase, s.cfg.backoffMax, s.clock)
    case DoHandler(h) => HandlerDb(s.db, h, s.clock)
  }

  function StuckMessage(db: Database, d: DomainId): string {
    if HasCert(db, d) then "" else STUCK_MESSAGE
  }

  /** Which database function a step runs. */
  function OpOf(s: State, a: Step): DbOp
    requires Enabled(s, a)
  {
    match a
    case Start(r, ok) => StartOp(s, s.starters[r], ok)
    case Work(t, o, material) => WorkOp(s.workers[t], o, material)
    case Clean(c) =>
      if c.Advance? && s.cleaner.phase == CleanWrite
      then DoRollback(s.cleaner.queue[0], StuckMessage(s.db, s.cleaner.queue[0])) else Keep
    case Shut(h) =>
      if h.UndoNext? then DoRollback(s.main.queue[0], StuckMessage(s.db, s.main.queue[0])) else Keep
    case Handle(h) => DoHandler(h)
    case _ => Keep
  }

  function StartOp(s: State, st: Starter, ok: bool): DbOp {
    var d := st.domain;
    match st.pc
    case Prepare =>
      if !st.auto && !st.renew && ok && st.snapshot.cnameTarget != "" && !HasCert(s.db, d) && st.snapshot.status != Verified
      then DoMark(d) else Keep
    case LockUpdate(lockTime) => DoLock(d, lockTime)
    case LoadUser => if st.owner in s.db.users then Keep else DoError(d, "user not found")
    case Refuse => DoRollback(d, "")
    case _ => Keep
  }

  function WorkOp(w: Worker, o: Outcome, material: Material): DbOp {
    match w.pc
    case SaveWrite => if o.Bad? then Keep else DoSave(NewCertificate(w, material))
    case FailWrite(message) => DoFail(w.domain, message, w.auto)
    case UndoWrite => DoRollback(w.domain, if w.auto then CANCELLED_MESSAGE else "")
    case _ => Keep
  }

  lemma StepIsOp(s: State, a: Step)
    requires Enabled(s, a)
    ensures Next(s, a).db == Apply(s, OpOf(s, a))
  {
    match a {
      case Start(r, ok) => assert StartDb(s, s.starters[r], ok) == Apply(s, StartOp(s, s.starters[r], ok));
      case Work(t, o, material) => assert WorkDb(s, s.workers[t], o, material) == Apply(s, WorkOp(s.workers[t], o, material));
      case _ =>
    }
  }

  // ---------------------------------------------------------------- the joint row invariant

  lemma HandlerKeepsOk(db: Database, h: Handler, now: int)
    requires DbOk(db)
    ensures DbOk(HandlerDb(db, h, now))
  {
    match h {
      case MarkCname(d) => UpdatesKeepOk(db, d, "", true, 0, now, now);
      case ClaimDomain(d, user) => UpdatesKeepOk(db, d, "", true, user, now, now);
      case NewDomain(user, name, target) => CreateKeepsOk(db, user, name, target, now);
      case Retarget(d, target) => UpdatesKeepOk(db, d, target, true, 0, now, now);
      case SwitchAutoRenew(d, on) => UpdatesKeepOk(db, d, "", on, 0, now, now);
      case DeleteDomain(d) => DeletesKeepOk(db, d);
      case RestoreDomain(d) => UpdatesKeepOk(db, d, "", true, 0, now, now);
      case RemoveDomain(d) => DeletesKeepOk(db, d);
    }
  }

  lemma OpKeepsOk(s: State, op: DbOp)
    requires DbOk(s.db)
    ensures DbOk(Apply(s, op))
  {
    match op {
      case Keep =>
      case DoMark(d) => UpdatesKeepOk(s.db, d, "", true, 0, s.clock, s.clock);
      case DoLock(d, lockTime) => LockKeepsOk(s.db, d, lockTime, lockTime - s.cfg.timeout, s.clock);
      case DoError(d, message) => UpdatesKeepOk(s.db, d, message, true, 0, s.clock, s.clock);
      case DoRollback(d, message) => UpdatesKeepOk(s.db, d, message, true, 0, s.clock, s.clock);
      case DoSave(rec) => SaveKeepsOk(s.db, rec, s.clock);
      case DoFail(d, message, auto) => FailKeepsOk(s.db, d, message, auto, s.cfg.backoffBase, s.cfg.backoffMax, s.clock);
      case DoHandler(h) => HandlerKeepsOk(s.db, h, s.clock);
    }
  }

  lemma StepKeepsDbOk(s: State, a: Step)
    requires Enabled(s, a) && DbOk(s.db)
    ensures DbOk(Next(s, a).db)
  {
    hide Next;
    StepIsOp(s, a);
    OpKeepsOk(s, OpOf(s, a));
  }

  /**
   In every reachable state: a generating row has its start time, a verified row its verification
   time, a live active row a certificate, a row has a backoff deadline
   exactly when it has failures, and no domain has two certificates.
   */
  lemma {:induction false} RowInvariant(run: seq<State>, steps: seq<Step>, k: nat)
    requires IsRun(run, steps) && Init(run[0]) && k < |run|
    ensures DbOk(run[k].db)
  {
    hide Next;
    if k > 0 {
      RowInvariant(run, steps, k - 1);
      StepKeepsDbOk(run[k - 1], steps[k - 1]);
    }
  }

  // ---------------------------------------------------------------- leases

  /** Step `a` takes the lease of domain `d`. */
  predicate Locks(s: State, a: Step, d: DomainId) {
    a.Start? && a.r in s.starters && s.starters[a.r].domain == d && s.starters[a.r].pc.LockUpdate?
    && CanLock(s.db, d, s.starters[a.r].pc.lockTime - s.cfg.timeout)
  }

  function LockTime(s: State, a: Step): int
    requires a.Start? && a.r in s.starters && s.starters[a.r].pc.LockUpdate?
  {
    s.starters[a.r].pc.lockTime
  }

  /** Only a lock makes a row generating or changes the start time of a generating row. */
  lemma OpOnLease(s: State, op: DbOp, d: DomainId)
    ensures var db' := Apply(s, op);
            Locked(db', d) ==>
              || (op.DoLock? && op.d == d && CanLock(s.db, d, op.lockTime - s.cfg.timeout)
                  && db'.domains[d].generatingSince == Some(op.lockTime))
              || (Locked(s.db, d) && db'.domains[d].generatingSince == s.db.domains[d].generatingSince)
  {
  }

  lemma StepOnLease(s: State, a: Step, d: DomainId)
    requires Enabled(s, a)
    ensures var db' := Next(s, a).db;
            Locked(db', d) ==>
              || (Locks(s, a, d) && db'.domains[d].generatingSince == Some(LockTime(s, a)))
              || (Locked(s.db, d) && db'.domains[d].generatingSince == s.db.domains[d].generatingSince)
  {
    StepIsOp(s, a);
    OpOnLease(s, OpOf(s, a), d);
  }

  lemma LockSets(s: State, a: Step, d: DomainId)
    requires Enabled(s, a) && Locks(s, a, d)
    ensures Locked(Next(s, a).db, d) && Next(s, a).db.domains[d].generatingSince == Some(LockTime(s, a))
  {
  }

  /** One timeout for each time steps `i`, ..., `j - 1` take the lease. */
  ghost function LeaseSpan(run: seq<State>, steps: seq<Step>, d: DomainId, i: nat, j: nat): (span: int)
    requires IsRun(run, steps) && j <= |steps|
    ensures j > i && run[j - 1].cfg.timeout >= 0 && (forall k :: i <= k < j ==> run[k].cfg == run[j - 1].cfg) ==> span >= 0
    decreases j
  {
    if j <= i then 0
    else LeaseSpan(run, steps, d, i, j - 1) + if Locks(run[j - 1], steps[j - 1], d) then run[j - 1].cfg.timeout else 0
  }

  /** The row of `d` is generating since at least `since`. */
  predicate LockedSince(db: Database, d: DomainId, since: int) {
    Locked(db, d) && db.domains[d].generatingSince.Some? && db.domains[d].generatingSince.value >= since
  }

  lemma LeaseAgeStep(s: State, a: Step, d: DomainId, since: int)
    requires Enabled(s, a) && LockedSince(s.db, d, since) && Locked(Next(s, a).db, d)
    ensures LockedSince(Next(s, a).db, d, if Locks(s, a, d) then since + s.cfg.timeout else since)
    ensures Locks(s, a, d) ==> LockTime(s, a) > since + s.cfg.timeout
  {
    hide Next;
    StepOnLease(s, a, d);
    if Locks(s, a, d) {
      LockSets(s, a, d);
    }
  }

  lemma {:induction false} LeaseAge(run: seq<State>, steps: seq<Step>, d: DomainId, i: nat, j: nat)
    requires IsRun(run, steps) && i < j <= |steps| && Locks(run[i], steps[i], d)
    requires forall k :: i < k <= j ==> Locked(run[k].db, d)
    ensures LockedSince(run[j].db, d, LockTime(run[i], steps[i]) + LeaseSpan(run, steps, d, i + 1, j))
    decreases j
  {
    hide Next;
    if j == i + 1 {
      LockSets(run[i], steps[i], d);
    } else {
      LeaseAge(run, steps, d, i, j - 1);
      assert run[j - 1 + 1] == Next(run[j - 1], steps[j - 1]) && Locked(run[j].db, d);
      LeaseAgeStep(run[j - 1], steps[j - 1], d, LockTime(run[i], steps[i]) + LeaseSpan(run, steps, d, i + 1, j - 1));
    }
  }

  lemma {:induction false} ConfigFixed(run: seq<State>, steps: seq<Step>, i: nat, j: nat)
    requires IsRun(run, steps) && i <= j < |run|
    ensures run[j].cfg == run[i].cfg
    decreases j
  {
    if i < j {
      ConfigFixed(run, steps, i, j - 1);
    }
  }

  /**
   Two successful locks of a domain that stayed generating in between are more than one timeout
   apart for every takeover from the first to the second, however many attempts failed meanwhile.
   */
  lemma LeaseExclusion(run: seq<State>, steps: seq<Step>, d: DomainId, i: nat, j: nat)
    requires IsRun(run, steps) && i < j < |steps|
    requires Locks(run[i], steps[i], d) && Locks(run[j], steps[j], d)
    requires forall k :: i < k <= j ==> Locked(run[k].db, d)
    ensures LockTime(run[j], steps[j]) - LockTime(run[i], steps[i]) > LeaseSpan(run, steps, d, i + 1, j + 1)
    ensures run[i].cfg.timeout >= 0 ==>
              LockTime(run[j], steps[j]) - LockTime(run[i], steps[i]) > run[i].cfg.timeout
  {
    hide Next;
    LeaseAge(run, steps, d, i, j);
    var since := LockTime(run[i], steps[i]) + LeaseSpan(run, steps, d, i + 1, j);
    LockSets(run[j], steps[j], d);
    LeaseAgeStep(run[j], steps[j], d, since);
    forall k | i <= k <= j ensures run[k].cfg == run[i].cfg {
      ConfigFixed(run, steps, i, k);
    }
  }

  // ---------------------------------------------------------------- which lock a lease comes from

  /** The lease of `d` at moment `k` is the one taken by step `m`. */
  ghost predicate LeaseFrom(run: seq<State>, steps: seq<Step>, d: DomainId, m: nat, k: nat)
    requires IsRun(run, steps)
  {
    && m < k < |run| && Locks(run[m], steps[m], d)
    && (forall x :: m < x <= k ==> Locked(run[x].db, d))
    && (forall x :: m < x < k ==> !Locks(run[x], steps[x], d))
  }

  /** The lease of `d` at moment `k` was there at moment `i` and nobody took it over in between. */
  ghost predicate LeaseHeld(run: seq<State>, steps: seq<Step>, d: DomainId, i: nat, k: nat)
    requires IsRun(run, steps)
  {
    && i <= k < |run|
    && (forall x :: i <= x <= k ==> Locked(run[x].db, d))
    && (forall x :: i <= x < k ==> !Locks(run[x], steps[x], d))
  }

  lemma {:induction false} LeaseKeepsStart(run: seq<State>, steps: seq<Step>, d: DomainId, i: nat, k: nat)
    requires IsRun(run, steps) && LeaseHeld(run, steps, d, i, k)
    ensures run[k].db.domains[d].generatingSince == run[i].db.domains[d].generatingSince
    decreases k
  {
    hide Next, Enabled, Locks;
    if i < k {
      LeaseKeepsStart(run, steps, d, i, k - 1);
      StepOnLease(run[k - 1], steps[k - 1], d);
    }
  }

  lemma LeaseFromStart(run: seq<State>, steps: seq<Step>, d: DomainId, m: nat, k: nat)
    requires IsRun(run, steps) && LeaseFrom(run, steps, d, m, k)
    ensures run[k].db.domains[d].generatingSince == Some(LockTime(run[m], steps[m]))
  {
    hide Next;
    LockSets(run[m], steps[m], d);
    LeaseKeepsStart(run, steps, d, m + 1, k);
  }

  /** A lease that is there was there all along or has a lock it comes from. */
  lemma {:induction false} LeaseOrigin(run: seq<State>, steps: seq<Step>, d: DomainId, i: nat, k: nat) returns (m: nat)
    requires IsRun(run, steps) && i <= k < |run| && Locked(run[k].db, d)
    ensures LeaseHeld(run, steps, d, i, k) || (i <= m && LeaseFrom(run, steps, d, m, k))
    decreases k
  {
    hide Next, Enabled, Locks;
    m := k;
    if i < k {
      if Locks(run[k - 1], steps[k - 1], d) {
        m := k - 1;
      } else {
        StepOnLease(run[k - 1], steps[k - 1], d);
        m := LeaseOrigin(run, steps, d, i, k - 1);
      }
    }
  }

  /** A row free at `i` is generating at `k` exactly when a lock in between still holds. */
  lemma LeaseSinceIff(run: seq<State>, steps: seq<Step>, d: DomainId, i: nat, k: nat)
    requires IsRun(run, steps) && i <= k < |run| && !Locked(run[i].db, d)
    ensures Locked(run[k].db, d) <==> exists m :: i <= m < k && LeaseFrom(run, steps, d, m, k)
  {
    hide Next, Enabled, Locks;
    if Locked(run[k].db, d) {
      var m := LeaseOrigin(run, steps, d, i, k);
      assert !LeaseHeld(run, steps, d, i, k);
    }
  }

  // ---------------------------------------------------------------- two starts at once

  /** The attempt has taken the lease and not yet started its worker. */
  predicate PastLock(pc: StarterPc) {
    || pc.LoadUser? || pc.AcquireSlot? || pc.Refuse? || pc.BeginCancel? || pc.BeginWait? || pc.BeginRegister? || pc.Spawn?
  }

  lemma PastLockStep(s: State, a: Step, r: StarterId)
    requires Enabled(s, a) && r in Next(s, a).starters && PastLock(Next(s, a).starters[r].pc)
    ensures r in s.starters && Next(s, a).starters[r].domain == s.starters[r].domain
    ensures PastLock(s.starters[r].pc) || (a.Start? && a.r == r && Locks(s, a, s.starters[r].domain))
  {
  }

  lemma {:induction false} TookLease(run: seq<State>, steps: seq<Step>, k: nat, r: StarterId) returns (i: nat)
    requires IsRun(run, steps) && Init(run[0]) && k < |run| && r in run[k].starters && PastLock(run[k].starters[r].pc)
    ensures i < k && steps[i].Start? && steps[i].r == r && Locks(run[i], steps[i], run[k].starters[r].domain)
    ensures forall x :: i < x <= k ==> r in run[x].starters && PastLock(run[x].starters[r].pc)
  {
    hide Next, Enabled, Locks, PastLock;
    PastLockStep(run[k - 1], steps[k - 1], r);
    if PastLock(run[k - 1].starters[r].pc) {
      i := TookLease(run, steps, k - 1, r);
    } else {
      i := k - 1;
    }
  }

  /**
   Two starts of one domain are past their locks at once, inside beginCertJob included, only if a
   step took the row out of generating in between or the second lock came more than the timeout
   after the first.
   */
  lemma OverlapNeedsRelease(run: seq<State>, steps: seq<Step>, k: nat, q: StarterId, r: StarterId, d: DomainId)
    returns (i: nat, j: nat)
    requires IsRun(run, steps) && Init(run[0]) && k < |run| && q != r
    requires q in run[k].starters && run[k].starters[q].domain == d && PastLock(run[k].starters[q].pc)
    requires r in run[k].starters && run[k].starters[r].domain == d && PastLock(run[k].starters[r].pc)
    ensures i < j < k && Locks(run[i], steps[i], d) && Locks(run[j], steps[j], d) && {steps[i].r, steps[j].r} == {q, r}
    ensures (exists x :: i < x <= j && !Locked(run[x].db, d))
            || LockTime(run[j], steps[j]) - LockTime(run[i], steps[i]) > LeaseSpan(run, steps, d, i + 1, j + 1)
    ensures run[i].cfg.timeout >= 0 && (forall x :: i < x <= j ==> Locked(run[x].db, d)) ==>
              LockTime(run[j], steps[j]) - LockTime(run[i], steps[i]) > run[i].cfg.timeout
  {
    hide Next, Enabled, Locks, PastLock;
    i := TookLease(run, steps, k, q);
    j := TookLease(run, steps, k, r);
    if j < i {
      i, j := j, i;
    }
    if forall x :: i < x <= j ==> Locked(run[x].db, d) {
      LeaseExclusion(run, steps, d, i, j);
    }
  }

  // ---------------------------------------------------------------- certificates are kept

  /** Step `a` deletes the certificate rows of `d`. */
  predicate Destroys(a: Step, d: DomainId) {
    a == Handle(RemoveDomain(d)) || a == Handle(DeleteDomain(d))
  }

  predicate Saves(s: State, a: Step, d: DomainId) {
    a.Work? && a.token in s.workers && s.workers[a.token].domain == d && s.workers[a.token].pc == SaveWrite && !a.outcome.Bad?
  }

  lemma OpOnCert(s: State, op: DbOp, c: CertId)
    requires DbOk(s.db) && c in s.db.certs
    ensures var db', d := Apply(s, op), s.db.certs[c].domainId;
            op == DoHandler(RemoveDomain(d)) || op == DoHandler(DeleteDomain(d))
            || (c in db'.certs && db'.certs[c].domainId == d && db'.certs[c].createdAt == s.db.certs[c].createdAt
                && (db'.certs[c] == s.db.certs[c]
                    || (op.DoSave? && op.rec.domainId == d
                        && (Live(db', d) ==> db'.domains[d].status == Active && db'.domains[d].failures == 0
                                             && db'.domains[d].backoffUntil == None))))
  {
    if op.DoSave? && HasCert(s.db, op.rec.domainId) && op.rec.domainId == s.db.certs[c].domainId {
      assert CertIdFor(s.db, op.rec.domainId) == c;
    }
  }

  lemma StepOnCert(s: State, a: Step, c: CertId)
    requires Enabled(s, a) && DbOk(s.db) && c in s.db.certs && !Destroys(a, s.db.certs[c].domainId)
    ensures var db', d := Next(s, a).db, s.db.certs[c].domainId;
            && c in db'.certs && db'.certs[c].domainId == d && db'.certs[c].createdAt == s.db.certs[c].createdAt
            && (db'.certs[c] == s.db.certs[c] || Saves(s, a, d))
            && (Saves(s, a, d) && Live(db', d) ==>
                  db'.domains[d].status == Active && db'.domains[d].failures == 0 && db'.domains[d].backoffUntil == None)
  {
    StepIsOp(s, a);
    OpOnCert(s, OpOf(s, a), c);
  }

  /** Certificate row `c` of `before` is still there, for the same domain and from the same time. */
  predicate SameCert(before: Database, after: Database, c: CertId) {
    c in before.certs && c in after.certs
    && after.certs[c].domainId == before.certs[c].domainId && after.certs[c].createdAt == before.certs[c].createdAt
  }

  lemma {:induction false} CertificateStays(run: seq<State>, steps: seq<Step>, i: nat, j: nat, c: CertId)
    requires IsRun(run, steps) && Init(run[0]) && i <= j < |run|
    requires c in run[i].db.certs
    requires forall k :: i <= k < j ==> !Destroys(steps[k], run[i].db.certs[c].domainId)
    ensures SameCert(run[i].db, run[j].db, c)
    decreases j
  {
    hide Next;
    if i < j {
      CertificateStays(run, steps, i, j - 1, c);
      RowInvariant(run, steps, j - 1);
      StepOnCert(run[j - 1], steps[j - 1], c);
    }
  }

  /**
   Renewal never loses a certificate: as long as nobody deletes the domain, an existing
   certificate row keeps its id and creation time, and a step that changes its contents is a
   save, which also makes the live domain active and clears its failures and backoff.
   */
  lemma CertificateKept(run: seq<State>, steps: seq<Step>, i: nat, j: nat, c: CertId, d: DomainId)
    requires IsRun(run, steps) && Init(run[0]) && i <= j < |steps|
    requires c in run[i].db.certs && run[i].db.certs[c].domainId == d
    requires forall k :: i <= k <= j ==> !Destroys(steps[k], d)
    ensures SameCert(run[i].db, run[j].db, c) && SameCert(run[i].db, run[j + 1].db, c)
    ensures var db, db' := run[j].db, run[j + 1].db;
            db'.certs[c] != db.certs[c] ==>
              && Saves(run[j], steps[j], d)
              && (Live(db', d) ==> db'.domains[d].status == Active && db'.domains[d].failures == 0
                                   && db'.domains[d].backoffUntil == None)
  {
    hide Next;
    CertificateStays(run, steps, i, j, c);
    RowInvariant(run, steps, j);
    StepOnCert(run[j], steps[j], c);
  }

  // ---------------------------------------------------------------- refusal for lack of a slot

  /** The row can be put back to active or verified. */
  predicate Restorable(db: Database, d: DomainId) {
    Live(db, d) && (HasCert(db, d) || db.domains[d].cnameVerifiedAt.Some?)
  }

  /** Step `a` deletes or resets domain `d`. */
  predicate Resets(s: State, a: Step, d: DomainId) {
    a == Handle(DeleteDomain(d)) || a == Handle(RemoveDomain(d)) || a == Handle(RestoreDomain(d))
  }

  predicate KeepsRow(db: Database, db': Database, d: DomainId) {
    Live(db, d) ==> Live(db', d) && (db.domains[d].cnameVerifiedAt.Some? ==> db'.domains[d].cnameVerifiedAt.Some?)
  }

  lemma HandlerKeepsRow(db: Database, h: Handler, now: int, d: DomainId)
    requires DbOk(db) && h != DeleteDomain(d) && h != RemoveDomain(d) && h != RestoreDomain(d)
    ensures KeepsRow(db, HandlerDb(db, h, now), d)
  {
  }

  lemma OpKeepsRow(s: State, op: DbOp, d: DomainId)
    requires DbOk(s.db) && Live(s.db, d)
    requires op != DoHandler(DeleteDomain(d)) && op != DoHandler(RemoveDomain(d)) && op != DoHandler(RestoreDomain(d))
    ensures KeepsRow(s.db, Apply(s, op), d)
    ensures op == DoMark(d) ==> Apply(s, op).domains[d].cnameVerifiedAt.Some?
  {
    match op {
      case DoHandler(h) => HandlerKeepsRow(s.db, h, s.clock, d);
      case _ =>
    }
  }

  lemma OpKeepsHasCert(s: State, op: DbOp, d: DomainId)
    requires DbOk(s.db) && HasCert(s.db, d)
    requires op != DoHandler(DeleteDomain(d)) && op != DoHandler(RemoveDomain(d))
    ensures HasCert(Apply(s, op), d)
  {
    var c :| c in s.db.certs && s.db.certs[c].domainId == d;
    OpOnCert(s, op, c);
  }

  lemma OpKeepsRestorable(s: State, op: DbOp, d: DomainId)
    requires DbOk(s.db) && Live(s.db, d)
    requires op != DoHandler(DeleteDomain(d)) && op != DoHandler(RemoveDomain(d)) && op != DoHandler(RestoreDomain(d))
    ensures Live(Apply(s, op), d)
    ensures Restorable(s.db, d) || op == DoMark(d) ==> Restorable(Apply(s, op), d)
  {
    OpKeepsRow(s, op, d);
    if HasCert(s.db, d) {
      OpKeepsHasCert(s, op, d);
    }
  }

  /** How far starter `r` has secured that its row can be put back. */
  predicate Secured(s: State, r: StarterId) {
    r in s.starters &&
    var st := s.starters[r];
    Live(s.db, st.domain) &&
    match st.pc
    case Prepare => st.snapshot.status == Verified ==> Restorable(s.db, st.domain)
    case LockCert => !st.renew ==> Restorable(s.db, st.domain)
    case _ => Restorable(s.db, st.domain)
  }

  lemma StepKeepsSecured(s: State, a: Step, r: StarterId)
    requires Enabled(s, a) && DbOk(s.db) && Secured(s, r) && (s.starters[r].auto ==> s.starters[r].renew)
    requires !Resets(s, a, s.starters[r].domain)
    ensures var s' := Next(s, a);
            r in s'.starters ==>
              Secured(s', r) && s'.starters[r].domain == s.starters[r].domain
              && s'.starters[r].auto == s.starters[r].auto && s'.starters[r].renew == s.starters[r].renew
  {
    StepIsOp(s, a);
    OpKeepsRestorable(s, OpOf(s, a), s.starters[r].domain);
  }

  lemma ArrivalSecured(s: State, a: Step)
    requires Enabled(s, a) && DbOk(s.db) && a.Arrive?
    ensures var s' := Next(s, a);
            Secured(s', a.r) && s'.starters[a.r].domain == a.d && (s'.starters[a.r].auto ==> s'.starters[a.r].renew)
  {
  }

  lemma {:induction false} SecuredAlong(run: seq<State>, steps: seq<Step>, i: nat, j: nat)
    requires IsRun(run, steps) && Init(run[0]) && i < j < |run| && steps[i].Arrive?
    requires forall k :: i < k <= j ==> steps[i].r in run[k].starters
    requires forall k :: i < k < j ==> !Resets(run[k], steps[k], steps[i].d)
    ensures Secured(run[j], steps[i].r) && run[j].starters[steps[i].r].domain == steps[i].d
    ensures run[j].starters[steps[i].r].auto ==> run[j].starters[steps[i].r].renew
    decreases j
  {
    hide Next;
    if j == i + 1 {
      RowInvariant(run, steps, i);
      ArrivalSecured(run[i], steps[i]);
    } else {
      SecuredAlong(run, steps, i, j - 1);
      RowInvariant(run, steps, j - 1);
      StepKeepsSecured(run[j - 1], steps[j - 1], steps[i].r);
    }
  }

  /**
   A request or renewal attempt that locked its row but gets no slot undoes the lock: unless the
   domain was deleted or reset since the attempt began, its row ends active when it has a
   certificate and verified otherwise, never in error and never generating; if another step
   already took the row out of generating, it is left alone.
   */
  lemma RefusalUndoesLock(run: seq<State>, steps: seq<Step>, i: nat, j: nat)
    requires IsRun(run, steps) && Init(run[0]) && i < j < |steps| && steps[i].Arrive?
    requires forall k :: i < k <= j ==> steps[i].r in run[k].starters
    requires forall k :: i < k < j ==> !Resets(run[k], steps[k], steps[i].d)
    requires steps[j].Start? && steps[j].r == steps[i].r && run[j].starters[steps[i].r].pc == Refuse
    ensures var d, s, s' := steps[i].d, run[j], run[j + 1];
            && !Locked(s'.db, d)
            && (Locked(s.db, d) ==>
                  s'.db.domains[d] == RolledBackRow(s.db.domains[d], HasCert(s.db, d), "", true, s.clock)
                  && s'.db.domains[d].status == (if HasCert(s.db, d) then Active else Verified)
                  && s'.db.domains[d].errorMessage == "" && s'.db.domains[d].generatingSince == None)
            && (!Locked(s.db, d) ==> s'.db == s.db)
  {
    SecuredAlong(run, steps, i, j);
    StepIsOp(run[j], steps[j]);
  }
}
