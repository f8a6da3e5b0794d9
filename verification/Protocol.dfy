/**
 The certificate-job protocol as a transition system: requests, the renewal scan, job workers,
 stuck-job cleanup, shutdown and the other handlers interleave freely over the database lease,
 the job registry, the per-domain worker wait groups and the slot pool. Each mutex section and
 each database function is one step. `ok`, `Outcome` and `material` carry what the outside world
 answered (CNAME checks, whether a wait ended before its timeout, the ACME call, the new keys).
 */
module Protocol {
  import opened Options
  import opened Rows
  import Registry

  type Token = nat
  type StarterId = nat

  datatype Config = Config(timeout: int, drain: int, slots: nat, backoffBase: int, backoffMax: int)

  /** Where a request or a renewal attempt stands on its way to starting a job. */
  datatype StarterPc =
    | Prepare                                  // CNAME check, mark verified
    | LockCert                                 // lockDomainForCertJob: a renewal needs a certificate
    | LockRow                                  //   read the row
    | LockClock(current: Domain)               //   read the clock, judge the lease
    | LockInflight(lockTime: int, stale: bool) //   is a job registered?
    | LockCancel(lockTime: int)                //   cancel the stale job
    | LockWait(lockTime: int, since: int)      //   wait for its worker
    | LockUpdate(lockTime: int)                //   conditional update of the lease
    | LoadUser                                 //   load the owner
    | AcquireSlot
    | Refuse                                   // no slot: undo the lock
    | BeginCancel                              // beginCertJob: first critical section
    | BeginWait(since: int)                    //   wait for the previous worker
    | BeginRegister(waited: bool)              //   second critical section
    | Spawn(token: Token)                      // join the shutdown group, start the goroutine

  datatype Starter = Starter(domain: DomainId, renew: bool, auto: bool, snapshot: Domain, owner: UserId, pc: StarterPc)

  /** Where a worker goroutine stands. */
  datatype WorkerPc =
    | Spawned                                  // not yet in its domain's wait group
    | CheckContext
    | VerifyCname
    | LoadExisting
    | AcmeGuard
    | AcmeRunning
    | AcmeReturned(error: Option<string>)
    | ErrorContext(message: string)
    | SaveContext
    | SaveGuard
    | SaveWrite
    | FailGuard(message: string)
    | FailWrite(message: string)
    | UndoGuard
    | UndoInflight
    | UndoWrite
    | ExitSlot
    | ExitEntry
    | ExitGroup
    | ExitTracker
    | Exited

  datatype Worker = Worker(domain: DomainId, renew: bool, auto: bool, name: string, cnameTarget: string, user: UserId, pc: WorkerPc)

  /** `Early` is an error before the ACME call proper, `Aborted` a cancellation or timeout inside it. */
  datatype Outcome = Good | Bad(message: string) | Early(message: string) | Aborted

  datatype CleanPhase = CleanCheck | CleanCancel | CleanWait(since: int) | CleanRecheck | CleanWrite
  datatype Cleaner = Cleaner(queue: seq<DomainId>, phase: CleanPhase)

  datatype MainPc = Serving | Cancelled(since: int) | Drained(ok: bool) | Undoing(queue: seq<DomainId>)

  datatype State = State(
    cfg: Config,
    clock: int,
    db: Database,
    jobs: Registry.Jobs,
    issued: map<Token, DomainId>,
    starters: map<StarterId, Starter>,
    workers: map<Token, Worker>,
    tracked: map<DomainId, nat>,
    group: nat,
    slots: nat,
    cleaner: Cleaner,
    main: MainPc)

  datatype CleanAct = ListStuck(queue: seq<DomainId>) | Advance(ok: bool)

  datatype ShutAct = CancelAll | Drain(ok: bool) | ListLocked(queue: seq<DomainId>) | UndoNext

  /** The other handlers' database functions, at any time and with any arguments. */
  datatype Handler =
    | MarkCname(d: DomainId)
    | ClaimDomain(d: DomainId, user: UserId)
    | NewDomain(user: UserId, name: string, target: string)
    | Retarget(d: DomainId, target: string)
    | SwitchAutoRenew(d: DomainId, on: bool)
    | DeleteDomain(d: DomainId)
    | RestoreDomain(d: DomainId)
    | RemoveDomain(d: DomainId)

  datatype Step =
    | Tick(to: int)
    | Expire(token: Token)
    | Arrive(r: StarterId, d: DomainId, renew: bool, auto: bool)
    | Start(r: StarterId, ok: bool)
    | Work(token: Token, outcome: Outcome, material: Material)
    | Panic(token: Token)
    | DnsTouch(token: Token)                   // the ACME call presents a TXT record
    | CaTouch(token: Token)                    // it sends a request to the CA, or deletes a record it presented
    | Clean(clean: CleanAct)
    | Shut(shut: ShutAct)
    | Handle(handler: Handler)

  // ---------------------------------------------------------------- resources

  function Tracked(s: State, d: DomainId): nat {
    if d in s.tracked then s.tracked[d] else 0
  }

  function Less(n: nat): nat {
    if n > 0 then n - 1 else 0
  }

  predicate TokenActive(s: State, t: Token) {
    t in s.issued && Registry.Active(s.jobs, s.issued[t], t)
  }

  predicate ContextDone(s: State, t: Token) {
    t in s.jobs.done
  }

  /** The check shared by the ACME and DNS steps of the job with token `t`. */
  predicate AcmeActive(s: State, t: Token) {
    Registry.RequireAcmeActive(ContextDone(s, t), Some(TokenActive(s, t)))
  }

  /** Progress of a worker through its deferred exits; 1 is the body of runCertJob. */
  function Rank(pc: WorkerPc): nat {
    match pc
    case Spawned => 0
    case ExitSlot => 2
    case ExitEntry => 3
    case ExitGroup => 4
    case ExitTracker => 5
    case Exited => 6
    case _ => 1
  }

  // ---------------------------------------------------------------- starters

  /** Where the starter goes next; None when the request is answered or the goroutine is on its way. */
  function StartPc(s: State, st: Starter, ok: bool): Option<StarterPc> {
    var d := st.domain;
    match st.pc
    case Prepare =>
      if ok && (if st.auto then MayAutoRenew(st.snapshot, s.clock) else st.snapshot.cnameTarget != "") then Some(LockCert)
      else None
    case LockCert => if st.renew && !HasCert(s.db, d) then None else Some(LockRow)
    case LockRow => if Live(s.db, d) then Some(LockClock(s.db.domains[d])) else None
    case LockClock(current) => Some(LockInflight(s.clock, StaleLease(current, s.clock - s.cfg.timeout)))
    case LockInflight(lockTime, stale) =>
      if !Registry.Inflight(s.jobs, d) then Some(LockUpdate(lockTime))
      else if stale then Some(LockCancel(lockTime))
      else None
    case LockCancel(lockTime) => Some(LockWait(lockTime, s.clock))
    case LockWait(lockTime, _) => if ok then Some(LockUpdate(lockTime)) else None
    case LockUpdate(lockTime) => if CanLock(s.db, d, lockTime - s.cfg.timeout) then Some(LoadUser) else None
    case LoadUser => if st.owner in s.db.users then Some(AcquireSlot) else None
    case AcquireSlot => Some(if s.slots < s.cfg.slots then BeginCancel else Refuse)
    case Refuse => None
    case BeginCancel => Some(BeginWait(s.clock))
    case BeginWait(_) => Some(BeginRegister(ok))
    case BeginRegister(_) => Some(Spawn(s.jobs.lastToken + 1))
    case Spawn(_) => None
  }

  /** The database effect of one starter step. */
  function StartDb(s: State, st: Starter, ok: bool): Database {
    var d := st.domain;
    match st.pc
    case Prepare =>
      if !st.auto && !st.renew && ok && st.snapshot.cnameTarget != "" && !HasCert(s.db, d) && st.snapshot.status != Verified
      then MarkVerified(s.db, d, s.clock)
      else s.db
    case LockUpdate(lockTime) => Lock(s.db, d, lockTime, lockTime - s.cfg.timeout, s.clock)
    case LoadUser => if st.owner in s.db.users then s.db else SetError(s.db, d, "user not found", s.clock)
    case Refuse => Rollback(s.db, d, "", true, s.clock)
    case _ => s.db
  }

  /** The registry effect of one starter step. */
  function StartJobs(s: State, st: Starter): Registry.Jobs {
    if st.pc.LockCancel? || st.pc.BeginCancel? then Registry.Cancel(s.jobs, st.domain)
    else if st.pc.BeginRegister? then Registry.Register(s.jobs, st.domain, s.clock + s.cfg.timeout)
    else s.jobs
  }

  function NewWorker(st: Starter): Worker {
    Worker(st.domain, st.renew, st.auto, st.snapshot.name, st.snapshot.cnameTarget, st.owner, Spawned)
  }

  function AfterStart(s: State, r: StarterId, ok: bool): State
    requires r in s.starters
  {
    var st := s.starters[r];
    var d, pc := st.domain, StartPc(s, st, ok);
    var owner := if st.pc.LockRow? && Live(s.db, d) then s.db.domains[d].userId else st.owner;
    s.(starters := if pc.None? then s.starters - {r} else s.starters[r := st.(pc := pc.value, owner := owner)],
       db := StartDb(s, st, ok),
       jobs := StartJobs(s, st),
       issued := if st.pc.BeginRegister? then s.issued[s.jobs.lastToken + 1 := d] else s.issued,
       slots := if st.pc.AcquireSlot? && s.slots < s.cfg.slots then s.slots + 1 else s.slots,
       workers := if st.pc.Spawn? then s.workers[st.pc.token := NewWorker(st)] else s.workers,
       group := if st.pc.Spawn? then s.group + 1 else s.group)
  }

  // ---------------------------------------------------------------- workers

  /** The control flow of runCertJob and its deferred exits. */
  function NextPc(w: Worker, active: bool, contextDone: bool, inflight: bool, hasCert: bool, o: Outcome): WorkerPc {
    match w.pc
    case Spawned => CheckContext
    case CheckContext => if contextDone then UndoGuard else VerifyCname
    case VerifyCname =>
      if w.cnameTarget == "" then FailGuard("CNAME target not configured for this domain")
      else if o.Bad? then FailGuard(o.message)
      else LoadExisting
    case LoadExisting =>
      if w.renew && !hasCert then FailGuard("no existing certificate to renew")
      else if o.Bad? && hasCert then FailGuard(o.message)
      else AcmeGuard
    case AcmeGuard => if Registry.RequireAcmeActive(contextDone, Some(active)) then AcmeRunning else UndoGuard
    case AcmeRunning =>
      (match o
       case Good => AcmeReturned(None)
       case Bad(message) => AcmeReturned(Some(message))
       case Early(message) => ErrorContext(message)
       case Aborted => UndoGuard)
    case AcmeReturned(error) =>
      if !Registry.RequireAcmeActive(contextDone, Some(active)) then UndoGuard else if error.Some? then ErrorContext(error.value) else SaveContext
    case ErrorContext(message) => if contextDone then UndoGuard else FailGuard(message)
    case SaveContext => if contextDone then UndoGuard else SaveGuard
    case SaveGuard => if active then SaveWrite else ExitSlot
    case SaveWrite => if o.Bad? then FailGuard(o.message) else ExitSlot
    case FailGuard(message) => if active then FailWrite(message) else ExitSlot
    case FailWrite(_) => ExitSlot
    case UndoGuard => if active then ExitSlot else UndoInflight
    case UndoInflight => if inflight then ExitSlot else UndoWrite
    case UndoWrite => ExitSlot
    case ExitSlot => ExitEntry
    case ExitEntry => ExitGroup
    case ExitGroup => ExitTracker
    case ExitTracker => Exited
    case Exited => Exited
  }

  predicate GuardPc(pc: WorkerPc) {
    pc in {AcmeGuard, SaveGuard} || pc.AcmeReturned? || pc.FailGuard?
  }

  /**
   The step passes a liveness check: a worker goes on to ACME work, past its result, to the save
   or to the failure record, or its ACME call presents a record.
   */
  predicate PassesGuard(s: State, a: Step) {
    match a
    case DnsTouch(_) => true
    case Work(t, o, _) => t in s.workers && GuardPc(s.workers[t].pc) && WorkPc(s, t, o) !in {UndoGuard, ExitSlot}
    case _ => false
  }

  /** The step passes one of the checks that only look at the job's context: its own, that of a CA request, or that of deleting a record. */
  predicate PassesContext(s: State, a: Step) {
    match a
    case CaTouch(_) => true
    case Work(t, o, _) =>
      t in s.workers && (s.workers[t].pc in {CheckContext, SaveContext} || s.workers[t].pc.ErrorContext?)
      && WorkPc(s, t, o) != UndoGuard
    case _ => false
  }

  function NewCertificate(w: Worker, material: Material): Certificate {
    Certificate(w.domain, w.user, w.name, material, 0, 0)
  }

  /** The database effect of one worker step. */
  ghost function WorkDb(s: State, w: Worker, o: Outcome, material: Material): Database {
    match w.pc
    case SaveWrite => if o.Bad? then s.db else SaveCert(s.db, NewCertificate(w, material), s.clock)
    case FailWrite(message) => FailJob(s.db, w.domain, message, w.auto, s.cfg.backoffBase, s.cfg.backoffMax, s.clock)
    case UndoWrite => Rollback(s.db, w.domain, if w.auto then CANCELLED_MESSAGE else "", true, s.clock)
    case _ => s.db
  }

  function WorkPc(s: State, t: Token, o: Outcome): WorkerPc
    requires t in s.workers
  {
    var w := s.workers[t];
    NextPc(w, TokenActive(s, t), ContextDone(s, t), Registry.Inflight(s.jobs, w.domain), HasCert(s.db, w.domain), o)
  }

  ghost function AfterWork(s: State, t: Token, o: Outcome, material: Material): State
    requires t in s.workers
  {
    var w := s.workers[t];
    var d := w.domain;
    s.(workers := s.workers[t := w.(pc := WorkPc(s, t, o))],
       db := WorkDb(s, w, o, material),
       jobs := if w.pc == ExitEntry then Registry.End(s.jobs, d, t) else s.jobs,
       slots := if w.pc == ExitSlot then Less(s.slots) else s.slots,
       group := if w.pc == ExitGroup then Less(s.group) else s.group,
       tracked := if w.pc == Spawned then s.tracked[d := Tracked(s, d) + 1]
                  else if w.pc == ExitTracker then s.tracked[d := Less(Tracked(s, d))]
                  else s.tracked)
  }

  // ---------------------------------------------------------------- cleanup and shutdown

  function Elements(q: seq<DomainId>): set<DomainId> {
    set d | d in q
  }

  predicate Distinct(q: seq<DomainId>) {
    forall i, j :: 0 <= i < j < |q| ==> q[i] != q[j]
  }

  /** Where the cleanup pass goes next; the first queued domain is the one at hand. */
  function NextCleaner(s: State, a: CleanAct): Cleaner
    requires CleanEnabled(s, a)
  {
    match a
    case ListStuck(q) => Cleaner(q, CleanCheck)
    case Advance(_) =>
      var inflight, c := Registry.Inflight(s.jobs, s.cleaner.queue[0]), s.cleaner;
      match c.phase
      case CleanCheck => c.(phase := if inflight then CleanCancel else CleanRecheck)
      case CleanCancel => c.(phase := CleanWait(s.clock))
      case CleanWait(_) => c.(phase := CleanRecheck)
      case CleanRecheck => if inflight then Cleaner(c.queue[1..], CleanCheck) else c.(phase := CleanWrite)
      case CleanWrite => Cleaner(c.queue[1..], CleanCheck)
  }

  function AfterClean(s: State, a: CleanAct): State
    requires CleanEnabled(s, a)
  {
    s.(cleaner := NextCleaner(s, a),
       jobs := if a.Advance? && s.cleaner.phase == CleanCancel then Registry.Cancel(s.jobs, s.cleaner.queue[0]) else s.jobs,
       db := if a.Advance? && s.cleaner.phase == CleanWrite then RollbackStuck(s.db, s.cleaner.queue[0], s.clock) else s.db)
  }

  function NextMain(s: State, a: ShutAct): MainPc
    requires ShutEnabled(s, a)
  {
    match a
    case CancelAll => Cancelled(s.clock)
    case Drain(ok) => Drained(ok)
    case ListLocked(q) => Undoing(q)
    case UndoNext => Undoing(s.main.queue[1..])
  }

  function AfterShut(s: State, a: ShutAct): State
    requires ShutEnabled(s, a)
  {
    s.(main := NextMain(s, a),
       jobs := if a.CancelAll? then Registry.CancelAll(s.jobs) else s.jobs,
       db := if a.UndoNext? then RollbackStuck(s.db, s.main.queue[0], s.clock) else s.db)
  }

  function HandlerDb(db: Database, h: Handler, now: int): Database {
    match h
    case MarkCname(d) => MarkVerified(db, d, now)
    case ClaimDomain(d, user) => Assign(db, d, user, now)
    case NewDomain(user, name, target) => Create(db, user, name, target, now)
    case Retarget(d, target) => SetTarget(db, d, target, now)
    case SwitchAutoRenew(d, on) => SetAutoRenew(db, d, on, now)
    case DeleteDomain(d) => Delete(db, d)
    case RestoreDomain(d) => Restore(db, d, now)
    case RemoveDomain(d) => Remove(db, d)
  }

  // ---------------------------------------------------------------- the transition relation

  /** A wait begun at `since` succeeds only when nobody is tracked and gives up only when its timeout is over. */
  predicate WaitAllowed(s: State, d: DomainId, ok: bool, since: int) {
    if ok then Tracked(s, d) == 0 else s.cfg.timeout > 0 && s.clock >= since + s.cfg.timeout
  }

  predicate StartEnabled(s: State, r: StarterId, ok: bool) {
    r in s.starters &&
    match s.starters[r].pc
    case LockWait(_, since) => WaitAllowed(s, s.starters[r].domain, ok, since)
    case BeginWait(since) => WaitAllowed(s, s.starters[r].domain, ok, since)
    case _ => true
  }

  predicate WorkEnabled(s: State, t: Token) {
    t in s.workers && s.workers[t].pc != Exited
  }

  /**
   One goroutine runs the renewal scan and the cleanup: it reads the next row, or scans for stuck
   ones, only when no automatic attempt and no cleanup pass is under way.
   */
  predicate SchedulerIdle(s: State) {
    s.cleaner.queue == [] && forall r :: r in s.starters ==> !s.starters[r].auto
  }

  predicate CleanEnabled(s: State, a: CleanAct) {
    match a
    case ListStuck(q) => SchedulerIdle(s) && Distinct(q) && Elements(q) == StuckIds(s.db, s.clock - s.cfg.timeout)
    case Advance(ok) => s.cleaner.queue != [] && (s.cleaner.phase.CleanWait? ==> WaitAllowed(s, s.cleaner.queue[0], ok, s.cleaner.phase.since))
  }

  predicate ShutEnabled(s: State, a: ShutAct) {
    match a
    case CancelAll => s.main == Serving
    case Drain(ok) => s.main.Cancelled? && (if ok then s.group == 0 else s.clock >= s.main.since + s.cfg.drain)
    case ListLocked(q) => s.main.Drained? && Distinct(q) && Elements(q) == LockedIds(s.db)
    case UndoNext => s.main.Undoing? && s.main.queue != []
  }

  predicate Enabled(s: State, a: Step) {
    match a
    case Tick(to) => to >= s.clock
    case Expire(t) => t in s.jobs.deadline && s.jobs.deadline[t] <= s.clock
    case Arrive(r, d, renew, auto) =>
      r !in s.starters && Live(s.db, d) && (if auto then renew && SchedulerIdle(s) else renew || !HasCert(s.db, d))
    case Start(r, ok) => StartEnabled(s, r, ok)
    case Work(t, _, _) => WorkEnabled(s, t)
    case Panic(t) => t in s.workers && Rank(s.workers[t].pc) == 1
    case DnsTouch(t) => AcmeActive(s, t)
    case CaTouch(t) => t in s.workers && s.workers[t].pc == AcmeRunning && !ContextDone(s, t)
    case Clean(c) => CleanEnabled(s, c)
    case Shut(h) => ShutEnabled(s, h)
    case Handle(_) => true
  }

  /** A new request or renewal attempt, holding the row it just read. */
  function Arrived(s: State, d: DomainId, renew: bool, auto: bool): Starter
    requires d in s.db.domains
  {
    Starter(d, renew, auto, s.db.domains[d], 0, Prepare)
  }

  ghost function Next(s: State, a: Step): State
    requires Enabled(s, a)
  {
    match a
    case Tick(to) => s.(clock := to)
    case Expire(t) => s.(jobs := s.jobs.(done := s.jobs.done + {t}))
    case Arrive(r, d, renew, auto) => s.(starters := s.starters[r := Arrived(s, d, renew, auto)])
    case Start(r, ok) => AfterStart(s, r, ok)
    case Work(t, o, material) => AfterWork(s, t, o, material)
    case Panic(t) => s.(workers := s.workers[t := s.workers[t].(pc := FailGuard("internal error during certificate operation"))])
    case DnsTouch(_) => s
    case CaTouch(_) => s
    case Clean(c) => AfterClean(s, c)
    case Shut(h) => AfterShut(s, h)
    case Handle(h) => s.(db := HandlerDb(s.db, h, s.clock))
  }

  /** A server just started on any consistent database, possibly with leases a crash left behind. */
  ghost predicate Init(s: State) {
    && DbOk(s.db)
    && s.jobs == Registry.Jobs(map[], {}, map[], 0)
    && s.issued == map[] && s.starters == map[] && s.workers == map[] && s.tracked == map[]
    && s.group == 0 && s.slots == 0
    && s.cleaner == Cleaner([], CleanCheck) && s.main == Serving
  }

  /** States `run[0], run[1], ...` linked by `steps[0], steps[1], ...`. */
  ghost predicate IsRun(run: seq<State>, steps: seq<Step>) {
    && |run| == |steps| + 1
    && forall i :: 0 <= i < |steps| ==> Enabled(run[i], steps[i]) && run[i + 1] == Next(run[i], steps[i])
  }
}
