/** Concrete runs that reach the states the theorems warn of. */
module Hazard {
  import opened Options
  import opened Rows
  import Registry
  import opened Protocol
  import opened RenewalRate
  import opened Continuations
  import opened Supersession
  import opened Handlers
  import opened EarlyLease

  // ---------------------------------------------------------------- one certified domain

  function Row(status: Status, since: Option<int>): Domain {
    Domain(1, "example.com", status, "", since, "1.target", Some(0), true, 0, None, 0, false)
  }

  /** A server just started at `clock`, with one domain that holds a certificate. */
  ghost function Start0(row: Domain, clock: int): State {
    State(Config(10, 10, 2, 1, 1), clock, Database(map[1 := row], map[1 := Certificate(1, 1, "example.com", KEYS, 0, 0)], {1}, 2, 2),
          Registry.Jobs(map[], {}, map[], 0), map[], map[], map[], map[], 0, 0, Cleaner([], CleanCheck), Serving)
  }

  /** The fixed parts, and a live row. */
  predicate Home(s: State) {
    && s.cfg == Config(10, 10, 2, 1, 1) && s.db.users == {1} && Live(s.db, 1)
    && s.db.domains[1].userId == 1 && s.db.domains[1].cnameTarget == "1.target" && s.db.domains[1].autoRenew
    && 1 in s.db.certs && s.db.certs[1].domainId == 1
  }

  lemma Opens(row: Domain, clock: int, f: Focus) returns (s: State)
    requires RowOk(row, true) && !row.deleted && row.userId == 1 && row.cnameTarget == "1.target" && row.autoRenew
    ensures s == Start0(row, clock) && Init(s) && Home(s) && Leads(s, s, f)
  {
    s := Start0(row, clock);
    assert 1 in s.db.certs && s.db.certs[1].domainId == 1;
    assert UniqueCerts(s.db.certs);
    assert UniqueNames(s.db.domains);
    assert DbOk(s.db);
    Stay(s, f);
  }

  // ---------------------------------------------------------------- single steps of a renewal

  function Job(auto: bool, row: Domain, pc: StarterPc): Starter {
    Starter(1, true, auto, row, 1, pc)
  }

  predicate Has(s: State, r: StarterId, st: Starter) {
    r in s.starters && s.starters[r] == st
  }

  function Put(s: State, r: StarterId, st: Starter): State {
    s.(starters := s.starters[r := st])
  }

  lemma Starts(s0: State, s: State, f: Focus, r: StarterId, ok: bool) returns (s': State)
    requires Leads(s0, s, f) && !f.Attempting? && StartEnabled(s, r, ok)
    ensures s' == AfterStart(s, r, ok) && Leads(s0, s', f)
  {
    s' := Go(s0, s, Start(r, ok), f);
  }

  lemma Arrives(s0: State, s: State, f: Focus, r: StarterId, auto: bool) returns (s': State)
    requires Leads(s0, s, f) && !f.Attempting? && Home(s) && r !in s.starters && (auto ==> SchedulerIdle(s))
    ensures Leads(s0, s', f) && s' == Put(s, r, Starter(1, true, auto, s.db.domains[1], 0, Prepare))
  {
    s' := Go(s0, s, Arrive(r, 1, true, auto), f);
  }

  lemma PassesChecks(s0: State, s: State, f: Focus, r: StarterId, auto: bool) returns (s': State)
    requires Leads(s0, s, f) && !f.Attempting? && Home(s) && r !in s.starters
    requires auto ==> SchedulerIdle(s) && MayAutoRenew(s.db.domains[1], s.clock)
    ensures Leads(s0, s', f) && s' == Put(s, r, Starter(1, true, auto, s.db.domains[1], 0, LockRow))
  {
    hide Leads, Live, MayAutoRenew;
    var s1 := Arrives(s0, s, f, r, auto);
    var s2 := Prepares(s0, s1, f, r);
    assert HasCert(s2.db, 1);
    s' := Starts(s0, s2, f, r, true);
  }

  lemma Prepares(s0: State, s: State, f: Focus, r: StarterId) returns (s': State)
    requires Leads(s0, s, f) && !f.Attempting? && r in s.starters && s.starters[r].pc == Prepare && s.starters[r].renew
    requires if s.starters[r].auto then MayAutoRenew(s.starters[r].snapshot, s.clock) else s.starters[r].snapshot.cnameTarget != ""
    ensures Leads(s0, s', f) && s' == Put(s, r, s.starters[r].(pc := LockCert))
  {
    s' := Starts(s0, s, f, r, true);
  }

  lemma Reads(s0: State, s: State, f: Focus, r: StarterId, auto: bool, row: Domain) returns (s': State)
    requires Leads(s0, s, f) && !f.Attempting? && Home(s) && Has(s, r, Starter(1, true, auto, row, 0, LockRow))
    ensures Leads(s0, s', f)
    ensures s' == Put(s, r, Job(auto, row, LockInflight(s.clock, StaleLease(s.db.domains[1], s.clock - 10))))
  {
    hide Leads, StaleLease;
    var s1 := Starts(s0, s, f, r, true);
    s' := Starts(s0, s1, f, r, true);
  }

  /** From the arrival to the moment before the conditional update, without a registered job. */
  lemma Looks(s0: State, s: State, f: Focus, r: StarterId, auto: bool) returns (s': State)
    requires Leads(s0, s, f) && !f.Attempting? && Home(s) && r !in s.starters && 1 !in s.jobs.entries
    requires auto ==> SchedulerIdle(s) && MayAutoRenew(s.db.domains[1], s.clock)
    ensures Leads(s0, s', f) && s' == Put(s, r, Job(auto, s.db.domains[1], LockUpdate(s.clock)))
  {
    hide Leads, MayAutoRenew, StaleLease;
    var s1 := PassesChecks(s0, s, f, r, auto);
    var s2 := Reads(s0, s1, f, r, auto, s.db.domains[1]);
    s' := Starts(s0, s2, f, r, true);
  }

  lemma TakesLock(s0: State, s: State, f: Focus, r: StarterId, auto: bool, row: Domain, t: int) returns (s': State)
    requires Leads(s0, s, f) && !f.Attempting? && Home(s) && CanLock(s.db, 1, t - 10) && Has(s, r, Job(auto, row, LockUpdate(t)))
    ensures Leads(s0, s', f) && Home(s')
    ensures s' == Put(s, r, Job(auto, row, LoadUser)).(db := Lock(s.db, 1, t, t - 10, s.clock))
  {
    hide Leads;
    s' := Starts(s0, s, f, r, true);
  }

  lemma GetsSlot(s0: State, s: State, f: Focus, r: StarterId, auto: bool, row: Domain) returns (s': State)
    requires Leads(s0, s, f) && !f.Attempting? && Home(s) && s.slots < 2 && Has(s, r, Job(auto, row, LoadUser))
    ensures Leads(s0, s', f) && s' == Put(s, r, Job(auto, row, BeginCancel)).(slots := s.slots + 1)
  {
    hide Leads;
    var s1 := Starts(s0, s, f, r, true);
    s' := Starts(s0, s1, f, r, true);
  }

  /** From the conditional update to the wait for the previous worker. */
  lemma Claims(s0: State, s: State, f: Focus, r: StarterId, auto: bool, row: Domain, t: int) returns (s': State)
    requires Leads(s0, s, f) && !f.Attempting? && Home(s) && CanLock(s.db, 1, t - 10) && s.slots < 2 && Has(s, r, Job(auto, row, LockUpdate(t)))
    ensures Leads(s0, s', f) && Home(s')
    ensures s' == Put(s, r, Job(auto, row, BeginWait(s.clock))).(db := Lock(s.db, 1, t, t - 10, s.clock), slots := s.slots + 1,
                                                                 jobs := Registry.Cancel(s.jobs, 1))
  {
    hide Leads, Lock, CanLock;
    var s1 := TakesLock(s0, s, f, r, auto, row, t);
    var s2 := GetsSlot(s0, s1, f, r, auto, row);
    s' := Starts(s0, s2, f, r, true);
  }

  lemma Waits(s0: State, s: State, f: Focus, r: StarterId, auto: bool, row: Domain, since: int, ok: bool) returns (s': State)
    requires Leads(s0, s, f) && !f.Attempting? && WaitAllowed(s, 1, ok, since) && Has(s, r, Job(auto, row, BeginWait(since)))
    ensures Leads(s0, s', f) && s' == Put(s, r, Job(auto, row, BeginRegister(ok)))
  {
    hide Leads;
    s' := Starts(s0, s, f, r, ok);
  }

  lemma Registers(s0: State, s: State, f: Focus, r: StarterId, auto: bool, row: Domain, ok: bool) returns (s': State)
    requires Leads(s0, s, f) && !f.Attempting? && s.cfg.timeout == 10 && Has(s, r, Job(auto, row, BeginRegister(ok)))
    ensures var t := s.jobs.lastToken + 1;
            && Leads(s0, s', f)
            && s' == Put(s, r, Job(auto, row, Spawn(t))).(jobs := Registry.Register(s.jobs, 1, s.clock + 10), issued := s.issued[t := 1])
  {
    hide Leads;
    s' := Starts(s0, s, f, r, true);
  }

  // ---------------------------------------------------------------- single steps of its worker

  function Runner(auto: bool, pc: WorkerPc): Worker {
    Worker(1, true, auto, "example.com", "1.target", 1, pc)
  }

  lemma Works(s0: State, s: State, f: Focus, t: Token) returns (s': State)
    requires Leads(s0, s, f) && !f.Attempting? && t in s.workers && s.workers[t].pc != Exited
    ensures s' == AfterWork(s, t, Good, KEYS) && Leads(s0, s', f)
  {
    s' := Go(s0, s, Work(t, Good, KEYS), f);
  }

  /** The goroutine starts and joins its domain's wait group. */
  lemma Begins(s0: State, s: State, f: Focus, r: StarterId, auto: bool, row: Domain, t: Token) returns (s': State)
    requires Leads(s0, s, f) && !f.Attempting? && Has(s, r, Job(auto, row, Spawn(t))) && s.workers == map[]
    requires row.name == "example.com" && row.cnameTarget == "1.target"
    ensures Leads(s0, s', f)
    ensures s' == s.(starters := s.starters - {r}, workers := map[t := Runner(auto, CheckContext)],
                     group := s.group + 1, tracked := s.tracked[1 := Tracked(s, 1) + 1])
  {
    hide Leads;
    var s1 := Starts(s0, s, f, r, true);
    s' := Works(s0, s1, f, t);
  }

  predicate Running(s: State, t: Token) {
    t in s.issued && s.issued[t] == 1 && TokenActive(s, t)
  }

  /** A worker step that only moves the worker on. */
  lemma Runs(s0: State, s: State, f: Focus, t: Token, auto: bool, from: WorkerPc, to: WorkerPc) returns (s': State)
    requires Leads(s0, s, f) && !f.Attempting? && Home(s) && s.workers == map[t := Runner(auto, from)] && Running(s, t)
    requires NextPc(Runner(auto, from), true, false, true, true, Good) == to
    requires Rank(from) == 1 && from != SaveWrite && !from.FailWrite? && from != UndoWrite
    ensures Leads(s0, s', f) && s' == s.(workers := map[t := Runner(auto, to)]) && Home(s') && Running(s', t)
  {
    hide Leads, AfterWork, NextPc, WorkPc, WorkDb, Running, Home;
    MovesTo(s, t, auto, from, to);
    KeepsDb(s, s.workers[t]);
    OnlyMoves(s, t, Runner(auto, from), to);
    s' := Works(s0, s, f, t);
    SameHome(s, s', t);
  }

  lemma SameHome(s: State, s': State, t: Token)
    requires Home(s) && Running(s, t) && s' == s.(workers := s'.workers)
    ensures Home(s') && Running(s', t)
  {
  }

  lemma OnlyMoves(s: State, t: Token, w: Worker, to: WorkerPc)
    requires s.workers == map[t := w] && Rank(w.pc) == 1 && WorkPc(s, t, Good) == to && WorkDb(s, w, Good, KEYS) == s.db
    ensures AfterWork(s, t, Good, KEYS) == s.(workers := map[t := w.(pc := to)])
  {
    hide WorkPc, WorkDb;
  }

  lemma KeepsDb(s: State, w: Worker)
    requires w.pc != SaveWrite && !w.pc.FailWrite? && w.pc != UndoWrite
    ensures WorkDb(s, w, Good, KEYS) == s.db
  {
  }

  lemma MovesTo(s: State, t: Token, auto: bool, from: WorkerPc, to: WorkerPc)
    requires Home(s) && s.workers == map[t := Runner(auto, from)] && Running(s, t)
    requires NextPc(Runner(auto, from), true, false, true, true, Good) == to
    ensures WorkPc(s, t, Good) == to
  {
    hide NextPc, HasCert;
    Certified(s);
  }

  lemma Certified(s: State)
    requires Home(s)
    ensures HasCert(s.db, 1)
  {
  }

  lemma ReachesAcme(s0: State, s: State, f: Focus, t: Token, auto: bool) returns (s': State)
    requires Leads(s0, s, f) && !f.Attempting? && Home(s) && s.workers == map[t := Runner(auto, CheckContext)] && Running(s, t)
    ensures Leads(s0, s', f) && s' == s.(workers := map[t := Runner(auto, AcmeRunning)])
  {
    hide Leads, Home, Running;
    var s1 := Runs(s0, s, f, t, auto, CheckContext, VerifyCname);
    var s2 := Runs(s0, s1, f, t, auto, VerifyCname, LoadExisting);
    var s3 := Runs(s0, s2, f, t, auto, LoadExisting, AcmeGuard);
    s' := Runs(s0, s3, f, t, auto, AcmeGuard, AcmeRunning);
  }

  lemma ReachesSave(s0: State, s: State, f: Focus, t: Token, auto: bool) returns (s': State)
    requires Leads(s0, s, f) && !f.Attempting? && Home(s) && s.workers == map[t := Runner(auto, AcmeRunning)] && Running(s, t)
    ensures Leads(s0, s', f) && s' == s.(workers := map[t := Runner(auto, SaveWrite)])
  {
    hide Leads, Home, Running;
    var s1 := Runs(s0, s, f, t, auto, AcmeRunning, AcmeReturned(None));
    var s2 := Runs(s0, s1, f, t, auto, AcmeReturned(None), SaveContext);
    var s3 := Runs(s0, s2, f, t, auto, SaveContext, SaveGuard);
    s' := Runs(s0, s3, f, t, auto, SaveGuard, SaveWrite);
  }

  lemma UserVerifies(s0: State, s: State) returns (s': State)
    requires Leads(s0, s, Anything) && Home(s)
    ensures Leads(s0, s', Anything) && Home(s') && s' == s.(db := MarkVerified(s.db, 1, s.clock))
    ensures CanLock(s'.db, 1, -10)
  {
    s' := Go(s0, s, Handle(MarkCname(1)), Anything);
  }

  // ---------------------------------------------------------------- two requests that looked too early

  /** Two requests for the domain have both seen that no job is registered. */
  lemma BothLook(s0: State, s: State, f: Focus) returns (s': State)
    requires Leads(s0, s, f) && !f.Attempting? && Home(s) && s.starters == map[] && s.jobs.entries == map[]
    ensures var job := Job(false, s.db.domains[1], LockUpdate(s.clock));
            Leads(s0, s', f) && s' == s.(starters := map[1 := job, 2 := job])
  {
    hide Leads, Live;
    var s1 := Looks(s0, s, f, 1, false);
    s' := Looks(s0, s1, f, 2, false);
  }

  /** The first request's worker runs with token 1; the second still holds its old look. */
  lemma FirstRuns() returns (s0: State, s: State)
    ensures Init(s0) && Leads(s0, s, Anything) && Home(s) && s.clock == 0 && s.slots == 1 && s.group == 1
    ensures s.starters == map[2 := Job(false, Row(Active, None), LockUpdate(0))]
    ensures s.jobs == Registry.Jobs(map[1 := 1], {}, map[1 := 10], 1) && s.issued == map[1 := 1]
    ensures s.workers == map[1 := Runner(false, CheckContext)] && s.tracked == map[1 := 1]
  {
    hide Leads;
    var row := Row(Active, None);
    s0 := Opens(row, 0, Anything);
    var s1 := BothLook(s0, s0, Anything);
    var s2 := Claims(s0, s1, Anything, 1, false, row, 0);
    var s3 := Waits(s0, s2, Anything, 1, false, row, 0, true);
    var s4 := Registers(s0, s3, Anything, 1, false, row, true);
    s := Begins(s0, s4, Anything, 1, false, row, 1);
  }

  lemma FirstSaves() returns (s0: State, s: State)
    ensures Init(s0) && Leads(s0, s, Anything) && Home(s) && s.clock == 0 && s.slots == 1
    ensures s.starters == map[2 := Job(false, Row(Active, None), LockUpdate(0))]
    ensures s.jobs == Registry.Jobs(map[1 := 1], {}, map[1 := 10], 1) && s.issued == map[1 := 1]
    ensures s.workers == map[1 := Runner(false, SaveWrite)] && s.tracked == map[1 := 1]
  {
    hide Leads, Live, Start0;
    var s1: State;
    s0, s1 := FirstRuns();
    var s2 := ReachesAcme(s0, s1, Anything, 1, false);
    s := ReachesSave(s0, s2, Anything, 1, false);
  }

  /**
   A superseded job can save its certificate: the second request, whose look was too early, takes
   the lease after the user verified the CNAME again, waits for the whole timeout, gives up, and
   registers although the first worker stands right before its save.
   */
  lemma TimedOutWaitIsUnsafe() returns (s: State)
    ensures Reachable(s) && Superseded(s, 1) && MayStillWrite(s, 1)
  {
    hide Leads, Live, Lock, CanLock, MarkVerified;
    var row := Row(Active, None);
    var s0, s1 := FirstSaves();
    var s2 := UserVerifies(s0, s1);
    var s3 := Claims(s0, s2, Anything, 2, false, row, 0);
    var s4 := Ticks(s0, s3, Anything, 10);
    var s5 := Waits(s0, s4, Anything, 2, false, row, 0, false);
    s := Registers(s0, s5, Anything, 2, false, row, false);
    assert 2 in s.issued && s.issued[2] == 1;
    StillWrites(s0, s, 1);
  }

  lemma Ticks(s0: State, s: State, f: Focus, to: int) returns (s': State)
    requires Leads(s0, s, f) && !f.Attempting? && s.clock <= to
    ensures Leads(s0, s', f) && s' == s.(clock := to)
  {
    s' := Go(s0, s, Tick(to), f);
  }

  lemma StillWrites(s0: State, s: State, t: Token)
    requires Init(s0) && Leads(s0, s, Anything) && t in s.issued && !TokenActive(s, t)
    requires t in s.workers && s.workers[t].pc == SaveWrite
    ensures MayStillWrite(s, t)
  {
    hide Next, Enabled;
    var run: seq<State>, steps: seq<Step> :| Continues(run, steps, s0, s, Anything);
    LateWriteIff(run, steps, |steps|, t);
  }

  /**
   A superseded job can still send requests to the CA although both waits succeeded: the two
   requests overlapped inside beginCertJob, the second had nothing to cancel yet, and the first
   registered and began its ACME call before the second registered.
   */
  lemma OverlapReachesCa() returns (s: State)
    ensures Reachable(s) && Superseded(s, 1) && MayStillReachCa(s, 1)
  {
    hide Leads, Live, Lock, CanLock, MarkVerified;
    var row := Row(Active, None);
    var s0, s1 := BothBegin();
    var s2 := Waits(s0, s1, Anything, 2, false, row, 0, true);
    var s3 := Waits(s0, s2, Anything, 1, false, row, 0, true);
    var s4 := Registers(s0, s3, Anything, 1, false, row, true);
    var s5 := Begins(s0, s4, Anything, 1, false, row, 1);
    var s6 := ReachesAcme(s0, s5, Anything, 1, false);
    s := Registers(s0, s6, Anything, 2, false, row, true);
    assert 2 in s.issued && s.issued[2] == 1;
    StillReaches(s0, s, 1);
  }

  /** Both requests hold the lease in turn and wait inside beginCertJob, with no job registered. */
  lemma BothBegin() returns (s0: State, s: State)
    ensures Init(s0) && Leads(s0, s, Anything) && Home(s) && s.clock == 0
    ensures var job := Job(false, Row(Active, None), BeginWait(0)); s.starters == map[1 := job, 2 := job]
    ensures s.jobs == Registry.Jobs(map[], {}, map[], 0) && s.issued == map[] && s.workers == map[] && s.tracked == map[]
  {
    hide Leads;
    var row := Row(Active, None);
    s0 := Opens(row, 0, Anything);
    var s1 := BothLook(s0, s0, Anything);
    var s2 := Claims(s0, s1, Anything, 1, false, row, 0);
    var s3 := UserVerifies(s0, s2);
    s := Claims(s0, s3, Anything, 2, false, row, 0);
  }

  lemma StillReaches(s0: State, s: State, t: Token)
    requires Init(s0) && Leads(s0, s, Anything) && t in s.issued && !TokenActive(s, t) && !ContextDone(s, t)
    requires t in s.workers && s.workers[t].pc == AcmeRunning
    ensures MayStillReachCa(s, t)
  {
    hide Next, Enabled;
    var run: seq<State>, steps: seq<Step> :| Continues(run, steps, s0, s, Anything);
    LateCaRequestIff(run, steps, |steps|, t);
  }

  // ---------------------------------------------------------------- cleanup against a fresh lease

  lemma Cleans(s0: State, s: State, f: Focus, a: CleanAct) returns (s': State)
    requires Leads(s0, s, f) && !f.Attempting? && CleanEnabled(s, a)
    ensures s' == AfterClean(s, a) && Leads(s0, s', f)
  {
    s' := Go(s0, s, Clean(a), f);
  }

  /** A pass found a lease that a crash left behind and is about to roll it back. */
  lemma AboutToRollBack() returns (s0: State, s: State)
    ensures Init(s0) && Leads(s0, s, NoHandlers) && Home(s0)
    ensures s0 == Start0(Row(Generating, Some(0)), 20) && s == s0.(cleaner := Cleaner([1], CleanWrite))
  {
    hide Leads;
    s0 := Opens(Row(Generating, Some(0)), 20, NoHandlers);
    assert Elements([1]) == StuckIds(s0.db, 10);
    var s1 := Cleans(s0, s0, NoHandlers, ListStuck([1]));
    var s2 := Cleans(s0, s1, NoHandlers, Advance(true));
    s := Cleans(s0, s2, NoHandlers, Advance(true));
  }

  /**
   Cleanup can end a lease that was just taken: after its scan two renewal requests look at the
   stale lease, the first takes it over, the pass rolls the new lease back, and the second takes
   the lease as well. Both hold it at the same instant, without a step of any other handler.
   */
  lemma CleanupFreesFreshLease() returns (s0: State, s: State)
    ensures Init(s0) && Leads(s0, s, NoHandlers) && s.clock == 20 && s.cfg.timeout == 10
    ensures s.starters.Keys == {1, 2}
    ensures forall r :: r in s.starters ==> s.starters[r].domain == 1 && s.starters[r].pc == LoadUser
  {
    hide Leads;
    var row := Row(Generating, Some(0));
    var s1: State;
    s0, s1 := AboutToRollBack();
    var s2 := BothLook(s0, s1, NoHandlers);
    var s3 := TakesLock(s0, s2, NoHandlers, 1, false, row, 20);
    var s4 := RollsBack(s0, s3);
    s := TakesLock(s0, s4, NoHandlers, 2, false, row, 20);
  }

  lemma RollsBack(s0: State, s: State) returns (s': State)
    requires Leads(s0, s, NoHandlers) && Home(s) && s.cleaner == Cleaner([1], CleanWrite)
    ensures Leads(s0, s', NoHandlers) && Home(s') && CanLock(s'.db, 1, 10)
    ensures s'.starters == s.starters && s'.clock == s.clock && s'.cfg == s.cfg
  {
    hide Leads;
    Certified(s);
    s' := Cleans(s0, s, NoHandlers, Advance(true));
  }

  // ---------------------------------------------------------------- renewing too early

  /** The scan's attempt 1 has started its worker, and the scan goes on. */
  lemma ScanStarts(f: Focus) returns (s0: State, s: State)
    requires !f.Attempting?
    ensures Init(s0) && Leads(s0, s, f) && Home(s) && s.clock == 0 && s.main == Serving && s.slots == 1 && s.group == 1
    ensures s.starters == map[] && s.cleaner == Cleaner([], CleanCheck) && s.tracked == map[1 := 1]
    ensures s.db.domains == map[1 := Row(Generating, Some(0))] && s.db.certs == s0.db.certs
    ensures s.jobs == Registry.Jobs(map[1 := 1], {}, map[1 := 10], 1) && s.issued == map[1 := 1]
    ensures s.workers == map[1 := Runner(true, CheckContext)]
  {
    hide Leads;
    var row := Row(Active, None);
    s0 := Opens(row, 0, f);
    var s1 := Looks(s0, s0, f, 1, true);
    var s2 := Claims(s0, s1, f, 1, true, row, 0);
    var s3 := Waits(s0, s2, f, 1, true, row, 0, true);
    var s4 := Registers(s0, s3, f, 1, true, row, true);
    s := Begins(s0, s4, f, 1, true, row, 1);
  }

  /**
   A renewal can take the lease while the row asks it to wait: the user verifies the CNAME again
   while a job runs, so the next scan reads a row that is not generating, and the job records its
   failure while that attempt is in its checks.
   */
  lemma RenewalRunsEarly() returns (s: State)
    ensures Reachable(s) && 2 in s.starters && s.starters[2].auto && s.starters[2].pc == Prepare
    ensures 1 in s.db.domains && s.db.domains[1].backoffUntil == Some(s.clock + 1)
    ensures MayLeaseEarly(s, 2, 1)
  {
    hide Leads;
    var s0, s1 := ScanStarts(Anything);
    var s2 := UserVerifies(s0, s1);
    var s3 := Arrives(s0, s2, Anything, 2, true);
    var s4 := Fails(s0, s3);
    s := Recorded(s0, s4);
    RunsEarly(s0, s, s3.starters[2].snapshot);
  }

  lemma Fails(s0: State, s: State) returns (s': State)
    requires Leads(s0, s, Anything) && Home(s) && s.workers == map[1 := Runner(true, CheckContext)] && Running(s, 1)
    ensures Leads(s0, s', Anything) && s' == s.(workers := map[1 := Runner(true, FailWrite(PANICKED))])
  {
    hide Leads, Live;
    var s1 := Go(s0, s, Panic(1), Anything);
    s' := Runs(s0, s1, Anything, 1, true, FailGuard(PANICKED), FailWrite(PANICKED));
  }

  const PANICKED := "internal error during certificate operation"

  lemma Recorded(s0: State, s: State) returns (s': State)
    requires Leads(s0, s, Anything) && Home(s) && s.db.domains[1].failures == 0
    requires s.workers == map[1 := Runner(true, FailWrite(PANICKED))]
    ensures Leads(s0, s', Anything) && s'.starters == s.starters && s'.clock == s.clock && s'.main == s.main
    ensures Live(s'.db, 1) && HasCert(s'.db, 1) && s'.db.domains[1].backoffUntil == Some(s.clock + 1)
  {
    hide Leads;
    Certified(s);
    FailJobSets(s.db, 1, PANICKED, 1, 1, s.clock);
    s' := Works(s0, s, Anything, 1);
    assert s'.db.certs == s.db.certs;
  }

  lemma RunsEarly(s0: State, s: State, read: Domain)
    requires Init(s0) && Leads(s0, s, Anything) && s.main == Serving
    requires s.starters == map[2 := Starter(1, true, true, read, 0, Prepare)]
    requires Renewable(read) && read.backoffUntil == None
    requires Live(s.db, 1) && HasCert(s.db, 1) && s.db.domains[1].backoffUntil == Some(s.clock + 1)
    ensures MayLeaseEarly(s, 2, 1)
  {
    hide Next, Enabled;
    var run: seq<State>, steps: seq<Step> :| Continues(run, steps, s0, s, Anything);
    EarlyLeaseIff(run, steps, |steps|, 2, 1);
  }

  // ---------------------------------------------------------------- an attempt that leaves no trace

  /** Between `s` and `s'` only jobs, workers and counters may have changed. */
  predicate SameElse(s: State, s': State) {
    s'.db == s.db && s'.clock == s.clock && s'.cfg == s.cfg && s'.starters == s.starters && s'.cleaner == s.cleaner
  }

  /** A worker inside its ACME call has the call aborted and leaves. */
  lemma AbortsAndLeaves(s0: State, s: State, f: Focus) returns (s': State)
    requires Leads(s0, s, f) && !f.Attempting? && Home(s) && Running(s, 1)
    requires s.workers == map[1 := Runner(true, AcmeRunning)] && s.jobs.entries == map[1 := 1]
    ensures Leads(s0, s', f) && s'.workers == map[1 := Runner(true, Exited)] && s'.jobs.entries == map[]
    ensures SameElse(s, s')
  {
    hide Leads, Home, Running;
    var s1 := Aborts(s0, s, f);
    SameHome(s, s1, 1);
    var s2 := Runs(s0, s1, f, 1, true, UndoGuard, ExitSlot);
    s' := Leaves(s0, s2, f);
  }

  lemma Leaves(s0: State, s: State, f: Focus) returns (s': State)
    requires Leads(s0, s, f) && !f.Attempting? && s.workers == map[1 := Runner(true, ExitSlot)] && s.jobs.entries == map[1 := 1]
    ensures Leads(s0, s', f) && s'.workers == map[1 := Runner(true, Exited)] && s'.jobs.entries == map[]
    ensures SameElse(s, s')
  {
    hide Leads;
    var s1 := Exits(s0, s, f, ExitSlot, ExitEntry);
    var s2 := Exits(s0, s1, f, ExitEntry, ExitGroup);
    var s3 := Exits(s0, s2, f, ExitGroup, ExitTracker);
    s' := Exits(s0, s3, f, ExitTracker, Exited);
  }

  lemma Aborts(s0: State, s: State, f: Focus) returns (s': State)
    requires Leads(s0, s, f) && !f.Attempting? && s.workers == map[1 := Runner(true, AcmeRunning)]
    ensures Leads(s0, s', f) && s' == s.(workers := map[1 := Runner(true, UndoGuard)])
  {
    s' := Go(s0, s, Work(1, Aborted, KEYS), f);
  }

  lemma Exits(s0: State, s: State, f: Focus, from: WorkerPc, to: WorkerPc) returns (s': State)
    requires Leads(s0, s, f) && !f.Attempting? && s.workers == map[1 := Runner(true, from)]
    requires 2 <= Rank(from) <= 5 && Rank(to) == Rank(from) + 1
    ensures Leads(s0, s', f) && s'.workers == map[1 := Runner(true, to)] && SameElse(s, s')
    ensures s'.jobs.entries == if from == ExitEntry then Registry.End(s.jobs, 1, 1).entries else s.jobs.entries
  {
    hide Leads, WorkDb;
    KeepsDb(s, s.workers[1]);
    s' := Works(s0, s, f, 1);
  }

  /** Cleanup puts back the row of a lease that timed out with no job registered. */
  lemma CleansUp(s0: State, s: State) returns (s': State)
    requires Leads(s0, s, NoHandlers) && Home(s) && SchedulerIdle(s) && s.jobs.entries == map[]
    requires s.db.domains == map[1 := Row(Generating, Some(0))] && s.clock > 10
    ensures Leads(s0, s', NoHandlers) && s'.starters == s.starters && s'.clock == s.clock && s'.cfg == s.cfg && s'.workers == s.workers
    ensures Home(s') && MayAutoRenew(s'.db.domains[1], s'.clock) && s'.db.domains[1].failures == 0 && SchedulerIdle(s')
  {
    hide Leads;
    assert Elements([1]) == StuckIds(s.db, s.clock - 10);
    var s1 := Cleans(s0, s, NoHandlers, ListStuck([1]));
    var s2 := Cleans(s0, s1, NoHandlers, Advance(true));
    var s3 := Cleans(s0, s2, NoHandlers, Advance(true));
    Certified(s3);
    s' := Cleans(s0, s3, NoHandlers, Advance(true));
  }

  /**
   An automatic attempt need not count: one runs its ACME call, which aborts although nobody
   cancelled the job; it records nothing, cleanup puts the row back, and at once the next
   automatic attempt passes its checks with no failure on record.
   */
  lemma AbortedAttemptIsNotCounted() returns (s: State)
    ensures exists s0 :: Init(s0) && Leads(s0, s, NoHandlers)
    ensures s.workers == map[1 := Runner(true, Exited)] && s.starters.Keys == {2}
    ensures s.starters[2].auto && s.starters[2].pc == LockCert && s.starters[2].domain == 1
    ensures 1 in s.db.domains && s.db.domains[1].failures == 0
  {
    hide Leads, MayAutoRenew;
    var s0, s1 := ScanStarts(NoHandlers);
    var s2 := ReachesAcme(s0, s1, NoHandlers, 1, true);
    var s3 := AbortsAndLeaves(s0, s2, NoHandlers);
    var s4 := Ticks(s0, s3, NoHandlers, 11);
    var s5 := CleansUp(s0, s4);
    var s6 := Arrives(s0, s5, NoHandlers, 2, true);
    s := Prepares(s0, s6, NoHandlers, 2);
  }

  // ---------------------------------------------------------------- deletes on an earlier read

  /** A delete whose read came before a renewal's lock removes the certificate under the lease. */
  lemma DeleteUnderLease() returns (run: seq<State>, steps: seq<Step>, j: nat)
    ensures IsRun(run, steps) && Init(run[0]) && DeleteCall(run, steps, 0, j, 1)
    ensures Locked(run[j].db, 1) && HasCert(run[j].db, 1) && !Live(run[j + 1].db, 1) && !HasCert(run[j + 1].db, 1)
    ensures 1 in run[j + 1].starters && run[j + 1].starters[1].pc == LoadUser
  {
    hide Leads;
    var row := Row(Active, None);
    var s0 := Opens(row, 0, Anything);
    var s1 := Looks(s0, s0, Anything, 1, false);
    var s2 := TakesLock(s0, s1, Anything, 1, false, row, 0);
    Certified(s2);
    run, steps, j := ThenDeletes(s0, s2);
  }

  lemma ThenDeletes(s0: State, s: State) returns (run: seq<State>, steps: seq<Step>, j: nat)
    requires Leads(s0, s, Anything) && Live(s0.db, 1) && s0.db.domains[1].status != Generating
    ensures IsRun(run, steps) && run[0] == s0 && DeleteCall(run, steps, 0, j, 1) && run[j] == s && run[j + 1].starters == s.starters
  {
    var before: seq<State>, past: seq<Step> :| Continues(before, past, s0, s, Anything);
    j := |past|;
    run, steps := before + [Next(s, Handle(DeleteDomain(1)))], past + [Handle(DeleteDomain(1))];
    forall i | 0 <= i < |steps| ensures Enabled(run[i], steps[i]) && run[i + 1] == Next(run[i], steps[i]) {
      if i < |past| {
        assert run[i] == before[i] && run[i + 1] == before[i + 1] && steps[i] == past[i];
      }
    }
  }

  /**
   A request for a name whose row another user had deleted removes that row for good, although
   its owner has restored it in the meantime.
   */
  lemma ReplaceTakesLiveDomain() returns (run: seq<State>, steps: seq<Step>, c: AddCall)
    ensures IsRun(run, steps) && Init(run[0]) && IsAddCall(run, steps, c, 0) && c.user == 2
    ensures Live(run[c.acted].db, 1) && run[c.acted].db.domains[1].userId == 1 && 1 !in run[c.acted + 1].db.domains
  {
    var row := Row(Pending, None).(deleted := true);
    BareStarts(row, 0);
    run, steps := ThreeSteps(Bare(row, 0), RestoreDomain(1), RemoveDomain(1), NewDomain(2, "example.com", "2.target"));
    c := AddCall(2, "example.com", "2.target", Some(Found(1, row)), 0, 0, 1, 2);
  }

  /** Runs made of handler steps alone. */
  lemma TwoSteps(s0: State, h1: Handler, h2: Handler) returns (run: seq<State>, steps: seq<Step>)
    ensures run == [s0, Next(s0, Handle(h1)), Next(Next(s0, Handle(h1)), Handle(h2))]
    ensures steps == [Handle(h1), Handle(h2)] && IsRun(run, steps)
  {
    var s1 := Next(s0, Handle(h1));
    run, steps := [s0, s1, Next(s1, Handle(h2))], [Handle(h1), Handle(h2)];
  }

  lemma ThreeSteps(s0: State, h1: Handler, h2: Handler, h3: Handler) returns (run: seq<State>, steps: seq<Step>)
    ensures var s1 := Next(s0, Handle(h1)); var s2 := Next(s1, Handle(h2)); run == [s0, s1, s2, Next(s2, Handle(h3))]
    ensures steps == [Handle(h1), Handle(h2), Handle(h3)] && IsRun(run, steps)
  {
    var s1 := Next(s0, Handle(h1));
    var s2 := Next(s1, Handle(h2));
    run, steps := [s0, s1, s2, Next(s2, Handle(h3))], [Handle(h1), Handle(h2), Handle(h3)];
  }

  /** A server just started with one domain of user 1 that has no certificate. */
  ghost function Bare(row: Domain, clock: int): State {
    Start0(row, clock).(db := Database(map[1 := row], map[], {1, 2, 3}, 2, 1))
  }

  lemma BareStarts(row: Domain, clock: int)
    requires RowOk(row, false)
    ensures Init(Bare(row, clock)) && !HasCert(Bare(row, clock).db, 1)
  {
    var db := Bare(row, clock).db;
    assert forall d :: !HasCert(db, d);
    assert UniqueNames(db.domains);
  }

  /**
   A claim can take a domain whose owner's release time runs: the owner wrote the row after the
   claimer had read it, here by switching automatic renewal on.
   */
  lemma ClaimIgnoresRelease() returns (run: seq<State>, steps: seq<Step>, c: AddCall)
    ensures IsRun(run, steps) && Init(run[0]) && IsAddCall(run, steps, c, 72) && PlanOf(run, c, 72) == Claim(1) && c.user == 2
    ensures CanAssign(run[c.acted].db, 1) && run[c.acted].db.domains[1].userId == 1
    ensures !Unclaimed(run[c.acted].db.domains[1], HasCert(run[c.acted].db, 1), run[c.acted].clock, 72)
  {
    var row := Row(Error, None);
    BareStarts(row, 100);
    run, steps := TwoSteps(Bare(row, 100), SwitchAutoRenew(1, true), ClaimDomain(1, 2));
    c := AddCall(2, "example.com", "1.target", Some(Found(1, row)), 0, 0, 1, 1);
  }

  /**
   A restore can reset another user's live domain and answer with success: the owner of the
   deleted row restores it once, another user claims it, and the second restore, which read the
   deleted row too, resets the claimed one.
   */
  lemma RestoreResetsClaimedDomain() returns (run: seq<State>, steps: seq<Step>, c: AddCall)
    ensures IsRun(run, steps) && Init(run[0]) && IsAddCall(run, steps, c, 0) && PlanOf(run, c, 0) == AddPlan.Restore(1) && c.user == 1
    ensures Succeeds(run, c, 0) && Live(run[c.acted].db, 1) && run[c.acted].db.domains[1].userId == 2
    ensures run[c.acted].db.domains[1].status == Verified && run[c.acted + 1].db.domains[1].status == Pending
  {
    var row := Row(Pending, None).(deleted := true);
    BareStarts(row, 0);
    run, steps := ThreeSteps(Bare(row, 0), RestoreDomain(1), ClaimDomain(1, 2), RestoreDomain(1));
    c := AddCall(1, "example.com", "1.target", Some(Found(1, row)), 0, 0, 2, 2);
    assert !HasCert(run[1].db, 1);
  }

  /** A request can remove another user's deleted row for good and still end in a conflict. */
  lemma ReplaceLosesName() returns (run: seq<State>, steps: seq<Step>, c: AddCall)
    ensures IsRun(run, steps) && Init(run[0]) && IsAddCall(run, steps, c, 0) && PlanOf(run, c, 0) == Replace(1) && c.user == 2
    ensures !Succeeds(run, c, 0) && 1 in run[c.read].db.domains && 1 !in run[c.finished + 1].db.domains
  {
    var row := Row(Pending, None).(deleted := true);
    BareStarts(row, 0);
    run, steps := ThreeSteps(Bare(row, 0), RemoveDomain(1), NewDomain(3, "example.com", "2.target"), NewDomain(2, "example.com", "3.target"));
    c := AddCall(2, "example.com", "3.target", Some(Found(1, row)), 0, 0, 0, 2);
    assert run[2].db.domains[2].name == "example.com";
  }

  // ---------------------------------------------------------------- cleanup against a new job

  /** The stale lease a pass found is taken over, and a job registered, before the pass looks for one. */
  lemma NewJobRegistered() returns (s0: State, s: State)
    ensures Init(s0) && Leads(s0, s, NoHandlers) && s.cleaner == Cleaner([1], CleanCheck)
    ensures s.jobs == Registry.Jobs(map[1 := 1], {}, map[1 := 30], 1) && s.issued == map[1 := 1]
    ensures Locked(s.db, 1) && s.db.domains[1].generatingSince == Some(20) && s.clock == 20 && s.cfg.timeout == 10
  {
    hide Leads;
    var row := Row(Generating, Some(0));
    s0 := Opens(row, 20, NoHandlers);
    assert Elements([1]) == StuckIds(s0.db, 10);
    var s1 := Cleans(s0, s0, NoHandlers, ListStuck([1]));
    var s2 := Looks(s0, s1, NoHandlers, 1, false);
    var s3 := Claims(s0, s2, NoHandlers, 1, false, row, 20);
    var s4 := Waits(s0, s3, NoHandlers, 1, false, row, 20, true);
    s := Registers(s0, s4, NoHandlers, 1, false, row, true);
  }

  /** Cleanup can cancel a job that was registered after its scan, under a lease just taken. */
  lemma CleanupCancelsNewJob() returns (s0: State, s: State, s': State)
    ensures Init(s0) && Leads(s0, s, NoHandlers) && Enabled(s, Clean(Advance(true))) && s' == Next(s, Clean(Advance(true)))
    ensures TokenActive(s, 1) && !TokenActive(s', 1)
    ensures Locked(s.db, 1) && !StaleLease(s.db.domains[1], s.clock - s.cfg.timeout)
  {
    hide Leads;
    var s1: State;
    s0, s1 := NewJobRegistered();
    s := Cleans(s0, s1, NoHandlers, Advance(true));
    s' := AfterClean(s, Advance(true));
  }
}
