/**
 The operations that span the registry, the slots and the tables, run to completion in one
 goroutine. A wait for another goroutine's worker is an answer from outside: `exits` says for
 which domains the worker finishes, and so removes its registry entry, before the timeout.
 Interleavings with other goroutines are the subject of the protocol model.
 */
module Server {
  import opened Options
  import opened Rows
  import Registry
  import Store

  /** The registry after the jobs of `ds` were cancelled and the workers in `exits` finished. */
  function Settled(j: Registry.Jobs, ds: set<DomainId>, exits: set<DomainId>): Registry.Jobs {
    j.(done := j.done + set d | d in ds && d in j.entries :: j.entries[d],
       entries := map d | d in j.entries && !(d in ds && d in exits) :: j.entries[d])
  }

  datatype LockResult = LockOk(user: UserId) | NotFound | InProgress | NoUser

  /** What locking answers, from the tables, the registry and whether a cancelled worker finishes in time. */
  function LockAnswer(db: Database, registered: bool, d: DomainId, requireExistingCert: bool, staleBefore: int, exits: bool): LockResult {
    if (requireExistingCert && !HasCert(db, d)) || !Live(db, d) then NotFound
    else
      var row := db.domains[d];
      if registered && !(StaleLease(row, staleBefore) && exits) then InProgress
      else if !CanLock(db, d, staleBefore) then InProgress
      else if row.userId !in db.users then NoUser
      else LockOk(row.userId)
  }

  /** The domains of `ds` without a registered job, or with one that leaves. */
  function Freed(j: Registry.Jobs, ds: set<DomainId>, exits: set<DomainId>): set<DomainId> {
    set d | d in ds && (d !in j.entries || d in exits)
  }

  /** The registry after locking: only the job of a stale lease that got past the first checks is cancelled and awaited. */
  function JobsAfterLock(db: Database, j: Registry.Jobs, d: DomainId, requireExistingCert: bool, staleBefore: int, exits: bool): Registry.Jobs {
    if (requireExistingCert ==> HasCert(db, d)) && Live(db, d) && d in j.entries && StaleLease(db.domains[d], staleBefore)
    then Settled(j, {d}, if exits then {d} else {})
    else j
  }

  /**
   From `j` to `j'` at most the job of `d` is affected: its context becomes done exactly when it is
   `cancelled`, and its entry leaves exactly when it is `gone`.
   */
  ghost predicate OnlyJobOf(j: Registry.Jobs, j': Registry.Jobs, d: DomainId, cancelled: bool, gone: bool) {
    && j'.lastToken == j.lastToken && j'.deadline == j.deadline
    && (forall x :: x in j'.entries <==> x in j.entries && !(gone && x == d))
    && (forall x :: x in j'.entries ==> j'.entries[x] == j.entries[x])
    && (forall t :: t in j'.done <==> t in j.done || (cancelled && d in j.entries && t == j.entries[d]))
  }

  /** A live row that has been generating since before the bound, or since no recorded time. */
  predicate TimedOut(db: Database, d: DomainId, staleBefore: int) {
    d in db.domains && !db.domains[d].deleted && db.domains[d].status == Generating
    && (db.domains[d].generatingSince == None || db.domains[d].generatingSince.value < staleBefore)
  }

  /** Locking leaves a healthy job alone: only the job of a timed-out lease is cancelled, and only it can leave. */
  lemma LockSparesJobs(db: Database, j: Registry.Jobs, d: DomainId, requireExistingCert: bool, staleBefore: int, exits: bool)
    ensures var cancels := TimedOut(db, d, staleBefore) && (requireExistingCert ==> exists c :: c in db.certs && db.certs[c].domainId == d);
            OnlyJobOf(j, JobsAfterLock(db, j, d, requireExistingCert, staleBefore, exits), d, cancels, cancels && exits)
    ensures !TimedOut(db, d, staleBefore) || d !in j.entries ==> JobsAfterLock(db, j, d, requireExistingCert, staleBefore, exits) == j
  {
  }

  /** Cleanup cancels exactly the jobs of timed-out leases, of which those in `exits` leave. */
  ghost predicate OnlyTimedOutJobs(j: Registry.Jobs, j': Registry.Jobs, db: Database, cutoff: int, exits: set<DomainId>) {
    && j'.lastToken == j.lastToken && j'.deadline == j.deadline
    && (forall x :: x in j'.entries <==> x in j.entries && !(TimedOut(db, x, cutoff) && x in exits))
    && (forall x :: x in j'.entries ==> j'.entries[x] == j.entries[x])
    && (forall t :: t in j'.done <==> t in j.done || exists x :: x in j.entries && j.entries[x] == t && TimedOut(db, x, cutoff))
  }

  lemma CleanupSparesJobs(db: Database, j: Registry.Jobs, cutoff: int, exits: set<DomainId>)
    ensures OnlyTimedOutJobs(j, Settled(j, StuckIds(db, cutoff), exits), db, cutoff, exits)
  {
    assert forall x :: x in StuckIds(db, cutoff) <==> TimedOut(db, x, cutoff);
  }

  lemma CleanupStarts(db: Database, j: Registry.Jobs, exits: set<DomainId>, now: int)
    ensures RollbackSet(db, {}, now) == db && Settled(j, {}, exits) == j
  {
    assert RollbackSet(db, {}, now).domains == db.domains;
    assert Settled(j, {}, exits).entries == j.entries;
  }

  lemma SettledHas(j: Registry.Jobs, ds: set<DomainId>, d: DomainId, exits: set<DomainId>)
    requires d in ds
    ensures d in Settled(j, ds, exits).entries <==> d in j.entries && d !in exits
  {
  }

  /** After cleanup a stuck row is generating exactly when its job is still registered. */
  lemma CleanupLeaves(db: Database, j: Registry.Jobs, cutoff: int, exits: set<DomainId>, now: int)
    ensures var stuck := StuckIds(db, cutoff);
            var db' := RollbackSet(db, Freed(j, stuck, exits), now);
            forall d :: d in stuck ==> (Locked(db', d) <==> d in Settled(j, stuck, exits).entries)
  {
  }

  function AfterLock(db: Database, d: DomainId, answer: LockResult, staleBefore: int, now: int): Database {
    match answer
    case LockOk(_) => Lock(db, d, now, staleBefore, now)
    case NoUser => SetError(Lock(db, d, now, staleBefore, now), d, "user not found", now)
    case _ => db
  }

  /**
   The lease is granted exactly when the row exists, holds a certificate if one is required, has
   an owner, and is free: not generating with no registered job, or generating for longer than
   the timeout with any registered job gone. Granted means generating from `now`; any other
   answer leaves the row free or as it was.
   */
  lemma LockAnswerMeaning(db: Database, registered: bool, d: DomainId, requireExistingCert: bool, staleBefore: int, exits: bool, now: int)
    requires DbOk(db)
    ensures var answer := LockAnswer(db, registered, d, requireExistingCert, staleBefore, exits);
            var db' := AfterLock(db, d, answer, staleBefore, now);
            && DbOk(db')
            && (answer.LockOk? <==>
                  && Live(db, d) && (requireExistingCert ==> HasCert(db, d)) && db.domains[d].userId in db.users
                  && (if StaleLease(db.domains[d], staleBefore) then registered ==> exits
                      else db.domains[d].status != Generating && !registered))
            && (answer.NotFound? <==> !Live(db, d) || (requireExistingCert && !HasCert(db, d)))
            && (answer.NoUser? <==>
                  && Live(db, d) && (requireExistingCert ==> HasCert(db, d)) && db.domains[d].userId !in db.users
                  && (if StaleLease(db.domains[d], staleBefore) then registered ==> exits
                      else db.domains[d].status != Generating && !registered))
            && (answer.LockOk? ==> answer.user == db.domains[d].userId)
            && (answer.LockOk? ==> Locked(db', d) && db'.domains[d].generatingSince == Some(now))
            && (answer.NoUser? ==> db'.domains[d].status == Error && db'.domains[d].errorMessage == "user not found")
            && (!answer.LockOk? && Locked(db', d) ==> db' == db)
  {
    LockKeepsOk(db, d, now, staleBefore, now);
    UpdatesKeepOk(Lock(db, d, now, staleBefore, now), d, "user not found", true, 0, now, now);
  }

  /** A lease that is given back at once leaves the row active with a certificate and verified otherwise. */
  lemma GivenBack(db: Database, d: DomainId, staleBefore: int, now: int)
    requires DbOk(db) && CanLock(db, d, staleBefore) && (HasCert(db, d) || db.domains[d].cnameVerifiedAt.Some?)
    ensures var db' := Rollback(Lock(db, d, now, staleBefore, now), d, "", true, now);
            && DbOk(db') && Live(db', d) && db'.domains[d].generatingSince == None
            && db'.domains[d].status == (if HasCert(db, d) then Active else Verified)
  {
    var db1 := Lock(db, d, now, staleBefore, now);
    LockKeepsOk(db, d, now, staleBefore, now);
    UpdatesKeepOk(db1, d, "", true, 0, now, now);
    assert HasCert(db1, d) == HasCert(db, d);
  }

  class Server {
    const jobs: Registry.CertJobRegistry
    const slots: Registry.CertJobSlots
    const store: Store.Store

    constructor (jobs: Registry.CertJobRegistry, slots: Registry.CertJobSlots, store: Store.Store)
      ensures this.jobs == jobs && this.slots == slots && this.store == store
    {
      this.jobs, this.slots, this.store := jobs, slots, store;
    }

    /** Cancel the registered job of `d` and wait for its worker. */
    method CancelAndWait(d: DomainId, exits: bool)
      modifies jobs
      ensures jobs.Value() == Settled(old(jobs.Value()), {d}, if exits then {d} else {})
    {
      if d in jobs.entries {
        var token := jobs.entries[d];
        jobs.CancelCertJob(d);
        if exits {
          jobs.EndJob(d, token);
        }
      }
    }

    /**
     Exactly the rows stuck at the scan whose job, if any, is gone after the wait are put back:
     to active with a certificate, otherwise to verified or error; every other row is untouched.
     */
    method RunStuckGeneratingCleanup(now: int, timeout: int, exits: set<DomainId>)
      modifies jobs, store
      ensures var stuck := StuckIds(old(store.Value()), now - timeout);
              && jobs.Value() == Settled(old(jobs.Value()), stuck, exits)
              && store.Value() == RollbackSet(old(store.Value()),
                                              Freed(old(jobs.Value()), stuck, exits), now)
      ensures forall d :: d in StuckIds(old(store.Value()), now - timeout) ==>
                (Locked(store.Value(), d) <==> d in jobs.entries)
      ensures OnlyTimedOutJobs(old(jobs.Value()), jobs.Value(), old(store.Value()), now - timeout, exits)
    {
      hide OnlyTimedOutJobs, Settled, RollbackSet, RollbackStuck, StuckIds;
      ghost var db, j := store.Value(), jobs.Value();
      var stuck := StuckIds(store.Value(), now - timeout);
      var todo := stuck;
      ghost var cleared: set<DomainId> := {};
      CleanupStarts(db, j, exits, now);
      assert stuck - todo == {};
      while todo != {}
        invariant todo <= stuck
        invariant jobs.Value() == Settled(j, stuck - todo, exits)
        invariant cleared == Freed(j, stuck - todo, exits)
        invariant store.Value() == RollbackSet(db, cleared, now)
        decreases todo
      {
        var d :| d in todo;
        CancelAndWait(d, d in exits);
        assert stuck - (todo - {d}) == stuck - todo + {d};
        SettledStep(j, stuck - todo, d, exits);
        SettledHas(j, stuck - todo + {d}, d, exits);
        var inflight := jobs.CertJobInflight(d);
        store.RollbackStuckGenerating(d, false, inflight, now);
        if !inflight {
          RollbackSetStep(db, cleared, d, now);
          cleared := cleared + {d};
        }
        todo := todo - {d};
      }
      assert stuck - todo == stuck;
      CleanupSparesJobs(db, j, now - timeout, exits);
      CleanupLeaves(db, j, now - timeout, exits, now);
    }

    /** Cancelling and waiting for one more domain. */
    lemma SettledStep(j: Registry.Jobs, ds: set<DomainId>, d: DomainId, exits: set<DomainId>)
      requires d !in ds
      ensures Settled(Settled(j, ds, exits), {d}, if d in exits then {d} else {}) == Settled(j, ds + {d}, exits)
    {
      var a, b := Settled(Settled(j, ds, exits), {d}, if d in exits then {d} else {}), Settled(j, ds + {d}, exits);
      assert a.entries == b.entries;
      assert a.done == b.done;
    }

    method LockDomainForCertJob(d: DomainId, requireExistingCert: bool, now: int, timeout: int, exits: bool)
      returns (result: LockResult)
      modifies jobs, store
      ensures result == LockAnswer(old(store.Value()), d in old(jobs.entries), d, requireExistingCert, now - timeout, exits)
      ensures store.Value() == AfterLock(old(store.Value()), d, result, now - timeout, now)
      ensures jobs.Value() == JobsAfterLock(old(store.Value()), old(jobs.Value()), d, requireExistingCert, now - timeout, exits)
      ensures result.NotFound? || !TimedOut(old(store.Value()), d, now - timeout) ==> jobs.Value() == old(jobs.Value())
      ensures !result.NotFound? && TimedOut(old(store.Value()), d, now - timeout) ==>
                OnlyJobOf(old(jobs.Value()), jobs.Value(), d, true, exits)
      ensures result.LockOk? ==> d !in jobs.entries
    {
      if requireExistingCert {
        var has := store.DomainHasCertificate(d);
        if !has {
          return NotFound;
        }
      }
      if !store.Found(d) {
        return NotFound;
      }
      var current := store.domains[d];
      var staleBefore := now - timeout;
      var isStale := current.status == Generating && (current.generatingSince.None? || current.generatingSince.value < staleBefore);
      var inflight := jobs.CertJobInflight(d);
      if inflight {
        if !isStale {
          return InProgress;
        }
        CancelAndWait(d, exits);
        if !exits {
          return InProgress;
        }
      }
      var locked, userFound := store.TakeLease(d, current.userId, now, staleBefore, now);
      if !locked {
        return InProgress;
      }
      if !userFound {
        return NoUser;
      }
      return LockOk(current.userId);
    }

    /** The end of beginCertOperation: lock, then a slot; without a slot the lease is given back. */
    method LockAndAcquire(d: DomainId, renew: bool, now: int, timeout: int, exits: bool) returns (result: LockResult, started: bool)
      requires slots.occupied <= slots.capacity && DbOk(store.Value())
      requires renew || !Live(store.Value(), d) || HasCert(store.Value(), d) || store.domains[d].cnameVerifiedAt.Some?
      modifies jobs, store, slots
      ensures result == LockAnswer(old(store.Value()), d in old(jobs.entries), d, renew, now - timeout, exits)
      ensures jobs.Value() == JobsAfterLock(old(store.Value()), old(jobs.Value()), d, renew, now - timeout, exits)
      ensures started <==> result.LockOk? && old(slots.occupied) < slots.capacity
      ensures slots.occupied == old(slots.occupied) + (if started then 1 else 0) <= slots.capacity
      ensures started ==> Locked(store.Value(), d) && store.domains[d].generatingSince == Some(now) && d !in jobs.entries
      ensures result.LockOk? && !started ==>
                Live(store.Value(), d) && store.domains[d].generatingSince == None
                && store.domains[d].status == (if HasCert(old(store.Value()), d) then Active else Verified)
      ensures DbOk(store.Value())
    {
      hide JobsAfterLock, Settled, DbOk, Rollback;
      ghost var db := store.Value();
      result := LockDomainForCertJob(d, renew, now, timeout, exits);
      LockAnswerMeaning(db, d in old(jobs.entries), d, renew, now - timeout, exits, now);
      if !result.LockOk? {
        return result, false;
      }
      started := slots.TryAcquire();
      if !started {
        GivenBack(db, d, now - timeout, now);
        store.RollbackGeneratingDomain(d, "", true, now);
      }
    }
  }
}
