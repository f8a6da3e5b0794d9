/**
 The domain and certificate tables and the effect of every database function on them
 (controllers/domain.go, certificate.go, renewal_scheduler.go, cname.go, config/database.go).
 Updates through the default scope touch only rows that are not soft-deleted.
 */
module Rows {
  import opened Options
  import Backoff

  type DomainId = nat
  type CertId = nat
  type UserId = nat

  datatype Status = Pending | Verified | Generating | Active | Error

  datatype Domain = Domain(
    userId: UserId,
    name: string,
    status: Status,
    errorMessage: string,
    generatingSince: Option<int>,
    cnameTarget: string,
    cnameVerifiedAt: Option<int>,
    autoRenew: bool,
    failures: nat,
    backoffUntil: Option<int>,
    updatedAt: int,
    deleted: bool)

  datatype Material = Material(
    certPem: string, keyPem: string, issuer: string, certUrl: string, certStableUrl: string, expiresAt: int)

  datatype Certificate = Certificate(
    domainId: DomainId, userId: UserId, domain: string, material: Material, createdAt: int, updatedAt: int)

  datatype Database = Database(
    domains: map<DomainId, Domain>,
    certs: map<CertId, Certificate>,
    users: set<UserId>,
    nextDomain: DomainId,
    nextCert: CertId)

  const CANCELLED_MESSAGE := "certificate operation was cancelled"
  const STUCK_MESSAGE := "certificate operation timed out (server may have restarted); please retry"

  predicate Live(db: Database, id: DomainId) {
    id in db.domains && !db.domains[id].deleted
  }

  predicate HasCert(db: Database, id: DomainId) {
    exists c :: c in db.certs && db.certs[c].domainId == id
  }

  predicate Locked(db: Database, id: DomainId) {
    Live(db, id) && db.domains[id].status == Generating
  }

  function LockedIds(db: Database): set<DomainId> {
    set id | id in db.domains && Locked(db, id)
  }

  function Put(db: Database, id: DomainId, row: Domain): Database {
    db.(domains := db.domains[id := row])
  }

  // ---------------------------------------------------------------- one row

  function MarkedVerified(row: Domain, now: int): Domain {
    row.(status := Verified, errorMessage := "", cnameVerifiedAt := Some(now), updatedAt := now)
  }

  function LockedRow(row: Domain, lockTime: int, now: int): Domain {
    row.(status := Generating, errorMessage := "", generatingSince := Some(lockTime), updatedAt := now)
  }

  function ErrorRow(row: Domain, message: string, now: int): Domain {
    row.(status := Error, errorMessage := message, generatingSince := None, updatedAt := now)
  }

  function RenewFailedRow(row: Domain, message: string, now: int): Domain {
    row.(status := Active, errorMessage := message, generatingSince := None, updatedAt := now)
  }

  function BackoffRow(row: Domain, base: int, max: int, now: int): Domain {
    var n := row.failures + 1;
    row.(failures := n, backoffUntil := Some(now + Backoff.Duration(base, max, n)), updatedAt := now)
  }

  function RolledBackRow(row: Domain, hasCert: bool, message: string, restoreVerified: bool, now: int): Domain {
    var r := row.(generatingSince := None, updatedAt := now);
    if hasCert then r.(status := Active, errorMessage := message)
    else if restoreVerified && row.cnameVerifiedAt.Some? then r.(status := Verified, errorMessage := "")
    else r.(status := Error, errorMessage := if message == "" then CANCELLED_MESSAGE else message)
  }

  function SavedRow(row: Domain, now: int): Domain {
    row.(status := Active, errorMessage := "", generatingSince := None, failures := 0, backoffUntil := None, updatedAt := now)
  }

  function AssignedRow(row: Domain, user: UserId, now: int): Domain {
    row.(userId := user, status := Verified, errorMessage := "", generatingSince := None, autoRenew := true,
         cnameVerifiedAt := Some(now), failures := 0, backoffUntil := None, updatedAt := now)
  }

  function AutoRenewRow(row: Domain, on: bool, now: int): Domain {
    var r := row.(autoRenew := on, updatedAt := now);
    if on then r.(failures := 0, backoffUntil := None, errorMessage := "") else r
  }

  function RestoredRow(row: Domain, now: int): Domain {
    row.(deleted := false, status := Pending, errorMessage := "", generatingSince := None, autoRenew := true,
         cnameVerifiedAt := None, failures := 0, backoffUntil := None, updatedAt := now)
  }

  // ---------------------------------------------------------------- the tables

  function MarkVerified(db: Database, id: DomainId, now: int): Database {
    if Live(db, id) then Put(db, id, MarkedVerified(db.domains[id], now)) else db
  }

  /** Generating since before `staleBefore`. */
  predicate StaleLease(row: Domain, staleBefore: int) {
    row.status == Generating && (row.generatingSince.None? || row.generatingSince.value < staleBefore)
  }

  function StuckIds(db: Database, cutoff: int): set<DomainId> {
    set d | d in db.domains && Locked(db, d) && StaleLease(db.domains[d], cutoff)
  }

  /** The conditional update of the lease: free, or stale. */
  predicate CanLock(db: Database, id: DomainId, staleBefore: int) {
    Live(db, id) && (db.domains[id].status != Generating || StaleLease(db.domains[id], staleBefore))
  }

  function Lock(db: Database, id: DomainId, lockTime: int, staleBefore: int, now: int): Database {
    if CanLock(db, id, staleBefore) then Put(db, id, LockedRow(db.domains[id], lockTime, now)) else db
  }

  function SetError(db: Database, id: DomainId, message: string, now: int): Database {
    if Live(db, id) then Put(db, id, ErrorRow(db.domains[id], message, now)) else db
  }

  function SetRenewFailure(db: Database, id: DomainId, message: string, now: int): Database {
    if Live(db, id) then Put(db, id, RenewFailedRow(db.domains[id], message, now)) else db
  }

  function ScheduleBackoff(db: Database, id: DomainId, base: int, max: int, now: int): Database {
    if Live(db, id) then Put(db, id, BackoffRow(db.domains[id], base, max, now)) else db
  }

  function FailJob(db: Database, id: DomainId, message: string, autoRenew: bool, base: int, max: int, now: int): Database {
    if autoRenew && HasCert(db, id) then ScheduleBackoff(SetRenewFailure(db, id, message, now), id, base, max, now)
    else
      var db1 := SetError(db, id, message, now);
      if autoRenew then ScheduleBackoff(db1, id, base, max, now) else db1
  }

  function Rollback(db: Database, id: DomainId, message: string, restoreVerified: bool, now: int): Database {
    if Locked(db, id) then Put(db, id, RolledBackRow(db.domains[id], HasCert(db, id), message, restoreVerified, now)) else db
  }

  function RollbackStuck(db: Database, id: DomainId, now: int): Database {
    Rollback(db, id, if HasCert(db, id) then "" else STUCK_MESSAGE, true, now)
  }

  /** The stuck rows among `ids` rolled back, each from its own row and certificate alone. */
  function RollbackSet(db: Database, ids: set<DomainId>, now: int): Database {
    db.(domains := map id | id in db.domains ::
      if id in ids then RollbackStuck(db, id, now).domains[id] else db.domains[id])
  }

  lemma RollbackSetStep(db: Database, ids: set<DomainId>, id: DomainId, now: int)
    requires id !in ids
    ensures RollbackStuck(RollbackSet(db, ids, now), id, now) == RollbackSet(db, ids + {id}, now)
  {
    var db1 := RollbackSet(db, ids, now);
    assert HasCert(db1, id) == HasCert(db, id);
    assert id in db.domains ==> db1.domains[id] == db.domains[id];
    assert RollbackStuck(db1, id, now).domains == RollbackSet(db, ids + {id}, now).domains;
  }

  /** Rolling back every locked row leaves none locked, activates the certified ones and changes no other. */
  lemma RollbackSetClears(db: Database, ids: set<DomainId>, now: int, id: DomainId)
    requires forall x :: Locked(db, x) ==> x in ids
    ensures var db' := RollbackSet(db, ids, now);
            && !Locked(db', id)
            && (Locked(db, id) && HasCert(db, id) ==> db'.domains[id].status == Active)
            && (Locked(db, id) && !HasCert(db, id) ==>
                  db'.domains[id].status == (if db.domains[id].cnameVerifiedAt.Some? then Verified else Error))
            && (!Locked(db, id) && id in db.domains ==> db'.domains[id] == db.domains[id])
  {
  }

  ghost function CertIdFor(db: Database, id: DomainId): CertId
    requires HasCert(db, id)
  {
    var c :| c in db.certs && db.certs[c].domainId == id;
    c
  }

  /** Insert or overwrite the domain's certificate, keeping its id and creation time. */
  ghost function UpsertCert(db: Database, rec: Certificate, now: int): Database {
    if HasCert(db, rec.domainId) then
      var c := CertIdFor(db, rec.domainId);
      db.(certs := db.certs[c := rec.(createdAt := db.certs[c].createdAt, updatedAt := now)])
    else
      db.(certs := db.certs[db.nextCert := rec.(createdAt := now, updatedAt := now)], nextCert := db.nextCert + 1)
  }

  ghost function SaveCert(db: Database, rec: Certificate, now: int): Database {
    var db1 := UpsertCert(db, rec, now);
    if Live(db1, rec.domainId) then Put(db1, rec.domainId, SavedRow(db1.domains[rec.domainId], now)) else db1
  }

  predicate CanAssign(db: Database, id: DomainId) {
    !HasCert(db, id) && Live(db, id) && db.domains[id].status in {Pending, Error}
  }

  function Assign(db: Database, id: DomainId, user: UserId, now: int): Database {
    if CanAssign(db, id) then Put(db, id, AssignedRow(db.domains[id], user, now)) else db
  }

  /** The unique index on names also covers soft-deleted rows. */
  predicate NameTaken(db: Database, name: string) {
    exists id :: id in db.domains && db.domains[id].name == name
  }

  function Create(db: Database, user: UserId, name: string, target: string, now: int): Database {
    if NameTaken(db, name) then db
    else
      db.(domains := db.domains[db.nextDomain :=
            Domain(user, name, Pending, "", None, target, None, true, 0, None, now, false)],
          nextDomain := db.nextDomain + 1)
  }

  function SetTarget(db: Database, id: DomainId, target: string, now: int): Database {
    if Live(db, id) then Put(db, id, db.domains[id].(cnameTarget := target, updatedAt := now)) else db
  }

  function SetAutoRenew(db: Database, id: DomainId, on: bool, now: int): Database {
    if Live(db, id) then Put(db, id, AutoRenewRow(db.domains[id], on, now)) else db
  }

  function CertsWithout(db: Database, id: DomainId): map<CertId, Certificate> {
    map c | c in db.certs && db.certs[c].domainId != id :: db.certs[c]
  }

  /** The deletes at the end of DeleteDomain: the status was checked on a row read earlier. */
  function Delete(db: Database, id: DomainId): Database {
    var db1 := db.(certs := CertsWithout(db, id));
    if Live(db, id) then Put(db1, id, db.domains[id].(deleted := true)) else db1
  }

  function Restore(db: Database, id: DomainId, now: int): Database {
    if id in db.domains then Put(db, id, RestoredRow(db.domains[id], now)) else db
  }

  function Remove(db: Database, id: DomainId): Database {
    db.(domains := db.domains - {id}, certs := CertsWithout(db, id))
  }

  // ---------------------------------------------------------------- decisions

  /** May another user take the domain over once its CNAME checks out? */
  predicate Unclaimed(row: Domain, hasCert: bool, now: int, release: int) {
    && !hasCert
    && (row.status == Pending
        || (row.status == Error && (row.cnameVerifiedAt.None? || now - row.updatedAt >= release)))
  }

  /** A row that automatic renewal picks up once its backoff is over. */
  predicate Renewable(row: Domain) {
    row.status != Generating && row.status != Pending && row.autoRenew && row.cnameTarget != ""
  }

  predicate BackoffOver(row: Domain, now: int) {
    row.backoffUntil.Some? ==> row.backoffUntil.value <= now
  }

  predicate MayAutoRenew(row: Domain, now: int) {
    Renewable(row) && BackoffOver(row, now)
  }

  // ---------------------------------------------------------------- the joint invariant

  predicate RowOk(row: Domain, hasCert: bool) {
    && (row.status == Generating ==> row.generatingSince.Some?)
    && (row.status == Verified ==> row.cnameVerifiedAt.Some?)
    && (row.status == Active && !row.deleted ==> hasCert)
    && (row.failures == 0 <==> row.backoffUntil.None?)
  }

  ghost predicate UniqueCerts(certs: map<CertId, Certificate>) {
    forall a, b :: a in certs && b in certs && certs[a].domainId == certs[b].domainId ==> a == b
  }

  ghost predicate UniqueNames(domains: map<DomainId, Domain>) {
    forall a, b :: a in domains && b in domains && domains[a].name == domains[b].name ==> a == b
  }

  ghost predicate DbOk(db: Database) {
    && (forall id :: id in db.domains ==> id < db.nextDomain && RowOk(db.domains[id], HasCert(db, id)))
    && (forall c :: c in db.certs ==> c < db.nextCert)
    && UniqueCerts(db.certs)
    && UniqueNames(db.domains)
  }

  lemma PutKeepsOk(db: Database, id: DomainId, row: Domain)
    requires DbOk(db) && id in db.domains && row.name == db.domains[id].name
    requires RowOk(row, HasCert(db, id))
    ensures DbOk(Put(db, id, row))
  {
    assert forall x :: HasCert(Put(db, id, row), x) == HasCert(db, x);
  }

  lemma UpdatesKeepOk(db: Database, id: DomainId, message: string, flag: bool, user: UserId, time: int, now: int)
    requires DbOk(db)
    ensures DbOk(MarkVerified(db, id, now))
    ensures DbOk(Lock(db, id, time, time, now))
    ensures DbOk(SetError(db, id, message, now))
    ensures DbOk(Rollback(db, id, message, flag, now))
    ensures DbOk(Assign(db, id, user, now))
    ensures DbOk(SetAutoRenew(db, id, flag, now))
    ensures DbOk(SetTarget(db, id, message, now))
    ensures DbOk(Restore(db, id, now))
  {
    if id in db.domains {
      var row, c := db.domains[id], HasCert(db, id);
      PutKeepsOk(db, id, RestoredRow(row, now));
      if !row.deleted {
        PutKeepsOk(db, id, MarkedVerified(row, now));
        PutKeepsOk(db, id, LockedRow(row, time, now));
        PutKeepsOk(db, id, ErrorRow(row, message, now));
        PutKeepsOk(db, id, RolledBackRow(row, c, message, flag, now));
        PutKeepsOk(db, id, AssignedRow(row, user, now));
        PutKeepsOk(db, id, AutoRenewRow(row, flag, now));
        PutKeepsOk(db, id, row.(cnameTarget := message, updatedAt := now));
      }
    }
  }

  lemma LockKeepsOk(db: Database, id: DomainId, lockTime: int, staleBefore: int, now: int)
    requires DbOk(db)
    ensures DbOk(Lock(db, id, lockTime, staleBefore, now))
  {
    if CanLock(db, id, staleBefore) {
      PutKeepsOk(db, id, LockedRow(db.domains[id], lockTime, now));
    }
  }

  lemma FailKeepsOk(db: Database, id: DomainId, message: string, autoRenew: bool, base: int, max: int, now: int)
    requires DbOk(db)
    ensures DbOk(FailJob(db, id, message, autoRenew, base, max, now))
  {
    if Live(db, id) {
      var row := db.domains[id];
      var failed := if autoRenew && HasCert(db, id) then RenewFailedRow(row, message, now) else ErrorRow(row, message, now);
      var db1 := Put(db, id, failed);
      PutKeepsOk(db, id, failed);
      assert HasCert(db1, id) == HasCert(db, id);
      PutKeepsOk(db1, id, BackoffRow(failed, base, max, now));
    }
  }

  lemma SaveKeepsOk(db: Database, rec: Certificate, now: int)
    requires DbOk(db)
    ensures DbOk(SaveCert(db, rec, now))
    ensures HasCert(SaveCert(db, rec, now), rec.domainId)
  {
    var db1 := UpsertCert(db, rec, now);
    UpsertAddsOnlyOne(db, rec, now);
    assert DbOk(db1);
    if Live(db1, rec.domainId) {
      var row := SavedRow(db1.domains[rec.domainId], now);
      PutKeepsOk(db1, rec.domainId, row);
      assert forall x :: HasCert(Put(db1, rec.domainId, row), x) == HasCert(db1, x);
    }
  }

  lemma UpsertAddsOnlyOne(db: Database, rec: Certificate, now: int)
    requires DbOk(db)
    ensures var db1 := UpsertCert(db, rec, now);
            && UniqueCerts(db1.certs)
            && (forall c :: c in db1.certs ==> c < db1.nextCert)
            && (forall x :: HasCert(db1, x) <==> HasCert(db, x) || x == rec.domainId)
  {
    var db1 := UpsertCert(db, rec, now);
    var c := if HasCert(db, rec.domainId) then CertIdFor(db, rec.domainId) else db.nextCert;
    assert db1.certs.Keys == db.certs.Keys + {c} && db1.certs[c].domainId == rec.domainId;
    forall x ensures HasCert(db1, x) <==> HasCert(db, x) || x == rec.domainId {
      if HasCert(db, x) && x != rec.domainId {
        var k :| k in db.certs && db.certs[k].domainId == x;
        assert k in db1.certs && db1.certs[k].domainId == x;
      }
    }
  }

  lemma CertsWithoutKeep(db: Database, id: DomainId, domains: map<DomainId, Domain>)
    requires DbOk(db)
    ensures var db1 := db.(certs := CertsWithout(db, id), domains := domains);
            && UniqueCerts(db1.certs)
            && (forall x :: HasCert(db1, x) <==> HasCert(db, x) && x != id)
  {
    var db1 := db.(certs := CertsWithout(db, id), domains := domains);
    forall x ensures HasCert(db1, x) <==> HasCert(db, x) && x != id {
      if HasCert(db, x) && x != id {
        var k :| k in db.certs && db.certs[k].domainId == x;
        assert k in db1.certs;
      }
    }
  }

  lemma DeletesKeepOk(db: Database, id: DomainId)
    requires DbOk(db)
    ensures DbOk(Delete(db, id)) && DbOk(Remove(db, id))
  {
    CertsWithoutKeep(db, id, Delete(db, id).domains);
    CertsWithoutKeep(db, id, Remove(db, id).domains);
  }

  lemma CreateKeepsOk(db: Database, user: UserId, name: string, target: string, now: int)
    requires DbOk(db)
    ensures DbOk(Create(db, user, name, target, now))
  {
    assert forall x :: HasCert(Create(db, user, name, target, now), x) == HasCert(db, x);
  }

  // ---------------------------------------------------------------- one certificate per domain

  /** The self-join delete: a row goes when a row with the same domain and a larger id exists. */
  predicate Superfluous(certs: map<CertId, Certificate>, a: CertId)
    requires a in certs
  {
    exists b :: b in certs && certs[b].domainId == certs[a].domainId && a < b
  }

  function WithoutDuplicates(certs: map<CertId, Certificate>): map<CertId, Certificate> {
    map a | a in certs && !Superfluous(certs, a) :: certs[a]
  }

  lemma {:induction false} NewestOf(certs: map<CertId, Certificate>, a: CertId, bound: CertId) returns (top: CertId)
    requires a in certs && forall c :: c in certs ==> c < bound
    ensures top in certs && certs[top].domainId == certs[a].domainId && a <= top && !Superfluous(certs, top)
    decreases bound - a
  {
    top := a;
    if Superfluous(certs, a) {
      var b :| b in certs && certs[b].domainId == certs[a].domainId && a < b;
      top := NewestOf(certs, b, bound);
    }
  }

  /**
   From any table at all, what is left has one row per domain, loses no domain, keeps every
   survivor unchanged, and the survivor is the newest; a table is left alone exactly when it
   had no duplicates.
   */
  lemma DedupKeepsNewest(db: Database)
    requires forall c :: c in db.certs ==> c < db.nextCert
    ensures var kept := WithoutDuplicates(db.certs);
            && UniqueCerts(kept)
            && (forall id :: HasCert(db.(certs := kept), id) <==> HasCert(db, id))
            && (forall a :: a in kept ==> a in db.certs && kept[a] == db.certs[a])
            && (forall a, b :: a in kept && b in db.certs && db.certs[b].domainId == kept[a].domainId ==> b <= a)
            && (kept == db.certs <==> UniqueCerts(db.certs))
  {
    var kept := WithoutDuplicates(db.certs);
    forall id | HasCert(db, id) ensures HasCert(db.(certs := kept), id) {
      var a :| a in db.certs && db.certs[a].domainId == id;
      var top := NewestOf(db.certs, a, db.nextCert);
      assert top in kept;
    }
    if kept == db.certs {
      assert UniqueCerts(db.certs);
    }
  }
}
