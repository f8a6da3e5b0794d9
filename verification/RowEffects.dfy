/** What each database function does to the tables, field by field. */
module RowEffects {
  import opened Options
  import opened Rows
  import Backoff

  /** Nothing but the row of `d` differs. */
  predicate OnlyRow(db: Database, db': Database, d: DomainId) {
    && db'.certs == db.certs && db'.users == db.users && db'.nextDomain == db.nextDomain && db'.nextCert == db.nextCert
    && db'.domains.Keys == db.domains.Keys
    && (forall x :: x in db.domains && x != d ==> db'.domains[x] == db.domains[x])
  }

  /** Who owns the row, its name, target and switch, and whether it is deleted stay. */
  predicate SameOwner(row: Domain, row': Domain) {
    && row'.userId == row.userId && row'.name == row.name && row'.cnameTarget == row.cnameTarget
    && row'.autoRenew == row.autoRenew && row'.deleted == row.deleted
  }

  predicate SameBackoff(row: Domain, row': Domain) {
    row'.failures == row.failures && row'.backoffUntil == row.backoffUntil
  }

  /** A function that updates one live row: anything else is left alone, and `updatedAt` is the clock. */
  predicate UpdatesRow(db: Database, db': Database, d: DomainId, now: int) {
    && OnlyRow(db, db', d)
    && (!Live(db, d) ==> db' == db)
    && (Live(db, d) ==> db'.domains[d].updatedAt == now)
  }

  // ---------------------------------------------------------------- jobs

  /** Verifying the CNAME makes any live row verified, a generating one included; the start time stays. */
  lemma MarkVerifiedEffect(db: Database, d: DomainId, now: int)
    ensures var db' := MarkVerified(db, d, now);
            && UpdatesRow(db, db', d, now)
            && (Live(db, d) ==>
                  var row, row' := db.domains[d], db'.domains[d];
                  && row'.status == Verified && row'.errorMessage == "" && row'.cnameVerifiedAt == Some(now)
                  && row'.generatingSince == row.generatingSince && SameOwner(row, row') && SameBackoff(row, row'))
  {
  }

  /** The lease is taken exactly when the row is live and free, or generating since before the bound or since no time. */
  lemma LockEffect(db: Database, d: DomainId, lockTime: int, staleBefore: int, now: int)
    ensures var db' := Lock(db, d, lockTime, staleBefore, now);
            var free := Live(db, d) && (db.domains[d].status == Generating && db.domains[d].generatingSince.Some? ==>
                                          db.domains[d].generatingSince.value < staleBefore);
            && OnlyRow(db, db', d)
            && (!free ==> db' == db)
            && (free ==>
                  var row, row' := db.domains[d], db'.domains[d];
                  && row'.status == Generating && row'.errorMessage == "" && row'.generatingSince == Some(lockTime)
                  && row'.updatedAt == now && row'.cnameVerifiedAt == row.cnameVerifiedAt
                  && SameOwner(row, row') && SameBackoff(row, row'))
  {
  }

  lemma SetErrorEffect(db: Database, d: DomainId, message: string, now: int)
    ensures var db' := SetError(db, d, message, now);
            && UpdatesRow(db, db', d, now)
            && (Live(db, d) ==>
                  var row, row' := db.domains[d], db'.domains[d];
                  && row'.status == Error && row'.errorMessage == message && row'.generatingSince == None
                  && row'.cnameVerifiedAt == row.cnameVerifiedAt && SameOwner(row, row') && SameBackoff(row, row'))
  {
  }

  /**
   A failed automatic renewal of a certified domain leaves it active, any other failure puts the
   live row in error. The message is recorded and the start time cleared, and failures and their
   deadline grow exactly for automatic attempts.
   */
  lemma FailureEffect(db: Database, d: DomainId, message: string, auto: bool, base: int, max: int, now: int)
    ensures var db' := FailJob(db, d, message, auto, base, max, now);
            && UpdatesRow(db, db', d, now)
            && (Live(db, d) ==>
                  var row, row' := db.domains[d], db'.domains[d];
                  && row'.status == (if auto && (exists c :: c in db.certs && db.certs[c].domainId == d) then Active else Error)
                  && row'.errorMessage == message && row'.generatingSince == None
                  && row'.cnameVerifiedAt == row.cnameVerifiedAt && SameOwner(row, row')
                  && (auto ==> row'.failures == row.failures + 1
                               && row'.backoffUntil == Some(now + Backoff.Duration(base, max, row.failures + 1)))
                  && (!auto ==> SameBackoff(row, row')))
  {
  }

  /**
   A rollback touches only a live generating row: active with a certificate, else verified if that
   is allowed and it was verified before, else in error. Only an error without a message gets one.
   */
  lemma RollbackEffect(db: Database, d: DomainId, message: string, restoreVerified: bool, now: int)
    ensures var db' := Rollback(db, d, message, restoreVerified, now);
            && OnlyRow(db, db', d)
            && (!(Live(db, d) && db.domains[d].status == Generating) ==> db' == db)
            && (Live(db, d) && db.domains[d].status == Generating ==>
                  var row, row' := db.domains[d], db'.domains[d];
                  var hasCert := exists c :: c in db.certs && db.certs[c].domainId == d;
                  && row'.generatingSince == None && row'.updatedAt == now && row'.cnameVerifiedAt == row.cnameVerifiedAt
                  && SameOwner(row, row') && SameBackoff(row, row')
                  && (hasCert ==> row'.status == Active && row'.errorMessage == message)
                  && (!hasCert && restoreVerified && row.cnameVerifiedAt.Some? ==> row'.status == Verified && row'.errorMessage == "")
                  && (!hasCert && !(restoreVerified && row.cnameVerifiedAt.Some?) ==>
                        row'.status == Error && row'.errorMessage == (if message == "" then CANCELLED_MESSAGE else message)))
  {
  }

  /** Cleanup and shutdown report a time-out only on a row that ends in error. */
  lemma RollbackStuckEffect(db: Database, d: DomainId, now: int)
    requires Live(db, d) && db.domains[d].status == Generating
    ensures var db' := RollbackStuck(db, d, now);
            var row, row' := db.domains[d], db'.domains[d];
            var hasCert := exists c :: c in db.certs && db.certs[c].domainId == d;
            && row'.status == (if hasCert then Active else if row.cnameVerifiedAt.Some? then Verified else Error)
            && row'.errorMessage == (if row'.status == Error then STUCK_MESSAGE else "")
  {
  }

  /** The saved record is the only certificate of its domain, with exactly the new contents. */
  predicate Stored(db: Database, rec: Certificate, c: CertId, now: int) {
    && c in db.certs
    && (forall x :: x in db.certs && db.certs[x].domainId == rec.domainId ==> x == c)
    && db.certs[c].domainId == rec.domainId && db.certs[c].userId == rec.userId
    && db.certs[c].domain == rec.domain && db.certs[c].material == rec.material && db.certs[c].updatedAt == now
  }

  /**
   A save stores the new certificate: afterwards the domain has one certificate row, with exactly
   the record's owner, name and material. An existing row keeps its id and creation time, a new
   one has an unused id and is created now. Other domains' certificates and rows stay; a live row
   of the domain becomes active with nothing left of earlier failures.
   */
  lemma SaveStores(db: Database, rec: Certificate, now: int) returns (c: CertId)
    requires DbOk(db)
    ensures var db' := SaveCert(db, rec, now);
            && Stored(db', rec, c, now)
            && (if c in db.certs then db.certs[c].domainId == rec.domainId && db'.certs[c].createdAt == db.certs[c].createdAt
                else db'.certs[c].createdAt == now && forall x :: x in db.certs ==> db.certs[x].domainId != rec.domainId)
            && db'.certs.Keys == db.certs.Keys + {c}
            && (forall x :: x in db.certs && x != c ==> db'.certs[x] == db.certs[x])
            && db'.domains.Keys == db.domains.Keys && db'.users == db.users
            && (forall x :: x in db.domains && x != rec.domainId ==> db'.domains[x] == db.domains[x])
            && (rec.domainId in db.domains && !Live(db, rec.domainId) ==> db'.domains[rec.domainId] == db.domains[rec.domainId])
            && (Live(db, rec.domainId) ==>
                  var row, row' := db.domains[rec.domainId], db'.domains[rec.domainId];
                  && row'.status == Active && row'.errorMessage == "" && row'.generatingSince == None && row'.updatedAt == now
                  && row'.failures == 0 && row'.backoffUntil == None
                  && row'.cnameVerifiedAt == row.cnameVerifiedAt && SameOwner(row, row'))
  {
    if HasCert(db, rec.domainId) {
      c := CertIdFor(db, rec.domainId);
    } else {
      c := db.nextCert;
    }
  }

  // ---------------------------------------------------------------- domain requests

  /** A claim gives a live, uncertified pending or failed row to the new owner, verified and with a clean slate. */
  lemma AssignEffect(db: Database, d: DomainId, user: UserId, now: int)
    ensures var db' := Assign(db, d, user, now);
            var free := Live(db, d) && (db.domains[d].status == Pending || db.domains[d].status == Error)
                        && forall c :: c in db.certs ==> db.certs[c].domainId != d;
            && OnlyRow(db, db', d)
            && (!free ==> db' == db)
            && (free ==>
                  var row, row' := db.domains[d], db'.domains[d];
                  && row'.userId == user && row'.status == Verified && row'.cnameVerifiedAt == Some(now) && row'.autoRenew
                  && row'.errorMessage == "" && row'.generatingSince == None && row'.failures == 0 && row'.backoffUntil == None
                  && row'.name == row.name && row'.cnameTarget == row.cnameTarget && !row'.deleted && row'.updatedAt == now)
  {
  }

  /** A new name gets a new id and a live pending row of its own; a name that any row carries changes nothing. */
  lemma CreateEffect(db: Database, user: UserId, name: string, target: string, now: int)
    requires DbOk(db)
    ensures var db' := Create(db, user, name, target, now);
            var d := db.nextDomain;
            if exists x :: x in db.domains && db.domains[x].name == name then db' == db
            else
              && d !in db.domains && db'.domains.Keys == db.domains.Keys + {d} && db'.nextDomain == d + 1
              && (forall x :: x in db.domains ==> db'.domains[x] == db.domains[x])
              && db'.certs == db.certs && db'.users == db.users && db'.nextCert == db.nextCert
              && db'.domains[d].userId == user && db'.domains[d].name == name && db'.domains[d].cnameTarget == target
              && db'.domains[d].status == Pending && db'.domains[d].autoRenew && !db'.domains[d].deleted
              && db'.domains[d].errorMessage == "" && db'.domains[d].generatingSince == None && db'.domains[d].cnameVerifiedAt == None
              && db'.domains[d].failures == 0 && db'.domains[d].backoffUntil == None && db'.domains[d].updatedAt == now
  {
    assert db.nextDomain !in db.domains;
  }

  lemma SetTargetEffect(db: Database, d: DomainId, target: string, now: int)
    ensures var db' := SetTarget(db, d, target, now);
            && UpdatesRow(db, db', d, now)
            && (Live(db, d) ==>
                  var row, row' := db.domains[d], db'.domains[d];
                  && row'.cnameTarget == target && row'.(cnameTarget := row.cnameTarget, updatedAt := row.updatedAt) == row)
  {
  }

  /** Switching automatic renewal on clears failures, deadline and message; switching it off clears nothing. */
  lemma SetAutoRenewEffect(db: Database, d: DomainId, on: bool, now: int)
    ensures var db' := SetAutoRenew(db, d, on, now);
            && UpdatesRow(db, db', d, now)
            && (Live(db, d) ==>
                  var row, row' := db.domains[d], db'.domains[d];
                  && (row'.autoRenew <==> on)
                  && (on ==> row'.failures == 0 && row'.backoffUntil == None && row'.errorMessage == "")
                  && (!on ==> SameBackoff(row, row') && row'.errorMessage == row.errorMessage)
                  && row'.status == row.status && row'.generatingSince == row.generatingSince && row'.cnameVerifiedAt == row.cnameVerifiedAt
                  && row'.userId == row.userId && row'.name == row.name && row'.cnameTarget == row.cnameTarget && !row'.deleted)
  {
  }

  /** Exactly the certificates of `d` are gone. */
  ghost predicate CertsGone(db: Database, db': Database, d: DomainId) {
    && (forall c :: c in db'.certs <==> c in db.certs && db.certs[c].domainId != d)
    && (forall c :: c in db'.certs ==> db'.certs[c] == db.certs[c])
    && db'.users == db.users && db'.nextDomain == db.nextDomain && db'.nextCert == db.nextCert
  }

  /** A delete marks the row deleted and touches nothing else of it; a removal takes the row away; both take the certificates. */
  lemma DeletesEffect(db: Database, d: DomainId)
    ensures var db' := Delete(db, d);
            && CertsGone(db, db', d) && db'.domains.Keys == db.domains.Keys
            && (forall x :: x in db.domains && x != d ==> db'.domains[x] == db.domains[x])
            && (d in db.domains ==> db'.domains[d].deleted && db'.domains[d].(deleted := db.domains[d].deleted) == db.domains[d])
    ensures var db' := Remove(db, d);
            && CertsGone(db, db', d) && db'.domains.Keys == db.domains.Keys - {d}
            && (forall x :: x in db'.domains ==> db'.domains[x] == db.domains[x])
  {
  }

  /** A restore makes the row, live or not, a live pending one of the same owner with a clean slate. */
  lemma RestoreEffect(db: Database, d: DomainId, now: int)
    ensures var db' := Restore(db, d, now);
            && OnlyRow(db, db', d)
            && (d in db.domains ==>
                  var row, row' := db.domains[d], db'.domains[d];
                  && !row'.deleted && row'.status == Pending && row'.cnameVerifiedAt == None && row'.generatingSince == None
                  && row'.errorMessage == "" && row'.autoRenew && row'.failures == 0 && row'.backoffUntil == None
                  && row'.userId == row.userId && row'.name == row.name && row'.cnameTarget == row.cnameTarget && row'.updatedAt == now)
  {
  }

  /** A pending row, or a failed one never verified or failed long enough ago, is unclaimed as long as it has no certificate. */
  lemma UnclaimedMeaning(row: Domain, hasCert: bool, now: int, release: int)
    ensures hasCert ==> !Unclaimed(row, hasCert, now, release)
    ensures row.status in {Verified, Generating, Active} ==> !Unclaimed(row, hasCert, now, release)
    ensures !hasCert && row.status == Pending ==> Unclaimed(row, hasCert, now, release)
    ensures !hasCert && row.status == Error && row.cnameVerifiedAt.None? ==> Unclaimed(row, hasCert, now, release)
    ensures !hasCert && row.status == Error && row.cnameVerifiedAt.Some? ==>
              (Unclaimed(row, hasCert, now, release) <==> row.updatedAt + release <= now)
  {
  }
}
