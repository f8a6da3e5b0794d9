/** The database functions as the code runs them, on mutable tables. */
module Store {
  import opened Options
  import opened Rows
  import Backoff

  class Store {
    var domains: map<DomainId, Domain>
    var certs: map<CertId, Certificate>
    var users: set<UserId>
    var nextDomain: DomainId
    var nextCert: CertId

    function Value(): Database reads this {
      Database(domains, certs, users, nextDomain, nextCert)
    }

    predicate Found(id: DomainId) reads this {
      id in domains && !domains[id].deleted
    }

    method DomainHasCertificate(id: DomainId) returns (has: bool)
      ensures has == HasCert(Value(), id)
    {
      has := false;
      var todo := certs.Keys;
      while todo != {}
        invariant todo <= certs.Keys
        invariant has <==> exists c :: c in certs && c !in todo && certs[c].domainId == id
        decreases todo
      {
        var c :| c in todo;
        if certs[c].domainId == id {
          has := true;
        }
        todo := todo - {c};
      }
    }

    method MarkDomainCnameVerified(id: DomainId, now: int)
      modifies this
      ensures Value() == MarkVerified(old(Value()), id, now)
    {
      if Found(id) {
        var row := domains[id].(status := Verified, errorMessage := "");
        domains := domains[id := row.(cnameVerifiedAt := Some(now), updatedAt := now)];
      }
    }

    /** The tail of lockDomainForCertJob: conditional update, then the owner must exist. */
    method TakeLease(id: DomainId, owner: UserId, lockTime: int, staleBefore: int, now: int)
      returns (locked: bool, userFound: bool)
      modifies this
      ensures locked == CanLock(old(Value()), id, staleBefore)
      ensures userFound <==> locked && owner in old(users)
      ensures Value() ==
              var db := Lock(old(Value()), id, lockTime, staleBefore, now);
              if locked && owner !in old(users) then SetError(db, id, "user not found", now) else db
    {
      locked, userFound := false, false;
      if !Found(id) {
        return;
      }
      var row := domains[id];
      if row.status == Generating && row.generatingSince.Some? && row.generatingSince.value >= staleBefore {
        return;
      }
      locked := true;
      domains := domains[id := row.(status := Generating, errorMessage := "", generatingSince := Some(lockTime), updatedAt := now)];
      if owner !in users {
        SetDomainError(id, "user not found", now);
        return;
      }
      userFound := true;
    }

    method SetDomainError(id: DomainId, message: string, now: int)
      modifies this
      ensures Value() == SetError(old(Value()), id, message, now)
    {
      if Found(id) {
        domains := domains[id := domains[id].(status := Error, errorMessage := message, generatingSince := None, updatedAt := now)];
      }
    }

    method SetDomainAutoRenewFailure(id: DomainId, message: string, now: int)
      modifies this
      ensures Value() == SetRenewFailure(old(Value()), id, message, now)
    {
      if Found(id) {
        domains := domains[id := domains[id].(status := Active, errorMessage := message, generatingSince := None, updatedAt := now)];
      }
    }

    method ScheduleAutoRenewBackoff(id: DomainId, base: int, max: int, now: int)
      modifies this
      ensures Value() == ScheduleBackoff(old(Value()), id, base, max, now)
    {
      if !Found(id) {
        return;
      }
      var failures := domains[id].failures + 1;
      var backoff := Backoff.AutoRenewBackoffDuration(base, max, failures);
      domains := domains[id := domains[id].(failures := failures, backoffUntil := Some(now + backoff), updatedAt := now)];
    }

    method FailCertJob(id: DomainId, message: string, autoRenew: bool, base: int, max: int, now: int)
      modifies this
      ensures Value() == FailJob(old(Value()), id, message, autoRenew, base, max, now)
    {
      var has := DomainHasCertificate(id);
      if autoRenew && has {
        SetDomainAutoRenewFailure(id, message, now);
        ScheduleAutoRenewBackoff(id, base, max, now);
        return;
      }
      SetDomainError(id, message, now);
      if autoRenew {
        ScheduleAutoRenewBackoff(id, base, max, now);
      }
    }

    method RollbackGeneratingDomain(id: DomainId, errorMessage: string, restoreVerified: bool, now: int)
      modifies this
      ensures Value() == Rollback(old(Value()), id, errorMessage, restoreVerified, now)
    {
      if !Found(id) || domains[id].status != Generating {
        return;
      }
      var row := domains[id];
      var has := DomainHasCertificate(id);
      var updated := row.(generatingSince := None, updatedAt := now);
      if has {
        updated := updated.(status := Active, errorMessage := errorMessage);
      } else if restoreVerified && row.cnameVerifiedAt.Some? {
        updated := updated.(status := Verified, errorMessage := "");
      } else {
        var message := errorMessage;
        if message == "" {
          message := CANCELLED_MESSAGE;
        }
        updated := updated.(status := Error, errorMessage := message);
      }
      domains := domains[id := updated];
    }

    method SaveCertificateRecord(rec: Certificate, now: int)
      requires UniqueCerts(certs)
      modifies this
      ensures Value() == SaveCert(old(Value()), rec, now)
    {
      var id := rec.domainId;
      var has := DomainHasCertificate(id);
      if has {
        assert HasCert(Value(), id);
        var c :| c in certs && certs[c].domainId == id;
        certs := certs[c := rec.(createdAt := certs[c].createdAt, updatedAt := now)];
      } else {
        certs := certs[nextCert := rec.(createdAt := now, updatedAt := now)];
        nextCert := nextCert + 1;
      }
      if Found(id) {
        domains := domains[id := domains[id].(status := Active, errorMessage := "", generatingSince := None,
                                              failures := 0, backoffUntil := None, updatedAt := now)];
      }
    }

    /** `force` skips the check that no job is registered (used at shutdown). */
    method RollbackStuckGenerating(id: DomainId, force: bool, inflight: bool, now: int)
      modifies this
      ensures Value() == if !force && inflight then old(Value()) else RollbackStuck(old(Value()), id, now)
    {
      if !force && inflight {
        return;
      }
      var has := DomainHasCertificate(id);
      var message := "";
      if !has {
        message := STUCK_MESSAGE;
      }
      RollbackGeneratingDomain(id, message, true, now);
    }

    method RollbackAllGeneratingDomains(now: int)
      modifies this
      ensures Value() == RollbackSet(old(Value()), LockedIds(old(Value())), now)
      ensures forall id :: !Locked(Value(), id)
    {
      ghost var before := Value();
      var stuck := set id | id in domains && Found(id) && domains[id].status == Generating;
      assert stuck == LockedIds(before);
      var todo := stuck;
      assert RollbackSet(before, stuck - todo, now).domains == before.domains;
      while todo != {}
        invariant todo <= stuck
        invariant Value() == RollbackSet(before, stuck - todo, now)
        decreases todo
      {
        var id :| id in todo;
        RollbackSetStep(before, stuck - todo, id, now);
        assert stuck - todo + {id} == stuck - (todo - {id});
        RollbackStuckGenerating(id, true, false, now);
        todo := todo - {id};
      }
      assert stuck - todo == stuck;
      forall id ensures !Locked(Value(), id) {
        RollbackSetClears(before, stuck, now, id);
      }
    }

    method AssignUnclaimedDomainToUser(id: DomainId, user: UserId, now: int) returns (ok: bool)
      modifies this
      ensures ok == CanAssign(old(Value()), id)
      ensures Value() == Assign(old(Value()), id, user, now)
    {
      var has := DomainHasCertificate(id);
      if has {
        return false;
      }
      if !Found(id) || (domains[id].status != Pending && domains[id].status != Error) {
        return false;
      }
      domains := domains[id := domains[id].(userId := user, status := Verified, errorMessage := "", generatingSince := None,
                                            autoRenew := true, cnameVerifiedAt := Some(now),
                                            failures := 0, backoffUntil := None, updatedAt := now)];
      return true;
    }

    method CreateDomainRecord(user: UserId, name: string, target: string, now: int) returns (id: Option<DomainId>)
      modifies this
      ensures Value() == Create(old(Value()), user, name, target, now)
      ensures id.None? <==> NameTaken(old(Value()), name)
      ensures id.Some? ==> id.value == old(nextDomain)
    {
      if exists x :: x in domains && domains[x].name == name {
        return None;
      }
      id := Some(nextDomain);
      domains := domains[nextDomain := Domain(user, name, Pending, "", None, "", None, true, 0, None, now, false)];
      domains := domains[nextDomain := domains[nextDomain].(cnameTarget := target)];
      nextDomain := nextDomain + 1;
    }

    method UpdateDomain(id: DomainId, autoRenew: bool, now: int)
      modifies this
      ensures Value() == SetAutoRenew(old(Value()), id, autoRenew, now)
    {
      if Found(id) {
        var row := domains[id].(autoRenew := autoRenew, updatedAt := now);
        if autoRenew {
          row := row.(failures := 0, backoffUntil := None, errorMessage := "");
        }
        domains := domains[id := row];
      }
    }

    /** `domain` is the row the request read; the row may have changed since. */
    method DeleteDomain(id: DomainId, domain: Domain) returns (ok: bool)
      modifies this
      ensures ok <==> domain.status != Generating
      ensures Value() == if ok then Delete(old(Value()), id) else old(Value())
      ensures ok ==> !Live(Value(), id) && !HasCert(Value(), id)
      ensures ok && id in old(domains) ==> id in domains && domains[id] == old(domains)[id].(deleted := true)
    {
      if domain.status == Generating {
        return false;
      }
      certs := map c | c in certs && certs[c].domainId != id :: certs[c];
      if Found(id) {
        domains := domains[id := domains[id].(deleted := true)];
      }
      return true;
    }

    method RestoreDeletedDomain(id: DomainId, now: int)
      modifies this
      ensures Value() == Restore(old(Value()), id, now)
    {
      if id in domains {
        domains := domains[id := domains[id].(deleted := false, status := Pending, errorMessage := "", generatingSince := None,
                                              autoRenew := true, cnameVerifiedAt := None,
                                              failures := 0, backoffUntil := None, updatedAt := now)];
      }
    }

    method PermanentlyRemoveDomain(id: DomainId)
      modifies this
      ensures Value() == Remove(old(Value()), id)
    {
      certs := map c | c in certs && certs[c].domainId != id :: certs[c];
      domains := domains - {id};
    }

    method RemoveDuplicateCertificates()
      modifies this
      ensures Value() == old(Value()).(certs := WithoutDuplicates(old(certs)))
    {
      certs := map a | a in certs && !(exists b :: b in certs && certs[b].domainId == certs[a].domainId && a < b) :: certs[a];
    }
  }
}
