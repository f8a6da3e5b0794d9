/**
 Handlers that read a row, decide, and write later (controllers/domain.go). In a run the read is
 an observation of one state and the write a later step; anything may happen in between.
 */
module Handlers {
  import opened Options
  import opened History
  import opened Rows
  import opened Protocol
  import opened Leases
  import opened RenewalRate

  // ---------------------------------------------------------------- deleting

  /** DeleteDomain read a live row that was not generating at moment `i` and deletes at step `j`. */
  ghost predicate DeleteCall(run: seq<State>, steps: seq<Step>, i: nat, j: nat, d: DomainId)
    requires IsRun(run, steps)
  {
    && i <= j < |steps| && steps[j] == Handle(DeleteDomain(d))
    && Live(run[i].db, d) && run[i].db.domains[d].status != Generating
  }

  /**
   The status was checked on the row read earlier: the delete hits a generating row, leaving a
   deleted generating row and no certificate under the lease, exactly when a lock of the domain
   lies between the read and the delete and nothing ended that lease before the delete.
   */
  lemma DeleteHitsLeaseIff(run: seq<State>, steps: seq<Step>, i: nat, j: nat, d: DomainId)
    requires IsRun(run, steps) && DeleteCall(run, steps, i, j, d)
    ensures Locked(run[j].db, d) <==> exists m :: i <= m < j && LeaseFrom(run, steps, d, m, j)
    ensures var before, after := run[j].db, run[j + 1].db;
            && !Live(after, d) && !HasCert(after, d)
            && (Live(before, d) ==> d in after.domains && after.domains[d] == before.domains[d].(deleted := true))
  {
    LeaseSinceIff(run, steps, d, i, j);
  }

  // ---------------------------------------------------------------- one handler step

  /** What each handler step achieves for its own row. */
  lemma HandlerMeaning(s: State, h: Handler)
    requires DbOk(s.db)
    ensures var db, db' := s.db, Next(s, Handle(h)).db;
            match h
            case MarkCname(d) => Live(db, d) ==> db'.domains[d].status == Verified && db'.domains[d].cnameVerifiedAt == Some(s.clock)
            case ClaimDomain(d, user) => CanAssign(db, d) ==> db'.domains[d].userId == user && db'.domains[d].status == Verified
            case NewDomain(user, name, target) =>
              !NameTaken(db, name) ==>
                && db.nextDomain in db'.domains && db'.domains[db.nextDomain].userId == user
                && db'.domains[db.nextDomain].name == name && db'.domains[db.nextDomain].cnameTarget == target
            case Retarget(d, target) => Live(db, d) ==> db'.domains[d].cnameTarget == target
            case SwitchAutoRenew(d, on) => Live(db, d) ==> (db'.domains[d].autoRenew <==> on)
            case DeleteDomain(d) => !Live(db', d) && forall c :: c in db'.certs ==> db'.certs[c].domainId != d
            case RestoreDomain(d) => d in db.domains ==> Live(db', d) && db'.domains[d].status == Pending
            case RemoveDomain(d) => d !in db'.domains && forall c :: c in db'.certs ==> db'.certs[c].domainId != d
    ensures Next(s, Handle(h)) == s.(db := Next(s, Handle(h)).db)
  {
  }

  // ---------------------------------------------------------------- rows over a run

  /** What one database operation can do to the row of `d`. */
  predicate RowKept(db: Database, db': Database, op: DbOp, now: int, d: DomainId) {
    && db.nextDomain <= db'.nextDomain
    && (d in db'.domains && d !in db.domains ==> d == db.nextDomain)
    && (d in db'.domains && d in db.domains && d < db.nextDomain ==>
          && db'.domains[d].name == db.domains[d].name
          && (Live(db', d) && !Live(db, d) ==> op == DoHandler(RestoreDomain(d)))
          && (db'.domains[d].userId != db.domains[d].userId ==>
                op.DoHandler? && op.h == ClaimDomain(d, db'.domains[d].userId) && CanAssign(db, d))
          && (db'.domains[d] != db.domains[d] ==> db'.domains[d].updatedAt == now || db'.domains[d].deleted))
  }

  lemma HandlerOnRow(db: Database, h: Handler, now: int, d: DomainId)
    ensures RowKept(db, HandlerDb(db, h, now), DoHandler(h), now, d)
  {
    hide HasCert;
  }

  lemma OpOnRow(s: State, op: DbOp, d: DomainId)
    ensures RowKept(s.db, Apply(s, op), op, s.clock, d)
  {
    hide HandlerDb, HasCert;
    if op.DoHandler? {
      HandlerOnRow(s.db, op.h, s.clock, d);
    }
  }

  predicate RowStep(s: State, a: Step, s': State, d: DomainId) {
    d in s.db.domains && d in s'.db.domains &&
    var row, row' := s.db.domains[d], s'.db.domains[d];
    && row'.name == row.name && s.clock <= s'.clock
    && (!row'.deleted && row.deleted ==> a == Handle(RestoreDomain(d)))
    && (row'.userId != row.userId ==> a == Handle(ClaimDomain(d, row'.userId)) && CanAssign(s.db, d))
    && (row' != row ==> row'.updatedAt == s.clock || row'.deleted)
  }

  lemma StepOnRow(s: State, a: Step, d: DomainId)
    requires Enabled(s, a)
    ensures s.db.nextDomain <= Next(s, a).db.nextDomain
    ensures d in Next(s, a).db.domains && d < s.db.nextDomain ==> RowStep(s, a, Next(s, a), d)
  {
    hide Next;
    StepIsOp(s, a);
    OpOnRow(s, OpOf(s, a), d);
    ClockStep(s, a);
  }

  /** A domain that is there at `j` was there all along since `i`: ids are not used again. */
  lemma {:induction false} RowAlong(run: seq<State>, steps: seq<Step>, i: nat, j: nat, d: DomainId)
    requires IsRun(run, steps) && Init(run[0]) && i <= j < |run|
    requires d in run[i].db.domains && d in run[j].db.domains
    ensures forall x :: i <= x <= j ==> d in run[x].db.domains
    ensures forall x :: i <= x < j ==> RowStep(run[x], steps[x], run[x + 1], d)
    ensures run[j].db.domains[d].name == run[i].db.domains[d].name
    decreases j
  {
    hide Next, Enabled, DbOk;
    if i < j {
      NextDomainGrows(run, steps, i, j - 1);
      IdBelowNext(run, steps, i, d);
      StepOnRow(run[j - 1], steps[j - 1], d);
      assert run[j - 1 + 1] == Next(run[j - 1], steps[j - 1]);
      RowAlong(run, steps, i, j - 1, d);
    }
  }

  lemma IdBelowNext(run: seq<State>, steps: seq<Step>, i: nat, d: DomainId)
    requires IsRun(run, steps) && Init(run[0]) && i < |run| && d in run[i].db.domains
    ensures d < run[i].db.nextDomain
  {
    hide Next;
    RowInvariant(run, steps, i);
  }

  lemma {:induction false} NextDomainGrows(run: seq<State>, steps: seq<Step>, i: nat, j: nat)
    requires IsRun(run, steps) && i <= j < |run|
    ensures run[i].db.nextDomain <= run[j].db.nextDomain
    decreases j
  {
    hide Next, Enabled;
    if i < j {
      NextDomainGrows(run, steps, i, j - 1);
      StepOnRow(run[j - 1], steps[j - 1], 0);
    }
  }

  // ---------------------------------------------------------------- registering a name

  /** The row found under the name, soft-deleted rows included. */
  datatype Found = Found(id: DomainId, row: Domain)

  predicate LooksUp(db: Database, name: string, found: Option<Found>) {
    match found
    case None => !NameTaken(db, name)
    case Some(f) => f.id in db.domains && db.domains[f.id] == f.row && f.row.name == name
  }

  datatype AddPlan = Conflict | Create | Claim(id: DomainId) | Restore(id: DomainId) | Replace(id: DomainId)

  /** What AddDomain decides from the row it read and from a look at the certificates. */
  function Plan(found: Option<Found>, user: UserId, hasCert: bool, now: int, release: int): AddPlan {
    match found
    case None => AddPlan.Create
    case Some(Found(id, row)) =>
      if !row.deleted then
        if row.userId == user || !Unclaimed(row, hasCert, now, release) then Conflict else Claim(id)
      else if row.userId == user then AddPlan.Restore(id)
      else Replace(id)
  }

  /**
   One AddDomain request: it read at moment `read`, looked for a certificate at `checked`, and
   wrote at step `acted`; a request that replaces a row wrote a second time at step `finished`.
   */
  datatype AddCall = AddCall(
    user: UserId, name: string, target: string, found: Option<Found>, read: nat, checked: nat, acted: nat, finished: nat)

  /** Which plan it is, in terms of the row found. */
  lemma PlanMeaning(found: Option<Found>, user: UserId, hasCert: bool, now: int, release: int)
    ensures var plan := Plan(found, user, hasCert, now, release);
            if found == None then plan == AddPlan.Create
            else
              var id, row := found.value.id, found.value.row;
              var expired := row.cnameVerifiedAt == None || row.updatedAt + release <= now;
              var free := !hasCert && (row.status == Pending || (row.status == Error && expired));
              && (row.deleted && row.userId == user ==> plan == AddPlan.Restore(id))
              && (row.deleted && row.userId != user ==> plan == Replace(id))
              && (!row.deleted && row.userId != user && free ==> plan == Claim(id))
              && (!row.deleted && (row.userId == user || !free) ==> plan.Conflict?)
  {
  }

  function Act(plan: AddPlan, c: AddCall): Handler
    requires !plan.Conflict?
  {
    match plan
    case Create => NewDomain(c.user, c.name, c.target)
    case Claim(id) => ClaimDomain(id, c.user)
    case Restore(id) => RestoreDomain(id)
    case Replace(id) => RemoveDomain(id)
  }

  function PlanOf(run: seq<State>, c: AddCall, release: int): AddPlan
    requires c.checked < |run|
  {
    var s := run[c.checked];
    Plan(c.found, c.user, c.found.Some? && HasCert(s.db, c.found.value.id), s.clock, release)
  }

  ghost predicate IsAddCall(run: seq<State>, steps: seq<Step>, c: AddCall, release: int)
    requires IsRun(run, steps)
  {
    && c.read <= c.checked <= c.acted <= c.finished < |steps|
    && LooksUp(run[c.read].db, c.name, c.found)
    && var plan := PlanOf(run, c, release);
       && !plan.Conflict? && steps[c.acted] == Handle(Act(plan, c))
       && (if plan.Replace? then c.acted < c.finished && steps[c.finished] == Handle(NewDomain(c.user, c.name, c.target))
           else c.finished == c.acted)
  }

  // ---------------------------------------------------------------- whom a request takes a domain from

  /** Step `j` of a request by `user` takes live domain `d` away from its owner, or changes another user's row. */
  predicate TakesAway(run: seq<State>, j: nat, d: DomainId, user: UserId)
    requires j + 1 < |run| && Live(run[j].db, d)
  {
    || !Live(run[j + 1].db, d)
    || run[j + 1].db.domains[d].userId != run[j].db.domains[d].userId
    || (run[j].db.domains[d].userId != user && run[j + 1].db.domains[d] != run[j].db.domains[d])
  }

  /** The domain is unclaimed at the moment of the claim. */
  predicate Rightful(s: State, plan: AddPlan, release: int) {
    plan.Claim? && plan.id in s.db.domains && Unclaimed(s.db.domains[plan.id], HasCert(s.db, plan.id), s.clock, release)
  }

  /** Its owner restored the domain at step `m`, and it has been live ever since. */
  ghost predicate RestoredSince(run: seq<State>, steps: seq<Step>, d: DomainId, m: nat, j: nat)
    requires IsRun(run, steps)
  {
    m < j < |run| && steps[m] == Handle(RestoreDomain(d)) && forall x :: m < x <= j ==> Live(run[x].db, d)
  }

  /** The row was written at step `m`, less than `release` before moment `j`. */
  predicate WrittenLately(run: seq<State>, d: DomainId, m: nat, j: nat, release: int) {
    && m < j < |run| && d in run[m].db.domains && d in run[m + 1].db.domains
    && run[m + 1].db.domains[d] != run[m].db.domains[d] && run[j].clock - run[m].clock < release
  }

  /** A row read as deleted is live exactly when its owner restored it since. */
  lemma LiveAgainIff(run: seq<State>, steps: seq<Step>, i: nat, j: nat, d: DomainId)
    requires IsRun(run, steps) && Init(run[0]) && i <= j < |run|
    requires d in run[i].db.domains && run[i].db.domains[d].deleted
    ensures Live(run[j].db, d) <==> exists m :: i <= m < j && RestoredSince(run, steps, d, m, j)
  {
    hide Next, Enabled;
    if Live(run[j].db, d) {
      RowAlong(run, steps, i, j, d);
      var ps := seq(|run|, x requires 0 <= x < |run| => Live(run[x].db, d));
      var m := LastRise(ps, i, j);
      assert RowStep(run[m], steps[m], run[m + 1], d);
      forall x | m < x <= j ensures Live(run[x].db, d) {
        assert ps[x];
      }
      assert RestoredSince(run, steps, d, m, j);
    }
  }

  lemma {:induction false} WriteShows(run: seq<State>, steps: seq<Step>, i: nat, m: nat, j: nat, d: DomainId)
    requires IsRun(run, steps) && Init(run[0]) && i <= m < j < |run|
    requires d in run[i].db.domains && d in run[j].db.domains
    ensures run[m].clock <= run[j].clock && d in run[m].db.domains && d in run[m + 1].db.domains
    ensures run[m + 1].db.domains[d] != run[m].db.domains[d] ==>
              run[j].db.domains[d].deleted || run[j].db.domains[d].updatedAt >= run[m].clock
    decreases j
  {
    hide Next, Enabled;
    RowAlong(run, steps, i, j, d);
    assert RowStep(run[j - 1], steps[j - 1], run[j], d);
    if m + 1 < j {
      WriteShows(run, steps, i, m, j - 1, d);
    }
  }

  lemma {:induction false} LastWrite(run: seq<State>, steps: seq<Step>, i: nat, j: nat, d: DomainId) returns (m: nat)
    requires IsRun(run, steps) && Init(run[0]) && i <= j < |run|
    requires d in run[i].db.domains && Live(run[j].db, d) && run[j].db.domains[d] != run[i].db.domains[d]
    ensures i <= m < j && d in run[m].db.domains && d in run[m + 1].db.domains
    ensures run[m + 1].db.domains[d] != run[m].db.domains[d] && run[j].db.domains[d].updatedAt == run[m].clock
    decreases j
  {
    hide Next, Enabled;
    RowAlong(run, steps, i, j, d);
    assert RowStep(run[j - 1], steps[j - 1], run[j], d);
    if run[j].db.domains[d] != run[j - 1].db.domains[d] {
      m := j - 1;
    } else {
      m := LastWrite(run, steps, i, j - 1, d);
    }
  }

  /** A claim rechecks the status and the certificates, not the release time. */
  lemma ClaimIsStaleIff(run: seq<State>, steps: seq<Step>, c: AddCall, release: int)
    requires IsRun(run, steps) && Init(run[0]) && IsAddCall(run, steps, c, release)
    requires PlanOf(run, c, release).Claim? && CanAssign(run[c.acted].db, c.found.value.id)
    ensures var s, d := run[c.acted], c.found.value.id;
            !Unclaimed(s.db.domains[d], HasCert(s.db, d), s.clock, release) <==>
              && s.db.domains[d].status == Error && s.db.domains[d].cnameVerifiedAt.Some?
              && exists m :: c.read <= m < c.acted && WrittenLately(run, d, m, c.acted, release)
  {
    hide Next, Enabled;
    var s, d := run[c.acted], c.found.value.id;
    var row := s.db.domains[d];
    ClockMonotone(run, steps, c.checked, c.acted);
    if !Unclaimed(row, HasCert(s.db, d), s.clock, release) {
      assert row != c.found.value.row;
      var m := LastWrite(run, steps, c.read, c.acted, d);
      assert WrittenLately(run, d, m, c.acted, release);
    } else if row.status == Error && row.cnameVerifiedAt.Some? {
      forall m | c.read <= m < c.acted ensures !WrittenLately(run, d, m, c.acted, release) {
        if WrittenLately(run, d, m, c.acted, release) {
          WriteShows(run, steps, c.read, m, c.acted, d);
        }
      }
    }
  }

  /**
   AddDomain takes a live domain away from an owner with a right to it, or changes that row, in
   exactly three cases: it removes a row it read as deleted and that was restored since; it
   claims a row that was written since it was read, so that the owner's release time runs; or it
   restores a row that was restored and then claimed by another user since it was read.
   */
  lemma AddRespectsOwnersIff(run: seq<State>, steps: seq<Step>, c: AddCall, release: int, d: DomainId)
    requires IsRun(run, steps) && Init(run[0]) && IsAddCall(run, steps, c, release) && Live(run[c.acted].db, d)
    ensures var s, row, plan := run[c.acted], run[c.acted].db.domains[d], PlanOf(run, c, release);
            TakesAway(run, c.acted, d, c.user) && !Rightful(s, plan, release) <==>
              || (plan == Replace(d) && exists m :: c.read <= m < c.acted && RestoredSince(run, steps, d, m, c.acted))
              || (&& plan == Claim(d) && CanAssign(s.db, d) && row.userId != c.user
                  && row.status == Error && row.cnameVerifiedAt.Some?
                  && exists m :: c.read <= m < c.acted && WrittenLately(run, d, m, c.acted, release))
              || (&& plan == AddPlan.Restore(d) && row != RestoredRow(row, s.clock)
                  && exists m :: c.read <= m < c.acted && LostSince(run, steps, d, c.user, m, c.acted))
  {
    hide Enabled, LostSince;
    var s, plan := run[c.acted], PlanOf(run, c, release);
    TakesAwayMeans(run, steps, c, release, d);
    if plan == Replace(d) {
      LiveAgainIff(run, steps, c.read, c.acted, d);
    } else if plan == Claim(d) && CanAssign(s.db, d) {
      ClaimIsStaleIff(run, steps, c, release);
    } else if plan == AddPlan.Restore(d) {
      OwnerLostIff(run, steps, c.read, c.acted, d, c.user);
    }
  }

  lemma TakesAwayMeans(run: seq<State>, steps: seq<Step>, c: AddCall, release: int, d: DomainId)
    requires IsRun(run, steps) && Init(run[0]) && IsAddCall(run, steps, c, release) && Live(run[c.acted].db, d)
    ensures var s, row, plan := run[c.acted], run[c.acted].db.domains[d], PlanOf(run, c, release);
            TakesAway(run, c.acted, d, c.user) <==>
              || plan == Replace(d)
              || (plan == Claim(d) && CanAssign(s.db, d) && row.userId != c.user)
              || (plan == AddPlan.Restore(d) && row.userId != c.user && row != RestoredRow(row, s.clock))
  {
    IdBelowNext(run, steps, c.acted, d);
    assert run[c.acted + 1] == Next(run[c.acted], steps[c.acted]);
  }

  /**
   A restore checks nothing: it resets a live row exactly when the row was restored since it was
   read, and ends a lease exactly when a lock after the read still holds.
   */
  lemma RestoreResetsIff(run: seq<State>, steps: seq<Step>, c: AddCall, release: int)
    requires IsRun(run, steps) && Init(run[0]) && IsAddCall(run, steps, c, release)
    requires PlanOf(run, c, release).Restore?
    ensures var before, after, d := run[c.acted].db, run[c.acted + 1].db, c.found.value.id;
            && (Live(before, d) <==> exists m :: c.read <= m < c.acted && RestoredSince(run, steps, d, m, c.acted))
            && (Locked(before, d) <==> exists m :: c.read <= m < c.acted && LeaseFrom(run, steps, d, m, c.acted))
            && (d in before.domains ==> Live(after, d) && after.domains[d] == RestoredRow(before.domains[d], run[c.acted].clock))
  {
    hide Enabled, LeaseFrom, RestoredSince;
    var d := c.found.value.id;
    LiveAgainIff(run, steps, c.read, c.acted, d);
    LeaseSinceIff(run, steps, d, c.read, c.acted);
    assert run[c.acted + 1] == Next(run[c.acted], steps[c.acted]);
  }

  // ---------------------------------------------------------------- what a request ends up with

  /** The last write of the request did something, so the request does not answer with a conflict or an error. */
  predicate Succeeds(run: seq<State>, c: AddCall, release: int)
    requires c.checked < |run| && c.acted < |run| && c.finished < |run|
  {
    match PlanOf(run, c, release)
    case Conflict => false
    case Create => !NameTaken(run[c.finished].db, c.name)
    case Replace(_) => !NameTaken(run[c.finished].db, c.name)
    case Claim(id) => CanAssign(run[c.acted].db, id)
    case Restore(id) => id in run[c.acted].db.domains
  }

  function RowFor(s: State, plan: AddPlan): DomainId {
    match plan
    case Claim(id) => id
    case Restore(id) => id
    case _ => s.db.nextDomain
  }

  /** Another user claimed the row at step `m`, and it has not been `user`'s since. */
  ghost predicate LostSince(run: seq<State>, steps: seq<Step>, d: DomainId, user: UserId, m: nat, j: nat)
    requires IsRun(run, steps)
  {
    && m < j < |run| && steps[m].Handle? && steps[m].handler.ClaimDomain? && steps[m].handler.d == d && CanAssign(run[m].db, d)
    && forall x :: m < x <= j ==> d in run[x].db.domains && run[x].db.domains[d].userId != user
  }

  lemma OwnerLostIff(run: seq<State>, steps: seq<Step>, i: nat, j: nat, d: DomainId, user: UserId)
    requires IsRun(run, steps) && Init(run[0]) && i <= j < |run| && d in run[i].db.domains && d in run[j].db.domains
    requires run[i].db.domains[d].userId == user
    ensures run[j].db.domains[d].userId != user <==> exists m :: i <= m < j && LostSince(run, steps, d, user, m, j)
  {
    hide Next, Enabled, CanAssign;
    if run[j].db.domains[d].userId != user {
      RowAlong(run, steps, i, j, d);
      var ps := seq(|run|, x requires 0 <= x < |run| => d in run[x].db.domains && run[x].db.domains[d].userId != user);
      var m := LastRise(ps, i, j);
      assert RowStep(run[m], steps[m], run[m + 1], d);
      forall x | m < x <= j ensures d in run[x].db.domains && run[x].db.domains[d].userId != user {
        assert ps[x];
      }
      assert LostSince(run, steps, d, user, m, j);
    }
  }

  /** Somebody created the name at step `m`, and it has been taken since. */
  ghost predicate CreatedSince(run: seq<State>, steps: seq<Step>, name: string, m: nat, j: nat)
    requires IsRun(run, steps)
  {
    && m < j < |run| && steps[m].Handle? && steps[m].handler.NewDomain? && steps[m].handler.name == name
    && !NameTaken(run[m].db, name)
    && forall x :: m < x <= j ==> NameTaken(run[x].db, name)
  }

  /** Only creating a row takes a name; only removing one frees it. */
  lemma OpOnName(s: State, op: DbOp, name: string)
    ensures var db, db' := s.db, Apply(s, op);
            && (NameTaken(db', name) && !NameTaken(db, name) ==> op.DoHandler? && op.h.NewDomain? && op.h.name == name)
            && (forall d :: d in db.domains && d !in db'.domains ==> op == DoHandler(RemoveDomain(d)))
  {
    hide HandlerDb, HasCert;
    if op.DoHandler? {
      HandlerOnName(s.db, op.h, s.clock, name);
    } else {
      SameNames(s.db, Apply(s, op), name);
    }
  }

  lemma SameNames(db: Database, db': Database, name: string)
    requires db'.domains.Keys == db.domains.Keys && forall d :: d in db.domains ==> db'.domains[d].name == db.domains[d].name
    ensures NameTaken(db', name) ==> NameTaken(db, name)
  {
    if NameTaken(db', name) {
      var d :| d in db'.domains && db'.domains[d].name == name;
      assert d in db.domains;
    }
  }

  lemma HandlerOnName(db: Database, h: Handler, now: int, name: string)
    ensures var db' := HandlerDb(db, h, now);
            && (NameTaken(db', name) && !NameTaken(db, name) ==> h.NewDomain? && h.name == name)
            && (forall d :: d in db.domains && d !in db'.domains ==> h == RemoveDomain(d))
  {
    hide HasCert;
    if NameTaken(HandlerDb(db, h, now), name) {
      var d :| d in HandlerDb(db, h, now).domains && HandlerDb(db, h, now).domains[d].name == name;
    }
  }

  lemma StepOnName(s: State, a: Step, name: string)
    requires Enabled(s, a)
    ensures NameTaken(Next(s, a).db, name) && !NameTaken(s.db, name) ==>
              a.Handle? && a.handler.NewDomain? && a.handler.name == name
    ensures forall d :: d in s.db.domains && d !in Next(s, a).db.domains ==> a == Handle(RemoveDomain(d))
  {
    hide Next;
    StepIsOp(s, a);
    OpOnName(s, OpOf(s, a), name);
  }

  /** The name is taken by a row other than `d`, which is gone. */
  predicate TakenByOther(db: Database, name: string, d: DomainId) {
    d !in db.domains && NameTaken(db, name)
  }

  lemma RemovalFrees(s: State, d: DomainId, name: string)
    requires DbOk(s.db) && d in s.db.domains && s.db.domains[d].name == name
    ensures !NameTaken(Remove(s.db, d), name)
  {
  }

  /** Once the row that carried the name is gone, the name is taken exactly when somebody created it since. */
  lemma NameTakenIff(run: seq<State>, steps: seq<Step>, i: nat, j: nat, name: string, d: DomainId)
    requires IsRun(run, steps) && Init(run[0]) && i < j < |run| && d < run[i].db.nextDomain
    requires if d in run[i].db.domains then run[i].db.domains[d].name == name else !NameTaken(run[i].db, name)
    requires d !in run[j].db.domains
    ensures NameTaken(run[j].db, name) <==> exists m :: i <= m < j && CreatedSince(run, steps, name, m, j)
  {
    hide Next, Enabled, NameTaken, DbOk;
    if NameTaken(run[j].db, name) {
      var ps := seq(|run|, x requires 0 <= x < |run| => TakenByOther(run[x].db, name, d));
      var m := LastRise(ps, i, j);
      assert !ps[m] && ps[m + 1];
      TakenStep(run, steps, i, m, name, d);
      forall x | m < x <= j ensures NameTaken(run[x].db, name) {
        assert ps[x];
      }
      assert CreatedSince(run, steps, name, m, j);
    }
  }

  lemma TakenStep(run: seq<State>, steps: seq<Step>, i: nat, m: nat, name: string, d: DomainId)
    requires IsRun(run, steps) && Init(run[0]) && i <= m < |steps|
    requires if d in run[i].db.domains then run[i].db.domains[d].name == name else !NameTaken(run[i].db, name)
    requires d < run[i].db.nextDomain
    requires !TakenByOther(run[m].db, name, d) && TakenByOther(run[m + 1].db, name, d)
    ensures !NameTaken(run[m].db, name)
    ensures steps[m].Handle? && steps[m].handler.NewDomain? && steps[m].handler.name == name
  {
    hide Enabled, NameTaken;
    StepOnName(run[m], steps[m], name);
    RowInvariant(run, steps, m);
    if d in run[m].db.domains {
      BackInTime(run, steps, i, m, d);
      RowAlong(run, steps, i, m, d);
      assert run[m + 1] == Next(run[m], steps[m]);
      RemovalFrees(run[m], d, name);
    }
  }

  /** A row whose id was already given out at `i` was there at `i`. */
  lemma {:induction false} BackInTime(run: seq<State>, steps: seq<Step>, i: nat, m: nat, d: DomainId)
    requires IsRun(run, steps) && i <= m < |run| && d < run[i].db.nextDomain && d in run[m].db.domains
    ensures d in run[i].db.domains
    decreases m
  {
    hide Next, Enabled;
    if i < m {
      NextDomainGrows(run, steps, i, m - 1);
      StepOnRow(run[m - 1], steps[m - 1], d);
      assert run[m - 1 + 1] == Next(run[m - 1], steps[m - 1]);
      BackInTime(run, steps, i, m - 1, d);
    }
  }

  /** What the last write of a request leaves under its row. */
  lemma LastWriteLeaves(run: seq<State>, steps: seq<Step>, c: AddCall, release: int)
    requires IsRun(run, steps) && IsAddCall(run, steps, c, release)
    ensures var plan, before, after := PlanOf(run, c, release), run[c.finished].db, run[c.finished + 1].db;
            var id := RowFor(run[c.finished], plan);
            if Succeeds(run, c, release) then
              && Live(after, id)
              && (if plan.Create? || plan.Replace? then after.domains[id].name == c.name && after.domains[id].userId == c.user
                  else id in before.domains && after.domains[id].name == before.domains[id].name
                       && after.domains[id].userId == (if plan.Claim? then c.user else before.domains[id].userId))
            else after == before
  {
    assert run[c.finished + 1] == Next(run[c.finished], steps[c.finished]);
  }

  /**
   A request succeeds exactly when: it creates or replaces, and nobody created the name since
   it looked; it claims, and the row may still be assigned; it restores, and the row is still
   there. It then leaves the caller owning a live row with the name, except that a restore gives
   nothing back exactly when another user claimed the row since it was read. A request that fails
   changes nothing with its last write, although one that replaces removed the old row before.
   */
  lemma AddOutcomeIff(run: seq<State>, steps: seq<Step>, c: AddCall, release: int)
    requires IsRun(run, steps) && Init(run[0]) && IsAddCall(run, steps, c, release)
    ensures var plan := PlanOf(run, c, release);
            Succeeds(run, c, release) <==>
              if plan.Claim? then CanAssign(run[c.acted].db, plan.id)
              else if plan.Restore? then plan.id in run[c.acted].db.domains
              else !exists m :: c.read <= m < c.finished && CreatedSince(run, steps, c.name, m, c.finished)
    ensures var plan, after := PlanOf(run, c, release), run[c.finished + 1].db;
            var id := RowFor(run[c.finished], plan);
            if Succeeds(run, c, release) then
              && Live(after, id) && after.domains[id].name == c.name
              && (after.domains[id].userId == c.user <==>
                    !(plan.Restore? && exists m :: c.read <= m < c.acted && LostSince(run, steps, id, c.user, m, c.acted)))
            else after == run[c.finished].db && (plan.Replace? ==> plan.id !in after.domains)
  {
    hide Next, Enabled, LostSince, CreatedSince;
    LastWriteLeaves(run, steps, c, release);
    match PlanOf(run, c, release) {
      case Create => FreshName(run, steps, c);
      case Replace(id) => ReplacedName(run, steps, c, release);
      case Claim(id) => KeepsName(run, steps, c, id);
      case Restore(id) =>
        KeepsName(run, steps, c, id);
        if id in run[c.acted].db.domains {
          OwnerLostIff(run, steps, c.read, c.acted, id, c.user);
        }
      case _ =>
    }
  }

  lemma KeepsName(run: seq<State>, steps: seq<Step>, c: AddCall, id: DomainId)
    requires IsRun(run, steps) && Init(run[0]) && c.read <= c.acted < |run| && id in run[c.read].db.domains
    ensures id in run[c.acted].db.domains ==> run[c.acted].db.domains[id].name == run[c.read].db.domains[id].name
  {
    hide Next, Enabled;
    if id in run[c.acted].db.domains {
      RowAlong(run, steps, c.read, c.acted, id);
    }
  }

  lemma {:induction false} FreshName(run: seq<State>, steps: seq<Step>, c: AddCall)
    requires IsRun(run, steps) && c.read <= c.finished < |run| && !NameTaken(run[c.read].db, c.name)
    ensures NameTaken(run[c.finished].db, c.name) <==>
              exists m :: c.read <= m < c.finished && CreatedSince(run, steps, c.name, m, c.finished)
  {
    hide Next, Enabled, NameTaken;
    if NameTaken(run[c.finished].db, c.name) {
      var ps := seq(|run|, x requires 0 <= x < |run| => NameTaken(run[x].db, c.name));
      var m := LastRise(ps, c.read, c.finished);
      assert !ps[m] && ps[m + 1];
      StepOnName(run[m], steps[m], c.name);
      forall x | m < x <= c.finished ensures NameTaken(run[x].db, c.name) {
        assert ps[x];
      }
      assert CreatedSince(run, steps, c.name, m, c.finished);
    }
  }

  lemma ReplacedName(run: seq<State>, steps: seq<Step>, c: AddCall, release: int)
    requires IsRun(run, steps) && Init(run[0]) && IsAddCall(run, steps, c, release) && PlanOf(run, c, release).Replace?
    ensures c.found.value.id !in run[c.finished].db.domains && PlanOf(run, c, release) == Replace(c.found.value.id)
    ensures NameTaken(run[c.finished].db, c.name) <==>
              exists m :: c.read <= m < c.finished && CreatedSince(run, steps, c.name, m, c.finished)
  {
    hide Enabled, CreatedSince, NameTaken;
    var d := c.found.value.id;
    IdBelowNext(run, steps, c.read, d);
    assert d !in run[c.acted + 1].db.domains by {
      assert run[c.acted + 1] == Next(run[c.acted], steps[c.acted]);
    }
    if d in run[c.finished].db.domains {
      NextDomainGrows(run, steps, c.read, c.acted + 1);
      BackInTime(run, steps, c.acted + 1, c.finished, d);
    }
    NameTakenIff(run, steps, c.read, c.finished, c.name, d);
  }
}
