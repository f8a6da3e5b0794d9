/** What an attempt hands over to its worker, and what its steps write. */
module Handover {
  import opened Options
  import opened Rows
  import RowEffects
  import ProtocolInvariant
  import opened Protocol
  import opened Leases
  import opened Origins
  import opened RenewalRate

  /** The attempt has read its row under lockDomainForCertJob. */
  predicate HasRead(pc: StarterPc) {
    !pc.Prepare? && !pc.LockCert? && !pc.LockRow?
  }

  /** The attempt has found the owner of its row. */
  predicate HasUser(pc: StarterPc) {
    pc.AcquireSlot? || pc.Refuse? || pc.BeginCancel? || pc.BeginWait? || pc.BeginRegister? || pc.Spawn?
  }

  lemma OwnerStep(s: State, a: Step, r: StarterId)
    requires Enabled(s, a) && r in s.starters && r in Next(s, a).starters
    ensures var st, st', d := s.starters[r], Next(s, a).starters[r], s.starters[r].domain;
            && st'.domain == d
            && (HasRead(st'.pc) ==>
                  if HasRead(st.pc) then st'.owner == st.owner
                  else Live(s.db, d) && st'.owner == s.db.domains[d].userId)
            && (HasUser(st'.pc) ==> HasUser(st.pc) || st.owner in s.db.users)
  {
  }

  /** The owner an attempt carries is that of the live row it read, and existed when it looked the owner up. */
  lemma {:induction false} OwnerAlong(run: seq<State>, steps: seq<Step>, p: nat, j: nat, r: StarterId) returns (m: nat, n: nat)
    requires IsRun(run, steps) && UnderWay(run, steps, p, j, r)
    ensures run[j].starters[r].domain == steps[p].d
    ensures HasRead(run[j].starters[r].pc) ==>
              p < m < j && Live(run[m].db, steps[p].d) && run[m].db.domains[steps[p].d].userId == run[j].starters[r].owner
    ensures HasUser(run[j].starters[r].pc) ==> p < n < j && run[j].starters[r].owner in run[n].db.users
    decreases j
  {
    hide Next, Enabled, HasUser, HasRead, Live;
    m, n := p, p;
    if j == p + 1 {
      ArrivedAtStart(run[p], steps[p]);
      ArrivedAs(run[p], steps[p]);
      NothingYet(run[j].starters[r].pc);
    } else {
      m, n := OwnerAlong(run, steps, p, j - 1, r);
      assert r in run[j].starters;
      OwnerStep(run[j - 1], steps[j - 1], r);
      UserMeansRead(run[j].starters[r].pc);
      UserMeansRead(run[j - 1].starters[r].pc);
      if HasRead(run[j].starters[r].pc) && !HasRead(run[j - 1].starters[r].pc) {
        m := j - 1;
      }
      if HasUser(run[j].starters[r].pc) && !HasUser(run[j - 1].starters[r].pc) {
        UserStep(run[j - 1], steps[j - 1], r);
        n := j - 1;
      }
    }
  }

  lemma NothingYet(pc: StarterPc)
    requires pc == Prepare
    ensures !HasRead(pc) && !HasUser(pc)
  {
  }

  lemma UserMeansRead(pc: StarterPc)
    ensures HasUser(pc) ==> HasRead(pc)
  {
  }

  lemma UserStep(s: State, a: Step, r: StarterId)
    requires Enabled(s, a) && r in s.starters && r in Next(s, a).starters
    requires HasUser(Next(s, a).starters[r].pc) && !HasUser(s.starters[r].pc)
    ensures HasRead(s.starters[r].pc)
  {
  }

  /**
   A worker runs for the name and the target of the row its attempt read on arrival, and for the
   owner of the live row it read again before the lock, who existed after the lock.
   */
  lemma WorkerInherits(run: seq<State>, steps: seq<Step>, k: nat, t: Token, at: Attempt) returns (m: nat, n: nat)
    requires IsRun(run, steps) && Init(run[0]) && AttemptOf(run, steps, k, t, at)
    ensures var w := run[k].workers[t];
            && w.domain in run[at.arrived].db.domains
            && w.name == run[at.arrived].db.domains[w.domain].name
            && w.cnameTarget == run[at.arrived].db.domains[w.domain].cnameTarget
            && at.arrived < m < at.spawned && Live(run[m].db, w.domain) && run[m].db.domains[w.domain].userId == w.user
            && at.arrived < n < at.spawned && w.user in run[n].db.users
  {
    hide Next, Enabled, Passes;
    m, n := OwnerAlong(run, steps, at.arrived, at.spawned, at.r);
    SnapshotStands(run, steps, at.arrived, at.spawned, at.r);
    Arrives(run[at.arrived], steps[at.arrived]);
    Spawns(run[at.spawned], steps[at.spawned], t);
    WorkerStays(run, steps, at.spawned + 1, k, t);
  }

  lemma Arrives(s: State, a: Step)
    requires Enabled(s, a) && a.Arrive?
    ensures a.d in s.db.domains
  {
  }

  lemma Spawns(s: State, a: Step, t: Token)
    requires Enabled(s, a) && a.Start? && s.starters[a.r].pc == Spawn(t)
    ensures t in Next(s, a).workers
    ensures var st, w := s.starters[a.r], Next(s, a).workers[t];
            w.domain == st.domain && w.name == st.snapshot.name && w.cnameTarget == st.snapshot.cnameTarget && w.user == st.owner
  {
  }

  predicate SameJob(w: Worker, w': Worker) {
    w'.domain == w.domain && w'.name == w.name && w'.cnameTarget == w.cnameTarget && w'.user == w.user
  }

  lemma {:induction false} WorkerStays(run: seq<State>, steps: seq<Step>, i: nat, k: nat, t: Token)
    requires IsRun(run, steps) && Init(run[0]) && i <= k < |run| && t in run[i].workers && t in run[k].workers
    ensures SameJob(run[i].workers[t], run[k].workers[t])
    decreases k
  {
    hide Next, Enabled, ProtocolInvariant.Ok;
    if i < k {
      RankNeverFalls(run, steps, i, k - 1, t);
      WorkerStays(run, steps, i, k - 1, t);
      ProtocolInvariant.RunOk(run, steps, k - 1);
      KeepsJob(run[k - 1], steps[k - 1], t);
    }
  }

  lemma KeepsJob(s: State, a: Step, t: Token)
    requires ProtocolInvariant.Ok(s) && Enabled(s, a) && t in s.workers
    ensures t in Next(s, a).workers && SameJob(s.workers[t], Next(s, a).workers[t])
  {
    hide ProtocolInvariant.TokensOk, ProtocolInvariant.CountsOk;
  }

  // ---------------------------------------------------------------- what an attempt writes

  /** `db'` is what a step of attempt `st` leaves of the tables. */
  predicate Writes(s: State, st: Starter, ok: bool, db': Database) {
    var db, d := s.db, st.domain;
    match st.pc
    case Prepare =>
      if ok && !st.auto && !st.renew && st.snapshot.cnameTarget != "" && st.snapshot.status != Verified && Live(db, d)
         && forall c :: c in db.certs ==> db.certs[c].domainId != d
      then RowEffects.OnlyRow(db, db', d) && db'.domains[d].status == Verified && db'.domains[d].cnameVerifiedAt == Some(s.clock)
      else db' == db
    case LockUpdate(lockTime) =>
      if CanLock(db, d, lockTime - s.cfg.timeout)
      then RowEffects.OnlyRow(db, db', d) && Locked(db', d) && db'.domains[d].generatingSince == Some(lockTime)
      else db' == db
    case LoadUser =>
      if st.owner in db.users || !Live(db, d) then db' == db
      else RowEffects.OnlyRow(db, db', d) && db'.domains[d].status == Error && db'.domains[d].errorMessage == "user not found"
    case Refuse =>
      if Locked(db, d) then RowEffects.OnlyRow(db, db', d) && db'.domains[d].status != Generating else db' == db
    case _ => db' == db
  }

  /**
   What the steps of an attempt write: a request that may issue marks a row verified that it read
   as not verified and that has no certificate; the lock; an error when the owner is gone; the
   rollback when there is no slot; nothing else.
   */
  lemma AttemptWrites(s: State, r: StarterId, ok: bool)
    requires StartEnabled(s, r, ok)
    ensures Writes(s, s.starters[r], ok, Next(s, Start(r, ok)).db)
  {
    hide Writes, StartDb;
    DbOfStart(s, r, ok);
    StartWrites(s, s.starters[r], ok);
  }

  lemma DbOfStart(s: State, r: StarterId, ok: bool)
    requires StartEnabled(s, r, ok)
    ensures Next(s, Start(r, ok)).db == StartDb(s, s.starters[r], ok)
  {
    hide StartDb;
  }

  lemma StartWrites(s: State, st: Starter, ok: bool)
    ensures Writes(s, st, ok, StartDb(s, st, ok))
  {
  }
}
