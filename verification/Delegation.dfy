/**
 The delegation TXT records of services/delegation_dns.go, which answer the DNS challenge of
 section 8.4 of RFC 8555. One record id is tracked per delegation target; each ACME job has a
 provider that remembers the records it presented. The remote DNS service is a map of live
 records with fresh ids whose create and delete calls may fail, possibly after taking effect.
 */
module Delegation {
  import opened Options
  import opened Sets

  type Id = nat
  type Name = string
  type ChallengeToken = string
  type Job = nat

  datatype DeleteOutcome = Deleted | DeleteFailed(gone: bool)
  datatype CreateOutcome = Created | CreateFailed(made: bool)

  /** Results of the three liveness checks inside a replacement. */
  datatype Guards = Guards(beforeLock: bool, afterLock: bool, afterDelete: bool)

  /**
   `leaked` collects the records nobody tracks any more: one for each failed delete inside a
   replacement that left its record behind, one for each create that failed after taking effect.
   */
  datatype Zone = Zone(
    live: map<Id, Name>,
    nextId: Id,
    tracked: map<Name, Id>,
    leaked: set<Id>,
    failedDeletes: nat,
    halfCreates: nat)

  function AfterDelete(z: Zone, id: Id, outcome: DeleteOutcome): Zone {
    if outcome == DeleteFailed(false) then z else z.(live := z.live - {id})
  }

  /** Forget the tracked record of `target`, after one attempt to delete it. */
  function Dropped(z: Zone, target: Name, del: DeleteOutcome): Zone {
    if target !in z.tracked then z
    else
      var id := z.tracked[target];
      var z1 := AfterDelete(z, id, del);
      z1.(tracked := z.tracked - {target},
          leaked := if id in z1.live then z.leaked + {id} else z.leaked,
          failedDeletes := if del.DeleteFailed? then z.failedDeletes + 1 else z.failedDeletes)
  }

  function AfterReplace(z: Zone, target: Name, g: Guards, del: DeleteOutcome, cre: CreateOutcome): Zone {
    if !g.beforeLock || !g.afterLock then z
    else
      var z1 := Dropped(z, target, del);
      if !g.afterDelete then z1
      else AfterCreate(z1, target, cre)
  }

  /** One attempt to create the record of `target`, tracked when it is reported to exist. */
  function AfterCreate(z: Zone, target: Name, cre: CreateOutcome): Zone {
    match cre
    case Created =>
      z.(live := z.live[z.nextId := target], nextId := z.nextId + 1, tracked := z.tracked[target := z.nextId])
    case CreateFailed(made) =>
      if !made then z
      else z.(live := z.live[z.nextId := target], nextId := z.nextId + 1,
              leaked := z.leaked + {z.nextId}, halfCreates := z.halfCreates + 1)
  }

  predicate ReplaceSucceeds(g: Guards, cre: CreateOutcome) {
    g.beforeLock && g.afterLock && g.afterDelete && cre == Created
  }

  function AfterRelease(z: Zone, target: Name, id: Id, del: DeleteOutcome): Zone {
    if target !in z.tracked || z.tracked[target] != id then z
    else
      var z1 := AfterDelete(z, id, del);
      if del == Deleted then z1.(tracked := z.tracked - {target}) else z1
  }

  // ---------------------------------------------------------------- what the operations mean

  /**
   A replacement refused before or after the lock does nothing. Otherwise it makes one attempt to
   delete the tracked record of its target and forgets it, and unless refused then makes one
   attempt to create a new one, which it tracks when told that it exists. Other targets stay.
   */
  lemma ReplaceMeaning(z: Zone, target: Name, g: Guards, del: DeleteOutcome, cre: CreateOutcome)
    requires target in z.tracked ==> z.tracked[target] < z.nextId
    ensures var z' := AfterReplace(z, target, g, del, cre);
            && (!g.beforeLock || !g.afterLock ==> z' == z)
            && (!g.afterDelete || cre == CreateFailed(false) ==> z'.nextId == z.nextId && forall id :: id in z'.live ==> id in z.live)
            && (forall t :: t != target ==> (t in z'.tracked <==> t in z.tracked) && (t in z.tracked ==> z'.tracked[t] == z.tracked[t]))
            && (forall id :: id in z.live && id != z.nextId ==>
                  if id in z'.live then z'.live[id] == z.live[id]
                  else target in z.tracked && z.tracked[target] == id && del != DeleteFailed(false))
            && (g.beforeLock && g.afterLock && target in z.tracked && del != DeleteFailed(false) ==> z.tracked[target] !in z'.live)
            && (g.beforeLock && g.afterLock ==>
                  if g.afterDelete && cre == Created
                  then target in z'.tracked && z'.tracked[target] == z.nextId && z.nextId in z'.live && z'.live[z.nextId] == target
                       && z'.nextId == z.nextId + 1
                  else target !in z'.tracked)
            && (g.beforeLock && g.afterLock && g.afterDelete && cre == CreateFailed(true) ==>
                  z.nextId in z'.live && z'.live[z.nextId] == target && z.nextId in z'.leaked && z'.nextId == z.nextId + 1)
    ensures ReplaceSucceeds(g, cre) <==> g == Guards(true, true, true) && cre == Created
  {
  }

  /** A release of any other record than the tracked one does nothing; the record stays tracked unless its delete works. */
  lemma ReleaseMeaning(z: Zone, target: Name, id: Id, del: DeleteOutcome)
    ensures var z' := AfterRelease(z, target, id, del);
            && (target !in z.tracked || z.tracked[target] != id ==> z' == z)
            && z'.nextId == z.nextId && z'.leaked == z.leaked && z'.failedDeletes == z.failedDeletes && z'.halfCreates == z.halfCreates
            && (target in z.tracked && z.tracked[target] == id ==>
                  && (forall x :: x in z'.live <==> x in z.live && (x != id || del == DeleteFailed(false)))
                  && (forall x :: x in z'.live ==> z'.live[x] == z.live[x])
                  && (forall t :: t in z'.tracked <==> t in z.tracked && (t != target || del != Deleted))
                  && (forall t :: t in z'.tracked ==> z'.tracked[t] == z.tracked[t]))
  {
  }

  // ---------------------------------------------------------------- the code on objects

  class DelegationZone {
    var live: map<Id, Name>
    var nextId: Id
    var tracked: map<Name, Id>
    var leaked: set<Id>
    var failedDeletes: nat
    var halfCreates: nat

    function Value(): Zone reads this {
      Zone(live, nextId, tracked, leaked, failedDeletes, halfCreates)
    }

    method DeleteTXT(id: Id, outcome: DeleteOutcome) returns (ok: bool)
      modifies this
      ensures Value() == AfterDelete(old(Value()), id, outcome)
      ensures ok == outcome.Deleted?
    {
      if outcome == Deleted || outcome.gone {
        live := live - {id};
      }
      ok := outcome.Deleted?;
    }

    method CreateTXT(target: Name, outcome: CreateOutcome) returns (id: Option<Id>)
      modifies this
      ensures outcome == Created ==>
                id == Some(old(nextId)) && Value() == old(Value()).(live := old(live)[old(nextId) := target], nextId := old(nextId) + 1)
      ensures outcome.CreateFailed? ==> id == None
      ensures outcome == CreateFailed(false) ==> Value() == old(Value())
      ensures outcome == CreateFailed(true) ==>
                Value() == old(Value()).(live := old(live)[old(nextId) := target], nextId := old(nextId) + 1,
                                         leaked := old(leaked) + {old(nextId)}, halfCreates := old(halfCreates) + 1)
    {
      if outcome == Created {
        live, nextId, id := live[nextId := target], nextId + 1, Some(nextId);
      } else {
        if outcome.made {
          live, nextId, leaked, halfCreates := live[nextId := target], nextId + 1, leaked + {nextId}, halfCreates + 1;
        }
        id := None;
      }
    }

    method ReplaceDelegationTXT(target: Name, g: Guards, del: DeleteOutcome, cre: CreateOutcome) returns (id: Option<Id>)
      modifies this
      ensures Value() == AfterReplace(old(Value()), target, g, del, cre)
      ensures id == if ReplaceSucceeds(g, cre) then Some(old(nextId)) else None
    {
      if !g.beforeLock {
        return None;
      }
      if !g.afterLock {
        return None;
      }
      if target in tracked {
        var previous := tracked[target];
        var ok := DeleteTXT(previous, del);
        if !ok {
          failedDeletes := failedDeletes + 1;
        }
        if previous in live {
          leaked := leaked + {previous};
        }
        tracked := tracked - {target};
      }
      if !g.afterDelete {
        return None;
      }
      id := CreateTXT(target, cre);
      if id.Some? {
        tracked := tracked[target := id.value];
      }
    }

    method ReleaseDelegationTXT(target: Name, id: Id, del: DeleteOutcome) returns (ok: bool)
      modifies this
      ensures Value() == AfterRelease(old(Value()), target, id, del)
      ensures !ok <==> target in old(tracked) && old(tracked)[target] == id && del.DeleteFailed?
    {
      if target !in tracked || tracked[target] != id {
        return true;
      }
      ok := DeleteTXT(id, del);
      if !ok {
        return false;
      }
      tracked := tracked - {target};
    }
  }

  datatype Held = Held(id: Id, target: Name)

  class DelegationDNSProvider {
    const zone: DelegationZone
    var recordIDs: map<ChallengeToken, Id>
    var targetNames: map<ChallengeToken, Name>

    ghost predicate Valid() reads this { recordIDs.Keys == targetNames.Keys }

    function Records(): map<ChallengeToken, Held>
      requires Valid()
      reads this
    {
      map t | t in recordIDs :: Held(recordIDs[t], targetNames[t])
    }

    constructor (zone: DelegationZone)
      ensures this.zone == zone && Valid() && Records() == map[]
    {
      this.zone := zone;
      recordIDs, targetNames := map[], map[];
    }

    /** `lookup` is the domain's delegation target, if it has one. */
    method Present(token: ChallengeToken, active: bool, lookup: Option<Name>, g: Guards, del: DeleteOutcome, cre: CreateOutcome)
      returns (ok: bool)
      requires Valid()
      modifies this, zone
      ensures Valid()
      ensures ok <==> active && lookup.Some? && ReplaceSucceeds(g, cre)
      ensures zone.Value() == if active && lookup.Some? then AfterReplace(old(zone.Value()), lookup.value, g, del, cre) else old(zone.Value())
      ensures Records() == if ok then old(Records())[token := Held(old(zone.nextId), lookup.value)] else old(Records())
    {
      if !active {
        return false;
      }
      if lookup.None? {
        return false;
      }
      var id := zone.ReplaceDelegationTXT(lookup.value, g, del, cre);
      if id.None? {
        return false;
      }
      recordIDs := recordIDs[token := id.value];
      targetNames := targetNames[token := lookup.value];
      return true;
    }

    method CleanUp(token: ChallengeToken, del: DeleteOutcome) returns (ok: bool)
      requires Valid()
      modifies this, zone
      ensures Valid()
      ensures Records() == old(Records()) - {token}
      ensures token !in old(Records()) ==> ok && zone.Value() == old(zone.Value())
      ensures token in old(Records()) ==>
                var h := old(Records())[token];
                !ok <==> h.target in old(zone.tracked) && old(zone.tracked)[h.target] == h.id && del.DeleteFailed?
      ensures token in old(Records()) ==>
                var h := old(Records())[token];
                zone.Value() == AfterRelease(old(zone.Value()), h.target, h.id, del)
    {
      if token !in recordIDs {
        return true;
      }
      var id, target := recordIDs[token], targetNames[token];
      recordIDs := recordIDs - {token};
      targetNames := targetNames - {token};
      ok := zone.ReleaseDelegationTXT(target, id, del);
    }
  }

  // ---------------------------------------------------------------- interleavings of many jobs

  datatype Origin = Origin(job: Job, target: Name)
  datatype Pending = Recording(job: Job, token: ChallengeToken, held: Held) | Releasing(job: Job, held: Held)

  /** The zone, every job's provider, the calls between two of their steps, and who made each record. */
  datatype World = World(
    zone: Zone,
    held: map<(Job, ChallengeToken), Held>,
    calls: map<nat, Pending>,
    origin: map<Id, Origin>)

  /** One mutex section of some call; `call` names a call that is between two sections. */
  datatype Step =
    | PresentReplace(call: nat, job: Job, token: ChallengeToken, target: Name, g: Guards, del: DeleteOutcome, cre: CreateOutcome)
    | PresentRecord(call: nat)
    | CleanUpTake(call: nat, job: Job, token: ChallengeToken)
    | CleanUpRelease(call: nat, del: DeleteOutcome)

  function After(w: World, s: Step): World {
    match s
    case PresentReplace(call, job, token, target, g, del, cre) =>
      if call in w.calls then w
      else
        var z := AfterReplace(w.zone, target, g, del, cre);
        var id := w.zone.nextId;
        World(z, w.held,
              if ReplaceSucceeds(g, cre) then w.calls[call := Recording(job, token, Held(id, target))] else w.calls,
              Extended(w.origin, w.zone, z, Origin(job, target)))
    case PresentRecord(call) =>
      if call in w.calls && w.calls[call].Recording? then
        var c := w.calls[call];
        w.(held := w.held[(c.job, c.token) := c.held], calls := w.calls - {call})
      else w
    case CleanUpTake(call, job, token) =>
      if call !in w.calls && (job, token) in w.held then
        w.(held := w.held - {(job, token)}, calls := w.calls[call := Releasing(job, w.held[(job, token)])])
      else w
    case CleanUpRelease(call, del) =>
      if call in w.calls && w.calls[call].Releasing? then
        var h := w.calls[call].held;
        w.(zone := AfterRelease(w.zone, h.target, h.id, del), calls := w.calls - {call})
      else w
  }

  function AfterAll(w: World, steps: seq<Step>): World
    decreases |steps|
  {
    if steps == [] then w else AfterAll(After(w, steps[0]), steps[1..])
  }

  const Start := World(Zone(map[], 0, map[], {}, 0, 0), map[], map[], map[])

  // ---------------------------------------------------------------- the invariant

  ghost predicate ZoneOk(z: Zone) {
    && (forall id :: id in z.live ==> id < z.nextId)
    && (forall id :: id in z.leaked ==> id < z.nextId)
    && (forall t :: t in z.tracked ==> z.tracked[t] < z.nextId && z.tracked[t] !in z.leaked)
    && (forall id :: id in z.live && id !in z.leaked ==> z.live[id] in z.tracked && z.tracked[z.live[id]] == id)
    && |z.leaked| <= z.failedDeletes + z.halfCreates
  }

  /** Records are created once, for one target. */
  ghost predicate OriginsOk(z: Zone, origin: map<Id, Origin>) {
    && (forall id: Id :: id in origin <==> id < z.nextId)
    && (forall t :: t in z.tracked ==> z.tracked[t] in origin && origin[z.tracked[t]].target == t)
    && (forall id :: id in z.live ==> id in origin && origin[id].target == z.live[id])
  }

  ghost predicate OwnedBy(origin: map<Id, Origin>, job: Job, h: Held) {
    h.id in origin && origin[h.id] == Origin(job, h.target)
  }

  /** A job only ever holds, records or releases what it created itself. */
  ghost predicate HoldersOk(w: World) {
    && (forall k :: k in w.held ==> OwnedBy(w.origin, k.0, w.held[k]))
    && (forall c :: c in w.calls ==> OwnedBy(w.origin, w.calls[c].job, w.calls[c].held))
  }

  ghost predicate Ok(w: World) { ZoneOk(w.zone) && OriginsOk(w.zone, w.origin) && HoldersOk(w) }

  lemma DroppedKeepsZoneOk(w: World, target: Name, del: DeleteOutcome)
    requires Ok(w)
    ensures ZoneOk(Dropped(w.zone, target, del))
    ensures Dropped(w.zone, target, del).nextId == w.zone.nextId
    ensures target !in Dropped(w.zone, target, del).tracked
  {
    var z, z1 := w.zone, Dropped(w.zone, target, del);
    if target in z.tracked {
      var id := z.tracked[target];
      assert |z.leaked + {id}| == |z.leaked| + 1;
      forall i | i in z1.live && i !in z1.leaked
        ensures z1.live[i] in z1.tracked && z1.tracked[z1.live[i]] == i
      {
        assert i != id;
      }
      forall t | t in z1.tracked ensures z1.tracked[t] !in z1.leaked {
        assert w.origin[z.tracked[t]].target == t;
      }
    }
  }

  lemma CreateKeepsZoneOk(z: Zone, target: Name, cre: CreateOutcome)
    requires ZoneOk(z) && target !in z.tracked
    ensures ZoneOk(AfterCreate(z, target, cre))
  {
    assert |z.leaked + {z.nextId}| == |z.leaked| + 1;
  }

  lemma DroppedShrinks(z: Zone, target: Name, del: DeleteOutcome)
    ensures var z1 := Dropped(z, target, del);
            && (forall id :: id in z1.live ==> id in z.live && z1.live[id] == z.live[id])
            && (forall t :: t in z1.tracked ==> t in z.tracked && z1.tracked[t] == z.tracked[t])
            && z1.nextId == z.nextId
  {
  }

  function Extended(origin: map<Id, Origin>, z: Zone, z': Zone, made: Origin): map<Id, Origin> {
    if z.nextId < z'.nextId then origin[z.nextId := made] else origin
  }

  lemma CreateKeepsOrigins(z: Zone, origin: map<Id, Origin>, job: Job, target: Name, cre: CreateOutcome)
    requires OriginsOk(z, origin)
    ensures var z' := AfterCreate(z, target, cre);
            OriginsOk(z', Extended(origin, z, z', Origin(job, target)))
  {
  }

  lemma HoldersKeep(w: World, w': World)
    requires HoldersOk(w)
    requires forall id :: id in w.origin ==> id in w'.origin && w'.origin[id] == w.origin[id]
    requires w'.held == w.held
    requires forall c :: c in w'.calls ==> (c in w.calls && w'.calls[c] == w.calls[c]) || OwnedBy(w'.origin, w'.calls[c].job, w'.calls[c].held)
    ensures HoldersOk(w')
  {
  }

  lemma ReplaceKeepsOk(w: World, s: Step)
    requires Ok(w) && s.PresentReplace?
    ensures Ok(After(w, s))
  {
    if s.call !in w.calls {
      var z1 := Dropped(w.zone, s.target, s.del);
      DroppedKeepsZoneOk(w, s.target, s.del);
      DroppedShrinks(w.zone, s.target, s.del);
      assert OriginsOk(z1, w.origin);
      CreateKeepsZoneOk(z1, s.target, s.cre);
      CreateKeepsOrigins(z1, w.origin, s.job, s.target, s.cre);
      var w' := After(w, s);
      assert w'.origin == Extended(w.origin, w.zone, w'.zone, Origin(s.job, s.target));
      HoldersKeep(w, w');
    }
  }

  lemma StepKeepsOk(w: World, s: Step)
    requires Ok(w)
    ensures Ok(After(w, s))
  {
    match s {
      case PresentReplace(_, _, _, _, _, _, _) => ReplaceKeepsOk(w, s);
      case PresentRecord(_) =>
      case CleanUpTake(_, _, _) =>
      case CleanUpRelease(call, del) =>
        if call in w.calls && w.calls[call].Releasing? {
          var h := w.calls[call].held;
          forall t | t in w.zone.tracked && w.zone.tracked[t] == h.id ensures t == h.target {
            assert w.origin[h.id].target == t;
          }
        }
    }
  }

  lemma {:induction false} RunsKeepOk(w: World, steps: seq<Step>)
    requires Ok(w)
    ensures Ok(AfterAll(w, steps))
    decreases |steps|
  {
    if steps != [] {
      StepKeepsOk(w, steps[0]);
      RunsKeepOk(After(w, steps[0]), steps[1..]);
    }
  }

  /**
   What the steps do to the providers: a successful replacement is remembered in its own step, a
   cleanup forgets before it releases, and no step changes another job's memory.
   */
  lemma ProviderMeaning(w: World, s: Step)
    ensures var w' := After(w, s);
            && (s.PresentReplace? ==>
                  && w'.held == w.held
                  && (s.call !in w.calls && s.g == Guards(true, true, true) && s.cre == Created ==>
                        s.call in w'.calls && w'.calls[s.call] == Recording(s.job, s.token, Held(w.zone.nextId, s.target))))
            && (s.PresentRecord? && s.call in w.calls && w.calls[s.call].Recording? ==>
                  var c := w.calls[s.call];
                  w'.zone == w.zone && s.call !in w'.calls && w'.held == w.held[(c.job, c.token) := c.held])
            && (s.CleanUpTake? && s.call !in w.calls && (s.job, s.token) in w.held ==>
                  && w'.zone == w.zone && w'.held == w.held - {(s.job, s.token)}
                  && s.call in w'.calls && w'.calls[s.call] == Releasing(s.job, w.held[(s.job, s.token)]))
            && (s.CleanUpRelease? ==> w'.held == w.held && (s.call in w.calls && w.calls[s.call].Releasing? ==> s.call !in w'.calls))
            && (forall c :: c in w.calls && c != s.call ==> c in w'.calls && w'.calls[c] == w.calls[c])
  {
  }

  // ---------------------------------------------------------------- what it means

  ghost function LiveAt(z: Zone, target: Name): set<Id> {
    set id | id in z.live && z.live[id] == target
  }

  /**
   After any interleaving of any number of jobs, the live records of a target are its tracked
   record and leaked ones, and leaks are paid for by failed deletes and half-failed creates;
   without those failures at most one record is live per target.
   */
  lemma TrackingIsComplete(steps: seq<Step>, target: Name)
    ensures var z := AfterAll(Start, steps).zone;
            && LiveAt(z, target) <= z.leaked + (if target in z.tracked then {z.tracked[target]} else {})
            && |z.leaked| <= z.failedDeletes + z.halfCreates
            && |LiveAt(z, target)| <= 1 + z.failedDeletes + z.halfCreates
            && (z.failedDeletes == z.halfCreates == 0 ==>
                  forall a, b :: a in z.live && b in z.live && z.live[a] == z.live[b] == target ==> a == b)
  {
    RunsKeepOk(Start, steps);
    var z := AfterAll(Start, steps).zone;
    var own: set<Id> := if target in z.tracked then {z.tracked[target]} else {};
    SubsetSize(LiveAt(z, target), z.leaked + own);
    assert |z.leaked + own| <= |z.leaked| + |own|;
    assert |own| <= 1;
  }

  /** The job on whose behalf a step runs. */
  ghost function Actor(w: World, s: Step): Option<Job> {
    match s
    case PresentReplace(_, job, _, _, _, _, _) => Some(job)
    case CleanUpTake(_, job, _) => Some(job)
    case PresentRecord(call) => if call in w.calls then Some(w.calls[call].job) else None
    case CleanUpRelease(call, _) => if call in w.calls then Some(w.calls[call].job) else None
  }

  /** However late it runs, a cleanup deletes and untracks only records its own job presented. */
  lemma LateCleanupIsHarmless(steps: seq<Step>, s: Step, id: Id)
    requires s.CleanUpTake? || s.CleanUpRelease?
    ensures var w := AfterAll(Start, steps);
            var z, z' := w.zone, After(w, s).zone;
            && (id in z.live && (id !in z'.live || z'.live[id] != z.live[id]) ==>
                  id in w.origin && Actor(w, s) == Some(w.origin[id].job))
            && (forall t :: t in z.tracked && z.tracked[t] == id && (t !in z'.tracked || z'.tracked[t] != id) ==>
                  id in w.origin && Actor(w, s) == Some(w.origin[id].job))
  {
    RunsKeepOk(Start, steps);
  }

  /** A step that can end the tracking of record `id` at `target`. */
  predicate Reclaims(w: World, s: Step, target: Name, id: Id) {
    match s
    case PresentReplace(call, _, _, t, g, _, _) => call !in w.calls && t == target && g.beforeLock && g.afterLock
    case CleanUpRelease(call, del) =>
      call in w.calls && w.calls[call].Releasing? && w.calls[call].held == Held(id, target) && del == Deleted
    case _ => false
  }

  predicate NothingReclaims(w: World, steps: seq<Step>, target: Name, id: Id)
    decreases |steps|
  {
    steps == [] || (!Reclaims(w, steps[0], target, id) && NothingReclaims(After(w, steps[0]), steps[1..], target, id))
  }

  /** A leftover, such as a record whose cleanup failed, stays tracked as long as nothing reclaims it. */
  lemma {:induction false} LeftoverStaysTracked(w: World, steps: seq<Step>, target: Name)
    requires target in w.zone.tracked
    requires NothingReclaims(w, steps, target, w.zone.tracked[target])
    ensures var z := AfterAll(w, steps).zone;
            target in z.tracked && z.tracked[target] == w.zone.tracked[target]
    decreases |steps|
  {
    if steps != [] {
      LeftoverStaysTracked(After(w, steps[0]), steps[1..], target);
    }
  }

  /** The next replacement or release whose delete works takes the leftover out of the zone. */
  lemma ReclaimRemovesLeftover(steps: seq<Step>, s: Step, target: Name)
    requires var w := AfterAll(Start, steps);
             && target in w.zone.tracked
             && Reclaims(w, s, target, w.zone.tracked[target])
             && s.del == Deleted
    ensures var w := AfterAll(Start, steps);
            var z' := After(w, s).zone;
            && w.zone.tracked[target] !in z'.live
            && (target in z'.tracked ==> z'.tracked[target] != w.zone.tracked[target])
            && z'.leaked == (if s.PresentReplace? && s.g.afterDelete && s.cre == CreateFailed(true) then w.zone.leaked + {w.zone.nextId} else w.zone.leaked)
  {
    RunsKeepOk(Start, steps);
  }
}
