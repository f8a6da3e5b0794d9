/** What every reachable state of the job protocol satisfies: token bookkeeping and conservation of counters. */
module ProtocolInvariant {
  import opened Rows
  import Registry
  import opened Protocol

  // ---------------------------------------------------------------- tokens

  predicate AwaitsSpawn(s: State, t: Token) {
    exists r :: r in s.starters && s.starters[r].pc == Spawn(t)
  }

  /** Tokens are issued once, in increasing order; each belongs to one starter and later to one worker. */
  ghost predicate TokensOk(s: State) {
    && (forall t: Token :: t in s.issued <==> 1 <= t <= s.jobs.lastToken)
    && (forall d :: d in s.jobs.entries ==> s.jobs.entries[d] in s.issued && s.issued[s.jobs.entries[d]] == d)
    && (forall t :: t in s.workers ==> t in s.issued && s.issued[t] == s.workers[t].domain)
    && (forall t :: t in s.issued ==> t in s.workers || AwaitsSpawn(s, t))
    && (forall t :: t in s.workers && Rank(s.workers[t].pc) > 3 ==> s.workers[t].domain !in s.jobs.entries || s.jobs.entries[s.workers[t].domain] != t)
  }

  ghost predicate SpawnsOk(s: State) {
    && (forall r :: r in s.starters && s.starters[r].pc.Spawn? ==>
          var t := s.starters[r].pc.token;
          t in s.issued && s.issued[t] == s.starters[r].domain && t !in s.workers)
    && (forall q, r :: q in s.starters && r in s.starters && s.starters[q].pc.Spawn? && s.starters[q].pc == s.starters[r].pc ==> q == r)
  }

  // ---------------------------------------------------------------- counters

  datatype Resource = Slot | Group | Tracker(d: DomainId)

  predicate WorkerHolds(w: Worker, k: Resource) {
    match k
    case Slot => Rank(w.pc) <= 2
    case Group => Rank(w.pc) <= 4
    case Tracker(d) => w.domain == d && 1 <= Rank(w.pc) <= 5
  }

  predicate StarterHoldsSlot(st: Starter) {
    st.pc.BeginCancel? || st.pc.BeginWait? || st.pc.BeginRegister? || st.pc.Spawn?
  }

  ghost function WorkersWith(workers: map<Token, Worker>, k: Resource): set<Token> {
    set t | t in workers && WorkerHolds(workers[t], k)
  }

  ghost function StartersWithSlot(starters: map<StarterId, Starter>): set<StarterId> {
    set r | r in starters && StarterHoldsSlot(starters[r])
  }

  ghost predicate CountsOk(s: State) {
    && s.slots == |StartersWithSlot(s.starters)| + |WorkersWith(s.workers, Slot)|
    && s.slots <= s.cfg.slots
    && s.group == |WorkersWith(s.workers, Group)|
    && (forall d :: Tracked(s, d) == |WorkersWith(s.workers, Tracker(d))|)
  }

  function One(b: bool): nat { if b then 1 else 0 }

  lemma WorkerPut(workers: map<Token, Worker>, t: Token, w: Worker, k: Resource)
    ensures |WorkersWith(workers[t := w], k)| + One(t in workers && WorkerHolds(workers[t], k))
         == |WorkersWith(workers, k)| + One(WorkerHolds(w, k))
  {
    var before, after := WorkersWith(workers, k), WorkersWith(workers[t := w], k);
    var rest := before - {t};
    assert before == if t in workers && WorkerHolds(workers[t], k) then rest + {t} else rest;
    assert after == if WorkerHolds(w, k) then rest + {t} else rest;
  }

  lemma StarterPut(starters: map<StarterId, Starter>, r: StarterId, st: Starter)
    ensures |StartersWithSlot(starters[r := st])| + One(r in starters && StarterHoldsSlot(starters[r]))
         == |StartersWithSlot(starters)| + One(StarterHoldsSlot(st))
  {
    var before, after := StartersWithSlot(starters), StartersWithSlot(starters[r := st]);
    var rest := before - {r};
    assert before == if r in starters && StarterHoldsSlot(starters[r]) then rest + {r} else rest;
    assert after == if StarterHoldsSlot(st) then rest + {r} else rest;
  }

  lemma StarterGone(starters: map<StarterId, Starter>, r: StarterId)
    ensures |StartersWithSlot(starters - {r})| + One(r in starters && StarterHoldsSlot(starters[r])) == |StartersWithSlot(starters)|
  {
    var before := StartersWithSlot(starters);
    assert StartersWithSlot(starters - {r}) == before - {r};
  }

  // ---------------------------------------------------------------- starters

  ghost predicate Ok(s: State) {
    TokensOk(s) && SpawnsOk(s) && CountsOk(s)
  }

  /** `s'` differs from `s` at most in the database, the clock, done contexts, the starters, the cleaner and main. */
  predicate SameJobs(s: State, s': State) {
    && s'.cfg == s.cfg && s'.workers == s.workers && s'.issued == s.issued
    && s'.tracked == s.tracked && s'.group == s.group && s'.slots == s.slots
    && s'.jobs.entries == s.jobs.entries && s'.jobs.lastToken == s.jobs.lastToken
  }

  lemma PutStarterKeeps(s: State, s': State, r: StarterId, st: Starter)
    requires Ok(s) && SameJobs(s, s') && s'.starters == s.starters[r := st]
    requires !st.pc.Spawn? && (r in s.starters ==> !s.starters[r].pc.Spawn?)
    requires StarterHoldsSlot(st) == (r in s.starters && StarterHoldsSlot(s.starters[r]))
    ensures Ok(s')
  {
    StarterPut(s.starters, r, st);
    assert forall d :: Tracked(s', d) == Tracked(s, d);
    forall x | x in s.issued && x !in s.workers ensures AwaitsSpawn(s', x) {
      var q :| q in s.starters && s.starters[q].pc == Spawn(x);
      assert s'.starters[q].pc == Spawn(x);
    }
  }

  lemma DropStarterKeeps(s: State, s': State, r: StarterId)
    requires Ok(s) && SameJobs(s, s') && s'.starters == s.starters - {r}
    requires r in s.starters && !s.starters[r].pc.Spawn? && !StarterHoldsSlot(s.starters[r])
    ensures Ok(s')
  {
    StarterGone(s.starters, r);
    assert forall d :: Tracked(s', d) == Tracked(s, d);
    forall x | x in s.issued && x !in s.workers ensures AwaitsSpawn(s', x) {
      var q :| q in s.starters && s.starters[q].pc == Spawn(x);
      assert s'.starters[q].pc == Spawn(x);
    }
  }

  /** A starter step that neither takes a slot, nor registers, nor spawns, moves or removes only the starter. */
  predicate QuietMove(s: State, s': State, r: StarterId)
    requires r in s.starters
  {
    && SameJobs(s, s')
    && if r in s'.starters
       then s'.starters == s.starters[r := s'.starters[r]] && s'.starters[r].domain == s.starters[r].domain
            && !s'.starters[r].pc.Spawn? && StarterHoldsSlot(s'.starters[r]) == StarterHoldsSlot(s.starters[r])
       else s'.starters == s.starters - {r} && !StarterHoldsSlot(s.starters[r])
  }

  lemma QuietStart(s: State, r: StarterId, ok: bool)
    requires r in s.starters
    requires var pc := s.starters[r].pc; !pc.AcquireSlot? && !pc.BeginRegister? && !pc.Spawn?
    ensures QuietMove(s, AfterStart(s, r, ok), r)
  {
  }

  lemma AcquireKeeps(s: State, r: StarterId, ok: bool)
    requires Ok(s) && r in s.starters && s.starters[r].pc.AcquireSlot?
    ensures Ok(AfterStart(s, r, ok))
  {
    var s' := AfterStart(s, r, ok);
    if s.slots < s.cfg.slots {
      StarterPut(s.starters, r, s'.starters[r]);
      assert forall d :: Tracked(s', d) == Tracked(s, d);
      forall x | x in s.issued && x !in s.workers ensures AwaitsSpawn(s', x) {
        var q :| q in s.starters && s.starters[q].pc == Spawn(x);
        assert s'.starters[q].pc == Spawn(x);
      }
    } else {
      PutStarterKeeps(s, s', r, s'.starters[r]);
    }
  }

  /** `s'` is `s` after starter `r` registered a job of `d`, as far as tokens go. */
  predicate Registered(s: State, s': State, r: StarterId, d: DomainId)
    requires r in s.starters
  {
    var n := s.jobs.lastToken + 1;
    && s.starters[r].pc.BeginRegister? && s.starters[r].domain == d
    && s'.starters == s.starters[r := s.starters[r].(pc := Spawn(n))] && s'.workers == s.workers
    && s'.issued == s.issued[n := d] && s'.jobs.entries == s.jobs.entries[d := n] && s'.jobs.lastToken == n
  }

  lemma RegisterKeepsAwaits(s: State, s': State, r: StarterId, d: DomainId)
    requires TokensOk(s) && r in s.starters && Registered(s, s', r, d)
    ensures forall x :: x in s'.issued ==> x in s'.workers || AwaitsSpawn(s', x)
  {
    assert s'.starters[r].pc == Spawn(s.jobs.lastToken + 1);
    forall x | x in s.issued && x !in s.workers ensures AwaitsSpawn(s', x) {
      var q :| q in s.starters && s.starters[q].pc == Spawn(x);
      assert s'.starters[q].pc == Spawn(x);
    }
  }

  lemma RegisterKeepsTokens(s: State, s': State, r: StarterId, d: DomainId)
    requires TokensOk(s) && r in s.starters && Registered(s, s', r, d)
    ensures TokensOk(s')
  {
    hide AwaitsSpawn;
    RegisterKeepsAwaits(s, s', r, d);
  }

  lemma RegisterKeepsSpawns(s: State, s': State, r: StarterId, d: DomainId)
    requires TokensOk(s) && SpawnsOk(s) && r in s.starters && Registered(s, s', r, d)
    ensures SpawnsOk(s')
  {
    hide AwaitsSpawn;
  }

  lemma RegisterKeeps(s: State, r: StarterId, ok: bool)
    requires Ok(s) && r in s.starters && s.starters[r].pc.BeginRegister?
    ensures Ok(AfterStart(s, r, ok))
  {
    var s' := AfterStart(s, r, ok);
    RegisterKeepsTokens(s, s', r, s.starters[r].domain);
    RegisterKeepsSpawns(s, s', r, s.starters[r].domain);
    StarterPut(s.starters, r, s'.starters[r]);
    assert forall d :: Tracked(s', d) == Tracked(s, d);
  }

  lemma SpawnKeepsCounts(s: State, s': State, r: StarterId, w: Worker)
    requires CountsOk(s) && r in s.starters && s.starters[r].pc.Spawn? && s.starters[r].pc.token !in s.workers && w.pc == Spawned
    requires s'.workers == s.workers[s.starters[r].pc.token := w] && s'.starters == s.starters - {r}
    requires s'.group == s.group + 1 && s'.slots == s.slots && s'.tracked == s.tracked && s'.cfg == s.cfg
    ensures CountsOk(s')
  {
    var t := s.starters[r].pc.token;
    StarterGone(s.starters, r);
    WorkerPut(s.workers, t, w, Slot);
    WorkerPut(s.workers, t, w, Group);
    forall d ensures Tracked(s', d) == |WorkersWith(s'.workers, Tracker(d))| {
      WorkerPut(s.workers, t, w, Tracker(d));
      assert Tracked(s, d) == |WorkersWith(s.workers, Tracker(d))|;
    }
  }

  lemma SpawnKeepsTokens(s: State, s': State, r: StarterId, w: Worker)
    requires TokensOk(s) && SpawnsOk(s) && r in s.starters && s.starters[r].pc.Spawn? && w.pc == Spawned && w.domain == s.starters[r].domain
    requires s'.workers == s.workers[s.starters[r].pc.token := w] && s'.starters == s.starters - {r}
    requires s'.jobs == s.jobs && s'.issued == s.issued
    ensures TokensOk(s') && SpawnsOk(s')
  {
    forall x | x in s.issued && x !in s'.workers ensures AwaitsSpawn(s', x) {
      var q :| q in s.starters && s.starters[q].pc == Spawn(x);
      assert q != r && s'.starters[q].pc == Spawn(x);
    }
  }

  lemma SpawnKeeps(s: State, r: StarterId, ok: bool)
    requires Ok(s) && r in s.starters && s.starters[r].pc.Spawn?
    ensures Ok(AfterStart(s, r, ok))
  {
    SpawnKeepsCounts(s, AfterStart(s, r, ok), r, NewWorker(s.starters[r]));
    SpawnKeepsTokens(s, AfterStart(s, r, ok), r, NewWorker(s.starters[r]));
  }

  lemma StartKeeps(s: State, r: StarterId, ok: bool)
    requires Ok(s) && r in s.starters
    ensures Ok(AfterStart(s, r, ok))
  {
    var s' := AfterStart(s, r, ok);
    match s.starters[r].pc {
      case AcquireSlot => AcquireKeeps(s, r, ok);
      case BeginRegister(_) => RegisterKeeps(s, r, ok);
      case Spawn(_) => SpawnKeeps(s, r, ok);
      case _ =>
        QuietStart(s, r, ok);
        if r in s'.starters {
          PutStarterKeeps(s, s', r, s'.starters[r]);
        } else {
          DropStarterKeeps(s, s', r);
        }
    }
  }

  // ---------------------------------------------------------------- workers

  /** A worker stays where it is among the stages or moves to the next one. */
  lemma WorkRank(s: State, t: Token, o: Outcome)
    requires t in s.workers && s.workers[t].pc != Exited
    ensures var n, n' := Rank(s.workers[t].pc), Rank(WorkPc(s, t, o));
            n <= n' <= n + 1 && (n != 1 ==> n' == n + 1)
  {
  }

  lemma WorkKeepsTokens(s: State, t: Token, o: Outcome, material: Material)
    requires TokensOk(s) && SpawnsOk(s) && t in s.workers && s.workers[t].pc != Exited
    ensures TokensOk(AfterWork(s, t, o, material)) && SpawnsOk(AfterWork(s, t, o, material))
  {
    var s' := AfterWork(s, t, o, material);
    WorkRank(s, t, o);
    RankTokens(s, s', t);
  }

  lemma RankTokens(s: State, s': State, t: Token)
    requires TokensOk(s) && SpawnsOk(s) && t in s.workers && t in s'.workers
    requires s'.workers == s.workers[t := s.workers[t].(pc := s'.workers[t].pc)] && s'.starters == s.starters
    requires s'.issued == s.issued && s'.jobs.lastToken == s.jobs.lastToken
    requires s'.jobs.entries == s.jobs.entries || s'.jobs == Registry.End(s.jobs, s.workers[t].domain, t)
    requires Rank(s'.workers[t].pc) > 3 ==> Rank(s.workers[t].pc) > 3 || s'.jobs == Registry.End(s.jobs, s.workers[t].domain, t)
    ensures TokensOk(s') && SpawnsOk(s')
  {
    forall x | x in s.issued && x !in s.workers ensures AwaitsSpawn(s', x) {
      assert AwaitsSpawn(s, x);
    }
  }

  lemma WorkKeepsCounts(s: State, t: Token, o: Outcome, material: Material)
    requires CountsOk(s) && t in s.workers && s.workers[t].pc != Exited
    ensures CountsOk(AfterWork(s, t, o, material))
  {
    var s' := AfterWork(s, t, o, material);
    WorkRank(s, t, o);
    RankCounts(s, s', t);
  }

  lemma RankCounts(s: State, s': State, t: Token)
    requires CountsOk(s) && t in s.workers && t in s'.workers && s'.cfg == s.cfg
    requires s'.workers == s.workers[t := s.workers[t].(pc := s'.workers[t].pc)] && s'.starters == s.starters
    requires var n, n', d := Rank(s.workers[t].pc), Rank(s'.workers[t].pc), s.workers[t].domain;
             && n <= n' <= n + 1 && (n != 1 ==> n' == n + 1)
             && s'.slots == (if n == 2 then Less(s.slots) else s.slots)
             && s'.group == (if n == 4 then Less(s.group) else s.group)
             && s'.tracked == (if n == 0 then s.tracked[d := Tracked(s, d) + 1]
                               else if n == 5 then s.tracked[d := Less(Tracked(s, d))] else s.tracked)
    ensures CountsOk(s')
  {
    var w' := s'.workers[t];
    WorkerPut(s.workers, t, w', Slot);
    WorkerPut(s.workers, t, w', Group);
    forall d ensures Tracked(s', d) == |WorkersWith(s'.workers, Tracker(d))| {
      WorkerPut(s.workers, t, w', Tracker(d));
      assert Tracked(s, d) == |WorkersWith(s.workers, Tracker(d))|;
    }
  }

  // ---------------------------------------------------------------- every reachable state

  lemma PanicKeeps(s: State, t: Token)
    requires Ok(s) && Enabled(s, Panic(t))
    ensures Ok(Next(s, Panic(t)))
  {
    var s' := Next(s, Panic(t));
    RankTokens(s, s', t);
    RankCounts(s, s', t);
  }

  lemma OthersKeep(s: State, s': State)
    requires Ok(s) && SameJobs(s, s') && s'.starters == s.starters
    ensures Ok(s')
  {
    assert forall d :: Tracked(s', d) == Tracked(s, d);
    forall x | x in s.issued && x !in s.workers ensures AwaitsSpawn(s', x) {
      assert AwaitsSpawn(s, x);
    }
  }

  /** The steps of neither starters nor workers. */
  predicate Outside(a: Step) {
    !a.Arrive? && !a.Start? && !a.Work? && !a.Panic?
  }

  lemma OutsideSameJobs(s: State, a: Step)
    requires Enabled(s, a) && Outside(a)
    ensures SameJobs(s, Next(s, a)) && Next(s, a).starters == s.starters
  {
  }

  lemma StepKeepsOk(s: State, a: Step)
    requires Ok(s) && Enabled(s, a)
    ensures Ok(Next(s, a))
  {
    hide TokensOk, SpawnsOk, CountsOk;
    match a {
      case Arrive(r, d, renew, auto) => PutStarterKeeps(s, Next(s, a), r, Arrived(s, d, renew, auto));
      case Start(r, ok) => StartKeeps(s, r, ok);
      case Work(t, o, material) =>
        WorkKeepsTokens(s, t, o, material);
        WorkKeepsCounts(s, t, o, material);
      case Panic(t) => PanicKeeps(s, t);
      case _ =>
        OutsideSameJobs(s, a);
        OthersKeep(s, Next(s, a));
    }
  }

  lemma InitOk(s: State)
    requires Init(s)
    ensures Ok(s)
  {
    assert StartersWithSlot(s.starters) == {};
    assert WorkersWith(s.workers, Slot) == {} && WorkersWith(s.workers, Group) == {};
    assert forall d :: WorkersWith(s.workers, Tracker(d)) == {};
  }

  lemma {:induction false} RunOk(run: seq<State>, steps: seq<Step>, k: nat)
    requires IsRun(run, steps) && Init(run[0]) && k < |run|
    ensures Ok(run[k])
  {
    hide Next;
    if k == 0 {
      InitOk(run[0]);
    } else {
      RunOk(run, steps, k - 1);
      StepKeepsOk(run[k - 1], steps[k - 1]);
    }
  }
}
