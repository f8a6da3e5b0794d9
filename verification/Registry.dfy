/**
 The in-memory registry of certificate jobs and the pool of job slots
 (controllers/cert_job_registry.go, cert_job_semaphore.go). A job's context belongs to its
 token, so a context is done when its token is in `done`.
 */
module Registry {
  import opened Options

  type DomainId = nat
  type Token = nat

  datatype Jobs = Jobs(
    entries: map<DomainId, Token>,
    done: set<Token>,
    deadline: map<Token, int>,
    lastToken: Token)

  predicate Inflight(j: Jobs, d: DomainId) { d in j.entries }

  predicate Active(j: Jobs, d: DomainId, t: Token) {
    d in j.entries && j.entries[d] == t && t !in j.done
  }

  /** The check shared by ACME and DNS steps: a live context whose attached liveness check, if any, agrees. */
  predicate RequireAcmeActive(contextDone: bool, scope: Option<bool>) {
    !contextDone && (scope.Some? ==> scope.value)
  }

  function Cancel(j: Jobs, d: DomainId): Jobs {
    if d in j.entries then j.(done := j.done + {j.entries[d]}) else j
  }

  function CancelAll(j: Jobs): Jobs {
    j.(done := j.done + set d | d in j.entries :: j.entries[d])
  }

  /** The second critical section of beginCertJob; the new token is lastToken + 1. */
  function Register(j: Jobs, d: DomainId, deadline: int): Jobs {
    var t := j.lastToken + 1;
    Jobs(j.entries[d := t], j.done, j.deadline[t := deadline], t)
  }

  function End(j: Jobs, d: DomainId, t: Token): Jobs {
    if d in j.entries && j.entries[d] == t then j.(entries := j.entries - {d}) else j
  }

  class CertJobRegistry {
    var entries: map<DomainId, Token>
    var done: set<Token>
    var deadline: map<Token, int>
    var certJobTokenSeq: Token

    function Value(): Jobs reads this {
      Jobs(entries, done, deadline, certJobTokenSeq)
    }

    constructor ()
      ensures Value() == Jobs(map[], {}, map[], 0)
    {
      entries, done, deadline, certJobTokenSeq := map[], {}, map[], 0;
    }

    method CancelCertJob(d: DomainId)
      modifies this
      ensures Value() == Cancel(old(Value()), d)
    {
      if d !in entries {
        return;
      }
      done := done + {entries[d]};
    }

    method CancelAllCertJobs()
      modifies this
      ensures Value() == CancelAll(old(Value()))
    {
      var todo := entries.Keys;
      while todo != {}
        invariant todo <= entries.Keys
        invariant entries == old(entries) && deadline == old(deadline) && certJobTokenSeq == old(certJobTokenSeq)
        invariant done == old(done) + set d | d in entries && d !in todo :: entries[d]
        decreases todo
      {
        var d :| d in todo;
        done := done + {entries[d]};
        todo := todo - {d};
      }
    }

    /** Registration, after the wait for the previous worker. */
    method RegisterCertJob(d: DomainId, now: int, timeout: int) returns (token: Token)
      modifies this
      ensures Value() == Register(old(Value()), d, now + timeout)
      ensures token == Value().lastToken && d in entries && entries[d] == token
    {
      certJobTokenSeq := certJobTokenSeq + 1;
      token := certJobTokenSeq;
      deadline := deadline[token := now + timeout];
      entries := entries[d := token];
    }

    method EndJob(d: DomainId, token: Token)
      modifies this
      ensures Value() == End(old(Value()), d, token)
    {
      if d in entries && entries[d] == token {
        entries := entries - {d};
      }
    }

    method IsCertJobActive(d: DomainId, token: Token) returns (active: bool)
      ensures active == Active(Value(), d, token)
    {
      active := d in entries && entries[d] == token && token !in done;
    }

    method CertJobInflight(d: DomainId) returns (inflight: bool)
      ensures inflight == Inflight(Value(), d)
    {
      inflight := d in entries;
    }
  }

  /** The buffered channel used as a counter. */
  class CertJobSlots {
    const capacity: nat
    var occupied: nat

    constructor (maxConcurrentJobs: int)
      ensures occupied == 0
      ensures capacity == if maxConcurrentJobs <= 0 then 5 else maxConcurrentJobs
    {
      occupied := 0;
      capacity := if maxConcurrentJobs <= 0 then 5 else maxConcurrentJobs;
    }

    method TryAcquire() returns (ok: bool)
      requires occupied <= capacity
      modifies this
      ensures occupied <= capacity
      ensures ok == (old(occupied) < capacity)
      ensures occupied == if ok then old(occupied) + 1 else old(occupied)
    {
      ok := occupied < capacity;
      if ok {
        occupied := occupied + 1;
      }
    }

    /** Releasing an empty pool is silently ignored. */
    method Release()
      requires occupied <= capacity
      modifies this
      ensures occupied <= capacity
      ensures occupied == if old(occupied) > 0 then old(occupied) - 1 else 0
    {
      if occupied > 0 {
        occupied := occupied - 1;
      }
    }
  }
}
