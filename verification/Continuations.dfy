/** Continuations of a state, and the states a server can reach. */
module Continuations {
  import opened Rows
  import opened Protocol
  import opened RenewalRate

  /**
   Which continuations count: any; those without a step of another handler; or those in which
   attempt `r` stays under way while nothing records a failure of `d` or clears its backoff.
   */
  datatype Focus = Anything | NoHandlers | Attempting(r: StarterId, d: DomainId)

  ghost predicate Allowed(s: State, a: Step, f: Focus)
    requires Enabled(s, a)
  {
    match f
    case Anything => true
    case NoHandlers => !a.Handle?
    case Attempting(r, d) =>
      r in s.starters && r in Next(s, a).starters && !FailsAuto(s, a, d) && !ClearsBackoff(s, a, d)
  }

  ghost predicate Continues(run: seq<State>, steps: seq<Step>, s0: State, s: State, f: Focus) {
    && IsRun(run, steps) && run[0] == s0 && run[|steps|] == s
    && forall i :: 0 <= i < |steps| ==> Allowed(run[i], steps[i], f)
  }

  ghost predicate Leads(s0: State, s: State, f: Focus) {
    exists run: seq<State>, steps: seq<Step> :: Continues(run, steps, s0, s, f)
  }

  ghost predicate Reachable(s: State) {
    exists s0 :: Init(s0) && Leads(s0, s, Anything)
  }

  lemma Stay(s0: State, f: Focus)
    ensures Leads(s0, s0, f)
  {
    assert Continues([s0], [], s0, s0, f);
  }

  lemma Go(s0: State, s: State, a: Step, f: Focus) returns (s': State)
    requires Leads(s0, s, f) && Enabled(s, a) && Allowed(s, a, f)
    ensures s' == Next(s, a) && Leads(s0, s', f)
  {
    hide Next, Enabled, Allowed;
    s' := Next(s, a);
    var run: seq<State>, steps: seq<Step> :| Continues(run, steps, s0, s, f);
    var run', steps' := run + [s'], steps + [a];
    forall i | 0 <= i < |steps'|
      ensures Enabled(run'[i], steps'[i]) && run'[i + 1] == Next(run'[i], steps'[i]) && Allowed(run'[i], steps'[i], f)
    {
      if i < |steps| {
        assert run'[i] == run[i] && run'[i + 1] == run[i + 1] && steps'[i] == steps[i];
      }
    }
    assert Continues(run', steps', s0, s', f);
  }
}
