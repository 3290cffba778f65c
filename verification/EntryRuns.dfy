/** Runs in which one process acts alone. */
module EntryRuns {
  import opened EntrySystem

  /** A step of process `i`, or the passing of time. */
  predicate OwnOrTick(a: Action, i: nat) {
    a.Tick? || (a.ProcStep? && a.i == i)
  }

  /** Process `i` alone can lead from `s` to `t`. */
  ghost predicate Leads(c: Config, s: State, i: nat, t: State) {
    exists acts :: LeadsBy(c, s, i, acts, t)
  }

  ghost predicate LeadsBy(c: Config, s: State, i: nat, acts: seq<Action>, t: State) {
    Executes(c, s, acts) && After(c, s, acts) == t && forall k :: 0 <= k < |acts| ==> OwnOrTick(acts[k], i)
  }

  lemma {:induction false} Extend(c: Config, s: State, acts: seq<Action>, a: Action)
    requires Executes(c, s, acts) && Enabled(After(c, s, acts), a)
    ensures Executes(c, s, acts + [a]) && After(c, s, acts + [a]) == Next(c, After(c, s, acts), a)
    decreases |acts|
  {
    if acts == [] {
      var n := Next(c, s, a);
      assert [a][1..] == [];
      assert Executes(c, n, []) && After(c, n, []) == n;
    } else {
      assert (acts + [a])[1..] == acts[1..] + [a];
      Extend(c, Next(c, s, acts[0]), acts[1..], a);
    }
  }

  lemma Stay(c: Config, s: State, i: nat)
    ensures Leads(c, s, i, s)
  {
    assert LeadsBy(c, s, i, [], s);
  }

  lemma Go(c: Config, s: State, i: nat, t: State, a: Action)
    requires Leads(c, s, i, t) && Enabled(t, a) && OwnOrTick(a, i)
    ensures Leads(c, s, i, Next(c, t, a))
  {
    var acts :| LeadsBy(c, s, i, acts, t);
    Extend(c, s, acts, a);
    assert LeadsBy(c, s, i, acts + [a], Next(c, t, a));
  }

  lemma {:induction false} LeadsOn(c: Config, s: State, i: nat, t: State, u: State)
    requires Leads(c, s, i, t) && Leads(c, t, i, u)
    ensures Leads(c, s, i, u)
  {
    var p :| LeadsBy(c, s, i, p, t);
    var q :| LeadsBy(c, t, i, q, u);
    Concat(c, s, p, q);
    assert LeadsBy(c, s, i, p + q, u);
  }

  lemma Then(c: Config, s0: State, acts: seq<Action>, s: State, a: Action) returns (acts': seq<Action>, s': State)
    requires Executes(c, s0, acts) && After(c, s0, acts) == s && Enabled(s, a)
    ensures Executes(c, s0, acts') && After(c, s0, acts') == s' && s' == Next(c, s, a)
  {
    Extend(c, s0, acts, a);
    acts', s' := acts + [a], Next(c, s, a);
  }
}
