/** ErrMaybe comes about both ways: from every reachable state, a Put at the
    current version can end in it installed, and can end in it beaten. */
module Uncertainty {
  import opened Options
  import opened Kv
  import opened Calls
  import opened History
  import opened Versions
  import opened Accounting

  lemma Extend(steps: seq<Step>, s: State, step: Step)
    requires Run(steps) == Some(s) && Enabled(s, step)
    ensures Run(steps + [step]) == Some(Next(s, step))
  {
    assert (steps + [step])[..|steps|] == steps;
  }

  // Put i of client c is under way; it named the version the key then had.
  ghost predicate Doing(s: State, c: nat, i: nat, a: PutArgs<Val>, first: bool, reply: Option<Err>, installs: nat) {
    && c in s.busy && s.busy[c] == Busy(i, PutCall(a, first, reply)) && Versioned(s.store)
    && Named(s, i, a) && s.ops[i].installs == installs && s.ops[i].result.None?
  }

  ghost predicate Named(s: State, i: nat, a: PutArgs<Val>) {
    && i < |s.ops| && s.ops[i].op == PutOp(a)
    && s.ops[i].called < |s.past| && Version(s.past[s.ops[i].called], a.key) == a.version
  }

  // Nothing else happened to the operations before.
  predicate Keeps(s: State, s': State, n: nat) { n <= |s.ops| == |s'.ops| && s'.ops[..n] == s.ops[..n] }

  lemma Starts(s: State, c: nat, a: PutArgs<Val>)
    requires c !in s.busy && Versioned(s.store) && a.version == Version(s.store, a.key)
    ensures var s' := Next(s, Invoke(c, PutOp(a)));
            && Doing(s', c, |s.ops|, a, true, None, 0) && s'.store == s.store && s'.past == s.past + [s.store]
            && |s'.ops| == |s.ops| + 1 && s'.ops[..|s.ops|] == s.ops && s'.busy == s.busy[c := s'.busy[c]]
  {
  }

  lemma Executes(s: State, c: nat, i: nat, a: PutArgs<Val>, first: bool, installs: nat)
    requires Doing(s, c, i, a, first, None, installs)
    ensures Enabled(s, Net(c, Execute))
    ensures var s' := Next(s, Net(c, Execute));
            var (store, err) := HandlePut(s.store, a);
            && Doing(s', c, i, a, first, Some(err), if err == OK then installs + 1 else installs)
            && s'.store == store && Keeps(s, s', i) && s'.busy == s.busy[c := s'.busy[c]]
            && (forall j :: i < j < |s.ops| ==> s'.ops[j] == s.ops[j]) && s'.past == s.past + [s.store]
  {
  }

  lemma GivesUp(s: State, c: nat, i: nat, a: PutArgs<Val>, first: bool, reply: Option<Err>, installs: nat, move: Move)
    requires Doing(s, c, i, a, first, reply, installs) && move == if reply.Some? then Lose else Drop
    ensures Enabled(s, Net(c, move))
    ensures var s' := Next(s, Net(c, move));
            && Doing(s', c, i, a, false, None, installs) && s'.store == s.store && Keeps(s, s', i)
            && s'.busy == s.busy[c := s'.busy[c]] && s'.past == s.past + [s.store]
  {
  }

  lemma Returns(s: State, c: nat, i: nat, a: PutArgs<Val>, installs: nat)
    requires Doing(s, c, i, a, false, Some(ErrVersion), installs)
    ensures Enabled(s, Net(c, Deliver))
    ensures var s' := Next(s, Net(c, Deliver));
            && Uncertain(s', i, a.key) && s'.ops[i].installs == installs && s'.store == s.store && Keeps(s, s', i)
  {
  }

  // c's reply is lost after its Put was installed.
  lemma CanBeInstalled(steps: seq<Step>, c: nat, k: string, value: Val) returns (s': State)
    requires Run(steps).Some? && c !in Run(steps).value.busy
    ensures var s := Run(steps).value;
            var op := PutOp(PutArgs(k, value, Version(s.store, k)));
            && Run(steps + [Invoke(c, op)] + [Net(c, Execute)] + [Net(c, Lose)] + [Net(c, Execute)] + [Net(c, Deliver)]) ==
                 Some(s')
            && |s'.ops| == |s.ops| + 1 && s'.ops[..|s.ops|] == s.ops
            && Uncertain(s', |s.ops|, k) && s'.ops[|s.ops|].installs == 1
            && HandleGet(s'.store, k) == Got(value, Version(s.store, k) + 1)
  {
    Invariant(steps);
    var s := Run(steps).value;
    assert Versioned(At(s, |s.past|));
    var a := PutArgs(k, value, Version(s.store, k));
    Starts(s, c, a);
    Extend(steps, s, Invoke(c, PutOp(a)));
    s' := LosesReply(steps + [Invoke(c, PutOp(a))], Next(s, Invoke(c, PutOp(a))), c, |s.ops|, a);
  }

  lemma LosesReply(steps: seq<Step>, s: State, c: nat, i: nat, a: PutArgs<Val>) returns (s': State)
    requires Run(steps) == Some(s) && Doing(s, c, i, a, true, None, 0) && Version(s.store, a.key) == a.version
    ensures Run(steps + [Net(c, Execute)] + [Net(c, Lose)] + [Net(c, Execute)] + [Net(c, Deliver)]) == Some(s')
    ensures Uncertain(s', i, a.key) && s'.ops[i].installs == 1 && Keeps(s, s', i)
    ensures HandleGet(s'.store, a.key) == Got(a.value, a.version + 1)
  {
    Executes(s, c, i, a, true, 0);
    Extend(steps, s, Net(c, Execute));
    var s1, t1 := Next(s, Net(c, Execute)), steps + [Net(c, Execute)];
    GivesUp(s1, c, i, a, true, Some(OK), 1, Lose);
    Extend(t1, s1, Net(c, Lose));
    var s2, t2 := Next(s1, Net(c, Lose)), t1 + [Net(c, Lose)];
    Executes(s2, c, i, a, false, 1);
    Extend(t2, s2, Net(c, Execute));
    var s3, t3 := Next(s2, Net(c, Execute)), t2 + [Net(c, Execute)];
    Returns(s3, c, i, a, 1);
    Extend(t3, s3, Net(c, Deliver));
    s' := Next(s3, Net(c, Deliver));
  }

  // c's first attempt is dropped, and d's Put takes the version.
  lemma CanBeBeaten(steps: seq<Step>, c: nat, d: nat, k: string, value: Val, other: Val) returns (s': State)
    requires Run(steps).Some? && c != d && c !in Run(steps).value.busy && d !in Run(steps).value.busy
    ensures var s := Run(steps).value;
            var v := Version(s.store, k);
            var mine, theirs := PutOp(PutArgs(k, value, v)), PutOp(PutArgs(k, other, v));
            && Run(steps + [Invoke(c, mine)] + [Net(c, Drop)] + [Invoke(d, theirs)] + [Net(d, Execute)] +
                   [Net(c, Execute)] + [Net(c, Deliver)]) == Some(s')
            && |s'.ops| == |s.ops| + 2 && s'.ops[..|s.ops|] == s.ops
            && Uncertain(s', |s.ops|, k) && s'.ops[|s.ops|].installs == 0
            && HandleGet(s'.store, k) == Got(other, v + 1)
  {
    Invariant(steps);
    var s := Run(steps).value;
    assert Versioned(At(s, |s.past|));
    var a, b := PutArgs(k, value, Version(s.store, k)), PutArgs(k, other, Version(s.store, k));
    Starts(s, c, a);
    Extend(steps, s, Invoke(c, PutOp(a)));
    var s1, t1 := Next(s, Invoke(c, PutOp(a))), steps + [Invoke(c, PutOp(a))];
    GivesUp(s1, c, |s.ops|, a, true, None, 0, Drop);
    Extend(t1, s1, Net(c, Drop));
    var s2, t2 := Next(s1, Net(c, Drop)), t1 + [Net(c, Drop)];
    var s4 := Overtakes(t2, s2, c, |s.ops|, a, d, b);
    s' := FindsOut(t2 + [Invoke(d, PutOp(b))] + [Net(d, Execute)], s4, c, |s.ops|, a);
  }

  lemma Overtakes(steps: seq<Step>, s: State, c: nat, i: nat, a: PutArgs<Val>, d: nat, b: PutArgs<Val>) returns (s': State)
    requires Run(steps) == Some(s) && Doing(s, c, i, a, false, None, 0) && c != d && d !in s.busy
    requires b.key == a.key && a.version == b.version == Version(s.store, a.key)
    ensures Run(steps + [Invoke(d, PutOp(b))] + [Net(d, Execute)]) == Some(s')
    ensures Doing(s', c, i, a, false, None, 0) && HandleGet(s'.store, a.key) == Got(b.value, b.version + 1)
    ensures |s'.ops| == |s.ops| + 1 && s'.ops[..|s.ops|] == s.ops
  {
    Starts(s, d, b);
    Extend(steps, s, Invoke(d, PutOp(b)));
    var s1 := Next(s, Invoke(d, PutOp(b)));
    assert s1.ops[i] == s.ops[i];
    Executes(s1, d, |s.ops|, b, true, 0);
    Extend(steps + [Invoke(d, PutOp(b))], s1, Net(d, Execute));
    s' := Next(s1, Net(d, Execute));
    assert s'.ops[..|s.ops|] == s1.ops[..|s.ops|] && s'.ops[i] == s'.ops[..|s.ops|][i];
  }

  lemma FindsOut(steps: seq<Step>, s: State, c: nat, i: nat, a: PutArgs<Val>) returns (s': State)
    requires Run(steps) == Some(s) && Doing(s, c, i, a, false, None, 0) && a.version < Version(s.store, a.key)
    ensures Run(steps + [Net(c, Execute)] + [Net(c, Deliver)]) == Some(s')
    ensures Uncertain(s', i, a.key) && s'.ops[i].installs == 0 && s'.store == s.store && Keeps(s, s', i)
  {
    Executes(s, c, i, a, false, 0);
    Extend(steps, s, Net(c, Execute));
    var s1 := Next(s, Net(c, Execute));
    Returns(s1, c, i, a, 0);
    Extend(steps + [Net(c, Execute)], s1, Net(c, Deliver));
    s' := Next(s1, Net(c, Deliver));
  }
}
