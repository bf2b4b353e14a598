/** A Put that names a version still to come can take effect after its call: for
    every such version there is a run without a linearization. */
module LateWitness {
  import opened Options
  import opened Kv
  import opened Calls
  import opened History
  import opened Versions
  import opened Containment
  import opened Linearizability

  lemma Extend(steps: seq<Step>, s: State, step: Step)
    requires Run(steps) == Some(s) && Enabled(s, step)
    ensures Run(steps + [step]) == Some(Next(s, step))
  {
    assert (steps + [step])[..|steps|] == steps;
  }

  // ----- the run

  // Nothing of the past is lost.
  predicate Grows(s: State, s': State) { s.past <= s'.past && s.ops <= s'.ops }

  // Client 1's Put of "y" on the version u of k.
  predicate Raises(s: State, i: nat, k: string, u: nat) {
    && i < |s.ops| && s.ops[i].op == PutOp(PutArgs(k, "y", u))
    && s.ops[i].called < |s.past| && Version(s.past[s.ops[i].called], k) == u
  }

  // One such Put, without losses.
  lemma RaiseOnce(steps: seq<Step>, s: State, k: string, u: nat) returns (steps': seq<Step>, s': State)
    requires Run(steps) == Some(s) && Versioned(s.store) && 1 !in s.busy && Version(s.store, k) == u
    ensures Run(steps') == Some(s') && Versioned(s'.store) && s'.busy == s.busy && s'.late == s.late
    ensures Version(s'.store, k) == u + 1 && Grows(s, s') && |s'.ops| == |s.ops| + 1
    ensures Raises(s', |s.ops|, k, u) && s'.ops[|s.ops|].called == |s.past|
  {
    var op := PutOp(PutArgs(k, "y", u));
    Extend(steps, s, Invoke(1, op));
    var s1, t1 := Next(s, Invoke(1, op)), steps + [Invoke(1, op)];
    Extend(t1, s1, Net(1, Execute));
    var s2, t2 := Next(s1, Net(1, Execute)), t1 + [Net(1, Execute)];
    Extend(t2, s2, Net(1, Deliver));
    steps', s' := t2 + [Net(1, Deliver)], Next(s2, Net(1, Deliver));
    assert s'.busy == s.busy;
  }

  // The Puts from the index i on raise k from version lo, and were called at t or later.
  ghost predicate RaisesFrom(s: State, i: nat, k: string, lo: nat, t: nat) {
    forall j :: i <= j < |s.ops| ==> Raises(s, j, k, lo + (j - i)) && t <= s.ops[j].called
  }

  // Client 1 raises k from version lo to version hi.
  lemma {:induction false} Raise(steps: seq<Step>, s: State, k: string, lo: nat, hi: nat)
    returns (steps': seq<Step>, s': State)
    requires Run(steps) == Some(s) && Versioned(s.store) && 1 !in s.busy && Version(s.store, k) == lo <= hi
    ensures Run(steps') == Some(s') && Versioned(s'.store) && s'.busy == s.busy && s'.late == s.late
    ensures Version(s'.store, k) == hi && Grows(s, s') && |s'.ops| == |s.ops| + (hi - lo)
    ensures RaisesFrom(s', |s.ops|, k, lo, |s.past|)
    decreases hi - lo
  {
    if lo == hi {
      steps', s' := steps, s;
    } else {
      var steps1, s1 := Raise(steps, s, k, lo, hi - 1);
      steps', s' := RaiseOnce(steps1, s1, k, hi - 1);
      OneMore(s1, s', |s.ops|, k, lo, |s.past|);
    }
  }

  lemma OneMore(s: State, s': State, i: nat, k: string, lo: nat, t: nat)
    requires RaisesFrom(s, i, k, lo, t) && Grows(s, s') && i <= |s.ops| && |s'.ops| == |s.ops| + 1
    requires Raises(s', |s.ops|, k, lo + (|s.ops| - i)) && t <= s'.ops[|s.ops|].called
    ensures RaisesFrom(s', i, k, lo, t)
  {
    forall j | i <= j < |s.ops| ensures Raises(s', j, k, lo + (j - i)) && t <= s'.ops[j].called {
      StillRaises(s, s', j, k, lo + (j - i));
    }
  }

  lemma StillRaises(s: State, s': State, j: nat, k: string, u: nat)
    requires Raises(s, j, k, u) && Grows(s, s')
    ensures Raises(s', j, k, u) && s'.ops[j] == s.ops[j]
  {
  }

  // Client 0 puts "x" on version v, gives its first attempt up, and is told by
  // the second that v is not the version.
  lemma PutsAhead(steps: seq<Step>, s: State, k: string, v: nat) returns (steps': seq<Step>, s': State)
    requires Run(steps) == Some(s) && Versioned(s.store) && s.busy == map[] && Version(s.store, k) < v
    ensures Run(steps') == Some(s') && s'.store == s.store && s'.busy == s.busy
    ensures Grows(s, s') && |s'.ops| == |s.ops| + 1 && |s.ops| in s'.late
    ensures var r := s'.ops[|s.ops|];
            && r.op == PutOp(PutArgs(k, "x", v)) && r.called < |s'.past| && s'.past[r.called] == s.store
            && r.installs == 0 && r.result.Some? && r.returned < |s'.past|
  {
    var op := PutOp(PutArgs(k, "x", v));
    Extend(steps, s, Invoke(0, op));
    var s1, t1 := Next(s, Invoke(0, op)), steps + [Invoke(0, op)];
    Extend(t1, s1, Net(0, Drop));
    var s2, t2 := Next(s1, Net(0, Drop)), t1 + [Net(0, Drop)];
    Extend(t2, s2, Net(0, Execute));
    var s3, t3 := Next(s2, Net(0, Execute)), t2 + [Net(0, Execute)];
    Extend(t3, s3, Net(0, Deliver));
    steps', s' := t3 + [Net(0, Deliver)], Next(s3, Net(0, Deliver));
    assert s'.busy == s.busy;
  }

  // The shape of the run's end: Put c is client 0's, ahead of its time; it
  // returned before the Puts after it were called.
  ghost predicate Broken(s: State, k: string, c: nat, v: nat) {
    && c < v && |s.ops| == v + 1 && Ahead(s, k, c, v)
    && (forall j :: 0 <= j < |s.ops| && j != c ==> RaisesAround(s, j, k, c))
    && (forall j :: c < j < |s.ops| ==> s.ops[c].returned < s.ops[j].called)
  }

  // Put j raises k, Put c not being one of those that do.
  predicate RaisesAround(s: State, j: nat, k: string, c: nat) {
    j != c && Raises(s, j, k, if j < c then j else j - 1)
  }

  predicate Ahead(s: State, k: string, c: nat, v: nat) {
    && c < |s.ops| && s.ops[c].op == PutOp(PutArgs(k, "x", v)) && s.ops[c].result.Some?
    && s.ops[c].called < |s.past| && Version(s.past[s.ops[c].called], k) == c
  }

  lemma BeforeLate(k: string, c: nat, v: nat) returns (steps: seq<Step>, s: State)
    requires c < v
    ensures Run(steps) == Some(s) && Versioned(s.store) && Broken(s, k, c, v)
    ensures Version(s.store, k) == v && Enabled(s, Late(c))
  {
    var t1, s1 := Raise([], INIT, k, 0, c);
    var t2, s2 := PutsAhead(t1, s1, k, v);
    steps, s := Raise(t2, s2, k, c, v);
    assert s.ops[c] == s2.ops[c];
    forall j | 0 <= j < |s.ops| && j != c ensures RaisesAround(s, j, k, c) {
      if j < c {
        assert Raises(s1, j, k, 0 + (j - 0));
        StillRaises(s1, s2, j, k, j);
        StillRaises(s2, s, j, k, j);
      } else {
        assert Raises(s, j, k, c + (j - (c + 1)));
      }
    }
  }

  lemma Breaks(k: string, c: nat, v: nat) returns (steps: seq<Step>)
    requires c < v
    ensures Run(steps).Some? && Broken(Run(steps).value, k, c, v)
    ensures HandleGet(Run(steps).value.store, k) == Got("x", v + 1)
  {
    var s;
    steps, s := BeforeLate(k, c, v);
    Extend(steps, s, Late(c));
    steps := steps + [Late(c)];
    var s' := Next(s, Late(c));
    forall j | 0 <= j < |s'.ops| && j != c ensures RaisesAround(s', j, k, c) {
      assert RaisesAround(s, j, k, c);
    }
  }

  // ----- it has no linearization

  // A key's version passes u only by an operation that names u.
  lemma {:induction false} Passed(ops: seq<Record>, order: seq<nat>, k: string, u: nat) returns (p: nat)
    requires Replay(ops, order).Some? && u < Version(Replay(ops, order).value, k)
    ensures p < |order| && order[p] < |ops|
    ensures var op := ops[order[p]].op; op.PutOp? && op.args.key == k && op.args.version == u
  {
    var shorter := order[..|order| - 1];
    if u < Version(Replay(ops, shorter).value, k) {
      p := Passed(ops, shorter, k, u);
    } else {
      p := |order| - 1;
    }
  }

  // A key has a value only by an operation that puts it there.
  lemma {:induction false} PutThere(ops: seq<Record>, order: seq<nat>, k: string, x: Val) returns (q: nat)
    requires Replay(ops, order).Some?
    requires k in Replay(ops, order).value && Replay(ops, order).value[k].value == x
    ensures q < |order| && order[q] < |ops| && Replay(ops, order[..q]).Some?
    ensures var op := ops[order[q]].op;
            && op.PutOp? && op.args.key == k && op.args.value == x
            && op.args.version == Version(Replay(ops, order[..q]).value, k)
  {
    var shorter := order[..|order| - 1];
    var before := Replay(ops, shorter).value;
    if k in before && before[k] == Replay(ops, order).value[k] {
      q := PutThere(ops, shorter, k, x);
      assert order[..q] == shorter[..q];
    } else {
      q := |order| - 1;
    }
  }

  // An order that ends in the store puts client 0's Put after one that was
  // called when it had returned.
  lemma OutOfOrder(s: State, k: string, c: nat, v: nat, order: seq<nat>) returns (p: nat, q: nat)
    requires Broken(s, k, c, v) && HandleGet(s.store, k) == Got("x", v + 1)
    requires Replay(s.ops, order) == Some(s.store)
    ensures p < q < |order| && Precedes(s, order[q], order[p])
  {
    q := PutThere(s.ops, order, k, "x");
    assert order[q] != c ==> RaisesAround(s, order[q], k, c);
    assert "x"[0] != "y"[0];
    p := Passed(s.ops, order[..q], k, v - 1);
    assert order[p] != c ==> RaisesAround(s, order[p], k, c);
  }

  lemma NoLinearization(s: State, k: string, c: nat, v: nat, order: seq<nat>)
    requires Broken(s, k, c, v) && HandleGet(s.store, k) == Got("x", v + 1)
    ensures !Linearizes(s, order)
  {
    if Replay(s.ops, order) == Some(s.store) {
      var p, q := OutOfOrder(s, k, c, v, order);
    }
  }

  // ----- exactly when

  // Put i on k named version v when the key had version c; every other Put named
  // no version still to come.
  ghost predicate Names(s: State, i: nat, k: string, c: nat, v: nat) {
    && IsPut(s, i, k) && s.ops[i].op.args.version == v
    && s.ops[i].called < |s.past| && Version(s.past[s.ops[i].called], k) == c
    && forall j :: 0 <= j < |s.ops| && j != i ==> Timely(s, j)
  }

  // Among callers that otherwise name no version still to come, a Put may name v
  // of a key at c, with every run linearizable, exactly when v is no more than c.
  lemma MayName(k: string, c: nat, v: nat)
    ensures v <= c <==>
            forall steps, i :: Run(steps).Some? && Names(Run(steps).value, i, k, c, v) ==>
              exists order :: Linearizes(Run(steps).value, order)
  {
    if v <= c {
      forall steps, i | Run(steps).Some? && Names(Run(steps).value, i, k, c, v)
        ensures exists order :: Linearizes(Run(steps).value, order)
      {
        var s := Run(steps).value;
        assert forall j :: 0 <= j < |s.ops| ==> Timely(s, j);
        assert forall x :: Orderly(steps, x);
        Linearizable(steps);
      }
    } else {
      var steps := Breaks(k, c, v);
      var s := Run(steps).value;
      forall order ensures !Linearizes(s, order) { NoLinearization(s, k, c, v, order); }
      forall j | 0 <= j < |s.ops| && j != c ensures Timely(s, j) { assert RaisesAround(s, j, k, c); }
      assert Names(s, c, k, c, v);
    }
  }
}
