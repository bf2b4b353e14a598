/** What the outcomes of Puts say about the server: how often each one was
    installed, and how versions count installs. */
module Accounting {
  import opened Sets
  import opened Options
  import opened Kv
  import opened Calls
  import opened History
  import opened Versions
  import opened Containment

  ghost predicate Answered(s: State, i: nat, k: string, err: Err) {
    IsPut(s, i, k) && s.ops[i].result == Some(PutOut(err))
  }

  ghost predicate Pending(s: State, i: nat, k: string) {
    IsPut(s, i, k) && s.ops[i].result.None?
  }

  // ----- one Put

  // However often its attempts execute, and however late, a Put is installed at
  // most once; and if the key's operations stay inside their calls, so does that.
  lemma AtMostOnce(steps: seq<Step>, i: nat, k: string)
    requires Run(steps).Some? && IsPut(Run(steps).value, i, k)
    ensures var s := Run(steps).value;
            && s.ops[i].installs <= 1
            && (Answered(s, i, k, OK) ==> s.ops[i].installs == 1)
            && (Answered(s, i, k, ErrVersion) ==> s.ops[i].installs == 0)
            && (s.ops[i].installs == 1 ==>
                  && s.ops[i].point.Some? && s.ops[i].called < s.ops[i].point.value < |s.past|
                  && HandleGet(At(s, s.ops[i].point.value + 1), k) ==
                       Got(s.ops[i].op.args.value, s.ops[i].op.args.version + 1))
            && (Orderly(steps, k) ==>
                  && (Answered(s, i, k, ErrNoKey) ==> s.ops[i].installs == 0)
                  && (s.ops[i].installs == 1 && s.ops[i].result.Some? ==> s.ops[i].point.value < s.ops[i].returned))
  {
    Invariant(steps);
    assert RecordOk(Run(steps).value, i);
    if Orderly(steps, k) { OrderlyIsContained(steps, k, i); }
  }

  // ----- ErrMaybe

  // Another Put took the version that Put i asked for, while i was running.
  ghost predicate Beaten(s: State, i: nat, j: nat, k: string)
    requires IsPut(s, i, k)
  {
    && j != i && Installed(s, j, k)
    && s.ops[j].op.args.version == s.ops[i].op.args.version
    && s.ops[j].point.Some? && s.ops[i].called <= s.ops[j].point.value
    && (s.ops[i].result.Some? ==> s.ops[j].point.value < s.ops[i].returned)
  }

  // Put i named the key's version when it was called, and ended in ErrMaybe.
  ghost predicate Uncertain(s: State, i: nat, k: string) {
    && Answered(s, i, k, ErrMaybe)
    && s.ops[i].called < |s.past| && s.ops[i].op.args.version == Version(At(s, s.ops[i].called), k)
  }

  // Such a Put was not installed exactly when another Put got there first
  // during the call.
  lemma MaybeMeans(steps: seq<Step>, i: nat, k: string)
    requires Run(steps).Some? && Uncertain(Run(steps).value, i, k)
    ensures var s := Run(steps).value;
            s.ops[i].installs == 0 <==> exists j :: Beaten(s, i, j, k)
  {
    var s := Run(steps).value;
    Invariant(steps);
    TimelyIsContained(steps, i);
    assert RecordOk(s, i);
    var t := s.ops[i].point.value;
    if s.ops[i].installs == 0 {
      assert Versioned(At(s, t));
      Monotone(s, s.ops[i].called, t, k);
      var j := Installer(s, s.ops[i].called, t, k);
      assert Beaten(s, i, j, k);
    }
    forall j: nat | Beaten(s, i, j, k) ensures s.ops[i].installs == 0 {
      if s.ops[i].installs > 0 { InstallersDiffer(s, i, j, k); }
    }
  }

  ghost predicate SoleWriter(s: State, c: nat, k: string) {
    forall j :: 0 <= j < |s.ops| && IsPut(s, j, k) ==> s.ops[j].client == c
  }

  // Two Puts of one client do not overlap, so neither beats the other.
  lemma NotByItself(s: State, i: nat, j: nat, k: string)
    requires Inv(s) && IsPut(s, i, k) && IsPut(s, j, k) && s.ops[i].client == s.ops[j].client
    requires s.ops[i].result.Some? && !Overran(s.ops[j])
    ensures !Beaten(s, i, j, k)
  {
    assert RecordOk(s, j);
    assert i < j ==> InTurn(s, i, j);
    assert j < i ==> InTurn(s, j, i);
  }

  // So with a single writer it was installed, exactly once.
  lemma SoleWriterMaybe(steps: seq<Step>, i: nat, k: string)
    requires Run(steps).Some? && Uncertain(Run(steps).value, i, k) && Orderly(steps, k)
    requires SoleWriter(Run(steps).value, Run(steps).value.ops[i].client, k)
    ensures Run(steps).value.ops[i].installs == 1
  {
    var s := Run(steps).value;
    Invariant(steps);
    assert RecordOk(s, i);
    MaybeMeans(steps, i, k);
    forall j: nat | j < |s.ops| && IsPut(s, j, k) ensures !Beaten(s, i, j, k) {
      OrderlyIsContained(steps, k, j);
      NotByItself(s, i, j, k);
    }
  }

  // ----- counting

  ghost function Installs(s: State, k: string, t: nat): set<nat> {
    set i: nat | i < |s.ops| && Installed(s, i, k) && s.ops[i].point.Some? && s.ops[i].point.value < t
  }

  ghost function Answers(s: State, k: string, err: Err): set<nat> {
    set i: nat | i < |s.ops| && Answered(s, i, k, err)
  }

  ghost function Unfinished(s: State, k: string): set<nat> {
    set i: nat | i < |s.ops| && Pending(s, i, k)
  }

  lemma OneMoreInstall(s: State, k: string, t: nat, i: nat)
    requires Inv(s) && Installed(s, i, k) && Took(s, i, t)
    ensures Installs(s, k, t + 1) == Installs(s, k, t) + {i} && i !in Installs(s, k, t)
  {
    forall j | j in Installs(s, k, t + 1) && j !in Installs(s, k, t) ensures j == i {
      assert Took(s, j, t);
    }
  }

  lemma NoMoreInstalls(s: State, k: string, t: nat)
    requires forall i: nat :: Took(s, i, t) ==> !Installed(s, i, k)
    ensures Installs(s, k, t + 1) == Installs(s, k, t)
  {
    forall j | j in Installs(s, k, t + 1) ensures j in Installs(s, k, t) {
      if s.ops[j].point.value == t { assert Took(s, j, t); }
    }
  }

  lemma CountStep(s: State, k: string, t: nat)
    requires Inv(s) && t < |s.past|
    ensures Version(At(s, t + 1), k) - Version(At(s, t), k) == |Installs(s, k, t + 1)| - |Installs(s, k, t)|
  {
    OneStep(s, t, k);
    if i: nat :| Installed(s, i, k) && Took(s, i, t) {
      OneMoreInstall(s, k, t, i);
    } else {
      NoMoreInstalls(s, k, t);
    }
  }

  lemma {:induction false} VersionIsCount(s: State, k: string, t: nat)
    requires Inv(s) && t <= |s.past|
    ensures Version(At(s, t), k) == |Installs(s, k, t)|
  {
    if t == 0 {
      assert At(s, 0) == map[];
      assert Installs(s, k, 0) == {};
    } else {
      VersionIsCount(s, k, t - 1);
      CountStep(s, k, t - 1);
    }
  }

  // A key's version is the number of Puts installed on it. So it lies between
  // the OK answers and the answers that may have been installs; an ErrNoKey is
  // one of those only if given-up attempts execute and a version was to come.
  lemma VersionBounds(steps: seq<Step>, k: string)
    requires Run(steps).Some?
    ensures var s := Run(steps).value;
            var ok, most := |Answers(s, k, OK)|, |Answers(s, k, OK)| + |Answers(s, k, ErrMaybe)| + |Unfinished(s, k)|;
            && Version(s.store, k) == |Installs(s, k, |s.past|)|
            && ok <= Version(s.store, k) <= most + |Answers(s, k, ErrNoKey)|
            && (Orderly(steps, k) ==> Version(s.store, k) <= most)
  {
    var s := Run(steps).value;
    Invariant(steps);
    VersionIsCount(s, k, |s.past|);
    var all := Installs(s, k, |s.past|);
    var ok, maybe, rest, noKey := Answers(s, k, OK), Answers(s, k, ErrMaybe), Unfinished(s, k), Answers(s, k, ErrNoKey);
    forall i | i in ok ensures i in all { assert RecordOk(s, i); }
    Smaller(ok, all);
    forall i | i in all ensures i in ok + maybe + rest + noKey { Installers(s, i, k); }
    Smaller(all, ok + maybe + rest + noKey);
    if Orderly(steps, k) {
      forall i | i in all ensures i in ok + maybe + rest { AtMostOnce(steps, i, k); }
      Smaller(all, ok + maybe + rest);
    }
  }

  // What an installed Put can have answered.
  lemma Installers(s: State, i: nat, k: string)
    requires Inv(s) && Installed(s, i, k)
    ensures Answered(s, i, k, OK) || Answered(s, i, k, ErrMaybe) || Pending(s, i, k) || Answered(s, i, k, ErrNoKey)
  {
    assert RecordOk(s, i);
    if s.ops[i].result.Some? {
      var err := s.ops[i].result.value.err;
      assert err.OK? || err.ErrNoKey? || err.ErrVersion? || err.ErrMaybe?;
    }
  }

  // ----- the reliable network

  ghost predicate Reliable(steps: seq<Step>) {
    forall n :: 0 <= n < |steps| ==>
      !steps[n].Late? && (steps[n].Net? ==> steps[n].move == Execute || steps[n].move == Deliver)
  }

  ghost predicate FirstTry(s: State) {
    && (forall c :: c in s.busy && s.busy[c].call.PutCall? ==> s.busy[c].call.first)
    && (forall i, k :: !Answered(s, i, k, ErrMaybe))
  }

  lemma {:induction false} ReliableRuns(steps: seq<Step>)
    requires Run(steps).Some? && Reliable(steps)
    ensures FirstTry(Run(steps).value)
  {
    if steps != [] {
      var shorter := steps[..|steps| - 1];
      ReliableRuns(shorter);
      var s, s' := Run(shorter).value, Run(steps).value;
      Invariant(shorter);
      var last := steps[|steps| - 1];
      assert last == steps[|steps| - 1];
      if last.Net? { assert BusyOk(s, last.client) && RecordOk(s, s.busy[last.client].id); }
      forall i: nat, k ensures !Answered(s', i, k, ErrMaybe) {
        assert !Answered(s, i, k, ErrMaybe);
      }
    }
  }

  // With no losses and every Put finished, the version is the number of OKs.
  lemma ReliableCount(steps: seq<Step>, k: string)
    requires Run(steps).Some? && Reliable(steps) && Unfinished(Run(steps).value, k) == {}
    ensures var s := Run(steps).value; Version(s.store, k) == |Answers(s, k, OK)|
  {
    VersionBounds(steps, k);
    ReliableRuns(steps);
    assert Answers(Run(steps).value, k, ErrMaybe) == {};
  }
}
