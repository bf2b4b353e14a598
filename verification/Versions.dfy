/** Versions of a key over a whole run: they count up by installs, and each fixes
    its value. */
module Versions {
  import opened Options
  import opened Kv
  import opened History

  ghost predicate IsPut(s: State, i: nat, k: string) {
    i < |s.ops| && s.ops[i].op.PutOp? && s.ops[i].op.args.key == k
  }

  ghost predicate Installed(s: State, i: nat, k: string) {
    IsPut(s, i, k) && s.ops[i].installs > 0
  }

  // What one step does to a key.
  lemma OneStep(s: State, t: nat, k: string)
    requires Inv(s) && t < |s.past|
    ensures HandleGet(At(s, t + 1), k) == HandleGet(At(s, t), k) ||
            exists i: nat :: Installed(s, i, k) && Took(s, i, t)
    ensures forall i: nat :: Installed(s, i, k) && Took(s, i, t) ==>
              && s.ops[i].op.args.version == Version(At(s, t), k)
              && Version(At(s, t + 1), k) == Version(At(s, t), k) + 1
  {
    assert Explained(s, t);
    assert Versioned(At(s, t));
    forall i: nat | Took(s, i, t)
      ensures HandleGet(At(s, t + 1), k) == HandleGet(At(s, t), k) || Installed(s, i, k)
    {
      assert RecordOk(s, i);
    }
    forall i: nat | Installed(s, i, k) && Took(s, i, t)
      ensures s.ops[i].op.args.version == Version(At(s, t), k)
      ensures Version(At(s, t + 1), k) == Version(At(s, t), k) + 1
    {
      assert RecordOk(s, i);
    }
    if HandleGet(At(s, t + 1), k) != HandleGet(At(s, t), k) {
      var i: nat :| Took(s, i, t);
      assert Installed(s, i, k);
    }
  }

  lemma {:induction false} Monotone(s: State, t: nat, u: nat, k: string)
    requires Inv(s) && t <= u <= |s.past|
    ensures Version(At(s, t), k) <= Version(At(s, u), k)
    ensures Version(At(s, t), k) == Version(At(s, u), k) ==> HandleGet(At(s, t), k) == HandleGet(At(s, u), k)
    decreases u - t
  {
    if t < u {
      Monotone(s, t, u - 1, k);
      OneStep(s, u - 1, k);
    }
  }

  // A version of a key, once seen, always means the same value.
  lemma VersionFixesValue(steps: seq<Step>, t: nat, u: nat, k: string)
    requires Run(steps).Some? && t <= u <= |Run(steps).value.past|
    ensures var s := Run(steps).value;
            && Version(At(s, t), k) <= Version(At(s, u), k)
            && (Version(At(s, t), k) == Version(At(s, u), k) ==> HandleGet(At(s, t), k) == HandleGet(At(s, u), k))
  {
    Invariant(steps);
    Monotone(Run(steps).value, t, u, k);
  }

  lemma InstallersDiffer(s: State, i: nat, j: nat, k: string)
    requires Inv(s) && Installed(s, i, k) && Installed(s, j, k) && i != j
    ensures s.ops[i].op.args.version != s.ops[j].op.args.version
  {
    assert RecordOk(s, i) && RecordOk(s, j);
    var t, u := s.ops[i].point.value, s.ops[j].point.value;
    assert Took(s, i, t) && Took(s, j, u);
    OneStep(s, t, k);
    OneStep(s, u, k);
    if t < u { Monotone(s, t + 1, u, k); } else { Monotone(s, u + 1, t, k); }
  }

  lemma OneInstallPerVersion(steps: seq<Step>, i: nat, j: nat, k: string)
    requires Run(steps).Some?
    requires Installed(Run(steps).value, i, k) && Installed(Run(steps).value, j, k) && i != j
    ensures var s := Run(steps).value; s.ops[i].op.args.version != s.ops[j].op.args.version
  {
    Invariant(steps);
    InstallersDiffer(Run(steps).value, i, j, k);
  }

  // Between two moments at which a key's version differs, somebody installs
  // on top of the first version.
  lemma {:induction false} Installer(s: State, t: nat, u: nat, k: string) returns (j: nat)
    requires Inv(s) && t < u <= |s.past|
    requires Version(At(s, t), k) < Version(At(s, u), k)
    ensures Installed(s, j, k) && s.ops[j].op.args.version == Version(At(s, t), k)
    ensures s.ops[j].point.Some? && t <= s.ops[j].point.value < u
    decreases u - t
  {
    OneStep(s, t, k);
    if Version(At(s, t + 1), k) == Version(At(s, t), k) {
      j := Installer(s, t + 1, u, k);
    } else {
      j :| Installed(s, j, k) && Took(s, j, t);
    }
  }
}
