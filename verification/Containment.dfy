/** When an operation takes effect inside its call: always if no given-up attempt
    executes, and always if its Put names a version that the key has reached. */
module Containment {
  import opened Options
  import opened Kv
  import opened Calls
  import opened History
  import opened Versions

  // A Put that names no version still to come.
  predicate Timely(s: State, i: nat)
    requires i < |s.ops|
  {
    s.ops[i].called < |s.past| && s.ops[i].op.PutOp? ==>
      s.ops[i].op.args.version <= Version(At(s, s.ops[i].called), s.ops[i].op.args.key)
  }

  // The network in which a given-up attempt is gone.
  predicate Plain(steps: seq<Step>) {
    forall m :: 0 <= m < |steps| ==> !steps[m].Late?
  }

  // Once a timely Put has returned, its version is taken.
  lemma Taken(s: State, i: nat)
    requires Inv(s) && i < |s.ops| && s.ops[i].op.PutOp? && s.ops[i].result.Some?
    requires Timely(s, i) && !Overran(s.ops[i])
    ensures s.ops[i].op.args.version < Version(s.store, s.ops[i].op.args.key)
  {
    var r := s.ops[i];
    var k := r.op.args.key;
    assert RecordOk(s, i);
    Monotone(s, r.called, r.point.value, k);
    Monotone(s, r.point.value, |s.past|, k);
  }

  // The two steps at which a Put could overrun: a given-up attempt executes, or
  // its answer is delivered.
  lemma TimelyLate(s: State, i: nat)
    requires Inv(s) && Enabled(s, Late(i)) && Timely(s, i) && !Overran(s.ops[i])
    ensures !Overran(Next(s, Late(i)).ops[i])
  {
    assert RecordOk(s, i) && Versioned(At(s, |s.past|));
    if s.ops[i].result.Some? { Taken(s, i); }
  }

  lemma TimelyNet(s: State, c: nat, move: Move)
    requires Inv(s) && Enabled(s, Net(c, move)) && Timely(s, s.busy[c].id)
    ensures !Overran(Next(s, Net(c, move)).ops[s.busy[c].id])
  {
    assert BusyOk(s, c) && RecordOk(s, s.busy[c].id);
  }

  lemma TimelyStep(s: State, step: Step, i: nat)
    requires Inv(s) && Enabled(s, step) && i < |s.ops| && Timely(Next(s, step), i)
    requires Timely(s, i) ==> !Overran(s.ops[i])
    ensures !Overran(Next(s, step).ops[i])
  {
    StillTimely(s, step, i);
    match step {
      case Invoke(_, _) =>
      case Net(c, move) => if i == s.busy[c].id { TimelyNet(s, c, move); }
      case Late(l) => if i == l { TimelyLate(s, i); }
    }
  }

  lemma StillTimely(s: State, step: Step, i: nat)
    requires Inv(s) && Enabled(s, step) && i < |s.ops| && Timely(Next(s, step), i)
    ensures Timely(s, i)
  {
    Past(s, step);
    assert RecordOk(s, i);
  }

  // A timely Put takes effect inside its call, whatever executes late.
  lemma {:induction false} TimelyIsContained(steps: seq<Step>, i: nat)
    requires Run(steps).Some? && i < |Run(steps).value.ops| && Timely(Run(steps).value, i)
    ensures !Overran(Run(steps).value.ops[i])
  {
    var shorter, last := steps[..|steps| - 1], steps[|steps| - 1];
    var s := Run(shorter).value;
    Invariant(shorter);
    if i < |s.ops| {
      if Timely(s, i) { TimelyIsContained(shorter, i); }
      TimelyStep(s, last, i);
    }
  }

  // And is never told that there is no such key.
  lemma TimelyFindsKey(s: State, i: nat)
    requires Inv(s) && i < |s.ops| && s.ops[i].op.PutOp? && Timely(s, i) && !Overran(s.ops[i])
    ensures s.ops[i].result != Some(PutOut(ErrNoKey))
  {
    assert RecordOk(s, i);
    if s.ops[i].result.Some? { Monotone(s, s.ops[i].called, s.ops[i].point.value, s.ops[i].op.args.key); }
  }

  // ----- the plain network

  // The operation was installed, and is about to answer that there is no key.
  predicate Doomed(s: State, i: nat) {
    && i < |s.ops| && s.ops[i].installs > 0
    && s.ops[i].client in s.busy
    && var b := s.busy[s.ops[i].client];
    && b.id == i && b.call.PutCall? && b.call.reply == Some(ErrNoKey)
  }

  lemma PlainNet(s: State, c: nat, move: Move)
    requires Inv(s) && Enabled(s, Net(c, move)) && !Doomed(s, s.busy[c].id)
    ensures var i, s' := s.busy[c].id, Next(s, Net(c, move)); !Overran(s'.ops[i]) && !Doomed(s', i)
  {
    assert BusyOk(s, c) && RecordOk(s, s.busy[c].id) && Versioned(At(s, |s.past|));
  }

  lemma PlainStep(s: State, step: Step, i: nat)
    requires Inv(s) && Enabled(s, step) && !step.Late? && i < |Next(s, step).ops|
    requires i < |s.ops| ==> !Overran(s.ops[i]) && !Doomed(s, i)
    ensures !Overran(Next(s, step).ops[i]) && !Doomed(Next(s, step), i)
  {
    if step.Net? && i == s.busy[step.client].id { PlainNet(s, step.client, step.move); }
  }

  lemma {:induction false} PlainIsContained(steps: seq<Step>, i: nat)
    requires Run(steps).Some? && Plain(steps) && i < |Run(steps).value.ops|
    ensures !Overran(Run(steps).value.ops[i]) && !Doomed(Run(steps).value, i)
  {
    var shorter, last := steps[..|steps| - 1], steps[|steps| - 1];
    assert last == steps[|steps| - 1];
    if i < |Run(shorter).value.ops| { PlainIsContained(shorter, i); }
    Invariant(shorter);
    PlainStep(Run(shorter).value, last, i);
  }

  // ----- both

  // What keeps the operations on a key inside their calls: the plain network, or
  // callers that name no version still to come.
  ghost predicate Orderly(steps: seq<Step>, k: string)
    requires Run(steps).Some?
  {
    var s := Run(steps).value;
    Plain(steps) || forall i :: 0 <= i < |s.ops| && Key(s.ops[i].op) == k ==> Timely(s, i)
  }

  lemma OrderlyIsContained(steps: seq<Step>, k: string, i: nat)
    requires Run(steps).Some? && Orderly(steps, k) && i < |Run(steps).value.ops| && Key(Run(steps).value.ops[i].op) == k
    ensures !Overran(Run(steps).value.ops[i])
  {
    if Plain(steps) { PlainIsContained(steps, i); } else { TimelyIsContained(steps, i); }
  }
}
