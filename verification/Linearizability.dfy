/** Runs of clerks over the lossy network are linearizable, against the
    sequential store and, key by key, against the checker's own model: all runs
    if no given-up attempt executes, and those whose Puts name no version still
    to come if one does. */
module Linearizability {
  import opened Options
  import opened Kv
  import opened Calls
  import opened History
  import opened Containment

  // ----- the sequential specification

  function SpecNext(store: Store<Val>, op: Op): Store<Val> {
    if op.PutOp? && op.args.version == Version(store, op.args.key)
    then store[op.args.key := Entry(op.args.value, op.args.version + 1)]
    else store
  }

  // out is None for an operation that has not returned.
  predicate SpecAllows(store: Store<Val>, op: Op, out: Option<Output<Val>>) {
    match op
    case GetOp(key) => out == Some(GetOut(HandleGet(store, key)))
    case PutOp(a) =>
      if a.version == Version(store, a.key) then
        out == None || out == Some(PutOut(OK)) || out == Some(PutOut(ErrMaybe))
      else if a.key in store then
        out == Some(PutOut(ErrVersion)) || out == Some(PutOut(ErrMaybe))
      else
        out == Some(PutOut(ErrNoKey))
  }

  // Runs the operations one after the other; None if one answers wrongly.
  function Replay(ops: seq<Record>, order: seq<nat>): Option<Store<Val>> {
    if order == [] then Some(map[])
    else
      var before := Replay(ops, order[..|order| - 1]);
      var i := order[|order| - 1];
      if before.Some? && i < |ops| && SpecAllows(before.value, ops[i].op, ops[i].result)
      then Some(SpecNext(before.value, ops[i].op))
      else None
  }

  ghost predicate Linearizes(s: State, order: seq<nat>) {
    && Replay(s.ops, order) == Some(s.store)
    && (forall p, q :: 0 <= p < q < |order| ==> order[p] != order[q])
    && (forall i :: i in order ==> i < |s.ops|)
    && (forall i :: 0 <= i < |s.ops| && s.ops[i].result.Some? ==> i in order)
    && (forall p, q :: 0 <= p < q < |order| ==> !Precedes(s, order[q], order[p]))
  }

  // Operation i returned before operation j was called.
  ghost predicate Precedes(s: State, i: nat, j: nat) {
    i < |s.ops| && j < |s.ops| && s.ops[i].result.Some? && s.ops[i].returned < s.ops[j].called
  }

  // ----- the linearization: operations in the order of their points

  ghost predicate Settled(s: State, i: nat) {
    && i < |s.ops| && s.ops[i].point.Some?
    && (s.ops[i].result.Some? || s.ops[i].installs == 1)
  }

  ghost predicate SettledAt(s: State, i: nat, t: nat) {
    Settled(s, i) && s.ops[i].point.value == t
  }

  ghost predicate SomeSettle(s: State, t: nat) {
    exists i: nat :: SettledAt(s, i, t)
  }

  // Every operation takes effect inside its call.
  ghost predicate Contained(s: State) {
    forall i :: 0 <= i < |s.ops| ==> !Overran(s.ops[i])
  }

  ghost function Order(s: State, t: nat): seq<nat> {
    if t == 0 then []
    else if SomeSettle(s, t - 1) then
      var i: nat :| SettledAt(s, i, t - 1);
      Order(s, t - 1) + [i]
    else Order(s, t - 1)
  }

  lemma {:induction false} OrderElements(s: State, t: nat)
    requires Inv(s)
    ensures forall i :: i in Order(s, t) ==> Settled(s, i) && s.ops[i].point.value < t
    ensures forall i: nat :: Settled(s, i) && s.ops[i].point.value < t ==> i in Order(s, t)
  {
    if t > 0 {
      OrderElements(s, t - 1);
      forall i: nat | Settled(s, i) && s.ops[i].point.value < t ensures i in Order(s, t) {
        if s.ops[i].point.value == t - 1 {
          assert SettledAt(s, i, t - 1);
          var j := Order(s, t)[|Order(s, t)| - 1];
          assert Took(s, i, t - 1) && Took(s, j, t - 1);
        }
      }
    }
  }

  ghost predicate Before(s: State, i: nat, j: nat) {
    Settled(s, i) && Settled(s, j) && s.ops[i].point.value < s.ops[j].point.value
  }

  ghost predicate Ascending(s: State, o: seq<nat>) {
    forall p, q :: 0 <= p < q < |o| ==> Before(s, o[p], o[q])
  }

  lemma {:induction false} OrderSorted(s: State, t: nat)
    requires Inv(s)
    ensures Ascending(s, Order(s, t))
  {
    if t > 0 {
      OrderSorted(s, t - 1);
      OrderElements(s, t - 1);
      var o := Order(s, t - 1);
      assert forall p :: 0 <= p < |o| ==> o[p] in o;
      if SomeSettle(s, t - 1) {
        var i := Order(s, t)[|o|];
        assert Order(s, t) == o + [i] && SettledAt(s, i, t - 1);
        assert forall p :: 0 <= p < |o| ==> Before(s, o[p], i);
      }
    }
  }

  // Where nothing settles, the store stays as it is.
  lemma Unsettled(s: State, t: nat)
    requires Inv(s) && t < |s.past| && !SomeSettle(s, t)
    ensures At(s, t + 1) == At(s, t)
  {
    assert Explained(s, t);
    forall i: nat | Took(s, i, t) ensures At(s, t + 1) == At(s, t) {
      assert RecordOk(s, i) && !SettledAt(s, i, t);
    }
  }

  // Where an operation settles, the specification allows its answer and agrees
  // on its effect.
  lemma SpecAgrees(s: State, i: nat, t: nat)
    requires Inv(s) && Contained(s) && t < |s.past| && SettledAt(s, i, t)
    ensures SpecAllows(At(s, t), s.ops[i].op, s.ops[i].result)
    ensures SpecNext(At(s, t), s.ops[i].op) == At(s, t + 1)
  {
    assert RecordOk(s, i) && Versioned(At(s, t));
  }

  // Replaying the operations whose points lie before t gives the store at t.
  lemma {:induction false} ReplayOrder(s: State, t: nat)
    requires Inv(s) && Contained(s) && t <= |s.past|
    ensures Replay(s.ops, Order(s, t)) == Some(At(s, t))
  {
    if t > 0 {
      ReplayOrder(s, t - 1);
      if SomeSettle(s, t - 1) {
        var i := Order(s, t)[|Order(s, t)| - 1];
        assert Order(s, t)[..|Order(s, t)| - 1] == Order(s, t - 1);
        SpecAgrees(s, i, t - 1);
      } else {
        Unsettled(s, t - 1);
      }
    }
  }

  lemma ContainedLinearizes(s: State)
    requires Inv(s) && Contained(s)
    ensures Linearizes(s, Order(s, |s.past|))
  {
    var order := Order(s, |s.past|);
    ReplayOrder(s, |s.past|);
    OrderElements(s, |s.past|);
    OrderSorted(s, |s.past|);
    forall i | 0 <= i < |s.ops| && s.ops[i].result.Some? ensures i in order {
      assert RecordOk(s, i);
      assert Settled(s, i);
    }
    forall p, q | 0 <= p < q < |order| ensures !Precedes(s, order[q], order[p]) {
      assert Before(s, order[p], order[q]);
      assert RecordOk(s, order[p]) && RecordOk(s, order[q]);
    }
  }

  lemma OrderlyContained(steps: seq<Step>)
    requires Run(steps).Some? && forall k :: Orderly(steps, k)
    ensures Inv(Run(steps).value) && Contained(Run(steps).value)
  {
    Invariant(steps);
    var s := Run(steps).value;
    forall i | 0 <= i < |s.ops| ensures !Overran(s.ops[i]) { OrderlyIsContained(steps, Key(s.ops[i].op), i); }
  }

  lemma Linearizable(steps: seq<Step>)
    requires Run(steps).Some? && forall k :: Orderly(steps, k)
    ensures var s := Run(steps).value; Linearizes(s, Order(s, |s.past|))
  {
    OrderlyContained(steps);
    ContainedLinearizes(Run(steps).value);
  }

  // ----- key by key, against the checker's model

  datatype KvState = KvState(value: Val, version: nat)

  const KV_INIT := KvState("", 0)

  function KeyState(store: Store<Val>, k: string): KvState {
    if k in store then KvState(store[k].value, store[k].version) else KV_INIT
  }

  // An operation still pending is shown to the model as one that answered OK.
  function ModelStep(st: KvState, op: Op, out: Option<Output<Val>>): (bool, KvState) {
    match op
    case GetOp(_) =>
      (out.Some? && out.value.GetOut? && st.value == (if out.value.got.Got? then out.value.got.value else ""), st)
    case PutOp(a) =>
      var err := if out.None? then OK else if out.value.PutOut? then out.value.err else ErrNoKey;
      if st.version == a.version then
        (err == OK || err == ErrMaybe, KvState(a.value, st.version + 1))
      else
        (err == ErrVersion || err == ErrMaybe, st)
  }

  function ModelRun(ops: seq<Record>, order: seq<nat>): Option<KvState> {
    if order == [] then Some(KV_INIT)
    else
      var before := ModelRun(ops, order[..|order| - 1]);
      var i := order[|order| - 1];
      if before.Some? && i < |ops| && ModelStep(before.value, ops[i].op, ops[i].result).0
      then Some(ModelStep(before.value, ops[i].op, ops[i].result).1)
      else None
  }

  // One key's share of an order.
  function OnKey(ops: seq<Record>, order: seq<nat>, k: string): seq<nat> {
    if order == [] then []
    else
      var i := order[|order| - 1];
      OnKey(ops, order[..|order| - 1], k) + (if i < |ops| && Key(ops[i].op) == k then [i] else [])
  }

  predicate NoKeyAnswer(ops: seq<Record>, i: nat) {
    i < |ops| && ops[i].op.PutOp? && ops[i].result == Some(PutOut(ErrNoKey))
  }

  // One step of the specification, seen by the model of its key.
  lemma ModelStepFollows(store: Store<Val>, op: Op, out: Option<Output<Val>>)
    requires Versioned(store) && SpecAllows(store, op, out)
    ensures var k := Key(op);
            var (ok, st) := ModelStep(KeyState(store, k), op, out);
            && Versioned(SpecNext(store, op))
            && (ok <==> !(op.PutOp? && out == Some(PutOut(ErrNoKey))))
            && (ok ==> st == KeyState(SpecNext(store, op), k))
  {
  }

  // The model has no ErrNoKey for a Put; it accepts a key's operations
  // exactly when none of them answered so.
  lemma {:induction false} ModelFollows(ops: seq<Record>, order: seq<nat>, k: string)
    requires Replay(ops, order).Some?
    ensures Versioned(Replay(ops, order).value)
    ensures ModelRun(ops, OnKey(ops, order, k)).Some? <==>
            (forall i :: i in OnKey(ops, order, k) ==> !NoKeyAnswer(ops, i))
    ensures ModelRun(ops, OnKey(ops, order, k)).Some? ==>
              ModelRun(ops, OnKey(ops, order, k)).value == KeyState(Replay(ops, order).value, k)
  {
    if order != [] {
      var shorter := order[..|order| - 1];
      var i := order[|order| - 1];
      ModelFollows(ops, shorter, k);
      ModelStepFollows(Replay(ops, shorter).value, ops[i].op, ops[i].result);
      if Key(ops[i].op) == k {
        var keyed := OnKey(ops, order, k);
        assert keyed == OnKey(ops, shorter, k) + [i];
        assert keyed[..|keyed| - 1] == OnKey(ops, shorter, k);
        assert i in keyed && forall j :: j in OnKey(ops, shorter, k) ==> j in keyed;
      } else {
        assert OnKey(ops, order, k) == OnKey(ops, shorter, k);
      }
    }
  }

  lemma LinearizablePerKey(steps: seq<Step>, k: string)
    requires Run(steps).Some? && forall x :: Orderly(steps, x)
    ensures var s := Run(steps).value;
            var keyed := OnKey(s.ops, Order(s, |s.past|), k);
            && (ModelRun(s.ops, keyed) == Some(KeyState(s.store, k)) <==>
                 forall i :: 0 <= i < |s.ops| && Key(s.ops[i].op) == k ==> !NoKeyAnswer(s.ops, i))
            && (ModelRun(s.ops, keyed) == None <==>
                 exists i :: 0 <= i < |s.ops| && Key(s.ops[i].op) == k && NoKeyAnswer(s.ops, i))
  {
    var s := Run(steps).value;
    var order := Order(s, |s.past|);
    Linearizable(steps);
    ModelFollows(s.ops, order, k);
    OnKeyElements(s.ops, order, k);
    forall i | 0 <= i < |s.ops| && Key(s.ops[i].op) == k && NoKeyAnswer(s.ops, i)
      ensures i in OnKey(s.ops, order, k)
    {
      assert i in order;
    }
  }

  lemma {:induction false} OnKeyElements(ops: seq<Record>, order: seq<nat>, k: string)
    ensures forall i :: i in OnKey(ops, order, k) <==> i in order && i < |ops| && Key(ops[i].op) == k
  {
    if order != [] {
      OnKeyElements(ops, order[..|order| - 1], k);
      assert order == order[..|order| - 1] + [order[|order| - 1]];
    }
  }

  // With Puts that name no version still to come, the model accepts every key.
  lemma TimelyPerKey(steps: seq<Step>, k: string)
    requires Run(steps).Some? && forall i :: 0 <= i < |Run(steps).value.ops| ==> Timely(Run(steps).value, i)
    ensures var s := Run(steps).value;
            ModelRun(s.ops, OnKey(s.ops, Order(s, |s.past|), k)) == Some(KeyState(s.store, k))
  {
    var s := Run(steps).value;
    assert forall x :: Orderly(steps, x);
    OrderlyContained(steps);
    LinearizablePerKey(steps, k);
    forall i | 0 <= i < |s.ops| ensures !NoKeyAnswer(s.ops, i) {
      if s.ops[i].op.PutOp? { TimelyFindsKey(s, i); }
    }
  }
}
