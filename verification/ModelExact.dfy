/** Which histories the checker's model accepts, and which the sequential store
    accepts, said of the operations themselves: how many Puts before one have
    succeeded, and what the last of them put there. */
module ModelExact {
  import opened Options
  import opened Kv
  import opened Calls
  import opened History
  import opened Linearizability

  // ----- the Puts that succeed

  // A Put on one key succeeds if it names the number of Puts that did before it.
  predicate Hits(r: Record, before: nat) { r.op.PutOp? && r.op.args.version == before }

  // How many of the operations, all on one key, do.
  function Wins(ops: seq<Record>, order: seq<nat>): nat {
    if order == [] then 0
    else
      var before, i := Wins(ops, order[..|order| - 1]), order[|order| - 1];
      if i < |ops| && Hits(ops[i], before) then before + 1 else before
  }

  // What the last of them put there.
  function Shown(ops: seq<Record>, order: seq<nat>): Val {
    if order == [] then ""
    else
      var before, i := order[..|order| - 1], order[|order| - 1];
      if i < |ops| && Hits(ops[i], Wins(ops, before)) then ops[i].op.args.value else Shown(ops, before)
  }

  predicate Succeeds(ops: seq<Record>, order: seq<nat>, p: nat) {
    p < |order| && order[p] < |ops| && Hits(ops[order[p]], Wins(ops, order[..p]))
  }

  ghost function Successes(ops: seq<Record>, order: seq<nat>): set<nat> {
    set p: nat | p < |order| && Succeeds(ops, order, p)
  }

  lemma {:induction false} WinsCount(ops: seq<Record>, order: seq<nat>)
    ensures Wins(ops, order) == |Successes(ops, order)|
    ensures Successes(ops, order) == {} ==> Shown(ops, order) == ""
    ensures Successes(ops, order) != {} ==>
              exists p :: p in Successes(ops, order) && (forall q :: q in Successes(ops, order) ==> q <= p) &&
                          ops[order[p]].op.PutOp? && Shown(ops, order) == ops[order[p]].op.args.value
  {
    if order != [] {
      var shorter, n := order[..|order| - 1], |order| - 1;
      WinsCount(ops, shorter);
      forall p: nat | p < n ensures Succeeds(ops, order, p) <==> Succeeds(ops, shorter, p) {
        assert shorter[..p] == order[..p];
      }
      assert Successes(ops, order) == Successes(ops, shorter) + if Succeeds(ops, order, n) then {n} else {};
      if Succeeds(ops, order, n) {
        assert n in Successes(ops, order);
      } else {
        assert Successes(ops, order) == Successes(ops, shorter);
      }
    } else {
      assert Successes(ops, order) == {};
    }
  }

  // ----- the checker's model

  // A right answer, after these operations on the same key, by the model.
  ghost predicate Right(ops: seq<Record>, before: seq<nat>, i: nat) {
    && i < |ops|
    && match ops[i].op
       case GetOp(_) =>
         && ops[i].result.Some? && ops[i].result.value.GetOut?
         && Shown(ops, before) == (match ops[i].result.value.got case NoKey => "" case Got(v, _) => v)
       case PutOp(a) =>
         if a.version == Wins(ops, before) then
           ops[i].result in {None, Some(PutOut(OK)), Some(PutOut(ErrMaybe))}
         else
           ops[i].result in {Some(PutOut(ErrVersion)), Some(PutOut(ErrMaybe))}
  }

  ghost predicate AllRight(ops: seq<Record>, order: seq<nat>) {
    forall p :: 0 <= p < |order| ==> Right(ops, order[..p], order[p])
  }

  lemma AllRightSnoc(ops: seq<Record>, before: seq<nat>, i: nat)
    ensures AllRight(ops, before + [i]) <==> AllRight(ops, before) && Right(ops, before, i)
  {
    var order := before + [i];
    assert order[..|before|] == before && order[|before|] == i;
    assert forall p :: 0 <= p < |before| ==> order[..p] == before[..p] && order[p] == before[p];
  }

  // The model accepts a history of one key exactly when every answer is right,
  // and then shows the last value and the number of Puts that succeeded.
  lemma {:induction false} ModelExactly(ops: seq<Record>, order: seq<nat>)
    ensures ModelRun(ops, order).Some? <==> AllRight(ops, order)
    ensures ModelRun(ops, order).Some? ==>
              ModelRun(ops, order).value == KvState(Shown(ops, order), Wins(ops, order))
  {
    if order != [] {
      var shorter, i := order[..|order| - 1], order[|order| - 1];
      ModelExactly(ops, shorter);
      AllRightSnoc(ops, shorter, i);
      assert order == shorter + [i];
      if i < |ops| { ModelStepExact(ops, shorter, i); }
    }
  }

  lemma ModelStepExact(ops: seq<Record>, before: seq<nat>, i: nat)
    requires i < |ops|
    ensures var st := KvState(Shown(ops, before), Wins(ops, before));
            var (ok, st') := ModelStep(st, ops[i].op, ops[i].result);
            && (ok <==> Right(ops, before, i))
            && st' == if Hits(ops[i], Wins(ops, before)) then KvState(ops[i].op.args.value, Wins(ops, before) + 1) else st
  {
    match ops[i].result {
      case None =>
      case Some(GetOut(got)) =>
      case Some(PutOut(err)) => assert err.OK? || err.ErrNoKey? || err.ErrVersion? || err.ErrMaybe?;
    }
  }

  // ----- the sequential store

  // A right answer, after these operations on all keys, by the store: a Get
  // shows the version as well, and a Put ahead of an absent key is told so.
  ghost predicate Exact(ops: seq<Record>, before: seq<nat>, i: nat) {
    && i < |ops|
    && var same := OnKey(ops, before, Key(ops[i].op));
       var n := Wins(ops, same);
       match ops[i].op
       case GetOp(_) => ops[i].result == Some(GetOut(if n == 0 then NoKey else Got(Shown(ops, same), n)))
       case PutOp(a) =>
         if a.version == n then ops[i].result in {None, Some(PutOut(OK)), Some(PutOut(ErrMaybe))}
         else if n > 0 then ops[i].result in {Some(PutOut(ErrVersion)), Some(PutOut(ErrMaybe))}
         else ops[i].result == Some(PutOut(ErrNoKey))
  }

  // What the store holds of a key after these operations.
  ghost predicate Holds(ops: seq<Record>, order: seq<nat>, store: Store<Val>, k: string) {
    HoldsShare(ops, OnKey(ops, order, k), HandleGet(store, k))
  }

  ghost predicate AllExact(ops: seq<Record>, order: seq<nat>) {
    forall p :: 0 <= p < |order| ==> Exact(ops, order[..p], order[p])
  }

  lemma AllExactSnoc(ops: seq<Record>, before: seq<nat>, i: nat)
    ensures AllExact(ops, before + [i]) <==> AllExact(ops, before) && Exact(ops, before, i)
  {
    var order := before + [i];
    assert order[..|before|] == before && order[|before|] == i;
    assert forall p :: 0 <= p < |before| ==> order[..p] == before[..p] && order[p] == before[p];
  }

  ghost predicate HoldsAll(ops: seq<Record>, order: seq<nat>, store: Store<Val>) {
    Versioned(store) && forall k :: Holds(ops, order, store, k)
  }

  // The store accepts an order exactly when every answer is right, and then holds
  // of each key the last value and the number of Puts that succeeded.
  lemma {:induction false} ReplayExactly(ops: seq<Record>, order: seq<nat>)
    ensures Replay(ops, order).Some? <==> AllExact(ops, order)
    ensures Replay(ops, order).Some? ==> HoldsAll(ops, order, Replay(ops, order).value)
  {
    if order != [] {
      var shorter, i := order[..|order| - 1], order[|order| - 1];
      ReplayExactly(ops, shorter);
      AllExactSnoc(ops, shorter, i);
      assert order == shorter + [i];
      if Replay(ops, shorter).Some? && i < |ops| { ReplayStep(ops, shorter, i, Replay(ops, shorter).value); }
    }
  }

  lemma ReplayStep(ops: seq<Record>, before: seq<nat>, i: nat, store: Store<Val>)
    requires i < |ops| && HoldsAll(ops, before, store)
    ensures SpecAllows(store, ops[i].op, ops[i].result) <==> Exact(ops, before, i)
    ensures HoldsAll(ops, before + [i], SpecNext(store, ops[i].op))
  {
    assert Holds(ops, before, store, Key(ops[i].op));
    SpecStepExact(ops, before, i, store);
    forall k ensures Holds(ops, before + [i], SpecNext(store, ops[i].op), k) {
      assert Holds(ops, before, store, k);
      HoldsNext(ops, before, i, store, k);
    }
  }

  lemma SpecStepExact(ops: seq<Record>, before: seq<nat>, i: nat, store: Store<Val>)
    requires i < |ops| && Versioned(store) && Holds(ops, before, store, Key(ops[i].op))
    ensures SpecAllows(store, ops[i].op, ops[i].result) <==> Exact(ops, before, i)
    ensures Versioned(SpecNext(store, ops[i].op))
  {
  }

  lemma OnKeySnoc(ops: seq<Record>, before: seq<nat>, i: nat, k: string)
    ensures OnKey(ops, before + [i], k) ==
            OnKey(ops, before, k) + if i < |ops| && Key(ops[i].op) == k then [i] else []
  {
    assert (before + [i])[..|before|] == before;
  }

  lemma WinsSnoc(ops: seq<Record>, before: seq<nat>, i: nat)
    requires i < |ops|
    ensures var hit := Hits(ops[i], Wins(ops, before));
            && Wins(ops, before + [i]) == Wins(ops, before) + (if hit then 1 else 0)
            && Shown(ops, before + [i]) == if hit then ops[i].op.args.value else Shown(ops, before)
  {
    assert (before + [i])[..|before|] == before;
  }

  lemma SpecEffect(store: Store<Val>, op: Op, k: string)
    requires Versioned(store)
    ensures HandleGet(SpecNext(store, op), k) ==
            if op.PutOp? && op.args.key == k && op.args.version == Version(store, k) then Got(op.args.value, op.args.version + 1)
            else HandleGet(store, k)
  {
  }

  // The same, said of a key's share rather than of the whole order.
  ghost predicate HoldsShare(ops: seq<Record>, same: seq<nat>, got: Got<Val>) {
    got == if Wins(ops, same) == 0 then NoKey else Got(Shown(ops, same), Wins(ops, same))
  }

  lemma ShareNext(ops: seq<Record>, same: seq<nat>, i: nat, store: Store<Val>, k: string)
    requires i < |ops| && Versioned(store) && Key(ops[i].op) == k && HoldsShare(ops, same, HandleGet(store, k))
    ensures HoldsShare(ops, same + [i], HandleGet(SpecNext(store, ops[i].op), k))
  {
    SpecEffect(store, ops[i].op, k);
    WinsSnoc(ops, same, i);
    assert Version(store, k) == Wins(ops, same);
  }

  lemma HoldsNext(ops: seq<Record>, before: seq<nat>, i: nat, store: Store<Val>, k: string)
    requires i < |ops| && Versioned(store) && Holds(ops, before, store, k)
    ensures Holds(ops, before + [i], SpecNext(store, ops[i].op), k)
  {
    OnKeySnoc(ops, before, i, k);
    if Key(ops[i].op) == k {
      ShareNext(ops, OnKey(ops, before, k), i, store, k);
    } else {
      SpecEffect(store, ops[i].op, k);
      assert OnKey(ops, before + [i], k) == OnKey(ops, before, k);
    }
  }

  // ----- the one and the other

  ghost predicate RightOn(ops: seq<Record>, order: seq<nat>, k: string) {
    forall p :: 0 <= p < |order| && order[p] < |ops| && Key(ops[order[p]].op) == k ==>
      Right(ops, OnKey(ops, order[..p], k), order[p])
  }

  lemma RightOnSnoc(ops: seq<Record>, before: seq<nat>, i: nat, k: string)
    ensures RightOn(ops, before + [i], k) <==>
            RightOn(ops, before, k) && (i < |ops| && Key(ops[i].op) == k ==> Right(ops, OnKey(ops, before, k), i))
  {
    var order := before + [i];
    assert order[..|before|] == before && order[|before|] == i;
    assert forall p :: 0 <= p < |before| ==> order[..p] == before[..p] && order[p] == before[p];
  }

  lemma ModelOnKeyStep(ops: seq<Record>, before: seq<nat>, i: nat, k: string)
    requires AllRight(ops, OnKey(ops, before, k)) <==> RightOn(ops, before, k)
    ensures AllRight(ops, OnKey(ops, before + [i], k)) <==> RightOn(ops, before + [i], k)
  {
    RightOnSnoc(ops, before, i, k);
    OnKeySnoc(ops, before, i, k);
    if i < |ops| && Key(ops[i].op) == k {
      AllRightSnoc(ops, OnKey(ops, before, k), i);
    } else {
      assert OnKey(ops, before + [i], k) == OnKey(ops, before, k);
    }
  }

  lemma {:induction false} ModelOnKey(ops: seq<Record>, order: seq<nat>, k: string)
    ensures AllRight(ops, OnKey(ops, order, k)) <==> RightOn(ops, order, k)
  {
    if order != [] {
      var shorter, i := order[..|order| - 1], order[|order| - 1];
      ModelOnKey(ops, shorter, k);
      ModelOnKeyStep(ops, shorter, i, k);
      assert order == shorter + [i];
    }
  }

  // What the model does not look at: a Get's version, whether a Put was ahead of
  // an absent key, and whether a pending Put takes effect.
  ghost predicate Unseen(ops: seq<Record>, before: seq<nat>, i: nat)
    requires i < |ops|
  {
    var n := Wins(ops, OnKey(ops, before, Key(ops[i].op)));
    match ops[i].op
    case GetOp(_) =>
      ops[i].result.Some? && ops[i].result.value.GetOut? ==>
        ops[i].result.value.got.NoKey? == (n == 0) &&
        (ops[i].result.value.got.Got? ==> ops[i].result.value.got.version == n)
    case PutOp(a) => n == 0 ==> a.version == 0
  }

  lemma ExactIsRight(ops: seq<Record>, before: seq<nat>, i: nat)
    requires i < |ops|
    ensures Exact(ops, before, i) && !NoKeyAnswer(ops, i) <==>
            Right(ops, OnKey(ops, before, Key(ops[i].op)), i) && Unseen(ops, before, i)
  {
    var same := OnKey(ops, before, Key(ops[i].op));
    WinsCount(ops, same);
    if ops[i].op.GetOp? && Wins(ops, same) == 0 {
      assert Successes(ops, same) == {};
    }
  }

  ghost predicate AllSeen(ops: seq<Record>, order: seq<nat>) {
    forall p :: 0 <= p < |order| ==> order[p] < |ops| && Unseen(ops, order[..p], order[p])
  }

  // The model accepts each key's share.
  ghost predicate ModelAccepts(ops: seq<Record>, order: seq<nat>) {
    forall k :: ModelRun(ops, OnKey(ops, order, k)).Some?
  }

  ghost predicate RightOnAll(ops: seq<Record>, order: seq<nat>) { forall k :: RightOn(ops, order, k) }

  lemma AcceptsRight(ops: seq<Record>, order: seq<nat>)
    ensures ModelAccepts(ops, order) <==> RightOnAll(ops, order)
  {
    forall k ensures ModelRun(ops, OnKey(ops, order, k)).Some? <==> RightOn(ops, order, k) {
      ModelExactly(ops, OnKey(ops, order, k));
      ModelOnKey(ops, order, k);
    }
  }

  ghost predicate NoneAhead(ops: seq<Record>, order: seq<nat>) { forall i :: i in order ==> !NoKeyAnswer(ops, i) }

  // An order is one that the store accepts without an ErrNoKey for a Put exactly
  // when the model accepts each key's share of it and the rest is right too.
  lemma StoreIsModel(ops: seq<Record>, order: seq<nat>)
    ensures Replay(ops, order).Some? && NoneAhead(ops, order) <==> ModelAccepts(ops, order) && AllSeen(ops, order)
  {
    ReplayExactly(ops, order);
    ExactIsModel(ops, order);
    AcceptsRight(ops, order);
  }

  lemma ExactIsModel(ops: seq<Record>, order: seq<nat>)
    ensures AllExact(ops, order) && NoneAhead(ops, order) <==> RightOnAll(ops, order) && AllSeen(ops, order)
  {
    if AllExact(ops, order) && NoneAhead(ops, order) {
      forall p | 0 <= p < |order|
        ensures order[p] < |ops| && Right(ops, OnKey(ops, order[..p], Key(ops[order[p]].op)), order[p])
        ensures Unseen(ops, order[..p], order[p])
      {
        assert Exact(ops, order[..p], order[p]) && order[p] in order;
        ExactIsRight(ops, order[..p], order[p]);
      }
    }
    if RightOnAll(ops, order) && AllSeen(ops, order) {
      forall p | 0 <= p < |order| ensures Exact(ops, order[..p], order[p]) && !NoKeyAnswer(ops, order[p]) {
        assert RightOn(ops, order, Key(ops[order[p]].op));
        ExactIsRight(ops, order[..p], order[p]);
      }
    }
  }
}
