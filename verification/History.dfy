/** Every run of any number of clerks over a network that loses messages and in
    which an attempt that was given up may still execute later. Each operation
    has a record: when it was called, when it took effect, what it returned. */
module History {
  import opened Options
  import opened Kv
  import opened Calls

  type Val = string

  datatype Op = GetOp(key: string) | PutOp(args: PutArgs<Val>)

  // point is the step at which the operation took effect (or would take
  // effect, if the reply on its way is delivered); installs counts how often
  // the server stored this operation's value.
  datatype Record = Record(client: nat, op: Op, called: nat, point: Option<nat>, installs: nat,
                           result: Option<Output<Val>>, returned: nat)

  datatype Busy = Busy(id: nat, call: Call<Val>)

  // past[t] is the server's store just before step t; late holds the Puts of
  // which an attempt was given up.
  datatype State = State(store: Store<Val>, past: seq<Store<Val>>, ops: seq<Record>, busy: map<nat, Busy>,
                         late: set<nat>)

  datatype Step =
    | Invoke(client: nat, op: Op)
    | Net(client: nat, move: Move)
    | Late(id: nat)                  // a given-up attempt executes after all

  const INIT: State := State(map[], [], [], map[], {})

  function Key(op: Op): string {
    match op
    case GetOp(key) => key
    case PutOp(args) => args.key
  }

  function Start(op: Op): Call<Val> {
    match op
    case GetOp(key) => StartGet(key)
    case PutOp(args) => PutCall(args, true, None)
  }

  predicate Enabled(s: State, step: Step) {
    match step
    case Invoke(c, _) => c !in s.busy
    case Net(c, move) => c in s.busy && s.busy[c].id < |s.ops| && CanMove(s.busy[c].call, move)
    case Late(i) => i in s.late && i < |s.ops| && s.ops[i].op.PutOp?
  }

  function Next(s: State, step: Step): (s': State)
    requires Enabled(s, step)
    ensures s'.past == s.past + [s.store]
  {
    var now := |s.past|;
    var past := s.past + [s.store];
    match step
    case Invoke(c, op) =>
      State(s.store, past, s.ops + [Record(c, op, now, None, 0, None, 0)],
            s.busy[c := Busy(|s.ops|, Start(op))], s.late)
    case Net(c, move) => (
      var b := s.busy[c];
      var r := s.ops[b.id];
      var (store, progress) := Advance(s.store, b.call, move);
      match progress
      case Running(call) =>
        State(store, past, s.ops[b.id := Note(r, call, move, now)], s.busy[c := Busy(b.id, call)],
              if move == Drop && call.PutCall? then s.late + {b.id} else s.late)
      case Returned(out) =>
        State(store, past, s.ops[b.id := r.(result := Some(out), returned := now)], s.busy - {c}, s.late)
    )
    case Late(i) =>
      var r := s.ops[i];
      var (store, err) := HandlePut(s.store, r.op.args);
      State(store, past,
            if err == OK then s.ops[i := r.(point := Some(now), installs := r.installs + 1)] else s.ops,
            s.busy, s.late)
  }

  // How a step that leaves the call running changes the operation's record.
  function Note(r: Record, call: Call<Val>, move: Move, now: nat): Record {
    if move == Drop then r
    else if move == Execute then
      if call.PutCall? && call.reply == Some(OK) then r.(point := Some(now), installs := r.installs + 1)
      else if r.installs > 0 then r
      else r.(point := Some(now))
    else if r.installs > 0 then r
    else r.(point := None)
  }

  // The state a sequence of steps leads to, if every step is enabled in turn.
  function Run(steps: seq<Step>): Option<State> {
    if steps == [] then Some(INIT)
    else
      var before := Run(steps[..|steps| - 1]);
      var step := steps[|steps| - 1];
      if before.Some? && Enabled(before.value, step) then Some(Next(before.value, step)) else None
  }

  // The store before step t; the present store when t is now.
  function At(s: State, t: nat): Store<Val>
    requires t <= |s.past|
  {
    if t == |s.past| then s.store else s.past[t]
  }

  // ----- what every step keeps

  ghost predicate Took(s: State, i: nat, t: nat) {
    i < |s.ops| && s.ops[i].point == Some(t)
  }

  // The operation was installed although its call had already returned, or
  // returned that there is no such key.
  predicate Overran(r: Record) {
    && r.installs > 0 && r.result.Some? && r.point.Some?
    && (r.returned <= r.point.value || r.result.value == PutOut(ErrNoKey))
  }

  // Record i's point lies after its call, and explains what it did there; it
  // lies before its return and explains its answer, unless it overran.
  ghost predicate RecordOk(s: State, i: nat)
    requires i < |s.ops|
  {
    var r := s.ops[i];
    && r.called < |s.past|
    && Version(At(s, r.called), Key(r.op)) <= Version(s.store, Key(r.op))
    && r.installs <= 1
    && (r.installs == 1 ==> r.op.PutOp? && r.point.Some? && r.op.args.version < Version(s.store, r.op.args.key))
    && (r.point.Some? ==> r.called < r.point.value < |s.past| && PointOk(s, r, r.point.value))
    && (r.result.Some? ==> r.called < r.returned < |s.past| && r.result.value.PutOut? == r.op.PutOp?)
    && (r.result == Some(PutOut(ErrVersion)) ==> r.installs == 0 && i !in s.late)
    && (i in s.late ==> r.op.PutOp?)
    && (r.result.Some? && !Overran(r) ==>
          && r.point.Some?
          && r.point.value < r.returned
          && Answers(At(s, r.point.value), r.op, r.installs == 1, r.result.value))
  }

  // The store step taken at a point: the operation's own effect, or none.
  ghost predicate PointOk(s: State, r: Record, t: nat)
    requires t < |s.past|
  {
    if r.installs == 1 && r.op.PutOp? then
      HandlePut(At(s, t), r.op.args) == (At(s, t + 1), OK)
    else
      && At(s, t + 1) == At(s, t)
      && (r.op.PutOp? ==> r.op.args.version != Version(At(s, t), r.op.args.key))
  }

  // The answer an operation may give when it takes effect on this store.
  ghost predicate Answers(store: Store<Val>, op: Op, installed: bool, out: Output<Val>) {
    match op
    case GetOp(key) => out == GetOut(HandleGet(store, key))
    case PutOp(a) =>
      && out.PutOut?
      && if installed then out.err == OK || out.err == ErrMaybe
         else if out.err == ErrNoKey then HandlePut(store, a).1 == ErrNoKey
         else (out.err == ErrVersion || out.err == ErrMaybe) && HandlePut(store, a).1 == ErrVersion
  }

  // The call a client is in, against its record.
  ghost predicate BusyOk(s: State, c: nat)
    requires c in s.busy
  {
    var b := s.busy[c];
    && b.id < |s.ops|
    && var r := s.ops[b.id];
    && r.client == c && r.result.None?
    && match r.op
       case GetOp(key) =>
         && b.call.GetCall? && b.call.key == key
         && b.call.got.Some? == r.point.Some?
         && (r.point.Some? && r.point.value < |s.past| ==>
               b.call.got.value == HandleGet(At(s, r.point.value), key))
       case PutOp(args) =>
         && b.call.PutCall? && b.call.args == args
         && (b.call.first ==> b.id !in s.late)
         && (b.call.reply == Some(ErrNoKey) && r.called < |s.past| ==>
               Version(At(s, r.called), args.key) == 0 && args.version != 0)
         && (r.installs == 0 ==>
               && b.call.reply.Some? == r.point.Some?
               && (r.point.Some? && r.point.value < |s.past| ==>
                     b.call.reply.value != OK && b.call.reply.value == HandlePut(At(s, r.point.value), args).1))
         && (r.installs > 0 ==>
               && (b.call.first ==> b.call.reply == Some(OK))
               && (b.call.reply.Some? ==> b.call.reply.value in {OK, ErrVersion, ErrNoKey}))
  }

  ghost predicate PastOk(s: State) {
    && (forall t :: 0 <= t <= |s.past| ==> Versioned(At(s, t)))
    && At(s, 0) == map[]
    && (forall t :: 0 <= t < |s.past| ==> Explained(s, t))
  }

  // A step changes the store only if some operation takes effect there.
  ghost predicate Explained(s: State, t: nat)
    requires t < |s.past|
  {
    At(s, t + 1) == At(s, t) || exists i :: Took(s, i, t)
  }

  ghost predicate Inv(s: State) {
    && PastOk(s)
    && (forall i :: i in s.late ==> i < |s.ops|)
    && (forall i :: 0 <= i < |s.ops| ==> RecordOk(s, i))
    && (forall i, j, t :: Took(s, i, t) && Took(s, j, t) ==> i == j)
    && (forall c :: c in s.busy ==> BusyOk(s, c))
    && (forall i :: 0 <= i < |s.ops| && s.ops[i].result.None? ==> Owned(s, i))
    && (forall i, j :: 0 <= i < j < |s.ops| ==> InTurn(s, i, j))
  }

  ghost predicate Owned(s: State, i: nat)
    requires i < |s.ops|
  {
    s.ops[i].client in s.busy && s.busy[s.ops[i].client].id == i
  }

  // A client calls one operation after the other.
  ghost predicate InTurn(s: State, i: nat, j: nat)
    requires i < |s.ops| && j < |s.ops|
  {
    s.ops[i].client == s.ops[j].client ==> s.ops[i].result.Some? && s.ops[i].returned < s.ops[j].called
  }

  lemma Past(s: State, step: Step)
    requires Enabled(s, step)
    ensures forall t :: 0 <= t <= |s.past| ==> At(Next(s, step), t) == At(s, t)
  {
  }

  // ----- a call

  lemma PreservesInvoke(s: State, c: nat, op: Op)
    requires Inv(s) && Enabled(s, Invoke(c, op))
    ensures Inv(Next(s, Invoke(c, op)))
  {
    var s' := Next(s, Invoke(c, op));
    Past(s, Invoke(c, op));
    assert PastOk(s') by {
      assert Versioned(At(s, |s.past|));
      forall t | 0 <= t < |s'.past| ensures Explained(s', t) { InvokeExplained(s, c, op, t); }
    }
    forall i | 0 <= i < |s'.ops| ensures RecordOk(s', i) { InvokeRecord(s, c, op, i); }
    forall d | d in s'.busy ensures BusyOk(s', d) { InvokeCall(s, c, op, d); }
    forall i: nat, j: nat, t: nat | Took(s', i, t) && Took(s', j, t) ensures i == j {
      assert Took(s, i, t) && Took(s, j, t);
    }
    forall i | 0 <= i < |s'.ops| && s'.ops[i].result.None? ensures Owned(s', i) {
      if i < |s.ops| { assert Owned(s, i); }
    }
    forall i, j | 0 <= i < j < |s'.ops| ensures InTurn(s', i, j) {
      assert RecordOk(s, i) && (s.ops[i].result.None? ==> Owned(s, i));
      if j < |s.ops| { assert InTurn(s, i, j); }
    }
  }

  lemma InvokeRecord(s: State, c: nat, op: Op, i: nat)
    requires Inv(s) && Enabled(s, Invoke(c, op)) && i <= |s.ops|
    ensures RecordOk(Next(s, Invoke(c, op)), i)
  {
    Past(s, Invoke(c, op));
    if i < |s.ops| { assert RecordOk(s, i); }
    assert i in s.late ==> i < |s.ops|;
  }

  lemma InvokeCall(s: State, c: nat, op: Op, d: nat)
    requires Inv(s) && Enabled(s, Invoke(c, op)) && (d in s.busy || d == c)
    ensures BusyOk(Next(s, Invoke(c, op)), d)
  {
    Past(s, Invoke(c, op));
    if d != c { assert BusyOk(s, d); assert RecordOk(s, s.busy[d].id); }
  }

  lemma InvokeExplained(s: State, c: nat, op: Op, t: nat)
    requires Inv(s) && Enabled(s, Invoke(c, op)) && t <= |s.past|
    ensures Explained(Next(s, Invoke(c, op)), t)
  {
    Past(s, Invoke(c, op));
    if t < |s.past| {
      assert Explained(s, t);
      if At(s, t + 1) != At(s, t) {
        var i :| Took(s, i, t);
        assert Took(Next(s, Invoke(c, op)), i, t);
      }
    }
  }

  // ----- a move of the network, or of a given-up attempt

  // The operation that a step is about.
  function Actor(s: State, step: Step): nat
    requires Enabled(s, step) && !step.Invoke?
  {
    match step
    case Net(c, _) => s.busy[c].id
    case Late(i) => i
  }

  lemma VersionsGrow(s: State, step: Step, k: string)
    requires Versioned(s.store) && Enabled(s, step)
    ensures Version(s.store, k) <= Version(Next(s, step).store, k) && Versioned(Next(s, step).store)
  {
  }

  // The record and the call of the operation that moved.
  lemma NetRecord(s: State, c: nat, move: Move)
    requires Inv(s) && Enabled(s, Net(c, move))
    ensures RecordOk(Next(s, Net(c, move)), s.busy[c].id)
  {
    Past(s, Net(c, move));
    assert BusyOk(s, c) && RecordOk(s, s.busy[c].id);
    assert Versioned(At(s, |s.past|));
    VersionsGrow(s, Net(c, move), Key(s.ops[s.busy[c].id].op));
  }

  lemma NetCall(s: State, c: nat, move: Move)
    requires Inv(s) && Enabled(s, Net(c, move)) && c in Next(s, Net(c, move)).busy
    ensures BusyOk(Next(s, Net(c, move)), c)
  {
    Past(s, Net(c, move));
    assert BusyOk(s, c) && RecordOk(s, s.busy[c].id);
    assert Versioned(At(s, |s.past|));
  }

  lemma LateRecord(s: State, i: nat)
    requires Inv(s) && Enabled(s, Late(i))
    ensures RecordOk(Next(s, Late(i)), i)
  {
    Past(s, Late(i));
    assert RecordOk(s, i);
    assert Versioned(At(s, |s.past|));
    VersionsGrow(s, Late(i), Key(s.ops[i].op));
  }

  // Everyone else's.
  lemma OtherRecord(s: State, step: Step, i: nat)
    requires Inv(s) && Enabled(s, step) && !step.Invoke? && i < |s.ops| && i != Actor(s, step)
    ensures var s' := Next(s, step); s'.ops[i] == s.ops[i] && RecordOk(s', i)
  {
    Past(s, step);
    assert RecordOk(s, i) && Versioned(At(s, |s.past|));
    VersionsGrow(s, step, Key(s.ops[i].op));
  }

  lemma OtherCall(s: State, step: Step, d: nat)
    requires Inv(s) && Enabled(s, step) && !step.Invoke? && d in s.busy && (step.Net? ==> d != step.client)
    ensures var s' := Next(s, step); d in s'.busy && BusyOk(s', d)
  {
    Past(s, step);
    assert BusyOk(s, d) && RecordOk(s, s.busy[d].id);
    assert step.Net? ==> BusyOk(s, step.client);
    assert Versioned(At(s, |s.past|));
  }

  // A step takes effect for at most one operation, its actor.
  lemma ActPoint(s: State, step: Step, i: nat, t: nat)
    requires Inv(s) && Enabled(s, step) && !step.Invoke? && Took(Next(s, step), i, t)
    ensures if t == |s.past| then i == Actor(s, step) else Took(s, i, t)
  {
    assert RecordOk(s, i);
  }

  lemma ActPoints(s: State, step: Step, i: nat, j: nat, t: nat)
    requires Inv(s) && Enabled(s, step) && !step.Invoke?
    requires Took(Next(s, step), i, t) && Took(Next(s, step), j, t)
    ensures i == j
  {
    ActPoint(s, step, i, t);
    ActPoint(s, step, j, t);
  }

  lemma ActExplained(s: State, step: Step, t: nat)
    requires Inv(s) && Enabled(s, step) && !step.Invoke? && t < |s.past|
    ensures Explained(Next(s, step), t)
  {
    Past(s, step);
    assert Explained(s, t);
    if At(s, t + 1) != At(s, t) {
      var i :| Took(s, i, t);
      ActKeeps(s, step, i, t);
    }
  }

  // A point at which the store changed stays.
  lemma ActKeeps(s: State, step: Step, i: nat, t: nat)
    requires Inv(s) && Enabled(s, step) && !step.Invoke? && Took(s, i, t) && t < |s.past| && At(s, t + 1) != At(s, t)
    ensures Took(Next(s, step), i, t)
  {
    assert RecordOk(s, i) && Versioned(At(s, |s.past|)) && (step.Net? ==> BusyOk(s, step.client));
  }

  lemma ActTakes(s: State, step: Step)
    requires Inv(s) && Enabled(s, step) && !step.Invoke?
    ensures Explained(Next(s, step), |s.past|)
  {
    assert RecordOk(s, Actor(s, step)) && (step.Net? ==> BusyOk(s, step.client));
    assert Next(s, step).store == s.store || Took(Next(s, step), Actor(s, step), |s.past|);
  }

  lemma ActOwned(s: State, step: Step, i: nat)
    requires Inv(s) && Enabled(s, step) && !step.Invoke? && i < |s.ops| && Next(s, step).ops[i].result.None?
    ensures Owned(Next(s, step), i)
  {
    assert s.ops[i].result.None? ==> Owned(s, i);
    assert step.Net? ==> BusyOk(s, step.client);
  }

  lemma ActInTurn(s: State, step: Step, i: nat, j: nat)
    requires Inv(s) && Enabled(s, step) && !step.Invoke? && i < j < |s.ops|
    ensures InTurn(Next(s, step), i, j)
  {
    assert InTurn(s, i, j);
    assert step.Net? ==> BusyOk(s, step.client);
  }

  lemma PreservesAct(s: State, step: Step)
    requires Inv(s) && Enabled(s, step) && !step.Invoke?
    ensures Inv(Next(s, step))
  {
    var s' := Next(s, step);
    assert PastOk(s') by {
      Past(s, step);
      assert Versioned(At(s, |s.past|));
      forall t | 0 <= t < |s'.past| ensures Explained(s', t) {
        if t < |s.past| { ActExplained(s, step, t); } else { ActTakes(s, step); }
      }
    }
    forall i | 0 <= i < |s'.ops| ensures RecordOk(s', i) {
      if i != Actor(s, step) { OtherRecord(s, step, i); }
      else if step.Net? { NetRecord(s, step.client, step.move); }
      else { LateRecord(s, i); }
    }
    forall i: nat, j: nat, t: nat | Took(s', i, t) && Took(s', j, t) ensures i == j { ActPoints(s, step, i, j, t); }
    forall d | d in s'.busy ensures BusyOk(s', d) {
      if step.Net? && d == step.client { NetCall(s, d, step.move); } else { OtherCall(s, step, d); }
    }
    forall i | 0 <= i < |s'.ops| && s'.ops[i].result.None? ensures Owned(s', i) { ActOwned(s, step, i); }
    forall i, j | 0 <= i < j < |s'.ops| ensures InTurn(s', i, j) { ActInTurn(s, step, i, j); }
  }

  lemma {:induction false} Invariant(steps: seq<Step>)
    requires Run(steps).Some?
    ensures Inv(Run(steps).value)
  {
    if steps != [] {
      Invariant(steps[..|steps| - 1]);
      var s, last := Run(steps[..|steps| - 1]).value, steps[|steps| - 1];
      if last.Invoke? { PreservesInvoke(s, last.client, last.op); } else { PreservesAct(s, last); }
    }
  }
}
