/** Any number of clients that take the lock, find the guarded key empty, mark
    it, clear it and release: none of them ever reaches a fatal branch. */
module LockClient {
  import opened Options
  import opened Kv
  import opened Calls
  import Lock

  datatype Stage =
    | Boot(call: Call<string>)
    | Idle
    | Reading(call: Call<string>)
    | Writing(call: Call<string>, ver: nat)
    | Clearing(call: Call<string>, ver: nat)
    | Leaving
    | Fatal

  // key is the guarded key, marks what each client writes there; late holds
  // the given-up attempts on the guarded key.
  datatype State = State(lock: Lock.State, key: string, marks: map<nat, string>,
                         late: set<PutArgs<string>>, stage: map<nat, Stage>)

  datatype Step =
    | LockStep(step: Lock.Step)
    | Begin(c: nat)                  // Acquire has returned
    | Data(c: nat, move: Move)
    | DataLate(args: PutArgs<string>)

  ghost predicate Init(s: State) {
    && Lock.Init(s.lock) && Lock.Distinct(s.lock) && s.key != s.lock.name && s.late == {}
    && s.stage.Keys == s.marks.Keys == s.lock.clients.Keys
    && (forall c :: c in s.stage ==> s.stage[c] == Boot(StartPut(s.key, "", 0)))
  }

  predicate Calling(st: Stage) { st.Boot? || st.Reading? || st.Writing? || st.Clearing? }

  predicate Enabled(s: State, step: Step) {
    && s.stage.Keys == s.marks.Keys == s.lock.clients.Keys
    && match step
       case LockStep(l) =>
         && Lock.Enabled(s.lock, l) && !l.Other?
         && (l.Acquire? ==> s.stage[l.c] == Idle)
         && (l.Release? ==> s.stage[l.c] == Leaving)
       case Begin(c) => c in s.stage && s.stage[c] == Idle && s.lock.clients[c] == Lock.Held
       case Data(c, move) => c in s.stage && Calling(s.stage[c]) && CanMove(s.stage[c].call, move)
       case DataLate(args) => args in s.late
  }

  function Resume(key: string, mark: string, st: Stage, out: Output<string>): Stage
    requires Calling(st)
  {
    match st
    case Boot(_) => Idle
    case Reading(_) =>
      if out.GetOut? && out.got.Got? && out.got.value == ""
      then Writing(StartPut(key, mark, out.got.version), out.got.version)
      else Fatal
    case Writing(_, ver) =>
      if out == PutOut(OK) || out == PutOut(ErrMaybe) then Clearing(StartPut(key, "", ver + 1), ver) else Fatal
    case Clearing(_, _) =>
      if out == PutOut(OK) || out == PutOut(ErrMaybe) then Leaving else Fatal
  }

  function WithCall(st: Stage, call: Call<string>): Stage
    requires Calling(st)
  {
    match st
    case Boot(_) => Boot(call)
    case Reading(_) => Reading(call)
    case Writing(_, ver) => Writing(call, ver)
    case Clearing(_, ver) => Clearing(call, ver)
  }

  function Next(s: State, step: Step): State
    requires Enabled(s, step)
  {
    match step
    case LockStep(l) =>
      s.(lock := Lock.Next(s.lock, l), stage := if l.Release? then s.stage[l.c := Idle] else s.stage)
    case Begin(c) => s.(stage := s.stage[c := Reading(StartGet(s.key))])
    case Data(c, move) =>
      var st := s.stage[c];
      var (store, progress) := Advance(s.lock.store, st.call, move);
      var st' := match progress
                 case Running(call) => WithCall(st, call)
                 case Returned(out) => Resume(s.key, s.marks[c], st, out);
      var late := if move == Drop && st.call.PutCall? then s.late + {st.call.args} else s.late;
      s.(lock := s.lock.(store := store), late := late, stage := s.stage[c := st'])
    case DataLate(args) => s.(lock := s.lock.(store := HandlePut(s.lock.store, args).0))
  }

  function Run(s: State, steps: seq<Step>): Option<State> {
    if steps == [] then Some(s)
    else
      var before := Run(s, steps[..|steps| - 1]);
      var step := steps[|steps| - 1];
      if before.Some? && Enabled(before.value, step) then Some(Next(before.value, step)) else None
  }

  // ----- what every step keeps

  function Cur(s: State): nat { Version(s.lock.store, s.key) }

  function Mark(s: State): string {
    if s.key in s.lock.store then s.lock.store[s.key].value else ""
  }

  // A Put at version v that will make the key's value x: not yet installed,
  // or installed with the reply still to come.
  ghost predicate PutOk(s: State, call: Call<string>, v: nat, x: string) {
    && call.PutCall? && call.args == PutArgs(s.key, x, v)
    && if Cur(s) == v then call.reply.None?
       else
         && Cur(s) == v + 1 && Mark(s) == x
         && (call.reply.None? ==> !call.first)
         && (call.reply.Some? ==> call.reply.value == OK || (call.reply.value == ErrVersion && !call.first))
  }

  ghost predicate StageOk(s: State, c: nat, st: Stage)
    requires c in s.marks
  {
    match st
    case Boot(call) =>
      call.PutCall? && call.args == PutArgs(s.key, "", 0) && (call.reply.Some? ==> Cur(s) >= 1)
    case Idle => Cur(s) >= 1
    case Reading(call) =>
      && Cur(s) >= 1 && Mark(s) == "" && call.GetCall? && call.key == s.key
      && (call.got.Some? ==> call.got.value == Got("", Cur(s)))
    case Writing(call, ver) => ver >= 1 && PutOk(s, call, ver, s.marks[c])
    case Clearing(call, ver) => ver >= 1 && PutOk(s, call, ver + 1, "")
    case Leaving => Cur(s) >= 1 && Mark(s) == ""
    case Fatal => false
  }

  predicate Inside(st: Stage) { !st.Boot? && !st.Idle? }

  ghost predicate Dirty(s: State, c: nat) {
    c in s.stage && (s.stage[c].Writing? || s.stage[c].Clearing?)
  }

  // A given-up Put can only succeed while its client is still in that call.
  ghost predicate LateOk(s: State, a: PutArgs<string>) {
    && a.key == s.key && a.version <= Cur(s)
    && (a.version == Cur(s) ==> (a.version == 0 && a.value == "") || exists c :: Resends(s, c, a))
  }

  ghost predicate Resends(s: State, c: nat, a: PutArgs<string>) {
    Dirty(s, c) && s.stage[c].call.PutCall? && s.stage[c].call.args == a && !s.stage[c].call.first
  }

  ghost predicate Shape(s: State) {
    && s.key != s.lock.name
    && s.stage.Keys == s.marks.Keys == s.lock.clients.Keys
    && (forall c :: c in s.stage && Inside(s.stage[c]) ==> s.lock.clients[c] == Lock.Held)
  }

  ghost predicate Inv(s: State) {
    Lock.Inv(s.lock) && Shape(s) && Guarded(s)
  }

  ghost predicate Guarded(s: State)
    requires s.stage.Keys == s.marks.Keys
  {
    && (forall c :: c in s.stage ==> StageOk(s, c, s.stage[c]))
    && (forall a :: a in s.late ==> LateOk(s, a))
    && (Mark(s) != "" ==> exists c :: Dirty(s, c))
  }

  // What concerns the guarded key alone.
  ghost predicate Local(s: State) {
    Versioned(s.lock.store) && Shape(s) && Guarded(s)
  }

  // Only one client is inside.
  lemma OneInside(s: State, c: nat, d: nat)
    requires Lock.Inv(s.lock) && Shape(s) && c in s.stage && d in s.stage
    requires s.lock.clients[c] == Lock.Held && s.lock.clients[d] == Lock.Held
    ensures c == d
  {
    assert Lock.ClientOk(s.lock, s.lock.ids[c], Lock.Held) && Lock.ClientOk(s.lock, s.lock.ids[d], Lock.Held);
  }

  // The lock's own steps do not touch the guarded key.
  lemma LockLeavesData(s: State, l: Lock.Step)
    requires Inv(s) && Enabled(s, LockStep(l))
    ensures HandleGet(Lock.Next(s.lock, l).store, s.key) == HandleGet(s.lock.store, s.key)
  {
    match l {
      case Net(c, move) => assert Lock.ClientOk(s.lock, s.lock.ids[c], s.lock.clients[c]);
      case Late(args) => assert Lock.LateOk(s.lock, args);
      case _ =>
    }
  }

  lemma LockLeavesHeld(s: State, l: Lock.Step)
    requires Local(s) && Enabled(s, LockStep(l))
    ensures Shape(Next(s, LockStep(l)))
  {
  }

  lemma SameData(s: State, s': State)
    requires Local(s) && s'.key == s.key && s'.marks == s.marks && s'.late == s.late
    requires HandleGet(s'.lock.store, s.key) == HandleGet(s.lock.store, s.key)
    requires s'.stage.Keys == s.stage.Keys
    requires forall c :: c in s.stage ==> s'.stage[c] == s.stage[c] || (s.stage[c] == Leaving && s'.stage[c] == Idle)
    ensures Guarded(s')
  {
    assert Cur(s') == Cur(s) && Mark(s') == Mark(s);
    forall c | c in s'.stage ensures StageOk(s', c, s'.stage[c]) { assert StageOk(s, c, s.stage[c]); }
    forall a | a in s'.late ensures LateOk(s', a) {
      assert LateOk(s, a);
      if c :| Resends(s, c, a) { assert Resends(s', c, a); }
    }
    if c :| Dirty(s, c) { assert Dirty(s', c); }
  }

  lemma PreservesLock(s: State, l: Lock.Step)
    requires Inv(s) && Enabled(s, LockStep(l))
    ensures Inv(Next(s, LockStep(l)))
  {
    Lock.Preserves(s.lock, l);
    LockLeavesData(s, l);
    LockLeavesHeld(s, l);
    SameData(s, Next(s, LockStep(l)));
  }

  // A Put to the guarded key is, for the lock, a Put to another key.
  lemma LockKept(s: State, a: PutArgs<string>)
    requires Inv(s) && a.key == s.key
    ensures Lock.Inv(s.lock.(store := HandlePut(s.lock.store, a).0))
  {
    Lock.PreservesPut(s.lock, Lock.Other(a));
    assert Lock.Next(s.lock, Lock.Other(a)) == s.lock.(store := HandlePut(s.lock.store, a).0);
  }

  lemma PutEffect(s: State, s': State, a: PutArgs<string>)
    requires Versioned(s.lock.store) && a.key == s.key == s'.key && s'.lock.store == HandlePut(s.lock.store, a).0
    ensures if a.version == Cur(s) then Cur(s') == Cur(s) + 1 && Mark(s') == a.value
            else Cur(s') == Cur(s) && Mark(s') == Mark(s)
    ensures HandlePut(s.lock.store, a).1 == OK <==> a.version == Cur(s)
    ensures HandlePut(s.lock.store, a).1 == ErrVersion <==> a.version != Cur(s) && Cur(s) != 0
  {
  }

  // Clients other than the one whose Put executes.
  lemma OthersKept(s: State, s': State, a: PutArgs<string>, mover: nat)
    requires Inv(s) && LateOk(s, a) && s'.key == s.key && s'.marks == s.marks
    requires s'.lock.store == HandlePut(s.lock.store, a).0
    requires a.version == Cur(s) && a.version != 0 ==> mover in s.stage && Inside(s.stage[mover])
    ensures forall d :: d in s.stage && d != mover ==> StageOk(s', d, s.stage[d])
  {
    PutEffect(s, s', a);
    forall d | d in s.stage && d != mover ensures StageOk(s', d, s.stage[d]) {
      assert StageOk(s, d, s.stage[d]);
      if a.version == Cur(s) && Inside(s.stage[d]) { OneInside(s, d, mover); }
    }
  }

  lemma LateKept(s: State, s': State, a: PutArgs<string>, b: PutArgs<string>)
    requires Local(s) && LateOk(s, b) && a.key == s.key == s'.key && s'.lock.store == HandlePut(s.lock.store, a).0
    requires forall c :: Resends(s, c, b) ==> Resends(s', c, b)
    ensures LateOk(s', b)
  {
    PutEffect(s, s', a);
    if c :| Resends(s, c, b) { assert Resends(s', c, b); }
  }

  lemma StagesAfterLate(s: State, a: PutArgs<string>)
    requires Inv(s) && Enabled(s, DataLate(a))
    ensures var s' := Next(s, DataLate(a));
            && (forall c :: c in s'.stage ==> StageOk(s', c, s'.stage[c]))
            && (Mark(s') != "" ==> exists c :: Dirty(s', c))
  {
    var s' := Next(s, DataLate(a));
    assert LateOk(s, a);
    PutEffect(s, s', a);
    if c :| Resends(s, c, a) {
      assert StageOk(s, c, s.stage[c]);
      OthersKept(s, s', a, c);
      assert Dirty(s', c);
    } else {
      forall c | c in s.stage ensures StageOk(s', c, s.stage[c]) { assert StageOk(s, c, s.stage[c]); }
      if c :| Dirty(s, c) { assert Dirty(s', c); }
    }
  }

  lemma PreservesDataLate(s: State, a: PutArgs<string>)
    requires Inv(s) && Enabled(s, DataLate(a))
    ensures Inv(Next(s, DataLate(a)))
  {
    var s' := Next(s, DataLate(a));
    assert LateOk(s, a);
    assert Guarded(s') by {
      StagesAfterLate(s, a);
      forall b | b in s'.late ensures LateOk(s', b) { LateKept(s, s', a, b); }
    }
    LockKept(s, a);
  }

  lemma MoverExecutes(s: State, c: nat)
    requires Local(s) && Enabled(s, Data(c, Execute)) && s.stage[c].call.PutCall?
    ensures var s' := Next(s, Data(c, Execute)); s.stage[c].call.args.key == s.key && StageOk(s', c, s'.stage[c])
  {
    assert StageOk(s, c, s.stage[c]);
    PutEffect(s, Next(s, Data(c, Execute)), s.stage[c].call.args);
  }

  lemma OthersWatch(s: State, c: nat, d: nat)
    requires Inv(s) && Enabled(s, Data(c, Execute)) && s.stage[c].call.PutCall? && d in s.stage && d != c
    ensures StageOk(Next(s, Data(c, Execute)), d, s.stage[d])
  {
    assert StageOk(s, c, s.stage[c]) && StageOk(s, d, s.stage[d]);
    PutEffect(s, Next(s, Data(c, Execute)), s.stage[c].call.args);
    if Inside(s.stage[d]) && Inside(s.stage[c]) { OneInside(s, d, c); }
  }

  lemma LateAfterExecute(s: State, c: nat, b: PutArgs<string>)
    requires Local(s) && Enabled(s, Data(c, Execute)) && s.stage[c].call.PutCall? && b in s.late
    ensures LateOk(Next(s, Data(c, Execute)), b)
  {
    var s' := Next(s, Data(c, Execute));
    assert StageOk(s, c, s.stage[c]);
    assert forall d :: d in s.stage && d != c ==> s'.stage[d] == s.stage[d];
    forall d | Resends(s, d, b) ensures Resends(s', d, b) {}
    LateKept(s, s', s.stage[c].call.args, b);
  }

  lemma DirtyAfterExecute(s: State, c: nat)
    requires Local(s) && Enabled(s, Data(c, Execute)) && s.stage[c].call.PutCall?
    ensures var s' := Next(s, Data(c, Execute)); Shape(s') && (Mark(s') != "" ==> exists d :: Dirty(s', d))
  {
    var s' := Next(s, Data(c, Execute));
    assert StageOk(s, c, s.stage[c]);
    assert forall d :: d in s.stage && d != c ==> s'.stage[d] == s.stage[d];
    PutEffect(s, s', s.stage[c].call.args);
    if s.stage[c].Boot? {
      if d :| Dirty(s, d) { assert Dirty(s', d); }
    } else {
      assert Dirty(s', c);
    }
  }

  lemma GuardedAfterExecute(s: State, c: nat)
    requires Inv(s) && Enabled(s, Data(c, Execute)) && s.stage[c].call.PutCall?
    ensures Shape(Next(s, Data(c, Execute))) && Guarded(Next(s, Data(c, Execute)))
  {
    var s' := Next(s, Data(c, Execute));
    MoverExecutes(s, c);
    DirtyAfterExecute(s, c);
    forall d | d in s'.stage ensures StageOk(s', d, s'.stage[d]) { if d != c { OthersWatch(s, c, d); } }
    forall b | b in s'.late ensures LateOk(s', b) { LateAfterExecute(s, c, b); }
  }

  lemma PreservesExecute(s: State, c: nat)
    requires Inv(s) && Enabled(s, Data(c, Execute)) && s.stage[c].call.PutCall?
    ensures Inv(Next(s, Data(c, Execute)))
  {
    GuardedAfterExecute(s, c);
    MoverExecutes(s, c);
    LockKept(s, s.stage[c].call.args);
    assert Next(s, Data(c, Execute)).lock == s.lock.(store := HandlePut(s.lock.store, s.stage[c].call.args).0);
  }

  // A client changes its stage and the store stays as it is.
  ghost predicate Restages(s: State, s': State, c: nat) {
    && s.stage.Keys == s.marks.Keys && c in s.stage && c in s'.stage
    && s'.lock == s.lock && s'.key == s.key && s'.marks == s.marks && s'.stage == s.stage[c := s'.stage[c]]
    && StageOk(s, c, s'.stage[c])
    && (Mark(s) != "" && Dirty(s, c) ==> Dirty(s', c))
    && (forall b :: b in s'.late ==> b in s.late || LateOk(s', b))
    && (forall b :: Resends(s, c, b) && b.version == Cur(s) ==> Resends(s', c, b))
  }

  lemma RestageLate(s: State, s': State, c: nat, b: PutArgs<string>)
    requires Restages(s, s', c) && LateOk(s, b)
    ensures LateOk(s', b)
  {
    if b.version == Cur(s) && !(b.version == 0 && b.value == "") {
      var d :| Resends(s, d, b);
      assert Resends(s', d, b);
    }
  }

  lemma RestageGuarded(s: State, s': State, c: nat)
    requires Restages(s, s', c) && Guarded(s)
    ensures Guarded(s')
  {
    forall d | d in s'.stage ensures StageOk(s', d, s'.stage[d]) { assert StageOk(s, d, s'.stage[d]); }
    forall b | b in s'.late ensures LateOk(s', b) { if b in s.late { RestageLate(s, s', c, b); } }
    if Mark(s) != "" {
      var d :| Dirty(s, d);
      assert Dirty(s', d);
    }
  }

  lemma Restage(s: State, s': State, c: nat)
    requires Inv(s) && Restages(s, s', c) && (Inside(s'.stage[c]) ==> s.lock.clients[c] == Lock.Held)
    ensures Inv(s')
  {
    RestageGuarded(s, s', c);
  }

  // Moves of a data call that leave the store alone.
  ghost predicate Still(s: State, c: nat, move: Move) {
    Enabled(s, Data(c, move)) && (move != Execute || s.stage[c].call.GetCall?)
  }

  lemma MoverMoves(s: State, c: nat, move: Move)
    requires Local(s) && Still(s, c, move)
    ensures var s' := Next(s, Data(c, move));
            && StageOk(s, c, s'.stage[c])
            && (Inside(s'.stage[c]) ==> s.lock.clients[c] == Lock.Held)
            && (Mark(s) != "" && Dirty(s, c) ==> Dirty(s', c))
            && (forall b :: Resends(s, c, b) && b.version == Cur(s) ==> Resends(s', c, b))
  {
    assert StageOk(s, c, s.stage[c]);
  }

  lemma LateAfterMove(s: State, c: nat, move: Move, b: PutArgs<string>)
    requires Local(s) && Still(s, c, move) && b in Next(s, Data(c, move)).late && b !in s.late
    ensures LateOk(Next(s, Data(c, move)), b)
  {
    assert StageOk(s, c, s.stage[c]);
    if Dirty(s, c) { assert Resends(Next(s, Data(c, move)), c, b); }
  }

  lemma PreservesMove(s: State, c: nat, move: Move)
    requires Inv(s) && Still(s, c, move)
    ensures Inv(Next(s, Data(c, move)))
  {
    var s' := Next(s, Data(c, move));
    MoverMoves(s, c, move);
    forall b | b in s'.late && b !in s.late ensures LateOk(s', b) { LateAfterMove(s, c, move, b); }
    Restage(s, s', c);
  }

  lemma PreservesBegin(s: State, c: nat)
    requires Inv(s) && Enabled(s, Begin(c))
    ensures Inv(Next(s, Begin(c)))
  {
    assert StageOk(s, c, s.stage[c]);
    if d :| Dirty(s, d) { OneInside(s, c, d); }
    Restage(s, Next(s, Begin(c)), c);
  }

  lemma {:induction false} Invariant(s: State, steps: seq<Step>)
    requires Init(s) && Run(s, steps).Some?
    ensures Inv(Run(s, steps).value)
  {
    if steps != [] {
      var t := Run(s, steps[..|steps| - 1]).value;
      Invariant(s, steps[..|steps| - 1]);
      match steps[|steps| - 1] {
        case LockStep(l) => PreservesLock(t, l);
        case Begin(c) => PreservesBegin(t, c);
        case Data(c, move) =>
          if move == Execute && t.stage[c].call.PutCall? { PreservesExecute(t, c); }
          else { PreservesMove(t, c, move); }
        case DataLate(a) => PreservesDataLate(t, a);
      }
    }
  }

  lemma NeverFatal(s: State, steps: seq<Step>, c: nat)
    requires Init(s) && Run(s, steps).Some? && c in Run(s, steps).value.stage
    ensures var t := Run(s, steps).value;
            && t.stage[c] != Fatal
            && (t.stage[c].Reading? ==> HandleGet(t.lock.store, t.key) == Got("", Cur(t)))
            && (t.stage[c].Leaving? ==> Mark(t) == "")
            && (Inside(t.stage[c]) ==> forall d :: d in t.stage && Inside(t.stage[d]) ==> d == c)
  {
    Invariant(s, steps);
    var t := Run(s, steps).value;
    assert StageOk(t, c, t.stage[c]);
    if Inside(t.stage[c]) {
      forall d | d in t.stage && Inside(t.stage[d]) ensures d == c { OneInside(t, c, d); }
    }
  }
}
