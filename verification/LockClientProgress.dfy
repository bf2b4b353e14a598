/** The guarded program does its work: a client that holds the lock marks the
    guarded key, clears it and comes to the end of its turn by its own steps. */
module LockClientProgress {
  import opened Options
  import opened Kv
  import opened Calls
  import Lock
  import opened LockClient

  lemma Extend(s: State, steps: seq<Step>, step: Step)
    requires Run(s, steps).Some? && Enabled(Run(s, steps).value, step)
    ensures Run(s, steps + [step]) == Some(Next(Run(s, steps).value, step))
  {
    assert (steps + [step])[..|steps|] == steps;
  }

  // ----- a client that moves alone

  // The store and the client's stage.
  type Here = (Store<string>, Stage)

  function Act(key: string, mark: string, h: Here, move: Move): Here
    requires Calling(h.1) && CanMove(h.1.call, move)
  {
    var (store, progress) := Advance(h.0, h.1.call, move);
    (store, match progress
            case Running(call) => WithCall(h.1, call)
            case Returned(out) => Resume(key, mark, h.1, out))
  }

  function Drive(key: string, mark: string, h: Here, moves: seq<Move>): Option<Here>
    decreases |moves|
  {
    if moves == [] then Some(h)
    else if Calling(h.1) && CanMove(h.1.call, moves[0]) then Drive(key, mark, Act(key, mark, h, moves[0]), moves[1..])
    else None
  }

  lemma {:induction false} Then(key: string, mark: string, h: Here, a: seq<Move>, mid: Here, b: seq<Move>)
    requires Drive(key, mark, h, a) == Some(mid)
    ensures Drive(key, mark, h, a + b) == Drive(key, mark, mid, b)
    decreases |a|
  {
    if a == [] {
      assert a + b == b;
    } else {
      assert (a + b)[1..] == a[1..] + b;
      Then(key, mark, Act(key, mark, h, a[0]), a[1..], mid, b);
    }
  }

  function Steps(c: nat, moves: seq<Move>): seq<Step> { seq(|moves|, i requires 0 <= i < |moves| => Data(c, moves[i])) }

  // Only c's stage, the store and what the network may still hold of c's differ.
  ghost predicate Others(t: State, t': State, c: nat) {
    && t'.key == t.key && t'.marks == t.marks && t'.lock.clients == t.lock.clients && t'.stage.Keys == t.stage.Keys
    && (forall d :: d in t.stage && d != c ==> t'.stage[d] == t.stage[d])
  }

  lemma OneMove(t: State, c: nat, move: Move)
    requires Enabled(t, Data(c, move))
    ensures var t' := Next(t, Data(c, move));
            && Others(t, t', c) && c in t.marks
            && (t'.lock.store, t'.stage[c]) == Act(t.key, t.marks[c], (t.lock.store, t.stage[c]), move)
  {
  }

  lemma StepsHead(c: nat, moves: seq<Move>)
    requires moves != []
    ensures Steps(c, moves) == [Data(c, moves[0])] + Steps(c, moves[1..])
  {
  }

  lemma {:induction false} Drives(s: State, steps: seq<Step>, t: State, c: nat, moves: seq<Move>) returns (t': State)
    requires Run(s, steps) == Some(t) && t.stage.Keys == t.marks.Keys == t.lock.clients.Keys && c in t.stage
    requires Drive(t.key, t.marks[c], (t.lock.store, t.stage[c]), moves).Some?
    ensures Run(s, steps + Steps(c, moves)) == Some(t') && Others(t, t', c)
    ensures Drive(t.key, t.marks[c], (t.lock.store, t.stage[c]), moves) == Some((t'.lock.store, t'.stage[c]))
    decreases |moves|
  {
    if moves == [] {
      assert steps + Steps(c, moves) == steps;
      t' := t;
    } else {
      Extend(s, steps, Data(c, moves[0]));
      OneMove(t, c, moves[0]);
      t' := Drives(s, steps + [Data(c, moves[0])], Next(t, Data(c, moves[0])), c, moves[1..]);
      StepsHead(c, moves);
      assert steps + Steps(c, moves) == steps + [Data(c, moves[0])] + Steps(c, moves[1..]);
    }
  }

  // ----- its turn

  lemma Turn(key: string, mark: string, h: Here)
    requires Calling(h.1) && !Replied(h.1.call)
    ensures Drive(key, mark, h, TURN) == Some(Act(key, mark, Act(key, mark, h, Execute), Deliver))
  {
    assert [Execute, Deliver][1..] == [Deliver];
    var h1 := Act(key, mark, h, Execute);
    assert Drive(key, mark, h1, [Deliver]) == Drive(key, mark, Act(key, mark, h1, Deliver), []);
  }

  const TURN: seq<Move> := [Execute, Deliver]

  // Reading and marking.
  lemma Marks(key: string, mark: string, store: Store<string>, ver: nat) returns (moves: seq<Move>, h: Here)
    requires Versioned(store) && HandleGet(store, key) == Got("", ver)
    ensures Drive(key, mark, (store, Reading(StartGet(key))), moves) == Some(h) && Versioned(h.0)
    ensures h == (store[key := Entry(mark, ver + 1)], Clearing(StartPut(key, "", ver + 1), ver))
  {
    var h0: Here := (store, Reading(StartGet(key)));
    var h1: Here := (store, Writing(StartPut(key, mark, ver), ver));
    Turn(key, mark, h0);
    Turn(key, mark, h1);
    Then(key, mark, h0, TURN, h1, TURN);
    moves := TURN + TURN;
    h := (store[key := Entry(mark, ver + 1)], Clearing(StartPut(key, "", ver + 1), ver));
  }

  // Clearing.
  lemma Clears(key: string, mark: string, store: Store<string>, ver: nat) returns (moves: seq<Move>)
    requires Versioned(store) && key in store && store[key].version == ver + 1
    ensures Drive(key, mark, (store, Clearing(StartPut(key, "", ver + 1), ver)), moves) ==
            Some((store[key := Entry("", ver + 2)], Leaving))
  {
    Turn(key, mark, (store, Clearing(StartPut(key, "", ver + 1), ver)));
    moves := TURN;
  }

  // ----- in the system

  lemma Begun(s: State, steps: seq<Step>, c: nat)
    requires Init(s) && Run(s, steps).Some? && c in Run(s, steps).value.stage && Run(s, steps).value.stage[c].Reading?
    ensures var t := Run(s, steps).value;
            && Versioned(t.lock.store) && t.stage.Keys == t.marks.Keys == t.lock.clients.Keys
            && HandleGet(t.lock.store, t.key) == Got("", Cur(t))
  {
    Invariant(s, steps);
    NeverFatal(s, steps, c);
  }

  ghost predicate Formed(t: State, c: nat) {
    Versioned(t.lock.store) && t.stage.Keys == t.marks.Keys == t.lock.clients.Keys && c in t.stage
  }

  lemma GoesTo(s: State, steps: seq<Step>, t: State, c: nat, moves: seq<Move>, h: Here) returns (steps': seq<Step>, t': State)
    requires Run(s, steps) == Some(t) && Formed(t, c) && Versioned(h.0)
    requires Drive(t.key, t.marks[c], (t.lock.store, t.stage[c]), moves) == Some(h)
    ensures Alone(steps, steps', c) && Run(s, steps') == Some(t') && Others(t, t', c) && Formed(t', c)
    ensures t'.lock.store == h.0 && t'.stage[c] == h.1
  {
    t' := Drives(s, steps, t, c, moves);
    steps' := steps + Steps(c, moves);
  }

  // The steps after the first ones are all calls of c to the guarded key.
  ghost predicate Alone(steps: seq<Step>, steps': seq<Step>, c: nat) {
    steps <= steps' && forall m :: |steps| <= m < |steps'| ==> steps'[m].Data? && steps'[m].c == c
  }

  // c's mark is on the guarded key, one version on.
  ghost predicate Marked(t: State, u: State, c: nat) {
    && Others(t, u, c) && c in t.marks && u.lock.store == t.lock.store[t.key := Entry(t.marks[c], Cur(t) + 1)]
  }

  lemma MarksBy(s: State, steps: seq<Step>, t: State, c: nat, moves: seq<Move>, h: Here) returns (a: seq<Step>, u: State)
    requires Run(s, steps) == Some(t) && Formed(t, c) && Versioned(h.0)
    requires Drive(t.key, t.marks[c], (t.lock.store, t.stage[c]), moves) == Some(h)
    requires h == (t.lock.store[t.key := Entry(t.marks[c], Cur(t) + 1)], Clearing(StartPut(t.key, "", Cur(t) + 1), Cur(t)))
    ensures Alone(steps, a, c) && Run(s, a) == Some(u) && Marked(t, u, c) && ToClear(u, c, Cur(t))
  {
    a, u := GoesTo(s, steps, t, c, moves, h);
    IsMarked(t, u, c, h);
  }

  lemma MarkMoves(t: State, c: nat) returns (moves: seq<Move>, h: Here)
    requires Formed(t, c) && t.stage[c] == Reading(StartGet(t.key)) && HandleGet(t.lock.store, t.key) == Got("", Cur(t))
    ensures Drive(t.key, t.marks[c], (t.lock.store, t.stage[c]), moves) == Some(h) && Versioned(h.0)
    ensures h == (t.lock.store[t.key := Entry(t.marks[c], Cur(t) + 1)], Clearing(StartPut(t.key, "", Cur(t) + 1), Cur(t)))
  {
    moves, h := Marks(t.key, t.marks[c], t.lock.store, Cur(t));
  }

  lemma WorksToMark(s: State, steps: seq<Step>, t: State, c: nat) returns (a: seq<Step>, u: State)
    requires Run(s, steps) == Some(t) && Formed(t, c) && t.stage[c] == Reading(StartGet(t.key))
    requires HandleGet(t.lock.store, t.key) == Got("", Cur(t))
    ensures Alone(steps, a, c) && Run(s, a) == Some(u) && Marked(t, u, c) && ToClear(u, c, Cur(t))
  {
    var moves, h := MarkMoves(t, c);
    a, u := MarksBy(s, steps, t, c, moves, h);
  }

  // c is about to clear the guarded key.
  ghost predicate ToClear(u: State, c: nat, ver: nat) {
    && Formed(u, c) && u.stage[c] == Clearing(StartPut(u.key, "", ver + 1), ver)
    && u.key in u.lock.store && u.lock.store[u.key].version == ver + 1
  }

  lemma IsMarked(t: State, u: State, c: nat, h: Here)
    requires Formed(t, c) && Formed(u, c) && Others(t, u, c) && u.lock.store == h.0 && u.stage[c] == h.1
    requires h.0 == t.lock.store[t.key := Entry(t.marks[c], Cur(t) + 1)]
    requires h.1 == Clearing(StartPut(t.key, "", Cur(t) + 1), Cur(t))
    ensures Marked(t, u, c) && ToClear(u, c, Cur(t))
  {
  }

  // Beginning changes nothing but c's stage.
  lemma SinceBegin(t: State, c: nat)
    requires Enabled(t, Begin(c))
    ensures var t' := Next(t, Begin(c));
            && t'.lock == t.lock && t'.key == t.key && t'.marks == t.marks && c in t'.stage
            && t'.stage[c] == Reading(StartGet(t.key)) && Others(t, t', c)
  {
  }

  lemma SameSince(t: State, t': State, u: State, c: nat)
    requires t'.lock == t.lock && t'.key == t.key && t'.marks == t.marks && Others(t, t', c) && Marked(t', u, c)
    ensures Marked(t, u, c)
  {
  }

  // From every reachable state in which c has just acquired the lock, it finds
  // the guarded key empty, and leaves its mark there by its own steps.
  lemma CanMark(s: State, steps: seq<Step>, c: nat) returns (a: seq<Step>, u: State)
    requires Init(s) && Run(s, steps).Some? && Enabled(Run(s, steps).value, Begin(c))
    ensures HandleGet(Run(s, steps).value.lock.store, Run(s, steps).value.key) == Got("", Cur(Run(s, steps).value))
    ensures Alone(steps + [Begin(c)], a, c) && Run(s, a) == Some(u)
    ensures Marked(Run(s, steps).value, u, c) && ToClear(u, c, Cur(Run(s, steps).value))
  {
    var t := Run(s, steps).value;
    Extend(s, steps, Begin(c));
    SinceBegin(t, c);
    Begun(s, steps + [Begin(c)], c);
    a, u := WorksToMark(s, steps + [Begin(c)], Next(t, Begin(c)), c);
    SameSince(t, Next(t, Begin(c)), u, c);
  }

  // From there it leaves the key empty again, two versions on, and comes to the
  // end of its turn.
  lemma CanClear(s: State, steps: seq<Step>, c: nat, ver: nat) returns (b: seq<Step>, v: State)
    requires Run(s, steps).Some? && ToClear(Run(s, steps).value, c, ver)
    ensures Alone(steps, b, c) && Run(s, b) == Some(v) && Others(Run(s, steps).value, v, c)
    ensures c in v.stage && v.stage[c] == Leaving
    ensures v.lock.store == Run(s, steps).value.lock.store[v.key := Entry("", ver + 2)]
  {
    var u := Run(s, steps).value;
    var moves := Clears(u.key, u.marks[c], u.lock.store, ver);
    b, v := GoesTo(s, steps, u, c, moves, (u.lock.store[u.key := Entry("", ver + 2)], Leaving));
  }

  // Then it can release, and is back at the top of its loop.
  lemma CanLeave(s: State, steps: seq<Step>, c: nat)
    requires Init(s) && Run(s, steps).Some? && c in Run(s, steps).value.stage && Run(s, steps).value.stage[c] == Leaving
    ensures Run(s, steps + [LockStep(Lock.Release(c))]).Some?
    ensures var t, t' := Run(s, steps).value, Run(s, steps + [LockStep(Lock.Release(c))]).value;
            && c in t'.stage && t'.stage[c] == Idle && t'.lock.store == t.lock.store
            && c in t.lock.clients && t.lock.clients[c] == Lock.Held
            && c in t'.lock.clients && t'.lock.clients[c] == Lock.RelGet(StartGet(t.lock.name), 1, true)
  {
    Invariant(s, steps);
    Extend(s, steps, LockStep(Lock.Release(c)));
  }

  lemma StaysLate(t: State, step: Step, args: PutArgs<string>)
    requires Enabled(t, step) && args in t.late
    ensures args in Next(t, step).late && Enabled(Next(t, step), DataLate(args))
  {
  }

  lemma DroppedLate(t: State, c: nat)
    requires Enabled(t, Data(c, Drop)) && t.stage[c].call.PutCall?
    ensures Enabled(Next(t, Data(c, Drop)), DataLate(t.stage[c].call.args))
  {
  }

  // A Put on the guarded key whose attempt was dropped may execute at any time.
  lemma {:induction false} MayExecuteLate(s: State, steps: seq<Step>, c: nat, more: seq<Step>)
    requires Run(s, steps).Some? && Enabled(Run(s, steps).value, Data(c, Drop)) && Run(s, steps).value.stage[c].call.PutCall?
    requires Run(s, steps + [Data(c, Drop)] + more).Some?
    ensures Enabled(Run(s, steps + [Data(c, Drop)] + more).value, DataLate(Run(s, steps).value.stage[c].call.args))
  {
    var all := steps + [Data(c, Drop)] + more;
    if more == [] {
      assert all == steps + [Data(c, Drop)];
      Extend(s, steps, Data(c, Drop));
      DroppedLate(Run(s, steps).value, c);
    } else {
      var shorter := steps + [Data(c, Drop)] + more[..|more| - 1];
      assert all[..|all| - 1] == shorter;
      MayExecuteLate(s, steps, c, more[..|more| - 1]);
      StaysLate(Run(s, shorter).value, more[|more| - 1], Run(s, steps).value.stage[c].call.args);
    }
  }
}
