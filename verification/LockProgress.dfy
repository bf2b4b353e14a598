/** The lock is taken and given back: from every reachable state in which it is
    free, a client in or before Acquire comes to hold it by its own steps alone,
    and a client in or before Release comes out of it. */
module LockProgress {
  import opened Options
  import opened Kv
  import opened Calls
  import opened Lock

  // ----- a client that moves alone

  // The store and the client's place.
  type Here = (Store<string>, Pc)

  function Act(name: string, id: string, h: Here, move: Move): Here
    requires InCall(h.1) && CanMove(h.1.call, move)
  {
    var (store, progress) := Advance(h.0, h.1.call, move);
    (store, match progress
            case Running(call) => WithCall(h.1, call)
            case Returned(out) => Resume(name, id, h.1, out))
  }

  function Drive(name: string, id: string, h: Here, moves: seq<Move>): Option<Here>
    decreases |moves|
  {
    if moves == [] then Some(h)
    else if InCall(h.1) && CanMove(h.1.call, moves[0]) then Drive(name, id, Act(name, id, h, moves[0]), moves[1..])
    else None
  }

  lemma {:induction false} Then(name: string, id: string, h: Here, a: seq<Move>, mid: Here, b: seq<Move>)
    requires Drive(name, id, h, a) == Some(mid)
    ensures Drive(name, id, h, a + b) == Drive(name, id, mid, b)
    decreases |a|
  {
    if a == [] {
      assert a + b == b;
    } else {
      assert (a + b)[1..] == a[1..] + b;
      Then(name, id, Act(name, id, h, a[0]), a[1..], mid, b);
    }
  }

  function Steps(c: nat, moves: seq<Move>): seq<Step> { seq(|moves|, i requires 0 <= i < |moves| => Net(c, moves[i])) }

  // Only c and the store differ, and what the network may still hold of c's.
  ghost predicate Others(t: State, t': State, c: nat) {
    && t'.name == t.name && t'.ids == t.ids && t'.clients.Keys == t.clients.Keys
    && forall d :: d in t.clients && d != c ==> t'.clients[d] == t.clients[d]
  }

  lemma OneMove(t: State, c: nat, move: Move)
    requires Enabled(t, Net(c, move))
    ensures var t' := Next(t, Net(c, move));
            Others(t, t', c) && (t'.store, t'.clients[c]) == Act(t.name, t.ids[c], (t.store, t.clients[c]), move)
  {
  }

  lemma StepsHead(c: nat, moves: seq<Move>)
    requires moves != []
    ensures Steps(c, moves) == [Net(c, moves[0])] + Steps(c, moves[1..])
  {
  }

  // In the system, c's steps alone do just that.
  lemma {:induction false} Drives(s: State, steps: seq<Step>, t: State, c: nat, moves: seq<Move>) returns (t': State)
    requires Run(s, steps) == Some(t) && c in t.clients && t.ids.Keys == t.clients.Keys
    requires Drive(t.name, t.ids[c], (t.store, t.clients[c]), moves).Some?
    ensures Run(s, steps + Steps(c, moves)) == Some(t') && Others(t, t', c)
    ensures Drive(t.name, t.ids[c], (t.store, t.clients[c]), moves) == Some((t'.store, t'.clients[c]))
    decreases |moves|
  {
    if moves == [] {
      assert steps + Steps(c, moves) == steps;
      t' := t;
    } else {
      Extend(s, steps, Net(c, moves[0]));
      var t1 := Next(t, Net(c, moves[0]));
      OneMove(t, c, moves[0]);
      t' := Drives(s, steps + [Net(c, moves[0])], t1, c, moves[1..]);
      StepsHead(c, moves);
      assert steps + Steps(c, moves) == steps + [Net(c, moves[0])] + Steps(c, moves[1..]);
    }
  }

  // ----- one call of its program

  lemma GetTurn(name: string, id: string, h: Here)
    requires InCall(h.1) && h.1.call.GetCall? && h.1.call.got.None?
    ensures Drive(name, id, h, [Execute, Deliver]) ==
            Some((h.0, Resume(name, id, h.1, GetOut(HandleGet(h.0, h.1.call.key)))))
  {
    assert [Execute, Deliver][1..] == [Deliver];
    var h1 := Act(name, id, h, Execute);
    assert Drive(name, id, h1, [Deliver]) == Drive(name, id, Act(name, id, h1, Deliver), []);
  }

  lemma PutTurn(name: string, id: string, h: Here)
    requires InCall(h.1) && h.1.call.PutCall? && h.1.call.reply.None?
    ensures var (store, err) := HandlePut(h.0, h.1.call.args);
            Drive(name, id, h, [Execute, Deliver]) ==
            Some((store, Resume(name, id, h.1, PutOut(FoldErr(err, h.1.call.first)))))
  {
    assert [Execute, Deliver][1..] == [Deliver];
    var h1 := Act(name, id, h, Execute);
    assert Drive(name, id, h1, [Deliver]) == Drive(name, id, Act(name, id, h1, Deliver), []);
  }

  lemma LastTurn(name: string, id: string, h: Here)
    requires InCall(h.1) && Replied(h.1.call)
    ensures Drive(name, id, h, [Deliver]) == Some(Act(name, id, h, Deliver))
  {
    assert Drive(name, id, Act(name, id, h, Deliver), []) == Some(Act(name, id, h, Deliver));
  }

  // ----- acquiring

  ghost predicate FreeAt(store: Store<string>, name: string) {
    Versioned(store) && (name in store ==> store[name].value == "")
  }

  // The lock, free before, is now held under id.
  ghost predicate TakenAt(store: Store<string>, store': Store<string>, name: string, id: string) {
    HandleGet(store', name) == Got(id, Version(store, name) + 1)
  }

  // A client in Acquire with a call to the lock's key, whose answer, if it is
  // there, does not say that the client has the lock.
  predicate Acquiring(name: string, id: string, pc: Pc) {
    match pc
    case AcqGet(call) => call.GetCall? && call.key == name && (call.got.None? || !Names(call.got.value, id))
    case AcqCheck(call) => call.GetCall? && call.key == name && (call.got.None? || !Names(call.got.value, id))
    case AcqPut(call) => call.PutCall? && call.args.key == name && call.args.value == id && call.reply != Some(OK)
    case _ => false
  }

  predicate Names(got: Got<string>, id: string) { got.Got? && got.value == id }

  lemma Again(name: string, id: string, store: Store<string>) returns (moves: seq<Move>, h: Here)
    requires FreeAt(store, name) && id != ""
    ensures Drive(name, id, (store, AcqGet(StartGet(name))), moves) == Some(h)
    ensures h.1 == Held && TakenAt(store, h.0, name, id)
  {
    var h0: Here := (store, AcqGet(StartGet(name)));
    GetTurn(name, id, h0);
    var h1: Here := (store, AcqPut(StartPut(name, id, Version(store, name))));
    PutTurn(name, id, h1);
    h := (HandlePut(store, PutArgs(name, id, Version(store, name))).0, Held);
    Then(name, id, h0, [Execute, Deliver], h1, [Execute, Deliver]);
    moves := [Execute, Deliver] + [Execute, Deliver];
  }

  // The call it is in is answered, without taking the lock unless by its Put.
  lemma Answered(name: string, id: string, h: Here) returns (moves: seq<Move>, h': Here)
    requires FreeAt(h.0, name) && id != "" && Acquiring(name, id, h.1)
    ensures Drive(name, id, h, moves) == Some(h')
    ensures if h'.1 == Held then h.1.AcqPut? && TakenAt(h.0, h'.0, name, id)
            else h'.0 == h.0 && Acquiring(name, id, h'.1) && !Replied(h'.1.call)
    ensures h.1.AcqCheck? || (h.1.AcqPut? && h'.1 != Held && !h'.1.AcqCheck?) ==> h'.1 == AcqGet(StartGet(name))
    ensures h.1.AcqGet? ==> h'.1.AcqPut? || h'.1 == AcqGet(StartGet(name))
  {
    if Replied(h.1.call) {
      LastTurn(name, id, h);
      moves, h' := [Deliver], Act(name, id, h, Deliver);
    } else if h.1.AcqPut? {
      PutTurn(name, id, h);
      moves, h' := [Execute, Deliver], Drive(name, id, h, [Execute, Deliver]).value;
    } else {
      GetTurn(name, id, h);
      moves, h' := [Execute, Deliver], Drive(name, id, h, [Execute, Deliver]).value;
    }
  }

  lemma FromCheck(name: string, id: string, h: Here) returns (moves: seq<Move>, h': Here)
    requires FreeAt(h.0, name) && id != "" && Acquiring(name, id, h.1) && (h.1.AcqCheck? || h.1 == AcqGet(StartGet(name)))
    ensures Drive(name, id, h, moves) == Some(h') && h'.1 == Held && TakenAt(h.0, h'.0, name, id)
  {
    if h.1.AcqCheck? {
      var a, h1 := Answered(name, id, h);
      var b, h2 := Again(name, id, h1.0);
      Then(name, id, h, a, h1, b);
      moves, h' := a + b, h2;
    } else {
      moves, h' := Again(name, id, h.0);
    }
  }

  lemma FromPut(name: string, id: string, h: Here) returns (moves: seq<Move>, h': Here)
    requires FreeAt(h.0, name) && id != "" && Acquiring(name, id, h.1) && h.1.AcqPut?
    ensures Drive(name, id, h, moves) == Some(h') && h'.1 == Held && TakenAt(h.0, h'.0, name, id)
  {
    moves, h' := Answered(name, id, h);
    if h'.1 != Held {
      var b, h2 := FromCheck(name, id, h');
      Then(name, id, h, moves, h', b);
      moves, h' := moves + b, h2;
    }
  }

  lemma FromGet(name: string, id: string, h: Here) returns (moves: seq<Move>, h': Here)
    requires FreeAt(h.0, name) && id != "" && Acquiring(name, id, h.1) && h.1.AcqGet?
    ensures Drive(name, id, h, moves) == Some(h') && h'.1 == Held && TakenAt(h.0, h'.0, name, id)
  {
    var a, h1 := Answered(name, id, h);
    var b, h2;
    if h1.1.AcqPut? {
      b, h2 := FromPut(name, id, h1);
    } else {
      b, h2 := FromCheck(name, id, h1);
    }
    Then(name, id, h, a, h1, b);
    moves, h' := a + b, h2;
  }

  // In the system.

  ghost predicate Free(t: State) { Owner(t) == "" }

  // The steps after the first ones are all c's.
  ghost predicate Alone(steps: seq<Step>, steps': seq<Step>, c: nat) {
    steps <= steps' && forall m :: |steps| <= m < |steps'| ==>
      steps'[m] == Acquire(c) || steps'[m] == Release(c) || (steps'[m].Net? && steps'[m].c == c)
  }

  // c holds the lock, which was free.
  ghost predicate Took(t: State, t': State, c: nat) {
    && Others(t, t', c) && c in t'.clients && t'.clients[c] == Held && c in t'.ids
    && HandleGet(t'.store, t'.name) == Got(t'.ids[c], Cur(t) + 1)
  }

  // What the invariant says of a client while the lock is free.
  lemma InAcquire(t: State, c: nat)
    requires Inv(t) && c in t.clients && Free(t) && (t.clients[c].AcqGet? || t.clients[c].AcqPut? || t.clients[c].AcqCheck?)
    ensures c in t.ids && t.ids[c] != "" && FreeAt(t.store, t.name) && Acquiring(t.name, t.ids[c], t.clients[c])
  {
    assert ClientOk(t, t.ids[c], t.clients[c]);
  }

  lemma Started(s: State, steps: seq<Step>, c: nat)
    requires Run(s, steps).Some? && Inv(Run(s, steps).value) && Enabled(Run(s, steps).value, Acquire(c))
    ensures Run(s, steps + [Acquire(c)]).Some?
    ensures var t, t' := Run(s, steps).value, Run(s, steps + [Acquire(c)]).value;
            && Inv(t') && Others(t, t', c) && t'.store == t.store && t'.clients[c] == AcqGet(StartGet(t.name))
  {
    Extend(s, steps, Acquire(c));
    Preserves(Run(s, steps).value, Acquire(c));
  }

  // From every reachable state in which the lock is free, a client that is
  // outside, or anywhere inside Acquire, comes to hold it by its own steps.
  lemma CanAcquire(s: State, steps: seq<Step>, c: nat) returns (steps': seq<Step>)
    requires Init(s) && Distinct(s) && Run(s, steps).Some? && c in Run(s, steps).value.clients
    requires var t := Run(s, steps).value;
             Free(t) && (t.clients[c].Out? || t.clients[c].AcqGet? || t.clients[c].AcqPut? || t.clients[c].AcqCheck?)
    ensures Alone(steps, steps', c) && Run(s, steps').Some? && Took(Run(s, steps).value, Run(s, steps').value, c)
  {
    Invariant(s, steps);
    if Run(s, steps).value.clients[c].Out? {
      Started(s, steps, c);
      steps' := FromInside(s, steps + [Acquire(c)], c);
    } else {
      steps' := FromInside(s, steps, c);
    }
  }

  lemma FromInside(s: State, steps: seq<Step>, c: nat) returns (steps': seq<Step>)
    requires Run(s, steps).Some? && Inv(Run(s, steps).value) && c in Run(s, steps).value.clients
    requires var t := Run(s, steps).value;
             Free(t) && (t.clients[c].AcqGet? || t.clients[c].AcqPut? || t.clients[c].AcqCheck?)
    ensures Alone(steps, steps', c) && Run(s, steps').Some? && Took(Run(s, steps).value, Run(s, steps').value, c)
  {
    var t := Run(s, steps).value;
    InAcquire(t, c);
    var h: Here := (t.store, t.clients[c]);
    var moves, h';
    if t.clients[c].AcqGet? {
      moves, h' := FromGet(t.name, t.ids[c], h);
    } else if t.clients[c].AcqPut? {
      moves, h' := FromPut(t.name, t.ids[c], h);
    } else {
      moves, h' := FromCheck(t.name, t.ids[c], h);
    }
    var t' := Drives(s, steps, t, c, moves);
    steps' := steps + Steps(c, moves);
  }

  const BLIND: seq<Move> := [Execute, Deliver] + ([Execute, Lose] + ([Execute, Deliver] + [Execute, Deliver]))

  // Also if the reply to its Put is lost: it is told ErrMaybe, looks, and finds
  // its own name.
  lemma AgainBlind(name: string, id: string, store: Store<string>) returns (h: Here)
    requires FreeAt(store, name) && id != ""
    ensures Drive(name, id, (store, AcqGet(StartGet(name))), BLIND) == Some(h)
    ensures h.1 == Held && TakenAt(store, h.0, name, id)
  {
    var v := Version(store, name);
    var a := PutArgs(name, id, v);
    var after := HandlePut(store, a).0;
    var h0: Here := (store, AcqGet(StartGet(name)));
    var h1: Here := (store, AcqPut(StartPut(name, id, v)));
    var h2: Here := (after, AcqPut(PutCall(a, false, None)));
    var h3: Here := (after, AcqCheck(StartGet(name)));
    h := (after, Held);
    GetTurn(name, id, h0);
    LostTurn(name, id, h1);
    PutTurn(name, id, h2);
    GetTurn(name, id, h3);
    Then(name, id, h2, [Execute, Deliver], h3, [Execute, Deliver]);
    Then(name, id, h1, [Execute, Lose], h2, [Execute, Deliver] + [Execute, Deliver]);
    Then(name, id, h0, [Execute, Deliver], h1, [Execute, Lose] + ([Execute, Deliver] + [Execute, Deliver]));
  }

  lemma LostTurn(name: string, id: string, h: Here)
    requires InCall(h.1) && h.1.call.PutCall? && h.1.call.reply.None?
    ensures Drive(name, id, h, [Execute, Lose]) ==
            Some((HandlePut(h.0, h.1.call.args).0, WithCall(h.1, PutCall(h.1.call.args, false, None))))
  {
    assert [Execute, Lose][1..] == [Lose];
    var h1 := Act(name, id, h, Execute);
    assert Drive(name, id, h1, [Lose]) == Drive(name, id, Act(name, id, h1, Lose), []);
  }

  lemma BlindInside(s: State, steps: seq<Step>, c: nat)
    requires Run(s, steps).Some? && Inv(Run(s, steps).value) && c in Run(s, steps).value.clients
    requires var t := Run(s, steps).value; Free(t) && t.clients[c] == AcqGet(StartGet(t.name))
    ensures Run(s, steps + Steps(c, BLIND)).Some?
    ensures Took(Run(s, steps).value, Run(s, steps + Steps(c, BLIND)).value, c)
  {
    var t := Run(s, steps).value;
    InAcquire(t, c);
    var h := AgainBlind(t.name, t.ids[c], t.store);
    var t' := Drives(s, steps, t, c, BLIND);
  }

  lemma CanAcquireBlind(s: State, steps: seq<Step>, c: nat)
    requires Init(s) && Distinct(s) && Run(s, steps).Some? && c in Run(s, steps).value.clients
    requires Free(Run(s, steps).value) && Run(s, steps).value.clients[c] == Out
    ensures var steps' := steps + [Acquire(c)] + Steps(c, BLIND);
            Run(s, steps').Some? && Took(Run(s, steps).value, Run(s, steps').value, c)
  {
    Invariant(s, steps);
    Started(s, steps, c);
    BlindInside(s, steps + [Acquire(c)], c);
  }

  // While another client has it, a look changes nothing, and c looks again.
  lemma WaitsItsTurn(s: State, steps: seq<Step>, c: nat)
    requires Run(s, steps).Some? && c in Run(s, steps).value.clients
    requires var t := Run(s, steps).value;
             && t.ids.Keys == t.clients.Keys && Owner(t) != "" && Owner(t) != t.ids[c]
             && t.clients[c] == AcqGet(StartGet(t.name))
    ensures Run(s, steps + [Net(c, Execute), Net(c, Deliver)]) == Run(s, steps)
  {
    var t := Run(s, steps).value;
    var t1 := Next(t, Net(c, Execute));
    Extend(s, steps, Net(c, Execute));
    Extend(s, steps + [Net(c, Execute)], Net(c, Deliver));
    assert steps + [Net(c, Execute), Net(c, Deliver)] == steps + [Net(c, Execute)] + [Net(c, Deliver)];
    assert Next(t1, Net(c, Deliver)).clients == t.clients;
  }

  // ----- releasing

  // Another client has the lock or nobody.
  predicate Gone(store: Store<string>, name: string, id: string) { !(name in store && store[name].value == id) }

  // In the last look of Release, or with a Put that does what it is for.
  predicate Releasing(store: Store<string>, name: string, id: string, pc: Pc) {
    match pc
    case RelGet(call, round, _) =>
      && call.GetCall? && call.key == name
      && (round == 2 ==> Gone(store, name, id) && (call.got.Some? ==> !Names(call.got.value, id)))
      && (round != 2 && !Gone(store, name, id) ==> call.got.None? || call.got == Some(HandleGet(store, name)))
      && (round != 2 && Gone(store, name, id) ==> call.got.None? || !Names(call.got.value, id))
      && 1 <= round <= 2
    case RelPut(call, round, _) =>
      && call.PutCall? && call.args.key == name && call.args.value == "" && round == 1
      && if Gone(store, name, id) then call.args.version < Version(store, name)
         else call.args.version == Version(store, name) && call.reply.None?
    case _ => false
  }

  // The client is out, and the lock free if it had it.
  predicate OutAt(store: Store<string>, h: Here, name: string, id: string) {
    && h.1 == Out && Gone(h.0, name, id)
    && if Gone(store, name, id) then h.0 == store else HandleGet(h.0, name) == Got("", Version(store, name) + 1)
  }

  lemma FromLastLook(name: string, id: string, h: Here) returns (moves: seq<Move>, h': Here)
    requires Versioned(h.0) && id != "" && h.1.RelGet? && Releasing(h.0, name, id, h.1) && Gone(h.0, name, id)
    ensures Drive(name, id, h, moves) == Some(h') && OutAt(h.0, h', name, id)
  {
    if Replied(h.1.call) {
      LastTurn(name, id, h);
      moves, h' := [Deliver], Act(name, id, h, Deliver);
    } else {
      GetTurn(name, id, h);
      moves, h' := [Execute, Deliver], Drive(name, id, h, [Execute, Deliver]).value;
    }
  }

  lemma FromRelPut(name: string, id: string, h: Here) returns (moves: seq<Move>, h': Here)
    requires Versioned(h.0) && id != "" && h.1.RelPut? && Releasing(h.0, name, id, h.1)
    ensures Drive(name, id, h, moves) == Some(h') && OutAt(h.0, h', name, id)
  {
    if Replied(h.1.call) {
      LastTurn(name, id, h);
      moves, h' := [Deliver], Act(name, id, h, Deliver);
    } else {
      PutTurn(name, id, h);
      moves, h' := [Execute, Deliver], Drive(name, id, h, [Execute, Deliver]).value;
    }
    if h'.1 != Out {
      var b, h2 := FromLastLook(name, id, h');
      Then(name, id, h, moves, h', b);
      moves, h' := moves + b, h2;
    }
  }

  lemma FromRelGet(name: string, id: string, h: Here) returns (moves: seq<Move>, h': Here)
    requires Versioned(h.0) && id != "" && h.1.RelGet? && Releasing(h.0, name, id, h.1)
    ensures Drive(name, id, h, moves) == Some(h') && OutAt(h.0, h', name, id)
  {
    if Gone(h.0, name, id) {
      moves, h' := FromLastLook(name, id, h);
    } else {
      var h1: Here := (h.0, RelPut(StartPut(name, "", Version(h.0, name)), 1, h.1.holder));
      if Replied(h.1.call) {
        LastTurn(name, id, h);
        moves := [Deliver];
      } else {
        GetTurn(name, id, h);
        moves := [Execute, Deliver];
      }
      assert Drive(name, id, h, moves) == Some(h1);
      var b, h2 := FromRelPut(name, id, h1);
      Then(name, id, h, moves, h1, b);
      moves, h' := moves + b, h2;
    }
  }

  // In the system.

  // c is outside, and the lock free if it was c's.
  ghost predicate GaveBack(t: State, t': State, c: nat) {
    && Others(t, t', c) && c in t'.clients && t'.clients[c] == Out && c in t'.ids && Owner(t') != t'.ids[c]
    && if Owner(t) == t.ids[c] then HandleGet(t'.store, t'.name) == Got("", Cur(t) + 1) else t'.store == t.store
  }

  lemma InRelease(t: State, c: nat)
    requires Inv(t) && c in t.clients && (t.clients[c].RelGet? || t.clients[c].RelPut?)
    requires t.clients[c].RelGet? ==> t.clients[c].holder
    ensures c in t.ids && t.ids[c] != "" && Versioned(t.store) && Releasing(t.store, t.name, t.ids[c], t.clients[c])
  {
    assert ClientOk(t, t.ids[c], t.clients[c]);
  }

  lemma LeavesInside(s: State, steps: seq<Step>, c: nat) returns (steps': seq<Step>)
    requires Run(s, steps).Some? && Inv(Run(s, steps).value) && c in Run(s, steps).value.clients
    requires var t := Run(s, steps).value; (t.clients[c].RelGet? && t.clients[c].holder) || t.clients[c].RelPut?
    ensures Alone(steps, steps', c) && Run(s, steps').Some? && GaveBack(Run(s, steps).value, Run(s, steps').value, c)
  {
    var t := Run(s, steps).value;
    InRelease(t, c);
    var h: Here := (t.store, t.clients[c]);
    var moves, h';
    if t.clients[c].RelGet? {
      moves, h' := FromRelGet(t.name, t.ids[c], h);
    } else {
      moves, h' := FromRelPut(t.name, t.ids[c], h);
    }
    var t' := Drives(s, steps, t, c, moves);
    steps' := steps + Steps(c, moves);
  }

  // From every reachable state, a client that holds the lock or is releasing it
  // comes out by its own steps, and leaves the lock free if it was its own.
  lemma CanRelease(s: State, steps: seq<Step>, c: nat) returns (steps': seq<Step>)
    requires Init(s) && Distinct(s) && Run(s, steps).Some? && c in Run(s, steps).value.clients
    requires var t := Run(s, steps).value;
             t.clients[c].Held? || (t.clients[c].RelGet? && t.clients[c].holder) || t.clients[c].RelPut?
    ensures Alone(steps, steps', c) && Run(s, steps').Some? && GaveBack(Run(s, steps).value, Run(s, steps').value, c)
    ensures Run(s, steps).value.clients[c].Held? ==> Free(Run(s, steps').value)
  {
    Invariant(s, steps);
    var t := Run(s, steps).value;
    if t.clients[c].Held? {
      assert ClientOk(t, t.ids[c], t.clients[c]);
      Extend(s, steps, Release(c));
      Preserves(t, Release(c));
      steps' := LeavesInside(s, steps + [Release(c)], c);
    } else {
      steps' := LeavesInside(s, steps, c);
    }
  }

  // The lock goes from hand to hand: from every reachable state in which it is
  // free, c can take it, give it back, and d take it after that.
  lemma HandsOver(s: State, steps: seq<Step>, c: nat, d: nat) returns (a: seq<Step>, b: seq<Step>, e: seq<Step>)
    requires Init(s) && Distinct(s) && Run(s, steps).Some? && c != d
    requires var t := Run(s, steps).value; Free(t) && c in t.clients && d in t.clients && t.clients[c] == t.clients[d] == Out
    ensures Alone(steps, a, c) && Alone(a, b, c) && Alone(b, e, d)
    ensures Run(s, a).Some? && Run(s, b).Some? && Run(s, e).Some?
    ensures Took(Run(s, steps).value, Run(s, a).value, c) && GaveBack(Run(s, a).value, Run(s, b).value, c)
    ensures Took(Run(s, b).value, Run(s, e).value, d) && Cur(Run(s, e).value) == Cur(Run(s, steps).value) + 3
  {
    a := CanAcquire(s, steps, c);
    b := CanRelease(s, a, c);
    e := CanAcquire(s, b, d);
  }

  // ----- what was given up stays possible

  // A Put whose attempt was dropped may execute at any later time, whoever holds
  // the lock by then.
  lemma {:induction false} MayExecuteLate(s: State, steps: seq<Step>, c: nat, more: seq<Step>)
    requires Run(s, steps).Some? && Enabled(Run(s, steps).value, Net(c, Drop)) && Run(s, steps).value.clients[c].call.PutCall?
    requires Run(s, steps + [Net(c, Drop)] + more).Some?
    ensures var args := Run(s, steps).value.clients[c].call.args;
            var t := Run(s, steps + [Net(c, Drop)] + more).value;
            args in t.late && t.ids.Keys == t.clients.Keys && Enabled(t, Late(args))
  {
    var all := steps + [Net(c, Drop)] + more;
    if more == [] {
      assert all == steps + [Net(c, Drop)];
      Extend(s, steps, Net(c, Drop));
    } else {
      assert all[..|all| - 1] == steps + [Net(c, Drop)] + more[..|more| - 1];
      MayExecuteLate(s, steps, c, more[..|more| - 1]);
    }
  }
}
