/** What the append clients count, and that they append: their numbers are those of
    the answers they got, and a client that moves alone adds its entry. */
module AppendProgress {
  import opened Options
  import opened Kv
  import opened Calls
  import opened Append

  // ----- what is counted

  // A step delivers OK to c, or ErrMaybe: the server's refusal of a resend.
  predicate Tells(s: State, step: Step, c: nat, ok: bool) {
    && step == Net(c, Deliver) && c < |s.clients| && s.clients[c].pc.Putting? && s.clients[c].pc.call.PutCall?
    && if ok then s.clients[c].pc.call.reply == Some(OK)
       else s.clients[c].pc.call.reply == Some(ErrVersion) && !s.clients[c].pc.call.first
  }

  // How many of them there are in a run.
  function Told(s: State, steps: seq<Step>, c: nat, ok: bool): nat {
    if steps == [] then 0
    else
      var shorter := steps[..|steps| - 1];
      Told(s, shorter, c, ok) +
      if Run(s, shorter).Some? && Tells(Run(s, shorter).value, steps[|steps| - 1], c, ok) then 1 else 0
  }

  lemma OneAnswer(s: State, step: Step, c: nat)
    requires Inv(s) && Enabled(s, step) && c < |s.clients|
    ensures var cl, cl' := s.clients[c], Next(s, step).clients[c];
            && cl'.nok == cl.nok + (if Tells(s, step, c, true) then 1 else 0)
            && cl'.nmay == cl.nmay + (if Tells(s, step, c, false) then 1 else 0)
  {
    assert ClientOk(s, c, s.clients[c]);
  }

  // Every client's counts are the OK and ErrMaybe answers it was given, and the
  // number it appends next is their sum.
  lemma {:induction false} CountsAnswers(nclnt: nat, steps: seq<Step>, c: nat)
    requires Run(Init(nclnt), steps).Some? && c < nclnt
    ensures |Run(Init(nclnt), steps).value.clients| == nclnt
    ensures var cl := Run(Init(nclnt), steps).value.clients[c];
            && cl.nok == Told(Init(nclnt), steps, c, true) && cl.nmay == Told(Init(nclnt), steps, c, false)
            && cl.i == cl.nok + cl.nmay
  {
    Invariant(nclnt, steps);
    var s := Run(Init(nclnt), steps).value;
    assert ClientOk(s, c, s.clients[c]);
    if steps != [] {
      var shorter := steps[..|steps| - 1];
      Invariant(nclnt, shorter);
      CountsAnswers(nclnt, shorter, c);
      OneAnswer(Run(Init(nclnt), shorter).value, steps[|steps| - 1], c);
    }
  }

  // ----- a client that moves alone

  type Here = (Store<List>, Client)

  function Act(c: nat, h: Here, move: Move): Here
    requires Calling(h.1.pc) && CanMove(h.1.pc.call, move)
  {
    var (store, progress) := Advance(h.0, h.1.pc.call, move);
    (store, match progress
            case Running(call) => h.1.(pc := if h.1.pc.Getting? then Getting(call) else Putting(call))
            case Returned(out) => Resume(c, h.1, out))
  }

  function Drive(c: nat, h: Here, moves: seq<Move>): Option<Here>
    decreases |moves|
  {
    if moves == [] then Some(h)
    else if Calling(h.1.pc) && CanMove(h.1.pc.call, moves[0]) then Drive(c, Act(c, h, moves[0]), moves[1..])
    else None
  }

  lemma {:induction false} Then(c: nat, h: Here, a: seq<Move>, mid: Here, b: seq<Move>)
    requires Drive(c, h, a) == Some(mid)
    ensures Drive(c, h, a + b) == Drive(c, mid, b)
    decreases |a|
  {
    if a == [] {
      assert a + b == b;
    } else {
      assert (a + b)[1..] == a[1..] + b;
      Then(c, Act(c, h, a[0]), a[1..], mid, b);
    }
  }

  function Steps(c: nat, moves: seq<Move>): seq<Step> { seq(|moves|, i requires 0 <= i < |moves| => Net(c, moves[i])) }

  ghost predicate Others(s: State, s': State, c: nat) {
    |s'.clients| == |s.clients| && forall d :: 0 <= d < |s.clients| && d != c ==> s'.clients[d] == s.clients[d]
  }

  lemma OneMove(s: State, c: nat, move: Move)
    requires Enabled(s, Net(c, move))
    ensures var s' := Next(s, Net(c, move)); Others(s, s', c) && (s'.store, s'.clients[c]) == Act(c, (s.store, s.clients[c]), move)
  {
  }

  lemma Extend(s: State, steps: seq<Step>, step: Step)
    requires Run(s, steps).Some? && Enabled(Run(s, steps).value, step)
    ensures Run(s, steps + [step]) == Some(Next(Run(s, steps).value, step))
  {
    assert (steps + [step])[..|steps|] == steps;
  }

  lemma {:induction false} Drives(s: State, steps: seq<Step>, t: State, c: nat, moves: seq<Move>) returns (t': State)
    requires Run(s, steps) == Some(t) && c < |t.clients| && Drive(c, (t.store, t.clients[c]), moves).Some?
    ensures Run(s, steps + Steps(c, moves)) == Some(t') && Others(t, t', c)
    ensures Drive(c, (t.store, t.clients[c]), moves) == Some((t'.store, t'.clients[c]))
    decreases |moves|
  {
    if moves == [] {
      assert steps + Steps(c, moves) == steps;
      t' := t;
    } else {
      Extend(s, steps, Net(c, moves[0]));
      OneMove(t, c, moves[0]);
      t' := Drives(s, steps + [Net(c, moves[0])], Next(t, Net(c, moves[0])), c, moves[1..]);
      assert Steps(c, moves) == [Net(c, moves[0])] + Steps(c, moves[1..]);
      assert steps + Steps(c, moves) == steps + [Net(c, moves[0])] + Steps(c, moves[1..]);
    }
  }

  // ----- one append

  predicate Listed(store: Store<List>) { KEY in store && store[KEY].version >= 1 }

  // The client is done with its number: it got OK for an entry that is there, or
  // ErrMaybe; and the list is as before, or has that entry at its end.
  predicate Appended(store: Store<List>, cl: Client, c: nat, h: Here) {
    && Listed(store) && Listed(h.0)
    && (h.0[KEY].value == store[KEY].value || h.0[KEY].value == store[KEY].value + [Ent(c, cl.i)])
    && (|| (h.1 == Client(cl.i + 1, cl.nok + 1, cl.nmay, Ready) && Ent(c, cl.i) in h.0[KEY].value)
        || h.1 == Client(cl.i + 1, cl.nok, cl.nmay + 1, Ready))
  }

  const TURNS: seq<Move> := [Execute, Deliver] + [Execute, Deliver]

  // Reading and putting back undisturbed.
  lemma Again(c: nat, store: Store<List>, cl: Client) returns (h: Here)
    requires Listed(store) && cl.pc == Getting(StartGet(KEY))
    ensures Drive(c, (store, cl), TURNS) == Some(h)
    ensures Listed(h.0) && h.0[KEY] == Entry(store[KEY].value + [Ent(c, cl.i)], store[KEY].version + 1)
    ensures h.1 == Client(cl.i + 1, cl.nok + 1, cl.nmay, Ready)
  {
    var es, ver := store[KEY].value + [Ent(c, cl.i)], store[KEY].version;
    var h0: Here := (store, cl);
    var h1: Here := (store, cl.(pc := Putting(StartPut(KEY, es, ver))));
    h := (store[KEY := Entry(es, ver + 1)], Client(cl.i + 1, cl.nok + 1, cl.nmay, Ready));
    Turn(c, h0);
    Turn(c, h1);
    Then(c, h0, [Execute, Deliver], h1, [Execute, Deliver]);
  }

  lemma Turn(c: nat, h: Here)
    requires Calling(h.1.pc) && !Replied(h.1.pc.call)
    ensures Drive(c, h, [Execute, Deliver]) == Some(Act(c, Act(c, h, Execute), Deliver))
  {
    assert [Execute, Deliver][1..] == [Deliver];
    var h1 := Act(c, h, Execute);
    assert Drive(c, h1, [Deliver]) == Drive(c, Act(c, h1, Deliver), []);
  }

  lemma LastTurn(c: nat, h: Here)
    requires Calling(h.1.pc) && Replied(h.1.pc.call)
    ensures Drive(c, h, [Deliver]) == Some(Act(c, h, Deliver))
  {
    assert Drive(c, Act(c, h, Deliver), []) == Some(Act(c, h, Deliver));
  }

  // A call that is not ahead of the list.
  predicate InStep(store: Store<List>, c: nat, cl: Client) {
    && Listed(store)
    && match cl.pc
       case Getting(call) =>
         call.GetCall? && call.key == KEY &&
         (call.got.Some? ==> call.got.value.Got? && NotAhead(store, call.got.value.value, call.got.value.version))
       case Putting(call) =>
         && call.PutCall? && call.args.key == KEY && call.args.value != [] && call.args.value[|call.args.value| - 1] == Ent(c, cl.i)
         && NotAhead(store, call.args.value[..|call.args.value| - 1], call.args.version)
         && (call.reply.Some? ==> call.reply.value == OK || call.reply.value == ErrVersion)
         && (call.reply == Some(OK) ==> Ent(c, cl.i) in store[KEY].value)
       case _ => false
  }

  predicate NotAhead(store: Store<List>, es: List, ver: nat)
    requires Listed(store)
  {
    ver <= store[KEY].version && (ver == store[KEY].version ==> es == store[KEY].value)
  }

  lemma FromPut(c: nat, h: Here) returns (moves: seq<Move>, h': Here)
    requires InStep(h.0, c, h.1) && h.1.pc.Putting?
    ensures Drive(c, h, moves) == Some(h') && Appended(h.0, h.1, c, h')
  {
    var a := h.1.pc.call.args;
    if Replied(h.1.pc.call) {
      LastTurn(c, h);
      moves, h' := [Deliver], Act(c, h, Deliver);
    } else {
      Turn(c, h);
      moves, h' := [Execute, Deliver], Act(c, Act(c, h, Execute), Deliver);
      assert a.value == a.value[..|a.value| - 1] + [Ent(c, h.1.i)];
    }
    if h'.1.pc.Getting? {
      var h2 := Again(c, h'.0, h'.1);
      Then(c, h, moves, h', TURNS);
      moves, h' := moves + TURNS, h2;
    }
  }

  lemma FromGet(c: nat, h: Here) returns (moves: seq<Move>, h': Here)
    requires InStep(h.0, c, h.1) && h.1.pc.Getting?
    ensures Drive(c, h, moves) == Some(h') && Appended(h.0, h.1, c, h')
  {
    if Replied(h.1.pc.call) {
      LastTurn(c, h);
      var got := h.1.pc.call.got.value;
      var h1: Here := (h.0, h.1.(pc := Putting(StartPut(KEY, got.value + [Ent(c, h.1.i)], got.version))));
      assert (got.value + [Ent(c, h.1.i)])[..|got.value|] == got.value;
      var b, h2 := FromPut(c, h1);
      Then(c, h, [Deliver], h1, b);
      moves, h' := [Deliver] + b, h2;
    } else {
      h' := Again(c, h.0, h.1);
      moves := TURNS;
    }
  }

  // ----- in the system

  lemma LastOf(value: List, es: List, e: Ent)
    requires value == es + [e]
    ensures value != [] && value[|value| - 1] == e && value[..|value| - 1] == es
  {
  }

  lemma PuttingInStep(s: State, c: nat, cl: Client, es: List)
    requires KEY in s.store && Versioned(s.store) && cl.pc.Putting? && cl.pc.call.PutCall? && cl.pc.call.args.key == KEY
    requires cl.pc.call.args.value == es + [Ent(c, cl.i)] && Behind(s, es, cl.pc.call.args.version)
    requires cl.pc.call.reply.Some? ==> cl.pc.call.reply.value == OK || cl.pc.call.reply.value == ErrVersion
    requires cl.pc.call.reply == Some(OK) ==> Ent(c, cl.i) in Value(s)
    ensures InStep(s.store, c, cl)
  {
    LastOf(cl.pc.call.args.value, es, Ent(c, cl.i));
  }

  lemma GettingInStep(s: State, c: nat, cl: Client)
    requires KEY in s.store && Versioned(s.store) && CallOk(s, c, cl) && cl.pc.Getting?
    ensures InStep(s.store, c, cl)
  {
  }

  lemma ReachedInStep(s: State, c: nat, cl: Client)
    requires KEY in s.store && Versioned(s.store) && CallOk(s, c, cl) && Calling(cl.pc)
    ensures InStep(s.store, c, cl)
  {
    if cl.pc.Putting? {
      var es :| cl.pc.call.args.value == es + [Ent(c, cl.i)] && Behind(s, es, cl.pc.call.args.version);
      PuttingInStep(s, c, cl, es);
    } else {
      GettingInStep(s, c, cl);
    }
  }

  // From every reachable state, a client in the middle of an append finishes it
  // by steps of its calls alone: it gets OK or ErrMaybe for its number.
  lemma CanFinish(nclnt: nat, steps: seq<Step>, c: nat) returns (moves: seq<Move>)
    requires Run(Init(nclnt), steps).Some? && c < nclnt
    requires var s := Run(Init(nclnt), steps).value; |s.clients| == nclnt ==> Calling(s.clients[c].pc)
    ensures Run(Init(nclnt), steps + Steps(c, moves)).Some?
    ensures var s, s' := Run(Init(nclnt), steps).value, Run(Init(nclnt), steps + Steps(c, moves)).value;
            |s.clients| == nclnt && Others(s, s', c) && Appended(s.store, s.clients[c], c, (s'.store, s'.clients[c]))
  {
    Invariant(nclnt, steps);
    var s := Run(Init(nclnt), steps).value;
    assert ClientOk(s, c, s.clients[c]);
    ReachedInStep(s, c, s.clients[c]);
    var h: Here := (s.store, s.clients[c]);
    var h';
    if s.clients[c].pc.Getting? {
      moves, h' := FromGet(c, h);
    } else {
      moves, h' := FromPut(c, h);
    }
    var s' := Drives(Init(nclnt), steps, s, c, moves);
  }

  lemma AppendsInside(s: State, steps: seq<Step>, c: nat)
    requires Run(s, steps).Some?
    requires var t := Run(s, steps).value;
             c < |t.clients| && t.clients[c].pc == Getting(StartGet(KEY)) && Listed(t.store)
    ensures Run(s, steps + Steps(c, TURNS)).Some?
    ensures var t, t' := Run(s, steps).value, Run(s, steps + Steps(c, TURNS)).value;
            && Others(t, t', c) && Value(t') == Value(t) + [Ent(c, t.clients[c].i)] && Cur(t') == Cur(t) + 1
            && t'.clients[c] == Client(t.clients[c].i + 1, t.clients[c].nok + 1, t.clients[c].nmay, Ready)
  {
    var t := Run(s, steps).value;
    var h := Again(c, t.store, t.clients[c]);
    var t' := Drives(s, steps, t, c, TURNS);
  }

  // And one that has not begun adds its entry to the end of the list.
  lemma CanAppend(nclnt: nat, steps: seq<Step>, c: nat)
    requires Run(Init(nclnt), steps).Some? && c < nclnt
    requires var s := Run(Init(nclnt), steps).value; |s.clients| == nclnt ==> s.clients[c].pc == Ready
    ensures var steps' := steps + [Begin(c)] + Steps(c, TURNS);
            && Run(Init(nclnt), steps').Some?
            && var s, s' := Run(Init(nclnt), steps).value, Run(Init(nclnt), steps').value;
            && |s.clients| == nclnt && Others(s, s', c)
            && Value(s') == Value(s) + [Ent(c, s.clients[c].i)] && Cur(s') == Cur(s) + 1
            && s'.clients[c] == Client(s.clients[c].i + 1, s.clients[c].nok + 1, s.clients[c].nmay, Ready)
  {
    Invariant(nclnt, steps);
    Extend(Init(nclnt), steps, Begin(c));
    AppendsInside(Init(nclnt), steps + [Begin(c)], c);
  }

  // ----- what was given up stays possible

  // A Put whose attempt was dropped may execute at any later time.
  lemma {:induction false} MayExecuteLate(s: State, steps: seq<Step>, c: nat, more: seq<Step>)
    requires Run(s, steps).Some? && Enabled(Run(s, steps).value, Net(c, Drop))
    requires Run(s, steps).value.clients[c].pc.Putting? && Run(s, steps).value.clients[c].pc.call.PutCall?
    requires Run(s, steps + [Net(c, Drop)] + more).Some?
    ensures Enabled(Run(s, steps + [Net(c, Drop)] + more).value, Late(Run(s, steps).value.clients[c].pc.call.args))
  {
    var all := steps + [Net(c, Drop)] + more;
    if more == [] {
      assert all == steps + [Net(c, Drop)];
      Extend(s, steps, Net(c, Drop));
    } else {
      assert all[..|all| - 1] == steps + [Net(c, Drop)] + more[..|more| - 1];
      MayExecuteLate(s, steps, c, more[..|more| - 1]);
    }
  }
}
