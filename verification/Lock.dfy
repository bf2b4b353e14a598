/** The lock on one key of the versioned store, for any number of clients, over
    a network in which an attempt that was given up may still execute later. */
module Lock {
  import opened Options
  import opened Kv
  import opened Calls

  // Where a client is. Held is the stretch between Acquire returning and
  // Release being called. round counts the turns of Release's loop; holder
  // says whether Release was called from Held.
  datatype Pc =
    | Out
    | AcqGet(call: Call<string>)
    | AcqPut(call: Call<string>)
    | AcqCheck(call: Call<string>)
    | Held
    | RelGet(call: Call<string>, round: nat, holder: bool)
    | RelPut(call: Call<string>, round: nat, holder: bool)

  // late holds the given-up attempts: each may execute at any later time, any
  // number of times. ids gives each client its clientID.
  datatype State = State(name: string, ids: map<nat, string>, store: Store<string>,
                         late: set<PutArgs<string>>, clients: map<nat, Pc>)

  datatype Step =
    | Acquire(c: nat)
    | Release(c: nat)
    | Net(c: nat, move: Move)
    | Late(args: PutArgs<string>)
    | Other(args: PutArgs<string>)   // anyone's Put to another key

  ghost predicate Init(s: State) {
    && s.store == map[] && s.late == {}
    && s.ids.Keys == s.clients.Keys
    && (forall c :: c in s.clients ==> s.clients[c] == Out && s.ids[c] != "")
  }

  ghost predicate Distinct(s: State) {
    forall c, d :: c in s.ids && d in s.ids && s.ids[c] == s.ids[d] ==> c == d
  }

  predicate InCall(pc: Pc) { !pc.Out? && !pc.Held? }

  predicate Enabled(s: State, step: Step) {
    s.ids.Keys == s.clients.Keys &&
    match step
    case Acquire(c) => c in s.clients && s.clients[c] == Out
    case Release(c) => c in s.clients && (s.clients[c] == Held || s.clients[c] == Out)
    case Net(c, move) => c in s.clients && InCall(s.clients[c]) && CanMove(s.clients[c].call, move)
    case Late(args) => args in s.late
    case Other(args) => args.key != s.name
  }

  // What the client does with the answer to the call it is in.
  function Resume(name: string, id: string, pc: Pc, out: Output<string>): Pc
    requires InCall(pc)
  {
    match pc
    case AcqGet(_) => (
      match out
      case GetOut(NoKey) => AcqPut(StartPut(name, id, 0))
      case GetOut(Got(locker, ver)) =>
        if locker == id then Held
        else if locker == "" then AcqPut(StartPut(name, id, ver))
        else AcqGet(StartGet(name))
      case _ => Out
    )
    case AcqPut(_) => (
      match out
      case PutOut(OK) => Held
      case PutOut(ErrMaybe) => AcqCheck(StartGet(name))
      case _ => AcqGet(StartGet(name))
    )
    case AcqCheck(_) =>
      if out.GetOut? && out.got.Got? && out.got.value == id then Held else AcqGet(StartGet(name))
    case RelGet(_, round, holder) => (
      match out
      case GetOut(Got(locker, ver)) =>
        if locker == id then RelPut(StartPut(name, "", ver), round, holder) else Out
      case _ => Out
    )
    case RelPut(_, round, holder) =>
      if out == PutOut(OK) then Out else RelGet(StartGet(name), round + 1, holder)
  }

  function WithCall(pc: Pc, call: Call<string>): Pc
    requires InCall(pc)
  {
    match pc
    case AcqGet(_) => AcqGet(call)
    case AcqPut(_) => AcqPut(call)
    case AcqCheck(_) => AcqCheck(call)
    case RelGet(_, r, h) => RelGet(call, r, h)
    case RelPut(_, r, h) => RelPut(call, r, h)
  }

  function Next(s: State, step: Step): State
    requires Enabled(s, step)
  {
    match step
    case Acquire(c) => s.(clients := s.clients[c := AcqGet(StartGet(s.name))])
    case Release(c) => s.(clients := s.clients[c := RelGet(StartGet(s.name), 1, s.clients[c] == Held)])
    case Net(c, move) =>
      var pc := s.clients[c];
      var (store, progress) := Advance(s.store, pc.call, move);
      var pc' := match progress
                 case Running(call) => WithCall(pc, call)
                 case Returned(out) => Resume(s.name, s.ids[c], pc, out);
      var late := if move == Drop && pc.call.PutCall? then s.late + {pc.call.args} else s.late;
      State(s.name, s.ids, store, late, s.clients[c := pc'])
    case Late(args) => s.(store := HandlePut(s.store, args).0)
    case Other(args) => s.(store := HandlePut(s.store, args).0)
  }

  function Run(s: State, steps: seq<Step>): Option<State> {
    if steps == [] then Some(s)
    else
      var before := Run(s, steps[..|steps| - 1]);
      var step := steps[|steps| - 1];
      if before.Some? && Enabled(before.value, step) then Some(Next(before.value, step)) else None
  }

  // ----- what every step keeps

  function Cur(s: State): nat { Version(s.store, s.name) }

  function Owner(s: State): string {
    if s.name in s.store then s.store[s.name].value else ""
  }

  // An acquiring Put in the network can only hit a free lock.
  ghost predicate AcquireOk(s: State, a: PutArgs<string>) {
    a.key == s.name && a.version <= Cur(s) && (a.version == Cur(s) ==> Owner(s) == "")
  }

  // A releasing Put in the network can only hit its owner inside Release.
  ghost predicate ReleaseOk(s: State, a: PutArgs<string>) {
    && a.key == s.name && a.version <= Cur(s)
    && (a.version == Cur(s) ==> exists d :: Releasing(s, d) && s.ids[d] == Owner(s))
  }

  ghost predicate Releasing(s: State, d: nat) {
    d in s.clients && d in s.ids && s.clients[d].RelPut?
  }

  ghost predicate LateOk(s: State, a: PutArgs<string>) {
    if a.value == "" then ReleaseOk(s, a) else AcquireOk(s, a)
  }

  // No given-up acquiring Put of c can still succeed.
  ghost predicate Quiet(s: State, c: string) {
    forall a :: a in s.late && a.value == c ==> a.version < Cur(s)
  }

  ghost predicate GetOk(s: State, id: string, call: Call<string>) {
    && call.GetCall? && call.key == s.name
    && (call.got.Some? && call.got.value.Got? ==>
          var g := call.got.value;
          && 1 <= g.version <= Cur(s)
          && (g.version == Cur(s) ==> g.value == Owner(s))
          && (g.value == id ==> g.version == Cur(s)))
  }

  ghost predicate ClientOk(s: State, id: string, pc: Pc) {
    match pc
    case Out => true
    case Held => Owner(s) == id
    case AcqGet(call) => GetOk(s, id, call)
    case AcqCheck(call) => GetOk(s, id, call)
    case AcqPut(call) =>
      && call.PutCall? && call.args.value == id && AcquireOk(s, call.args)
      && (call.reply == Some(OK) ==> Owner(s) == id)
    case RelGet(call, round, holder) =>
      && GetOk(s, id, call) && 1 <= round <= 2
      && (round == 1 && holder ==>
            Owner(s) == id && (call.got.Some? ==> call.got.value == Got(id, Cur(s))))
      && (round == 2 ==>
            Owner(s) != id && Quiet(s, id) && (call.got.Some? && call.got.value.Got? ==> call.got.value.value != id))
    case RelPut(call, round, _) =>
      && call.PutCall? && call.args.key == s.name && call.args.value == "" && round == 1
      && Quiet(s, id)
      && if Owner(s) == id then call.args.version == Cur(s) && call.reply.None? else call.args.version < Cur(s)
  }

  ghost predicate Inv(s: State) {
    && Versioned(s.store) && Distinct(s) && s.ids.Keys == s.clients.Keys
    && (forall c :: c in s.ids ==> s.ids[c] != "")
    && (forall a :: a in s.late ==> LateOk(s, a))
    && (forall c :: c in s.clients ==> ClientOk(s, s.ids[c], s.clients[c]))
  }

  // The effect of a Put on the lock: nothing, or the next version.
  lemma PutEffect(s: State, s': State, a: PutArgs<string>)
    requires Versioned(s.store) && s'.name == s.name && s'.store == HandlePut(s.store, a).0
    ensures if a.key == s.name && a.version == Cur(s) then Cur(s') == Cur(s) + 1 && Owner(s') == a.value
            else Cur(s') == Cur(s) && Owner(s') == Owner(s)
    ensures HandlePut(s.store, a).1 == OK <==> a.version == Version(s.store, a.key)
  {
    var s1 := HandlePut(s.store, a).0;
    assert HandleGet(s1, s.name) == HandleGet(s'.store, s.name);
    if a.key != s.name { assert HandleGet(s1, s.name) == HandleGet(s.store, s.name); }
  }

  // A client keeps what it relies on when a Put that cannot hurt it executes.
  lemma Undisturbed(s: State, s': State, a: PutArgs<string>, id: string, pc: Pc)
    requires Versioned(s.store) && s'.name == s.name && s'.store == HandlePut(s.store, a).0 && s'.late == s.late
    requires id != "" && ClientOk(s, id, pc)
    requires a.key == s.name && a.version == Cur(s) ==>
               && (Owner(s) == id ==> a.value == "" && pc.RelPut?)
               && (a.value == id ==> a in s.late)
    ensures ClientOk(s', id, pc)
  {
    PutEffect(s, s', a);
  }

  // Nobody is hurt by a Put that the network may hold.
  lemma Harmless(s: State, s': State, a: PutArgs<string>, c: nat)
    requires Inv(s) && c in s.clients
    requires s'.name == s.name && s'.store == HandlePut(s.store, a).0 && s'.late == s.late
    requires a.key == s.name ==> LateOk(s, a) && (a.value == s.ids[c] ==> a in s.late)
    ensures ClientOk(s', s.ids[c], s.clients[c])
  {
    assert ClientOk(s, s.ids[c], s.clients[c]);
    if a.key == s.name && a.version == Cur(s) && Owner(s) == s.ids[c] {
      var d :| Releasing(s, d) && s.ids[d] == Owner(s);
      assert d == c;
    }
    Undisturbed(s, s', a, s.ids[c], s.clients[c]);
  }

  lemma LateStays(s: State, s': State, a: PutArgs<string>, b: PutArgs<string>)
    requires Versioned(s.store) && LateOk(s, b)
    requires s'.name == s.name && s'.ids == s.ids && s'.store == HandlePut(s.store, a).0
    requires forall d :: Releasing(s, d) ==> Releasing(s', d)
    ensures LateOk(s', b)
  {
    PutEffect(s, s', a);
    if d :| Releasing(s, d) && s.ids[d] == Owner(s) { assert Releasing(s', d); }
  }

  lemma PreservesPut(s: State, step: Step)
    requires Inv(s) && Enabled(s, step) && (step.Late? || step.Other?)
    ensures Inv(Next(s, step))
  {
    var s' := Next(s, step);
    forall b | b in s'.late ensures LateOk(s', b) { LateStays(s, s', step.args, b); }
    forall c | c in s'.clients ensures ClientOk(s', s'.ids[c], s'.clients[c]) { Harmless(s, s', step.args, c); }
  }

  // The client that executes its own Put, which the network might as well hold.
  lemma Executes(s: State, c: nat)
    requires Inv(s) && Enabled(s, Net(c, Execute)) && s.clients[c].call.PutCall?
    ensures var s' := Next(s, Net(c, Execute));
            var a := s.clients[c].call.args;
            && a.key == s.name && LateOk(s, a) && (a.value == "" || a.value == s.ids[c])
            && ClientOk(s', s.ids[c], s'.clients[c])
  {
    var s' := Next(s, Net(c, Execute));
    assert ClientOk(s, s.ids[c], s.clients[c]);
    PutEffect(s, s', s.clients[c].call.args);
    if s.clients[c].RelPut? && Owner(s) == s.ids[c] { assert Releasing(s, c); }
    forall b | b in s.late && b.value == s.ids[c] ensures b.version <= Cur(s) { assert LateOk(s, b); }
  }

  lemma PreservesExecute(s: State, c: nat)
    requires Inv(s) && Enabled(s, Net(c, Execute)) && s.clients[c].call.PutCall?
    ensures Inv(Next(s, Net(c, Execute)))
  {
    var s' := Next(s, Net(c, Execute));
    var a := s.clients[c].call.args;
    Executes(s, c);
    forall d | d in s.clients && d != c ensures ClientOk(s', s.ids[d], s'.clients[d]) { Harmless(s, s', a, d); }
    forall b | b in s'.late ensures LateOk(s', b) {
      forall d | Releasing(s, d) ensures Releasing(s', d) {}
      LateStays(s, s', a, b);
    }
  }

  // Steps that leave the store alone: the client that moves ...
  ghost predicate Still(s: State, step: Step) {
    && Enabled(s, step) && !step.Late? && !step.Other?
    && (step.Net? ==> step.move != Execute || s.clients[step.c].call.GetCall?)
  }

  lemma AnsweredAcquire(s: State, c: nat)
    requires Inv(s) && Enabled(s, Net(c, Deliver)) && !s.clients[c].RelGet? && !s.clients[c].RelPut?
    ensures ClientOk(s, s.ids[c], Next(s, Net(c, Deliver)).clients[c])
  {
    assert ClientOk(s, s.ids[c], s.clients[c]);
  }

  lemma AnsweredRelease(s: State, c: nat)
    requires Inv(s) && Enabled(s, Net(c, Deliver)) && (s.clients[c].RelGet? || s.clients[c].RelPut?)
    ensures ClientOk(s, s.ids[c], Next(s, Net(c, Deliver)).clients[c])
  {
    var id := s.ids[c];
    assert ClientOk(s, id, s.clients[c]);
    if s.clients[c].RelGet? && Owner(s) == id {
      forall a | a in s.late && a.value == id ensures a.version < Cur(s) { assert LateOk(s, a); }
    }
  }

  lemma Unanswered(s: State, c: nat, move: Move)
    requires Inv(s) && Still(s, Net(c, move)) && move != Deliver
    ensures ClientOk(s, s.ids[c], Next(s, Net(c, move)).clients[c])
  {
    assert ClientOk(s, s.ids[c], s.clients[c]);
  }

  // A client is not concerned by Puts joining the network unless they name it.
  lemma JoinNetwork(s: State, s': State, id: string, pc: Pc)
    requires s'.name == s.name && s'.store == s.store && ClientOk(s, id, pc)
    requires forall a :: a in s'.late && a.value == id && (pc.RelGet? || pc.RelPut?) ==> a in s.late
    ensures ClientOk(s', id, pc)
  {
  }

  lemma StillMover(s: State, step: Step)
    requires Inv(s) && Still(s, step)
    ensures var s' := Next(s, step); ClientOk(s', s.ids[step.c], s'.clients[step.c])
  {
    var s' := Next(s, step);
    assert ClientOk(s, s.ids[step.c], s.clients[step.c]);
    if step.Net? {
      if step.move != Deliver {
        Unanswered(s, step.c, step.move);
      } else if s.clients[step.c].RelGet? || s.clients[step.c].RelPut? {
        AnsweredRelease(s, step.c);
      } else {
        AnsweredAcquire(s, step.c);
      }
      JoinNetwork(s, s', s.ids[step.c], s'.clients[step.c]);
    }
  }

  // ... the others ...
  lemma StillOthers(s: State, step: Step, d: nat)
    requires Inv(s) && Still(s, step) && d in s.clients && d != step.c
    ensures var s' := Next(s, step); ClientOk(s', s.ids[d], s'.clients[d])
  {
    assert ClientOk(s, s.ids[step.c], s.clients[step.c]);
    JoinNetwork(s, Next(s, step), s.ids[d], s.clients[d]);
  }

  // ... and the Puts in the network.
  lemma StillLate(s: State, step: Step, a: PutArgs<string>)
    requires Inv(s) && Still(s, step) && a in Next(s, step).late
    ensures LateOk(Next(s, step), a)
  {
    var s' := Next(s, step);
    assert ClientOk(s, s.ids[step.c], s.clients[step.c]);
    assert Owner(s') == Owner(s) && Cur(s') == Cur(s);
    if a !in s.late {
      if s.clients[step.c].RelPut? { assert Releasing(s', step.c); }
    } else if a.value == "" && a.version == Cur(s) {
      assert LateOk(s, a);
      var d :| Releasing(s, d) && s.ids[d] == Owner(s);
      assert ClientOk(s, s.ids[d], s.clients[d]);
      assert Releasing(s', d);
    }
  }

  lemma Preserves(s: State, step: Step)
    requires Inv(s) && Enabled(s, step)
    ensures Inv(Next(s, step))
  {
    if step.Late? || step.Other? {
      PreservesPut(s, step);
    } else if step.Net? && step.move == Execute && s.clients[step.c].call.PutCall? {
      PreservesExecute(s, step.c);
    } else {
      var s' := Next(s, step);
      StillMover(s, step);
      forall d | d in s.clients && d != step.c ensures ClientOk(s', s.ids[d], s'.clients[d]) {
        StillOthers(s, step, d);
      }
      forall a | a in s'.late ensures LateOk(s', a) { StillLate(s, step, a); }
    }
  }

  lemma {:induction false} Invariant(s: State, steps: seq<Step>)
    requires Init(s) && Distinct(s) && Run(s, steps).Some?
    ensures Inv(Run(s, steps).value)
  {
    if steps != [] {
      Invariant(s, steps[..|steps| - 1]);
      Preserves(Run(s, steps[..|steps| - 1]).value, steps[|steps| - 1]);
    }
  }

  // ----- the theorems

  ghost predicate Excludes(s: State) {
    forall c, d :: c in s.clients && d in s.clients && s.clients[c] == Held && s.clients[d] == Held ==> c == d
  }

  lemma MutualExclusion(s: State, steps: seq<Step>)
    requires Init(s) && Distinct(s) && Run(s, steps).Some?
    ensures var t := Run(s, steps).value;
            && Excludes(t)
            && forall c :: c in t.clients && c in t.ids && t.clients[c] == Held ==>
                 t.name in t.store && t.store[t.name].value == t.ids[c]
  {
    Invariant(s, steps);
    var t := Run(s, steps).value;
    forall c | c in t.clients && t.clients[c] == Held ensures Owner(t) == t.ids[c] {
      assert ClientOk(t, t.ids[c], Held);
    }
  }

  // Release's loop turns at most twice, and a holder's Release ends with the
  // key no longer naming the client.
  lemma ReleaseBound(s: State, steps: seq<Step>, c: nat, move: Move)
    requires Init(s) && Distinct(s) && Run(s, steps).Some?
    requires var t := Run(s, steps).value;
             Enabled(t, Net(c, move)) && (t.clients[c].RelGet? || t.clients[c].RelPut?)
    ensures var t := Run(s, steps).value;
            var t' := Next(t, Net(c, move));
            && t.clients[c].round <= 2
            && (t.clients[c].RelPut? ==> t.clients[c].round == 1)
            && (t.clients[c].holder && t'.clients[c] == Out ==> Owner(t') != t.ids[c])
  {
    Invariant(s, steps);
    var t := Run(s, steps).value;
    assert ClientOk(t, t.ids[c], t.clients[c]);
  }

  // MakeLock draws the clientID from the clock and a random number; two
  // clients that draw the same one can both come to hold the lock.
  lemma SharedId(s: State, c: nat, d: nat) returns (steps: seq<Step>)
    requires Init(s) && c in s.clients && d in s.clients && c != d && s.ids[c] == s.ids[d]
    ensures Run(s, steps).Some? && !Excludes(Run(s, steps).value)
  {
    steps := [];
    var t := Look(s, steps, s, c, NoKey);
    steps := steps + [Acquire(c), Net(c, Execute), Net(c, Deliver)];
    assert t.clients[c] == AcqPut(StartPut(s.name, s.ids[c], 0));
    Extend(s, steps, Net(c, Execute));
    t := Next(t, Net(c, Execute));
    steps := steps + [Net(c, Execute)];
    assert t.store == map[s.name := Entry(s.ids[c], 1)];
    Extend(s, steps, Net(c, Deliver));
    t := Next(t, Net(c, Deliver));
    steps := steps + [Net(c, Deliver)];
    assert t.clients[c] == Held && t.clients[d] == Out;
    t := Look(s, steps, t, d, Got(s.ids[c], 1));
    steps := steps + [Acquire(d), Net(d, Execute), Net(d, Deliver)];
    assert t.clients[c] == Held && t.clients[d] == Held;
  }

  // The first Get of an Acquire, undisturbed.
  lemma Look(s: State, steps: seq<Step>, t: State, c: nat, got: Got<string>) returns (t': State)
    requires Run(s, steps) == Some(t) && Enabled(t, Acquire(c)) && HandleGet(t.store, t.name) == got
    ensures t' == t.(clients := t.clients[c := Resume(t.name, t.ids[c], AcqGet(StartGet(t.name)), GetOut(got))])
    ensures Run(s, steps + [Acquire(c), Net(c, Execute), Net(c, Deliver)]) == Some(t')
  {
    var t1 := Next(t, Acquire(c));
    var t2 := Next(t1, Net(c, Execute));
    Extend(s, steps, Acquire(c));
    Extend(s, steps + [Acquire(c)], Net(c, Execute));
    Extend(s, steps + [Acquire(c)] + [Net(c, Execute)], Net(c, Deliver));
    t' := Next(t2, Net(c, Deliver));
    assert steps + [Acquire(c), Net(c, Execute), Net(c, Deliver)] ==
           steps + [Acquire(c)] + [Net(c, Execute)] + [Net(c, Deliver)];
    assert t'.clients == t.clients[c := Resume(t.name, t.ids[c], AcqGet(StartGet(t.name)), GetOut(got))];
  }

  lemma Extend(s: State, steps: seq<Step>, step: Step)
    requires Run(s, steps).Some? && Enabled(Run(s, steps).value, step)
    ensures Run(s, steps + [step]) == Some(Next(Run(s, steps).value, step))
  {
    assert (steps + [step])[..|steps|] == steps;
  }

  // The lock excludes in every run exactly when the clientIDs are distinct.
  lemma ExclusionIffDistinct(s: State)
    requires Init(s)
    ensures Distinct(s) <==> forall steps :: Run(s, steps).Some? ==> Excludes(Run(s, steps).value)
  {
    if Distinct(s) {
      forall steps | Run(s, steps).Some? ensures Excludes(Run(s, steps).value) { MutualExclusion(s, steps); }
    } else {
      var c, d :| c in s.ids && d in s.ids && s.ids[c] == s.ids[d] && c != d;
      var steps := SharedId(s, c, d);
    }
  }
}
