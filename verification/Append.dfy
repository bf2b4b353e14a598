/** Clients that append to a shared list by reading it and putting it back one
    entry longer at the version they read, and the check made of the result. */
module Append {
  import opened Options
  import opened Kv
  import opened Calls

  datatype Ent = Ent(id: nat, n: nat)

  type List = seq<Ent>

  datatype Res = Res(nok: nat, nmay: nat)

  // Ready is the top of a client's loop, where it may be told to stop.
  datatype Pc = Ready | Getting(call: Call<List>) | Putting(call: Call<List>) | Done | Fatal

  // i is the number the client is trying to append.
  datatype Client = Client(i: nat, nok: nat, nmay: nat, pc: Pc)

  datatype State = State(store: Store<List>, late: set<PutArgs<List>>, clients: seq<Client>)

  datatype Step = Begin(c: nat) | Stop(c: nat) | Net(c: nat, move: Move) | Late(args: PutArgs<List>)

  const KEY := "k"

  function Init(nclnt: nat): State {
    State(map[KEY := Entry([], 1)], {}, seq(nclnt, _ => Client(0, 0, 0, Ready)))
  }

  predicate Calling(pc: Pc) { pc.Getting? || pc.Putting? }

  predicate Enabled(s: State, step: Step) {
    match step
    case Begin(c) => c < |s.clients| && s.clients[c].pc == Ready
    case Stop(c) => c < |s.clients| && s.clients[c].pc == Ready
    case Net(c, move) => c < |s.clients| && Calling(s.clients[c].pc) && CanMove(s.clients[c].pc.call, move)
    case Late(args) => args in s.late
  }

  function Resume(c: nat, cl: Client, out: Output<List>): Client {
    match out
    case GetOut(NoKey) => cl.(pc := Fatal)
    case GetOut(Got(es, ver)) => cl.(pc := Putting(StartPut(KEY, es + [Ent(c, cl.i)], ver)))
    case PutOut(OK) => Client(cl.i + 1, cl.nok + 1, cl.nmay, Ready)
    case PutOut(ErrMaybe) => Client(cl.i + 1, cl.nok, cl.nmay + 1, Ready)
    case PutOut(_) => cl.(pc := Getting(StartGet(KEY)))
  }

  function Next(s: State, step: Step): State
    requires Enabled(s, step)
  {
    match step
    case Begin(c) => s.(clients := s.clients[c := s.clients[c].(pc := Getting(StartGet(KEY)))])
    case Stop(c) => s.(clients := s.clients[c := s.clients[c].(pc := Done)])
    case Net(c, move) =>
      var cl := s.clients[c];
      var (store, progress) := Advance(s.store, cl.pc.call, move);
      var cl' := match progress
                 case Running(call) => cl.(pc := if cl.pc.Getting? then Getting(call) else Putting(call))
                 case Returned(out) => Resume(c, cl, out);
      var late := if move == Drop && cl.pc.Putting? && cl.pc.call.PutCall? then s.late + {cl.pc.call.args} else s.late;
      State(store, late, s.clients[c := cl'])
    case Late(args) => s.(store := HandlePut(s.store, args).0)
  }

  function Run(s: State, steps: seq<Step>): Option<State> {
    if steps == [] then Some(s)
    else
      var before := Run(s, steps[..|steps| - 1]);
      var step := steps[|steps| - 1];
      if before.Some? && Enabled(before.value, step) then Some(Next(before.value, step)) else None
  }

  // ----- lists of entries

  ghost predicate Increasing(es: List) {
    forall p, q :: 0 <= p < q < |es| && es[p].id == es[q].id ==> es[p].n < es[q].n
  }

  function Count(es: List, c: nat): nat {
    if es == [] then 0
    else Count(es[..|es| - 1], c) + if es[|es| - 1].id == c then 1 else 0
  }

  // One more than the last number of c, 0 if there is none.
  function Upcoming(es: List, c: nat): nat {
    if es == [] then 0
    else if es[|es| - 1].id == c then es[|es| - 1].n + 1
    else Upcoming(es[..|es| - 1], c)
  }

  lemma {:induction false} UpcomingBounds(es: List, c: nat)
    requires Increasing(es)
    ensures forall p :: 0 <= p < |es| && es[p].id == c ==> es[p].n < Upcoming(es, c)
    ensures Count(es, c) <= Upcoming(es, c)
    ensures Upcoming(es, c) > 0 ==> Ent(c, Upcoming(es, c) - 1) in es
  {
    if es != [] {
      var init := es[..|es| - 1];
      UpcomingBounds(init, c);
      forall p | 0 <= p < |es| && es[p].id == c ensures es[p].n < Upcoming(es, c) {
        if p < |es| - 1 { assert init[p] == es[p]; }
      }
      if es[|es| - 1].id == c {
        assert es[|es| - 1] == Ent(c, Upcoming(es, c) - 1);
        if Upcoming(init, c) > 0 {
          var p :| 0 <= p < |init| && init[p] == Ent(c, Upcoming(init, c) - 1);
          assert es[p].n < es[|es| - 1].n;
        }
      }
    }
  }

  // ----- what every step keeps

  function Value(s: State): List { if KEY in s.store then s.store[KEY].value else [] }

  function Cur(s: State): nat { Version(s.store, KEY) }

  ghost predicate Behind(s: State, es: List, ver: nat) {
    ver <= Cur(s) && (ver == Cur(s) ==> es == Value(s))
  }

  ghost predicate CallOk(s: State, c: nat, cl: Client) {
    match cl.pc
    case Getting(call) =>
      && call.GetCall? && call.key == KEY && Ent(c, cl.i) !in Value(s)
      && (call.got.Some? ==> call.got.value.Got? && Behind(s, call.got.value.value, call.got.value.version))
    case Putting(call) =>
      && call.PutCall? && call.args.key == KEY
      && (exists es :: call.args.value == es + [Ent(c, cl.i)] && Behind(s, es, call.args.version))
      && (call.reply == Some(OK) ==> Ent(c, cl.i) in Value(s))
      && (call.reply.Some? ==> call.args.version < Cur(s) && call.reply.value != ErrNoKey && call.reply.value != ErrMaybe)
      && (Ent(c, cl.i) in Value(s) ==> call.args.version < Cur(s) && (call.first ==> call.reply == Some(OK)))
    case Fatal => false
    case _ => Ent(c, cl.i) !in Value(s)
  }

  ghost predicate ClientOk(s: State, c: nat, cl: Client) {
    && cl.i == cl.nok + cl.nmay
    && Count(Value(s), c) >= cl.nok + (if Ent(c, cl.i) in Value(s) then 1 else 0)
    && (forall p :: 0 <= p < |Value(s)| && Value(s)[p].id == c ==> Value(s)[p].n <= cl.i)
    && CallOk(s, c, cl)
  }

  ghost predicate Resends(s: State, c: nat, a: PutArgs<List>) {
    c < |s.clients| && s.clients[c].pc.Putting? && s.clients[c].pc.call.PutCall?
    && s.clients[c].pc.call.args == a && !s.clients[c].pc.call.first
  }

  ghost predicate LateOk(s: State, a: PutArgs<List>) {
    a.key == KEY && a.version <= Cur(s) && (a.version == Cur(s) ==> exists c :: Resends(s, c, a))
  }

  ghost predicate StoreOk(s: State, n: nat) {
    && KEY in s.store && Versioned(s.store) && Cur(s) == |Value(s)| + 1 && Increasing(Value(s))
    && (forall p :: 0 <= p < |Value(s)| ==> Value(s)[p].id < n)
  }

  ghost predicate Inv(s: State) {
    && StoreOk(s, |s.clients|)
    && (forall c :: 0 <= c < |s.clients| ==> ClientOk(s, c, s.clients[c]))
    && (forall a :: a in s.late ==> LateOk(s, a))
  }

  // The effect of executing a Put that client c is (still) making.
  lemma Executed(s: State, store: Store<List>, c: nat)
    requires Inv(s) && c < |s.clients| && s.clients[c].pc.Putting? && s.clients[c].pc.call.PutCall?
    requires var a := s.clients[c].pc.call.args; store == HandlePut(s.store, a).0
    ensures var a := s.clients[c].pc.call.args; var s' := State(store, s.late, s.clients);
            && (HandlePut(s.store, a).1 == OK <==> a.version == Cur(s))
            && (a.version == Cur(s) ==> Value(s') == Value(s) + [Ent(c, s.clients[c].i)] && Cur(s') == Cur(s) + 1)
            && (a.version != Cur(s) ==> store == s.store)
            && StoreOk(s', |s.clients|)
  {
    assert ClientOk(s, c, s.clients[c]);
  }

  // Other clients after it.
  lemma Watched(s: State, s': State, c: nat, d: nat)
    requires Inv(s) && c < |s.clients| && d < |s.clients| && d != c
    requires StoreOk(s', |s.clients|) && Value(s') == Value(s) + [Ent(c, s.clients[c].i)] && Cur(s') == Cur(s) + 1
    ensures ClientOk(s', d, s.clients[d])
  {
    assert ClientOk(s, d, s.clients[d]);
    Snoc(Value(s), Ent(c, s.clients[c].i), d);
    assert forall n :: Ent(d, n) in Value(s') <==> Ent(d, n) in Value(s);
    if s.clients[d].pc.Putting? {
      var es :| s.clients[d].pc.call.args.value == es + [Ent(d, s.clients[d].i)] && Behind(s, es, s.clients[d].pc.call.args.version);
      assert Behind(s', es, s.clients[d].pc.call.args.version);
    }
  }

  // Client c itself after its own Put has executed, its call now being call.
  lemma Installed(s: State, s': State, c: nat, call: Call<List>)
    requires Inv(s) && c < |s.clients| && s.clients[c].pc.Putting? && s.clients[c].pc.call.PutCall?
    requires StoreOk(s', |s.clients|) && Value(s') == Value(s) + [Ent(c, s.clients[c].i)] && Cur(s') == Cur(s) + 1
    requires s.clients[c].pc.call.args.version == Cur(s)
    requires call.PutCall? && call.args == s.clients[c].pc.call.args
    requires call.reply == Some(OK) || (call.reply.None? && !call.first)
    ensures ClientOk(s', c, s.clients[c].(pc := Putting(call)))
  {
    var cl := s.clients[c];
    assert ClientOk(s, c, cl);
    Snoc(Value(s), Ent(c, cl.i), c);
    assert Ent(c, cl.i) in Value(s');
    var es :| call.args.value == es + [Ent(c, cl.i)] && Behind(s, es, call.args.version);
    assert Behind(s', es, call.args.version);
  }

  lemma LateAfter(s: State, s': State, b: PutArgs<List>)
    requires LateOk(s, b) && Cur(s') >= Cur(s)
    requires Cur(s') == Cur(s) ==> forall c :: Resends(s, c, b) ==> Resends(s', c, b)
    ensures LateOk(s', b)
  {
    if b.version == Cur(s') {
      var c :| Resends(s, c, b);
      assert Resends(s', c, b);
    }
  }

  lemma PreservesLate(s: State, a: PutArgs<List>)
    requires Inv(s) && Enabled(s, Late(a))
    ensures Inv(Next(s, Late(a)))
    ensures Value(s) <= Value(Next(s, Late(a)))
  {
    var s' := Next(s, Late(a));
    assert LateOk(s, a);
    if a.version == Cur(s) {
      var c: nat :| Resends(s, c, a);
      assert ClientOk(s, c, s.clients[c]);
      Executed(s, s'.store, c);
      assert s' == State(s'.store, s.late, s.clients);
      Installed(s, s', c, s.clients[c].pc.call);
      forall d | 0 <= d < |s'.clients| ensures ClientOk(s', d, s'.clients[d]) {
        if d != c { Watched(s, s', c, d); }
      }
      forall b | b in s'.late ensures LateOk(s', b) { LateAfter(s, s', b); }
    } else {
      assert s' == s;
    }
  }

  lemma ClientsAfterExecute(s: State, c: nat, d: nat)
    requires Inv(s) && Enabled(s, Net(c, Execute)) && s.clients[c].pc.Putting? && d < |s.clients|
    ensures var s' := Next(s, Net(c, Execute));
            StoreOk(s', |s.clients|) && Value(s) <= Value(s') && ClientOk(s', d, s'.clients[d])
  {
    var s' := Next(s, Net(c, Execute));
    assert ClientOk(s, c, s.clients[c]) && ClientOk(s, d, s.clients[d]);
    Executed(s, s'.store, c);
    assert Value(s') == Value(State(s'.store, s.late, s.clients));
    if s.clients[c].pc.call.args.version == Cur(s) {
      if d == c { Installed(s, s', c, s'.clients[c].pc.call); } else { Watched(s, s', c, d); }
    }
  }

  lemma PreservesExecute(s: State, c: nat)
    requires Inv(s) && Enabled(s, Net(c, Execute)) && s.clients[c].pc.Putting?
    ensures Inv(Next(s, Net(c, Execute)))
    ensures Value(s) <= Value(Next(s, Net(c, Execute)))
  {
    var s' := Next(s, Net(c, Execute));
    forall d | 0 <= d < |s'.clients| ensures ClientOk(s', d, s'.clients[d]) { ClientsAfterExecute(s, c, d); }
    ClientsAfterExecute(s, c, c);
    forall b | b in s'.late ensures LateOk(s', b) {
      assert LateOk(s, b);
      LateAfter(s, s', b);
    }
  }

  // Steps that leave the store alone.
  ghost predicate Still(s: State, step: Step) {
    Enabled(s, step) && !step.Late? && (step.Net? && step.move == Execute ==> s.clients[step.c].pc.Getting?)
  }

  lemma StillMover(s: State, step: Step)
    requires Inv(s) && Still(s, step)
    ensures var s' := Next(s, step); s'.store == s.store && ClientOk(s, step.c, s'.clients[step.c])
  {
    var cl := s.clients[step.c];
    assert ClientOk(s, step.c, cl);
    if step.Net? && step.move == Deliver && cl.pc.Getting? {
      var g := cl.pc.call.got.value;
      var cl' := Next(s, step).clients[step.c];
      assert cl'.pc.call.args.value == g.value + [Ent(step.c, cl.i)] && Behind(s, g.value, g.version);
    }
  }

  lemma StillLate(s: State, step: Step, b: PutArgs<List>)
    requires Inv(s) && Still(s, step) && b in Next(s, step).late
    ensures LateOk(Next(s, step), b)
  {
    var s' := Next(s, step);
    assert ClientOk(s, step.c, s.clients[step.c]);
    if b in s.late {
      assert LateOk(s, b);
      forall c | b.version == Cur(s) && Resends(s, c, b) ensures Resends(s', c, b) {}
    } else {
      assert Resends(s', step.c, b);
    }
  }

  lemma PreservesStill(s: State, step: Step)
    requires Inv(s) && Still(s, step)
    ensures Inv(Next(s, step)) && Value(Next(s, step)) == Value(s)
  {
    var s' := Next(s, step);
    StillMover(s, step);
    forall d | 0 <= d < |s'.clients| ensures ClientOk(s', d, s'.clients[d]) { assert ClientOk(s, d, s'.clients[d]); }
    forall b | b in s'.late ensures LateOk(s', b) { StillLate(s, step, b); }
  }

  // Every step keeps the invariant, and the list only grows.
  lemma Preserves(s: State, step: Step)
    requires Inv(s) && Enabled(s, step)
    ensures Inv(Next(s, step)) && Value(s) <= Value(Next(s, step))
  {
    match step {
      case Late(a) => PreservesLate(s, a);
      case Net(c, move) =>
        if move == Execute && s.clients[c].pc.Putting? { PreservesExecute(s, c); } else { PreservesStill(s, step); }
      case _ => PreservesStill(s, step);
    }
  }

  lemma {:induction false} Invariant(nclnt: nat, steps: seq<Step>)
    requires Run(Init(nclnt), steps).Some?
    ensures Inv(Run(Init(nclnt), steps).value) && |Run(Init(nclnt), steps).value.clients| == nclnt
  {
    if steps != [] {
      Invariant(nclnt, steps[..|steps| - 1]);
      Preserves(Run(Init(nclnt), steps[..|steps| - 1]).value, steps[|steps| - 1]);
    }
  }

  // ----- the check of the result

  ghost predicate Passes(es: List, rs: seq<Res>, ver: nat) {
    && Increasing(es)
    && (forall p :: 0 <= p < |es| ==> es[p].id < |rs|)
    && |es| + 1 == ver
    && (forall c :: 0 <= c < |rs| ==>
          && Upcoming(es, c) - Count(es, c) <= rs[c].nmay
          && Upcoming(es, c) <= rs[c].nok + rs[c].nmay)
  }

  function Results(s: State): seq<Res> {
    seq(|s.clients|, c requires 0 <= c < |s.clients| => Res(s.clients[c].nok, s.clients[c].nmay))
  }

  // Whatever is lost, resent or late: once all clients have stopped, the list
  // passes the check; and no client ever fails to read the list.
  lemma AppendsPass(nclnt: nat, steps: seq<Step>)
    requires Run(Init(nclnt), steps).Some?
    ensures var s := Run(Init(nclnt), steps).value;
            && (forall c :: 0 <= c < |s.clients| ==> s.clients[c].pc != Fatal)
            && ((forall c :: 0 <= c < |s.clients| ==> s.clients[c].pc == Done) ==>
                  Passes(Value(s), Results(s), Cur(s)))
  {
    Invariant(nclnt, steps);
    var s := Run(Init(nclnt), steps).value;
    forall c | 0 <= c < |s.clients|
      ensures s.clients[c].pc != Fatal
      ensures s.clients[c].pc == Done ==>
                && Upcoming(Value(s), c) - Count(Value(s), c) <= Results(s)[c].nmay
                && Upcoming(Value(s), c) <= Results(s)[c].nok + Results(s)[c].nmay
    {
      StoppedWithin(s, c);
    }
  }

  lemma StoppedWithin(s: State, c: nat)
    requires Inv(s) && c < |s.clients|
    ensures s.clients[c].pc != Fatal
    ensures s.clients[c].pc == Done ==>
              && Upcoming(Value(s), c) - Count(Value(s), c) <= s.clients[c].nmay
              && Upcoming(Value(s), c) <= s.clients[c].nok + s.clients[c].nmay
  {
    assert ClientOk(s, c, s.clients[c]);
    UpcomingBounds(Value(s), c);
  }

  // The list at any moment is a prefix of the list at any later moment.
  lemma {:induction false} OnlyGrows(nclnt: nat, steps: seq<Step>, n: nat)
    requires Run(Init(nclnt), steps).Some? && n <= |steps|
    ensures Run(Init(nclnt), steps[..n]).Some?
    ensures Value(Run(Init(nclnt), steps[..n]).value) <= Value(Run(Init(nclnt), steps).value)
  {
    if n == |steps| {
      assert steps[..n] == steps;
    } else {
      var shorter := steps[..|steps| - 1];
      OnlyGrows(nclnt, shorter, n);
      assert shorter[..n] == steps[..n];
      Invariant(nclnt, shorter);
      Preserves(Run(Init(nclnt), shorter).value, steps[|steps| - 1]);
    }
  }

  function At(m: map<nat, int>, k: nat): int { if k in m then m[k] else 0 }

  ghost predicate Named(es: List, c: nat) { exists p :: 0 <= p < |es| && es[p].id == c }

  ghost predicate Tallied(es: List, n: nat, upcoming: map<nat, int>, skipped: map<nat, int>) {
    && (forall c: nat :: c in upcoming <==> c < n || Named(es, c))
    && (forall c: nat :: At(upcoming, c) == Upcoming(es, c))
    && (forall c: nat :: At(skipped, c) == Upcoming(es, c) - Count(es, c))
  }

  // What one more entry that is not out of order does to the tables.
  lemma TallyNext(es: List, e: Ent, n: nat, upcoming: map<nat, int>, skipped: map<nat, int>, skipped': map<nat, int>)
    requires Tallied(es, n, upcoming, skipped) && Increasing(es) && At(upcoming, e.id) <= e.n
    requires forall c: nat ::
               At(skipped', c) == At(skipped, c) + if c == e.id then e.n - At(upcoming, e.id) else 0
    ensures Increasing(es + [e]) && Tallied(es + [e], n, upcoming[e.id := e.n + 1], skipped')
  {
    forall c: nat
      ensures Upcoming(es + [e], c) == (if e.id == c then e.n + 1 else Upcoming(es, c))
      ensures Count(es + [e], c) == Count(es, c) + (if e.id == c then 1 else 0)
      ensures Named(es + [e], c) <==> Named(es, c) || e.id == c
    {
      Snoc(es, e, c);
    }
    UpcomingBounds(es, e.id);
  }

  lemma Snoc(es: List, e: Ent, c: nat)
    ensures Upcoming(es + [e], c) == if e.id == c then e.n + 1 else Upcoming(es, c)
    ensures Count(es + [e], c) == Count(es, c) + if e.id == c then 1 else 0
    ensures Named(es + [e], c) <==> Named(es, c) || e.id == c
  {
    var longer := es + [e];
    assert longer[..|es|] == es && longer[|es|] == e;
    if p :| 0 <= p < |es| && es[p].id == c { assert longer[p].id == c; }
    if p :| 0 <= p < |longer| && longer[p].id == c { assert p == |es| || es[p].id == c; }
  }

  lemma OutOfOrder(es: List, j: nat)
    requires j < |es| && Increasing(es[..j]) && Upcoming(es[..j], es[j].id) > es[j].n
    ensures !Increasing(es)
  {
    UpcomingBounds(es[..j], es[j].id);
    var p :| 0 <= p < j && es[..j][p] == Ent(es[j].id, Upcoming(es[..j], es[j].id) - 1);
    assert es[p].id == es[j].id && es[p].n >= es[j].n;
  }

  // The pass over the list: next number due and numbers skipped, per client.
  method TallyEntries(es: List, n: nat) returns (ok: bool, upcoming: map<nat, int>, skipped: map<nat, int>)
    ensures ok <==> Increasing(es)
    ensures ok ==> Tallied(es, n, upcoming, skipped)
  {
    upcoming, skipped := map[], map[];
    for i := 0 to n
      invariant forall c: nat :: (c in upcoming <==> c < i) && (c in skipped <==> c < i)
      invariant forall c :: c in upcoming ==> upcoming[c] == 0 && skipped[c] == 0
    {
      upcoming, skipped := upcoming[i := 0], skipped[i := 0];
    }
    for j := 0 to |es|
      invariant Increasing(es[..j]) && Tallied(es[..j], n, upcoming, skipped)
    {
      var e := es[j];
      assert es[..j + 1] == es[..j] + [e];
      if At(upcoming, e.id) > e.n {
        OutOfOrder(es, j);
        return false, upcoming, skipped;
      }
      ghost var before := skipped;
      if At(upcoming, e.id) != e.n {
        skipped := skipped[e.id := At(skipped, e.id) + e.n - At(upcoming, e.id)];
      }
      TallyNext(es[..j], e, n, upcoming, before, skipped);
      upcoming := upcoming[e.id := e.n + 1];
    }
    assert es[..|es|] == es;
    ok := true;
  }

  ghost predicate Within(upcoming: map<nat, int>, skipped: map<nat, int>, rs: seq<Res>, c: nat) {
    c < |rs| && At(skipped, c) <= rs[c].nmay && At(upcoming, c) <= rs[c].nok + rs[c].nmay
  }

  method AllWithin(upcoming: map<nat, int>, skipped: map<nat, int>, rs: seq<Res>) returns (ok: bool)
    ensures ok <==> forall c :: c in upcoming ==> Within(upcoming, skipped, rs, c)
  {
    var todo := upcoming.Keys;
    while todo != {}
      invariant todo <= upcoming.Keys
      invariant forall c :: c in upcoming && c !in todo ==> Within(upcoming, skipped, rs, c)
    {
      var c :| c in todo;
      if c >= |rs| || At(skipped, c) > rs[c].nmay || upcoming[c] > rs[c].nok + rs[c].nmay {
        assert !Within(upcoming, skipped, rs, c);
        return false;
      }
      todo := todo - {c};
    }
    return true;
  }

  /** The check itself. An identifier without a result makes the original index
      out of range; that counts as failing. */
  method CheckAppends(es: List, rs: seq<Res>, ver: nat) returns (ok: bool)
    ensures ok <==> Passes(es, rs, ver)
  {
    var increasing, upcoming, skipped := TallyEntries(es, |rs|);
    if !increasing {
      return false;
    }
    if |es| + 1 != ver {
      return false;
    }
    ok := AllWithin(upcoming, skipped, rs);
    WithinMeans(es, rs, upcoming, skipped);
  }

  lemma WithinMeans(es: List, rs: seq<Res>, upcoming: map<nat, int>, skipped: map<nat, int>)
    requires Increasing(es) && Tallied(es, |rs|, upcoming, skipped)
    ensures (forall c :: c in upcoming ==> Within(upcoming, skipped, rs, c)) <==> Passes(es, rs, |es| + 1)
  {
    if forall c :: c in upcoming ==> Within(upcoming, skipped, rs, c) {
      forall p | 0 <= p < |es| ensures es[p].id < |rs| { assert es[p].id in upcoming; }
      forall c: nat | c < |rs|
        ensures Upcoming(es, c) - Count(es, c) <= rs[c].nmay && Upcoming(es, c) <= rs[c].nok + rs[c].nmay
      {
        assert c in upcoming && Within(upcoming, skipped, rs, c);
      }
    }
  }
}
