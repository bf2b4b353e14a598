/** Acquire and Release as the loops they are, on top of the clerk's loops, and
    how they follow the lock's step system. */
module LockLoops {
  import opened Options
  import opened Kv
  import opened Calls
  import opened ClerkLoops
  import L = Lock

  function OneStep(name: string, id: string, s: Store<string>, pc: L.Pc, e: Event): (Store<string>, L.Pc) {
    match e
    case Other(a) => (HandlePut(s, a).0, pc)
    case Net(move) =>
      if L.InCall(pc) && CanMove(pc.call, move) then
        var (s', progress) := Advance(s, pc.call, move);
        (s', match progress
             case Running(call) => L.WithCall(pc, call)
             case Returned(out) => L.Resume(name, id, pc, out))
      else (s, pc)
  }

  // Where the events lead a client.
  function Track(name: string, id: string, s: Store<string>, pc: L.Pc, events: seq<Event>): (Store<string>, L.Pc) {
    if events == [] then (s, pc)
    else
      var (s', pc') := Track(name, id, s, pc, events[..|events| - 1]);
      OneStep(name, id, s', pc', events[|events| - 1])
  }

  // ----- a client in the step system sees exactly such events

  // The Put a step executes on behalf of someone other than c.
  function Foreign(t: L.State, step: L.Step, c: nat): Option<PutArgs<string>>
    requires L.Enabled(t, step)
  {
    match step
    case Late(args) => Some(args)
    case Other(args) => Some(args)
    case Net(d, Execute) => if d != c && t.clients[d].call.PutCall? then Some(t.clients[d].call.args) else None
    case _ => None
  }

  // What a step is, for the store and for c: an event or nothing.
  function Shown(t: L.State, step: L.Step, c: nat): seq<Event>
    requires L.Enabled(t, step)
  {
    if step.Net? && step.c == c then [Net(step.move)]
    else match Foreign(t, step, c)
         case Some(args) => [Other(args)]
         case None => []
  }

  lemma StepShows(t: L.State, step: L.Step, c: nat)
    requires L.Enabled(t, step) && c in t.clients && step != L.Acquire(c) && step != L.Release(c)
    ensures var t' := L.Next(t, step);
            && c in t'.clients && t'.name == t.name && t'.ids == t.ids
            && (t'.store, t'.clients[c]) == Track(t.name, t.ids[c], t.store, t.clients[c], Shown(t, step, c))
  {
  }

  // The events that c sees in a run.
  function Seen(t: L.State, steps: seq<L.Step>, c: nat): seq<Event>
    requires L.Run(t, steps).Some?
  {
    if steps == [] then []
    else
      var shorter := steps[..|steps| - 1];
      Seen(t, shorter, c) + Shown(L.Run(t, shorter).value, steps[|steps| - 1], c)
  }

  ghost predicate Keeps(steps: seq<L.Step>, c: nat) {
    forall m :: 0 <= m < |steps| ==> steps[m] != L.Acquire(c) && steps[m] != L.Release(c)
  }

  // In any stretch of a run in which c starts neither, the store and c are where
  // the events that c sees lead.
  lemma {:induction false} SystemShowsEvents(t: L.State, steps: seq<L.Step>, c: nat)
    requires c in t.clients && c in t.ids && L.Run(t, steps).Some? && Keeps(steps, c)
    ensures var t' := L.Run(t, steps).value;
            && c in t'.clients && t'.name == t.name && t'.ids == t.ids
            && (t'.store, t'.clients[c]) == Track(t.name, t.ids[c], t.store, t.clients[c], Seen(t, steps, c))
  {
    if steps != [] {
      var shorter, last := steps[..|steps| - 1], steps[|steps| - 1];
      SystemShowsEvents(t, shorter, c);
      var u := L.Run(t, shorter).value;
      StepShows(u, last, c);
      TrackConcat(t.name, t.ids[c], t.store, t.clients[c], Seen(t, shorter, c), Shown(u, last, c));
    }
  }

  lemma {:induction false} RunConcat(s: L.State, a: seq<L.Step>, b: seq<L.Step>)
    requires L.Run(s, a + b).Some?
    ensures L.Run(s, a).Some? && L.Run(L.Run(s, a).value, b) == L.Run(s, a + b)
  {
    if b == [] {
      assert a + b == a;
    } else {
      assert (a + b)[..|a + b| - 1] == a + b[..|b| - 1];
      RunConcat(s, a, b[..|b| - 1]);
    }
  }

  // The state that these steps lead to from s, and further ones from there.
  ghost predicate Follows(s: L.State, called: seq<L.Step>, t: L.State, after: seq<L.Step>, t': L.State) {
    L.Run(s, called) == Some(t) && L.Run(t, after) == Some(t')
  }

  // So the Acquire loop, given the events that c sees in a run of the system
  // after it calls Acquire, ends as c does there; and when that is in Held, c
  // holds the lock alone.
  lemma AcquireExcludes(s: L.State, called: seq<L.Step>, c: nat, after: seq<L.Step>) returns (t: L.State, t': L.State)
    requires L.Init(s) && L.Distinct(s) && L.Run(s, called + after).Some? && Keeps(after, c)
    requires called != [] && called[|called| - 1] == L.Acquire(c)
    ensures Follows(s, called, t, after, t') && L.Run(s, called + after) == Some(t')
    ensures c in t.ids && c in t'.clients
    ensures (t'.store, t'.clients[c]) ==
              Track(t.name, t.ids[c], t.store, L.AcqGet(StartGet(t.name)), Seen(t, after, c))
    ensures t'.clients[c] == L.Held ==> forall d :: d in t'.clients && t'.clients[d] == L.Held ==> d == c
  {
    RunConcat(s, called, after);
    t, t' := L.Run(s, called).value, L.Run(s, called + after).value;
    SystemShowsEvents(t, after, c);
    L.MutualExclusion(s, called + after);
  }

  // ----- a clerk call inside the lock

  lemma {:induction false} StillRunning(name: string, id: string, s: Store<string>, pc: L.Pc, events: seq<Event>)
    requires L.InCall(pc) && Follow(s, Running(pc.call), events).1.Running?
    ensures var (s', p) := Follow(s, Running(pc.call), events);
            Track(name, id, s, pc, events) == (s', L.WithCall(pc, p.call))
  {
    if events != [] {
      StillRunning(name, id, s, pc, events[..|events| - 1]);
    }
  }

  lemma NowReturned(name: string, id: string, s: Store<string>, pc: L.Pc, events: seq<Event>)
    requires L.InCall(pc) && events != []
    requires Follow(s, Running(pc.call), events[..|events| - 1]).1.Running?
    requires Follow(s, Running(pc.call), events).1.Returned?
    ensures var (s', p) := Follow(s, Running(pc.call), events);
            Track(name, id, s, pc, events) == (s', L.Resume(name, id, pc, p.out))
  {
    StillRunning(name, id, s, pc, events[..|events| - 1]);
  }

  lemma {:induction false} TrackConcat(name: string, id: string, s: Store<string>, pc: L.Pc, a: seq<Event>, b: seq<Event>)
    ensures Track(name, id, s, pc, a + b) ==
            Track(name, id, Track(name, id, s, pc, a).0, Track(name, id, s, pc, a).1, b)
  {
    if b == [] {
      assert a + b == a;
    } else {
      assert (a + b)[..|a + b| - 1] == a + b[..|b| - 1];
      TrackConcat(name, id, s, pc, a, b[..|b| - 1]);
    }
  }

  class Lock {
    const ck: Clerk
    const lockName: string
    const clientID: string

    constructor (ck: Clerk, lockName: string, clientID: string)
      ensures this.ck == ck && this.lockName == lockName && this.clientID == clientID
    {
      this.ck, this.lockName, this.clientID := ck, lockName, clientID;
    }

    // From pc0, events i to j have led to pc.
    ghost predicate Went(before: Store<string>, pc0: L.Pc, events: seq<Event>, i: nat, j: nat, pc: L.Pc)
      reads ck.server
    {
      && ck.server.Valid() && i <= j <= |events|
      && Track(lockName, clientID, before, pc0, events[i..j]) == (ck.server.Contents(), pc)
    }

    // One clerk call of the program has run.
    lemma Called(before: Store<string>, pc0: L.Pc, events: seq<Event>, i: nat, j: nat, k: nat,
                 mid: Store<string>, pc: L.Pc, p: Progress<string>)
      requires i <= j && L.InCall(pc) && ck.Ran(mid, pc.call, events, j, k, p)
      requires Track(lockName, clientID, before, pc0, events[i..j]) == (mid, pc)
      ensures Went(before, pc0, events, i, k,
                   if p.Running? then L.WithCall(pc, p.call) else L.Resume(lockName, clientID, pc, p.out))
    {
      assert events[i..k] == events[i..j] + events[j..k];
      TrackConcat(lockName, clientID, before, pc0, events[i..j], events[j..k]);
      if p.Running? {
        StillRunning(lockName, clientID, mid, pc, events[j..k]);
      } else {
        assert events[j..k][..k - j - 1] == events[j..k - 1];
        NowReturned(lockName, clientID, mid, pc, events[j..k]);
      }
    }

    // Ends in Held, or inside a call when the events run out.
    method Acquire(events: seq<Event>, i: nat) returns (pc: L.Pc, j: nat)
      requires ck.server.Valid() && i <= |events|
      modifies ck.server
      ensures Went(old(ck.server.Contents()), L.AcqGet(StartGet(lockName)), events, i, j, pc)
      ensures pc == L.Held || (L.InCall(pc) && j == |events|)
    {
      ghost var before, top := ck.server.Contents(), L.AcqGet(StartGet(lockName));
      j := i;
      while true
        invariant Went(before, top, events, i, j, top)
        decreases |events| - j
      {
        ghost var mid := ck.server.Contents();
        var p, k := ck.Get(lockName, events, j);
        Called(before, top, events, i, j, k, mid, top, p);
        j := k;
        if p.Running? {
          return L.AcqGet(p.call), j;
        }
        var take, ver := false, 0;
        match p.out.got {
          case NoKey => take := true;
          case Got(locker, v) =>
            if locker == clientID {
              return L.Held, j;
            }
            take, ver := locker == "", v;
        }
        if take {
          var stop;
          pc, stop, j := TryTake(before, top, ver, events, i, j);
          if stop {
            return;
          }
        }
      }
    }

    // Put the clientID at the version read; on ErrMaybe look whether it took.
    method TryTake(ghost before: Store<string>, ghost top: L.Pc, ver: nat, events: seq<Event>, ghost i: nat, j0: nat)
      returns (pc: L.Pc, stop: bool, j: nat)
      requires Went(before, top, events, i, j0, L.AcqPut(StartPut(lockName, clientID, ver)))
      modifies ck.server
      ensures j0 <= j && Went(before, top, events, i, j, pc)
      ensures if stop then pc == L.Held || (L.InCall(pc) && j == |events|) else pc == L.AcqGet(StartGet(lockName))
    {
      ghost var mid := ck.server.Contents();
      ghost var putting := L.AcqPut(StartPut(lockName, clientID, ver));
      var p, k := ck.Put(lockName, clientID, ver, events, j0);
      Called(before, top, events, i, j0, k, mid, putting, p);
      j := k;
      if p.Running? {
        return L.AcqPut(p.call), true, j;
      }
      match p.out.err {
        case OK => return L.Held, true, j;
        case ErrMaybe =>
          mid := ck.server.Contents();
          ghost var checking := L.AcqCheck(StartGet(lockName));
          p, k := ck.Get(lockName, events, j);
          Called(before, top, events, i, j, k, mid, checking, p);
          j := k;
          if p.Running? {
            return L.AcqCheck(p.call), true, j;
          }
          if p.out.got.Got? && p.out.got.value == clientID {
            return L.Held, true, j;
          }
        case _ =>
      }
      return L.AcqGet(StartGet(lockName)), false, j;
    }

    // Ends in Out, or inside a call when the events run out. round and holder
    // are the step system's bookkeeping.
    method Release(events: seq<Event>, i: nat, holder: bool) returns (pc: L.Pc, j: nat)
      requires ck.server.Valid() && i <= |events|
      modifies ck.server
      ensures Went(old(ck.server.Contents()), L.RelGet(StartGet(lockName), 1, holder), events, i, j, pc)
      ensures pc == L.Out || (L.InCall(pc) && j == |events|)
    {
      ghost var before, top := ck.server.Contents(), L.RelGet(StartGet(lockName), 1, holder);
      j := i;
      var round := 1;
      while true
        invariant Went(before, top, events, i, j, L.RelGet(StartGet(lockName), round, holder))
        decreases |events| - j
      {
        ghost var mid := ck.server.Contents();
        var p, k := ck.Get(lockName, events, j);
        Called(before, top, events, i, j, k, mid, L.RelGet(StartGet(lockName), round, holder), p);
        j := k;
        if p.Running? {
          return L.RelGet(p.call, round, holder), j;
        }
        if p.out.got.NoKey? {
          return L.Out, j;
        }
        if p.out.got.value != clientID {
          return L.Out, j;
        }
        var stop;
        pc, stop, j := GiveBack(before, top, p.out.got.version, round, holder, events, i, j);
        if stop {
          return;
        }
        round := round + 1;
      }
    }

    // Put the empty string at the version read.
    method GiveBack(ghost before: Store<string>, ghost top: L.Pc, ver: nat, round: nat, holder: bool,
                    events: seq<Event>, ghost i: nat, j0: nat)
      returns (pc: L.Pc, stop: bool, j: nat)
      requires Went(before, top, events, i, j0, L.RelPut(StartPut(lockName, "", ver), round, holder))
      modifies ck.server
      ensures j0 <= j && Went(before, top, events, i, j, pc)
      ensures if stop then pc == L.Out || (L.InCall(pc) && j == |events|)
              else pc == L.RelGet(StartGet(lockName), round + 1, holder)
    {
      ghost var mid := ck.server.Contents();
      ghost var putting := L.RelPut(StartPut(lockName, "", ver), round, holder);
      var p, k := ck.Put(lockName, "", ver, events, j0);
      Called(before, top, events, i, j0, k, mid, putting, p);
      j := k;
      if p.Running? {
        return L.RelPut(p.call, round, holder), true, j;
      }
      if p.out.err == OK {
        return L.Out, true, j;
      }
      return L.RelGet(StartGet(lockName), round + 1, holder), false, j;
    }
  }
}
