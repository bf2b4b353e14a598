/** The clerk's Get and Put as the loops they are, run against the server object
    while the network and other clients do as a list of events says. */
module ClerkLoops {
  import opened Options
  import opened Kv
  import opened Calls

  // Somebody else's Put executes, or the network moves our own attempt.
  datatype Event = Other(args: PutArgs<string>) | Net(move: Move)

  function One(s: Store<string>, p: Progress<string>, e: Event): (Store<string>, Progress<string>) {
    match e
    case Other(a) => (HandlePut(s, a).0, p)
    case Net(move) => if p.Running? && CanMove(p.call, move) then Advance(s, p.call, move) else (s, p)
  }

  // Where the events lead a call.
  function Follow(s: Store<string>, p: Progress<string>, events: seq<Event>): (Store<string>, Progress<string>) {
    if events == [] then (s, p)
    else
      var (s', p') := Follow(s, p, events[..|events| - 1]);
      One(s', p', events[|events| - 1])
  }

  lemma FollowNext(s: Store<string>, p: Progress<string>, events: seq<Event>, i: nat, j: nat)
    requires i <= j < |events|
    ensures var (s', p') := Follow(s, p, events[i..j]);
            Follow(s, p, events[i..j + 1]) == One(s', p', events[j])
  {
    assert events[i..j + 1][..j - i] == events[i..j];
  }

  lemma {:induction false} FollowConcat(s: Store<string>, p: Progress<string>, a: seq<Event>, b: seq<Event>)
    ensures Follow(s, p, a + b) == Follow(Follow(s, p, a).0, Follow(s, p, a).1, b)
  {
    if b == [] {
      assert a + b == a;
    } else {
      assert (a + b)[..|a + b| - 1] == a + b[..|b| - 1];
      FollowConcat(s, p, a, b[..|b| - 1]);
    }
  }

  // Two stretches of events, one after the other.
  lemma FollowOn(s: Store<string>, p: Progress<string>, events: seq<Event>, i: nat, j: nat, k: nat,
                 mid: (Store<string>, Progress<string>))
    requires i <= j <= k <= |events| && Follow(s, p, events[i..j]) == mid
    ensures Follow(s, p, events[i..k]) == Follow(mid.0, mid.1, events[j..k])
  {
    assert events[i..k] == events[i..j] + events[j..k];
    FollowConcat(s, p, events[i..j], events[j..k]);
  }

  // The call after one of its attempts: its reply has arrived, or it was lost,
  // or the events ran out first.
  datatype Attempt = Arrived(call: Call<string>) | Lost | Unfinished(call: Call<string>)

  // A call about to be sent again.
  function Resent(call: Call<string>): Call<string> {
    match call
    case GetCall(key, _) => GetCall(key, None)
    case PutCall(args, _, _) => PutCall(args, false, None)
  }

  function Answer(call: Call<string>): Output<string>
    requires Replied(call)
  {
    match call
    case GetCall(_, got) => GetOut(got.value)
    case PutCall(_, first, reply) => PutOut(FoldErr(reply.value, first))
  }

  class Clerk {
    const server: KVServer

    constructor (server: KVServer)
      ensures this.server == server
    {
      this.server := server;
    }

    // Events from i to j are consumed. A call still running has used them all;
    // a call that returned did so at the last one.
    ghost predicate Ran(before: Store<string>, call: Call<string>, events: seq<Event>, i: nat, j: nat, p: Progress<string>)
      reads server
    {
      && server.Valid() && i <= j <= |events|
      && Follow(before, Running(call), events[i..j]) == (server.Contents(), p)
      && (p.Running? ==> j == |events|)
      && (p.Returned? ==> i < j && Follow(before, Running(call), events[i..j - 1]).1.Running?)
    }

    // The last attempt of a call, begun at j, decides it at k.
    lemma Ends(before: Store<string>, call: Call<string>, events: seq<Event>, i: nat, j: nat, k: nat,
               mid: (Store<string>, Progress<string>), p: Progress<string>)
      requires server.Valid() && i <= j <= k <= |events| && Follow(before, Running(call), events[i..j]) == mid
      requires Follow(mid.0, mid.1, events[j..k]) == (server.Contents(), p)
      requires p.Running? ==> k == |events|
      requires p.Returned? ==> j < k && Follow(mid.0, mid.1, events[j..k - 1]).1.Running?
      ensures Ran(before, call, events, i, k, p)
    {
      FollowOn(before, Running(call), events, i, j, k, mid);
      if p.Returned? { FollowOn(before, Running(call), events, i, j, k - 1, mid); }
    }

    // One remote call.
    method Rpc(start: Call<string>, events: seq<Event>, i: nat) returns (a: Attempt, j: nat)
      requires server.Valid() && i <= |events| && !Replied(start)
      modifies server
      ensures server.Valid() && i <= j <= |events|
      ensures a.Unfinished? ==>
                j == |events| && Follow(old(server.Contents()), Running(start), events[i..j]) == (server.Contents(), Running(a.call))
      ensures a.Lost? ==>
                i < j && Follow(old(server.Contents()), Running(start), events[i..j]) == (server.Contents(), Running(Resent(start)))
      ensures a.Arrived? ==>
                && i < j && Replied(a.call)
                && Follow(old(server.Contents()), Running(start), events[i..j - 1]) == (server.Contents(), Running(a.call))
                && Follow(old(server.Contents()), Running(start), events[i..j]) == (server.Contents(), Returned(Answer(a.call)))
                && (a.call.GetCall? ==> start == GetCall(a.call.key, None))
                && (a.call.PutCall? ==> start == PutCall(a.call.args, a.call.first, None))
    {
      ghost var before := server.Contents();
      var call := start;
      j := i;
      while j < |events|
        invariant server.Valid() && i <= j <= |events|
        invariant Follow(before, Running(start), events[i..j]) == (server.Contents(), Running(call))
        invariant if call.GetCall? then start == GetCall(call.key, None) else start == PutCall(call.args, call.first, None)
      {
        FollowNext(before, Running(start), events, i, j);
        var e := events[j];
        j := j + 1;
        match e {
          case Other(args) =>
            var _ := server.Put(args);
          case Net(move) =>
            if CanMove(call, move) {
              match move {
                case Execute =>
                  match call {
                    case GetCall(key, _) =>
                      var got := server.Get(key);
                      call := GetCall(key, Some(got));
                    case PutCall(args, first, _) =>
                      var err := server.Put(args);
                      call := PutCall(args, first, Some(err));
                  }
                case Deliver => return Arrived(call), j;
                case Drop => return Lost, j;
                case Lose => return Lost, j;
              }
            }
        }
      }
      a := Unfinished(call);
    }

    method Get(key: string, events: seq<Event>, i: nat) returns (p: Progress<string>, j: nat)
      requires server.Valid() && i <= |events|
      modifies server
      ensures Ran(old(server.Contents()), StartGet(key), events, i, j, p)
      ensures p.Returned? ==> p.out.GetOut?
    {
      ghost var before := server.Contents();
      j := i;
      while true
        invariant server.Valid() && i <= j <= |events|
        invariant Follow(before, Running(StartGet(key)), events[i..j]) == (server.Contents(), Running(GetCall(key, None)))
        decreases |events| - j
      {
        ghost var mid: (Store<string>, Progress<string>) := (server.Contents(), Running(GetCall(key, None)));
        var a, k := Rpc(GetCall(key, None), events, j);
        match a {
          case Unfinished(call) =>
            Ends(before, StartGet(key), events, i, j, k, mid, Running(call));
            return Running(call), k;
          case Arrived(call) =>
            Ends(before, StartGet(key), events, i, j, k, mid, Returned(Answer(call)));
            return Returned(GetOut(call.got.value)), k;
          case Lost =>
            FollowOn(before, Running(StartGet(key)), events, i, j, k, mid);
            j := k;
        }
      }
    }

    method Put(key: string, value: string, version: nat, events: seq<Event>, i: nat)
      returns (p: Progress<string>, j: nat)
      requires server.Valid() && i <= |events|
      modifies server
      ensures Ran(old(server.Contents()), StartPut(key, value, version), events, i, j, p)
      ensures p.Returned? ==> p.out.PutOut?
    {
      ghost var before := server.Contents();
      ghost var start := StartPut(key, value, version);
      var args := PutArgs(key, value, version);
      var firstAttempt := true;
      j := i;
      while true
        invariant server.Valid() && i <= j <= |events|
        invariant Follow(before, Running(start), events[i..j]) ==
                    (server.Contents(), Running(PutCall(args, firstAttempt, None)))
        decreases |events| - j
      {
        ghost var mid := (server.Contents(), Running(PutCall(args, firstAttempt, None)));
        var a, k := Rpc(PutCall(args, firstAttempt, None), events, j);
        match a {
          case Unfinished(call) =>
            Ends(before, start, events, i, j, k, mid, Running(call));
            return Running(call), k;
          case Arrived(call) =>
            Ends(before, start, events, i, j, k, mid, Returned(Answer(call)));
            var err := call.reply.value;
            if err == OK {
              return Returned(PutOut(OK)), k;
            } else if err == ErrVersion {
              if firstAttempt {
                return Returned(PutOut(ErrVersion)), k;
              } else {
                return Returned(PutOut(ErrMaybe)), k;
              }
            }
            return Returned(PutOut(err)), k;
          case Lost =>
            FollowOn(before, Running(start), events, i, j, k, mid);
            j := k;
            firstAttempt := false;
        }
      }
    }
  }
}
