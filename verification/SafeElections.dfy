/** For which numbers of peers, and with how much care in counting votes, every
    run elects at most one leader in a term. */
module SafeElections {
  import opened Options
  import opened Raft
  import opened Election
  import opened ElectionWitness

  // ----- the second win of a term

  // What two winners of one term have in common: the later one's step is where
  // the earlier one is the term's only winner, so it alone can have voted twice.
  lemma SharedBacker(s: State, i: nat, t: nat, v: nat, c: nat, d: nat)
    requires Votes(s) && OneLeader(s) && Win(i, t) in s.wins
    requires c != d && Grant(v, t, c) in s.grants && Grant(v, t, d) in s.grants
    ensures v == i && Win(v, t) in s.asked
  {
    assert VotedTwice(s, v, t);
  }

  // ----- counting by election

  // With an even number of peers two majorities share two members.
  lemma EvenMajorities(a: set<nat>, b: set<nat>, n: nat, i: nat)
    requires n % 2 == 0 && |a| > n / 2 && |b| > n / 2
    requires forall x :: x in a + b ==> x < n
    ensures !(a * b <= {i})
  {
    if a * b <= {i} {
      assert a + b == a + (b - {i}) + ({i} * b);
      assert a !! (b - {i});
      assert |a + (b - {i})| == |a| + |b - {i}|;
      assert |b - {i}| >= |b| - 1;
      Below(a + (b - {i}), n);
    }
  }

  // A backer of both has granted to both.
  lemma BackerGranted(s: State, w: Win, v: nat)
    requires Votes(s) && Counts(s) && w in s.wins && v in Backers(s, w.peer, w.term)
    ensures Grant(v, w.term, w.peer) in s.grants && v < |s.peers|
  {
    assert WinOk(s, w);
  }

  lemma EvenStep(s: State, id: AskId, i: nat, j: nat, t: nat)
    requires Votes(s) && Counts(s) && OneLeader(s) && Enabled(s, Count(id)) && !CountsStale(s, id)
    requires |s.peers| % 2 == 0 && i != j && Win(i, t) in s.wins
    ensures Win(j, t) !in Next(s, Count(id)).wins
  {
    var s' := Next(s, Count(id));
    if Win(j, t) in s'.wins {
      CountVotes(s, id);
      CountCounts(s, id);
      EvenClash(s, s', i, j, t);
    }
  }

  lemma EvenClash(s: State, s': State, i: nat, j: nat, t: nat)
    requires Votes(s) && OneLeader(s) && Votes(s') && Counts(s') && s'.grants == s.grants && |s'.peers| == |s.peers|
    requires |s.peers| % 2 == 0 && i != j && Win(i, t) in s.wins && Win(i, t) in s'.wins
    ensures Win(j, t) !in s'.wins
  {
    if Win(j, t) in s'.wins {
      var a, b := Backers(s', i, t), Backers(s', j, t);
      forall v | v in a * b ensures v == i {
        BackerGranted(s', Win(i, t), v);
        BackerGranted(s', Win(j, t), v);
        SharedBacker(s, i, t, v, i, j);
      }
      EvenMajorities(a, b, |s.peers|, i);
    }
  }

  // ----- counting by term

  // A winner has the vote of another peer in its term.
  ghost predicate Backed(s: State, w: Win) {
    exists v :: v != w.peer && Grant(v, w.term, w.peer) in s.grants
  }

  ghost predicate Grounded(s: State) {
    && (forall id :: id in s.asks && s.asks[id].Answered? && s.asks[id].reply.granted ==>
          Grant(id.voter, s.asks[id].term, id.cand) in s.grants)
    && (forall w :: w in s.wins ==> Backed(s, w))
  }

  lemma KeepsGrounded(s: State, step: Step)
    requires Votes(s) && Grounded(s) && Enabled(s, step)
    requires step.Count? ==> !CountsOld(s, step.id)
    ensures Grounded(Next(s, step))
  {
    var s' := Next(s, step);
    assert s.grants <= s'.grants;
    forall w | w in s'.wins ensures Backed(s', w) {
      if w in s.wins {
        assert Backed(s, w);
        var v :| v != w.peer && Grant(v, w.term, w.peer) in s.grants;
        assert Grant(v, w.term, w.peer) in s'.grants;
      } else {
        assert Grant(step.id.voter, w.term, w.peer) in s'.grants;
      }
    }
  }

  lemma {:induction false} GroundedHolds(n: nat, steps: seq<Step>)
    requires Run(n, steps).Some? && Careful(n, steps, SameTerm)
    ensures Grounded(Run(n, steps).value)
  {
    if steps != [] {
      var shorter := steps[..|steps| - 1];
      Shorter(n, steps, SameTerm);
      GroundedHolds(n, shorter);
      VotesHold(n, shorter);
      KeepsGrounded(Run(n, shorter).value, steps[|steps| - 1]);
    }
  }

  lemma Shorter(n: nat, steps: seq<Step>, care: Care)
    requires steps != [] && Run(n, steps).Some? && Careful(n, steps, care)
    ensures var shorter := steps[..|steps| - 1];
            && Run(n, shorter).Some? && Careful(n, shorter, care)
            && (steps[|steps| - 1].Count? ==> !Miscounts(Run(n, shorter).value, steps[|steps| - 1].id, care))
  {
    var shorter := steps[..|steps| - 1];
    assert forall m :: 0 <= m < |shorter| ==> shorter[..m] == steps[..m];
  }

  // With two peers, a second winner would have voted for the first.
  lemma PairStep(s: State, id: AskId, i: nat, j: nat, t: nat)
    requires Votes(s) && Grounded(s) && OneLeader(s) && Enabled(s, Count(id)) && |s.peers| < 3
    requires i != j && Win(i, t) in s.wins
    ensures Win(j, t) !in Next(s, Count(id)).wins
  {
    if Win(j, t) in Next(s, Count(id)).wins {
      assert Backed(s, Win(i, t)) && WinOk(s, Win(i, t)) && PeerOk(s, j);
      var v :| v != i && Grant(v, t, i) in s.grants;
      assert GrantOk(s, Grant(v, t, i)) && v == j;
      SharedBacker(s, i, t, j, i, j);
    }
  }

  // With three peers and no winner asked, two winners have two backers.
  lemma TwoBackers(s: State, i: nat, j: nat, t: nat, v: nat, w: nat)
    requires Votes(s) && s.asked == {} && |s.peers| < 4 && Win(i, t) in s.wins && Win(j, t) in s.wins
    requires v != i && Grant(v, t, i) in s.grants && w != j && Grant(w, t, j) in s.grants
    ensures i == j
  {
    assert WinOk(s, Win(i, t)) && WinOk(s, Win(j, t)) && GrantOk(s, Grant(v, t, i)) && GrantOk(s, Grant(w, t, j));
    assert !VotedTwice(s, v, t) && !VotedTwice(s, w, t);
  }

  lemma ThreePeers(n: nat, steps: seq<Step>)
    requires n < 4 && Run(n, steps).Some? && Careful(n, steps, SameTerm) && Run(n, steps).value.asked == {}
    ensures OneLeader(Run(n, steps).value)
  {
    var s := Run(n, steps).value;
    VotesHold(n, steps);
    GroundedHolds(n, steps);
    forall i, j, t | Win(i, t) in s.wins && Win(j, t) in s.wins ensures i == j {
      assert Backed(s, Win(i, t)) && Backed(s, Win(j, t));
      var v :| v != i && Grant(v, t, i) in s.grants;
      var w :| w != j && Grant(w, t, j) in s.grants;
      TwoBackers(s, i, j, t, v, w);
    }
  }

  // ----- safety, by induction over the run

  // The numbers of peers that are safe when a winner may be asked again.
  predicate SafeCount(n: nat, care: Care) {
    match care
    case Careless => n < 2
    case SameTerm => n < 3
    case SameElection => n < 3 || n % 2 == 0
  }

  // The same when no winner is asked again in the term it won.
  predicate SafeUnasked(n: nat, care: Care) {
    match care
    case Careless => n < 2
    case SameTerm => n < 4
    case SameElection => true
  }

  // Fewer than two peers ask nobody.
  lemma {:induction false} NobodyWins(n: nat, steps: seq<Step>)
    requires n < 2 && Run(n, steps).Some?
    ensures Run(n, steps).value.wins == {}
  {
    if steps != [] {
      VotesHold(n, steps[..|steps| - 1]);
      NobodyWins(n, steps[..|steps| - 1]);
    }
  }

  lemma SecondWin(n: nat, steps: seq<Step>, care: Care, i: nat, j: nat, t: nat)
    requires n >= 2 && SafeCount(n, care) && steps != [] && Run(n, steps).Some? && Careful(n, steps, care)
    requires OneLeader(Run(n, steps[..|steps| - 1]).value) && i != j
    requires Win(i, t) in Run(n, steps[..|steps| - 1]).value.wins
    ensures Win(j, t) !in Run(n, steps).value.wins
  {
    var shorter, last := steps[..|steps| - 1], steps[|steps| - 1];
    var s := Run(n, shorter).value;
    Shorter(n, steps, care);
    VotesHold(n, shorter);
    if last.Count? {
      if care == SameElection && n % 2 == 0 {
        CountsHold(n, shorter);
        EvenStep(s, last.id, i, j, t);
      } else {
        GroundedHolds(n, shorter);
        PairStep(s, last.id, i, j, t);
      }
    }
  }

  lemma {:induction false} AtMostOneLeader(n: nat, steps: seq<Step>, care: Care)
    requires SafeCount(n, care) && Run(n, steps).Some? && Careful(n, steps, care)
    ensures OneLeader(Run(n, steps).value)
  {
    if n < 2 {
      NobodyWins(n, steps);
    } else if steps != [] {
      var shorter := steps[..|steps| - 1];
      Shorter(n, steps, care);
      AtMostOneLeader(n, shorter, care);
      var s, s' := Run(n, shorter).value, Run(n, steps).value;
      forall i, j, t | Win(i, t) in s'.wins && Win(j, t) in s'.wins ensures i == j {
        if i != j {
          if Win(i, t) in s.wins { SecondWin(n, steps, care, i, j, t); }
          if Win(j, t) in s.wins { SecondWin(n, steps, care, j, i, t); }
        }
      }
    }
  }

  lemma AtMostOneUnasked(n: nat, steps: seq<Step>, care: Care)
    requires SafeUnasked(n, care) && Run(n, steps).Some? && Careful(n, steps, care) && Run(n, steps).value.asked == {}
    ensures OneLeader(Run(n, steps).value)
  {
    match care {
      case Careless => AtMostOneLeader(n, steps, care);
      case SameTerm => ThreePeers(n, steps);
      case SameElection =>
        var s := Run(n, steps).value;
        forall i, j, t | Win(i, t) in s.wins && Win(j, t) in s.wins ensures i == j {
          ElectionSafety(n, steps, i, j, t);
        }
    }
  }

  // ----- exactly when

  ghost predicate Safe(n: nat, care: Care) {
    forall steps :: Run(n, steps).Some? && Careful(n, steps, care) ==> OneLeader(Run(n, steps).value)
  }

  ghost predicate SafeIfUnasked(n: nat, care: Care) {
    forall steps :: Run(n, steps).Some? && Careful(n, steps, care) && Run(n, steps).value.asked == {} ==>
      OneLeader(Run(n, steps).value)
  }

  // As written, every run is safe only when there are no elections to win. Were
  // grants counted by term, one pair of peers would be safe; were they counted
  // by election, every even number of peers.
  lemma SafeExactly(n: nat, care: Care)
    ensures Safe(n, care) <==> SafeCount(n, care)
  {
    if SafeCount(n, care) {
      forall steps | Run(n, steps).Some? && Careful(n, steps, care) ensures OneLeader(Run(n, steps).value) {
        AtMostOneLeader(n, steps, care);
      }
    } else if care == Careless {
      var steps := OldGrantsCounted(n);
    } else if n % 2 == 1 {
      var steps := WinnerAsked(n);
      ByElectionIsByTerm(n, steps);
    } else {
      var steps := TermReadLate(n);
    }
  }

  // And if in addition no winner were asked again: three peers when counting by
  // term, any number when counting by election.
  lemma SafeUnaskedExactly(n: nat, care: Care)
    ensures SafeIfUnasked(n, care) <==> SafeUnasked(n, care)
  {
    if SafeUnasked(n, care) {
      forall steps | Run(n, steps).Some? && Careful(n, steps, care) && Run(n, steps).value.asked == {}
        ensures OneLeader(Run(n, steps).value)
      {
        AtMostOneUnasked(n, steps, care);
      }
    } else if care == Careless {
      var steps := OldGrantsCounted(n);
    } else {
      var steps := TermReadLate(n);
    }
  }

  lemma ByElectionIsByTerm(n: nat, steps: seq<Step>)
    requires Careful(n, steps, SameElection)
    ensures Careful(n, steps, SameTerm)
  {
    forall m | 0 <= m < |steps| && steps[m].Count? && Run(n, steps[..m]).Some?
      ensures !Miscounts(Run(n, steps[..m]).value, steps[m].id, SameTerm)
    {
      assert !Miscounts(Run(n, steps[..m]).value, steps[m].id, SameElection);
    }
  }
}
