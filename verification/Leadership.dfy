/** What the election is for: from every reachable state any peer that is not
    leading can come to lead, and all others then follow it. */
module Leadership {
  import opened Options
  import opened Raft
  import opened Election
  import opened ElectionWitness

  // ----- single steps

  // A refusal, of a vote or of a heartbeat, leaves no peer behind its term; a
  // peer that it raises follows, without a vote.
  lemma RefusalCounts(s: State, step: Step)
    requires Enabled(s, step) && (step.Count? || step.Acknowledge?)
    ensures var i := if step.Count? then step.id.cand else s.beats[step.k].from;
            var (refused, term) := if step.Count? then (!s.asks[step.id].reply.granted, s.asks[step.id].reply.term)
                                   else (!s.beats[step.k].reply.success, s.beats[step.k].reply.term);
            var p, q := s.peers[i], Next(s, step).peers[i];
            refused ==>
              && term <= q.currTerm
              && (if p.currTerm < term then q == Peer(term, None, Follower, 0) else q == p)
  {
  }

  // A heartbeat of its term or a later one makes its receiver a follower of that
  // term; an older one is refused with the receiver's term.
  lemma HeartbeatRules(s: State, k: nat)
    requires Enabled(s, Receive(k))
    ensures var b := s.beats[k];
            var p, s' := s.peers[b.to], Next(s, Receive(k));
            && s'.beats[k].AnsweredBeat? && s'.beats[k].from == b.from
            && (if b.term < p.currTerm then s'.peers == s.peers && s'.beats[k].reply == BeatReply(p.currTerm, false)
                else s'.peers == s.peers[b.to := Peer(b.term, p.voteFor, Follower, 0)] && s'.beats[k].reply.success)
  {
  }

  // ----- coming to lead

  // A voter that the candidate's present election has yet to ask, and that has
  // not reached its term.
  predicate Open(s: State, c: nat, v: nat) {
    && c < |s.peers| && v < |s.peers| && v != c && s.peers[v].currTerm < s.peers[c].currTerm
    && AskId(c, v, s.peers[c].currTerm) in s.asks && s.asks[AskId(c, v, s.peers[c].currTerm)] == Spawned
  }

  ghost predicate Behind(s: State, c: nat, t: nat) {
    forall v :: 0 <= v < |s.peers| && v != c ==> s.peers[v].currTerm <= t
  }

  // c stands until its term is above t.
  lemma {:induction false} StandsAbove(n: nat, steps: seq<Step>, s: State, c: nat, t: nat)
    returns (steps': seq<Step>, s': State)
    requires Leads(n, steps, s, Careless) && c < n && s.peers[c].role != Leader && Behind(s, c, t)
    ensures steps <= steps' && Leads(n, steps', s', Careless) && s'.wins == s.wins
    ensures s'.peers[c].role == Candidate && s'.peers[c].voteCount == 1 && t < s'.peers[c].currTerm
    ensures forall v: nat :: v < n && v != c ==> Open(s', c, v)
    decreases t + 1 - s.peers[c].currTerm
  {
    steps', s' := Stands(n, steps, s, Careless, c);
    if s'.peers[c].currTerm <= t {
      steps', s' := StandsAbove(n, steps', s', c, t);
    } else {
      forall v: nat | v < n && v != c ensures Open(s', c, v) {
        assert AskId(c, v, s'.peers[c].currTerm) in NewAsks(n, c, s'.peers[c].currTerm);
      }
    }
  }

  // It asks the voters from v on, one after the other, until it has won.
  lemma {:induction false} Campaigns(n: nat, steps: seq<Step>, s: State, c: nat, v: nat)
    returns (steps': seq<Step>, s': State)
    requires Leads(n, steps, s, Careless) && c < n && v < n && s.peers[c].role == Candidate
    requires s.peers[c].voteCount + (n - v) - (if v <= c then 1 else 0) > n / 2 >= s.peers[c].voteCount
    requires forall u: nat :: v <= u < n && u != c ==> Open(s, c, u)
    requires Behind(s, c, s.peers[c].currTerm)
    ensures steps <= steps' && Leads(n, steps', s', Careless) && s'.wins == s.wins + {Win(c, s.peers[c].currTerm)}
    ensures s'.peers[c] == Peer(s.peers[c].currTerm, None, Leader, 0) && Behind(s', c, s.peers[c].currTerm)
    decreases n - v
  {
    if v == c {
      steps', s' := Campaigns(n, steps, s, c, v + 1);
    } else {
      assert Open(s, c, v);
      steps', s' := Ballot(n, steps, s, Careless, AskId(c, v, s.peers[c].currTerm));
      if s'.peers[c].role == Candidate {
        forall u: nat | v + 1 <= u < n && u != c ensures Open(s', c, u) { assert Open(s, c, u); }
        steps', s' := Campaigns(n, steps', s', c, v + 1);
      }
    }
  }

  // One heartbeat from c reaches v.
  lemma Reaches(n: nat, steps: seq<Step>, s: State, c: nat, v: nat) returns (steps': seq<Step>, s': State)
    requires Leads(n, steps, s, Careless) && c < n && v < n && Win(c, s.peers[c].currTerm) in s.wins
    requires s.peers[v].currTerm <= s.peers[c].currTerm
    ensures steps <= steps' && Leads(n, steps', s', Careless) && s'.wins == s.wins
    ensures s'.peers == s.peers[v := Peer(s.peers[c].currTerm, s.peers[v].voteFor, Follower, 0)]
  {
    var k := |s.beats|;
    Extend(n, steps, s, Careless, SpawnBeat(c, v));
    var s1, t1 := Next(s, SpawnBeat(c, v)), steps + [SpawnBeat(c, v)];
    Extend(n, t1, s1, Careless, SendBeat(k));
    var s2, t2 := Next(s1, SendBeat(k)), t1 + [SendBeat(k)];
    Extend(n, t2, s2, Careless, Receive(k));
    steps', s' := t2 + [Receive(k)], Next(s2, Receive(k));
  }

  // c leads, and the peers below v follow it.
  ghost predicate Rules(s: State, c: nat, v: nat) {
    && c < |s.peers| && s.peers[c].role == Leader && Win(c, s.peers[c].currTerm) in s.wins
    && Behind(s, c, s.peers[c].currTerm)
    && forall u :: 0 <= u < v && u < |s.peers| && u != c ==>
         s.peers[u].role == Follower && s.peers[u].currTerm == s.peers[c].currTerm
  }

  lemma {:induction false} Broadcasts(n: nat, steps: seq<Step>, s: State, c: nat, v: nat)
    returns (steps': seq<Step>, s': State)
    requires Leads(n, steps, s, Careless) && c < n && v <= n && Rules(s, c, v)
    ensures steps <= steps' && Leads(n, steps', s', Careless) && Rules(s', c, n) && s'.peers[c] == s.peers[c]
    decreases n - v
  {
    if v == n {
      steps', s' := steps, s;
    } else if v == c {
      steps', s' := Broadcasts(n, steps, s, c, v + 1);
    } else {
      var steps1, s1 := Reaches(n, steps, s, c, v);
      steps', s' := Broadcasts(n, steps1, s1, c, v + 1);
    }
  }

  // A term above all others.
  lemma {:induction false} Highest(s: State, v: nat) returns (t: nat)
    requires v <= |s.peers|
    ensures forall u :: 0 <= u < v ==> s.peers[u].currTerm <= t
  {
    t := 0;
    if v > 0 {
      t := Highest(s, v - 1);
      if t < s.peers[v - 1].currTerm { t := s.peers[v - 1].currTerm; }
    }
  }

  // From every reachable state, a peer that is not leading can win a later term
  // than any before, after which all others follow it in that term.
  lemma CanLead(n: nat, steps: seq<Step>, c: nat) returns (steps': seq<Step>)
    requires n >= 2 && c < n && Run(n, steps).Some?
    requires |Run(n, steps).value.peers| == n ==> Run(n, steps).value.peers[c].role != Leader
    ensures steps <= steps' && Run(n, steps').Some?
    ensures var s, s' := Run(n, steps).value, Run(n, steps').value;
            && |s.peers| == n && Rules(s', c, n) && |s'.peers| == n
            && forall v :: 0 <= v < n && v != c ==> s.peers[v].currTerm < s'.peers[c].currTerm
  {
    VotesHold(n, steps);
    var s := Run(n, steps).value;
    assert Leads(n, steps, s, Careless);
    var t := Highest(s, n);
    var steps1, s1 := StandsAbove(n, steps, s, c, t);
    forall v | 0 <= v < n && v != c ensures s1.peers[v].currTerm <= s1.peers[c].currTerm { assert Open(s1, c, v); }
    var steps2, s2 := Campaigns(n, steps1, s1, c, 0);
    var s3;
    steps', s3 := Broadcasts(n, steps2, s2, c, 0);
  }
}
