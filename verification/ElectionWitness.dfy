/** Runs of the election that elect two leaders in one term, for every number of
    peers for which there is one: with careless counting, with counting by term
    and with counting by election. */
module ElectionWitness {
  import opened Options
  import opened Raft
  import opened Election

  ghost predicate OneLeader(s: State) {
    forall i, j, t :: Win(i, t) in s.wins && Win(j, t) in s.wins ==> i == j
  }

  lemma TwoLeaders(s: State, i: nat, j: nat, t: nat)
    requires i != j && Win(i, t) in s.wins && Win(j, t) in s.wins
    ensures !OneLeader(s)
  {
  }

  // A run under construction: where it leads, with its counts done with care.
  ghost predicate Leads(n: nat, steps: seq<Step>, s: State, care: Care) {
    Run(n, steps) == Some(s) && |s.peers| == n && Careful(n, steps, care)
  }

  lemma Extend(n: nat, steps: seq<Step>, s: State, care: Care, step: Step)
    requires Leads(n, steps, s, care) && Enabled(s, step)
    requires step.Count? ==> !Miscounts(s, step.id, care)
    ensures Leads(n, steps + [step], Next(s, step), care)
  {
    var longer := steps + [step];
    assert longer[..|steps|] == steps;
    if care != Careless {
      forall m | 0 <= m < |longer| && longer[m].Count? && Run(n, longer[..m]).Some?
        ensures !Miscounts(Run(n, longer[..m]).value, longer[m].id, care)
      {
        assert m < |steps| ==> longer[..m] == steps[..m];
      }
    }
  }

  // ----- the moves of a run

  // A request is sent and answered.
  lemma Asked(n: nat, steps: seq<Step>, s: State, care: Care, id: AskId) returns (steps': seq<Step>, s': State)
    requires Leads(n, steps, s, care) && Enabled(s, Send(id)) && id.voter < n && id.voter != id.cand
    ensures Leads(n, steps', s', care) && steps <= steps'
    ensures var t := s.peers[id.cand].currTerm;
            var (p, reply) := OnAsk(s.peers[id.voter], t, id.cand);
            && s'.peers == s.peers[id.voter := p] && s'.asks == s.asks[id := Answered(t, reply)]
            && s'.wins == s.wins && (Win(id.voter, t) !in s.wins ==> s'.asked == s.asked)
  {
    Extend(n, steps, s, care, Send(id));
    var s1 := Next(s, Send(id));
    Extend(n, steps + [Send(id)], s1, care, Vote(id));
    steps', s' := steps + [Send(id)] + [Vote(id)], Next(s1, Vote(id));
  }

  // An answer is counted.
  lemma Counted(n: nat, steps: seq<Step>, s: State, care: Care, id: AskId) returns (steps': seq<Step>, s': State)
    requires Leads(n, steps, s, care) && Enabled(s, Count(id)) && !Miscounts(s, id, care)
    ensures Leads(n, steps', s', care) && steps <= steps'
    ensures var p := s.peers[id.cand];
            var q := OnVote(p, n, s.asks[id].reply);
            && s'.peers == s.peers[id.cand := q] && s'.asked == s.asked
            && s'.asks == s.asks[id := Finished(s.asks[id].reply.granted && p.role == Candidate)]
            && s'.wins == if q.role == Leader && p.role != Leader then s.wins + {Win(id.cand, q.currTerm)} else s.wins
  {
    Extend(n, steps, s, care, Count(id));
    steps', s' := steps + [Count(id)], Next(s, Count(id));
  }

  lemma Stands(n: nat, steps: seq<Step>, s: State, care: Care, i: nat) returns (steps': seq<Step>, s': State)
    requires Leads(n, steps, s, care) && Enabled(s, Timeout(i))
    ensures Leads(n, steps', s', care) && steps <= steps'
    ensures s'.peers == s.peers[i := StartElection(s.peers[i], i)]
    ensures s'.asks == s.asks + NewAsks(n, i, s.peers[i].currTerm + 1)
    ensures s'.wins == s.wins && s'.asked == s.asked
  {
    Extend(n, steps, s, care, Timeout(i));
    steps', s' := steps + [Timeout(i)], Next(s, Timeout(i));
  }

  // A request that its voter grants, sent, answered and counted.
  lemma Ballot(n: nat, steps: seq<Step>, s: State, care: Care, id: AskId) returns (steps': seq<Step>, s': State)
    requires Leads(n, steps, s, care) && Enabled(s, Send(id)) && id.voter < n && id.voter != id.cand
    requires s.peers[id.cand].role == Candidate && (care == SameElection ==> id.election == s.peers[id.cand].currTerm)
    requires var v := s.peers[id.voter];
             v.currTerm < s.peers[id.cand].currTerm ||
             (v.currTerm == s.peers[id.cand].currTerm && (v.voteFor == None || v.voteFor == Some(id.cand)))
    ensures Leads(n, steps', s', care) && steps <= steps'
    ensures var p := s.peers[id.cand];
            && |s'.peers| == n && s'.asks == s.asks[id := Finished(true)]
            && (forall i :: 0 <= i < n && i != id.cand && i != id.voter ==> s'.peers[i] == s.peers[i])
            && s'.peers[id.voter].currTerm == p.currTerm && s'.peers[id.voter].voteFor == Some(id.cand)
            && (Win(id.voter, p.currTerm) !in s.wins ==> s'.asked == s.asked)
            && (if p.voteCount + 1 > n / 2 then s'.wins == s.wins + {Win(id.cand, p.currTerm)}
                else s'.wins == s.wins)
            && s'.peers[id.cand] == if p.voteCount + 1 > n / 2 then Peer(p.currTerm, None, Leader, 0)
                                    else p.(voteCount := p.voteCount + 1)
  {
    var s1;
    steps', s1 := Asked(n, steps, s, care, id);
    steps', s' := Counted(n, steps', s1, care, id);
  }

  // ----- counting by election: every odd number of peers from three

  // The voters from lo to hi, none of which has reached c's term, all vote for c.
  lemma {:induction false} Collect(n: nat, steps: seq<Step>, s: State, c: nat, lo: nat, hi: nat)
    returns (steps': seq<Step>, s': State)
    requires Leads(n, steps, s, SameElection) && c < n && lo <= hi <= n && !(lo <= c < hi)
    requires s.peers[c].role == Candidate && s.peers[c].voteCount + (hi - lo) <= n / 2
    requires forall v: nat :: lo <= v < hi ==> Willing(s, c, v)
    ensures Leads(n, steps', s', SameElection) && s'.wins == s.wins
    ensures s'.peers[c] == s.peers[c].(voteCount := s.peers[c].voteCount + (hi - lo))
    ensures forall v: nat :: v < n && v != c && !(lo <= v < hi) ==>
              s'.peers[v] == s.peers[v] && (Willing(s, c, v) ==> Willing(s', c, v))
    decreases hi - lo
  {
    if lo == hi {
      steps', s' := steps, s;
    } else {
      var id := AskId(c, lo, s.peers[c].currTerm);
      assert Willing(s, c, lo);
      var steps1, s1 := Ballot(n, steps, s, SameElection, id);
      forall v: nat | v < n && v != c && v != lo && Willing(s, c, v) ensures Willing(s1, c, v) {}
      steps', s' := Collect(n, steps1, s1, c, lo + 1, hi);
    }
  }

  // A voter that will grant what the candidate's present election asks of it.
  predicate Willing(s: State, c: nat, v: nat) {
    && c < |s.peers| && v < |s.peers| && v != c
    && (s.peers[v].currTerm < s.peers[c].currTerm ||
        (s.peers[v].currTerm == s.peers[c].currTerm && s.peers[v].voteFor == None))
    && AskId(c, v, s.peers[c].currTerm) in s.asks && s.asks[AskId(c, v, s.peers[c].currTerm)] == Spawned
  }

  // A peer that can still vote in term 1.
  predicate CanVote(p: Peer) { p.currTerm == 0 || (p.currTerm == 1 && p.voteFor == None) }

  // A peer of term 0 stands in term 1.
  lemma StandsFirst(n: nat, steps: seq<Step>, s: State, c: nat) returns (steps': seq<Step>, s': State)
    requires Leads(n, steps, s, SameElection) && c < n && s.peers[c] == FRESH
    ensures Leads(n, steps', s', SameElection) && s'.wins == s.wins
    ensures s'.peers == s.peers[c := Peer(1, Some(c), Candidate, 1)]
    ensures forall v: nat :: v < n && v != c && CanVote(s.peers[v]) ==>
              Willing(s', c, v)
  {
    steps', s' := Stands(n, steps, s, SameElection, c);
    forall v: nat | v < n && v != c ensures AskId(c, v, 1) in NewAsks(n, c, 1) {}
  }

  // c, a peer of term 0, stands in term 1 and wins with the votes from lo to hi
  // and that of last.
  lemma Wins(n: nat, steps: seq<Step>, s: State, c: nat, lo: nat, hi: nat, last: nat)
    returns (steps': seq<Step>, s': State)
    requires Leads(n, steps, s, SameElection) && c < n && last < n && lo <= hi <= n && hi - lo + 1 == n / 2
    requires c != last && !(lo <= c < hi) && !(lo <= last < hi)
    requires s.peers[c] == FRESH && forall v: nat :: lo <= v < hi ==> s.peers[v] == FRESH
    requires CanVote(s.peers[last])
    ensures Leads(n, steps', s', SameElection) && s'.wins == s.wins + {Win(c, 1)}
    ensures s'.peers[c] == Peer(1, None, Leader, 0)
    ensures forall v: nat :: v < n && v != c && v != last && !(lo <= v < hi) ==> s'.peers[v] == s.peers[v]
  {
    var steps1, s1 := StandsFirst(n, steps, s, c);
    var steps2, s2 := Collect(n, steps1, s1, c, lo, hi);
    assert Willing(s2, c, last);
    steps', s' := Ballot(n, steps2, s2, SameElection, AskId(c, last, 1));
  }

  // Peer 0 wins with the lower half and clears its vote; the last peer wins with
  // the upper half and the vote of peer 0.
  lemma WinnerAsked(n: nat) returns (steps: seq<Step>)
    requires n >= 3 && n % 2 == 1
    ensures Run(n, steps).Some? && Careful(n, steps, SameElection) && !OneLeader(Run(n, steps).value)
  {
    var h, s := n / 2, Init(n);
    assert Leads(n, [], s, SameElection);
    steps, s := Wins(n, [], s, 0, 1, h, h);
    steps, s := Wins(n, steps, s, n - 1, h + 1, n - 1, 0);
    TwoLeaders(s, 0, n - 1, 1);
  }

  // ----- careless counting: every number of peers from two

  // b's grant to a in the election of term t is on its way.
  predicate Waiting(s: State, a: nat, b: nat, t: nat) {
    AskId(a, b, t) in s.asks && s.asks[AskId(a, b, t)] == Answered(t, VoteReply(t, true))
  }

  // a stands, and b votes for it; a does not count the vote.
  lemma HoardOnce(n: nat, steps: seq<Step>, s: State, a: nat, b: nat) returns (steps': seq<Step>, s': State)
    requires Leads(n, steps, s, Careless) && a < n && b < n && a != b && s.wins == s.asked == {}
    requires s.peers[a].role != Leader && s.peers[b].role != Leader && s.peers[b].currTerm <= s.peers[a].currTerm
    ensures Leads(n, steps', s', Careless) && s'.wins == s'.asked == {}
    ensures s'.peers[a].role != Leader && s'.peers[b].role != Leader
    ensures s'.peers[a].currTerm == s'.peers[b].currTerm == s.peers[a].currTerm + 1
    ensures Waiting(s', a, b, s.peers[a].currTerm + 1)
    ensures forall id :: id in s.asks && (id.cand != a || id.election <= s.peers[a].currTerm) ==>
              id in s'.asks && s'.asks[id] == s.asks[id]
  {
    var t := s.peers[a].currTerm + 1;
    var steps1, s1 := Stands(n, steps, s, Careless, a);
    assert AskId(a, b, t) in NewAsks(n, a, t);
    steps', s' := Asked(n, steps1, s1, Careless, AskId(a, b, t));
  }

  // a does so k times.
  lemma {:induction false} Hoard(n: nat, steps: seq<Step>, s: State, a: nat, b: nat, k: nat)
    returns (steps': seq<Step>, s': State)
    requires Leads(n, steps, s, Careless) && a < n && b < n && a != b && s.wins == s.asked == {}
    requires s.peers[a].role != Leader && s.peers[b].role != Leader && s.peers[b].currTerm <= s.peers[a].currTerm
    ensures Leads(n, steps', s', Careless) && s'.wins == s'.asked == {}
    ensures s'.peers[a].role != Leader && s'.peers[b].role != Leader
    ensures s'.peers[a].currTerm == s.peers[a].currTerm + k
    ensures s'.peers[b].currTerm == if k == 0 then s.peers[b].currTerm else s'.peers[a].currTerm
    ensures forall t: nat :: s.peers[a].currTerm < t <= s'.peers[a].currTerm ==> Waiting(s', a, b, t)
    ensures forall id :: id in s.asks && (id.cand != a || id.election <= s.peers[a].currTerm) ==>
              id in s'.asks && s'.asks[id] == s.asks[id]
  {
    if k == 0 {
      steps', s' := steps, s;
    } else {
      var steps1, s1 := Hoard(n, steps, s, a, b, k - 1);
      steps', s' := HoardOnce(n, steps1, s1, a, b);
      forall u: nat | s.peers[a].currTerm < u < s'.peers[a].currTerm ensures Waiting(s', a, b, u) {
        assert Waiting(s1, a, b, u);
      }
    }
  }

  // a counts the grants for terms from lo to lo + k, and wins with the last.
  lemma {:induction false} CashIn(n: nat, steps: seq<Step>, s: State, a: nat, b: nat, lo: nat, k: nat)
    returns (steps': seq<Step>, s': State)
    requires Leads(n, steps, s, Careless) && a < n && s.peers[a].role == Candidate
    requires k >= 1 && s.peers[a].voteCount + k == n / 2 + 1
    requires Hoarded(s, a, b, lo, k)
    ensures Leads(n, steps', s', Careless) && s'.asked == s.asked && s'.wins == s.wins + {Win(a, s.peers[a].currTerm)}
    ensures forall i :: 0 <= i < n && i != a ==> s'.peers[i] == s.peers[i]
    ensures forall id :: id in s.asks && id.cand != a ==> id in s'.asks && s'.asks[id] == s.asks[id]
    decreases k
  {
    assert Waiting(s, a, b, lo + 1);
    steps', s' := Counted(n, steps, s, Careless, AskId(a, b, lo + 1));
    if k > 1 {
      forall t: nat | lo + 1 < t <= lo + k ensures Waiting(s', a, b, t) { assert Waiting(s, a, b, t); }
      assert Hoarded(s', a, b, lo + 1, k - 1);
      steps', s' := CashIn(n, steps', s', a, b, lo + 1, k - 1);
    }
  }

  // a's grants from b for the terms from lo to lo + k are on their way.
  ghost predicate Hoarded(s: State, a: nat, b: nat, lo: nat, k: nat) {
    forall t: nat :: lo < t <= lo + k ==> Waiting(s, a, b, t)
  }

  lemma StillHoarded(s: State, s': State, a: nat, b: nat, lo: nat, k: nat)
    requires Hoarded(s, a, b, lo, k)
    requires forall id :: id in s.asks && id.cand == a && id.election <= lo + k ==> id in s'.asks && s'.asks[id] == s.asks[id]
    ensures Hoarded(s', a, b, lo, k)
  {
    forall t: nat | lo < t <= lo + k ensures Waiting(s', a, b, t) { assert Waiting(s, a, b, t); }
  }

  // Two peers hoard each other's grants.
  lemma BothHoard(n: nat) returns (steps: seq<Step>, s: State)
    requires n >= 2
    ensures var h := n / 2;
            && Leads(n, steps, s, Careless) && s.wins == s.asked == {}
            && s.peers[0].currTerm == s.peers[1].currTerm == 2 * h
            && s.peers[0].role != Leader && s.peers[1].role != Leader
            && Hoarded(s, 0, 1, 0, h) && Hoarded(s, 1, 0, h, h)
  {
    var h, s0 := n / 2, Init(n);
    assert Leads(n, [], s0, Careless);
    var steps1, s1 := Hoard(n, [], s0, 0, 1, h);
    assert Hoarded(s1, 0, 1, 0, h);
    steps, s := Hoard(n, steps1, s1, 1, 0, h);
    StillHoarded(s1, s, 0, 1, 0, h);
  }

  // And stand in the same term.
  lemma BothStand(n: nat) returns (steps: seq<Step>, s: State)
    requires n >= 2
    ensures var h := n / 2;
            && Leads(n, steps, s, Careless) && s.wins == s.asked == {}
            && s.peers[0] == Peer(2 * h + 1, Some(0), Candidate, 1)
            && s.peers[1] == Peer(2 * h + 1, Some(1), Candidate, 1)
            && Hoarded(s, 0, 1, 0, h) && Hoarded(s, 1, 0, h, h)
  {
    var h := n / 2;
    var steps0, s0 := BothHoard(n);
    var steps1, s1 := Stands(n, steps0, s0, Careless, 0);
    StillHoarded(s0, s1, 0, 1, 0, h);
    StillHoarded(s0, s1, 1, 0, h, h);
    steps, s := Stands(n, steps1, s1, Careless, 1);
    StillHoarded(s1, s, 0, 1, 0, h);
    StillHoarded(s1, s, 1, 0, h, h);
  }

  // And count them.
  lemma OldGrantsCounted(n: nat) returns (steps: seq<Step>)
    requires n >= 2
    ensures Run(n, steps).Some? && Run(n, steps).value.asked == {} && !OneLeader(Run(n, steps).value)
  {
    var h := n / 2;
    var steps0, s0 := BothStand(n);
    var steps1, s1 := CashIn(n, steps0, s0, 0, 1, 0, h);
    StillHoarded(s0, s1, 1, 0, h, h);
    var s;
    steps, s := CashIn(n, steps1, s1, 1, 0, h, h);
    TwoLeaders(s, 0, 1, 2 * h + 1);
  }

  // ----- counting by term: every number of peers from four

  // The request of the election of term t is still to be sent.
  predicate Unsent(s: State, a: nat, b: nat, t: nat) {
    AskId(a, b, t) in s.asks && s.asks[AskId(a, b, t)] == Spawned
  }

  lemma {:induction false} StandsAgain(n: nat, steps: seq<Step>, s: State, a: nat, b: nat, k: nat)
    returns (steps': seq<Step>, s': State)
    requires Leads(n, steps, s, SameTerm) && a < n && b < n && a != b && s.peers[a] == FRESH && k >= 1
    ensures Leads(n, steps', s', SameTerm) && s'.wins == s.wins && s'.asked == s.asked
    ensures s'.peers == s.peers[a := Peer(k, Some(a), Candidate, 1)]
    ensures forall t: nat :: 0 < t <= k ==> Unsent(s', a, b, t)
  {
    steps', s' := steps, s;
    if k > 1 { steps', s' := StandsAgain(n, steps, s, a, b, k - 1); }
    var s1 := s';
    steps', s' := Stands(n, steps', s1, SameTerm, a);
    forall t: nat | 0 < t <= k ensures Unsent(s', a, b, t) {
      assert AskId(a, b, k) in NewAsks(n, a, k);
      if t < k { assert Unsent(s1, a, b, t); assert AskId(a, b, t) !in NewAsks(n, a, k); }
    }
  }

  // The requests of the elections from lo to lo + k are sent in the present
  // term, so that b's one vote is counted k times.
  lemma {:induction false} CountsAgain(n: nat, steps: seq<Step>, s: State, a: nat, b: nat, lo: nat, k: nat)
    returns (steps': seq<Step>, s': State)
    requires Leads(n, steps, s, SameTerm) && a < n && b < n && a != b && s.peers[a].role == Candidate
    requires k >= 1 && s.peers[a].voteCount + k == n / 2 + 1 && Win(b, s.peers[a].currTerm) !in s.wins
    requires forall t: nat :: lo < t <= lo + k ==> Unsent(s, a, b, t)
    requires s.peers[b].currTerm < s.peers[a].currTerm ||
             (s.peers[b].currTerm == s.peers[a].currTerm && s.peers[b].voteFor == Some(a))
    ensures Leads(n, steps', s', SameTerm) && s'.asked == s.asked && s'.wins == s.wins + {Win(a, s.peers[a].currTerm)}
    ensures forall i :: 0 <= i < n && i != a && i != b ==> s'.peers[i] == s.peers[i]
    decreases k
  {
    assert Unsent(s, a, b, lo + 1);
    steps', s' := Ballot(n, steps, s, SameTerm, AskId(a, b, lo + 1));
    if k > 1 {
      forall t: nat | lo + 1 < t <= lo + k ensures Unsent(s', a, b, t) { assert Unsent(s, a, b, t); }
      steps', s' := CountsAgain(n, steps', s', a, b, lo + 1, k - 1);
    }
  }

  // a leads term n / 2 by b's vote alone.
  lemma LeadsByOneVote(n: nat, steps: seq<Step>, s: State, a: nat, b: nat) returns (steps': seq<Step>, s': State)
    requires Leads(n, steps, s, SameTerm) && n >= 2 && a < n && b < n && a != b
    requires s.peers[a] == s.peers[b] == FRESH && s.asked == {} && Win(b, n / 2) !in s.wins
    ensures Leads(n, steps', s', SameTerm) && s'.asked == {} && s'.wins == s.wins + {Win(a, n / 2)}
    ensures forall i :: 0 <= i < n && i != a && i != b ==> s'.peers[i] == s.peers[i]
  {
    var s1;
    steps', s1 := StandsAgain(n, steps, s, a, b, n / 2);
    steps', s' := CountsAgain(n, steps', s1, a, b, 0, n / 2);
  }

  lemma TermReadLate(n: nat) returns (steps: seq<Step>)
    requires n >= 4
    ensures Run(n, steps).Some? && Careful(n, steps, SameTerm) && Run(n, steps).value.asked == {}
    ensures !OneLeader(Run(n, steps).value)
  {
    var s := Init(n);
    assert Leads(n, [], s, SameTerm);
    steps, s := LeadsByOneVote(n, [], s, 0, 1);
    steps, s := LeadsByOneVote(n, steps, s, 2, 3);
    TwoLeaders(s, 0, 2, n / 2);
  }
}
