/** Leader election among any number of peers: every vote request and heartbeat
    is its own thread of control, delayed or lost at will. */
module Election {
  import opened Sets
  import opened Options
  import opened Raft

  // The request a candidate's election of some term makes of a voter.
  datatype AskId = AskId(cand: nat, voter: nat, election: nat)

  // The term is read when the request is sent, not when it is created. counted
  // says that a grant was counted while the sender was a candidate.
  datatype Ask =
    | Spawned
    | Sent(term: nat)
    | Answered(term: nat, reply: VoteReply)
    | Finished(counted: bool)

  datatype Beat =
    | NewBeat(from: nat, to: nat)
    | SentBeat(from: nat, to: nat, term: nat)
    | AnsweredBeat(from: nat, to: nat, reply: BeatReply)
    | OldBeat

  datatype Win = Win(peer: nat, term: nat)

  datatype Grant = Grant(voter: nat, term: nat, cand: nat)

  // wins and grants record what has happened; asked holds the wins whose
  // winner was asked for its vote again in the term it won.
  datatype State = State(peers: seq<Peer>, asks: map<AskId, Ask>, beats: seq<Beat>,
                         wins: set<Win>, grants: set<Grant>, asked: set<Win>)

  datatype Step =
    | Timeout(i: nat)
    | Send(id: AskId)
    | Vote(id: AskId)
    | Count(id: AskId)
    | Lose(id: AskId)
    | SpawnBeat(i: nat, to: nat)
    | SendBeat(k: nat)
    | Receive(k: nat)
    | Acknowledge(k: nat)
    | LoseBeat(k: nat)

  function Init(n: nat): State {
    State(seq(n, _ => FRESH), map[], [], {}, {}, {})
  }

  // A peer that has ever led may still start heartbeats, since the thread that
  // starts them runs on.
  predicate Enabled(s: State, step: Step) {
    match step
    case Timeout(i) => i < |s.peers| && s.peers[i].role != Leader
    case Send(id) => id in s.asks && id.cand < |s.peers| && s.asks[id].Spawned?
    case Vote(id) => id in s.asks && id.voter < |s.peers| && s.asks[id].Sent?
    case Count(id) => id in s.asks && id.cand < |s.peers| && s.asks[id].Answered?
    case Lose(id) => id in s.asks && !s.asks[id].Finished?
    case SpawnBeat(i, to) => i < |s.peers| && to < |s.peers| && exists w :: w in s.wins && w.peer == i
    case SendBeat(k) => k < |s.beats| && s.beats[k].NewBeat? && s.beats[k].from < |s.peers|
    case Receive(k) => k < |s.beats| && s.beats[k].SentBeat? && s.beats[k].to < |s.peers|
    case Acknowledge(k) => k < |s.beats| && s.beats[k].AnsweredBeat? && s.beats[k].from < |s.peers|
    case LoseBeat(k) => k < |s.beats|
  }

  function NewAsks(n: nat, i: nat, election: nat): map<AskId, Ask> {
    map v: nat | v < n && v != i :: AskId(i, v, election) := Spawned
  }

  function Next(s: State, step: Step): State
    requires Enabled(s, step)
  {
    match step
    case Timeout(i) =>
      var p := StartElection(s.peers[i], i);
      s.(peers := s.peers[i := p],
         asks := s.asks + NewAsks(|s.peers|, i, p.currTerm),
         grants := s.grants + {Grant(i, p.currTerm, i)})
    case Send(id) => s.(asks := s.asks[id := Sent(s.peers[id.cand].currTerm)])
    case Vote(id) =>
      var t := s.asks[id].term;
      var (p, reply) := OnAsk(s.peers[id.voter], t, id.cand);
      s.(peers := s.peers[id.voter := p],
         asks := s.asks[id := Answered(t, reply)],
         grants := if reply.granted then s.grants + {Grant(id.voter, t, id.cand)} else s.grants,
         asked := if AsksWinner(s, id) then s.asked + {Win(id.voter, t)} else s.asked)
    case Count(id) =>
      var p := s.peers[id.cand];
      var reply := s.asks[id].reply;
      var q := OnVote(p, |s.peers|, reply);
      s.(peers := s.peers[id.cand := q],
         asks := s.asks[id := Finished(reply.granted && p.role == Candidate)],
         wins := if q.role == Leader && p.role != Leader then s.wins + {Win(id.cand, q.currTerm)} else s.wins)
    case Lose(id) => s.(asks := s.asks[id := Finished(false)])
    case SpawnBeat(i, to) => s.(beats := s.beats + [NewBeat(i, to)])
    case SendBeat(k) =>
      var b := s.beats[k];
      s.(beats := s.beats[k := SentBeat(b.from, b.to, s.peers[b.from].currTerm)])
    case Receive(k) =>
      var b := s.beats[k];
      var (p, reply) := OnBeat(s.peers[b.to], b.term);
      s.(peers := s.peers[b.to := p], beats := s.beats[k := AnsweredBeat(b.from, b.to, reply)])
    case Acknowledge(k) =>
      var b := s.beats[k];
      s.(peers := s.peers[b.from := OnBeatReply(s.peers[b.from], b.reply)], beats := s.beats[k := OldBeat])
    case LoseBeat(k) => s.(beats := s.beats[k := OldBeat])
  }

  // A vote request reaches, in its term, the server that has won that term.
  predicate AsksWinner(s: State, id: AskId) {
    && id in s.asks && s.asks[id].Sent? && id.voter < |s.peers|
    && s.asks[id].term == s.peers[id.voter].currTerm
    && Win(id.voter, s.asks[id].term) in s.wins
  }

  // A candidate counts a grant that is not for the election it is holding.
  predicate CountsStale(s: State, id: AskId) {
    && id in s.asks && s.asks[id].Answered? && id.cand < |s.peers|
    && s.asks[id].reply.granted && s.peers[id.cand].role == Candidate
    && !(id.election == s.asks[id].term == s.peers[id.cand].currTerm)
  }

  // A candidate counts a grant of another term than its own.
  predicate CountsOld(s: State, id: AskId) {
    && id in s.asks && s.asks[id].Answered? && id.cand < |s.peers|
    && s.asks[id].reply.granted && s.peers[id.cand].role == Candidate
    && s.asks[id].term != s.peers[id.cand].currTerm
  }

  function Run(n: nat, steps: seq<Step>): Option<State> {
    if steps == [] then Some(Init(n))
    else
      var before := Run(n, steps[..|steps| - 1]);
      var step := steps[|steps| - 1];
      if before.Some? && Enabled(before.value, step) then Some(Next(before.value, step)) else None
  }

  // ----- terms

  lemma TermsGrow(s: State, step: Step, i: nat)
    requires Enabled(s, step) && i < |s.peers|
    ensures |Next(s, step).peers| == |s.peers| && s.peers[i].currTerm <= Next(s, step).peers[i].currTerm
  {
  }

  lemma {:induction false} TermsNeverDecrease(n: nat, steps: seq<Step>, m: nat, i: nat)
    requires Run(n, steps).Some? && m <= |steps| && i < n
    ensures Run(n, steps[..m]).Some? && |Run(n, steps[..m]).value.peers| == |Run(n, steps).value.peers| == n
    ensures Run(n, steps[..m]).value.peers[i].currTerm <= Run(n, steps).value.peers[i].currTerm
  {
    if m == |steps| {
      assert steps[..m] == steps;
      if m > 0 {
        TermsNeverDecrease(n, steps[..m - 1], m - 1, i);
        assert steps[..m - 1][..m - 1] == steps[..m - 1];
        TermsGrow(Run(n, steps[..m - 1]).value, steps[m - 1], i);
      }
    } else {
      var shorter := steps[..|steps| - 1];
      TermsNeverDecrease(n, shorter, m, i);
      assert shorter[..m] == steps[..m];
      TermsGrow(Run(n, shorter).value, steps[|steps| - 1], i);
    }
  }

  // ----- votes

  ghost predicate PeerOk(s: State, i: nat)
    requires i < |s.peers|
  {
    var p := s.peers[i];
    && (p.role == Candidate ==> Grant(i, p.currTerm, i) in s.grants && Win(i, p.currTerm) !in s.wins)
    && (Win(i, p.currTerm) in s.wins ==> p.voteFor == None || Win(i, p.currTerm) in s.asked)
  }

  ghost predicate GrantOk(s: State, g: Grant) {
    && g.voter < |s.peers| && g.cand < |s.peers| && g.term <= s.peers[g.voter].currTerm
    && (g.term == s.peers[g.voter].currTerm && Win(g.voter, g.term) !in s.wins ==>
          s.peers[g.voter].voteFor == Some(g.cand))
  }

  // The winner's own vote, and another.
  ghost predicate VotedTwice(s: State, v: nat, t: nat) {
    exists c, d :: c != d && Grant(v, t, c) in s.grants && Grant(v, t, d) in s.grants
  }

  ghost predicate WinOk(s: State, w: Win) {
    w.peer < |s.peers| && w.term <= s.peers[w.peer].currTerm && Grant(w.peer, w.term, w.peer) in s.grants
  }

  ghost predicate Votes(s: State) {
    && (forall i :: 0 <= i < |s.peers| ==> PeerOk(s, i))
    && (forall g :: g in s.grants ==> GrantOk(s, g))
    && (forall w :: w in s.wins ==> WinOk(s, w))
    && s.asked <= s.wins
    && (forall v, t :: VotedTwice(s, v, t) <==> Win(v, t) in s.asked)
    && (forall id :: id in s.asks ==> id.cand < |s.peers| && id.voter < |s.peers| && id.cand != id.voter
                                      && id.election <= s.peers[id.cand].currTerm)
  }

  // Steps that only change peer i, and neither grant a vote nor win.
  lemma Moves(s: State, s': State, i: nat)
    requires Votes(s) && i < |s.peers| && |s'.peers| == |s.peers|
    requires forall j :: 0 <= j < |s.peers| && j != i ==> s'.peers[j] == s.peers[j]
    requires s'.grants == s.grants && s'.wins == s.wins && s'.asked == s.asked && s'.asks.Keys == s.asks.Keys
    requires var p, q := s.peers[i], s'.peers[i];
             && p.currTerm <= q.currTerm
             && (q.currTerm == p.currTerm ==> q.voteFor == p.voteFor)
             && (q.role == Candidate ==> p.role == Candidate && q.currTerm == p.currTerm)
    ensures Votes(s')
  {
    forall j | 0 <= j < |s'.peers| ensures PeerOk(s', j) {
      assert PeerOk(s, j);
      assert Win(i, s'.peers[i].currTerm) in s.wins ==> WinOk(s, Win(i, s'.peers[i].currTerm));
    }
    forall g | g in s'.grants ensures GrantOk(s', g) { assert GrantOk(s, g); }
    forall w | w in s'.wins ensures WinOk(s', w) { assert WinOk(s, w); }
    forall v, t ensures VotedTwice(s', v, t) <==> Win(v, t) in s'.asked {
      assert VotedTwice(s', v, t) <==> VotedTwice(s, v, t);
    }
  }

  lemma TimeoutVotes(s: State, i: nat)
    requires Votes(s) && Enabled(s, Timeout(i))
    ensures Votes(Next(s, Timeout(i)))
  {
    var s' := Next(s, Timeout(i));
    var t := s'.peers[i].currTerm;
    assert Win(i, t) in s.wins ==> WinOk(s, Win(i, t));
    forall j | 0 <= j < |s'.peers| ensures PeerOk(s', j) { assert PeerOk(s, j); }
    forall g | g in s'.grants ensures GrantOk(s', g) { if g in s.grants { assert GrantOk(s, g); } }
    forall w | w in s'.wins ensures WinOk(s', w) { assert WinOk(s, w); }
    assert forall c :: Grant(i, t, c) in s.grants ==> GrantOk(s, Grant(i, t, c));
    NewGrant(s, s', Grant(i, t, i));
  }

  // A grant in a term in which the voter has granted nobody else.
  lemma NewGrant(s: State, s': State, g: Grant)
    requires Votes(s) && s'.grants == s.grants + {g} && s'.asked == s.asked
    requires forall c :: Grant(g.voter, g.term, c) in s.grants ==> c == g.cand
    ensures forall v, t :: VotedTwice(s', v, t) <==> Win(v, t) in s'.asked
  {
    forall v, t ensures VotedTwice(s', v, t) <==> VotedTwice(s, v, t) {
      if VotedTwice(s', v, t) {
        var c, d :| c != d && Grant(v, t, c) in s'.grants && Grant(v, t, d) in s'.grants;
        assert Grant(v, t, c) in s.grants && Grant(v, t, d) in s.grants;
      }
    }
  }

  // A request that reaches the winner of its term: with its own vote cleared,
  // the winner votes again.
  lemma SecondVote(s: State, id: AskId)
    requires Votes(s) && Enabled(s, Vote(id)) && AsksWinner(s, id)
    ensures var s' := Next(s, Vote(id)); forall v, t :: VotedTwice(s', v, t) <==> Win(v, t) in s'.asked
  {
    var s' := Next(s, Vote(id));
    var w := Win(id.voter, s.asks[id].term);
    assert WinOk(s, w) && PeerOk(s, id.voter);
    forall v, t ensures VotedTwice(s', v, t) <==> Win(v, t) in s'.asked {
      if Win(v, t) == w {
        if w in s.asked {
          assert VotedTwice(s, v, t);
          var c, d :| c != d && Grant(v, t, c) in s.grants && Grant(v, t, d) in s.grants;
          assert Grant(v, t, c) in s'.grants && Grant(v, t, d) in s'.grants;
        } else {
          assert Grant(v, t, v) in s'.grants && Grant(v, t, id.cand) in s'.grants;
        }
      } else {
        assert VotedTwice(s', v, t) <==> VotedTwice(s, v, t);
      }
    }
  }

  lemma VoteVotes(s: State, id: AskId)
    requires Votes(s) && Enabled(s, Vote(id))
    ensures Votes(Next(s, Vote(id)))
  {
    var s' := Next(s, Vote(id));
    var v, t := id.voter, s.asks[id].term;
    assert PeerOk(s, v);
    assert forall c :: Grant(v, t, c) in s.grants ==> GrantOk(s, Grant(v, t, c));
    assert Win(v, t) in s.wins ==> WinOk(s, Win(v, t));
    forall j | 0 <= j < |s'.peers| ensures PeerOk(s', j) { assert PeerOk(s, j); }
    forall g | g in s'.grants ensures GrantOk(s', g) { if g in s.grants { assert GrantOk(s, g); } }
    forall w | w in s'.wins ensures WinOk(s', w) { assert WinOk(s, w); }
    if AsksWinner(s, id) {
      SecondVote(s, id);
    } else if s'.asks[id].reply.granted {
      NewGrant(s, s', Grant(v, t, id.cand));
    } else {
      assert forall u, r :: VotedTwice(s', u, r) <==> VotedTwice(s, u, r);
    }
  }

  lemma CountVotes(s: State, id: AskId)
    requires Votes(s) && Enabled(s, Count(id))
    ensures Votes(Next(s, Count(id)))
  {
    var s' := Next(s, Count(id));
    var i := id.cand;
    if s'.wins == s.wins && s'.peers[i].role != Leader {
      Moves(s, s', i);
    } else {
      forall j | 0 <= j < |s'.peers| ensures PeerOk(s', j) { assert PeerOk(s, j); }
      forall g | g in s'.grants ensures GrantOk(s', g) { assert GrantOk(s, g); }
      forall w | w in s'.wins ensures WinOk(s', w) {
        if w in s.wins { assert WinOk(s, w); } else { assert PeerOk(s, i); }
      }
      assert forall v, t :: VotedTwice(s', v, t) <==> VotedTwice(s, v, t);
    }
  }

  lemma PreservesVotes(s: State, step: Step)
    requires Votes(s) && Enabled(s, step)
    ensures Votes(Next(s, step))
  {
    match step {
      case Timeout(i) => TimeoutVotes(s, i);
      case Vote(id) => VoteVotes(s, id);
      case Count(id) => CountVotes(s, id);
      case Receive(k) => Moves(s, Next(s, step), s.beats[k].to);
      case Acknowledge(k) => Moves(s, Next(s, step), s.beats[k].from);
      case _ => if s.peers != [] { Moves(s, Next(s, step), 0); }
    }
  }

  lemma {:induction false} VotesHold(n: nat, steps: seq<Step>)
    requires Run(n, steps).Some?
    ensures Votes(Run(n, steps).value) && |Run(n, steps).value.peers| == n
  {
    if steps == [] {
      assert forall v, t :: !VotedTwice(Init(n), v, t);
    } else {
      VotesHold(n, steps[..|steps| - 1]);
      PreservesVotes(Run(n, steps[..|steps| - 1]).value, steps[|steps| - 1]);
    }
  }

  // A server votes for two candidates in one term exactly when it has won that
  // term and is then asked for its vote in it again.
  lemma OneVotePerTerm(n: nat, steps: seq<Step>, v: nat, t: nat)
    requires Run(n, steps).Some?
    ensures var s := Run(n, steps).value;
            && (VotedTwice(s, v, t) <==> Win(v, t) in s.asked)
            && (Win(v, t) !in s.wins ==>
                  forall c, d :: Grant(v, t, c) in s.grants && Grant(v, t, d) in s.grants ==> c == d)
  {
    VotesHold(n, steps);
    var s := Run(n, steps).value;
    assert VotedTwice(s, v, t) <==> Win(v, t) in s.asked;
  }

  // ----- counting

  function Backers(s: State, i: nat, t: nat): set<nat> {
    set v: nat | v < |s.peers| && (v == i || Backs(s, v, i, t))
  }

  predicate Backs(s: State, v: nat, i: nat, t: nat) {
    AskId(i, v, t) in s.asks && s.asks[AskId(i, v, t)] == Finished(true)
  }

  // Answers are true to the votes, and candidates' counts to the answers.
  ghost predicate Counts(s: State) {
    && (forall id :: id in s.asks && s.asks[id].Answered? && s.asks[id].reply.granted ==>
          Grant(id.voter, s.asks[id].term, id.cand) in s.grants)
    && (forall id :: id in s.asks && s.asks[id] == Finished(true) ==>
          Grant(id.voter, id.election, id.cand) in s.grants)
    && (forall i :: 0 <= i < |s.peers| && s.peers[i].role == Candidate ==>
          s.peers[i].voteCount == |Backers(s, i, s.peers[i].currTerm)|)
    && (forall i :: 0 <= i < |s.peers| && s.peers[i].role == Candidate && |s.peers| >= 2 ==>
          s.peers[i].voteCount <= |s.peers| / 2)
    && (forall id :: id in s.asks && (s.asks[id].Sent? || s.asks[id].Answered?) && id.cand < |s.peers| ==>
          id.election <= s.asks[id].term <= s.peers[id.cand].currTerm)
    && (forall w :: w in s.wins ==> |Backers(s, w.peer, w.term)| > |s.peers| / 2)
  }

  // Steps that make no new backers.
  lemma SameBackers(s: State, s': State)
    requires Counts(s) && |s'.peers| == |s.peers| && s.asks.Keys <= s'.asks.Keys && s.grants <= s'.grants
    requires s'.wins == s.wins
    requires forall id :: id in s'.asks && s'.asks[id] == Finished(true) ==> id in s.asks && s.asks[id] == Finished(true)
    requires forall id :: id in s.asks && s.asks[id] == Finished(true) ==> s'.asks[id] == Finished(true)
    requires forall id :: id in s'.asks && s'.asks[id].Answered? && s'.asks[id].reply.granted ==>
               (id in s.asks && s'.asks[id] == s.asks[id]) || Grant(id.voter, s'.asks[id].term, id.cand) in s'.grants
    requires forall i :: 0 <= i < |s.peers| && s'.peers[i].role == Candidate ==>
               && s'.peers[i].voteCount == |Backers(s, i, s'.peers[i].currTerm)|
               && (|s.peers| >= 2 ==> s'.peers[i].voteCount <= |s.peers| / 2)
    requires forall id :: id in s'.asks && (s'.asks[id].Sent? || s'.asks[id].Answered?) && id.cand < |s.peers| ==>
               id.election <= s'.asks[id].term <= s'.peers[id.cand].currTerm
    ensures Counts(s')
  {
    forall i: nat, t: nat ensures Backers(s', i, t) == Backers(s, i, t) {}
  }

  lemma TimeoutCounts(s: State, i: nat)
    requires Votes(s) && Counts(s) && Enabled(s, Timeout(i))
    ensures Counts(Next(s, Timeout(i)))
  {
    var s' := Next(s, Timeout(i));
    var t := s'.peers[i].currTerm;
    var fresh_ := NewAsks(|s.peers|, i, t);
    assert forall id :: id in fresh_ ==> id.cand == i && id.election == t && id !in s.asks;
    assert Backers(s, i, t) == {i};
    SameBackers(s, s');
  }

  // A counted grant adds its voter to the candidate's backers, and to no others.
  lemma NewBacker(s: State, id: AskId, j: nat, u: nat)
    requires Votes(s) && Enabled(s, Count(id)) && Next(s, Count(id)).asks[id] == Finished(true)
    ensures id.voter !in Backers(s, id.cand, id.election)
    ensures Backers(Next(s, Count(id)), j, u) ==
              Backers(s, j, u) + if j == id.cand && u == id.election then {id.voter} else {}
  {
    var s' := Next(s, Count(id));
    assert id == AskId(id.cand, id.voter, id.election);
    forall x | x in Backers(s', j, u) && x !in Backers(s, j, u)
      ensures j == id.cand && u == id.election && x == id.voter
    {
      assert AskId(j, x, u) == id;
    }
    if j == id.cand && u == id.election { assert Backs(s', id.voter, j, u); }
  }

  lemma CountedTally(s: State, id: AskId, j: nat)
    requires Votes(s) && Counts(s) && Enabled(s, Count(id)) && !CountsStale(s, id)
    requires Next(s, Count(id)).asks[id] == Finished(true)
    requires j < |s.peers| && Next(s, Count(id)).peers[j].role == Candidate
    ensures var s' := Next(s, Count(id));
            && s'.peers[j].voteCount == |Backers(s', j, s'.peers[j].currTerm)|
            && (|s'.peers| >= 2 ==> s'.peers[j].voteCount <= |s'.peers| / 2)
  {
    NewBacker(s, id, j, Next(s, Count(id)).peers[j].currTerm);
  }

  lemma CountedWin(s: State, id: AskId, w: Win)
    requires Votes(s) && Counts(s) && Enabled(s, Count(id)) && !CountsStale(s, id)
    requires Next(s, Count(id)).asks[id] == Finished(true) && w in Next(s, Count(id)).wins
    ensures |Backers(Next(s, Count(id)), w.peer, w.term)| > |s.peers| / 2
  {
    NewBacker(s, id, w.peer, w.term);
    Smaller(Backers(s, w.peer, w.term), Backers(Next(s, Count(id)), w.peer, w.term));
  }

  lemma CountedCounts(s: State, id: AskId)
    requires Votes(s) && Counts(s) && Enabled(s, Count(id)) && !CountsStale(s, id)
    requires Next(s, Count(id)).asks[id] == Finished(true)
    ensures Counts(Next(s, Count(id)))
  {
    var s' := Next(s, Count(id));
    forall j | 0 <= j < |s'.peers| && s'.peers[j].role == Candidate
      ensures s'.peers[j].voteCount == |Backers(s', j, s'.peers[j].currTerm)|
      ensures |s'.peers| >= 2 ==> s'.peers[j].voteCount <= |s'.peers| / 2
    {
      CountedTally(s, id, j);
    }
    forall w | w in s'.wins ensures |Backers(s', w.peer, w.term)| > |s'.peers| / 2 { CountedWin(s, id, w); }
    assert s'.grants == s.grants && s'.peers[id.cand].currTerm == s.peers[id.cand].currTerm;
  }

  // A stale grant leaves the candidate with one more vote than it has backers.
  lemma StaleMiscounts(s: State, id: AskId)
    requires Votes(s) && Counts(s) && Enabled(s, Count(id)) && CountsStale(s, id)
    ensures !Counts(Next(s, Count(id)))
  {
    var s' := Next(s, Count(id));
    var i, t := id.cand, s.peers[id.cand].currTerm;
    NewBacker(s, id, i, t);
    if s'.peers[i].role == Leader { assert Win(i, t) in s'.wins; }
  }

  // The candidates' counts stay right exactly when no stale grant is counted.
  lemma CountCounts(s: State, id: AskId)
    requires Votes(s) && Counts(s) && Enabled(s, Count(id))
    ensures Counts(Next(s, Count(id))) <==> !CountsStale(s, id)
  {
    if CountsStale(s, id) {
      StaleMiscounts(s, id);
    } else if Next(s, Count(id)).asks[id] == Finished(true) {
      CountedCounts(s, id);
    } else {
      SameBackers(s, Next(s, Count(id)));
    }
  }

  lemma AskCounts(s: State, step: Step)
    requires Votes(s) && Counts(s) && Enabled(s, step) && (step.Send? || step.Lose?)
    ensures Counts(Next(s, step))
  {
    SameBackers(s, Next(s, step));
  }

  lemma VoteCounts(s: State, id: AskId)
    requires Votes(s) && Counts(s) && Enabled(s, Vote(id))
    ensures Counts(Next(s, Vote(id)))
  {
    var s' := Next(s, Vote(id));
    assert forall i :: 0 <= i < |s.peers| && i != id.voter ==> s'.peers[i] == s.peers[i];
    SameBackers(s, s');
  }

  lemma BeatCounts(s: State, step: Step)
    requires Votes(s) && Counts(s) && Enabled(s, step)
    requires step.SpawnBeat? || step.SendBeat? || step.Receive? || step.Acknowledge? || step.LoseBeat?
    ensures Counts(Next(s, step))
  {
    var s' := Next(s, step);
    assert s'.asks == s.asks && s'.grants == s.grants && s'.wins == s.wins && |s'.peers| == |s.peers|;
    assert forall i :: 0 <= i < |s.peers| ==> s.peers[i].currTerm <= s'.peers[i].currTerm;
    assert forall i :: 0 <= i < |s.peers| && s'.peers[i].role == Candidate ==> s'.peers[i] == s.peers[i];
    SameBackers(s, s');
  }

  lemma PreservesCounts(s: State, step: Step)
    requires Votes(s) && Counts(s) && Enabled(s, step)
    requires step.Count? ==> !CountsStale(s, step.id)
    ensures Counts(Next(s, step))
  {
    match step {
      case Timeout(i) => TimeoutCounts(s, i);
      case Count(id) => CountCounts(s, id);
      case Vote(id) => VoteCounts(s, id);
      case Send(_) => AskCounts(s, step);
      case Lose(_) => AskCounts(s, step);
      case _ => BeatCounts(s, step);
    }
  }

  // How much care candidates take in counting: none, as written; grants of
  // their current term; or grants for the very election they are holding.
  datatype Care = Careless | SameTerm | SameElection

  predicate Miscounts(s: State, id: AskId, care: Care) {
    match care
    case Careless => false
    case SameTerm => CountsOld(s, id)
    case SameElection => CountsStale(s, id)
  }

  ghost predicate Careful(n: nat, steps: seq<Step>, care: Care) {
    care == Careless || forall m :: 0 <= m < |steps| && steps[m].Count? && Run(n, steps[..m]).Some? ==>
      !Miscounts(Run(n, steps[..m]).value, steps[m].id, care)
  }

  lemma {:induction false} CountsHold(n: nat, steps: seq<Step>)
    requires Run(n, steps).Some? && Careful(n, steps, SameElection)
    ensures Counts(Run(n, steps).value)
  {
    if steps != [] {
      var shorter := steps[..|steps| - 1];
      assert forall m :: 0 <= m < |shorter| ==> shorter[..m] == steps[..m];
      CountsHold(n, shorter);
      VotesHold(n, shorter);
      PreservesCounts(Run(n, shorter).value, steps[|steps| - 1]);
    }
  }

  // Two majorities share a member.
  lemma Majorities(a: set<nat>, b: set<nat>, n: nat) returns (v: nat)
    requires |a| > n / 2 && |b| > n / 2
    requires forall x :: x in a + b ==> x < n
    ensures v in a && v in b
  {
    if a * b == {} {
      assert |a + b| == |a| + |b|;
      Below(a + b, n);
    }
    v :| v in a * b;
  }

  lemma {:induction false} Below(a: set<nat>, n: nat)
    requires forall x :: x in a ==> x < n
    ensures |a| <= n
  {
    if n > 0 {
      Below(a - {n - 1}, n - 1);
    } else if x :| x in a {
      assert false;
    }
  }

  // Two winners of one term share a backer, and it is a winner that was asked again.
  lemma TwoWinners(n: nat, steps: seq<Step>, i: nat, j: nat, t: nat)
    requires Run(n, steps).Some? && Careful(n, steps, SameElection)
    requires Win(i, t) in Run(n, steps).value.wins && Win(j, t) in Run(n, steps).value.wins && i != j
    ensures exists v :: Win(v, t) in Run(n, steps).value.asked
  {
    var s := Run(n, steps).value;
    VotesHold(n, steps);
    CountsHold(n, steps);
    var v := Majorities(Backers(s, i, t), Backers(s, j, t), n);
    assert WinOk(s, Win(i, t)) && WinOk(s, Win(j, t));
    assert Grant(v, t, i) in s.grants && Grant(v, t, j) in s.grants;
    assert VotedTwice(s, v, t);
  }

  // No two leaders in one term, as long as candidates count only grants for
  // the election they hold and no winner of the term is asked for its vote in it.
  lemma ElectionSafety(n: nat, steps: seq<Step>, i: nat, j: nat, t: nat)
    requires Run(n, steps).Some? && Careful(n, steps, SameElection)
    requires forall v :: Win(v, t) !in Run(n, steps).value.asked
    requires Win(i, t) in Run(n, steps).value.wins && Win(j, t) in Run(n, steps).value.wins
    ensures i == j
  {
    if i != j { TwoWinners(n, steps, i, j, t); }
  }
}
