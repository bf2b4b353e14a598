/** One Raft peer's election state and its handlers, as written: what is
    compared, what is cleared and what is not. */
module Raft {
  import opened Options

  datatype Role = Follower | Candidate | Leader

  // voteFor is None where the original has -1.
  datatype Peer = Peer(currTerm: nat, voteFor: Option<nat>, role: Role, voteCount: nat)

  datatype VoteReply = VoteReply(term: nat, granted: bool)

  datatype BeatReply = BeatReply(term: nat, success: bool)

  const FRESH := Peer(0, None, Follower, 0)

  function StepDown(term: nat): Peer { Peer(term, None, Follower, 0) }

  // RequestVote, at the voter.
  function OnAsk(p: Peer, term: nat, candidate: nat): (r: (Peer, VoteReply))
    ensures p.currTerm <= r.0.currTerm && r.1.term == r.0.currTerm
    ensures r.1.granted ==> r.0.currTerm == term && r.0.voteFor == Some(candidate)
    ensures term == p.currTerm && p.voteFor.Some? ==> r.0 == p && (r.1.granted <==> p.voteFor == Some(candidate))
    ensures term < p.currTerm ==> r.0 == p && !r.1.granted
    ensures term > p.currTerm ==> r == (Peer(term, Some(candidate), Follower, 0), VoteReply(term, true))
    ensures term == p.currTerm && p.voteFor.None? ==>
              r.1.granted && r.0.role == p.role && r.0.voteCount == p.voteCount
  {
    if term < p.currTerm then (p, VoteReply(p.currTerm, false))
    else
      var q := if term > p.currTerm then StepDown(term) else p;
      if q.voteFor.None? || q.voteFor == Some(candidate)
      then (q.(voteFor := Some(candidate)), VoteReply(term, true))
      else (q, VoteReply(term, false))
  }

  // The rest of sendRequestVote, at the candidate: a grant is counted without
  // looking at terms.
  function OnVote(p: Peer, n: nat, reply: VoteReply): (q: Peer)
    ensures p.currTerm <= q.currTerm
    ensures q.role == Leader && p.role != Leader ==>
              p.role == Candidate && reply.granted && p.voteCount + 1 > n / 2 && q.currTerm == p.currTerm
    ensures reply.granted && p.role == Candidate && p.voteCount + 1 > n / 2 ==> q == Peer(p.currTerm, None, Leader, 0)
    ensures reply.granted && !(p.role == Candidate && p.voteCount + 1 > n / 2) ==>
              q.role == p.role && q.currTerm == p.currTerm && q.voteFor == p.voteFor && q.voteCount == p.voteCount + 1
    ensures !reply.granted ==> (q != p <==> reply.term > p.currTerm)
    ensures !reply.granted && q != p ==> q == Peer(reply.term, None, Follower, 0)
  {
    if reply.granted then
      var q := p.(voteCount := p.voteCount + 1);
      if q.role == Candidate && q.voteCount > n / 2 then BecomeLeader(q) else q
    else if reply.term > p.currTerm then StepDown(reply.term)
    else p
  }

  // A new leader forgets its own vote.
  function BecomeLeader(p: Peer): Peer { p.(role := Leader, voteCount := 0, voteFor := None) }

  // AppendEntries, at the receiver: raises the term and keeps the vote.
  function OnBeat(p: Peer, term: nat): (r: (Peer, BeatReply))
    ensures p.currTerm <= r.0.currTerm == r.1.term && r.0.voteFor == p.voteFor
    ensures r.1.success <==> term >= p.currTerm
    ensures if r.1.success then r.0.currTerm == term && r.0.role == Follower && r.0.voteCount == 0 else r.0 == p
  {
    if term < p.currTerm then (p, BeatReply(p.currTerm, false))
    else (Peer(term, p.voteFor, Follower, 0), BeatReply(term, true))
  }

  // The rest of sendAppendEntries, at the sender.
  function OnBeatReply(p: Peer, reply: BeatReply): (q: Peer)
    ensures p.currTerm <= q.currTerm
    ensures q != p <==> !reply.success && reply.term > p.currTerm
    ensures q != p ==> q == Peer(reply.term, None, Follower, 0)
  {
    if !reply.success && reply.term > p.currTerm then StepDown(reply.term) else p
  }

  // A candidate of the next term, with its own vote.
  function StartElection(p: Peer, me: nat): (q: Peer)
    ensures q.currTerm == p.currTerm + 1 && q.role == Candidate && q.voteFor == Some(me) && q.voteCount == 1
  {
    Peer(p.currTerm + 1, Some(me), Candidate, 1)
  }

  /** The peer object, whose handlers update its fields in place. */
  class Server {
    const me: nat
    const peers: nat
    var currTerm: nat
    var voteFor: int
    var role: Role
    var voteCount: nat

    ghost predicate Valid()
      reads this
    {
      voteFor >= -1
    }

    ghost function View(): Peer
      reads this
    {
      Peer(currTerm, if voteFor < 0 then None else Some(voteFor), role, voteCount)
    }

    constructor (me: nat, peers: nat)
      ensures Valid() && View() == FRESH && this.me == me && this.peers == peers
    {
      this.me, this.peers := me, peers;
      currTerm, voteFor, role, voteCount := 0, -1, Follower, 0;
    }

    method RequestVote(term: nat, candidate: nat) returns (reply: VoteReply)
      requires Valid()
      modifies this
      ensures Valid() && (View(), reply) == OnAsk(old(View()), term, candidate)
    {
      if term < currTerm {
        return VoteReply(currTerm, false);
      }
      if term > currTerm {
        currTerm := term;
        role := Follower;
        voteFor := -1;
        voteCount := 0;
      }
      if voteFor == -1 || voteFor == candidate {
        voteFor := candidate;
        return VoteReply(currTerm, true);
      }
      return VoteReply(currTerm, false);
    }

    method CountVote(reply: VoteReply)
      requires Valid()
      modifies this
      ensures Valid() && View() == OnVote(old(View()), peers, reply)
    {
      if reply.granted {
        voteCount := voteCount + 1;
        if role == Follower {
          return;
        }
        if role == Candidate && voteCount > peers / 2 {
          role, voteCount, voteFor := Leader, 0, -1;
        }
      } else if reply.term > currTerm {
        currTerm, role, voteCount, voteFor := reply.term, Follower, 0, -1;
      }
    }

    method AppendEntries(term: nat) returns (reply: BeatReply)
      requires Valid()
      modifies this
      ensures Valid() && (View(), reply) == OnBeat(old(View()), term)
    {
      if term < currTerm {
        return BeatReply(currTerm, false);
      }
      currTerm, role, voteCount := term, Follower, 0;
      return BeatReply(currTerm, true);
    }

    method BeatAnswered(reply: BeatReply)
      requires Valid()
      modifies this
      ensures Valid() && View() == OnBeatReply(old(View()), reply)
    {
      if !reply.success && reply.term > currTerm {
        currTerm, role, voteCount, voteFor := reply.term, Follower, 0, -1;
      }
    }

    // The election timer fires.
    method Timeout() returns (started: bool)
      requires Valid()
      modifies this
      ensures Valid() && started == (old(role) != Leader)
      ensures View() == if started then StartElection(old(View()), me) else old(View())
    {
      started := role != Leader;
      if started {
        currTerm := currTerm + 1;
        voteFor := me;
        voteCount := 1;
        role := Candidate;
      }
    }
  }
}
