/** What a call answers, for every way its attempts can be lost: the answers of the
    clerk that are promised, and runs in which the uncertain one comes about. */
module Outcomes {
  import opened Options
  import opened Kv
  import opened Calls
  import opened ClerkLoops

  // Attempts that end without an answer: dropped before the server, or
  // executed with the reply lost.
  datatype Fate = Dropped | ReplyLost

  function Tries(lost: seq<Fate>): seq<Event> {
    if lost == [] then []
    else Tries(lost[..|lost| - 1]) + Try(lost[|lost| - 1])
  }

  function Try(fate: Fate): seq<Event> { if fate.Dropped? then [Net(Drop)] else [Net(Execute), Net(Lose)] }

  const ANSWERED: seq<Event> := [Net(Execute), Net(Deliver)]

  lemma Two(s: Store<string>, p: Progress<string>, x: Event, y: Event)
    ensures var (s1, p1) := Follow(s, p, [x]);
            Follow(s, p, [x, y]) == One(s1, p1, y) && (s1, p1) == One(s, p, x)
  {
    assert [x, y][..1] == [x] && [x][..0] == [];
  }

  lemma OneTry(s: Store<string>, a: PutArgs<string>, first: bool, fate: Fate)
    ensures Follow(s, Running(PutCall(a, first, None)), Try(fate)) ==
            (if fate.Dropped? then s else HandlePut(s, a).0, Running(PutCall(a, false, None)))
  {
    if fate.Dropped? {
      assert Try(fate)[..0] == [];
    } else {
      Two(s, Running(PutCall(a, first, None)), Net(Execute), Net(Lose));
    }
  }

  // Executing again changes nothing.
  lemma Twice(s: Store<string>, a: PutArgs<string>)
    requires Versioned(s)
    ensures HandlePut(HandlePut(s, a).0, a).0 == HandlePut(s, a).0
  {
  }

  lemma {:induction false} AfterTries(s: Store<string>, a: PutArgs<string>, lost: seq<Fate>)
    requires Versioned(s)
    ensures Follow(s, Running(PutCall(a, true, None)), Tries(lost)) ==
            (if ReplyLost in lost then HandlePut(s, a).0 else s, Running(PutCall(a, lost == [], None)))
  {
    if lost != [] {
      var shorter, last := lost[..|lost| - 1], lost[|lost| - 1];
      assert ReplyLost in lost <==> ReplyLost in shorter || last == ReplyLost by { assert lost == shorter + [last]; }
      AfterTries(s, a, shorter);
      FollowConcat(s, Running(PutCall(a, true, None)), Tries(shorter), Try(last));
      OneTry(if ReplyLost in shorter then HandlePut(s, a).0 else s, a, shorter == [], last);
      Twice(s, a);
    }
  }

  // A Put changes the store as its one execution would, however many there are.
  // It answers OK or ErrMaybe if it named the version, by whether a reply to an
  // execution was lost; and otherwise ErrVersion or ErrMaybe, by whether any
  // attempt was.
  lemma PutOutcome(s: Store<string>, key: string, value: string, version: nat, lost: seq<Fate>)
    requires Versioned(s)
    ensures var (s', p) := Follow(s, Running(StartPut(key, value, version)), Tries(lost) + ANSWERED);
            && p.Returned? && p.out.PutOut?
            && (version == Version(s, key) ==>
                  && p.out.err == (if ReplyLost in lost then ErrMaybe else OK)
                  && s' == s[key := Entry(value, version + 1)])
            && (version != Version(s, key) ==>
                  && s' == s
                  && p.out.err == if key !in s then ErrNoKey else if lost == [] then ErrVersion else ErrMaybe)
  {
    var a := PutArgs(key, value, version);
    AfterTries(s, a, lost);
    var (s1, p1) := Follow(s, Running(PutCall(a, true, None)), Tries(lost));
    FollowConcat(s, Running(PutCall(a, true, None)), Tries(lost), ANSWERED);
    Two(s1, p1, Net(Execute), Net(Deliver));
    assert ANSWERED == [Net(Execute), Net(Deliver)];
  }

  lemma {:induction false} GetTries(s: Store<string>, key: string, lost: seq<Fate>)
    ensures Follow(s, Running(StartGet(key)), Tries(lost)) == (s, Running(StartGet(key)))
  {
    if lost != [] {
      var shorter, last := lost[..|lost| - 1], lost[|lost| - 1];
      GetTries(s, key, shorter);
      FollowConcat(s, Running(StartGet(key)), Tries(shorter), Try(last));
      if last.Dropped? {
        assert Try(last)[..0] == [];
      } else {
        Two(s, Running(StartGet(key)), Net(Execute), Net(Lose));
      }
    }
  }

  lemma GetOutcome(s: Store<string>, key: string, lost: seq<Fate>)
    ensures Follow(s, Running(StartGet(key)), Tries(lost) + ANSWERED) == (s, Returned(GetOut(HandleGet(s, key))))
  {
    GetTries(s, key, lost);
    FollowConcat(s, Running(StartGet(key)), Tries(lost), ANSWERED);
    Two(s, Running(StartGet(key)), Net(Execute), Net(Deliver));
    assert ANSWERED == [Net(Execute), Net(Deliver)];
  }

  // If another Put on the same version executes before the answered attempt, the
  // answer is ErrMaybe either way; whose value is there depends on who was first.
  lemma BeatenOutcome(s: Store<string>, a: PutArgs<string>, other: PutArgs<string>, lost: seq<Fate>)
    requires Versioned(s) && a.version == other.version == Version(s, a.key) && other.key == a.key && lost != []
    ensures Follow(s, Running(StartPut(a.key, a.value, a.version)), Tries(lost) + [Other(other)] + ANSWERED) ==
            (s[a.key := Entry(if ReplyLost in lost then a.value else other.value, a.version + 1)],
             Returned(PutOut(ErrMaybe)))
  {
    var start := Running(PutCall(a, true, None));
    AfterTries(s, a, lost);
    var (s1, p1) := Follow(s, start, Tries(lost));
    FollowConcat(s, start, Tries(lost), [Other(other)]);
    assert [Other(other)][..0] == [];
    var (s2, p2) := One(s1, p1, Other(other));
    FollowConcat(s, start, Tries(lost) + [Other(other)], ANSWERED);
    Two(s2, p2, Net(Execute), Net(Deliver));
    assert ANSWERED == [Net(Execute), Net(Deliver)];
  }
}
