/** Assignments of shards to groups: loads, balance, and what a greedy
    rebalancing guarantees about the shards that move. */
module Shards {
  import opened Sets

  type Gid = int

  function Owned(s: seq<Gid>, g: Gid): set<nat> { set i: nat | i < |s| && s[i] == g }

  function Load(s: seq<Gid>, g: Gid): nat { |Owned(s, g)| }

  ghost predicate Live(s: seq<Gid>, groups: set<Gid>) {
    forall i :: 0 <= i < |s| ==> s[i] in groups
  }

  ghost predicate Balanced(s: seq<Gid>, groups: set<Gid>) {
    forall g, h :: g in groups && h in groups ==> Load(s, g) <= Load(s, h) + 1
  }

  function Moved(s0: seq<Gid>, s: seq<Gid>): set<nat> {
    set i: nat | i < |s0| && i < |s| && s0[i] != s[i]
  }

  // How a greedy rebalancing from s0 to s moves shards: only to live groups,
  // never both out of and into the same group, and so that no group that
  // gained ends heavier than a group that lost.
  ghost predicate Greedy(s0: seq<Gid>, s: seq<Gid>, groups: set<Gid>) {
    && |s0| == |s|
    && (forall i :: i in Moved(s0, s) ==> s[i] in groups)
    && (forall i, j :: i in Moved(s0, s) && j in Moved(s0, s) && s0[j] in groups ==>
          s[i] != s0[j] && Load(s, s[i]) <= Load(s, s0[j]))
  }

  // ----- sizes

  lemma LoadSnoc(s: seq<Gid>, x: Gid, g: Gid)
    ensures Load(s + [x], g) == Load(s, g) + if x == g then 1 else 0
  {
    assert Owned(s + [x], g) == Owned(s, g) + if x == g then {|s|} else {};
  }

  lemma {:induction false} LoadAtMost(s: seq<Gid>, g: Gid)
    ensures Load(s, g) <= |s|
  {
    if s == [] {
      assert Owned(s, g) == {};
    } else {
      assert s == s[..|s| - 1] + [s[|s| - 1]];
      LoadSnoc(s[..|s| - 1], s[|s| - 1], g);
      LoadAtMost(s[..|s| - 1], g);
    }
  }

  lemma LoadMove(s: seq<Gid>, k: nat, h: Gid, g: Gid)
    requires k < |s| && s[k] != h
    ensures Load(s[k := h], g) == Load(s, g) + (if g == h then 1 else 0) - (if g == s[k] then 1 else 0)
  {
    if g == h {
      assert Owned(s[k := h], g) == Owned(s, g) + {k};
    } else if g == s[k] {
      assert Owned(s[k := h], g) == Owned(s, g) - {k};
    } else {
      assert Owned(s[k := h], g) == Owned(s, g);
    }
  }

  // ----- the sum of squared loads, which every move lowers

  function Square(n: nat): nat { n * n }

  function Energy(s: seq<Gid>, order: seq<Gid>): nat {
    if order == [] then 0
    else Energy(s, order[..|order| - 1]) + Square(Load(s, order[|order| - 1]))
  }

  ghost predicate Lists(order: seq<Gid>, groups: set<Gid>) {
    && (forall p, q :: 0 <= p < q < |order| ==> order[p] != order[q])
    && (forall g :: g in order <==> g in groups)
  }

  lemma {:induction false} SomeOrder(groups: set<Gid>) returns (order: seq<Gid>)
    ensures Lists(order, groups)
  {
    if g :| g in groups {
      order := SomeOrder(groups - {g});
      order := order + [g];
    } else {
      order := [];
    }
  }

  // What changes when loads change at two groups only.
  lemma {:induction false} EnergyMove(s: seq<Gid>, s': seq<Gid>, order: seq<Gid>, a: Gid, b: Gid)
    requires a != b && forall p, q :: 0 <= p < q < |order| ==> order[p] != order[q]
    requires forall g :: g != a && g != b ==> Load(s', g) == Load(s, g)
    ensures Energy(s', order) - Energy(s, order) ==
              (if a in order then Square(Load(s', a)) - Square(Load(s, a)) else 0) +
              (if b in order then Square(Load(s', b)) - Square(Load(s, b)) else 0)
  {
    if order != [] {
      var init := order[..|order| - 1];
      EnergyMove(s, s', init, a, b);
      assert order == init + [order[|order| - 1]];
    }
  }

  lemma SquaresFall(a: nat, b: nat)
    requires a >= b + 2
    ensures Square(a - 1) + Square(b + 1) < Square(a) + Square(b)
  {
    assert Square(a - 1) == Square(a) - 2 * a + 1;
    assert Square(b + 1) == Square(b) + 2 * b + 1;
  }

  lemma EnergyFalls(s: seq<Gid>, order: seq<Gid>, k: nat, h: Gid)
    requires forall p, q :: 0 <= p < q < |order| ==> order[p] != order[q]
    requires k < |s| && s[k] in order && h in order && Load(s, s[k]) >= Load(s, h) + 2
    ensures Energy(s[k := h], order) < Energy(s, order)
  {
    forall g ensures Load(s[k := h], g) == Load(s, g) + (if g == h then 1 else 0) - (if g == s[k] then 1 else 0) {
      LoadMove(s, k, h, g);
    }
    EnergyMove(s, s[k := h], order, s[k], h);
    SquaresFall(Load(s, s[k]), Load(s, h));
  }

  // ----- what the rebalancing loops keep

  // A group that gained is within one of every group from below, a group that
  // lost is within one of every group from above.
  ghost predicate Settling(s0: seq<Gid>, s: seq<Gid>, groups: set<Gid>) {
    && Greedy(s0, s, groups)
    && (forall i, g :: i in Moved(s0, s) && g in groups ==> Load(s, s[i]) <= Load(s, g) + 1)
    && (forall j, g :: j in Moved(s0, s) && s0[j] in groups && g in groups ==> Load(s, g) <= Load(s, s0[j]) + 1)
  }

  // The orphan pass: shard k's group is gone, and it goes to a least loaded one.
  lemma AdoptSettles(s0: seq<Gid>, s: seq<Gid>, groups: set<Gid>, k: nat, h: Gid)
    requires Settling(s0, s, groups) && k < |s| && s[k] == s0[k] && s[k] !in groups && h in groups
    requires forall g :: g in groups ==> Load(s, h) <= Load(s, g)
    requires forall j :: j in Moved(s0, s) ==> s0[j] !in groups
    ensures Settling(s0, s[k := h], groups)
    ensures forall j :: j in Moved(s0, s[k := h]) ==> s0[j] !in groups
  {
    var s' := s[k := h];
    assert Moved(s0, s') == Moved(s0, s) + {k};
    forall i, g | i in Moved(s0, s') && g in groups ensures Load(s', s'[i]) <= Load(s', g) + 1 {
      LoadMove(s, k, h, s'[i]);
      LoadMove(s, k, h, g);
      assert i == k || (i in Moved(s0, s) && s'[i] == s[i]);
    }
  }

  // The moving pass: a shard goes from a most loaded group to a least loaded one.
  ghost predicate Downhill(s: seq<Gid>, groups: set<Gid>, k: nat, h: Gid) {
    && k < |s| && s[k] in groups && h in groups && Load(s, s[k]) >= Load(s, h) + 2
    && (forall g :: g in groups ==> Load(s, h) <= Load(s, g) <= Load(s, s[k]))
  }

  // It is the shard's first move, out of a group that never gained and into
  // one that never lost.
  lemma FirstMove(s0: seq<Gid>, s: seq<Gid>, groups: set<Gid>, k: nat, h: Gid)
    requires Settling(s0, s, groups) && Downhill(s, groups, k, h)
    ensures s0[k] == s[k] && Moved(s0, s[k := h]) == Moved(s0, s) + {k}
    ensures forall i :: i in Moved(s0, s) ==> s[i] != s[k]
    ensures forall j :: j in Moved(s0, s) && s0[j] in groups ==> s0[j] != h
  {
    assert k !in Moved(s0, s);
  }

  lemma MoveKeeps(s0: seq<Gid>, s: seq<Gid>, groups: set<Gid>, k: nat, h: Gid, i: nat, j: nat)
    requires Settling(s0, s, groups) && Downhill(s, groups, k, h)
    requires i in Moved(s0, s[k := h]) && j in Moved(s0, s[k := h]) && s0[j] in groups
    ensures s[k := h][i] != s0[j] && Load(s[k := h], s[k := h][i]) <= Load(s[k := h], s0[j])
  {
    FirstMove(s0, s, groups, k, h);
    LoadMove(s, k, h, s[k := h][i]);
    LoadMove(s, k, h, s0[j]);
    assert i == k || Load(s, s[i]) <= Load(s, h) + 1;
    assert j == k || Load(s, s[k]) <= Load(s, s0[j]) + 1;
  }

  lemma GainerStaysLow(s0: seq<Gid>, s: seq<Gid>, groups: set<Gid>, k: nat, h: Gid, i: nat, g: Gid)
    requires Settling(s0, s, groups) && Downhill(s, groups, k, h) && i in Moved(s0, s[k := h]) && g in groups
    ensures Load(s[k := h], s[k := h][i]) <= Load(s[k := h], g) + 1
  {
    FirstMove(s0, s, groups, k, h);
    LoadMove(s, k, h, s[k := h][i]);
    LoadMove(s, k, h, g);
    assert i == k || (Load(s, s[i]) <= Load(s, g) + 1 && Load(s, s[i]) <= Load(s, h) + 1);
  }

  lemma LoserStaysHigh(s0: seq<Gid>, s: seq<Gid>, groups: set<Gid>, k: nat, h: Gid, j: nat, g: Gid)
    requires Settling(s0, s, groups) && Downhill(s, groups, k, h) && g in groups
    requires j in Moved(s0, s[k := h]) && s0[j] in groups
    ensures Load(s[k := h], g) <= Load(s[k := h], s0[j]) + 1
  {
    FirstMove(s0, s, groups, k, h);
    LoadMove(s, k, h, s0[j]);
    LoadMove(s, k, h, g);
    assert j == k || (Load(s, g) <= Load(s, s0[j]) + 1 && Load(s, s[k]) <= Load(s, s0[j]) + 1);
  }

  lemma MoveSettles(s0: seq<Gid>, s: seq<Gid>, groups: set<Gid>, k: nat, h: Gid)
    requires Settling(s0, s, groups) && Downhill(s, groups, k, h)
    ensures Settling(s0, s[k := h], groups)
  {
    var s' := s[k := h];
    FirstMove(s0, s, groups, k, h);
    forall i, j | i in Moved(s0, s') && j in Moved(s0, s') && s0[j] in groups
      ensures s'[i] != s0[j] && Load(s', s'[i]) <= Load(s', s0[j])
    {
      MoveKeeps(s0, s, groups, k, h, i, j);
    }
    forall i, g | i in Moved(s0, s') && g in groups ensures Load(s', s'[i]) <= Load(s', g) + 1 {
      GainerStaysLow(s0, s, groups, k, h, i, g);
    }
    forall j, g | j in Moved(s0, s') && s0[j] in groups && g in groups ensures Load(s', g) <= Load(s', s0[j]) + 1 {
      LoserStaysHigh(s0, s, groups, k, h, j, g);
    }
  }

  // ----- consequences

  lemma Gains(s0: seq<Gid>, s: seq<Gid>, groups: set<Gid>, i: nat)
    requires Greedy(s0, s, groups) && i in Moved(s0, s)
    ensures Owned(s0, s[i]) <= Owned(s, s[i]) && Load(s0, s[i]) < Load(s, s[i])
  {
    forall j | j in Owned(s0, s[i]) ensures j in Owned(s, s[i]) {
      assert s[j] == s0[j] || j in Moved(s0, s);
    }
    Smaller(Owned(s0, s[i]) + {i}, Owned(s, s[i]));
  }

  lemma Loses(s0: seq<Gid>, s: seq<Gid>, groups: set<Gid>, j: nat)
    requires Greedy(s0, s, groups) && j in Moved(s0, s) && s0[j] in groups
    ensures Owned(s, s0[j]) <= Owned(s0, s0[j]) && Load(s, s0[j]) < Load(s0, s0[j])
  {
    forall i | i in Owned(s, s0[j]) ensures i in Owned(s0, s0[j]) {
      assert s[i] == s0[i] || i in Moved(s0, s);
    }
    Smaller(Owned(s, s0[j]) + {j}, Owned(s0, s0[j]));
  }

  // A shard leaves a live group only for one that was lighter by two or more.
  lemma MovesDownhill(s0: seq<Gid>, s: seq<Gid>, groups: set<Gid>, i: nat)
    requires Greedy(s0, s, groups) && i in Moved(s0, s) && s0[i] in groups
    ensures Load(s0, s[i]) + 2 <= Load(s0, s0[i])
  {
    Gains(s0, s, groups, i);
    Loses(s0, s, groups, i);
  }

  // Joining: shards move only from old groups to new ones.
  lemma JoinMoves(s0: seq<Gid>, s: seq<Gid>, old_: set<Gid>, groups: set<Gid>, i: nat)
    requires Live(s0, old_) && Balanced(s0, old_) && old_ <= groups && Greedy(s0, s, groups)
    requires i in Moved(s0, s)
    ensures s0[i] in old_ && s[i] in groups - old_
  {
    MovesDownhill(s0, s, groups, i);
  }

  // Leaving: exactly the shards of the groups that left move.
  lemma LeaveMoves(s0: seq<Gid>, s: seq<Gid>, old_: set<Gid>, groups: set<Gid>)
    requires Live(s0, old_) && Balanced(s0, old_) && groups <= old_ && Greedy(s0, s, groups) && Live(s, groups)
    ensures Moved(s0, s) == set i: nat | i < |s0| && s0[i] !in groups
  {
    forall i | i in Moved(s0, s) ensures s0[i] !in groups {
      if s0[i] in groups { MovesDownhill(s0, s, groups, i); }
    }
  }

  // ----- counting by groups

  function Fiber(a: set<nat>, s: seq<Gid>, g: Gid): set<nat> { set i | i in a && i < |s| && s[i] == g }

  lemma {:induction false} ByFibers(a: set<nat>, s: seq<Gid>, b: set<nat>, t: seq<Gid>)
    requires forall i :: i in a ==> i < |s|
    requires forall g :: |Fiber(a, s, g)| <= |Fiber(b, t, g)|
    ensures |a| <= |b|
  {
    if i :| i in a {
      var g := s[i];
      var fa, fb := Fiber(a, s, g), Fiber(b, t, g);
      forall h ensures |Fiber(a - fa, s, h)| <= |Fiber(b - fb, t, h)| {
        if h == g {
          assert Fiber(a - fa, s, h) == {};
        } else {
          assert Fiber(a - fa, s, h) == Fiber(a, s, h) && Fiber(b - fb, t, h) == Fiber(b, t, h);
        }
      }
      assert i in fa;
      ByFibers(a - fa, s, b - fb, t);
      assert a == (a - fa) + fa && b == (b - fb) + fb;
    }
  }

  lemma Difference(a: set<nat>, b: set<nat>)
    ensures |a - b| >= |a| - |b|
    ensures b <= a ==> |a - b| == |a| - |b|
  {
    Smaller(a * b, b);
    assert a == (a - b) + (a * b);
    assert b <= a ==> a * b == b;
  }

  // If the groups that lost are no lighter in s than in t, then s moves no
  // more shards out of any group than t does.
  lemma FewerDepartures(s0: seq<Gid>, s: seq<Gid>, t: seq<Gid>, groups: set<Gid>)
    requires Greedy(s0, s, groups) && |t| == |s0| && Live(t, groups)
    requires forall j :: j in Moved(s0, s) && s0[j] in groups ==> Load(t, s0[j]) <= Load(s, s0[j])
    ensures |Moved(s0, s)| <= |Moved(s0, t)|
  {
    forall g ensures |Fiber(Moved(s0, s), s0, g)| <= |Fiber(Moved(s0, t), s0, g)| {
      if g !in groups {
        Smaller(Fiber(Moved(s0, s), s0, g), Fiber(Moved(s0, t), s0, g));
      } else if j :| j in Fiber(Moved(s0, s), s0, g) {
        Loses(s0, s, groups, j);
        assert Fiber(Moved(s0, s), s0, g) == Owned(s0, g) - Owned(s, g);
        assert Fiber(Moved(s0, t), s0, g) == Owned(s0, g) - Owned(t, g);
        Difference(Owned(s0, g), Owned(s, g));
        Difference(Owned(s0, g), Owned(t, g));
      }
    }
    ByFibers(Moved(s0, s), s0, Moved(s0, t), s0);
  }

  // If the groups that gained are no heavier in s than in t, then s moves no
  // more shards into any group than t does.
  lemma FewerArrivals(s0: seq<Gid>, s: seq<Gid>, t: seq<Gid>, groups: set<Gid>)
    requires Greedy(s0, s, groups) && |t| == |s0|
    requires forall i :: i in Moved(s0, s) ==> Load(s, s[i]) <= Load(t, s[i])
    ensures |Moved(s0, s)| <= |Moved(s0, t)|
  {
    forall g ensures |Fiber(Moved(s0, s), s, g)| <= |Fiber(Moved(s0, t), t, g)| {
      if i :| i in Fiber(Moved(s0, s), s, g) {
        Gains(s0, s, groups, i);
        assert Fiber(Moved(s0, s), s, g) == Owned(s, g) - Owned(s0, g);
        assert Fiber(Moved(s0, t), t, g) == Owned(t, g) - Owned(s0, g);
        Difference(Owned(s, g), Owned(s0, g));
        Difference(Owned(t, g), Owned(s0, g));
      }
    }
    ByFibers(Moved(s0, s), s, Moved(s0, t), t);
  }

  // No balanced assignment to the same groups is reached by moving fewer shards.
  lemma MinimalMovement(s0: seq<Gid>, s: seq<Gid>, t: seq<Gid>, groups: set<Gid>)
    requires Greedy(s0, s, groups) && |t| == |s0| && Live(t, groups) && Balanced(t, groups)
    ensures |Moved(s0, s)| <= |Moved(s0, t)|
  {
    if forall j :: j in Moved(s0, s) && s0[j] in groups ==> Load(t, s0[j]) <= Load(s, s0[j]) {
      FewerDepartures(s0, s, t, groups);
    } else {
      var j :| j in Moved(s0, s) && s0[j] in groups && Load(t, s0[j]) > Load(s, s0[j]);
      forall i | i in Moved(s0, s) ensures Load(s, s[i]) <= Load(t, s[i]) {
        assert Load(s, s[i]) <= Load(s, s0[j]);
      }
      FewerArrivals(s0, s, t, groups);
    }
  }

  // With no more groups than shards, every group has a shard.
  lemma EveryGroupServes(s: seq<Gid>, groups: set<Gid>, g: Gid)
    requires Live(s, groups) && Balanced(s, groups) && |groups| <= |s| && g in groups
    ensures g in s
  {
    if g !in s {
      assert Owned(s, g) == {};
      Injected(s, Indices(|s|), groups - {g});
    }
  }

  function Indices(n: nat): (r: set<nat>)
    ensures |r| == n && forall i: nat :: i in r <==> i < n
  {
    if n == 0 then {} else Indices(n - 1) + {n - 1}
  }

  // Indices whose groups all carry at most one shard are no more than the groups.
  lemma {:induction false} Injected(s: seq<Gid>, a: set<nat>, groups: set<Gid>)
    requires forall i :: i in a ==> i < |s| && s[i] in groups && Load(s, s[i]) <= 1
    ensures |a| <= |groups|
  {
    if i :| i in a {
      forall j | j in a - {i} ensures s[j] in groups - {s[i]} {
        if s[j] == s[i] {
          Smaller({i, j}, Owned(s, s[i]));
        }
      }
      Injected(s, a - {i}, groups - {s[i]});
    }
  }

  // ----- which assignment it is

  // The least and the most loaded group, the smaller identifier among equals.
  ghost predicate Least(s: seq<Gid>, groups: set<Gid>, g: Gid) {
    g in groups && forall h :: h in groups ==> Load(s, g) < Load(s, h) || (Load(s, g) == Load(s, h) && g <= h)
  }

  ghost predicate Most(s: seq<Gid>, groups: set<Gid>, g: Gid) {
    g in groups && forall h :: h in groups ==> Load(s, h) < Load(s, g) || (Load(s, g) == Load(s, h) && g <= h)
  }

  ghost predicate First(s: seq<Gid>, g: Gid, k: nat) { k < |s| && s[k] == g && forall i :: 0 <= i < k ==> s[i] != g }

  ghost function LeastOf(s: seq<Gid>, groups: set<Gid>): Gid {
    if exists g :: Least(s, groups, g) then var g :| Least(s, groups, g); g else 0
  }

  ghost function MostOf(s: seq<Gid>, groups: set<Gid>): Gid {
    if exists g :: Most(s, groups, g) then var g :| Most(s, groups, g); g else 0
  }

  ghost function FirstOf(s: seq<Gid>, g: Gid): nat {
    if exists k: nat :: First(s, g, k) then var k: nat :| First(s, g, k); k else 0
  }

  // The orphans among the first k shards have been given away, one by one.
  ghost function Adopt(s: seq<Gid>, groups: set<Gid>, k: nat): (r: seq<Gid>)
    requires k <= |s|
    ensures |r| == |s|
  {
    if k == 0 then s else AdoptOnce(Adopt(s, groups, k - 1), groups, k - 1)
  }

  // Shard k, if it is an orphan, goes to the least loaded group.
  ghost function AdoptOnce(s: seq<Gid>, groups: set<Gid>, k: nat): (r: seq<Gid>)
    requires k < |s|
    ensures |r| == |s|
  {
    if s[k] in groups then s else s[k := LeastOf(s, groups)]
  }

  // n shards have been moved, each time the first of the most loaded group.
  ghost function Level(s: seq<Gid>, groups: set<Gid>, n: nat): (r: seq<Gid>)
    ensures |r| == |s|
  {
    if n == 0 then s
    else LevelOnce(Level(s, groups, n - 1), groups)
  }

  ghost function LevelOnce(s: seq<Gid>, groups: set<Gid>): (r: seq<Gid>)
    ensures |r| == |s|
  {
    var k := FirstOf(s, MostOf(s, groups));
    if k < |s| then s[k := LeastOf(s, groups)] else s
  }

  // n moves, and no fewer, make a balanced s of start.
  ghost predicate LevelsTo(start: seq<Gid>, s: seq<Gid>, groups: set<Gid>, n: nat) {
    && s == Level(start, groups, n) && Balanced(s, groups)
    && (forall m: nat :: m < n ==> !Balanced(Level(start, groups, m), groups))
  }

  // s is what giving away orphans and moving shards, until balanced, makes of s0.
  ghost predicate Leveled(s0: seq<Gid>, s: seq<Gid>, groups: set<Gid>) {
    exists n: nat :: LevelsTo(Adopt(s0, groups, |s0|), s, groups, n)
  }

  lemma LeastUnique(s: seq<Gid>, groups: set<Gid>, g: Gid)
    requires Least(s, groups, g)
    ensures LeastOf(s, groups) == g
  {
    var h := LeastOf(s, groups);
    assert Least(s, groups, h);
  }

  lemma MoveUnique(s: seq<Gid>, groups: set<Gid>, mg: Gid, lg: Gid, k: nat)
    requires Most(s, groups, mg) && Least(s, groups, lg) && First(s, mg, k)
    ensures LeastOf(s, groups) == lg && FirstOf(s, MostOf(s, groups)) == k
  {
    LeastUnique(s, groups, lg);
    var m := MostOf(s, groups);
    assert Most(s, groups, m) && m == mg;
    var i := FirstOf(s, mg);
    assert First(s, mg, i);
  }

  lemma {:induction false} LeastExists(s: seq<Gid>, groups: set<Gid>)
    requires groups != {}
    ensures Least(s, groups, LeastOf(s, groups))
    decreases groups
  {
    var g := Member(groups);
    if groups != {g} {
      LeastExists(s, groups - {g});
      var h := LeastOf(s, groups - {g});
      assert Least(s, groups, h) || Least(s, groups, g);
    } else {
      assert Least(s, groups, g);
    }
  }

  lemma {:induction false} MostExists(s: seq<Gid>, groups: set<Gid>)
    requires groups != {}
    ensures Most(s, groups, MostOf(s, groups))
    decreases groups
  {
    var g := Member(groups);
    if groups != {g} {
      MostExists(s, groups - {g});
      var h := MostOf(s, groups - {g});
      assert Most(s, groups, h) || Most(s, groups, g);
    } else {
      assert Most(s, groups, g);
    }
  }

  lemma {:induction false} FirstExists(s: seq<Gid>, g: Gid, i: nat)
    requires i < |s| && s[i] == g
    ensures First(s, g, FirstOf(s, g))
  {
    if k: nat :| k < i && s[k] == g {
      FirstExists(s, g, k);
    } else {
      assert First(s, g, i);
    }
  }

  // A move out of an unbalanced assignment goes from a most to a least loaded group.
  lemma MoveIsDownhill(s: seq<Gid>, groups: set<Gid>)
    requires groups != {} && !Balanced(s, groups)
    ensures var k := FirstOf(s, MostOf(s, groups)); First(s, MostOf(s, groups), k) && Downhill(s, groups, k, LeastOf(s, groups))
  {
    LeastExists(s, groups);
    MostExists(s, groups);
    var m := MostOf(s, groups);
    var g, h :| g in groups && h in groups && Load(s, g) > Load(s, h) + 1;
    assert Load(s, m) > 0;
    var i :| i in Owned(s, m);
    FirstExists(s, m, i);
  }

  lemma LevelNext(s0: seq<Gid>, s: seq<Gid>, groups: set<Gid>)
    requires groups != {} && Settling(s0, s, groups) && Live(s, groups) && !Balanced(s, groups)
    ensures Settling(s0, LevelOnce(s, groups), groups) && Live(LevelOnce(s, groups), groups)
  {
    MoveIsDownhill(s, groups);
    MoveSettles(s0, s, groups, FirstOf(s, MostOf(s, groups)), LeastOf(s, groups));
  }

  lemma {:induction false} LevelSettles(s0: seq<Gid>, start: seq<Gid>, groups: set<Gid>, n: nat)
    requires groups != {} && Settling(s0, start, groups) && Live(start, groups)
    requires forall m :: 0 <= m < n ==> !Balanced(Level(start, groups, m), groups)
    ensures Settling(s0, Level(start, groups, n), groups) && Live(Level(start, groups, n), groups)
  {
    if n > 0 {
      LevelSettles(s0, start, groups, n - 1);
      LevelNext(s0, Level(start, groups, n - 1), groups);
    }
  }

  // The first k shards are live and the rest as they were; only orphans moved.
  ghost predicate AdoptedTo(s0: seq<Gid>, s: seq<Gid>, groups: set<Gid>, k: nat) {
    && |s| == |s0| && Settling(s0, s, groups)
    && (forall i :: 0 <= i < k && i < |s| ==> s[i] in groups) && (forall i :: k <= i < |s0| ==> s[i] == s0[i])
    && (forall j :: j in Moved(s0, s) ==> s0[j] !in groups)
  }

  lemma AdoptNext(s0: seq<Gid>, s: seq<Gid>, groups: set<Gid>, k: nat, h: Gid)
    requires AdoptedTo(s0, s, groups, k) && k < |s0| && h in groups
    requires forall g :: g in groups ==> Load(s, h) <= Load(s, g)
    ensures AdoptedTo(s0, if s[k] in groups then s else s[k := h], groups, k + 1)
  {
    if s[k] !in groups { AdoptSettles(s0, s, groups, k, h); }
  }

  lemma NoneAdopted(s0: seq<Gid>, groups: set<Gid>)
    ensures AdoptedTo(s0, s0, groups, 0)
  {
    assert Moved(s0, s0) == {};
  }

  lemma AdoptLeast(s0: seq<Gid>, s: seq<Gid>, groups: set<Gid>, k: nat)
    requires groups != {} && AdoptedTo(s0, s, groups, k) && k < |s0|
    ensures AdoptedTo(s0, AdoptOnce(s, groups, k), groups, k + 1)
  {
    LeastExists(s, groups);
    AdoptNext(s0, s, groups, k, LeastOf(s, groups));
  }

  // Giving away the first k shards' orphans settles them, and moves nothing else.
  lemma {:induction false} AdoptedSettles(s0: seq<Gid>, groups: set<Gid>, k: nat)
    requires groups != {} && k <= |s0|
    ensures AdoptedTo(s0, Adopt(s0, groups, k), groups, k)
  {
    if k == 0 {
      NoneAdopted(s0, groups);
    } else {
      AdoptedSettles(s0, groups, k - 1);
      AdoptLeast(s0, Adopt(s0, groups, k - 1), groups, k - 1);
    }
  }

  // And that is live and greedy.
  lemma LeveledSettles(s0: seq<Gid>, s: seq<Gid>, groups: set<Gid>)
    requires groups != {} && Leveled(s0, s, groups)
    ensures |s| == |s0| && Live(s, groups) && Balanced(s, groups) && Greedy(s0, s, groups)
  {
    var start := Adopt(s0, groups, |s0|);
    var n: nat :| LevelsTo(start, s, groups, n);
    AdoptedSettles(s0, groups, |s0|);
    LevelSettles(s0, start, groups, n);
  }

  // The outcome is a function of the assignment and the groups.
  lemma LeveledUnique(s0: seq<Gid>, a: seq<Gid>, b: seq<Gid>, groups: set<Gid>)
    requires Leveled(s0, a, groups) && Leveled(s0, b, groups)
    ensures a == b
  {
    var n: nat :| LevelsTo(Adopt(s0, groups, |s0|), a, groups, n);
    var m: nat :| LevelsTo(Adopt(s0, groups, |s0|), b, groups, m);
    assert !(n < m) && !(m < n);
  }
}
