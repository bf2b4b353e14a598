/** The shard configuration object: Join and Leave change its groups, Rebalance
    its shard array, all in place. */
module ShardConfig {
  import opened Shards

  // Fatal is where the original ends the process.
  datatype Outcome = Changed | Refused | Fatal

  type Groups = map<Gid, seq<string>>

  ghost predicate Shares(a: seq<string>, b: seq<string>) {
    exists i, j :: 0 <= i < |a| && 0 <= j < |b| && a[i] == b[j]
  }

  // No server is in two groups.
  ghost predicate Apart(groups: Groups) {
    forall g, h :: g in groups && h in groups && g != h ==> !Shares(groups[g], groups[h])
  }

  // The joining groups are new, and share no server with any other group.
  ghost predicate JoinOk(groups: Groups, servers: Groups) {
    && servers != map[] && servers.Keys !! groups.Keys
    && (forall g, h :: g in servers && h in groups + servers && g != h ==>
          !Shares((groups + servers)[h], servers[g]))
  }

  // The leaving groups exist, and each is named once.
  ghost predicate LeaveOk(groups: Groups, gids: seq<Gid>) {
    && gids != []
    && (forall i :: 0 <= i < |gids| ==> gids[i] in groups)
    && (forall i, j :: 0 <= i < j < |gids| ==> gids[i] != gids[j])
  }

  function ToSet(gids: seq<Gid>): set<Gid> { set g | g in gids }

  // Leave goes no further than i: that group is unknown, or has just left.
  ghost predicate StopsAt(groups: Groups, gids: seq<Gid>, i: nat) {
    && i < |gids| && (gids[i] !in groups || gids[i] in gids[..i])
    && (i > 0 ==> LeaveOk(groups, gids[..i]))
  }

  // What a Leave does, by its answer.
  ghost predicate Left(groups: Groups, num: int, gids: seq<Gid>, r: Outcome, groups': Groups, num': int) {
    match r
    case Changed => LeaveOk(groups, gids) && groups' == groups - ToSet(gids) && num' == num + 1
    case Refused =>
      && num' == num
      && exists i: nat :: StopsAt(groups, gids, i) && groups' == groups - ToSet(gids[..i])
    case Fatal => gids == [] && groups' == groups && num' == num
  }

  // What a Join does, by its answer: it stops at a group that is there already,
  // or that shares a server with one that is.
  ghost predicate Joined(groups: Groups, num: int, servers: Groups, r: Outcome, groups': Groups, num': int) {
    match r
    case Changed => JoinOk(groups, servers) && groups' == groups + servers && num' == num + 1
    case Refused =>
      && num' == num
      && exists done: set<Gid>, g ::
           JoinedSoFar(groups, servers, done, groups') && g in servers && g !in done && g in groups
    case Fatal =>
      && num' == num
      && exists done: set<Gid> ::
           && JoinedSoFar(groups, servers, done, groups')
           && (servers == map[] || exists g, x ::
                 g in servers && g !in done && g !in groups && x in groups' && Shares(groups'[x], servers[g]))
  }

  // A rebalanced assignment, for the groups there are.
  ghost predicate Rebalanced(s0: seq<Gid>, s: seq<Gid>, groups: set<Gid>) {
    && |s| == |s0|
    && if groups == {} then forall i :: 0 <= i < |s| ==> s[i] == 0
       else Live(s, groups) && Balanced(s, groups) && Greedy(s0, s, groups) && Leveled(s0, s, groups)
  }

  function Tally(counts: map<Gid, nat>, g: Gid): nat { if g in counts then counts[g] else 0 }

  // Some element, as when ranging over a map.
  method Pick<T(==)>(s: set<T>) returns (x: T)
    requires s != {}
    ensures x in s
  {
    x :| x in s;
  }

  method Sorted(gids: set<Gid>) returns (r: seq<Gid>)
    ensures forall p, q :: 0 <= p < q < |r| ==> r[p] < r[q]
    ensures |r| == |gids| && forall g :: g in r <==> g in gids
  {
    r := [];
    var rest := gids;
    while rest != {}
      invariant forall p, q :: 0 <= p < q < |r| ==> r[p] < r[q]
      invariant forall g :: g in gids <==> g in r || g in rest
      invariant forall g :: g in r ==> g !in rest
      invariant |r| + |rest| == |gids|
    {
      var g := Pick(rest);
      var k := 0;
      while k < |r| && r[k] < g
        invariant k <= |r| && forall p :: 0 <= p < k ==> r[p] < g
      {
        k := k + 1;
      }
      assert forall p :: k <= p < |r| ==> g < r[p];
      r := r[..k] + [g] + r[k..];
      rest := rest - {g};
    }
  }

  class Config {
    var Num: int
    const Shards: array<Gid>
    var Groups: Groups

    constructor (n: nat)
      ensures Num == 0 && Groups == map[] && fresh(Shards) && Shards.Length == n
      ensures forall i :: 0 <= i < n ==> Shards[i] == 0
    {
      Num := 0;
      Shards := new Gid[n](_ => 0);
      Groups := map[];
    }

    method CountShards() returns (counts: map<Gid, nat>)
      ensures forall g :: Tally(counts, g) == Load(Shards[..], g)
    {
      counts := map[];
      for i := 0 to Shards.Length
        invariant forall g :: Tally(counts, g) == Load(Shards[..i], g)
      {
        assert Shards[..i + 1] == Shards[..i] + [Shards[i]];
        forall g ensures Load(Shards[..i + 1], g) == Load(Shards[..i], g) + if Shards[i] == g then 1 else 0 {
          LoadSnoc(Shards[..i], Shards[i], g);
        }
        ghost var before := counts;
        counts := counts[Shards[i] := Tally(counts, Shards[i]) + 1];
        assert forall g :: Tally(counts, g) == Tally(before, g) + if Shards[i] == g then 1 else 0;
      }
      assert Shards[..Shards.Length] == Shards[..];
    }

    // Most and least loaded group, the smaller identifier first; 257 stands
    // above any load.
    method Analyze() returns (mg: Gid, mn: int, lg: Gid, ln: int)
      requires Shards.Length <= 256
      ensures Groups == map[] ==> mg == -1 && mn == -1 && lg == -1 && ln == 257
      ensures Groups != map[] ==>
                && mg in Groups && lg in Groups && mn == Load(Shards[..], mg) && ln == Load(Shards[..], lg)
                && (forall g :: g in Groups ==> ln <= Load(Shards[..], g) <= mn)
                && (forall g :: g in Groups && Load(Shards[..], g) == mn ==> mg <= g)
                && (forall g :: g in Groups && Load(Shards[..], g) == ln ==> lg <= g)
    {
      var counts := CountShards();
      ghost var s := Shards[..];
      mg, mn, lg, ln := -1, -1, -1, 257;
      var groups := Sorted(Groups.Keys);
      for i := 0 to |groups|
        invariant Extremes(s, groups[..i], mg, mn, lg, ln)
      {
        var g := groups[i];
        LoadAtMost(s, g);
        ExtremesNext(s, groups[..i], mg, mn, lg, ln, g);
        assert groups[..i + 1] == groups[..i] + [g];
        if Tally(counts, g) < ln {
          ln, lg := Tally(counts, g), g;
        }
        if Tally(counts, g) > mn {
          mn, mg := Tally(counts, g), g;
        }
      }
      assert groups[..|groups|] == groups;
      assert |Groups| == |Groups.Keys|;
    }

    // Every shard of a group that is gone goes to a least loaded group.
    method AdoptOrphans()
      requires Shards.Length <= 256 && Groups != map[]
      modifies Shards
      ensures Live(Shards[..], Groups.Keys) && Settling(old(Shards[..]), Shards[..], Groups.Keys)
      ensures forall j :: j in Moved(old(Shards[..]), Shards[..]) ==> old(Shards[..])[j] !in Groups
      ensures Shards[..] == Adopt(old(Shards[..]), Groups.Keys, Shards.Length)
    {
      ghost var s0 := Shards[..];
      for k := 0 to Shards.Length
        invariant Shards[..] == Adopt(s0, Groups.Keys, k)
      {
        if Shards[k] !in Groups {
          var _, _, lg, _ := Analyze();
          LeastUnique(Shards[..], Groups.Keys, lg);
          ghost var before := Shards[..];
          Shards[k] := lg;
          assert Shards[..] == before[k := lg];
        }
      }
      AdoptedSettles(s0, Groups.Keys, Shards.Length);
    }

    // One shard of mg, the first, moves to lg.
    method MoveOne(mg: Gid, lg: Gid) returns (ghost k: nat)
      requires Load(Shards[..], mg) > 0
      modifies Shards
      ensures k < Shards.Length && old(Shards[k]) == mg && mg !in old(Shards[..k])
      ensures Shards[..] == old(Shards[..])[k := lg]
    {
      ghost var before := Shards[..];
      k := 0;
      for i := 0 to Shards.Length
        invariant Shards[..] == before && mg !in before[..i]
      {
        if Shards[i] == mg {
          Shards[i] := lg;
          k := i;
          return;
        }
      }
      Unowned(before, mg);
      assert false;
    }

    method Rebalance()
      requires Shards.Length <= 256
      modifies Shards
      ensures Rebalanced(old(Shards[..]), Shards[..], Groups.Keys)
    {
      if |Groups| < 1 {
        for i := 0 to Shards.Length
          invariant forall p :: 0 <= p < i ==> Shards[p] == 0
        {
          Shards[i] := 0;
        }
        return;
      }
      ghost var s0 := Shards[..];
      AdoptOrphans();
      LevelShards();
      LeveledSettles(s0, Shards[..], Groups.Keys);
    }

    // Move shards from most to least loaded.
    method LevelShards()
      requires Shards.Length <= 256 && Groups != map[]
      modifies Shards
      ensures exists n: nat :: LevelsTo(old(Shards[..]), Shards[..], Groups.Keys, n)
    {
      ghost var order := SomeOrder(Groups.Keys);
      ghost var n := 0;
      var more := true;
      while more
        invariant Shards[..] == Level(old(Shards[..]), Groups.Keys, n) && (!more ==> Balanced(Shards[..], Groups.Keys))
        invariant forall m :: 0 <= m < n ==> !Balanced(Level(old(Shards[..]), Groups.Keys, m), Groups.Keys)
        decreases more, Energy(Shards[..], order)
      {
        more := MoveFromMost(order);
        n := if more then n + 1 else n;
      }
      assert LevelsTo(old(Shards[..]), Shards[..], Groups.Keys, n);
    }

    // One turn of the moving loop; false when it ends.
    method MoveFromMost(ghost order: seq<Gid>) returns (moved: bool)
      requires Shards.Length <= 256 && Groups != map[] && Lists(order, Groups.Keys)
      modifies Shards
      ensures moved <==> !Balanced(old(Shards[..]), Groups.Keys)
      ensures Shards[..] == if moved then LevelOnce(old(Shards[..]), Groups.Keys) else old(Shards[..])
      ensures moved ==> Energy(Shards[..], order) < Energy(old(Shards[..]), order)
    {
      var mg, mn, lg, ln := Analyze();
      moved := mn >= ln + 2;
      if moved {
        ghost var s := Shards[..];
        ghost var k := MoveOne(mg, lg);
        MoveUnique(s, Groups.Keys, mg, lg, k);
        EnergyFalls(s, order, k, lg);
      }
    }

    method Join(servers: Groups) returns (r: Outcome)
      modifies this
      ensures r == Changed <==> JoinOk(old(Groups), servers)
      ensures Joined(old(Groups), old(Num), servers, r, Groups, Num)
    {
      ghost var groups := Groups;
      ghost var done: set<Gid> := {};
      var rest := servers.Keys;
      var changed := false;
      while rest != {}
        invariant done !! rest && done + rest == servers.Keys && changed == (done != {}) && Num == old(Num)
        invariant JoinedSoFar(groups, servers, done, Groups)
      {
        var gid := Pick(rest);
        if gid in Groups {
          assert gid !in done && gid in groups;
          return Refused;
        }
        var clash := SharesAny(servers[gid]);
        if clash {
          CannotJoin(groups, servers, done, Groups, gid);
          assert gid !in done && gid !in groups;
          return Fatal;
        }
        JoinsNext(groups, servers, done, Groups, gid);
        Groups := Groups[gid := servers[gid]];
        rest := rest - {gid};
        done := done + {gid};
        changed := true;
      }
      assert done == servers.Keys;
      if !changed {
        return Fatal;
      }
      AllJoined(groups, servers, Groups);
      Num := Num + 1;
      return Changed;
    }

    // Whether some group already has one of these servers.
    method SharesAny(servers: seq<string>) returns (clash: bool)
      ensures clash <==> exists x :: x in Groups && Shares(Groups[x], servers)
    {
      var rest := Groups.Keys;
      while rest != {}
        invariant rest <= Groups.Keys
        invariant forall x :: x in Groups && x !in rest ==> !Shares(Groups[x], servers)
      {
        var xgid := Pick(rest);
        var xservers := Groups[xgid];
        for i := 0 to |xservers|
          invariant forall p, q :: 0 <= p < i && 0 <= q < |servers| ==> xservers[p] != servers[q]
        {
          for j := 0 to |servers|
            invariant forall q :: 0 <= q < j ==> xservers[i] != servers[q]
          {
            if xservers[i] == servers[j] {
              assert Shares(Groups[xgid], servers);
              return true;
            }
          }
        }
        rest := rest - {xgid};
      }
      return false;
    }

    method Leave(gids: seq<Gid>) returns (r: Outcome)
      modifies this
      ensures r == Changed <==> LeaveOk(old(Groups), gids)
      ensures r == Fatal <==> gids == []
      ensures Left(old(Groups), old(Num), gids, r, Groups, Num)
    {
      var changed := false;
      for i := 0 to |gids|
        invariant changed == (i > 0) && Num == old(Num)
        invariant Groups == old(Groups) - ToSet(gids[..i])
        invariant forall p :: 0 <= p < i ==> gids[p] in old(Groups)
        invariant forall p, q :: 0 <= p < q < i ==> gids[p] != gids[q]
      {
        if gids[i] !in Groups {
          assert StopsAt(old(Groups), gids, i);
          return Refused;
        }
        assert gids[i] !in gids[..i];
        assert forall p :: 0 <= p < i ==> gids[p] in gids[..i];
        assert ToSet(gids[..i + 1]) == ToSet(gids[..i]) + {gids[i]};
        Groups := Groups - {gids[i]};
        changed := true;
      }
      assert gids[..|gids|] == gids;
      if !changed {
        return Fatal;
      }
      Num := Num + 1;
      return Changed;
    }

    method JoinBalance(servers: Groups) returns (r: Outcome)
      requires Shards.Length <= 256
      modifies this, Shards
      ensures r == Changed <==> JoinOk(old(Groups), servers)
      ensures Joined(old(Groups), old(Num), servers, r, Groups, Num)
      ensures if r == Changed then Rebalanced(old(Shards[..]), Shards[..], Groups.Keys)
              else Shards[..] == old(Shards[..])
    {
      r := Join(servers);
      if r != Changed {
        return;
      }
      Rebalance();
    }

    method LeaveBalance(gids: seq<Gid>) returns (r: Outcome)
      requires Shards.Length <= 256
      modifies this, Shards
      ensures r == Changed <==> LeaveOk(old(Groups), gids)
      ensures r == Fatal <==> gids == []
      ensures Left(old(Groups), old(Num), gids, r, Groups, Num)
      ensures if r == Changed then Rebalanced(old(Shards[..]), Shards[..], Groups.Keys)
              else Shards[..] == old(Shards[..])
    {
      r := Leave(gids);
      if r != Changed {
        return;
      }
      Rebalance();
    }

    method IsMember(gid: Gid) returns (b: bool)
      ensures b <==> gid in Shards[..]
    {
      for i := 0 to Shards.Length
        invariant gid !in Shards[..i]
      {
        if Shards[i] == gid {
          return true;
        }
      }
      return false;
    }

    method CheckConfig(groups: seq<Gid>) returns (ok: bool)
      requires Shards.Length <= 256
      ensures ok <==> Checks(Shards[..], Groups, groups)
    {
      if |Groups| != |groups| {
        return false;
      }
      for i := 0 to |groups|
        invariant forall p :: 0 <= p < i ==> groups[p] in Groups
      {
        if groups[i] !in Groups {
          return false;
        }
      }
      if |groups| > 0 {
        for i := 0 to Shards.Length
          invariant forall p :: 0 <= p < i ==> Shards[p] in Groups
        {
          if Shards[i] !in Groups {
            return false;
          }
        }
      }
      var counts := CountShards();
      ghost var s := Shards[..];
      var min, max := 257, 0;
      var rest := Groups.Keys;
      while rest != {}
        invariant rest <= Groups.Keys
        invariant forall g :: g in Groups && g !in rest ==> min <= Load(s, g) <= max
        invariant rest == Groups.Keys ==> min == 257 && max == 0
        invariant rest != Groups.Keys ==> exists g, h :: g in Groups && h in Groups && min == Load(s, g) && max == Load(s, h)
      {
        var g := Pick(rest);
        LoadAtMost(s, g);
        if Tally(counts, g) > max {
          max := Tally(counts, g);
        }
        if Tally(counts, g) < min {
          min := Tally(counts, g);
        }
        rest := rest - {g};
      }
      return max <= min + 1;
    }
  }

  // What CheckConfig asks of a configuration whose groups should be these.
  ghost predicate Checks(s: seq<Gid>, actual: Groups, groups: seq<Gid>) {
    && |actual| == |groups|
    && (forall p :: 0 <= p < |groups| ==> groups[p] in actual)
    && (groups != [] ==> Live(s, actual.Keys))
    && Balanced(s, actual.Keys)
  }

  // The groups once the servers in done have joined.
  ghost predicate JoinedSoFar(groups: Groups, servers: Groups, done: set<Gid>, now: Groups) {
    && done <= servers.Keys && done !! groups.Keys
    && now.Keys == groups.Keys + done
    && (forall g :: g in groups ==> now[g] == groups[g])
    && (forall g :: g in done ==> now[g] == servers[g])
    && (forall g, h :: g in done && h in now && g != h ==> !Shares(now[h], servers[g]))
  }

  lemma JoinsNext(groups: Groups, servers: Groups, done: set<Gid>, now: Groups, gid: Gid)
    requires JoinedSoFar(groups, servers, done, now) && gid in servers && gid !in now
    requires forall x :: x in now ==> !Shares(now[x], servers[gid])
    ensures JoinedSoFar(groups, servers, done + {gid}, now[gid := servers[gid]])
  {
    var now' := now[gid := servers[gid]];
    forall g, h | g in done + {gid} && h in now' && g != h ensures !Shares(now'[h], servers[g]) {
      SharesSymmetric(now'[h], servers[g]);
    }
  }

  lemma CannotJoin(groups: Groups, servers: Groups, done: set<Gid>, now: Groups, gid: Gid)
    requires JoinedSoFar(groups, servers, done, now) && gid in servers && gid !in now
    requires exists x :: x in now && Shares(now[x], servers[gid])
    ensures !JoinOk(groups, servers)
  {
    var x :| x in now && Shares(now[x], servers[gid]);
    assert servers.Keys !! groups.Keys ==> now[x] == (groups + servers)[x];
  }

  lemma AllJoined(groups: Groups, servers: Groups, now: Groups)
    requires JoinedSoFar(groups, servers, servers.Keys, now)
    ensures now == groups + servers
    ensures servers != map[] ==> JoinOk(groups, servers)
  {
    assert forall g :: g in now ==> now[g] == (groups + servers)[g];
    assert now.Keys == (groups + servers).Keys;
  }

  // A joining group shares a server with another group, joining or there.
  ghost predicate Clashes(groups: Groups, servers: Groups) {
    exists g, h :: g in servers && g != h &&
      ((h in groups && Shares(groups[h], servers[g])) || (h in servers && Shares(servers[h], servers[g])))
  }

  // What Join answers. Only when a group joins again and another clashes does it
  // depend on which of them comes first.
  lemma JoinAnswers(groups: Groups, num: int, servers: Groups, r: Outcome, groups': Groups, num': int)
    requires Joined(groups, num, servers, r, groups', num') && (r == Changed <==> JoinOk(groups, servers))
    ensures servers == map[] ==> r == Fatal
    ensures servers != map[] && !Clashes(groups, servers) ==>
              r == if servers.Keys !! groups.Keys then Changed else Refused
    ensures Clashes(groups, servers) && servers.Keys !! groups.Keys ==> r == Fatal
  {
    if servers.Keys !! groups.Keys && Clashes(groups, servers) {
      var g, h :| g in servers && g != h &&
        ((h in groups && Shares(groups[h], servers[g])) || (h in servers && Shares(servers[h], servers[g])));
      assert Shares((groups + servers)[h], servers[g]);
    }
  }

  // The most and the least loaded among the groups looked at so far.
  ghost predicate Extremes(s: seq<Gid>, seen: seq<Gid>, mg: Gid, mn: int, lg: Gid, ln: int) {
    if seen == [] then mg == -1 && mn == -1 && lg == -1 && ln == 257
    else
      && mg in seen && mn == Load(s, mg) && lg in seen && ln == Load(s, lg)
      && (forall g :: g in seen ==> ln <= Load(s, g) <= mn)
      && (forall g :: g in seen && Load(s, g) == mn ==> mg <= g)
      && (forall g :: g in seen && Load(s, g) == ln ==> lg <= g)
  }

  lemma ExtremesNext(s: seq<Gid>, seen: seq<Gid>, mg: Gid, mn: int, lg: Gid, ln: int, g: Gid)
    requires Extremes(s, seen, mg, mn, lg, ln) && Load(s, g) <= 256 && forall h :: h in seen ==> h < g
    ensures Extremes(s, seen + [g],
                     if Load(s, g) > mn then g else mg, if Load(s, g) > mn then Load(s, g) else mn,
                     if Load(s, g) < ln then g else lg, if Load(s, g) < ln then Load(s, g) else ln)
  {
    assert forall h :: h in seen + [g] <==> h in seen || h == g;
  }

  lemma Unowned(s: seq<Gid>, g: Gid)
    ensures Load(s, g) > 0 <==> g in s[..|s|]
  {
    if g in s[..|s|] {
      var i :| 0 <= i < |s| && s[..|s|][i] == g;
      assert i in Owned(s, g);
    } else {
      forall i: nat | i < |s| ensures s[i] != g { assert s[..|s|][i] == s[i]; }
      assert Owned(s, g) == {};
    }
  }

  lemma SharesSymmetric(a: seq<string>, b: seq<string>)
    ensures Shares(a, b) <==> Shares(b, a)
  {
  }
}
