/** Configurations reached by successful JoinBalance and LeaveBalance calls. */
module ShardRuns {
  import opened Shards
  import opened ShardConfig

  datatype Cfg = Cfg(num: int, shards: seq<Gid>, groups: Groups)

  datatype Change = Joined(servers: Groups) | Left(gids: seq<Gid>)

  // What a call that reports success does, by its contract.
  ghost predicate Succeeds(c: Cfg, change: Change, c': Cfg) {
    && (match change
        case Joined(servers) => JoinOk(c.groups, servers) && c'.groups == c.groups + servers
        case Left(gids) => LeaveOk(c.groups, gids) && c'.groups == c.groups - ToSet(gids))
    && c'.num == c.num + 1
    && Rebalanced(c.shards, c'.shards, c'.groups.Keys)
  }

  ghost predicate Run(cs: seq<Cfg>, changes: seq<Change>, n: nat) {
    && |cs| == |changes| + 1
    && cs[0] == Cfg(0, seq(n, _ => 0), map[])
    && (forall i :: 0 <= i < |changes| ==> StepOk(cs, changes, i))
  }

  ghost predicate StepOk(cs: seq<Cfg>, changes: seq<Change>, i: nat)
    requires i < |changes| && |cs| == |changes| + 1
  {
    Succeeds(cs[i], changes[i], cs[i + 1])
  }

  ghost predicate Sound(c: Cfg, n: nat) {
    && |c.shards| == n
    && Apart(c.groups)
    && (c.groups == map[] ==> forall i :: 0 <= i < n ==> c.shards[i] == 0)
    && (c.groups != map[] ==> Live(c.shards, c.groups.Keys) && Balanced(c.shards, c.groups.Keys))
  }

  lemma Keeps(c: Cfg, change: Change, c': Cfg, n: nat)
    requires Sound(c, n) && Succeeds(c, change, c')
    ensures Sound(c', n)
  {
    assert c'.groups == map[] <==> c'.groups.Keys == {};
    forall g, h | g in c'.groups && h in c'.groups && g != h ensures !Shares(c'.groups[g], c'.groups[h]) {
      SharesSymmetric(c'.groups[g], c'.groups[h]);
    }
  }

  lemma {:induction false} Reached(cs: seq<Cfg>, changes: seq<Change>, n: nat, k: nat)
    requires Run(cs, changes, n) && k < |cs|
    ensures Sound(cs[k], n) && cs[k].num == k
  {
    if k > 0 {
      Reached(cs, changes, n, k - 1);
      assert StepOk(cs, changes, k - 1);
      Keeps(cs[k - 1], changes[k - 1], cs[k], n);
    }
  }

  // Every configuration of every run passes the check, counts the changes,
  // keeps servers apart, and, while groups do not outnumber the shards,
  // serves exactly its groups.
  lemma RunsAreSound(cs: seq<Cfg>, changes: seq<Change>, n: nat, k: nat, expected: seq<Gid>)
    requires Run(cs, changes, n) && k < |cs|
    requires |expected| == |cs[k].groups| && forall p :: 0 <= p < |expected| ==> expected[p] in cs[k].groups
    ensures cs[k].num == k && Apart(cs[k].groups)
    ensures Checks(cs[k].shards, cs[k].groups, expected)
    ensures 1 <= |cs[k].groups| <= n ==> forall g :: g in cs[k].shards <==> g in cs[k].groups
  {
    Reached(cs, changes, n, k);
    var c := cs[k];
    if 1 <= |c.groups| <= n {
      forall g | g in c.groups ensures g in c.shards {
        assert |c.groups| == |c.groups.Keys|;
        EveryGroupServes(c.shards, c.groups.Keys, g);
      }
    }
  }

  lemma SomeGroup(t: seq<Gid>, groups: set<Gid>)
    requires Live(t, groups) && t != []
    ensures groups != {}
  {
    assert t[0] in groups;
  }

  // Along a run, a Join moves shards only onto joining groups, a Leave that
  // leaves groups behind exactly the shards of the leaving groups, and either
  // moves as few shards as any balanced assignment would.
  lemma RunsMoveLittle(cs: seq<Cfg>, changes: seq<Change>, n: nat, k: nat)
    requires Run(cs, changes, n) && k < |changes|
    ensures var s0, s := cs[k].shards, cs[k + 1].shards;
            && (changes[k].Joined? ==> forall i :: i in Moved(s0, s) ==>
                  s[i] in changes[k].servers && (cs[k].groups != map[] ==> s0[i] in cs[k].groups))
            && (changes[k].Left? && cs[k + 1].groups != map[] ==>
                  Moved(s0, s) == set i: nat | i < |s0| && s0[i] in changes[k].gids)
            && (forall t :: |t| == n && Live(t, cs[k + 1].groups.Keys) && Balanced(t, cs[k + 1].groups.Keys) ==>
                  |Moved(s0, s)| <= |Moved(s0, t)|)
  {
    Reached(cs, changes, n, k);
    assert StepOk(cs, changes, k);
    var c, c' := cs[k], cs[k + 1];
    var s0, s := c.shards, c'.shards;
    if changes[k].Joined? {
      assert c'.groups.Keys == c.groups.Keys + changes[k].servers.Keys;
      if c.groups != map[] {
        forall i | i in Moved(s0, s) ensures s0[i] in c.groups && s[i] in changes[k].servers {
          JoinMoves(s0, s, c.groups.Keys, c'.groups.Keys, i);
        }
      }
    } else if c'.groups != map[] {
      LeaveMoves(s0, s, c.groups.Keys, c'.groups.Keys);
      assert forall i: nat :: i < |s0| ==> (s0[i] in changes[k].gids <==> s0[i] !in c'.groups);
    }
    forall t | |t| == n && Live(t, c'.groups.Keys) && Balanced(t, c'.groups.Keys)
      ensures |Moved(s0, s)| <= |Moved(s0, t)|
    {
      if n > 0 {
        SomeGroup(t, c'.groups.Keys);
        MinimalMovement(s0, s, t, c'.groups.Keys);
      }
    }
  }

  // Two replicas that make the same changes have the same configurations.
  lemma {:induction false} ReplicasAgree(cs: seq<Cfg>, ds: seq<Cfg>, changes: seq<Change>, n: nat, k: nat)
    requires Run(cs, changes, n) && Run(ds, changes, n) && k < |cs|
    ensures cs[k] == ds[k]
  {
    if k > 0 {
      ReplicasAgree(cs, ds, changes, n, k - 1);
      assert StepOk(cs, changes, k - 1) && StepOk(ds, changes, k - 1);
      if cs[k].groups.Keys != {} {
        LeveledUnique(cs[k - 1].shards, cs[k].shards, ds[k].shards, cs[k].groups.Keys);
      }
    }
  }
}
