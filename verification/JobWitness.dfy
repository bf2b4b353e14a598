/** For every job with a file, a run in which a timeout fires for a worker that is
    merely slow, and the job is declared done without its first output. */
module JobWitness {
  import opened Options
  import opened Coordinator
  import opened MapReduce
  import opened Job

  lemma Extend(j: Spec, steps: seq<Step>, s: State, step: Step)
    requires Run(j, steps) == Some(s) && Enabled(j, s, step)
    ensures Run(j, steps + [step]) == Some(Next(j, s, step))
  {
    assert (steps + [step])[..|steps|] == steps;
  }

  // ----- some output for any input

  // Where x goes among the first k of a sorted list.
  lemma {:induction false} Slot(s: seq<KV>, x: KV, k: nat) returns (i: nat)
    requires k <= |s| && forall m :: k <= m < |s| ==> Less(x.key, s[m].key)
    ensures i <= |s| && (forall m :: i <= m < |s| ==> Less(x.key, s[m].key)) && (i > 0 ==> !Less(x.key, s[i - 1].key))
  {
    i := k;
    if k > 0 && Less(x.key, s[k - 1].key) { i := Slot(s, x, k - 1); }
  }

  lemma Inserted(s: seq<KV>, i: nat, x: KV)
    requires i <= |s|
    ensures multiset(s[..i] + [x] + s[i..]) == multiset(s) + multiset{x}
  {
    assert s == s[..i] + s[i..];
  }

  lemma {:induction false} SomeSorted(pairs: seq<KV>) returns (s: seq<KV>)
    ensures Sorted(s) && multiset(s) == multiset(pairs)
  {
    s := [];
    if pairs != [] {
      var last := pairs[|pairs| - 1];
      s := SomeSorted(pairs[..|pairs| - 1]);
      var i := Slot(s, last, |s|);
      InsertSorted(s, i, last);
      Inserted(s, i, last);
      assert pairs == pairs[..|pairs| - 1] + [last];
      s := s[..i] + [last] + s[i..];
    }
  }

  // The last key's block, within the first i.
  lemma {:induction false} LastBlock(s: seq<KV>, i: nat) returns (b: nat)
    requires i < |s| && Sorted(s) && forall m :: i <= m < |s| ==> s[m].key == s[|s| - 1].key
    ensures b < |s| && forall m :: b <= m < |s| ==> s[m].key == s[|s| - 1].key
    ensures forall m :: 0 <= m < b ==> Less(s[m].key, s[|s| - 1].key)
  {
    b := i;
    if i > 0 && s[i - 1].key == s[|s| - 1].key {
      b := LastBlock(s, i - 1);
    } else if i > 0 {
      forall m | 0 <= m < i ensures Less(s[m].key, s[|s| - 1].key) {
        if m < i - 1 && Less(s[m].key, s[i - 1].key) { LessTransitive(s[m].key, s[i - 1].key, s[|s| - 1].key); }
      }
    }
  }

  lemma {:induction false} SomeGrouped(s: seq<KV>, f: Reduce) returns (lines: seq<Line>)
    requires Sorted(s)
    ensures Grouped(s, f, lines)
    decreases |s|
  {
    lines := [];
    if s != [] {
      var k := s[|s| - 1].key;
      var b := LastBlock(s, |s| - 1);
      lines := SomeGrouped(s[..b], f);
      GroupBlock(s[..b], s[b..], k, f, lines);
      assert s == s[..b] + s[b..];
      lines := lines + [Line(k, f(k, Values(s[b..], k)))];
    }
  }

  lemma SomeOutput(pairs: seq<KV>, f: Reduce) returns (lines: seq<Line>)
    ensures Reduced(pairs, f, lines)
  {
    var s := SomeSorted(pairs);
    lines := SomeGrouped(s, f);
  }

  // ----- the workers

  // Everything but worker w and the files stays.
  ghost predicate OnlyWorker(s: State, s': State, w: nat, to: Worker) {
    s'.c == s.c && s'.main == s.main && !s'.panicked && s'.workers == s.workers[w := to]
  }

  // A map worker writes all its buckets.
  lemma {:induction false} Maps(j: Spec, steps: seq<Step>, s: State, w: nat) returns (steps': seq<Step>, s': State)
    requires Run(j, steps) == Some(s) && j.n > 0 && !s.panicked && w in s.workers && s.workers[w].Mapping?
    requires s.workers[w].id < |j.files| && s.workers[w].b < j.n
    ensures Run(j, steps') == Some(s') && s'.outs == s.outs
    ensures OnlyWorker(s, s', w, Reporting(Task(s.workers[w].id, MapKind)))
    decreases j.n - s.workers[w].b
  {
    Extend(j, steps, s, WriteBucket(w));
    steps', s' := steps + [WriteBucket(w)], Next(j, s, WriteBucket(w));
    if s.workers[w].b + 1 < j.n { steps', s' := Maps(j, steps', s', w); }
  }

  // A reduce worker reads all its inputs, none of which is missing.
  lemma {:induction false} Reads(j: Spec, steps: seq<Step>, s: State, w: nat) returns (steps': seq<Step>, s': State)
    requires Run(j, steps) == Some(s) && j.n > 0 && !s.panicked && w in s.workers && s.workers[w].Reducing?
    requires |s.workers[w].acc| <= |j.files|
    ensures Run(j, steps') == Some(s') && s'.outs == s.outs && w in s'.workers && s'.workers[w].Reducing?
    ensures s'.workers[w].id == s.workers[w].id && |s'.workers[w].acc| == |j.files|
    ensures OnlyWorker(s, s', w, s'.workers[w])
    decreases |j.files| - |s.workers[w].acc|
  {
    if |s.workers[w].acc| == |j.files| {
      steps', s' := steps, s;
    } else {
      PhaseBarrier(j, steps);
      Extend(j, steps, s, ReadInput(w));
      steps', s' := Reads(j, steps + [ReadInput(w)], Next(j, s, ReadInput(w)), w);
    }
  }

  lemma Reduces(j: Spec, steps: seq<Step>, s: State, w: nat) returns (steps': seq<Step>, s': State)
    requires Run(j, steps) == Some(s) && j.n > 0 && !s.panicked && w in s.workers && s.workers[w].Reducing?
    requires s.workers[w].acc == []
    ensures Run(j, steps') == Some(s') && s'.outs.Keys == s.outs.Keys + {s.workers[w].id}
    ensures OnlyWorker(s, s', w, Reporting(Task(s.workers[w].id, ReduceKind)))
  {
    var steps1, s1 := Reads(j, steps, s, w);
    var lines := SomeOutput(Concat(s1.workers[w].acc), j.f);
    Extend(j, steps1, s1, WriteOutput(w, lines));
    steps', s' := steps1 + [WriteOutput(w, lines)], Next(j, s1, WriteOutput(w, lines));
  }

  // The tables once a task has been received and is watched.
  function Take(c: Tables): Tables
    requires c.queue != []
  {
    c.(queue := c.queue[1..], alive := if c.queue[0].Some? then c.alive + {c.queue[0].value.id} else c.alive)
  }

  // Worker w is given the task at the head of the channel.
  lemma Allocates(j: Spec, steps: seq<Step>, s: State, w: nat) returns (steps': seq<Step>, s': State)
    requires Run(j, steps) == Some(s) && j.n > 0 && !s.panicked && w in s.workers && s.workers[w] == Idle
    requires s.c.queue != [] && s.c.queue[0].Some? && s.c.given == map[]
    ensures Run(j, steps') == Some(s') && s'.main == s.main && !s'.panicked && s'.outs == s.outs
    ensures s'.c == Take(s.c) && s'.workers == s.workers[w := Assigned(s.c.queue[0].value)]
  {
    Extend(j, steps, s, Request(w));
    var s1 := Next(j, s, Request(w));
    Extend(j, steps + [Request(w)], s1, Reply(w));
    steps', s' := steps + [Request(w)] + [Reply(w)], Next(j, s1, Reply(w));
    assert s'.c.given == s.c.given;
  }

  // And finishes it.
  lemma Works(j: Spec, steps: seq<Step>, s: State, w: nat) returns (steps': seq<Step>, s': State)
    requires Run(j, steps) == Some(s) && j.n > 0 && !s.panicked && w in s.workers && s.workers[w] == Idle
    requires s.c.queue != [] && s.c.queue[0].Some? && !s.c.queue[0].value.kind.ExitKind? && s.c.given == map[]
    requires s.c.queue[0].value.kind.MapKind? ==> s.c.queue[0].value.id < |j.files|
    ensures Run(j, steps') == Some(s') && s'.main == s.main && !s'.panicked && s'.workers == s.workers
    ensures var t := s.c.queue[0].value;
            && s'.c == MarkDone(Take(s.c), t.id) && s'.c.given == map[]
            && s'.outs.Keys == s.outs.Keys + if t.kind.MapKind? then {} else {t.id}
  {
    var t := s.c.queue[0].value;
    var steps1, s1 := Allocates(j, steps, s, w);
    if t.kind.MapKind? { steps1, s1 := Maps(j, steps1, s1, w); } else { steps1, s1 := Reduces(j, steps1, s1, w); }
    Extend(j, steps1, s1, Report(w));
    steps', s' := steps1 + [Report(w)], Next(j, s1, Report(w));
  }

  // ----- the coordinator

  function Tasks(kind: Kind, lo: nat, hi: nat): seq<Option<Task>>
    requires lo <= hi
  {
    seq(hi - lo, i requires 0 <= i < hi - lo => Some(Task(lo + i, kind)))
  }

  predicate Within(id: nat, lo: nat, hi: nat) { lo <= id < hi }

  function Range(lo: nat, hi: nat): set<nat> { set id: nat | id < hi && Within(id, lo, hi) }

  lemma RangeTail(lo: nat, hi: nat)
    requires lo < hi
    ensures Range(lo, hi) == {lo} + Range(lo + 1, hi) && lo !in Range(lo + 1, hi)
  {
  }

  lemma TasksHead(kind: Kind, lo: nat, hi: nat)
    requires lo < hi
    ensures Tasks(kind, lo, hi) != [] && Tasks(kind, lo, hi)[0] == Some(Task(lo, kind))
    ensures Tasks(kind, lo, hi)[1..] == Tasks(kind, lo + 1, hi)
  {
  }

  lemma TasksSnoc(kind: Kind, lo: nat, hi: nat)
    requires lo <= hi
    ensures Tasks(kind, lo, hi) + [Some(Task(hi, kind))] == Tasks(kind, lo, hi + 1)
  {
  }

  // The first task is taken and reported.
  lemma HeadDone(c: Tables, kind: Kind, lo: nat, hi: nat)
    requires lo < hi && c.queue == Tasks(kind, lo, hi)
    ensures c.queue != [] && c.queue[0] == Some(Task(lo, kind))
    ensures var c' := MarkDone(Take(c), lo);
            c'.queue == Tasks(kind, lo + 1, hi) && c'.states == c.states - {lo} && c'.alive == c.alive - {lo}
  {
    TasksHead(kind, lo, hi);
  }

  lemma OneMore(c: Tables, kind: Kind, i: nat)
    requires c.queue == Tasks(kind, 0, i) && c.states.Keys == Range(0, i)
    ensures var c' := Load(c, Task(i, kind)); c'.queue == Tasks(kind, 0, i + 1) && c'.states.Keys == Range(0, i + 1)
  {
    assert Range(0, i + 1) == Range(0, i) + {i};
    TasksSnoc(kind, 0, i);
  }

  // The main thread takes a step.
  lemma MovesOn(j: Spec, steps: seq<Step>, s: State) returns (steps': seq<Step>, s': State)
    requires Run(j, steps) == Some(s) && Enabled(j, s, MainStep)
    ensures Run(j, steps') == Some(s') && s' == Next(j, s, MainStep)
  {
    Extend(j, steps, s, MainStep);
    steps', s' := steps + [MainStep], Next(j, s, MainStep);
  }

  // The main thread loads the map tasks up to i.
  lemma {:induction false} LoadsMaps(j: Spec, i: nat) returns (steps: seq<Step>, s: State)
    requires j.n > 0 && i <= |j.files|
    ensures Run(j, steps) == Some(s) && s.main == LoadMaps(i) && s.workers == map[] && s.outs == map[] && !s.panicked
    ensures s.c.given == map[] && s.c.queue == Tasks(MapKind, 0, i) && s.c.states.Keys == Range(0, i)
  {
    if i == 0 {
      steps, s := [], INIT;
    } else {
      var steps1, s1 := LoadsMaps(j, i - 1);
      OneMore(s1.c, MapKind, i - 1);
      steps, s := MovesOn(j, steps1, s1);
    }
  }

  lemma {:induction false} LoadsReduces(j: Spec, steps: seq<Step>, s: State, i: nat)
    returns (steps': seq<Step>, s': State)
    requires Run(j, steps) == Some(s) && j.n > 0 && !s.panicked && s.main == LoadReduces(0) && i <= j.n
    requires s.c.queue == [] && s.c.states == map[] && s.c.given == map[]
    ensures Run(j, steps') == Some(s') && !s'.panicked && s'.main == LoadReduces(i)
    ensures s'.workers == s.workers && s'.outs == s.outs
    ensures s'.c.given == map[] && s'.c.queue == Tasks(ReduceKind, 0, i) && s'.c.states.Keys == Range(0, i)
  {
    if i == 0 {
      steps', s' := steps, s;
    } else {
      var steps1, s1 := LoadsReduces(j, steps, s, i - 1);
      OneMore(s1.c, ReduceKind, i - 1);
      steps', s' := MovesOn(j, steps1, s1);
    }
  }

  // ----- the run

  const CREW: map<nat, Worker> := map[0 := Mapping(0, 0), 1 := Idle, 2 := Idle]

  // Map task 0 is with the slow worker, and the tasks below i are done.
  ghost predicate Slow(j: Spec, s: State, i: nat) {
    && 1 <= i <= |j.files| && s.main == WaitMaps && s.workers == CREW && s.outs == map[] && !s.panicked
    && s.c.queue == Tasks(MapKind, i, |j.files|) && 0 in s.c.alive && s.c.given == map[]
    && s.c.states.Keys == {0} + Range(i, |j.files|)
  }

  lemma Begins(j: Spec) returns (steps: seq<Step>, s: State)
    requires j.n > 0 && j.files != []
    ensures Run(j, steps) == Some(s) && Slow(j, s, 1)
  {
    var steps1, s1 := LoadsMaps(j, |j.files|);
    var steps2, s2 := MovesOn(j, steps1, s1);
    Extend(j, steps2, s2, Start(0));
    var steps3, s3 := steps2 + [Start(0)], Next(j, s2, Start(0));
    Extend(j, steps3, s3, Start(1));
    var steps4, s4 := steps3 + [Start(1)], Next(j, s3, Start(1));
    Extend(j, steps4, s4, Start(2));
    var steps5, s5 := steps4 + [Start(2)], Next(j, s4, Start(2));
    TasksHead(MapKind, 0, |j.files|);
    steps, s := Allocates(j, steps5, s5, 0);
    assert s.workers == CREW;
  }

  // Worker 1 does another one.
  lemma MapsNext(j: Spec, steps: seq<Step>, s: State, i: nat) returns (steps': seq<Step>, s': State)
    requires Run(j, steps) == Some(s) && j.n > 0 && Slow(j, s, i) && i < |j.files|
    ensures Run(j, steps') == Some(s') && Slow(j, s', i + 1)
  {
    HeadDone(s.c, MapKind, i, |j.files|);
    steps', s' := Works(j, steps, s, 1);
    RangeTail(i, |j.files|);
    assert s'.c.states.Keys == s.c.states.Keys - {i};
    assert s'.outs == map[];
  }

  lemma {:induction false} OthersMap(j: Spec, steps: seq<Step>, s: State, i: nat) returns (steps': seq<Step>, s': State)
    requires Run(j, steps) == Some(s) && j.n > 0 && Slow(j, s, i)
    ensures Run(j, steps') == Some(s') && Slow(j, s', |j.files|)
    decreases |j.files| - i
  {
    if i == |j.files| {
      steps', s' := steps, s;
    } else {
      var steps1, s1 := MapsNext(j, steps, s, i);
      steps', s' := OthersMap(j, steps1, s1, i + 1);
    }
  }

  // The timeout fires, worker 1 does map task 0 as well, and the reduce tasks
  // are loaded.
  lemma MapPhaseEnds(j: Spec) returns (steps: seq<Step>, s: State)
    requires j.n > 0 && j.files != []
    ensures Run(j, steps) == Some(s) && s.main == LoadReduces(0) && s.workers == CREW && s.outs == map[] && !s.panicked
    ensures s.c.queue == [] && s.c.states == map[] && s.c.given == map[]
  {
    var steps0, s0 := Begins(j);
    var steps1, s1 := OthersMap(j, steps0, s0, 1);
    PhasesHold(j, steps1);
    Extend(j, steps1, s1, Timeout(0));
    var steps2, s2 := steps1 + [Timeout(0)], Next(j, s1, Timeout(0));
    assert s2.c.queue == [Some(Task(0, MapKind))];
    var steps3, s3 := Works(j, steps2, s2, 1);
    assert s3.outs == map[] && s3.c.states == map[];
    steps, s := MovesOn(j, steps3, s3);
  }

  // The slow worker reports, and strikes reduce task 0 off.
  lemma Struck(j: Spec) returns (steps: seq<Step>, s: State)
    requires j.n > 0 && j.files != []
    ensures Run(j, steps) == Some(s) && s.main == WaitReduces && !s.panicked && s.outs == map[]
    ensures s.workers == CREW[0 := Idle] && s.c.queue == Tasks(ReduceKind, 0, j.n) && s.c.given == map[]
    ensures s.c.states.Keys == Range(1, j.n)
  {
    var steps1, s1 := MapPhaseEnds(j);
    var steps2, s2 := LoadsReduces(j, steps1, s1, j.n);
    var steps3, s3 := MovesOn(j, steps2, s2);
    var steps4, s4 := Maps(j, steps3, s3, 0);
    Extend(j, steps4, s4, Report(0));
    steps, s := steps4 + [Report(0)], Next(j, s4, Report(0));
    RangeTail(0, j.n);
    assert s.c.states.Keys == Range(0, j.n) - {0};
  }

  const LEFT: map<nat, Worker> := map[0 := Idle, 1 := Idle, 2 := Dead]

  // Reduce task 0 is off the record without an output, and the tasks below r
  // are done.
  ghost predicate Missing(j: Spec, s: State, r: nat) {
    && 1 <= r <= j.n && s.main == WaitReduces && !s.panicked && 0 !in s.outs
    && s.workers == LEFT && s.c.queue == Tasks(ReduceKind, r, j.n) && s.c.given == map[]
    && s.c.states.Keys == Range(r, j.n)
  }

  // Worker 2 takes it and crashes.
  lemma Crashed(j: Spec) returns (steps: seq<Step>, s: State)
    requires j.n > 0 && j.files != []
    ensures Run(j, steps) == Some(s) && Missing(j, s, 1)
  {
    var steps1, s1 := Struck(j);
    TasksHead(ReduceKind, 0, j.n);
    var steps2, s2 := Allocates(j, steps1, s1, 2);
    Extend(j, steps2, s2, Crash(2));
    steps, s := steps2 + [Crash(2)], Next(j, s2, Crash(2));
    assert s.workers == LEFT;
  }

  // Worker 1 does another one.
  lemma ReducesNext(j: Spec, steps: seq<Step>, s: State, r: nat) returns (steps': seq<Step>, s': State)
    requires Run(j, steps) == Some(s) && Missing(j, s, r) && r < j.n
    ensures Run(j, steps') == Some(s') && Missing(j, s', r + 1)
  {
    HeadDone(s.c, ReduceKind, r, j.n);
    steps', s' := Works(j, steps, s, 1);
    RangeTail(r, j.n);
    assert s'.c.states.Keys == s.c.states.Keys - {r};
  }

  // Some run leads there.
  ghost predicate CanMiss(j: Spec, r: nat) {
    exists steps, s :: Run(j, steps) == Some(s) && Missing(j, s, r)
  }

  lemma OneReduced(j: Spec)
    requires j.n > 0 && j.files != []
    ensures CanMiss(j, 1)
  {
    var steps, s := Crashed(j);
  }

  lemma OneMoreReduced(j: Spec, r: nat)
    requires CanMiss(j, r) && r < j.n
    ensures CanMiss(j, r + 1)
  {
    var steps, s :| Run(j, steps) == Some(s) && Missing(j, s, r);
    var steps', s' := ReducesNext(j, steps, s, r);
  }

  lemma {:induction false} OthersReduce(j: Spec, r: nat)
    requires j.files != [] && 1 <= r <= j.n
    ensures CanMiss(j, r)
  {
    if r == 1 {
      OneReduced(j);
    } else {
      OthersReduce(j, r - 1);
      OneMoreReduced(j, r - 1);
    }
  }

  lemma DoneWithoutOutput(j: Spec) returns (steps: seq<Step>)
    requires j.n > 0 && j.files != []
    ensures Run(j, steps).Some?
    ensures Run(j, steps).value.c.phase == DonePhase && 0 !in Run(j, steps).value.outs
  {
    OthersReduce(j, j.n);
    var steps1, s1 :| Run(j, steps1) == Some(s1) && Missing(j, s1, j.n);
    var s;
    steps, s := MovesOn(j, steps1, s1);
  }

  // ----- exactly when

  // Without files there are no map tasks whose report could come late.
  lemma NoFilesUnstruck(j: Spec, steps: seq<Step>)
    requires j.n > 0 && j.files == []
    ensures Unstruck(j, steps)
  {
    forall m | 0 <= m < |steps| && Run(j, steps[..m]).Some?
      ensures !Strikes(Run(j, steps[..m]).value, steps[m])
    {
      PhasesHold(j, steps[..m]);
    }
  }

  // Done means that all outputs are there, in every run of a job, exactly when
  // the job has no files.
  lemma DoneMeansOutputsExactly(j: Spec)
    requires j.n > 0
    ensures j.files == [] <==>
            forall steps :: Run(j, steps).Some? && Run(j, steps).value.c.phase == DonePhase ==>
              forall r :: 0 <= r < j.n ==> r in Run(j, steps).value.outs
  {
    if j.files == [] {
      forall steps | Run(j, steps).Some? && Run(j, steps).value.c.phase == DonePhase
        ensures forall r :: 0 <= r < j.n ==> r in Run(j, steps).value.outs
      {
        NoFilesUnstruck(j, steps);
        DoneMeansDone(j, steps);
      }
    } else {
      var steps := DoneWithoutOutput(j);
      assert 0 !in Run(j, steps).value.outs;
    }
  }
}
