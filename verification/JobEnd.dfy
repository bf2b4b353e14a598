/** How a job ends: the exit tasks that follow Done, and the nil task that can end
    the coordinator. */
module JobEnd {
  import opened Options
  import opened Coordinator
  import opened MapReduce
  import opened Job
  import opened JobWitness

  // ----- exit tasks

  function MainSteps(k: nat): seq<Step> { seq(k, _ => MainStep) }

  // Only the channel has grown.
  predicate Grown(s: State, s': State, queue: seq<Option<Task>>) {
    s'.c == s.c.(queue := queue) && s'.workers == s.workers && s'.outs == s.outs && s'.panicked == s.panicked
  }

  lemma PushesOne(j: Spec, s: State, i: nat)
    requires j.n > 0 && !s.panicked && s.main == PushExits(i)
    ensures Enabled(j, s, MainStep)
    ensures var s' := Next(j, s, MainStep);
            if i < j.n then s'.main == PushExits(i + 1) && Grown(s, s', s.c.queue + [Some(Task(i, ExitKind))])
            else s'.main == Over && Grown(s, s', s.c.queue)
  {
  }

  // The main thread queues the exit tasks from i on, and is through.
  lemma {:induction false} PushesExits(j: Spec, steps: seq<Step>, s: State, i: nat) returns (s': State)
    requires Run(j, steps) == Some(s) && j.n > 0 && !s.panicked && s.main == PushExits(i) && i <= j.n
    ensures Run(j, steps + MainSteps(j.n - i + 1)) == Some(s') && s'.main == Over
    ensures Grown(s, s', s.c.queue + Tasks(ExitKind, i, j.n))
    decreases j.n - i
  {
    PushesOne(j, s, i);
    Extend(j, steps, s, MainStep);
    var s1 := Next(j, s, MainStep);
    MainStepsHead(steps, j.n - i);
    if i == j.n {
      assert s.c.queue + Tasks(ExitKind, i, j.n) == s.c.queue;
      assert steps + [MainStep] + MainSteps(0) == steps + [MainStep];
      s' := s1;
    } else {
      s' := PushesExits(j, steps + [MainStep], s1, i + 1);
      ExitsHead(s.c.queue, i, j.n);
    }
  }

  lemma MainStepsHead(steps: seq<Step>, k: nat)
    ensures steps + MainSteps(k + 1) == steps + [MainStep] + MainSteps(k)
  {
  }

  lemma ExitsHead(queue: seq<Option<Task>>, i: nat, n: nat)
    requires i < n
    ensures queue + [Some(Task(i, ExitKind))] + Tasks(ExitKind, i + 1, n) == queue + Tasks(ExitKind, i, n)
  {
    TasksHead(ExitKind, i, n);
    assert Tasks(ExitKind, i, n) == [Tasks(ExitKind, i, n)[0]] + Tasks(ExitKind, i, n)[1..];
  }

  // From every reachable state in which no reduce task is left, the main thread
  // alone comes to Done and queues one exit task for each reduce task.
  lemma QueuesExits(j: Spec, steps: seq<Step>) returns (s': State)
    requires Run(j, steps).Some? && j.n > 0
    requires var s := Run(j, steps).value; s.main == WaitReduces && !s.panicked && !Waiting(s.c, ReduceKind)
    ensures Run(j, steps + [MainStep] + MainSteps(j.n + 1)) == Some(s')
    ensures var s := Run(j, steps).value;
            && s'.main == Over && s'.c.phase == DonePhase && s'.c.queue == s.c.queue + Tasks(ExitKind, 0, j.n)
            && s'.workers == s.workers && s'.outs == s.outs && s'.c.states == s.c.states
  {
    var s := Run(j, steps).value;
    Extend(j, steps, s, MainStep);
    s' := PushesExits(j, steps + [MainStep], Next(j, s, MainStep), 0);
  }

  // A worker whose request finds an exit task at the head of the channel exits.
  lemma TakesExit(j: Spec, steps: seq<Step>, w: nat)
    requires Run(j, steps).Some? && Enabled(j, Run(j, steps).value, Request(w))
    requires Run(j, steps).value.c.queue[0].Some? && Run(j, steps).value.c.queue[0].value.kind == ExitKind
    ensures Run(j, steps + [Request(w)] + [Reply(w)]).Some?
    ensures var s, s' := Run(j, steps).value, Run(j, steps + [Request(w)] + [Reply(w)]).value;
            s'.workers == s.workers[w := Exited] && s'.c.queue == s.c.queue[1..]
  {
    var s := Run(j, steps).value;
    Extend(j, steps, s, Request(w));
    Extend(j, steps + [Request(w)], Next(j, s, Request(w)), Reply(w));
  }

  lemma ExitIsFinal(j: Spec, s: State, step: Step, w: nat)
    requires Enabled(j, s, step) && w in s.workers && (s.workers[w] == Exited || s.workers[w] == Dead)
    ensures var s' := Next(j, s, step); w in s'.workers && (s'.workers[w] == Exited || s'.workers[w] == Dead)
  {
  }

  // And stays so, whatever happens after.
  lemma {:induction false} StaysOut(j: Spec, steps: seq<Step>, more: seq<Step>, w: nat)
    requires j.n > 0 && Run(j, steps).Some? && w in Run(j, steps).value.workers
    requires Run(j, steps).value.workers[w] == Exited && Run(j, steps + more).Some?
    ensures var s := Run(j, steps + more).value; w in s.workers && (s.workers[w] == Exited || s.workers[w] == Dead)
  {
    if more == [] {
      assert steps + more == steps;
    } else {
      var shorter := steps + more[..|more| - 1];
      assert (steps + more)[..|steps + more| - 1] == shorter;
      StaysOut(j, steps, more[..|more| - 1], w);
      ExitIsFinal(j, Run(j, shorter).value, more[|more| - 1], w);
    }
  }

  // ----- the nil task

  // One task is loaded, and no worker has asked yet.
  ghost predicate Loaded(j: Spec, s: State, t: Task) {
    && t.id == 0 && t.kind != ExitKind && (t.kind == MapKind ==> j.files != [])
    && !s.panicked && s.workers == map[] && s.c.given == map[] && s.c.queue == [Some(t)]
    && 0 in s.c.tasks && s.c.tasks[0] == t
  }

  lemma LoadsFirst(j: Spec) returns (steps: seq<Step>, s: State, t: Task)
    requires j.n > 0
    ensures Run(j, steps) == Some(s) && Loaded(j, s, t)
  {
    if j.files != [] {
      t := Task(0, MapKind);
      steps, s := LoadsMaps(j, 1);
    } else {
      t := Task(0, ReduceKind);
      steps, s := LoadsNoMaps(j);
      steps, s := LoadsReduces(j, steps, s, 1);
    }
    FirstKnown(j, steps, s, t);
  }

  lemma LoadsNoMaps(j: Spec) returns (steps: seq<Step>, s: State)
    requires j.n > 0 && j.files == []
    ensures Run(j, steps) == Some(s) && !s.panicked && s.main == LoadReduces(0) && s.workers == map[]
    ensures s.c.queue == [] && s.c.states == map[] && s.c.given == map[]
  {
    steps, s := LoadsMaps(j, 0);
    assert Range(0, 0) == {};
    steps, s := MovesOn(j, steps, s);
    steps, s := MovesOn(j, steps, s);
  }

  lemma FirstKnown(j: Spec, steps: seq<Step>, s: State, t: Task)
    requires j.n > 0 && Run(j, steps) == Some(s) && t.id == 0 && s.c.states.Keys == Range(0, 1)
    requires s.c.queue == Tasks(t.kind, 0, 1) && (t.kind == MapKind ==> s.main.LoadMaps?) && (t.kind == ReduceKind ==> s.main.LoadReduces?)
    requires t.kind != ExitKind
    ensures 0 in s.c.tasks && s.c.tasks[0] == t && s.c.queue == [Some(t)]
  {
    PhasesHold(j, steps);
    assert Within(0, 0, 1);
    assert 0 in Range(0, 1);
  }

  lemma StartsThree(j: Spec, steps: seq<Step>, s: State) returns (steps': seq<Step>, s': State)
    requires Run(j, steps) == Some(s) && j.n > 0 && !s.panicked && s.workers == map[]
    ensures Run(j, steps') == Some(s') && s' == s.(workers := map[0 := Idle, 1 := Idle, 2 := Idle])
  {
    Extend(j, steps, s, Start(0));
    var s1 := Next(j, s, Start(0));
    Extend(j, steps + [Start(0)], s1, Start(1));
    var s2 := Next(j, s1, Start(1));
    Extend(j, steps + [Start(0)] + [Start(1)], s2, Start(2));
    steps', s' := steps + [Start(0)] + [Start(1)] + [Start(2)], Next(j, s2, Start(2));
  }

  // Worker 0 has the task, and a copy of it is queued.
  ghost predicate Doubled(j: Spec, s: State, t: Task) {
    && !s.panicked && s.workers == map[0 := Assigned(t), 1 := Idle, 2 := Idle]
    && s.c.given == map[] && s.c.queue == [Some(t)]
  }

  lemma Doubles(j: Spec) returns (steps: seq<Step>, s: State, t: Task)
    requires j.n > 0
    ensures Run(j, steps) == Some(s) && Doubled(j, s, t)
    ensures t.id == 0 && t.kind != ExitKind && (t.kind == MapKind ==> j.files != [])
  {
    var steps0, s0;
    steps0, s0, t := LoadsFirst(j);
    var steps1, s1 := StartsThree(j, steps0, s0);
    var steps2, s2 := Allocates(j, steps1, s1, 0);
    Extend(j, steps2, s2, Timeout(0));
    steps, s := steps2 + [Timeout(0)], Next(j, s2, Timeout(0));
  }

  // Worker 0 reports it, worker 1 is given the copy, and the task is watched
  // without being on record.
  ghost predicate Orphaned(s: State) {
    && !s.panicked && 2 in s.workers && s.workers[2] == Idle
    && s.c.given == map[] && s.c.queue == [] && 0 in s.c.alive && 0 !in s.c.tasks
  }

  lemma Orphans(j: Spec) returns (steps: seq<Step>, s: State)
    requires j.n > 0
    ensures Run(j, steps) == Some(s) && Orphaned(s)
  {
    var steps0, s0, t := Doubles(j);
    var steps1, s1;
    if t.kind == MapKind {
      steps1, s1 := Maps(j, steps0, s0, 0);
    } else {
      steps1, s1 := Reduces(j, steps0, s0, 0);
    }
    Extend(j, steps1, s1, Report(0));
    var steps2, s2 := steps1 + [Report(0)], Next(j, s1, Report(0));
    steps, s := Allocates(j, steps2, s2, 1);
  }

  // Every job has a run in which the monitor sends nil, and the coordinator
  // dereferences it.
  lemma EveryJobCanPanic(j: Spec) returns (steps: seq<Step>)
    requires j.n > 0
    ensures Run(j, steps).Some? && Run(j, steps).value.panicked
  {
    var steps0, s0 := Orphans(j);
    Extend(j, steps0, s0, Timeout(0));
    var steps1, s1 := steps0 + [Timeout(0)], Next(j, s0, Timeout(0));
    assert s1.c.queue == [None];
    Extend(j, steps1, s1, Request(2));
    var steps2, s2 := steps1 + [Request(2)], Next(j, s1, Request(2));
    Extend(j, steps2, s2, Reply(2));
    steps := steps2 + [Reply(2)];
  }
}
