/** A whole MapReduce job: the coordinator, any number of workers that may crash
    at any point, and the files they exchange. */
module Job {
  import opened Options
  import opened Coordinator
  import opened MapReduce

  datatype Spec = Spec(files: seq<File>, mapf: Map, hash: string -> nat, n: nat, f: Reduce)

  // The coordinator's main thread.
  datatype Main =
    | LoadMaps(i: nat)
    | WaitMaps
    | LoadReduces(i: nat)
    | WaitReduces
    | PushExits(i: nat)
    | Over

  // A map worker has written its first b buckets; a reduce worker has read the
  // inputs acc. Dead workers have crashed or found a file missing.
  datatype Worker =
    | Idle
    | Mapping(id: nat, b: nat)
    | Reducing(id: nat, acc: seq<seq<KV>>)
    | Reporting(task: Task)
    | Exited
    | Dead

  datatype Cell = Cell(m: nat, r: nat)

  datatype State = State(c: Tables, main: Main, workers: map<nat, Worker>,
                         inter: map<Cell, seq<KV>>, outs: map<nat, seq<Line>>, panicked: bool)

  datatype Step =
    | MainStep
    | Start(w: nat)
    | Request(w: nat)    // w's request takes a task from the channel
    | Reply(w: nat)      // the task is watched, and w has it
    | WriteBucket(w: nat)
    | ReadInput(w: nat)
    | WriteOutput(w: nat, lines: seq<Line>)
    | Report(w: nat)
    | Crash(w: nat)
    | Timeout(id: nat)

  const INIT := State(EMPTY, LoadMaps(0), map[], map[], map[], false)

  function BucketOf(j: Spec, x: Cell): seq<KV>
    requires j.n > 0 && x.m < |j.files|
  {
    Bucket(j.mapf(j.files[x.m].name, j.files[x.m].content), j.hash, j.n, x.r)
  }

  ghost predicate Enabled(j: Spec, s: State, step: Step) {
    && j.n > 0 && !s.panicked
    && match step
       case MainStep => (
         match s.main
         case WaitMaps => !Waiting(s.c, MapKind)
         case WaitReduces => !Waiting(s.c, ReduceKind)
         case Over => false
         case _ => true
       )
       case Start(w) => w !in s.workers
       case Request(w) => w in s.workers && s.workers[w] == Idle && s.c.queue != [] && w !in s.c.given
       case Reply(w) => w in s.c.given
       case WriteBucket(w) => w in s.workers && s.workers[w].Mapping? && s.workers[w].id < |j.files|
       case ReadInput(w) => w in s.workers && s.workers[w].Reducing? && |s.workers[w].acc| < |j.files|
       case WriteOutput(w, lines) =>
         && w in s.workers && s.workers[w].Reducing? && |s.workers[w].acc| == |j.files|
         && Reduced(Concat(s.workers[w].acc), j.f, lines)
       case Report(w) => w in s.workers && s.workers[w].Reporting?
       case Crash(w) => w in s.workers
       case Timeout(id) => id in s.c.alive
  }

  function Assigned(t: Task): Worker {
    match t.kind
    case MapKind => Mapping(t.id, 0)
    case ReduceKind => Reducing(t.id, [])
    case ExitKind => Exited
  }

  ghost function Next(j: Spec, s: State, step: Step): State
    requires Enabled(j, s, step)
  {
    match step
    case MainStep => (
      match s.main
      case LoadMaps(i) =>
        if i < |j.files| then s.(c := Load(s.c, Task(i, MapKind)), main := LoadMaps(i + 1))
        else s.(main := WaitMaps)
      case WaitMaps => s.(c := s.c.(phase := ReducePhase), main := LoadReduces(0))
      case LoadReduces(i) =>
        if i < j.n then s.(c := Load(s.c, Task(i, ReduceKind)), main := LoadReduces(i + 1))
        else s.(main := WaitReduces)
      case WaitReduces => s.(c := s.c.(phase := DonePhase), main := PushExits(0))
      case PushExits(i) =>
        if i < j.n then s.(c := s.c.(queue := s.c.queue + [Some(Task(i, ExitKind))]), main := PushExits(i + 1))
        else s.(main := Over)
      case Over => s
    )
    case Start(w) => s.(workers := s.workers[w := Idle])
    case Request(w) => s.(c := Receive(s.c, w))
    case Reply(w) =>
      if s.c.given[w].None? then s.(c := Watch(s.c, w), panicked := true)
      else if w in s.workers && s.workers[w] == Idle then
        s.(c := Watch(s.c, w), workers := s.workers[w := Assigned(s.c.given[w].value)])
      else s.(c := Watch(s.c, w))
    case WriteBucket(w) =>
      var (id, b) := (s.workers[w].id, s.workers[w].b);
      s.(inter := s.inter[Cell(id, b) := BucketOf(j, Cell(id, b))],
         workers := s.workers[w := if b + 1 < j.n then Mapping(id, b + 1) else Reporting(Task(id, MapKind))])
    case ReadInput(w) =>
      var (id, acc) := (s.workers[w].id, s.workers[w].acc);
      if Cell(|acc|, id) in s.inter
      then s.(workers := s.workers[w := Reducing(id, acc + [s.inter[Cell(|acc|, id)]])])
      else s.(workers := s.workers[w := Dead])
    case WriteOutput(w, lines) =>
      var id := s.workers[w].id;
      s.(outs := s.outs[id := lines], workers := s.workers[w := Reporting(Task(id, ReduceKind))])
    case Report(w) =>
      s.(c := MarkDone(s.c, s.workers[w].task.id), workers := s.workers[w := Idle])
    case Crash(w) => s.(workers := s.workers[w := Dead])
    case Timeout(id) => s.(c := Reissue(s.c, id))
  }

  ghost function Run(j: Spec, steps: seq<Step>): Option<State> {
    if steps == [] then Some(INIT)
    else
      var before := Run(j, steps[..|steps| - 1]);
      var step := steps[|steps| - 1];
      if before.Some? && Enabled(j, before.value, step) then Some(Next(j, before.value, step)) else None
  }

  // ----- no task is lost

  lemma LosesNone(j: Spec, s: State, step: Step)
    requires NoneLost(s.c) && Enabled(j, s, step)
    ensures NoneLost(Next(j, s, step).c)
  {
    match step {
      case MainStep =>
        if s.main.LoadMaps? { LoadKeeps(s.c, Task(s.main.i, MapKind)); }
        if s.main.LoadReduces? { LoadKeeps(s.c, Task(s.main.i, ReduceKind)); }
      case Request(w) => ReceiveKeeps(s.c, w);
      case Reply(w) => WatchKeeps(s.c, w);
      case Report(w) => MarkDoneKeeps(s.c, s.workers[w].task.id);
      case Timeout(id) => ReissueKeeps(s.c, id);
      case _ =>
    }
  }

  lemma {:induction false} NoTaskLost(j: Spec, steps: seq<Step>)
    requires Run(j, steps).Some?
    ensures NoneLost(Run(j, steps).value.c)
  {
    if steps != [] {
      NoTaskLost(j, steps[..|steps| - 1]);
      LosesNone(j, Run(j, steps[..|steps| - 1]).value, steps[|steps| - 1]);
    }
  }

  // ----- the phases

  predicate Mapped(main: Main) { !main.LoadMaps? && !main.WaitMaps? }

  // Map tasks below this have been loaded.
  function MapsLoaded(j: Spec, main: Main): nat { if main.LoadMaps? then main.i else |j.files| }

  function ReducesLoaded(j: Spec, main: Main): nat {
    if !Mapped(main) then 0 else if main.LoadReduces? then main.i else j.n
  }

  ghost predicate MapDone(j: Spec, s: State, id: nat) {
    forall r :: 0 <= r < j.n ==> Cell(id, r) in s.inter
  }

  // A task that the coordinator has made, at a time when it may exist.
  ghost predicate TaskOk(j: Spec, s: State, t: Task) {
    match t.kind
    case MapKind => t.id < |j.files|
    case ReduceKind => t.id < j.n && Mapped(s.main)
    case ExitKind => s.main.PushExits? || s.main.Over?
  }

  ghost predicate WorkerOk(j: Spec, s: State, w: Worker)
    requires j.n > 0
  {
    match w
    case Mapping(id, b) => id < |j.files| && b < j.n && forall r :: 0 <= r < b ==> Cell(id, r) in s.inter
    case Reducing(id, acc) =>
      && id < j.n && Mapped(s.main) && |acc| <= |j.files|
      && (forall i :: 0 <= i < |acc| ==> acc[i] == BucketOf(j, Cell(i, id)))
    case Reporting(t) =>
      && !t.kind.ExitKind? && TaskOk(j, s, t)
      && (t.kind.MapKind? ==> MapDone(j, s, t.id))
      && (t.kind.ReduceKind? ==> t.id in s.outs)
    case _ => true
  }

  function InputsOf(j: Spec, r: nat): seq<seq<KV>>
    requires j.n > 0
  {
    seq(|j.files|, i requires 0 <= i < |j.files| => BucketOf(j, Cell(i, r)))
  }

  // An output file holds a reduction of exactly its buckets.
  ghost predicate OutOk(j: Spec, r: nat, lines: seq<Line>)
    requires j.n > 0
  {
    Reduced(Concat(InputsOf(j, r)), j.f, lines)
  }

  ghost predicate FilesOk(j: Spec, s: State)
    requires j.n > 0
  {
    && (forall x :: x in s.inter ==> x.m < |j.files| && x.r < j.n && s.inter[x] == BucketOf(j, x))
    && (forall r :: r in s.outs ==> OutOk(j, r, s.outs[r]))
  }

  ghost predicate TablesOk(j: Spec, s: State) {
    && (s.main.LoadMaps? ==> s.main.i <= |j.files|)
    && (s.main.LoadReduces? ==> s.main.i <= j.n)
    && (s.c.phase == DonePhase <==> s.main.PushExits? || s.main.Over?)
    && (s.c.phase == DonePhase ==> s.c.states == map[])
    && (forall id :: id in s.c.states ==>
          if Mapped(s.main) then s.c.states[id] == ReduceKind && id < ReducesLoaded(j, s.main)
          else s.c.states[id] == MapKind && id < MapsLoaded(j, s.main))
    && (forall t :: Some(t) in s.c.queue ==> TaskOk(j, s, t))
    && (forall w :: w in s.c.given && s.c.given[w].Some? ==> TaskOk(j, s, s.c.given[w].value))
  }

  // A worker whose request is being handled waits, unless it has crashed.
  ghost predicate Calling(s: State) {
    forall w :: w in s.c.given ==> w in s.workers && (s.workers[w] == Idle || s.workers[w] == Dead)
  }

  // A map task is on record until its output is there.
  ghost predicate MapsOk(j: Spec, s: State) {
    forall id :: 0 <= id < MapsLoaded(j, s.main) ==>
      MapDone(j, s, id) || (!Mapped(s.main) && id in s.c.states)
  }

  ghost predicate Phases(j: Spec, s: State) {
    && j.n > 0 && NoneLost(s.c) && FilesOk(j, s) && TablesOk(j, s) && MapsOk(j, s) && Calling(s)
    && (forall w :: w in s.workers ==> WorkerOk(j, s, s.workers[w]))
  }

  lemma FilesAfterOutput(j: Spec, s: State, w: nat, lines: seq<Line>)
    requires Phases(j, s) && Enabled(j, s, WriteOutput(w, lines))
    ensures FilesOk(j, Next(j, s, WriteOutput(w, lines)))
  {
    assert WorkerOk(j, s, s.workers[w]);
    assert s.workers[w].acc == InputsOf(j, s.workers[w].id);
    assert OutOk(j, s.workers[w].id, lines);
  }

  lemma FilesAfterBucket(j: Spec, s: State, w: nat)
    requires Phases(j, s) && Enabled(j, s, WriteBucket(w))
    ensures FilesOk(j, Next(j, s, WriteBucket(w)))
  {
    assert WorkerOk(j, s, s.workers[w]);
  }

  lemma FilesUntouched(j: Spec, s: State, step: Step)
    requires Enabled(j, s, step) && !step.WriteBucket? && !step.WriteOutput?
    ensures Next(j, s, step).inter == s.inter && Next(j, s, step).outs == s.outs
  {
  }

  lemma SameFiles(j: Spec, s: State, s': State)
    requires j.n > 0 && FilesOk(j, s) && s'.inter == s.inter && s'.outs == s.outs
    ensures FilesOk(j, s')
  {
  }

  lemma KeepsFiles(j: Spec, s: State, step: Step)
    requires Phases(j, s) && Enabled(j, s, step)
    ensures FilesOk(j, Next(j, s, step))
  {
    match step {
      case WriteOutput(w, lines) => FilesAfterOutput(j, s, w, lines);
      case WriteBucket(w) => FilesAfterBucket(j, s, w);
      case _ =>
        FilesUntouched(j, s, step);
        SameFiles(j, s, Next(j, s, step));
    }
  }

  lemma TablesAfterLoad(j: Spec, s: State)
    requires Phases(j, s) && Enabled(j, s, MainStep) && (s.main.LoadMaps? || s.main.LoadReduces?)
    ensures TablesOk(j, Next(j, s, MainStep))
  {
    var s' := Next(j, s, MainStep);
    assert Mapped(s'.main) == Mapped(s.main);
    forall t | Some(t) in s'.c.queue ensures TaskOk(j, s', t) {
      if Some(t) in s.c.queue { assert TaskOk(j, s, t); }
    }
    forall w | w in s'.c.given && s'.c.given[w].Some? ensures TaskOk(j, s', s'.c.given[w].value) {
      assert TaskOk(j, s, s.c.given[w].value);
    }
  }

  lemma TablesAfterWait(j: Spec, s: State)
    requires Phases(j, s) && Enabled(j, s, MainStep) && (s.main.WaitMaps? || s.main.WaitReduces?)
    ensures TablesOk(j, Next(j, s, MainStep))
  {
    var s' := Next(j, s, MainStep);
    assert forall id :: id !in s.c.states;
    forall t | Some(t) in s'.c.queue ensures TaskOk(j, s', t) { assert TaskOk(j, s, t); }
  }

  lemma TaskAfterExit(j: Spec, s: State, t: Task)
    requires TablesOk(j, s) && Enabled(j, s, MainStep) && s.main.PushExits?
    requires Some(t) in Next(j, s, MainStep).c.queue || TaskOk(j, s, t)
    ensures TaskOk(j, Next(j, s, MainStep), t)
  {
    if Some(t) in s.c.queue { assert TaskOk(j, s, t); }
  }

  lemma TablesAfterExit(j: Spec, s: State)
    requires TablesOk(j, s) && Enabled(j, s, MainStep) && s.main.PushExits?
    ensures TablesOk(j, Next(j, s, MainStep))
  {
    var s' := Next(j, s, MainStep);
    assert s'.c.given == s.c.given && s'.c.states == s.c.states && s'.c.phase == s.c.phase;
    forall t | Some(t) in s'.c.queue ensures TaskOk(j, s', t) { TaskAfterExit(j, s, t); }
    forall w | w in s'.c.given && s'.c.given[w].Some? ensures TaskOk(j, s', s'.c.given[w].value) {
      TaskAfterExit(j, s, s.c.given[w].value);
    }
  }

  // Other steps leave the main thread where it is and put no new task on record.
  lemma OtherSteps(j: Spec, s: State, step: Step)
    requires Enabled(j, s, step) && !step.MainStep?
    ensures var s' := Next(j, s, step);
            && s'.main == s.main && s'.c.phase == s.c.phase
            && (forall id :: id in s'.c.states ==> id in s.c.states && s'.c.states[id] == s.c.states[id])
            && (forall t :: Some(t) in s'.c.queue ==>
                  Some(t) in s.c.queue || (step.Timeout? && step.id in s.c.tasks && t == s.c.tasks[step.id]))
            && (forall w :: w in s'.c.given ==>
                  s'.c.given[w] in s.c.queue || (w in s.c.given && s'.c.given[w] == s.c.given[w]))
  {
  }

  lemma TablesAfterOther(j: Spec, s: State, step: Step)
    requires Phases(j, s) && Enabled(j, s, step) && !step.MainStep?
    ensures TablesOk(j, Next(j, s, step))
  {
    var s' := Next(j, s, step);
    OtherSteps(j, s, step);
    forall t | Some(t) in s'.c.queue ensures TaskOk(j, s', t) {
      if Some(t) in s.c.queue { assert TaskOk(j, s, t); }
    }
    forall w | w in s'.c.given && s'.c.given[w].Some? ensures TaskOk(j, s', s'.c.given[w].value) {
      if s'.c.given[w] in s.c.queue { assert TaskOk(j, s, s'.c.given[w].value); }
    }
  }

  lemma KeepsTables(j: Spec, s: State, step: Step)
    requires Phases(j, s) && Enabled(j, s, step)
    ensures TablesOk(j, Next(j, s, step))
  {
    if !step.MainStep? {
      TablesAfterOther(j, s, step);
    } else if s.main.PushExits? {
      TablesAfterExit(j, s);
    } else if s.main.LoadMaps? || s.main.LoadReduces? {
      TablesAfterLoad(j, s);
    } else {
      TablesAfterWait(j, s);
    }
  }

  lemma MapsAfterReport(j: Spec, s: State, w: nat)
    requires Phases(j, s) && Enabled(j, s, Report(w))
    ensures MapsOk(j, Next(j, s, Report(w)))
  {
    var s' := Next(j, s, Report(w));
    assert WorkerOk(j, s, s.workers[w]);
    forall id | 0 <= id < MapsLoaded(j, s'.main)
      ensures MapDone(j, s', id) || (!Mapped(s'.main) && id in s'.c.states)
    {
      assert MapDone(j, s, id) || (!Mapped(s.main) && id in s.c.states);
    }
  }

  lemma MapsAfterMain(j: Spec, s: State)
    requires MapsOk(j, s) && TablesOk(j, s) && Enabled(j, s, MainStep)
    ensures MapsOk(j, Next(j, s, MainStep))
  {
    var s' := Next(j, s, MainStep);
    assert s'.inter == s.inter;
    forall id | 0 <= id < MapsLoaded(j, s'.main)
      ensures MapDone(j, s', id) || (!Mapped(s'.main) && id in s'.c.states)
    {
      if id < MapsLoaded(j, s.main) { assert MapDone(j, s, id) || (!Mapped(s.main) && id in s.c.states); }
    }
  }

  lemma MapsAfterOther(j: Spec, s: State, step: Step)
    requires MapsOk(j, s) && Enabled(j, s, step) && !step.Report? && !step.MainStep?
    ensures MapsOk(j, Next(j, s, step))
  {
    var s' := Next(j, s, step);
    assert s'.main == s.main && s'.c.states == s.c.states && s.inter.Keys <= s'.inter.Keys;
    assert forall id :: MapDone(j, s, id) ==> MapDone(j, s', id);
  }

  lemma KeepsMaps(j: Spec, s: State, step: Step)
    requires Phases(j, s) && Enabled(j, s, step)
    ensures MapsOk(j, Next(j, s, step))
  {
    match step {
      case Report(w) => MapsAfterReport(j, s, w);
      case MainStep => MapsAfterMain(j, s);
      case _ => MapsAfterOther(j, s, step);
    }
  }

  lemma WorkerStays(j: Spec, s: State, s': State, w: Worker)
    requires j.n > 0 && WorkerOk(j, s, w) && s.inter.Keys <= s'.inter.Keys && s.outs.Keys <= s'.outs.Keys
    requires Mapped(s.main) ==> Mapped(s'.main)
    ensures WorkerOk(j, s', w)
  {
  }

  // The worker whose step it is.
  lemma ActorOk(j: Spec, s: State, step: Step, w: nat)
    requires Phases(j, s) && Enabled(j, s, step) && w in s.workers && WorkerOk(j, s, s.workers[w])
    requires step.WriteBucket? || step.ReadInput? || step.WriteOutput?
    requires step.w == w
    ensures WorkerOk(j, Next(j, s, step), Next(j, s, step).workers[w])
  {
    if step.ReadInput? { FindsInput(j, s, w); }
  }

  lemma AssignedOk(j: Spec, s: State, w: nat)
    requires Phases(j, s) && Enabled(j, s, Reply(w)) && s.c.given[w].Some?
    ensures WorkerOk(j, Next(j, s, Reply(w)), Assigned(s.c.given[w].value))
  {
    assert TaskOk(j, s, s.c.given[w].value);
  }

  // Steps after which a worker holds no task.
  lemma Resting(j: Spec, s: State, step: Step, w: nat)
    requires Enabled(j, s, step) && w in Next(j, s, step).workers
    requires step.Start? || step.Report? || step.Crash? || step.MainStep? || step.Timeout? || step.Request?
    ensures var x := Next(j, s, step).workers[w]; x == Idle || x == Dead || (w in s.workers && x == s.workers[w])
  {
  }

  lemma FilesGrow(j: Spec, s: State, step: Step)
    requires Enabled(j, s, step)
    ensures var s' := Next(j, s, step);
            s.inter.Keys <= s'.inter.Keys && s.outs.Keys <= s'.outs.Keys && (Mapped(s.main) ==> Mapped(s'.main))
  {
  }

  lemma KeepsWorkers(j: Spec, s: State, step: Step, w: nat)
    requires Phases(j, s) && Enabled(j, s, step) && w in Next(j, s, step).workers
    ensures WorkerOk(j, Next(j, s, step), Next(j, s, step).workers[w])
  {
    FilesGrow(j, s, step);
    if w in s.workers && Next(j, s, step).workers[w] == s.workers[w] {
      WorkerStays(j, s, Next(j, s, step), s.workers[w]);
    } else if step.Reply? {
      AssignedOk(j, s, w);
    } else if step.WriteBucket? || step.ReadInput? || step.WriteOutput? {
      ActorOk(j, s, step, w);
    } else {
      Resting(j, s, step, w);
    }
  }

  lemma KeepsCalling(j: Spec, s: State, step: Step)
    requires Calling(s) && Enabled(j, s, step)
    ensures Calling(Next(j, s, step))
  {
  }

  // A reduce worker finds every file it wants to read.
  lemma FindsInput(j: Spec, s: State, w: nat)
    requires Phases(j, s) && Enabled(j, s, ReadInput(w))
    ensures Cell(|s.workers[w].acc|, s.workers[w].id) in s.inter
  {
    assert WorkerOk(j, s, s.workers[w]);
    assert MapDone(j, s, |s.workers[w].acc|);
  }

  lemma {:induction false} PhasesHold(j: Spec, steps: seq<Step>)
    requires j.n > 0 && Run(j, steps).Some?
    ensures Phases(j, Run(j, steps).value)
  {
    NoTaskLost(j, steps);
    if steps != [] {
      var shorter, step := steps[..|steps| - 1], steps[|steps| - 1];
      PhasesHold(j, shorter);
      var s := Run(j, shorter).value;
      KeepsFiles(j, s, step);
      KeepsTables(j, s, step);
      KeepsMaps(j, s, step);
      assert Calling(Next(j, s, step)) by { KeepsCalling(j, s, step); }
      forall w | w in Next(j, s, step).workers ensures WorkerOk(j, Next(j, s, step), Next(j, s, step).workers[w]) {
        KeepsWorkers(j, s, step, w);
      }
    }
  }

  // A reduce task exists, queued or in a worker's hands, only once every map
  // output is in place; so no worker ever misses an input.
  lemma PhaseBarrier(j: Spec, steps: seq<Step>)
    requires j.n > 0 && Run(j, steps).Some?
    ensures var s := Run(j, steps).value;
            && ((exists t :: (Some(t) in s.c.queue || Given(s.c, t)) && t.kind == ReduceKind) ||
                (exists w :: w in s.workers && s.workers[w].Reducing?) ==>
                  forall m, r :: 0 <= m < |j.files| && 0 <= r < j.n ==>
                    Cell(m, r) in s.inter && s.inter[Cell(m, r)] == BucketOf(j, Cell(m, r)))
            && (forall w :: Enabled(j, s, ReadInput(w)) ==> Next(j, s, ReadInput(w)).workers[w] != Dead)
  {
    PhasesHold(j, steps);
    var s := Run(j, steps).value;
    if t :| (Some(t) in s.c.queue || Given(s.c, t)) && t.kind == ReduceKind { assert TaskOk(j, s, t); }
    if w :| w in s.workers && s.workers[w].Reducing? { assert WorkerOk(j, s, s.workers[w]); }
    if Mapped(s.main) {
      forall m, r | 0 <= m < |j.files| && 0 <= r < j.n ensures Cell(m, r) in s.inter { assert MapDone(j, s, m); }
    }
    forall w | Enabled(j, s, ReadInput(w)) ensures Next(j, s, ReadInput(w)).workers[w] != Dead { FindsInput(j, s, w); }
  }

  // ----- the end of the job

  // A report of a map task that strikes a reduce task of the same number off
  // the record while that task's output is missing.
  ghost predicate Strikes(s: State, step: Step) {
    && step.Report? && step.w in s.workers && s.workers[step.w].Reporting?
    && s.workers[step.w].task.kind == MapKind && Mapped(s.main)
    && s.workers[step.w].task.id in s.c.states && s.workers[step.w].task.id !in s.outs
  }

  ghost predicate Unstruck(j: Spec, steps: seq<Step>) {
    forall m :: 0 <= m < |steps| && Run(j, steps[..m]).Some? ==> !Strikes(Run(j, steps[..m]).value, steps[m])
  }

  ghost predicate ReducesOk(j: Spec, s: State) {
    forall r :: 0 <= r < ReducesLoaded(j, s.main) ==> r in s.c.states || r in s.outs
  }

  lemma ReducesAfterReport(j: Spec, s: State, w: nat)
    requires Phases(j, s) && ReducesOk(j, s) && Enabled(j, s, Report(w))
    ensures ReducesOk(j, Next(j, s, Report(w))) <==> !Strikes(s, Report(w))
  {
    var s' := Next(j, s, Report(w));
    var id := s.workers[w].task.id;
    assert WorkerOk(j, s, s.workers[w]);
    if Strikes(s, Report(w)) {
      assert id < ReducesLoaded(j, s'.main) && id !in s'.c.states && id !in s'.outs;
    } else {
      forall r | 0 <= r < ReducesLoaded(j, s'.main) ensures r in s'.c.states || r in s'.outs {
        assert r in s.c.states || r in s.outs;
      }
    }
  }

  lemma ReducesAfterMain(j: Spec, s: State)
    requires Phases(j, s) && ReducesOk(j, s) && Enabled(j, s, MainStep)
    ensures ReducesOk(j, Next(j, s, MainStep))
  {
    var s' := Next(j, s, MainStep);
    forall r | 0 <= r < ReducesLoaded(j, s'.main) ensures r in s'.c.states || r in s'.outs {
      if r < ReducesLoaded(j, s.main) { assert r in s.c.states || r in s.outs; }
    }
  }

  lemma ReducesAfterOther(j: Spec, s: State, step: Step)
    requires ReducesOk(j, s) && Enabled(j, s, step) && !step.Report? && !step.MainStep?
    ensures ReducesOk(j, Next(j, s, step))
  {
    var s' := Next(j, s, step);
    assert s'.main == s.main && s'.c.states == s.c.states && s.outs.Keys <= s'.outs.Keys;
  }

  // Striking off is exactly what breaks the record of the reduce tasks.
  lemma KeepsReduces(j: Spec, s: State, step: Step)
    requires Phases(j, s) && ReducesOk(j, s) && Enabled(j, s, step)
    ensures ReducesOk(j, Next(j, s, step)) <==> !Strikes(s, step)
  {
    match step {
      case Report(w) => ReducesAfterReport(j, s, w);
      case MainStep => ReducesAfterMain(j, s);
      case _ => ReducesAfterOther(j, s, step);
    }
  }

  lemma {:induction false} ReducesHold(j: Spec, steps: seq<Step>)
    requires j.n > 0 && Run(j, steps).Some? && Unstruck(j, steps)
    ensures ReducesOk(j, Run(j, steps).value)
  {
    if steps != [] {
      var shorter := steps[..|steps| - 1];
      assert forall m :: 0 <= m < |shorter| ==> shorter[..m] == steps[..m];
      ReducesHold(j, shorter);
      PhasesHold(j, shorter);
      KeepsReduces(j, Run(j, shorter).value, steps[|steps| - 1]);
    }
  }

  // When Done() is true, every output file is there and holds its reduction.
  lemma DoneMeansDone(j: Spec, steps: seq<Step>)
    requires j.n > 0 && Run(j, steps).Some? && Unstruck(j, steps) && Run(j, steps).value.c.phase == DonePhase
    ensures var s := Run(j, steps).value;
            forall r :: 0 <= r < j.n ==> r in s.outs && OutOk(j, r, s.outs[r])
  {
    var s := Run(j, steps).value;
    PhasesHold(j, steps);
    ReducesHold(j, steps);
    forall r | 0 <= r < j.n ensures r in s.outs && OutOk(j, r, s.outs[r]) {
      assert r in s.c.states || r in s.outs;
    }
  }

  function Outputs(s: State, n: nat): seq<seq<Line>>
    requires forall r :: 0 <= r < n ==> r in s.outs
  {
    seq(n, r requires 0 <= r < n => s.outs[r])
  }

  // The output files of a finished job together are a permutation of what the
  // sequential program prints.
  lemma JobMeansSequential(j: Spec, steps: seq<Step>, lines: seq<Line>)
    requires j.n > 0 && Unordered(j.f) && Run(j, steps).Some? && Unstruck(j, steps)
    requires Run(j, steps).value.c.phase == DonePhase && Reduced(MapAll(j.files, j.mapf), j.f, lines)
    ensures var s := Run(j, steps).value;
            && (forall r :: 0 <= r < j.n ==> r in s.outs)
            && multiset(Flatten(Outputs(s, j.n))) == multiset(lines)
  {
    DoneMeansDone(j, steps);
    var s := Run(j, steps).value;
    var inputs := seq(j.n, r requires 0 <= r < j.n => InputsOf(j, r));
    SameMeaning(j.files, j.mapf, j.hash, j.n, j.f, lines, inputs, Outputs(s, j.n));
  }

  // ----- accurate timeouts

  function Held(w: Worker): Option<Task> {
    match w
    case Mapping(id, _) => Some(Task(id, MapKind))
    case Reducing(id, _) => Some(Task(id, ReduceKind))
    case Reporting(t) => Some(t)
    case _ => None
  }

  ghost predicate Queued(s: State, p: nat, t: Task) {
    p < |s.c.queue| && s.c.queue[p] == Some(t) && t.kind != ExitKind
  }

  // Worker w has the task, or its request has been given it.
  ghost predicate Holds(s: State, w: nat, t: Task) {
    || (w in s.workers && Held(s.workers[w]) == Some(t))
    || (w in s.c.given && s.c.given[w] == Some(t) && t.kind != ExitKind)
  }

  // The monitor gives up only on a task that is unfinished, in no living
  // worker's hands, on its way to none and not queued.
  ghost predicate Accurate(s: State, step: Step) {
    step.Timeout? ==>
      && step.id in s.c.tasks
      && (forall p, t :: Queued(s, p, t) ==> t.id != step.id)
      && (forall w, t :: Holds(s, w, t) ==> t.id != step.id)
  }

  ghost predicate AccurateRun(j: Spec, steps: seq<Step>) {
    forall m :: 0 <= m < |steps| && Run(j, steps[..m]).Some? ==> Accurate(Run(j, steps[..m]).value, steps[m])
  }

  // Every unfinished task is in one place at most, as the table has it.
  ghost predicate OnePlace(s: State) {
    && None !in s.c.queue && !s.panicked && (forall w :: w in s.c.given ==> s.c.given[w].Some?)
    && (forall p, t :: Queued(s, p, t) ==> t.id in s.c.states && s.c.states[t.id] == t.kind)
    && (forall w, t :: Holds(s, w, t) ==> t.id in s.c.states && s.c.states[t.id] == t.kind)
    && (forall p, q, t, u :: Queued(s, p, t) && Queued(s, q, u) && t.id == u.id ==> p == q)
    && (forall w, v, t, u :: Holds(s, w, t) && Holds(s, v, u) && t.id == u.id ==> w == v)
    && (forall p, w, t, u :: Queued(s, p, t) && Holds(s, w, u) ==> t.id != u.id)
  }

  lemma PlaceAfterLoad(s: State, s': State, t: Task)
    requires OnePlace(s) && t.id !in s.c.states && t.kind != ExitKind
    requires s'.c == Load(s.c, t) && s'.workers == s.workers && s'.panicked == s.panicked
    ensures OnePlace(s')
  {
    assert forall w, u :: Holds(s', w, u) <==> Holds(s, w, u);
    assert forall p, u :: Queued(s', p, u) <==> Queued(s, p, u) || (p == |s.c.queue| && u == t);
  }

  lemma PlaceAfterRequest(j: Spec, s: State, w: nat)
    requires Phases(j, s) && OnePlace(s) && Enabled(j, s, Request(w))
    ensures OnePlace(Next(j, s, Request(w)))
  {
    var s' := Next(j, s, Request(w));
    assert s.c.queue[0] in s.c.queue;
    var t := s.c.queue[0].value;
    assert forall p: nat, u :: Queued(s', p, u) ==> Queued(s, p + 1, u);
    assert t.kind != ExitKind ==> Queued(s, 0, t);
    assert forall v, u :: Holds(s', v, u) ==> Holds(s, v, u) || (v == w && u == t && t.kind != ExitKind);
    forall x | x in s'.c.queue ensures x in s.c.queue {}
  }

  lemma PlaceAfterReply(j: Spec, s: State, w: nat)
    requires Phases(j, s) && OnePlace(s) && Enabled(j, s, Reply(w))
    ensures OnePlace(Next(j, s, Reply(w)))
  {
    var s' := Next(j, s, Reply(w));
    assert forall p, u :: Queued(s', p, u) <==> Queued(s, p, u);
    assert forall v, u :: Holds(s', v, u) ==> Holds(s, v, u);
  }

  // A worker goes on with its task, or drops it.
  lemma PlaceAfterWork(s: State, s': State)
    requires OnePlace(s) && s'.c == s.c && !s'.panicked
    requires forall v, u :: Holds(s', v, u) ==> Holds(s, v, u)
    ensures OnePlace(s')
  {
    assert forall p, u :: Queued(s', p, u) <==> Queued(s, p, u);
  }

  lemma PlaceAfterReport(j: Spec, s: State, w: nat)
    requires Phases(j, s) && OnePlace(s) && Enabled(j, s, Report(w))
    ensures OnePlace(Next(j, s, Report(w)))
  {
    var s' := Next(j, s, Report(w));
    var t := s.workers[w].task;
    assert Holds(s, w, t);
    assert forall p, u :: Queued(s', p, u) <==> Queued(s, p, u);
    assert forall v, u :: Holds(s', v, u) ==> Holds(s, v, u) && v != w;
  }

  lemma PlaceAfterTimeout(j: Spec, s: State, id: nat)
    requires Phases(j, s) && OnePlace(s) && Enabled(j, s, Timeout(id)) && Accurate(s, Timeout(id))
    ensures OnePlace(Next(j, s, Timeout(id)))
  {
    var s' := Next(j, s, Timeout(id));
    assert forall w, u :: Holds(s', w, u) <==> Holds(s, w, u);
    assert forall p, u :: Queued(s', p, u) ==> Queued(s, p, u) || (p == |s.c.queue| && u == s.c.tasks[id]);
  }

  lemma PlaceAfterMain(j: Spec, s: State)
    requires Phases(j, s) && OnePlace(s) && Enabled(j, s, MainStep)
    ensures OnePlace(Next(j, s, MainStep))
  {
    if s.main.LoadMaps? && s.main.i < |j.files| {
      PlaceAfterLoad(s, Next(j, s, MainStep), Task(s.main.i, MapKind));
    } else if s.main.LoadReduces? && s.main.i < j.n {
      PlaceAfterLoad(s, Next(j, s, MainStep), Task(s.main.i, ReduceKind));
    } else {
      LoadsNothing(j, s);
      SamePlaces(s, Next(j, s, MainStep));
    }
  }

  lemma LoadsNothing(j: Spec, s: State)
    requires Enabled(j, s, MainStep)
    requires !(s.main.LoadMaps? && s.main.i < |j.files|) && !(s.main.LoadReduces? && s.main.i < j.n)
    ensures var s' := Next(j, s, MainStep);
            && s'.c.states == s.c.states && s'.c.given == s.c.given && s'.workers == s.workers
            && s'.panicked == s.panicked
            && (s'.c.queue == s.c.queue || exists i :: s'.c.queue == s.c.queue + [Some(Task(i, ExitKind))])
  {
  }

  lemma SamePlaces(s: State, s': State)
    requires OnePlace(s) && s'.c.states == s.c.states && s'.c.given == s.c.given
    requires s'.workers == s.workers && s'.panicked == s.panicked
    requires s'.c.queue == s.c.queue || exists i :: s'.c.queue == s.c.queue + [Some(Task(i, ExitKind))]
    ensures OnePlace(s')
  {
    assert forall p, u :: Queued(s', p, u) <==> Queued(s, p, u);
    assert forall w, u :: Holds(s', w, u) <==> Holds(s, w, u);
  }

  lemma KeepsTask(j: Spec, s: State, step: Step)
    requires Enabled(j, s, step)
    requires step.Start? || step.WriteBucket? || step.ReadInput? || step.WriteOutput? || step.Crash?
    ensures var s' := Next(j, s, step);
            s'.c == s.c && s'.panicked == s.panicked && forall v, u :: Holds(s', v, u) ==> Holds(s, v, u)
  {
  }

  lemma KeepsPlaces(j: Spec, s: State, step: Step)
    requires Phases(j, s) && OnePlace(s) && Enabled(j, s, step) && Accurate(s, step)
    ensures OnePlace(Next(j, s, step))
  {
    match step {
      case MainStep => PlaceAfterMain(j, s);
      case Request(w) => PlaceAfterRequest(j, s, w);
      case Reply(w) => PlaceAfterReply(j, s, w);
      case Report(w) => PlaceAfterReport(j, s, w);
      case Timeout(id) => PlaceAfterTimeout(j, s, id);
      case _ =>
        KeepsTask(j, s, step);
        PlaceAfterWork(s, Next(j, s, step));
    }
  }

  lemma {:induction false} PlacesHold(j: Spec, steps: seq<Step>)
    requires j.n > 0 && Run(j, steps).Some? && AccurateRun(j, steps)
    ensures OnePlace(Run(j, steps).value)
  {
    if steps != [] {
      var shorter := steps[..|steps| - 1];
      assert forall m :: 0 <= m < |shorter| ==> shorter[..m] == steps[..m];
      PlacesHold(j, shorter);
      PhasesHold(j, shorter);
      KeepsPlaces(j, Run(j, shorter).value, steps[|steps| - 1]);
    }
  }

  // With accurate timeouts no report strikes off a task of the other phase,
  // and the coordinator never meets a nil task.
  lemma AccurateIsUnstruck(j: Spec, steps: seq<Step>)
    requires j.n > 0 && Run(j, steps).Some? && AccurateRun(j, steps)
    ensures Unstruck(j, steps) && !Run(j, steps).value.panicked
  {
    PlacesHold(j, steps);
    forall m | 0 <= m < |steps| && Run(j, steps[..m]).Some?
      ensures !Strikes(Run(j, steps[..m]).value, steps[m])
    {
      var prefix := steps[..m];
      assert forall i :: 0 <= i < m ==> prefix[..i] == steps[..i];
      PlacesHold(j, prefix);
      PhasesHold(j, prefix);
      var s := Run(j, prefix).value;
      if Strikes(s, steps[m]) { assert Holds(s, steps[m].w, s.workers[steps[m].w].task); }
    }
  }
}
