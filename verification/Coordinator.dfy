/** The coordinator's tables and channel, and its handlers. */
module Coordinator {
  import opened Options

  datatype Kind = MapKind | ReduceKind | ExitKind

  datatype Task = Task(id: nat, kind: Kind)

  datatype Phase = MapPhase | ReducePhase | DonePhase

  // states is TaskMapState, alive the identifiers in TaskAliveDetector. The
  // channel can hold nil (None); it is unbounded here, since a full channel
  // only delays its sender. given holds the task that the handler of a worker's
  // request has received but not yet entered in TaskAliveDetector.
  datatype Tables = Tables(states: map<nat, Kind>, alive: set<nat>, tasks: map<nat, Task>,
                           queue: seq<Option<Task>>, given: map<nat, Option<Task>>, phase: Phase)

  const EMPTY := Tables(map[], {}, map[], [], map[], MapPhase)

  function Load(c: Tables, t: Task): Tables {
    c.(states := c.states[t.id := t.kind], tasks := c.tasks[t.id := t], queue := c.queue + [Some(t)])
  }

  // The two halves of AllocateTask, for worker w.
  function Receive(c: Tables, w: nat): Tables
    requires c.queue != []
  {
    c.(queue := c.queue[1..], given := c.given[w := c.queue[0]])
  }

  function Watch(c: Tables, w: nat): Tables
    requires w in c.given
  {
    c.(given := c.given - {w}, alive := if c.given[w].Some? then c.alive + {c.given[w].value.id} else c.alive)
  }

  function MarkDone(c: Tables, id: nat): Tables {
    c.(alive := c.alive - {id}, tasks := c.tasks - {id}, states := c.states - {id})
  }

  // The monitor finds id silent for too long; a task no longer known is sent as nil.
  function Reissue(c: Tables, id: nat): Tables {
    c.(queue := c.queue + [if id in c.tasks then Some(c.tasks[id]) else None])
  }

  predicate Waiting(c: Tables, kind: Kind) { exists id :: id in c.states && c.states[id] == kind }

  // Panic is the dereference of a nil task.
  datatype Answer = Wait | Exit | Give(task: Task) | Panic

  predicate Given(c: Tables, t: Task) { exists w :: w in c.given && c.given[w] == Some(t) }

  // Every task on record can still be handed out: a copy of it is in the
  // channel or with a handler that is about to have it watched, or the monitor
  // watches it. And the two tables name the same tasks.
  ghost predicate NoneLost(c: Tables) {
    && c.tasks.Keys == c.states.Keys
    && (forall id :: id in c.tasks ==> c.tasks[id] == Task(id, c.states[id]))
    && (forall id :: id in c.states ==> Kept(c, Task(id, c.states[id])))
  }

  predicate Kept(c: Tables, t: Task) { t.id in c.alive || Some(t) in c.queue || Given(c, t) }

  lemma LoadKeeps(c: Tables, t: Task)
    requires NoneLost(c)
    ensures NoneLost(Load(c, t))
  {
    var c' := Load(c, t);
    assert c'.queue[|c.queue|] == Some(t);
    forall id | id in c'.states ensures Kept(c', Task(id, c'.states[id])) {
      if id != t.id { assert Kept(c, Task(id, c.states[id])); }
    }
  }

  lemma ReceiveKeeps(c: Tables, w: nat)
    requires NoneLost(c) && c.queue != [] && w !in c.given
    ensures NoneLost(Receive(c, w))
  {
    var c' := Receive(c, w);
    assert c.queue == [c.queue[0]] + c'.queue;
    forall id | id in c'.states ensures Kept(c', Task(id, c'.states[id])) {
      var t := Task(id, c.states[id]);
      assert Kept(c, t);
      if v :| v in c.given && c.given[v] == Some(t) { assert v in c'.given && c'.given[v] == Some(t); }
      if c.queue[0] == Some(t) { assert w in c'.given && c'.given[w] == Some(t); }
    }
  }

  lemma WatchKeeps(c: Tables, w: nat)
    requires NoneLost(c) && w in c.given
    ensures NoneLost(Watch(c, w))
  {
    var c' := Watch(c, w);
    forall id | id in c'.states ensures Kept(c', Task(id, c'.states[id])) {
      var t := Task(id, c.states[id]);
      assert Kept(c, t);
      if v :| v in c.given && c.given[v] == Some(t) { assert v == w || (v in c'.given && c'.given[v] == Some(t)); }
    }
  }

  lemma MarkDoneKeeps(c: Tables, id: nat)
    requires NoneLost(c)
    ensures NoneLost(MarkDone(c, id)) && id !in MarkDone(c, id).states
  {
    var c' := MarkDone(c, id);
    forall i | i in c'.states ensures Kept(c', Task(i, c'.states[i])) { SameGiven(c, c', Task(i, c.states[i])); }
  }

  lemma ReissueKeeps(c: Tables, id: nat)
    requires NoneLost(c)
    ensures NoneLost(Reissue(c, id))
  {
    var c' := Reissue(c, id);
    forall i | i in c'.states ensures Kept(c', Task(i, c'.states[i])) { SameGiven(c, c', Task(i, c.states[i])); }
  }

  lemma SameGiven(c: Tables, c': Tables, t: Task)
    requires Kept(c, t) && c'.given == c.given && c.queue <= c'.queue && (t.id in c.alive ==> t.id in c'.alive)
    ensures Kept(c', t)
  {
    assert Given(c, t) ==> Given(c', t);
  }

  /** The coordinator object. Clock readings are left to the caller: stale says
      whether an entry is older than ten seconds. */
  class Server {
    var TaskMapState: map<nat, Kind>
    var TaskAliveDetector: set<nat>
    var Tasks: map<nat, Task>
    var TaskChan: seq<Option<Task>>
    var Received: map<nat, Option<Task>>   // the local variables of running handlers
    var CurrentPhase: Phase

    ghost function View(): Tables
      reads this
    {
      Tables(TaskMapState, TaskAliveDetector, Tasks, TaskChan, Received, CurrentPhase)
    }

    constructor ()
      ensures View() == EMPTY && NoneLost(View())
    {
      TaskMapState, TaskAliveDetector, Tasks, TaskChan, Received := map[], {}, map[], [], map[];
      CurrentPhase := MapPhase;
    }

    method AddTask(t: Task)
      requires NoneLost(View())
      modifies this
      ensures View() == Load(old(View()), t) && NoneLost(View())
    {
      LoadKeeps(View(), t);
      TaskMapState := TaskMapState[t.id := t.kind];
      Tasks := Tasks[t.id := t];
      TaskChan := TaskChan + [Some(t)];
    }

    // The first half of AllocateTask. With an empty channel it is all: the
    // caller waits, or leaves once all is done.
    method ReceiveTask(w: nat) returns (reply: Option<Answer>)
      requires NoneLost(View()) && w !in Received
      modifies this
      ensures NoneLost(View())
      ensures old(TaskChan) != [] ==> View() == Receive(old(View()), w) && reply == None
      ensures old(TaskChan) == [] ==>
                View() == old(View()) && reply == Some(if CurrentPhase == DonePhase then Exit else Wait)
    {
      if TaskChan == [] {
        if CurrentPhase == DonePhase {
          return Some(Exit);
        }
        return Some(Wait);
      }
      ReceiveKeeps(View(), w);
      Received := Received[w := TaskChan[0]];
      TaskChan := TaskChan[1..];
      return None;
    }

    // The second half, once the handler has the lock.
    method WatchTask(w: nat) returns (reply: Answer)
      requires NoneLost(View()) && w in Received
      modifies this
      ensures NoneLost(View()) && View() == Watch(old(View()), w)
      ensures reply == match old(Received[w]) case Some(t) => Give(t) case None => Panic
    {
      WatchKeeps(View(), w);
      var task := Received[w];
      Received := Received - {w};
      if task.None? {
        return Panic;
      }
      TaskAliveDetector := TaskAliveDetector + {task.value.id};
      return Give(task.value);
    }

    method MarkTaskDone(id: nat)
      requires NoneLost(View())
      modifies this
      ensures View() == MarkDone(old(View()), id) && NoneLost(View())
    {
      MarkDoneKeeps(View(), id);
      TaskAliveDetector := TaskAliveDetector - {id};
      Tasks := Tasks - {id};
      TaskMapState := TaskMapState - {id};
    }

    // One round of the monitor: all silent entries are sent again.
    method Monitor(stale: set<nat>) returns (ghost sent: seq<nat>)
      requires NoneLost(View())
      modifies this
      ensures NoneLost(View()) && View() == ReissueAll(old(View()), sent)
      ensures forall id :: id in sent <==> id in stale * old(TaskAliveDetector)
    {
      sent := [];
      var rest := TaskAliveDetector;
      while rest != {}
        invariant NoneLost(View()) && View() == ReissueAll(old(View()), sent)
        invariant TaskAliveDetector == old(TaskAliveDetector) && rest <= TaskAliveDetector
        invariant forall id :: id in sent <==> id in stale && id in TaskAliveDetector - rest
      {
        var id :| id in rest;
        if id in stale {
          ReissueKeeps(View(), id);
          assert (sent + [id])[..|sent|] == sent;
          TaskChan := TaskChan + [if id in Tasks then Some(Tasks[id]) else None];
          sent := sent + [id];
        }
        rest := rest - {id};
      }
    }

    method Done() returns (ret: bool)
      ensures ret <==> CurrentPhase == DonePhase
    {
      return CurrentPhase == DonePhase;
    }
  }

  function ReissueAll(c: Tables, ids: seq<nat>): Tables {
    if ids == [] then c else Reissue(ReissueAll(c, ids[..|ids| - 1]), ids[|ids| - 1])
  }
}
