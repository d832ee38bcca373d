/** Sequences of container operations: what holds after any number of them. */
module ContextRuns {
  import opened Base
  import opened AppContext

  /** One operation the container defines, with the clock reading and fresh
      id it consumes. */
  datatype Op =
    | DoLockApp(now: int)
    | DoUnlockApp
    | DoAddTask(id: string, text: string)
    | DoRemoveTask(id: string)
    | DoCompleteTask(id: string)
    | DoLockTasks
    | DoAddJournalEntry(id: string, content: string, now: int)
    | DoIncrementStreak
    | DoResetStreak

  function Apply(s: State, store: Store, op: Op): Step
  {
    match op
    case DoLockApp(now) => LockApp(s, store, now)
    case DoUnlockApp => UnlockApp(s, store)
    case DoAddTask(id, text) => AddTask(s, store, id, text)
    case DoRemoveTask(id) => RemoveTask(s, store, id)
    case DoCompleteTask(id) => CompleteTask(s, store, id)
    case DoLockTasks => LockTasks(s, store)
    case DoAddJournalEntry(id, content, now) => AddJournalEntry(s, store, id, content, now)
    case DoIncrementStreak => IncrementStreak(s, store)
    case DoResetStreak => ResetStreak(s, store)
  }

  /** Runs the operations in order, collecting every notification. */
  function Run(s: State, store: Store, ops: seq<Op>): Step
    decreases |ops|
  {
    if ops == [] then Step(s, store, [])
    else
      var first := Apply(s, store, ops[0]);
      var rest := Run(first.state, first.store, ops[1..]);
      Step(rest.state, rest.store, first.toasts + rest.toasts)
  }

  /** Every single operation keeps the store a mirror of the state. */
  lemma ApplyKeepsMirror(s: State, store: Store, op: Op)
    requires Mirrors(s, store)
    ensures Mirrors(Apply(s, store, op).state, Apply(s, store, op).store)
  {
  }

  /** From at most three tasks, no sequence of operations makes more. */
  lemma {:induction false} RunKeepsTaskCap(s: State, store: Store, ops: seq<Op>)
    requires |s.tasks| <= MaxTasks
    ensures |Run(s, store, ops).state.tasks| <= MaxTasks
    decreases |ops|
  {
    if ops != [] {
      var first := Apply(s, store, ops[0]);
      RunKeepsTaskCap(first.state, first.store, ops[1..]);
    }
  }

  /** Once locked, the task list stays locked: no operation unlocks it. */
  lemma {:induction false} RunKeepsTasksLocked(s: State, store: Store, ops: seq<Op>)
    requires s.tasksLocked
    ensures Run(s, store, ops).state.tasksLocked
    decreases |ops|
  {
    if ops != [] {
      var first := Apply(s, store, ops[0]);
      RunKeepsTasksLocked(first.state, first.store, ops[1..]);
    }
  }

  /** While the task list is locked, no operation adds or removes a task;
      the list only changes by completion toggles, so its ids and texts are
      those it started with. */
  lemma {:induction false} RunFreezesLockedTasks(s: State, store: Store, ops: seq<Op>)
    requires s.tasksLocked
    ensures var r := Run(s, store, ops).state;
      && |r.tasks| == |s.tasks|
      && forall i :: 0 <= i < |s.tasks| ==> r.tasks[i].id == s.tasks[i].id && r.tasks[i].text == s.tasks[i].text
    decreases |ops|
  {
    if ops != [] {
      var first := Apply(s, store, ops[0]);
      RunFreezesLockedTasks(first.state, first.store, ops[1..]);
    }
  }

  /** The journal only grows at its end: what was there stays there. */
  lemma {:induction false} RunJournalAppendOnly(s: State, store: Store, ops: seq<Op>)
    ensures s.journal <= Run(s, store, ops).state.journal
    decreases |ops|
  {
    if ops != [] {
      var first := Apply(s, store, ops[0]);
      RunJournalAppendOnly(first.state, first.store, ops[1..]);
    }
  }

  /** Every sequence of operations keeps the store a mirror of the state. */
  lemma {:induction false} RunKeepsMirror(s: State, store: Store, ops: seq<Op>)
    requires Mirrors(s, store)
    ensures Mirrors(Run(s, store, ops).state, Run(s, store, ops).store)
    decreases |ops|
  {
    if ops != [] {
      var first := Apply(s, store, ops[0]);
      ApplyKeepsMirror(s, store, ops[0]);
      RunKeepsMirror(first.state, first.store, ops[1..]);
    }
  }

  /** Persistence round trip: start from a fresh mount, run any operations,
      then reload at any later time. The reload reproduces the in-memory
      state, except that a lock whose time has come is lifted (and its key
      erased). */
  lemma ReloadAfterRun(mount: int, ops: seq<Op>, now: int)
    ensures Load(EmptyStore, mount) == Success(Loaded(Initial, EmptyStore))
    ensures var r := Run(Initial, EmptyStore, ops);
      Load(r.store, now) == Success(Loaded(Expire(r.state, now), ExpireStore(r.store, now)))
  {
    LoadEmptyStore(mount);
    RunKeepsMirror(Initial, EmptyStore, ops);
    var r := Run(Initial, EmptyStore, ops);
    LoadMirrored(r.state, r.store, now);
  }

  /** "All Tasks Complete" is announced on every toggle that leaves the list
      all complete, not once per day: un-completing a task and completing it
      again announces a second time. */
  lemma AllCompleteAnnouncedAgain(s: State, store: Store, id: string)
    requires |s.tasks| == 1 && s.tasks[0].id == id && s.tasks[0].completed
    ensures Run(s, store, [DoCompleteTask(id), DoCompleteTask(id)]).toasts == [Toast(AllTasksComplete, Plain)]
    ensures Run(s, store, [DoCompleteTask(id), DoCompleteTask(id), DoCompleteTask(id), DoCompleteTask(id)]).toasts
      == [Toast(AllTasksComplete, Plain), Toast(AllTasksComplete, Plain)]
  {
    var done := s.tasks;
    var open := [s.tasks[0].(completed := false)];
    assert ToggleId(done, id) == open;
    assert ToggleId(open, id) == done;
    assert !AllCompleted(open);
    var a := Apply(s, store, DoCompleteTask(id));
    assert a.state == s.(tasks := open) && a.toasts == [];
    var b := Apply(a.state, a.store, DoCompleteTask(id));
    assert b.state == s && b.toasts == [Toast(AllTasksComplete, Plain)];
    var two := [DoCompleteTask(id), DoCompleteTask(id)];
    assert Run(b.state, b.store, []).toasts == [];
    assert Run(a.state, a.store, two[1..]).toasts == b.toasts;
    assert Run(s, store, two).toasts == [Toast(AllTasksComplete, Plain)];
    assert Run(s, store, two).state == s;
    var four := two + two;
    assert four[1..][1..] == two;
    assert Run(b.state, b.store, four[1..][1..]).toasts == [Toast(AllTasksComplete, Plain)];
    assert Run(a.state, a.store, four[1..]).toasts == [Toast(AllTasksComplete, Plain)] + [Toast(AllTasksComplete, Plain)];
  }

  /** Running the first operation, then the rest. */
  lemma RunCons(s: State, store: Store, op: Op, ops: seq<Op>)
    ensures var first := Apply(s, store, op);
      var rest := Run(first.state, first.store, ops);
      Run(s, store, [op] + ops) == Step(rest.state, rest.store, first.toasts + rest.toasts)
  {
    assert ([op] + ops)[1..] == ops;
  }

  const Workout := Task("1", "Workout", false)
  const Write := Task("2", "Write", false)
  const Read := Task("3", "Read", false)
  const ThreeTasks := [Workout, Write, Read]
  const AllThreeDone := [Workout.(completed := true), Write.(completed := true), Read.(completed := true)]

  /** Three accepted adds from a fresh mount, followed by anything. */
  lemma ExampleAdds(tail: seq<Op>)
    ensures var r := Run(Initial.(tasks := ThreeTasks), EmptyStore.(tasks := Holds(ThreeTasks)), tail);
      Run(Initial, EmptyStore, [DoAddTask("1", "Workout"), DoAddTask("2", "Write"), DoAddTask("3", "Read")] + tail) == r
  {
    var s1 := Initial.(tasks := [Workout]);
    var st1 := EmptyStore.(tasks := Holds([Workout]));
    var s2 := Initial.(tasks := [Workout, Write]);
    var st2 := EmptyStore.(tasks := Holds([Workout, Write]));
    assert Apply(Initial, EmptyStore, DoAddTask("1", "Workout")) == Step(s1, st1, []);
    assert [Workout] + [Write] == [Workout, Write];
    assert Apply(s1, st1, DoAddTask("2", "Write")) == Step(s2, st2, []);
    assert [Workout, Write] + [Read] == ThreeTasks;
    assert Apply(s2, st2, DoAddTask("3", "Read")) == Step(Initial.(tasks := ThreeTasks), EmptyStore.(tasks := Holds(ThreeTasks)), []);
    RunCons(s2, st2, DoAddTask("3", "Read"), tail);
    RunCons(s1, st1, DoAddTask("2", "Write"), [DoAddTask("3", "Read")] + tail);
    RunCons(Initial, EmptyStore, DoAddTask("1", "Workout"), [DoAddTask("2", "Write")] + ([DoAddTask("3", "Read")] + tail));
    assert [DoAddTask("1", "Workout")] + ([DoAddTask("2", "Write")] + ([DoAddTask("3", "Read")] + tail))
      == [DoAddTask("1", "Workout"), DoAddTask("2", "Write"), DoAddTask("3", "Read")] + tail;
  }

  /** At the cap: an add refused as full, the lock-in, an add refused as
      locked, followed by anything. */
  lemma ExampleRefusals(s: State, store: Store, tail: seq<Op>)
    requires s == Initial.(tasks := ThreeTasks)
    ensures var r := Run(s.(tasksLocked := true), store.(tasksLocked := Holds(true)), tail);
      Run(s, store, [DoAddTask("4", "Meditate"), DoLockTasks, DoAddTask("5", "X")] + tail)
      == Step(r.state, r.store,
              [Toast(MaximumTasksReached, Destructive), Toast(TasksLockedIn, Plain), Toast(TasksLocked, Destructive)] + r.toasts)
  {
    var locked := s.(tasksLocked := true);
    var lockedStore := store.(tasksLocked := Holds(true));
    var full, lockIn, refused := Toast(MaximumTasksReached, Destructive), Toast(TasksLockedIn, Plain), Toast(TasksLocked, Destructive);
    var r := Run(locked, lockedStore, tail);
    var r3 := Run(locked, lockedStore, [DoAddTask("5", "X")] + tail);
    assert r3 == Step(r.state, r.store, [refused] + r.toasts) by {
      assert Apply(locked, lockedStore, DoAddTask("5", "X")) == Step(locked, lockedStore, [refused]);
      RunCons(locked, lockedStore, DoAddTask("5", "X"), tail);
    }
    var r2 := Run(s, store, [DoLockTasks] + ([DoAddTask("5", "X")] + tail));
    assert r2 == Step(r.state, r.store, [lockIn] + ([refused] + r.toasts)) by {
      assert Apply(s, store, DoLockTasks) == Step(locked, lockedStore, [lockIn]);
      RunCons(s, store, DoLockTasks, [DoAddTask("5", "X")] + tail);
    }
    var r1 := Run(s, store, [DoAddTask("4", "Meditate")] + ([DoLockTasks] + ([DoAddTask("5", "X")] + tail)));
    assert r1 == Step(r.state, r.store, [full] + ([lockIn] + ([refused] + r.toasts))) by {
      assert Apply(s, store, DoAddTask("4", "Meditate")) == Step(s, store, [full]);
      RunCons(s, store, DoAddTask("4", "Meditate"), [DoLockTasks] + ([DoAddTask("5", "X")] + tail));
    }
    assert [full] + ([lockIn] + ([refused] + r.toasts)) == [full, lockIn, refused] + r.toasts;
    assert [DoAddTask("4", "Meditate")] + ([DoLockTasks] + ([DoAddTask("5", "X")] + tail))
      == [DoAddTask("4", "Meditate"), DoLockTasks, DoAddTask("5", "X")] + tail;
  }

  const DoneFirst := [Workout.(completed := true), Write, Read]
  const DoneTwo := [Workout.(completed := true), Write.(completed := true), Read]

  lemma ExampleToggles()
    ensures ToggleId(ThreeTasks, "1") == DoneFirst
    ensures ToggleId(DoneFirst, "2") == DoneTwo
    ensures ToggleId(DoneTwo, "3") == AllThreeDone
    ensures !AllCompleted(DoneFirst) && !AllCompleted(DoneTwo) && AllCompleted(AllThreeDone)
  {
    assert !DoneFirst[1].completed;
    assert !DoneTwo[2].completed;
  }

  lemma ExampleCompletions(s: State, store: Store)
    requires s.tasks == ThreeTasks
    ensures var r := Run(s, store, [DoCompleteTask("1"), DoCompleteTask("2"), DoCompleteTask("3")]);
      r.state == s.(tasks := AllThreeDone) && r.toasts == [Toast(AllTasksComplete, Plain)]
  {
    ExampleToggles();
    var a := Apply(s, store, DoCompleteTask("1"));
    assert a.state == s.(tasks := DoneFirst) && a.toasts == [];
    var b := Apply(a.state, a.store, DoCompleteTask("2"));
    assert b.state == s.(tasks := DoneTwo) && b.toasts == [];
    var c := Apply(b.state, b.store, DoCompleteTask("3"));
    assert c.state == s.(tasks := AllThreeDone) && c.toasts == [Toast(AllTasksComplete, Plain)];
    RunCons(b.state, b.store, DoCompleteTask("3"), []);
    assert [DoCompleteTask("3")] + [] == [DoCompleteTask("3")];
    RunCons(a.state, a.store, DoCompleteTask("2"), [DoCompleteTask("3")]);
    assert [DoCompleteTask("2")] + [DoCompleteTask("3")] == [DoCompleteTask("2"), DoCompleteTask("3")];
    RunCons(s, store, DoCompleteTask("1"), [DoCompleteTask("2"), DoCompleteTask("3")]);
    assert [DoCompleteTask("1")] + [DoCompleteTask("2"), DoCompleteTask("3")]
      == [DoCompleteTask("1"), DoCompleteTask("2"), DoCompleteTask("3")];
  }

  /** A day from a fresh mount: three tasks, a fourth refused at the cap,
      the list locked in, a further add refused as locked, then all three
      completed, which is announced once, on the last completion. */
  lemma ExampleDay()
    ensures var r := Run(Initial, EmptyStore, [
        DoAddTask("1", "Workout"), DoAddTask("2", "Write"), DoAddTask("3", "Read"),
        DoAddTask("4", "Meditate"), DoLockTasks, DoAddTask("5", "X"),
        DoCompleteTask("1"), DoCompleteTask("2"), DoCompleteTask("3")]);
      && r.state.tasks == AllThreeDone
      && r.state.tasksLocked
      && r.toasts == [Toast(MaximumTasksReached, Destructive), Toast(TasksLockedIn, Plain),
                      Toast(TasksLocked, Destructive), Toast(AllTasksComplete, Plain)]
  {
    var completes := [DoCompleteTask("1"), DoCompleteTask("2"), DoCompleteTask("3")];
    var s3 := Initial.(tasks := ThreeTasks);
    var st3 := EmptyStore.(tasks := Holds(ThreeTasks));
    ExampleCompletions(s3.(tasksLocked := true), st3.(tasksLocked := Holds(true)));
    ExampleRefusals(s3, st3, completes);
    ExampleAdds([DoAddTask("4", "Meditate"), DoLockTasks, DoAddTask("5", "X")] + completes);
    assert [DoAddTask("1", "Workout"), DoAddTask("2", "Write"), DoAddTask("3", "Read")]
        + ([DoAddTask("4", "Meditate"), DoLockTasks, DoAddTask("5", "X")] + completes) == [
        DoAddTask("1", "Workout"), DoAddTask("2", "Write"), DoAddTask("3", "Read"),
        DoAddTask("4", "Meditate"), DoLockTasks, DoAddTask("5", "X"),
        DoCompleteTask("1"), DoCompleteTask("2"), DoCompleteTask("3")];
  }
}
