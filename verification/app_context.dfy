/** The shared state container of the app (`AppProvider`): lock state, the
    day's tasks, the one-way task lock, the journal and the streak.

    Every operation is a pure transition from the current `State` and the
    current durable `Store` to a `Step`: the new state, the store after the
    operation's writes, and the notifications ("toasts") it emits. The clock
    is an integer millisecond parameter; ids are parameters as well. */
module AppContext {
  import opened Base

  /** At most this many tasks may be added. */
  const MaxTasks := 3
  /** `lockApp` always locks for 12 hours. */
  const LockDurationMs := 12 * 60 * 60 * 1000

  datatype Task = Task(id: string, text: string, completed: bool)

  /** `date` is the creation time in milliseconds. */
  datatype JournalEntry = JournalEntry(id: string, content: string, date: int)

  datatype State = State(
    isLocked: bool,
    lockUntil: Option<int>,
    tasks: seq<Task>,
    tasksLocked: bool,
    journal: seq<JournalEntry>,
    streak: int)

  /** The state before anything is loaded. */
  const Initial := State(false, None, [], false, [], 0)

  /** What one storage key holds: nothing, the empty string (which reads as
      absent), text the slice's reader rejects, or the encoding of a value. */
  datatype Slot<T> = Missing | EmptyText | Unreadable | Holds(value: T)

  /** The five keys the container writes, one slot each: `lockUntil`,
      `tasks`, `tasksLocked`, `journalEntries`, `currentStreak`. */
  datatype Store = Store(
    lockUntil: Slot<int>,
    tasks: Slot<seq<Task>>,
    tasksLocked: Slot<bool>,
    journal: Slot<seq<JournalEntry>>,
    streak: Slot<int>)

  const EmptyStore := Store(Missing, Missing, Missing, Missing, Missing)

  datatype Severity = Plain | Destructive

  datatype Title =
    | AppLocked | AppUnlocked | TasksLocked | MaximumTasksReached
    | AllTasksComplete | TasksLockedIn | JournalEntrySaved | StreakReset

  datatype Toast = Toast(title: Title, severity: Severity)

  datatype Step = Step(state: State, store: Store, toasts: seq<Toast>)

  // ---------------------------------------------------------------------
  // Task list helpers

  predicate HasId(ts: seq<Task>, id: string) {
    exists i :: 0 <= i < |ts| && ts[i].id == id
  }

  predicate AllCompleted(ts: seq<Task>) {
    forall i :: 0 <= i < |ts| ==> ts[i].completed
  }

  /** `tasks.filter(task => task.id !== id)`. */
  function WithoutId(ts: seq<Task>, id: string): (r: seq<Task>)
    ensures |r| <= |ts|
    ensures forall t :: t in r <==> t in ts && t.id != id
    ensures !HasId(ts, id) ==> r == ts
    ensures HasId(ts, id) ==> |r| < |ts|
  {
    if ts == [] then []
    else if ts[0].id == id then WithoutId(ts[1..], id)
    else
      assert HasId(ts[1..], id) ==> HasId(ts, id) by {
        if HasId(ts[1..], id) {
          var i :| 0 <= i < |ts[1..]| && ts[1..][i].id == id;
          assert ts[i + 1].id == id;
        }
      }
      [ts[0]] + WithoutId(ts[1..], id)
  }

  /** Filtering keeps the relative order: it distributes over `+`. */
  lemma {:induction false} WithoutIdAppend(a: seq<Task>, b: seq<Task>, id: string)
    ensures WithoutId(a + b, id) == WithoutId(a, id) + WithoutId(b, id)
  {
    if a != [] {
      assert (a + b)[1..] == a[1..] + b;
      WithoutIdAppend(a[1..], b, id);
    } else {
      assert a + b == b;
    }
  }

  /** Filtering keeps every other task as many times as it occurs, and no
      copy of a task carrying `id`. */
  lemma {:induction false} WithoutIdCounts(ts: seq<Task>, id: string)
    ensures forall t :: multiset(WithoutId(ts, id))[t] == if t.id == id then 0 else multiset(ts)[t]
  {
    if ts != [] {
      WithoutIdCounts(ts[1..], id);
      assert ts == [ts[0]] + ts[1..];
      assert multiset(ts) == multiset{ts[0]} + multiset(ts[1..]);
    }
  }

  /** Removing the same id twice removes nothing more. */
  lemma WithoutIdIdempotent(ts: seq<Task>, id: string)
    ensures WithoutId(WithoutId(ts, id), id) == WithoutId(ts, id)
  {
  }

  /** `tasks.map(task => task.id === id ? {...task, completed: !task.completed} : task)`. */
  function ToggleId(ts: seq<Task>, id: string): (r: seq<Task>)
    ensures |r| == |ts|
    ensures forall i :: 0 <= i < |ts| ==>
      && r[i].id == ts[i].id
      && r[i].text == ts[i].text
      && (r[i].completed != ts[i].completed <==> ts[i].id == id)
  {
    if ts == [] then []
    else
      var t := ts[0];
      var t' := if t.id == id then t.(completed := !t.completed) else t;
      [t'] + ToggleId(ts[1..], id)
  }

  /** Toggling the same id twice restores the list. */
  lemma ToggleIdTwice(ts: seq<Task>, id: string)
    ensures ToggleId(ToggleId(ts, id), id) == ts
  {
    var r := ToggleId(ToggleId(ts, id), id);
    assert forall i :: 0 <= i < |ts| ==> r[i] == ts[i];
  }

  /** `tasks.filter(task => task.completed).length`, the dashboard's count. */
  function CompletedCount(ts: seq<Task>): (n: nat)
    ensures n <= |ts|
    ensures n == |ts| <==> AllCompleted(ts)
    ensures n == 0 <==> forall i :: 0 <= i < |ts| ==> !ts[i].completed
  {
    if ts == [] then 0
    else
      var rest := CompletedCount(ts[1..]);
      assert forall i :: 1 <= i < |ts| ==> ts[i] == ts[1..][i - 1];
      (if ts[0].completed then 1 else 0) + rest
  }

  // ---------------------------------------------------------------------
  // Lock

  /** `lockApp()`: locked until twelve hours from `now`. */
  function LockApp(s: State, store: Store, now: int): (r: Step)
    ensures r.state.isLocked && r.state.lockUntil == Some(now + LockDurationMs)
    ensures r.state.(isLocked := s.isLocked, lockUntil := s.lockUntil) == s
    ensures r.store == store.(lockUntil := Holds(now + LockDurationMs))
    ensures r.toasts == [Toast(AppLocked, Destructive)]
  {
    var until := now + LockDurationMs;
    Step(s.(isLocked := true, lockUntil := Some(until)),
         store.(lockUntil := Holds(until)),
         [Toast(AppLocked, Destructive)])
  }

  /** `incrementStreak()`: one more, written back, no notification. */
  function IncrementStreak(s: State, store: Store): (r: Step)
    ensures r.state.streak == s.streak + 1
    ensures r.state.(streak := s.streak) == s
    ensures r.store == store.(streak := Holds(s.streak + 1))
    ensures r.toasts == []
  {
    var n := s.streak + 1;
    Step(s.(streak := n), store.(streak := Holds(n)), [])
  }

  /** `unlockApp()`: clears the lock, drops the stored timestamp, and counts
      one more day on the streak. */
  function UnlockApp(s: State, store: Store): (r: Step)
    ensures !r.state.isLocked && r.state.lockUntil == None
    ensures r.state.streak == s.streak + 1
    ensures r.state.(isLocked := s.isLocked, lockUntil := s.lockUntil, streak := s.streak) == s
    ensures r.store == store.(lockUntil := Missing, streak := Holds(s.streak + 1))
    ensures r.toasts == [Toast(AppUnlocked, Plain)]
  {
    var cleared := s.(isLocked := false, lockUntil := None);
    var bumped := IncrementStreak(cleared, store.(lockUntil := Missing));
    Step(bumped.state, bumped.store, bumped.toasts + [Toast(AppUnlocked, Plain)])
  }

  // ---------------------------------------------------------------------
  // Tasks

  /** `addTask(text)`: refused while the tasks are locked (checked first),
      then refused once three tasks exist; otherwise appends an open task. */
  function AddTask(s: State, store: Store, id: string, text: string): (r: Step)
    ensures s.tasksLocked ==> r == Step(s, store, [Toast(TasksLocked, Destructive)])
    ensures !s.tasksLocked && |s.tasks| >= MaxTasks ==>
      r == Step(s, store, [Toast(MaximumTasksReached, Destructive)])
    ensures !s.tasksLocked && |s.tasks| < MaxTasks ==>
      && r.state == s.(tasks := s.tasks + [Task(id, text, false)])
      && r.store == store.(tasks := Holds(r.state.tasks))
      && r.toasts == []
    ensures |s.tasks| <= MaxTasks ==> |r.state.tasks| <= MaxTasks
  {
    if s.tasksLocked then
      Step(s, store, [Toast(TasksLocked, Destructive)])
    else if |s.tasks| >= MaxTasks then
      Step(s, store, [Toast(MaximumTasksReached, Destructive)])
    else
      var tasks := s.tasks + [Task(id, text, false)];
      Step(s.(tasks := tasks), store.(tasks := Holds(tasks)), [])
  }

  /** `removeTask(id)`: refused while the tasks are locked; otherwise drops
      every task carrying `id`, keeping the order of the rest. */
  function RemoveTask(s: State, store: Store, id: string): (r: Step)
    ensures s.tasksLocked ==> r == Step(s, store, [Toast(TasksLocked, Destructive)])
    ensures !s.tasksLocked ==>
      && r.state.tasks == WithoutId(s.tasks, id)
      && (forall t :: t in r.state.tasks <==> t in s.tasks && t.id != id)
      && r.state == s.(tasks := r.state.tasks)
      && r.store == store.(tasks := Holds(r.state.tasks))
      && r.toasts == []
    ensures !HasId(s.tasks, id) ==> r.state == s
  {
    if s.tasksLocked then
      Step(s, store, [Toast(TasksLocked, Destructive)])
    else
      var tasks := WithoutId(s.tasks, id);
      Step(s.(tasks := tasks), store.(tasks := Holds(tasks)), [])
  }

  /** `completeTask(id)`: flips the completion of the tasks carrying `id`,
      whether or not the tasks are locked, and announces when every task is
      now complete (an empty list counts as all complete). */
  function CompleteTask(s: State, store: Store, id: string): (r: Step)
    ensures |r.state.tasks| == |s.tasks|
    ensures forall i :: 0 <= i < |s.tasks| ==>
      && r.state.tasks[i].id == s.tasks[i].id
      && r.state.tasks[i].text == s.tasks[i].text
      && (r.state.tasks[i].completed != s.tasks[i].completed <==> s.tasks[i].id == id)
    ensures r.state == s.(tasks := r.state.tasks)
    ensures r.store == store.(tasks := Holds(r.state.tasks))
    ensures Toast(AllTasksComplete, Plain) in r.toasts <==> AllCompleted(r.state.tasks)
    ensures r.toasts == [] || r.toasts == [Toast(AllTasksComplete, Plain)]
  {
    var tasks := ToggleId(s.tasks, id);
    var toasts := if AllCompleted(tasks) then [Toast(AllTasksComplete, Plain)] else [];
    Step(s.(tasks := tasks), store.(tasks := Holds(tasks)), toasts)
  }

  /** `lockTasks()`: freezes the task list for good. */
  function LockTasks(s: State, store: Store): (r: Step)
    ensures r.state.tasksLocked
    ensures r.state.(tasksLocked := s.tasksLocked) == s
    ensures r.store == store.(tasksLocked := Holds(true))
    ensures r.toasts == [Toast(TasksLockedIn, Plain)]
  {
    Step(s.(tasksLocked := true), store.(tasksLocked := Holds(true)), [Toast(TasksLockedIn, Plain)])
  }

  /** Locking the tasks a second time changes neither state nor store. */
  lemma LockTasksIdempotent(s: State, store: Store)
    ensures var once := LockTasks(s, store);
            var twice := LockTasks(once.state, once.store);
            twice.state == once.state && twice.store == once.store
  {
  }

  // ---------------------------------------------------------------------
  // Journal and streak

  /** `addJournalEntry(content)`: appends the entry as given, stamped `now`. */
  function AddJournalEntry(s: State, store: Store, id: string, content: string, now: int): (r: Step)
    ensures |r.state.journal| == |s.journal| + 1
    ensures r.state.journal[..|s.journal|] == s.journal
    ensures r.state.journal[|s.journal|] == JournalEntry(id, content, now)
    ensures r.state == s.(journal := r.state.journal)
    ensures r.store == store.(journal := Holds(r.state.journal))
    ensures r.toasts == [Toast(JournalEntrySaved, Plain)]
  {
    var journal := s.journal + [JournalEntry(id, content, now)];
    Step(s.(journal := journal), store.(journal := Holds(journal)), [Toast(JournalEntrySaved, Plain)])
  }

  /** `resetStreak()`: back to zero whatever it was. */
  function ResetStreak(s: State, store: Store): (r: Step)
    ensures r.state.streak == 0
    ensures r.state.(streak := s.streak) == s
    ensures r.store == store.(streak := Holds(0))
    ensures r.toasts == [Toast(StreakReset, Destructive)]
  {
    Step(s.(streak := 0), store.(streak := Holds(0)), [Toast(StreakReset, Destructive)])
  }

  // ---------------------------------------------------------------------
  // Loading on mount

  datatype Slice = TasksSlice | TasksLockedSlice | JournalSlice | StreakSlice

  /** Loading stops at the first slice whose text cannot be read, with the
      store as it stands at that point. */
  datatype LoadError = LoadError(slice: Slice, store: Store)

  datatype Loaded = Loaded(state: State, store: Store)

  /** Reads one slot: `Some(value)` (the default when absent or empty),
      `None` when the text cannot be read. */
  function ReadSlot<T>(slot: Slot<T>, default: T): Option<T>
  {
    match slot
    case Missing => Some(default)
    case EmptyText => Some(default)
    case Unreadable => None
    case Holds(v) => Some(v)
  }

  /** The lock part of loading: a stored time strictly after `now` locks;
      any other non-empty stored text (an elapsed time, or one that is not a
      date at all) unlocks and erases the key. */
  function LoadLock(store: Store, now: int): (r: Loaded)
    ensures r.state.(isLocked := false, lockUntil := None) == Initial
    ensures store.lockUntil.Holds? && store.lockUntil.value > now ==>
      r == Loaded(Initial.(isLocked := true, lockUntil := Some(store.lockUntil.value)), store)
    ensures (store.lockUntil.Holds? && store.lockUntil.value <= now) || store.lockUntil.Unreadable? ==>
      r == Loaded(Initial, store.(lockUntil := Missing))
    ensures store.lockUntil.Missing? || store.lockUntil.EmptyText? ==> r == Loaded(Initial, store)
  {
    match store.lockUntil
    case Missing => Loaded(Initial, store)
    case EmptyText => Loaded(Initial, store)
    case Unreadable => Loaded(Initial.(isLocked := false), store.(lockUntil := Missing))
    case Holds(t) =>
      if t > now then Loaded(Initial.(isLocked := true, lockUntil := Some(t)), store)
      else Loaded(Initial.(isLocked := false), store.(lockUntil := Missing))
  }

  /** The mount-time effect: reconcile the lock against `now`, then read
      tasks, task lock, journal and streak, keeping each default when its
      key is absent. A slice whose text cannot be read aborts the load. */
  function Load(store: Store, now: int): (r: Result<Loaded, LoadError>)
    ensures r.Failure? <==>
      || store.tasks.Unreadable? || store.tasksLocked.Unreadable?
      || store.journal.Unreadable? || store.streak.Unreadable?
    ensures r.Failure? ==> r.error.store == LoadLock(store, now).store
    ensures r.Success? ==>
      && r.value.store == LoadLock(store, now).store
      && r.value.state.isLocked == LoadLock(store, now).state.isLocked
      && r.value.state.lockUntil == LoadLock(store, now).state.lockUntil
      && r.value.state.tasks == (if store.tasks.Holds? then store.tasks.value else [])
      && r.value.state.tasksLocked == (store.tasksLocked.Holds? && store.tasksLocked.value)
      && r.value.state.journal == (if store.journal.Holds? then store.journal.value else [])
      && r.value.state.streak == (if store.streak.Holds? then store.streak.value else 0)
  {
    var lock := LoadLock(store, now);
    var st := lock.store;
    match ReadSlot(store.tasks, [])
    case None => Failure(LoadError(TasksSlice, st))
    case Some(tasks) =>
      match ReadSlot(store.tasksLocked, false)
      case None => Failure(LoadError(TasksLockedSlice, st))
      case Some(tasksLocked) =>
        match ReadSlot(store.journal, [])
        case None => Failure(LoadError(JournalSlice, st))
        case Some(journal) =>
          match ReadSlot(store.streak, 0)
          case None => Failure(LoadError(StreakSlice, st))
          case Some(streak) =>
            Success(Loaded(lock.state.(tasks := tasks, tasksLocked := tasksLocked,
                                       journal := journal, streak := streak), st))
  }

  // ---------------------------------------------------------------------
  // The store as a mirror of the state

  /** A slot records `v`: it holds it, or it is absent and `v` is the default. */
  predicate Records<T(==)>(slot: Slot<T>, v: T, default: T) {
    slot == Holds(v) || (slot == Missing && v == default)
  }

  /** The store holds exactly what the state says: each slice written or
      still at its default, and the lock timestamp present iff locked. */
  predicate Mirrors(s: State, store: Store) {
    && Records(store.tasks, s.tasks, [])
    && Records(store.tasksLocked, s.tasksLocked, false)
    && Records(store.journal, s.journal, [])
    && Records(store.streak, s.streak, 0)
    && (match s.lockUntil
        case None => !s.isLocked && store.lockUntil == Missing
        case Some(t) => s.isLocked && store.lockUntil == Holds(t))
  }

  /** What a reload at `now` makes of a mirrored state: the same, except a
      lock whose time is not after `now` has lapsed. */
  function Expire(s: State, now: int): (r: State)
    ensures r.(isLocked := s.isLocked, lockUntil := s.lockUntil) == s
  {
    match s.lockUntil
    case Some(t) => if t > now then s else s.(isLocked := false, lockUntil := None)
    case None => s
  }

  function ExpireStore(store: Store, now: int): Store
  {
    match store.lockUntil
    case Holds(t) => if t > now then store else store.(lockUntil := Missing)
    case _ => store
  }

  /** First mount: an empty store loads the initial state, which it mirrors. */
  lemma LoadEmptyStore(now: int)
    ensures Load(EmptyStore, now) == Success(Loaded(Initial, EmptyStore))
    ensures Mirrors(Initial, EmptyStore)
  {
  }

  /** Reloading a mirrored store gives back the in-memory state, with a lock
      that has run out by `now` cleared from both state and store; the
      result mirrors again. */
  lemma LoadMirrored(s: State, store: Store, now: int)
    requires Mirrors(s, store)
    ensures Load(store, now) == Success(Loaded(Expire(s, now), ExpireStore(store, now)))
    ensures Mirrors(Expire(s, now), ExpireStore(store, now))
  {
  }

  // ---------------------------------------------------------------------
  // The interface the screens call

  /** A call a screen makes on the container. `ResetLockCall` and
      `AddVoiceNoteCall` name members the screens use that this container
      does not define; `LockAppCall` carries the duration the lock screen
      asks for. */
  datatype Call =
    | LockAppCall(durationMs: int) | UnlockAppCall | ResetLockCall
    | AddTaskCall(text: string) | RemoveTaskCall(id: string) | CompleteTaskCall(id: string)
    | LockTasksCall | AddJournalEntryCall(content: string) | AddVoiceNoteCall(url: string)

  /** The clock reading and the fresh id a call uses. */
  datatype Env = Env(now: int, id: string)

  /** Runs a call against the container, or `None` for a member the container
      does not define. `lockApp` takes no parameter, so the requested duration
      is dropped and the lock always lasts twelve hours. */
  function Perform(s: State, store: Store, c: Call, env: Env): (r: Option<Step>)
    ensures r.None? <==> c.ResetLockCall? || c.AddVoiceNoteCall?
    ensures c.LockAppCall? ==> r == Some(LockApp(s, store, env.now))
  {
    match c
    case LockAppCall(_) => Some(LockApp(s, store, env.now))
    case UnlockAppCall => Some(UnlockApp(s, store))
    case ResetLockCall => None
    case AddTaskCall(text) => Some(AddTask(s, store, env.id, text))
    case RemoveTaskCall(id) => Some(RemoveTask(s, store, id))
    case CompleteTaskCall(id) => Some(CompleteTask(s, store, id))
    case LockTasksCall => Some(LockTasks(s, store))
    case AddJournalEntryCall(content) => Some(AddJournalEntry(s, store, env.id, content, env.now))
    case AddVoiceNoteCall(_) => None
  }
}
