/** The task editor screen: a 50-character input that adds trimmed tasks, a
    list with complete and remove buttons, and the buttons that lock the list
    in and move on to the journal. */
module NonNegotiables {
  import opened Base
  import opened Text
  import opened AppContext

  /** The input's `maxLength`. */
  const MaxInputLength := 50

  /** The editor's own state: the text in the input. */
  datatype Editor = Editor(input: string)

  /** Typing: the input never holds more than 50 characters. Text within
      the cap is taken as typed; for text over the cap the model keeps its
      first 50 characters, which is not what `maxLength` does in every case
      (a browser refuses a key typed into a full field). */
  function Edit(e: Editor, text: string): (r: Editor)
    ensures |r.input| <= MaxInputLength
    ensures |text| <= MaxInputLength ==> r.input == text
    ensures r.input <= text
  {
    if |text| <= MaxInputLength then Editor(text) else Editor(text[..MaxInputLength])
  }

  datatype Reaction = Reaction(editor: Editor, calls: seq<Call>)

  /** `handleAddTask`: adds the trimmed text when it is not white space only
      and then empties the input, whatever the container does with it;
      white space only leaves everything as it is. */
  function HandleAddTask(e: Editor): (r: Reaction)
    ensures r.calls == [] <==> AllSpace(e.input)
    ensures r.calls == [] ==> r.editor == e
    ensures r.calls != [] ==>
      && r.editor.input == ""
      && |r.calls| == 1 && r.calls[0].AddTaskCall?
      && var t := r.calls[0].text;
         && t == Trim(e.input)
         && t != [] && !IsSpace(t[0]) && !IsSpace(t[|t| - 1]) && |t| <= |e.input|
  {
    if Trim(e.input) != [] then Reaction(Editor(""), [AddTaskCall(Trim(e.input))]) else Reaction(e, [])
  }

  /** `handleNext`: locks the list in unless it already is. */
  function HandleNext(s: State): (calls: seq<Call>)
    ensures calls == [] <==> s.tasksLocked
    ensures calls != [] ==> calls == [LockTasksCall]
  {
    if !s.tasksLocked then [LockTasksCall] else []
  }

  /** Runs the calls a handler made against the container, in order. */
  function PerformAll(s: State, store: Store, calls: seq<Call>, env: Env): Step
    decreases |calls|
  {
    if calls == [] then Step(s, store, [])
    else
      match Perform(s, store, calls[0], env)
      case None => PerformAll(s, store, calls[1..], env)
      case Some(first) =>
        var rest := PerformAll(first.state, first.store, calls[1..], env);
        Step(rest.state, rest.store, first.toasts + rest.toasts)
  }

  /** A single call the container performs is the whole run. */
  lemma PerformOne(s: State, store: Store, c: Call, env: Env)
    requires Perform(s, store, c, env).Some?
    ensures PerformAll(s, store, [c], env) == Perform(s, store, c, env).value
  {
    var first := Perform(s, store, c, env).value;
    assert [c][1..] == [];
    assert first.toasts + [] == first.toasts;
  }

  // ---------------------------------------------------------------------
  // What the screen offers

  /** Which controls the screen renders for a state. */
  datatype Offered = Offered(
    addForm: bool,          // the input and its add button
    removeButtons: bool,    // one per task
    completeButtons: bool,  // one per task, never disabled
    lockIn: bool,           // "Save & Lock In"
    lockInEnabled: bool,
    continueButton: bool,   // "Continue to Journal"
    editLater: bool)        // "Edit Later"

  /** The screen offers the add form exactly when the container would accept
      a task, and remove buttons exactly when it would accept a removal;
      completion is always offered and never refused. Locking in needs at
      least one task, and once the list is locked only "Continue" remains. */
  function Render(s: State): (c: Offered)
    ensures c.addForm ==> forall store: Store, id, text :: AddTask(s, store, id, text).toasts == []
    ensures !c.addForm ==> forall store: Store, id, text ::
      AddTask(s, store, id, text).state == s && |AddTask(s, store, id, text).toasts| == 1
    ensures c.removeButtons ==> forall store: Store, id :: RemoveTask(s, store, id).toasts == []
    ensures !c.removeButtons ==> forall store: Store, id ::
      RemoveTask(s, store, id).state == s && |RemoveTask(s, store, id).toasts| == 1
    ensures c.completeButtons
    ensures c.lockIn != c.continueButton && (c.continueButton <==> s.tasksLocked)
    ensures c.lockInEnabled ==> c.lockIn && |s.tasks| > 0
    ensures c.editLater ==> !s.tasksLocked && |s.tasks| > 0
  {
    Offered(
      addForm := !s.tasksLocked && |s.tasks| < MaxTasks,
      removeButtons := !s.tasksLocked,
      completeButtons := true,
      lockIn := !s.tasksLocked,
      lockInEnabled := !s.tasksLocked && |s.tasks| != 0,
      continueButton := s.tasksLocked,
      editLater := !s.tasksLocked && |s.tasks| > 0)
  }

  /** Submitting the form adds the trimmed text as a new open task at the
      end, with no refusal, and empties the input. */
  lemma FormSubmitAdds(e: Editor, s: State, store: Store, env: Env)
    requires Render(s).addForm && Trim(e.input) != []
    ensures var r := HandleAddTask(e);
      var step := PerformAll(s, store, r.calls, env);
      && r.editor.input == ""
      && step.state.tasks == s.tasks + [Task(env.id, Trim(e.input), false)]
      && step.toasts == []
  {
    PerformOne(s, store, AddTaskCall(Trim(e.input)), env);
  }

  /** A white-space only input never changes the task list (nor the store). */
  lemma BlankSubmitChangesNothing(e: Editor, s: State, store: Store, env: Env)
    requires AllSpace(e.input)
    ensures var step := PerformAll(s, store, HandleAddTask(e).calls, env);
      step.state == s && step.store == store && HandleAddTask(e).editor == e
  {
  }

  /** The input is emptied even when the container refuses the task. */
  lemma InputClearedOnRefusal(e: Editor, s: State, store: Store, env: Env)
    requires Trim(e.input) != [] && (s.tasksLocked || |s.tasks| >= MaxTasks)
    ensures var r := HandleAddTask(e);
      var step := PerformAll(s, store, r.calls, env);
      && r.editor.input == ""
      && step.state == s
      && |step.toasts| == 1
  {
  }

  /** A task added through the form has between 1 and 50 characters and
      neither starts nor ends with white space. */
  lemma FormTaskText(e: Editor, s: State, store: Store, env: Env)
    requires |e.input| <= MaxInputLength && Render(s).addForm && Trim(e.input) != []
    ensures var step := PerformAll(s, store, HandleAddTask(e).calls, env);
      && |step.state.tasks| == |s.tasks| + 1
      && var t := step.state.tasks[|s.tasks|];
         && 1 <= |t.text| <= MaxInputLength
         && !IsSpace(t.text[0]) && !IsSpace(t.text[|t.text| - 1])
  {
    FormSubmitAdds(e, s, store, env);
    var text := Trim(e.input);
    assert (s.tasks + [Task(env.id, text, false)])[|s.tasks|].text == text;
  }

  /** While remove buttons are shown, removing is never refused. */
  lemma RemoveShownIsAccepted(s: State, store: Store, id: string, env: Env)
    requires Render(s).removeButtons
    ensures var step := PerformAll(s, store, [RemoveTaskCall(id)], env);
      step.toasts == [] && !HasId(step.state.tasks, id)
  {
  }

  /** Moving on locks the list in once; doing it again changes nothing. */
  lemma HandleNextOnce(s: State, store: Store, env: Env)
    ensures var once := PerformAll(s, store, HandleNext(s), env);
      var twice := PerformAll(once.state, once.store, HandleNext(once.state), env);
      && once.state.tasksLocked
      && once.state.tasks == s.tasks
      && twice.state == once.state && twice.store == once.store
  {
  }

  /** "Edit Later" is shown only before the list is locked, and it runs
      `handleNext` like "Continue": clicking it locks the list in, so no
      later edit is possible, and the tasks stay as they were. */
  lemma EditLaterLocks(s: State, store: Store, env: Env)
    requires Render(s).editLater
    ensures var step := PerformAll(s, store, HandleNext(s), env);
      && step.state.tasksLocked
      && step.state.tasks == s.tasks
      && !Render(step.state).addForm && !Render(step.state).removeButtons
  {
  }
}
