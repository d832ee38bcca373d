/** The journal screen: a free-text entry, a three-minute soft countdown, and
    a Done button that saves the entry once. */
module ShadowJournal {
  import opened Base
  import opened Text
  import Clock
  import opened AppContext

  const CountdownSeconds := 180

  datatype Journal = Journal(content: string, secondsLeft: int, timerActive: bool, isDone: bool)

  /** The screen as it mounts: empty text, three minutes, timer running. */
  const Start := Journal("", CountdownSeconds, true, false)

  /** One firing of the timer effect: an inactive timer does nothing; a
      running one at zero (or below) stops; otherwise one second passes. */
  function Tick(j: Journal): (r: Journal)
    ensures r.content == j.content && r.isDone == j.isDone
    ensures j.timerActive && j.secondsLeft > 0 ==> r.timerActive && r.secondsLeft == j.secondsLeft - 1
    ensures j.timerActive && j.secondsLeft <= 0 ==> !r.timerActive && r.secondsLeft == j.secondsLeft
    ensures !j.timerActive ==> r == j
    ensures j.secondsLeft >= 0 ==> r.secondsLeft >= 0
  {
    if !j.timerActive then j
    else if j.secondsLeft <= 0 then j.(timerActive := false)
    else j.(secondsLeft := j.secondsLeft - 1)
  }

  function Ticks(j: Journal, k: nat): Journal
    decreases k
  {
    if k == 0 then j else Ticks(Tick(j), k - 1)
  }

  /** From a running timer with `n` seconds left, `k` firings count down by
      `k` while `k <= n`; one more firing after zero stops the timer, and
      nothing moves after that. */
  lemma {:induction false} Countdown(j: Journal, k: nat)
    requires j.timerActive && j.secondsLeft >= 0
    ensures k <= j.secondsLeft ==> Ticks(j, k) == j.(secondsLeft := j.secondsLeft - k)
    ensures k > j.secondsLeft ==> Ticks(j, k) == j.(secondsLeft := 0, timerActive := false)
    decreases k
  {
    if k > 0 {
      if j.secondsLeft == 0 {
        StoppedStaysStopped(Tick(j), k - 1);
      } else {
        Countdown(Tick(j), k - 1);
      }
    }
  }

  lemma {:induction false} StoppedStaysStopped(j: Journal, k: nat)
    requires !j.timerActive
    ensures Ticks(j, k) == j
    decreases k
  {
    if k > 0 {
      StoppedStaysStopped(Tick(j), k - 1);
    }
  }

  /** The mounted screen shows `3:00`, runs out after 180 firings, and stops
      on the 181st, never going below zero. */
  lemma StartCountdown(k: nat)
    ensures k <= CountdownSeconds ==> Ticks(Start, k).secondsLeft == CountdownSeconds - k && Ticks(Start, k).timerActive
    ensures k > CountdownSeconds ==> Ticks(Start, k).secondsLeft == 0 && !Ticks(Start, k).timerActive
    ensures Clock.FormatTime(CountdownSeconds) == "3:00"
  {
    Countdown(Start, k);
    assert Decimal(3) == "3";
  }

  /** Done is disabled while the text is white space only. */
  predicate DoneDisabled(j: Journal) {
    Trim(j.content) == []
  }

  /** What the user does on this screen. The text area and the Done button
      exist only until the entry is saved. */
  datatype Event = Edit(text: string) | TimerFires | Submit

  datatype Reaction = Reaction(journal: Journal, calls: seq<Call>)

  /** `handleSubmit`: saves the text exactly as typed, untrimmed, but only
      when it is not white space only; then shows the saved view. */
  function HandleSubmit(j: Journal): (r: Reaction)
    ensures r.calls == [] <==> AllSpace(j.content)
    ensures r.calls == [] ==> r.journal == j
    ensures r.calls != [] ==>
      r.calls == [AddJournalEntryCall(j.content)] && r.journal == j.(isDone := true)
  {
    if Trim(j.content) != [] then Reaction(j.(isDone := true), [AddJournalEntryCall(j.content)])
    else Reaction(j, [])
  }

  function React(j: Journal, e: Event): (r: Reaction)
    ensures j.isDone ==> r.journal.isDone
    ensures !j.isDone && r.journal.isDone ==> e == Submit && !DoneDisabled(j)
    ensures r.calls != [] ==> e == Submit && !DoneDisabled(j) && !j.isDone && r.calls == [AddJournalEntryCall(j.content)]
  {
    match e
    case Edit(text) => if j.isDone then Reaction(j, []) else Reaction(j.(content := text), [])
    case TimerFires => Reaction(Tick(j), [])
    case Submit => if j.isDone then Reaction(j, []) else HandleSubmit(j)
  }

  /** Run through the container, a submit appends exactly one entry holding
      the untrimmed text, when it is not white space only; a white-space
      only text adds nothing. */
  lemma SubmitAppendsOneEntry(j: Journal, s: State, store: Store, env: Env)
    requires !j.isDone
    ensures var r := React(j, Submit);
      && (DoneDisabled(j) ==> r.calls == [])
      && (!DoneDisabled(j) ==>
            && |r.calls| == 1
            && var step := Perform(s, store, r.calls[0], env);
               step.Some? && step.value.state.journal == s.journal + [JournalEntry(env.id, j.content, env.now)])
  {
  }
}
