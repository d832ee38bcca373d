/** The voice recorder screen, with the microphone, the recorder and audio
    playback reduced to the events they deliver: the microphone granted or
    refused, the recorder's stop event carrying the recording's URL, and the
    end of playback. Saved notes go to the container's `addVoiceNote`, which
    this model treats as an opaque call. */
module VoiceNotes {
  import opened Base
  import opened AppContext

  datatype Recorder = Recorder(
    isRecording: bool,
    recordingTime: nat,
    audioURL: Option<string>,
    recordingComplete: bool,
    currentlyPlaying: Option<string>,
    hasRecorder: bool)

  /** The screen as it mounts: idle, nothing recorded, nothing playing. */
  const Mounted := Recorder(false, 0, None, false, None, false)

  /** JavaScript truthiness of `audioURL`: set and not the empty string. */
  predicate HasAudio(r: Recorder) {
    r.audioURL.Some? && r.audioURL.value != ""
  }

  datatype Event =
    | StartSucceeded              // `startRecording` got the microphone
    | StartFailed                 // `startRecording` was refused it
    | StopClicked                 // `stopRecording`
    | RecorderStopped(url: string) // the recorder's stop event
    | TimerTick                   // one second of the recording interval
    | SaveClicked                 // `saveRecording`
    | PreviewClicked              // the play button under "Recording Complete"
    | NoteClicked(url: string)    // the play/stop button of a saved note
    | PlaybackEnded               // the audio element's ended event

  datatype Reaction = Reaction(rec: Recorder, calls: seq<Call>)

  function React(r: Recorder, e: Event): (out: Reaction)
    // startRecording: success starts a fresh take; failure changes nothing
    ensures e == StartSucceeded ==>
      out.rec == r.(isRecording := true, recordingTime := 0, recordingComplete := false,
                    audioURL := None, hasRecorder := true)
    ensures e == StartFailed ==> out.rec == r
    // stopRecording acts only on a live recorder that is recording
    ensures e == StopClicked ==>
      out.rec == (if r.hasRecorder && r.isRecording then r.(isRecording := false) else r)
    ensures e.RecorderStopped? ==>
      out.rec == r.(audioURL := Some(e.url), recordingComplete := true)
    // the interval counts only while recording
    ensures e == TimerTick ==>
      out.rec == (if r.isRecording then r.(recordingTime := r.recordingTime + 1) else r)
    // saveRecording hands over exactly the current URL, then clears it
    ensures e == SaveClicked && HasAudio(r) ==>
      out == Reaction(r.(recordingComplete := false, audioURL := None), [AddVoiceNoteCall(r.audioURL.value)])
    ensures e == SaveClicked && !HasAudio(r) ==> out.rec == r
    // a click on the note that is playing stops it; on any other note plays it
    ensures e.NoteClicked? ==>
      out.rec == r.(currentlyPlaying := if r.currentlyPlaying == Some(e.url) then None else Some(e.url))
    ensures e == PlaybackEnded ==> out.rec == r.(currentlyPlaying := None)
    ensures e == PreviewClicked ==>
      out.rec == (if HasAudio(r) then r.(currentlyPlaying := r.audioURL) else r)
    ensures out.calls != [] ==> e == SaveClicked && HasAudio(r)
  {
    match e
    case StartSucceeded =>
      Reaction(r.(isRecording := true, recordingTime := 0, recordingComplete := false,
                  audioURL := None, hasRecorder := true), [])
    case StartFailed => Reaction(r, [])
    case StopClicked =>
      if r.hasRecorder && r.isRecording then Reaction(r.(isRecording := false), []) else Reaction(r, [])
    case RecorderStopped(url) => Reaction(r.(audioURL := Some(url), recordingComplete := true), [])
    case TimerTick =>
      if r.isRecording then Reaction(r.(recordingTime := r.recordingTime + 1), []) else Reaction(r, [])
    case SaveClicked =>
      if HasAudio(r) then
        Reaction(r.(recordingComplete := false, audioURL := None), [AddVoiceNoteCall(r.audioURL.value)])
      else Reaction(r, [])
    case PreviewClicked =>
      if HasAudio(r) then Reaction(r.(currentlyPlaying := r.audioURL), []) else Reaction(r, [])
    case NoteClicked(url) =>
      if r.currentlyPlaying == Some(url) then Reaction(r.(currentlyPlaying := None), [])
      else Reaction(r.(currentlyPlaying := Some(url)), [])
    case PlaybackEnded => Reaction(r.(currentlyPlaying := None), [])
  }

  /** Runs the events in order, collecting the calls made on the container. */
  function Run(r: Recorder, events: seq<Event>): Reaction
    decreases |events|
  {
    if events == [] then Reaction(r, [])
    else
      var first := React(r, events[0]);
      var rest := Run(first.rec, events[1..]);
      Reaction(rest.rec, first.calls + rest.calls)
  }

  /** The URLs the recorder's stop events delivered. */
  function StoppedUrls(events: seq<Event>): set<string>
  {
    set i | 0 <= i < |events| && events[i].RecorderStopped? :: events[i].url
  }

  /** Nothing but a recording reaches the container: every note saved during
      a session carries a URL some stop event of that session delivered. */
  lemma {:induction false} SavedUrlsWereRecorded(r: Recorder, events: seq<Event>, seen: set<string>)
    requires r.audioURL.Some? ==> r.audioURL.value in seen
    ensures forall c :: c in Run(r, events).calls ==>
      c.AddVoiceNoteCall? && c.url in seen + StoppedUrls(events)
    decreases |events|
  {
    if events != [] {
      var first := React(r, events[0]);
      var seen' := if events[0].RecorderStopped? then seen + {events[0].url} else seen;
      SavedUrlsWereRecorded(first.rec, events[1..], seen');
      assert seen' + StoppedUrls(events[1..]) <= seen + StoppedUrls(events) by {
        forall u | u in StoppedUrls(events[1..])
          ensures u in StoppedUrls(events)
        {
          var i :| 0 <= i < |events[1..]| && events[1..][i].RecorderStopped? && events[1..][i].url == u;
          assert events[i + 1] == events[1..][i];
        }
        if events[0].RecorderStopped? {
          assert events[0].url in StoppedUrls(events);
        }
      }
    }
  }

  /** Starting from the mounted screen, every saved note is a recording. */
  lemma MountedSavesOnlyRecordings(events: seq<Event>)
    ensures forall c :: c in Run(Mounted, events).calls ==>
      c.AddVoiceNoteCall? && c.url in StoppedUrls(events)
  {
    SavedUrlsWereRecorded(Mounted, events, {});
  }

  /** `k` ticks after a successful start, the timer shows `k` seconds. */
  lemma {:induction false} TicksWhileRecording(r: Recorder, k: nat)
    requires r.isRecording
    ensures Run(r, seq(k, _ => TimerTick)).rec == r.(recordingTime := r.recordingTime + k)
    decreases k
  {
    if k > 0 {
      var ticks := seq(k, _ => TimerTick);
      assert ticks[1..] == seq(k - 1, _ => TimerTick);
      TicksWhileRecording(React(r, TimerTick).rec, k - 1);
    }
  }

  /** Clicking the same saved note twice starts and then stops it. */
  lemma NoteClickToggles(r: Recorder, url: string)
    requires r.currentlyPlaying != Some(url)
    ensures React(r, NoteClicked(url)).rec.currentlyPlaying == Some(url)
    ensures React(React(r, NoteClicked(url)).rec, NoteClicked(url)).rec.currentlyPlaying == None
  {
  }
}
