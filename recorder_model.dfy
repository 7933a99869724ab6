/** The recorder component's state as a value, one transition per event
    handler, and the pure selection of what is rendered and which buttons
    can be clicked. Each handler acts on the state current when it runs. */
module RecorderModel {
  import opened Chunks

  datatype Option<T> = None | Some(value: T)

  /** The eight `useState` fields, plus whether `mediaRecorderRef.current`
      has been set (a granted microphone request sets it; nothing clears it). */
  datatype State = State(
    recording: bool,
    paused: bool,
    audioChunks: seq<Chunk>,
    audioBlob: Option<Blob>,
    audioUrl: Option<string>,
    text: string,
    loading: bool,
    showRefresh: bool,
    recorderReady: bool)

  /** The state of a freshly mounted component. */
  const Initial: State :=
    State(false, false, [], None, None, "", false, false, false)

  /** How the microphone request started by "Record" settles. */
  datatype DeviceOutcome = Granted | Denied

  // ---------------------------------------------------------------------
  // Handlers

  /** "Record": `recording` is set before the microphone request settles;
      a denied request is only logged, so `recording` stays true. Old
      chunks, text and flags are kept. */
  function StartRecording(s: State, device: DeviceOutcome): (r: State)
    ensures r.recording
    ensures r.recorderReady <==> s.recorderReady || device == Granted
    ensures r == s.(recording := true, recorderReady := r.recorderReady)
  {
    s.(recording := true, recorderReady := s.recorderReady || device == Granted)
  }

  /** "Pause"/"Resume": one toggle keyed on the current flags; a no-op when
      not recording. */
  function PauseRecording(s: State): (r: State)
    ensures s.recording ==> r == s.(paused := !s.paused)
    ensures !s.recording ==> r == s
  {
    if s.recording && !s.paused then s.(paused := true)
    else if s.recording && s.paused then s.(paused := false)
    else s
  }

  /** A "dataavailable" event: the chunk is appended only when non-empty,
      so the payload always grows by exactly the chunk's bytes. */
  function HandleData(s: State, chunk: Chunk): (r: State)
    ensures |chunk| > 0 ==> r.audioChunks == s.audioChunks + [chunk]
    ensures |chunk| == 0 ==> r == s
    ensures Concat(r.audioChunks) == Concat(s.audioChunks) + chunk
    ensures r == s.(audioChunks := r.audioChunks)
  {
    if |chunk| > 0 then
      ConcatAppend(s.audioChunks, chunk);
      s.(audioChunks := s.audioChunks + [chunk])
    else
      assert chunk == [];
      s
  }

  /** "Stop", up to sending the request. `recording` and `paused` are
      cleared first; if no recorder was ever created the handler throws on
      `mediaRecorderRef.current.stop()` and goes no further, otherwise
      `loading` is set and the payload is sent. */
  function StopBegin(s: State): (r: State)
    ensures !r.recording && !r.paused
    ensures s.recorderReady ==> r.loading
    ensures !s.recorderReady ==> r.loading == s.loading
    ensures r == s.(recording := false, paused := false, loading := r.loading)
  {
    var cleared := s.(recording := false, paused := false);
    if s.recorderReady then cleared.(loading := true) else cleared
  }

  /** What "Stop" uploads: every chunk in list order, typed "audio/webm";
      nothing when the handler throws before the request. */
  function Payload(s: State): (p: Option<Blob>)
    ensures p.Some? <==> s.recorderReady
    ensures p.Some? ==> p.value.mimeType == WebM
    ensures p.Some? ==> p.value.data == Concat(s.audioChunks)
    ensures p.Some? ==> |p.value.data| == TotalSize(s.audioChunks)
  {
    if s.recorderReady then Some(Blob(Concat(s.audioChunks), WebM)) else None
  }

  /** "Stop", when the transcription response arrives. The chunks are not
      cleared. A request that never settles is simply no event here, which
      leaves `loading` true. */
  function StopComplete(s: State, transcript: string): (r: State)
    ensures r.text == transcript && r.showRefresh && !r.loading
    ensures r == s.(text := transcript, showRefresh := true, loading := false)
  {
    s.(text := transcript, showRefresh := true, loading := false)
  }

  /** "Cancel": everything is cleared except `loading` (and the recorder
      reference, which no handler resets). */
  function HandleCancel(s: State): (r: State)
    ensures !r.recording && !r.paused && r.audioChunks == []
    ensures r.audioBlob == None && r.audioUrl == None
    ensures r.text == "" && !r.showRefresh
    ensures r.loading == s.loading && r.recorderReady == s.recorderReady
  {
    s.(recording := false, paused := false, audioChunks := [], audioBlob := None,
       audioUrl := None, text := "", showRefresh := false)
  }

  /** "Refresh": clears the transcript display and the playback URL only. */
  function HandleRefresh(s: State): (r: State)
    ensures r.audioUrl == None && r.text == "" && !r.showRefresh
    ensures r == s.(audioUrl := None, text := "", showRefresh := false)
  {
    s.(audioUrl := None, text := "", showRefresh := false)
  }

  // ---------------------------------------------------------------------
  // Rendering

  /** The four mutually exclusive things the component renders. */
  datatype Mode = Loading | Transcript | Playback | Controls

  /** JavaScript truthiness of the `audioUrl` state: null and "" are false. */
  predicate UrlTruthy(url: Option<string>)
  {
    url.Some? && url.value != ""
  }

  /** The nested conditional of the render: loading first, then a non-empty
      transcript, then playback, then the recording controls. */
  function RenderMode(s: State): (m: Mode)
    ensures m == Loading <==> s.loading
    ensures m == Transcript <==> !s.loading && s.text != ""
    ensures m == Playback <==> !s.loading && s.text == "" && UrlTruthy(s.audioUrl)
    ensures m == Controls <==> !s.loading && s.text == "" && !UrlTruthy(s.audioUrl)
  {
    if s.loading then Loading
    else if s.text != "" then Transcript
    else if UrlTruthy(s.audioUrl) then Playback
    else Controls
  }

  /** `disabled={!recording}`, shared by the Pause/Resume, Stop and Cancel
      buttons: they are enabled exactly when the toggle would do something. */
  function ButtonsEnabled(s: State): (enabled: bool)
    ensures enabled <==> s.recording
    ensures enabled <==> PauseRecording(s) != s
  {
    s.recording
  }

  /** Label of the pause toggle. */
  function ToggleLabel(s: State): (caption: string)
    ensures caption == "Resume" <==> s.paused
    ensures caption == "Pause" <==> !s.paused
  {
    if s.paused then "Resume" else "Pause"
  }

  datatype Button = RecordButton | PauseButton | StopButton | CancelButton | RefreshButton

  /** A button is clickable when it is rendered and not disabled. */
  function Clickable(s: State, b: Button): (ok: bool)
    ensures ok ==> !s.loading
    ensures ok && b != RefreshButton ==> s.text == "" && !UrlTruthy(s.audioUrl)
    ensures ok && b == RefreshButton ==> s.text != "" && s.showRefresh
    ensures ok && (b == PauseButton || b == StopButton || b == CancelButton) ==> s.recording
  {
    match b
    case RecordButton => RenderMode(s) == Controls
    case PauseButton => RenderMode(s) == Controls && ButtonsEnabled(s)
    case StopButton => RenderMode(s) == Controls && ButtonsEnabled(s)
    case CancelButton => RenderMode(s) == Controls && ButtonsEnabled(s)
    case RefreshButton => RenderMode(s) == Transcript && s.showRefresh
  }

  /** Which buttons the user can press, read off the render. */
  lemma ClickableButtons(s: State)
    ensures Clickable(s, RecordButton) <==> RenderMode(s) == Controls
    ensures Clickable(s, PauseButton) <==> RenderMode(s) == Controls && s.recording
    ensures Clickable(s, StopButton) <==> Clickable(s, PauseButton)
    ensures Clickable(s, CancelButton) <==> Clickable(s, PauseButton)
    ensures Clickable(s, RefreshButton) <==> !s.loading && s.text != "" && s.showRefresh
    ensures Clickable(s, RefreshButton) ==> !Clickable(s, RecordButton)
    ensures s.loading ==> forall b: Button :: !Clickable(s, b)
  {
  }

  // ---------------------------------------------------------------------
  // Event sequences

  /** Everything that can happen to the component: a click, a chunk from the
      recorder, or the transcription response. */
  datatype Event =
    | StartClick(device: DeviceOutcome)
    | PauseClick
    | ChunkArrived(chunk: Chunk)
    | StopClick
    | ResponseArrived(transcript: string)
    | CancelClick
    | RefreshClick

  function Step(s: State, e: Event): State
  {
    match e
    case StartClick(device) => StartRecording(s, device)
    case PauseClick => PauseRecording(s)
    case ChunkArrived(chunk) => HandleData(s, chunk)
    case StopClick => StopBegin(s)
    case ResponseArrived(transcript) => StopComplete(s, transcript)
    case CancelClick => HandleCancel(s)
    case RefreshClick => HandleRefresh(s)
  }

  /** A click needs its button clickable; a response needs a request in
      flight (`loading`); chunks can arrive at any time. So while loading
      only chunks and the response can happen. */
  function Allowed(s: State, e: Event): (ok: bool)
    ensures ok && s.loading ==> e.ChunkArrived? || e.ResponseArrived?
    ensures ok && (e.PauseClick? || e.StopClick? || e.CancelClick?) ==> s.recording
    ensures e.ChunkArrived? ==> ok
  {
    match e
    case StartClick(_) => Clickable(s, RecordButton)
    case PauseClick => Clickable(s, PauseButton)
    case ChunkArrived(_) => true
    case StopClick => Clickable(s, StopButton)
    case ResponseArrived(_) => s.loading
    case CancelClick => Clickable(s, CancelButton)
    case RefreshClick => Clickable(s, RefreshButton)
  }

  function Run(s: State, events: seq<Event>): State
    decreases events
  {
    if events == [] then s else Run(Step(s, events[0]), events[1..])
  }

  predicate AllowedRun(s: State, events: seq<Event>)
    decreases events
  {
    events == [] || (Allowed(s, events[0]) && AllowedRun(Step(s, events[0]), events[1..]))
  }

  // ---------------------------------------------------------------------
  // Properties of single handlers

  /** Toggling twice restores the state, recording or not. */
  lemma ToggleTwice(s: State)
    ensures PauseRecording(PauseRecording(s)) == s
  {
  }

  /** Cancel returns to the controls unless an upload is in flight, in
      which case "Loading..." stays on screen; cancelling again changes
      nothing. */
  lemma CancelClears(s: State)
    ensures HandleCancel(HandleCancel(s)) == HandleCancel(s)
    ensures RenderMode(HandleCancel(s)) == (if s.loading then Loading else Controls)
    ensures !ButtonsEnabled(HandleCancel(s))
    ensures Payload(HandleCancel(s)) == (if s.recorderReady then Some(Blob([], WebM)) else None)
  {
  }

  /** Refresh is idempotent and, with no upload in flight, brings back the
      controls. */
  lemma RefreshClears(s: State)
    ensures HandleRefresh(HandleRefresh(s)) == HandleRefresh(s)
    ensures !s.loading ==> RenderMode(HandleRefresh(s)) == Controls
    ensures !Clickable(HandleRefresh(s), RefreshButton)
  {
  }

  /** After a successful "Stop" the component shows "Loading..." and no
      button. */
  lemma StopShowsLoading(s: State)
    requires s.recorderReady
    ensures RenderMode(StopBegin(s)) == Loading
    ensures forall b: Button :: !Clickable(StopBegin(s), b)
  {
  }

  /** The response shows the transcript with its Refresh button exactly when
      the returned text is non-empty. */
  lemma ResponseShowsTranscript(s: State, transcript: string)
    ensures RenderMode(StopComplete(s, transcript)) == Transcript <==> transcript != ""
    ensures Clickable(StopComplete(s, transcript), RefreshButton) <==> transcript != ""
  {
  }

  // ---------------------------------------------------------------------
  // Properties of event sequences

  /** Chunks carried by the chunk events of a sequence, in order. */
  function Arrived(events: seq<Event>): seq<Chunk>
  {
    if events == [] then []
    else if events[0].ChunkArrived? then [events[0].chunk] + Arrived(events[1..])
    else Arrived(events[1..])
  }

  predicate IsCaptureEvent(e: Event)
  {
    e.ChunkArrived? || e.PauseClick?
  }

  /** The chunk an event carries, if any. */
  function Carried(e: Event): seq<Chunk>
  {
    if e.ChunkArrived? then [e.chunk] else []
  }

  /** One capture event adds its chunk, if non-empty, and nothing else to
      the list. */
  lemma CaptureStep(s: State, e: Event)
    requires IsCaptureEvent(e)
    ensures Step(s, e).audioChunks == s.audioChunks + NonEmpty(Carried(e))
    ensures Step(s, e).recorderReady == s.recorderReady
  {
    if e.ChunkArrived? {
      assert Step(s, e) == HandleData(s, e.chunk);
      assert [e.chunk][1..] == [];
      assert NonEmpty(Carried(e)) == if |e.chunk| > 0 then [e.chunk] else [];
    } else {
      assert Step(s, e) == PauseRecording(s);
      assert s.audioChunks + NonEmpty(Carried(e)) == s.audioChunks;
    }
  }

  /** While chunks arrive and pause/resume is pressed, the list becomes the
      old list followed by the non-empty arrivals in order: pausing drops or
      duplicates nothing. */
  lemma {:induction false} CaptureKeepsOrder(s: State, events: seq<Event>)
    requires forall i :: 0 <= i < |events| ==> IsCaptureEvent(events[i])
    ensures Run(s, events).audioChunks == s.audioChunks + NonEmpty(Arrived(events))
    ensures Run(s, events).recorderReady == s.recorderReady
    decreases events
  {
    if events == [] {
      assert s.audioChunks + [] == s.audioChunks;
    } else {
      assert forall i :: 0 <= i < |events[1..]| ==> IsCaptureEvent(events[1..][i]) by {
        forall i | 0 <= i < |events[1..]| ensures IsCaptureEvent(events[1..][i]) {
          assert events[1..][i] == events[i + 1];
        }
      }
      assert IsCaptureEvent(events[0]);
      CaptureKeepsOrder(Step(s, events[0]), events[1..]);
      CaptureStep(s, events[0]);
      ArrivedCons(s.audioChunks, events);
    }
  }

  /** The list arithmetic of CaptureKeepsOrder's inductive step. */
  lemma ArrivedCons(chunks: seq<Chunk>, events: seq<Event>)
    requires events != []
    ensures chunks + NonEmpty(Arrived(events))
            == (chunks + NonEmpty(Carried(events[0]))) + NonEmpty(Arrived(events[1..]))
  {
    assert Arrived(events) == Carried(events[0]) + Arrived(events[1..]);
    NonEmptySplit(Carried(events[0]), Arrived(events[1..]));
  }

  /** Hence the payload gains exactly the arrived bytes, in order. */
  lemma CapturePayload(s: State, events: seq<Event>)
    requires forall i :: 0 <= i < |events| ==> IsCaptureEvent(events[i])
    requires s.recorderReady
    ensures Payload(Run(s, events)) ==
            Some(Blob(Concat(s.audioChunks) + Concat(Arrived(events)), WebM))
  {
    CaptureKeepsOrder(s, events);
    ConcatSplit(s.audioChunks, NonEmpty(Arrived(events)));
    NonEmptySameBytes(Arrived(events));
  }

  /** `paused` is only ever set while recording, whatever happens. */
  predicate PausedOnlyWhileRecording(s: State)
  {
    s.paused ==> s.recording
  }

  /** No handler ever sets a blob or URL, so the playback branch of the
      render is dead. */
  predicate NoPlayback(s: State)
  {
    s.audioUrl == None && s.audioBlob == None
  }

  /** With the buttons gated by the render, an upload and a recording are
      never under way together. */
  predicate NotLoadingWhileRecording(s: State)
  {
    s.loading ==> !s.recording
  }

  predicate Consistent(s: State)
  {
    PausedOnlyWhileRecording(s) && NoPlayback(s) && NotLoadingWhileRecording(s)
  }

  lemma {:induction false} RunKeepsPausedAndNoPlayback(s: State, events: seq<Event>)
    requires PausedOnlyWhileRecording(s) && NoPlayback(s)
    ensures PausedOnlyWhileRecording(Run(s, events)) && NoPlayback(Run(s, events))
    ensures RenderMode(Run(s, events)) != Playback
    decreases events
  {
    if events != [] {
      StepKeepsPausedAndNoPlayback(s, events[0]);
      RunKeepsPausedAndNoPlayback(Step(s, events[0]), events[1..]);
    }
  }

  lemma StepKeepsPausedAndNoPlayback(s: State, e: Event)
    requires PausedOnlyWhileRecording(s) && NoPlayback(s)
    ensures PausedOnlyWhileRecording(Step(s, e)) && NoPlayback(Step(s, e))
  {
  }

  lemma AllowedStepConsistent(s: State, e: Event)
    requires Consistent(s) && Allowed(s, e)
    ensures Consistent(Step(s, e))
  {
  }

  lemma {:induction false} AllowedRunConsistent(s: State, events: seq<Event>)
    requires Consistent(s) && AllowedRun(s, events)
    ensures Consistent(Run(s, events))
    decreases events
  {
    if events != [] {
      AllowedStepConsistent(s, events[0]);
      AllowedRunConsistent(Step(s, events[0]), events[1..]);
    }
  }

  /** Every state the user can reach by clicking what is on screen is
      consistent and never renders playback. */
  lemma ReachableConsistent(events: seq<Event>)
    requires AllowedRun(Initial, events)
    ensures Consistent(Run(Initial, events))
    ensures RenderMode(Run(Initial, events)) != Playback
  {
    AllowedRunConsistent(Initial, events);
  }

  /** The exclusion depends on the gating alone: "Record" pressed during an
      upload (impossible on screen) would give `loading` and `recording`
      together. */
  lemma UngatedRecordDuringUpload()
    ensures var events := [StartClick(Granted), StopClick, StartClick(Granted)];
            !AllowedRun(Initial, events) &&
            Run(Initial, events).loading && Run(Initial, events).recording
  {
    var s1 := Step(Initial, StartClick(Granted));
    var s2 := Step(s1, StopClick);
    assert !Allowed(s2, StartClick(Granted));
    assert [StartClick(Granted), StopClick, StartClick(Granted)][1..] == [StopClick, StartClick(Granted)];
    assert [StopClick, StartClick(Granted)][1..] == [StartClick(Granted)];
  }

  // ---------------------------------------------------------------------
  // Scenarios

  /** Record, two chunks of 10 and 20 bytes, Stop: one 30-byte payload,
      first chunk then second, and "Loading..." on screen. */
  lemma TwoChunkUpload(c1: Chunk, c2: Chunk)
    requires |c1| == 10 && |c2| == 20
    ensures var s1 := StartRecording(Initial, Granted);
            var s2 := HandleData(s1, c1);
            var s3 := HandleData(s2, c2);
            Allowed(Initial, StartClick(Granted)) && Allowed(s3, StopClick) &&
            Payload(s3) == Some(Blob(c1 + c2, WebM)) &&
            |Payload(s3).value.data| == 30 &&
            RenderMode(StopBegin(s3)) == Loading
  {
    var s3 := HandleData(HandleData(StartRecording(Initial, Granted), c1), c2);
    assert s3.audioChunks == [c1, c2];
    ConcatPair(c1, c2);
  }

  lemma ConcatPair(c1: Chunk, c2: Chunk)
    ensures Concat([c1, c2]) == c1 + c2
  {
    assert [c1, c2][1..] == [c2];
    assert [c2][1..] == [];
  }

  /** On the first Record after mounting, a denied microphone leaves
      `recording` true with the buttons enabled; Stop then throws before the
      request: no upload, no "Loading...". */
  lemma DeniedMicrophone()
    ensures var s := StartRecording(Initial, Denied);
            s.recording && Clickable(s, StopButton) &&
            Payload(s) == None &&
            !StopBegin(s).loading && RenderMode(StopBegin(s)) == Controls
  {
  }

  /** Record does not clear the previous recording's chunks: after a full
      record/stop/response/refresh cycle, each step on screen, a second
      session's upload carries the first session's audio too. */
  lemma SecondSessionKeepsOldChunks(c1: Chunk, c2: Chunk, transcript: string)
    requires |c1| > 0 && |c2| > 0 && transcript != ""
    ensures var s1 := StartRecording(Initial, Granted);
            var s2 := HandleData(s1, c1);
            var s3 := StopBegin(s2);
            var s4 := StopComplete(s3, transcript);
            var s5 := HandleRefresh(s4);
            var s6 := StartRecording(s5, Granted);
            var s7 := HandleData(s6, c2);
            Allowed(Initial, StartClick(Granted)) && Allowed(s2, StopClick) &&
            Allowed(s3, ResponseArrived(transcript)) && Allowed(s4, RefreshClick) &&
            Allowed(s5, StartClick(Granted)) &&
            Payload(s7) == Some(Blob(c1 + c2, WebM))
  {
    var s7 := HandleData(StartRecording(HandleRefresh(StopComplete(StopBegin(
                HandleData(StartRecording(Initial, Granted), c1)), transcript)), Granted), c2);
    assert s7.audioChunks == [c1, c2];
    ConcatPair(c1, c2);
  }

  /** A recorder from an earlier granted session is never cleared: after a
      denied second Record, Stop calls `stop()` on that inactive recorder,
      which does nothing, and the handler goes on to upload. */
  lemma StaleRecorderUploads(transcript: string)
    requires transcript != ""
    ensures var s1 := StartRecording(Initial, Granted);
            var s2 := StopBegin(s1);
            var s3 := StopComplete(s2, transcript);
            var s4 := HandleRefresh(s3);
            var s5 := StartRecording(s4, Denied);
            Allowed(Initial, StartClick(Granted)) && Allowed(s1, StopClick) &&
            Allowed(s2, ResponseArrived(transcript)) && Allowed(s3, RefreshClick) &&
            Allowed(s4, StartClick(Denied)) && Allowed(s5, StopClick) &&
            Payload(s5).Some? && StopBegin(s5).loading &&
            RenderMode(StopBegin(s5)) == Loading
  {
  }

  /** Started without a timeslice, a browser recorder delivers its data only
      after `stop()`, once the payload has been built: the first upload is
      empty, and the late chunk is carried into the next session's upload. */
  lemma DataAfterStop(c: Chunk, transcript: string)
    requires |c| > 0 && transcript != ""
    ensures var s1 := StartRecording(Initial, Granted);
            var s2 := StopBegin(s1);
            var s3 := HandleData(s2, c);
            var s4 := StopComplete(s3, transcript);
            var s5 := HandleRefresh(s4);
            var s6 := StartRecording(s5, Granted);
            Allowed(Initial, StartClick(Granted)) && Allowed(s1, StopClick) &&
            Payload(s1) == Some(Blob([], WebM)) &&
            s3.audioChunks == [c] &&
            Allowed(s3, ResponseArrived(transcript)) && Allowed(s4, RefreshClick) &&
            Allowed(s5, StartClick(Granted)) && Allowed(s6, StopClick) &&
            Payload(s6) == Some(Blob(c, WebM))
  {
    var s3 := HandleData(StopBegin(StartRecording(Initial, Granted)), c);
    assert s3.audioChunks == [c];
    assert [c][1..] == [];
    assert Concat([c]) == c + Concat([]) == c;
  }
}
