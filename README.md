# AudioRecorder state machine in Dafny

This project models the `AudioRecorder` React component. The component records
microphone audio. The user can pause, resume, stop or cancel the recording.
On stop, the recorded chunks are joined into one `audio/webm` payload and posted
to a transcription endpoint, and the returned text is shown with a Refresh button.

The model has three modules:

- `Chunks` (chunks.dfy): a chunk is a byte sequence. `Concat` joins chunks in list
  order, which is what building the Blob does. `TotalSize` is the sum of the chunk
  sizes. Lemmas show that joining is compositional, that every chunk keeps its place
  and order in the payload, and that dropping empty chunks changes nothing.
- `RecorderModel` (recorder_model.dfy): the component's state as a value. It has the
  eight `useState` fields plus `recorderReady`, which records whether
  `mediaRecorderRef.current` is set. There is one transition function per handler.
  `Stop` is split in two: `StopBegin` is the synchronous part up to the request and
  `Payload` is what gets sent; `StopComplete` runs when the response arrives. The
  module also holds the pure render selection (`RenderMode`, `ButtonsEnabled`,
  `ToggleLabel`, `Clickable`) and event sequences (`Step`, `Run`). `Allowed` says
  which events the screen lets happen. The lemmas cover single handlers, event
  sequences and whole scenarios.
- `Recorder` (recorder.dfy): the class `AudioRecorder`. Its fields are the
  component's state, and each handler is a method that updates them in place.
  Every method is proved to move the fields exactly as its `RecorderModel`
  transition says.

The model keeps the code's behaviour where it differs from what one might expect
of such a recorder:

- A denied microphone request leaves `recording` true, because the failure is only
  logged. One might expect the component to return to idle.
- Record does not clear the previous recording's chunks. One might expect a new
  recording to start with no chunks. `SecondSessionKeepsOldChunks` shows that a
  second upload carries the first recording's audio.
- Cancel leaves `loading` as it is, and a response that never arrives leaves it true.
- `handleData` has no guard on `paused`, so a chunk delivered while paused is
  appended like any other.
- When no earlier request was granted (the first Record after mounting was
  denied), Stop throws at `mediaRecorderRef.current.stop()`. By then `recording`
  and `paused` are already cleared. `loading` is never set and nothing is uploaded.
  Pause/Resume with no recorder likewise throws at `pause()`/`resume()`, after
  `paused` has been flipped. The model assumes React still applies the state
  updates queued before the throw.
- `mediaRecorderRef.current` is never cleared. After one granted session, a
  denied Record leaves the old, inactive recorder in place. Stop then calls `stop()`
  on it, which does nothing, and goes on to set `loading` and upload the chunks
  (`StaleRecorderUploads`).
- `audioUrl` is tested for JavaScript truthiness, so an empty URL does not select
  playback. No handler ever sets `audioUrl` or `audioBlob` to a value, so the
  playback branch is unreachable (`RunKeepsPausedAndNoPlayback`).
- "`loading` never coincides with `recording`" holds only because the screen hides
  Record while loading (`ReachableConsistent`). Without that gating it fails
  (`UngatedRecordDuringUpload`).

## Model

| member | source | states |
|---|---|---|
| `Chunks.Concat` | src/components/AudioRecorder.jsx:49-51 | the payload built from the chunks is as long as the sum of the chunk sizes |
| `Chunks.ConcatSplit` | src/components/AudioRecorder.jsx:49-51 | building from two lists of parts is building from each and joining, in order |
| `Chunks.ConcatAppend` | src/components/AudioRecorder.jsx:49-65 | appending a chunk to the list appends exactly its bytes to the payload |
| `Chunks.ChunkInPlace` | src/components/AudioRecorder.jsx:49-51 | chunk i appears whole in the payload, at the offset equal to the sizes of the chunks before it |
| `Chunks.NonEmptySameBytes` | src/components/AudioRecorder.jsx:63-67 | dropping empty chunks leaves the joined bytes unchanged |
| `RecorderModel.StartRecording` | src/components/AudioRecorder.jsx:15-28 | sets `recording` whatever the microphone outcome; only a grant creates the recorder; chunks, `paused`, `text`, `loading`, `showRefresh` are untouched |
| `RecorderModel.PauseRecording` | src/components/AudioRecorder.jsx:30-38 | flips `paused` when recording and changes nothing otherwise |
| `RecorderModel.ToggleTwice` | src/components/AudioRecorder.jsx:30-38 | toggling twice restores the state |
| `RecorderModel.HandleData` | src/components/AudioRecorder.jsx:63-67 | a non-empty chunk goes to the end of the list and an empty one changes nothing; either way the payload grows by exactly the chunk's bytes; no other field changes |
| `RecorderModel.StopBegin` | src/components/AudioRecorder.jsx:40-51 | clears `recording` and `paused`; sets `loading` when a recorder exists, otherwise leaves it (the handler throws); nothing else changes, chunks included |
| `RecorderModel.Payload` | src/components/AudioRecorder.jsx:43-55 | the upload exists iff a recorder exists, is typed "audio/webm", is the chunks joined in order, and is as long as the sum of their sizes |
| `RecorderModel.StopComplete` | src/components/AudioRecorder.jsx:56-60 | sets `text` to the response, shows Refresh, clears `loading`, and keeps the chunks |
| `RecorderModel.HandleCancel` | src/components/AudioRecorder.jsx:69-77 | clears `recording`, `paused`, chunks, blob, URL, `text` and `showRefresh`; `loading` is unchanged |
| `RecorderModel.CancelClears` | src/components/AudioRecorder.jsx:69-77 | cancel is idempotent; afterwards the screen shows the controls, or still "Loading..." if an upload was in flight; the buttons are disabled; a later Stop would send an empty payload |
| `RecorderModel.HandleRefresh` | src/components/AudioRecorder.jsx:79-83 | clears `audioUrl`, `text` and `showRefresh` and nothing else |
| `RecorderModel.RefreshClears` | src/components/AudioRecorder.jsx:79-83 | refresh is idempotent, hides its own button and, with no upload in flight, brings back the controls |
| `RecorderModel.RenderMode` | src/components/AudioRecorder.jsx:87-110 | Loading iff `loading`; else Transcript iff `text` is non-empty; else Playback iff `audioUrl` is truthy; else Controls |
| `RecorderModel.ButtonsEnabled` | src/components/AudioRecorder.jsx:100-107 | Pause/Resume, Stop and Cancel are enabled iff `recording`, which is exactly when the toggle changes the state |
| `RecorderModel.Clickable` | src/components/AudioRecorder.jsx:93-108 | a clickable button is never shown while loading; Record, Pause, Stop and Cancel only in the controls (empty text, no playback URL), the last three only while recording; Refresh only with a transcript and `showRefresh` |
| `RecorderModel.Allowed` | src/components/AudioRecorder.jsx:87-110 | the events the screen lets happen: while loading only chunk arrivals and the response; Pause, Stop and Cancel only while recording; chunks always |
| `RecorderModel.ToggleLabel` | src/components/AudioRecorder.jsx:100-102 | the toggle reads "Resume" iff paused and "Pause" iff not |
| `RecorderModel.ClickableButtons` | src/components/AudioRecorder.jsx:93-108 | Record is clickable iff the controls show; Pause, Stop and Cancel iff the controls show and `recording`; Refresh iff the transcript shows and `showRefresh`; nothing is clickable while loading |
| `RecorderModel.StopShowsLoading` | src/components/AudioRecorder.jsx:41-88 | after a Stop that sends the request, "Loading..." shows and no button can be clicked |
| `RecorderModel.ResponseShowsTranscript` | src/components/AudioRecorder.jsx:56-93 | after the response, the transcript and its Refresh button show iff the returned text is non-empty |
| `RecorderModel.CaptureStep` | src/components/AudioRecorder.jsx:30-67 | one chunk arrival or pause toggle adds that chunk, if non-empty, and nothing else to the list |
| `RecorderModel.CaptureKeepsOrder` | src/components/AudioRecorder.jsx:30-67 | across any mix of chunk arrivals and pause toggles, the list becomes the old list followed by the non-empty arrivals in order |
| `RecorderModel.CapturePayload` | src/components/AudioRecorder.jsx:30-67 | the payload after such a run is the old payload followed by every arrived byte, in order |
| `RecorderModel.RunKeepsPausedAndNoPlayback` | src/components/AudioRecorder.jsx:4-83 | under any events, `paused` implies `recording`, and the URL and blob stay null, so playback is never rendered |
| `RecorderModel.AllowedStepConsistent` | src/components/AudioRecorder.jsx:15-110 | an event the screen allows preserves the invariant (`paused` only while recording, no playback, never loading while recording) |
| `RecorderModel.AllowedRunConsistent` | src/components/AudioRecorder.jsx:15-110 | so does every sequence of allowed events |
| `RecorderModel.ReachableConsistent` | src/components/AudioRecorder.jsx:4-110 | every state reached from mounting by allowed events is consistent and never renders playback |
| `RecorderModel.UngatedRecordDuringUpload` | src/components/AudioRecorder.jsx:15-48 | Record, Stop, Record is not an allowed run, and would leave `loading` and `recording` both true |
| `RecorderModel.TwoChunkUpload` | src/components/AudioRecorder.jsx:15-67 | Record, then chunks of 10 and 20 bytes, then Stop: the upload is one 30-byte payload holding the first chunk then the second, and "Loading..." shows |
| `RecorderModel.DeniedMicrophone` | src/components/AudioRecorder.jsx:15-43 | when the first Record after mounting is denied, `recording` stays true and Stop is clickable, but Stop sends nothing and does not show "Loading..." |
| `RecorderModel.StaleRecorderUploads` | src/components/AudioRecorder.jsx:15-48 | after a granted session, a denied Record still leaves a recorder, so Stop (each step allowed) sets `loading`, shows "Loading..." and uploads |
| `RecorderModel.DataAfterStop` | src/components/AudioRecorder.jsx:15-67 | when the chunk arrives only after Stop, each step allowed, the first upload is the empty payload and the late chunk becomes the next session's upload |
| `RecorderModel.SecondSessionKeepsOldChunks` | src/components/AudioRecorder.jsx:15-83 | after a full record, stop, response and refresh cycle, each step allowed, a second recording's upload starts with the first recording's chunks |
| `Recorder.AudioRecorder.constructor` | src/components/AudioRecorder.jsx:4-11 | the fields start at the `useState` initial values |
| `Recorder.AudioRecorder.StartRecording` | src/components/AudioRecorder.jsx:15-28 | updates the fields as `RecorderModel.StartRecording` |
| `Recorder.AudioRecorder.PauseRecording` | src/components/AudioRecorder.jsx:30-38 | updates the fields as `RecorderModel.PauseRecording` |
| `Recorder.AudioRecorder.HandleData` | src/components/AudioRecorder.jsx:63-67 | updates the fields as `RecorderModel.HandleData` |
| `Recorder.AudioRecorder.StopBegin` | src/components/AudioRecorder.jsx:40-55 | updates the fields as `RecorderModel.StopBegin` and returns the payload given by `RecorderModel.Payload` |
| `Recorder.AudioRecorder.StopComplete` | src/components/AudioRecorder.jsx:56-60 | updates the fields as `RecorderModel.StopComplete` |
| `Recorder.AudioRecorder.HandleCancel` | src/components/AudioRecorder.jsx:69-77 | updates the fields as `RecorderModel.HandleCancel` |
| `Recorder.AudioRecorder.HandleRefresh` | src/components/AudioRecorder.jsx:79-83 | updates the fields as `RecorderModel.HandleRefresh` |
| `Recorder.RecordTwoChunks` | src/components/AudioRecorder.jsx:15-67 | on one component, Record, a chunk, Pause, Resume, a chunk, Stop uploads both chunks in order and shows "Loading..." |

## Left out

- RecorderModel.StartRecording: the microphone request settles in the same step as the Record click. The real request settles later (lines 19-27), and during the prompt Pause, Stop and Cancel are already enabled. Two traces of that window cannot be expressed: Stop during the prompt throws at `mediaRecorderRef.current.stop()`, and a grant arriving after that Stop starts a live recorder while `recording` is false.

- Browser device APIs are not modelled: `getUserMedia`, the `MediaRecorder` start/pause/resume/stop calls and stopping the tracks. The request's outcome is a parameter of `StartRecording`. The only trace of the recorder is `recorderReady`.
- When the recorder delivers its data is not constrained. Each chunk is an event that can come at any time. In a browser, a recorder started without a timeslice delivers its data only once it stops, which is after the payload has been built; `DataAfterStop` follows that order, while `TwoChunkUpload` and `RecordTwoChunks` show what the handlers do if chunks come earlier.
- `fetch("/api/whisper")` and `response.json()` are network I/O and are not modelled. The returned text is the parameter of `StopComplete`. A rejected request is simply no `StopComplete`, so `loading` stays true.
- A response without a `text` field is not modelled. It would store `undefined`, which renders like "".
- Blob internals are not modelled. A Blob is its bytes and its MIME type.
- React specifics are not modelled: batching of `useState` updates, re-rendering, and the `audioChunks` value captured by the `stopRecording` closure. Each handler acts on the state current when it runs.
- Races between an outstanding request and Cancel are not modelled. The code has no ordering guard. `StopComplete` applies in any state.
- JSX markup and text content are not modelled. Only the render-mode choice, the enabled buttons and the toggle label are kept.
