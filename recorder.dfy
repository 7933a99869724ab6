/** The component itself: its state fields, updated in place by its event
    handlers. Each handler is proved to move the fields exactly as the
    matching transition of RecorderModel says. */
module Recorder {
  import opened Chunks
  import opened RecorderModel

  class AudioRecorder {
    var recording: bool
    var paused: bool
    var audioChunks: seq<Chunk>
    var audioBlob: Option<Blob>
    var audioUrl: Option<string>
    var text: string
    var loading: bool
    var showRefresh: bool
    /** `mediaRecorderRef.current != null` */
    var recorderReady: bool

    /** The fields as one value. */
    function Snapshot(): State
      reads this
    {
      State(recording, paused, audioChunks, audioBlob, audioUrl, text,
            loading, showRefresh, recorderReady)
    }

    /** Mounting: every `useState` initial value, no recorder yet. */
    constructor ()
      ensures Snapshot() == Initial
    {
      recording, paused, audioChunks := false, false, [];
      audioBlob, audioUrl, text := None, None, "";
      loading, showRefresh, recorderReady := false, false, false;
    }

    /** `startRecording`, with the microphone request's outcome given. */
    method StartRecording(device: DeviceOutcome)
      modifies this
      ensures Snapshot() == RecorderModel.StartRecording(old(Snapshot()), device)
    {
      recording := true;
      if device == Granted {
        recorderReady := true;
      }
    }

    /** `pauseRecording`: the Pause/Resume toggle. */
    method PauseRecording()
      modifies this
      ensures Snapshot() == RecorderModel.PauseRecording(old(Snapshot()))
    {
      if recording && !paused {
        paused := true;
      } else if recording && paused {
        paused := false;
      }
    }

    /** `handleData`: a chunk from the recorder. */
    method HandleData(chunk: Chunk)
      modifies this
      ensures Snapshot() == RecorderModel.HandleData(old(Snapshot()), chunk)
    {
      if |chunk| > 0 {
        audioChunks := audioChunks + [chunk];
      }
    }

    /** `stopRecording` up to the request: returns the payload it sends, or
        None when it throws for want of a recorder. */
    method StopBegin() returns (payload: Option<Blob>)
      modifies this
      ensures payload == Payload(old(Snapshot()))
      ensures Snapshot() == RecorderModel.StopBegin(old(Snapshot()))
    {
      recording := false;
      paused := false;
      if !recorderReady {
        return None;
      }
      loading := true;
      payload := Some(Blob(Concat(audioChunks), WebM));
    }

    /** `stopRecording` after the response: the transcript is shown. */
    method StopComplete(transcript: string)
      modifies this
      ensures Snapshot() == RecorderModel.StopComplete(old(Snapshot()), transcript)
    {
      text := transcript;
      showRefresh := true;
      loading := false;
    }

    /** `handleCancel` */
    method HandleCancel()
      modifies this
      ensures Snapshot() == RecorderModel.HandleCancel(old(Snapshot()))
    {
      recording := false;
      paused := false;
      audioChunks := [];
      audioBlob := None;
      audioUrl := None;
      text := "";
      showRefresh := false;
    }

    /** `handleRefresh` */
    method HandleRefresh()
      modifies this
      ensures Snapshot() == RecorderModel.HandleRefresh(old(Snapshot()))
    {
      audioUrl := None;
      text := "";
      showRefresh := false;
    }
  }

  /** Record, a chunk, Pause, Resume, a chunk, Stop on one component: the
      request carries both chunks in order and "Loading..." is shown. */
  method RecordTwoChunks(c1: Chunk, c2: Chunk) returns (payload: Option<Blob>, mode: Mode)
    requires |c1| > 0 && |c2| > 0
    ensures payload == Some(Blob(c1 + c2, WebM))
    ensures mode == Loading
  {
    var r := new AudioRecorder();
    r.StartRecording(Granted);
    r.HandleData(c1);
    r.PauseRecording();
    r.PauseRecording();
    r.HandleData(c2);
    payload := r.StopBegin();
    ConcatPair(c1, c2);
    mode := RenderMode(r.Snapshot());
  }
}
