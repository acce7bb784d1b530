// FullRecorder: screen capture plus optional microphone audio, muxed with
// ffmpeg when the recording stops.
module FullRecording {
  import opened Wrappers
  import opened FrameQueue
  import VideoRecording

  /** The ffmpeg invocation `_mux_av` chooses. */
  datatype MuxPlan = NoMux | VideoOnly | VideoAndAudio

  /**
   * `_mux_av`: nothing without the temporary video; video only when audio is
   * disabled or its temporary file is missing; otherwise both streams.
   */
  function MuxChoice(videoExists: bool, enableAudio: bool, audioExists: bool): MuxPlan
  {
    if !videoExists then NoMux
    else if !enableAudio || !audioExists then VideoOnly
    else VideoAndAudio
  }

  /** Each ffmpeg branch of `_mux_av`, stated as a condition on the inputs. */
  lemma MuxChoiceBranches(videoExists: bool, enableAudio: bool, audioExists: bool)
    ensures MuxChoice(videoExists, enableAudio, audioExists) == NoMux <==> !videoExists
    ensures MuxChoice(videoExists, enableAudio, audioExists) == VideoAndAudio
            <==> videoExists && enableAudio && audioExists
    ensures MuxChoice(videoExists, enableAudio, audioExists) == VideoOnly
            <==> videoExists && !(enableAudio && audioExists)
  {
  }

  class FullRecorder {
    const outputDir: string
    const enableAudio: bool
    var isRecording: bool
    var currentFilename: Option<string>
    var tempVideoPath: Option<string>
    var tempAudioPath: Option<string>
    var frameQueue: seq<Frame>
    var videoThreadStarted: bool
    var audioThreadStarted: bool
    var maxDurationSeconds: Option<int>
    var recordingStartTime: Option<int>
    var framesWritten: nat
    /** The capture thread's ffmpeg writer is still taking frames. */
    var writerAlive: bool

    ghost predicate Valid()
      reads this
    {
      && |frameQueue| <= Capacity
      && (isRecording ==> currentFilename.Some? && recordingStartTime.Some? && tempVideoPath.Some?)
      && (!enableAudio ==> tempAudioPath == None && !audioThreadStarted)
      && (writerAlive ==> videoThreadStarted)
    }

    constructor (outputDir: string, enableAudio: bool)
      ensures Valid()
      ensures this.outputDir == outputDir && this.enableAudio == enableAudio
      ensures !isRecording && currentFilename == None && tempVideoPath == None && tempAudioPath == None
      ensures frameQueue == [] && !videoThreadStarted && !audioThreadStarted && framesWritten == 0
      ensures !writerAlive
    {
      this.outputDir := outputDir;
      this.enableAudio := enableAudio;
      isRecording := false;
      currentFilename := None;
      tempVideoPath := None;
      tempAudioPath := None;
      frameQueue := [];
      videoThreadStarted := false;
      audioThreadStarted := false;
      maxDurationSeconds := None;
      recordingStartTime := None;
      framesWritten := 0;
      writerAlive := false;
    }

    /**
     * `start_recording(duration_seconds, filename)` at clock time `now`;
     * `videoTemp` and `audioTemp` are the names `tempfile.mktemp` hands out;
     * `writerOpens` is whether the capture thread's ffmpeg `Popen` succeeds.
     */
    method StartRecording(durationSeconds: Option<int>, filename: Option<string>, now: int,
                          timestamp: string, videoTemp: string, audioTemp: string, writerOpens: bool)
      returns (path: string)
      requires Valid()
      modifies this
      ensures Valid()
      ensures old(isRecording) ==> unchanged(this) && Some(path) == currentFilename
      ensures !old(isRecording) ==>
        && path == VideoRecording.RecordingPath(outputDir, filename.GetOr("helmet_full_" + timestamp))
        && isRecording && currentFilename == Some(path)
        && maxDurationSeconds == durationSeconds && recordingStartTime == Some(now)
        && framesWritten == 0 && frameQueue == old(frameQueue)
        && tempVideoPath == Some(videoTemp) && videoThreadStarted && writerAlive == writerOpens
        && tempAudioPath == (if enableAudio then Some(audioTemp) else old(tempAudioPath))
        && audioThreadStarted == (enableAudio || old(audioThreadStarted))
    {
      if isRecording {
        path := currentFilename.value;
        return;
      }
      var name := filename.GetOr("helmet_full_" + timestamp);
      path := VideoRecording.RecordingPath(outputDir, name);
      currentFilename := Some(path);
      maxDurationSeconds := durationSeconds;
      recordingStartTime := Some(now);
      framesWritten := 0;
      tempVideoPath := Some(videoTemp);
      if enableAudio {
        tempAudioPath := Some(audioTemp);
      }
      isRecording := true;
      videoThreadStarted := true;
      writerAlive := writerOpens;
      if enableAudio {
        audioThreadStarted := true;
      }
    }

    /**
     * `stop_recording()`, given whether the temporary video and audio files
     * exist when `_mux_av` looks for them. A live capture thread drains the
     * queue before the join returns; a writer that has already failed leaves
     * the queue as it is, for the next recording. The temporary paths are
     * not cleared.
     */
    method StopRecording(videoExists: bool, audioExists: bool) returns (saved: Option<string>, mux: Option<MuxPlan>)
      requires Valid()
      modifies this
      ensures Valid()
      ensures !old(isRecording) ==> saved == None && mux == None && unchanged(this)
      ensures old(isRecording) ==>
        && saved == old(currentFilename) && saved.Some?
        && mux == Some(MuxChoice(videoExists, enableAudio, audioExists))
        && !isRecording && currentFilename == None
        && !writerAlive
        && (old(writerAlive) ==> frameQueue == [] && framesWritten == old(framesWritten) + old(|frameQueue|))
        && (!old(writerAlive) ==> frameQueue == old(frameQueue) && framesWritten == old(framesWritten))
        && tempVideoPath == old(tempVideoPath) && tempAudioPath == old(tempAudioPath)
    {
      if !isRecording {
        return None, None;
      }
      isRecording := false;
      if writerAlive {
        framesWritten := framesWritten + |frameQueue|;
        frameQueue := [];
      }
      writerAlive := false;
      mux := Some(MuxChoice(videoExists, enableAudio, audioExists));
      saved := currentFilename;
      currentFilename := None;
    }

    /**
     * `add_frame(frame)` at clock time `now`. When the limit is reached a
     * thread is started to run `stop_recording`, and the frame is dropped;
     * `stopScheduled` reports that thread.
     */
    method AddFrame(frame: Frame, now: int) returns (stopScheduled: bool)
      requires Valid()
      modifies this
      ensures Valid()
      ensures !old(isRecording) ==> !stopScheduled && unchanged(this)
      ensures old(isRecording) ==>
        stopScheduled == (VideoRecording.HasLimit(old(maxDurationSeconds))
                          && now - old(recordingStartTime).value >= old(maxDurationSeconds).value)
      ensures stopScheduled ==> unchanged(this)
      ensures old(isRecording) && !stopScheduled ==>
        frameQueue == Enqueue(old(frameQueue), frame) && isRecording
        && currentFilename == old(currentFilename) && framesWritten == old(framesWritten)
      ensures maxDurationSeconds == old(maxDurationSeconds) && recordingStartTime == old(recordingStartTime)
      ensures tempVideoPath == old(tempVideoPath) && tempAudioPath == old(tempAudioPath)
      ensures videoThreadStarted == old(videoThreadStarted) && audioThreadStarted == old(audioThreadStarted)
      ensures writerAlive == old(writerAlive)
    {
      stopScheduled := false;
      if !isRecording {
        return;
      }
      if VideoRecording.HasLimit(maxDurationSeconds) {
        var elapsed := now - recordingStartTime.value;
        if elapsed >= maxDurationSeconds.value {
          stopScheduled := true;
          return;
        }
      }
      EnqueueKeepsNewest(frameQueue, frame);
      frameQueue := Enqueue(frameQueue, frame);
    }

    /**
     * One pass of `_video_capture_loop`: the oldest frame is taken from the
     * queue and written to ffmpeg; `writeOk` is whether the write succeeds.
     * A failed write has still consumed its frame and ends the loop for good.
     */
    method WriteNextFrame(writeOk: bool)
      requires Valid()
      modifies this
      ensures Valid()
      ensures !old(writerAlive) || old(frameQueue) == [] ==> unchanged(this)
      ensures old(writerAlive) && old(frameQueue) != [] ==>
        && frameQueue == old(frameQueue)[1..]
        && framesWritten == old(framesWritten) + (if writeOk then 1 else 0)
        && writerAlive == writeOk
      ensures isRecording == old(isRecording) && currentFilename == old(currentFilename)
      ensures maxDurationSeconds == old(maxDurationSeconds) && recordingStartTime == old(recordingStartTime)
      ensures tempVideoPath == old(tempVideoPath) && tempAudioPath == old(tempAudioPath)
      ensures videoThreadStarted == old(videoThreadStarted) && audioThreadStarted == old(audioThreadStarted)
    {
      if writerAlive && frameQueue != [] {
        frameQueue := frameQueue[1..];
        if writeOk {
          framesWritten := framesWritten + 1;
        } else {
          writerAlive := false;
        }
      }
    }

    function IsRecordingActive(): bool
      reads this
    {
      isRecording
    }

    /** `get_recording_info()` at clock time `now`. */
    function GetRecordingInfo(now: int): (info: VideoRecording.RecordingInfo)
      reads this
      ensures !isRecording ==> info == VideoRecording.RecordingInfo(false, None, 0, 0, None)
      ensures isRecording ==> info.recording && info.filename == currentFilename
                              && info.frames == framesWritten && info.maxDuration == maxDurationSeconds
    {
      if !isRecording then VideoRecording.RecordingInfo(false, None, 0, 0, None)
      else
        var elapsed := if recordingStartTime.Some? && recordingStartTime.value != 0
                       then now - recordingStartTime.value else 0;
        VideoRecording.RecordingInfo(true, currentFilename, elapsed, framesWritten, maxDurationSeconds)
    }
  }
}
