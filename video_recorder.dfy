// VideoRecorder: start/stop state, the duration limit checked on every frame,
// and the bounded frame queue feeding the writer thread.
module VideoRecording {
  import opened Wrappers
  import opened FrameQueue

  /** `str(Path(output_dir) / f"{name}.mp4")`. */
  function RecordingPath(outputDir: string, name: string): string
  {
    outputDir + "/" + name + ".mp4"
  }

  /** The dictionary returned by `get_recording_info`. */
  datatype RecordingInfo = RecordingInfo(
    recording: bool,
    filename: Option<string>,
    duration: int,
    frames: nat,
    maxDuration: Option<int>)

  /**
   * Python truthiness of `max_duration_seconds`: `None` and `0` both mean
   * that no limit applies.
   */
  predicate HasLimit(maxDuration: Option<int>)
  {
    maxDuration.Some? && maxDuration.value != 0
  }

  /**
   * How many of the frames `q` the writer thread gets into the file, oldest
   * first. `writable(f)` is whether `cv2.cvtColor` and `write` accept `f`;
   * a frame they reject is caught by the loop's `except Exception`, is gone
   * from the queue and is not counted.
   */
  function CountWritable(q: seq<Frame>, writable: Frame -> bool): (n: nat)
    ensures n <= |q|
  {
    if q == [] then 0 else (if writable(q[0]) then 1 else 0) + CountWritable(q[1..], writable)
  }

  /** Draining a queue in two parts counts what draining it at once counts. */
  lemma {:induction false} CountWritableAppend(a: seq<Frame>, b: seq<Frame>, writable: Frame -> bool)
    ensures CountWritable(a + b, writable) == CountWritable(a, writable) + CountWritable(b, writable)
  {
    if a == [] {
      assert a + b == b;
    } else {
      assert (a + b)[0] == a[0] && (a + b)[1..] == a[1..] + b;
      CountWritableAppend(a[1..], b, writable);
    }
  }

  /** Every drained frame is counted exactly when every one of them is writable. */
  lemma {:induction false} CountWritableAll(q: seq<Frame>, writable: Frame -> bool)
    ensures CountWritable(q, writable) == |q| <==> forall i :: 0 <= i < |q| ==> writable(q[i])
  {
    if q != [] {
      CountWritableAll(q[1..], writable);
      if forall i :: 0 <= i < |q| ==> writable(q[i]) {
        assert forall i :: 0 <= i < |q[1..]| ==> writable(q[1..][i]) by {
          forall i | 0 <= i < |q[1..]| ensures writable(q[1..][i]) {
            assert q[1..][i] == q[i + 1];
          }
        }
      }
      if CountWritable(q, writable) == |q| {
        assert writable(q[0]);
        forall i | 0 <= i < |q| ensures writable(q[i]) {
          if i > 0 {
            assert q[i] == q[1..][i - 1];
          }
        }
      }
    }
  }

  class VideoRecorder {
    const outputDir: string
    var isRecording: bool
    var currentFilename: Option<string>
    var frameQueue: seq<Frame>
    var maxDurationSeconds: Option<int>
    var recordingStartTime: Option<int>
    var framesWritten: nat

    ghost predicate Valid()
      reads this
    {
      |frameQueue| <= Capacity && (isRecording ==> currentFilename.Some? && recordingStartTime.Some?)
    }

    constructor (outputDir: string)
      ensures Valid()
      ensures this.outputDir == outputDir && !isRecording && currentFilename == None
      ensures frameQueue == [] && maxDurationSeconds == None && recordingStartTime == None
      ensures framesWritten == 0
    {
      this.outputDir := outputDir;
      isRecording := false;
      currentFilename := None;
      frameQueue := [];
      maxDurationSeconds := None;
      recordingStartTime := None;
      framesWritten := 0;
    }

    function IsRecordingActive(): bool
      reads this
    {
      isRecording
    }

    /**
     * `start_recording(duration_seconds, filename)` at clock time `now`;
     * `timestamp` is the `%Y%m%d_%H%M%S` rendering of the clock used for the
     * default file name.
     */
    method StartRecording(durationSeconds: Option<int>, filename: Option<string>, now: int, timestamp: string)
      returns (path: string)
      requires Valid()
      modifies this
      ensures Valid()
      ensures old(isRecording) ==> unchanged(this) && Some(path) == currentFilename
      ensures !old(isRecording) ==>
        && path == RecordingPath(outputDir, filename.GetOr("helmet_recording_" + timestamp))
        && isRecording && currentFilename == Some(path)
        && maxDurationSeconds == durationSeconds && recordingStartTime == Some(now)
        && framesWritten == 0 && frameQueue == old(frameQueue)
    {
      if isRecording {
        path := currentFilename.value;
        return;
      }
      var name := filename.GetOr("helmet_recording_" + timestamp);
      path := RecordingPath(outputDir, name);
      currentFilename := Some(path);
      maxDurationSeconds := durationSeconds;
      recordingStartTime := Some(now);
      framesWritten := 0;
      isRecording := true;
    }

    /**
     * `stop_recording()`. The join on the writer thread lets it drain the
     * queue before the file is closed; each drained frame is counted when
     * `writable` accepts it.
     */
    method StopRecording(writable: Frame -> bool) returns (saved: Option<string>)
      requires Valid()
      modifies this
      ensures Valid()
      ensures !old(isRecording) ==> saved == None && unchanged(this)
      ensures old(isRecording) ==>
        && saved == old(currentFilename) && saved.Some?
        && !isRecording && currentFilename == None
        && frameQueue == [] && framesWritten == old(framesWritten) + CountWritable(old(frameQueue), writable)
        && old(framesWritten) <= framesWritten <= old(framesWritten) + old(|frameQueue|)
        && maxDurationSeconds == old(maxDurationSeconds)
        && recordingStartTime == old(recordingStartTime)
    {
      if !isRecording {
        return None;
      }
      isRecording := false;
      framesWritten := framesWritten + CountWritable(frameQueue, writable);
      frameQueue := [];
      saved := currentFilename;
      currentFilename := None;
    }

    /** `add_frame(frame)` at clock time `now`; `writable` as for `StopRecording`. */
    method AddFrame(frame: Frame, now: int, writable: Frame -> bool)
      requires Valid()
      modifies this
      ensures Valid()
      ensures !old(isRecording) ==> unchanged(this)
      ensures old(isRecording) && HasLimit(old(maxDurationSeconds))
              && now - old(recordingStartTime).value >= old(maxDurationSeconds).value ==>
        && !isRecording && currentFilename == None
        && frameQueue == [] && framesWritten == old(framesWritten) + CountWritable(old(frameQueue), writable)
      ensures old(isRecording) && !(HasLimit(old(maxDurationSeconds))
              && now - old(recordingStartTime).value >= old(maxDurationSeconds).value) ==>
        && isRecording && frameQueue == Enqueue(old(frameQueue), frame)
        && currentFilename == old(currentFilename) && framesWritten == old(framesWritten)
      ensures maxDurationSeconds == old(maxDurationSeconds) && recordingStartTime == old(recordingStartTime)
    {
      if !isRecording {
        return;
      }
      if HasLimit(maxDurationSeconds) {
        var elapsed := now - recordingStartTime.value;
        if elapsed >= maxDurationSeconds.value {
          var _ := StopRecording(writable);
          return;
        }
      }
      EnqueueKeepsNewest(frameQueue, frame);
      frameQueue := Enqueue(frameQueue, frame);
    }

    /**
     * One pass of `_write_loop`: the oldest queued frame is taken from the
     * queue and goes to the file, counted only when `writable` accepts it;
     * a rejected frame is consumed all the same and the loop goes on.
     */
    method WriteNextFrame(writable: Frame -> bool)
      requires Valid()
      modifies this
      ensures Valid()
      ensures old(frameQueue) == [] ==> unchanged(this)
      ensures old(frameQueue) != [] ==>
        && frameQueue == old(frameQueue)[1..]
        && framesWritten == old(framesWritten) + (if writable(old(frameQueue)[0]) then 1 else 0)
        && framesWritten == old(framesWritten) + CountWritable(old(frameQueue)[..1], writable)
      ensures isRecording == old(isRecording) && currentFilename == old(currentFilename)
      ensures maxDurationSeconds == old(maxDurationSeconds) && recordingStartTime == old(recordingStartTime)
    {
      if frameQueue != [] {
        var frame := frameQueue[0];
        frameQueue := frameQueue[1..];
        if writable(frame) {
          framesWritten := framesWritten + 1;
        }
      }
    }

    /** `get_recording_info()` at clock time `now`. */
    function GetRecordingInfo(now: int): (info: RecordingInfo)
      reads this
      ensures !isRecording ==> info == RecordingInfo(false, None, 0, 0, None)
      ensures isRecording ==> info.recording && info.filename == currentFilename
                              && info.frames == framesWritten && info.maxDuration == maxDurationSeconds
    {
      if !isRecording then RecordingInfo(false, None, 0, 0, None)
      else
        var elapsed := if recordingStartTime.Some? && recordingStartTime.value != 0
                       then now - recordingStartTime.value else 0;
        RecordingInfo(true, currentFilename, elapsed, framesWritten, maxDurationSeconds)
    }
  }
}
