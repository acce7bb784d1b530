// The voice pipeline of the visor: the wake-word detector, which keeps the
// microphone while it scores keywords, and the realtime assistant it hands
// the microphone to when a keyword is heard. The two refer to each other
// (the detector's callback activates the assistant, the assistant resumes the
// detector), so they share one module.
//
// Audio devices are abstract: a probe is given the set of rates the device
// accepts. Stream handles are `NoHandle` (None), `Live` (open) or `Shut`
// (closed but still referenced). Inbound realtime-API messages arrive decoded
// as `Inbound` values and outbound ones are collected in `outbox`.
module VoicePipeline {
  import opened Wrappers
  import opened Text
  import VideoRecording
  import FrameQueue
  import SystemMonitoring

  // ---------------------------------------------------------------------
  // Sample-rate probing

  /** The candidate rates of the detector's microphone probe. */
  const DetectorRates: seq<int> := [16000, 48000, 44100]
  /** The candidate rates of the assistant's microphone probe. */
  const InputRates: seq<int> := [24000, 48000, 44100]
  /** The candidate rates of the assistant's speaker probe. */
  const OutputRates: seq<int> := [44100, 48000, 24000]

  /**
   * How a probe loop ends: a stream opened at `rate`, the exception of the
   * candidate that re-raises, or the list running out with nothing opened.
   */
  datatype ProbeOutcome = Opened(rate: int) | Raised | Exhausted

  /**
   * A `for test_rate in cands` loop that breaks on the first rate that opens
   * and re-raises when the candidate `reraiseAt` fails.
   */
  function Probe(cands: seq<int>, opens: set<int>, reraiseAt: int): ProbeOutcome
    decreases |cands|
  {
    if cands == [] then Exhausted
    else if cands[0] in opens then Opened(cands[0])
    else if cands[0] == reraiseAt then Raised
    else Probe(cands[1..], opens, reraiseAt)
  }

  /** Every candidate before `k` was tried, failed and did not re-raise. */
  predicate TriedBefore(cands: seq<int>, opens: set<int>, reraiseAt: int, k: int)
  {
    0 <= k <= |cands| && forall j | 0 <= j < k :: cands[j] !in opens && cands[j] != reraiseAt
  }

  /**
   * The probe opens the first candidate that opens, provided no earlier
   * candidate re-raised; it re-raises at the first failing `reraiseAt`; it
   * runs out only when every candidate failed quietly.
   */
  lemma {:induction false} ProbeIsFirstOpenable(cands: seq<int>, opens: set<int>, reraiseAt: int)
    ensures Probe(cands, opens, reraiseAt).Opened? ==>
      exists k | 0 <= k < |cands| :: TriedBefore(cands, opens, reraiseAt, k)
        && cands[k] == Probe(cands, opens, reraiseAt).rate && cands[k] in opens
    ensures Probe(cands, opens, reraiseAt).Raised? <==>
      exists k | 0 <= k < |cands| :: TriedBefore(cands, opens, reraiseAt, k)
        && cands[k] == reraiseAt && cands[k] !in opens
    ensures Probe(cands, opens, reraiseAt).Exhausted? <==> TriedBefore(cands, opens, reraiseAt, |cands|)
    decreases |cands|
  {
    if cands != [] && cands[0] !in opens && cands[0] != reraiseAt {
      var rest := cands[1..];
      ProbeIsFirstOpenable(rest, opens, reraiseAt);
      if Probe(rest, opens, reraiseAt).Opened? {
        var k :| 0 <= k < |rest| && TriedBefore(rest, opens, reraiseAt, k)
          && rest[k] == Probe(rest, opens, reraiseAt).rate && rest[k] in opens;
        assert TriedBefore(cands, opens, reraiseAt, k + 1);
      }
      if Probe(rest, opens, reraiseAt).Raised? {
        var k :| 0 <= k < |rest| && TriedBefore(rest, opens, reraiseAt, k)
          && rest[k] == reraiseAt && rest[k] !in opens;
        assert TriedBefore(cands, opens, reraiseAt, k + 1);
      } else {
        forall k | 0 <= k < |cands| && TriedBefore(cands, opens, reraiseAt, k)
          ensures !(cands[k] == reraiseAt && cands[k] !in opens)
        {
          if k > 0 {
            assert TriedBefore(rest, opens, reraiseAt, k - 1);
          }
        }
      }
      if TriedBefore(cands, opens, reraiseAt, |cands|) {
        assert TriedBefore(rest, opens, reraiseAt, |rest|);
      }
      if TriedBefore(rest, opens, reraiseAt, |rest|) {
        assert TriedBefore(cands, opens, reraiseAt, |cands|);
      }
    } else if cands != [] {
      assert !TriedBefore(cands, opens, reraiseAt, |cands|);
      if cands[0] in opens {
        forall k | 0 <= k < |cands| && TriedBefore(cands, opens, reraiseAt, k)
          ensures !(cands[k] == reraiseAt && cands[k] !in opens)
        {
          assert k == 0;
        }
      }
      assert TriedBefore(cands, opens, reraiseAt, 0);
    }
  }

  /** The probe loop itself: one `open` attempt per candidate, in list order. */
  method ProbeRates(cands: seq<int>, opens: set<int>, reraiseAt: int) returns (r: ProbeOutcome)
    ensures r == Probe(cands, opens, reraiseAt)
  {
    var i := 0;
    while i < |cands|
      invariant 0 <= i <= |cands|
      invariant Probe(cands[i..], opens, reraiseAt) == Probe(cands, opens, reraiseAt)
    {
      assert cands[i..][1..] == cands[i + 1..];
      if cands[i] in opens {
        return Opened(cands[i]);
      }
      if cands[i] == reraiseAt {
        return Raised;
      }
      i := i + 1;
    }
    return Exhausted;
  }

  /**
   * The detector's probe: the first of 16000, 48000 and 44100 that opens,
   * and an exception when none does (the last candidate re-raises).
   */
  lemma DetectorProbe(opens: set<int>)
    ensures var r := Probe(DetectorRates, opens, 44100);
      && (16000 in opens ==> r == Opened(16000))
      && (16000 !in opens && 48000 in opens ==> r == Opened(48000))
      && (16000 !in opens && 48000 !in opens && 44100 in opens ==> r == Opened(44100))
      && (r == Raised <==> 16000 !in opens && 48000 !in opens && 44100 !in opens)
      && !r.Exhausted?
  {
  }

  /** The assistant's microphone probe: the first of 24000, 48000 and 44100. */
  lemma InputProbe(opens: set<int>)
    ensures var r := Probe(InputRates, opens, 44100);
      && (24000 in opens ==> r == Opened(24000))
      && (24000 !in opens && 48000 in opens ==> r == Opened(48000))
      && (24000 !in opens && 48000 !in opens && 44100 in opens ==> r == Opened(44100))
      && (r == Raised <==> 24000 !in opens && 48000 !in opens && 44100 !in opens)
      && !r.Exhausted?
  {
  }

  /**
   * The speaker probe re-raises on its first candidate 44100, so 48000 and
   * 24000 are never tried: the speaker opens at 44100 or not at all.
   */
  lemma OutputProbe(opens: set<int>)
    ensures Probe(OutputRates, opens, 44100) == if 44100 in opens then Opened(44100) else Raised
  {
  }

  // ---------------------------------------------------------------------
  // Chunk and resample lengths

  /** `int(CHUNK_16K * rate / TARGET_RATE)`: 80 ms of samples at `rate`. */
  function DetectorChunk(rate: nat): nat
  {
    1280 * rate / 16000
  }

  /** `int(test_rate * 0.02)`: 20 ms of samples at `rate`. */
  function InputChunk(rate: nat): nat
  {
    rate * 2 / 100
  }

  /** `int(len * to / from)`: the sample count after resampling. */
  function ResampledLength(len: nat, from: nat, to: nat): nat
    requires from > 0
  {
    len * to / from
  }

  /**
   * The detector reads 1280, 3840 or 3528 samples at its three rates, and
   * after resampling the keyword model is always fed 1280 samples (80 ms at
   * 16 kHz).
   */
  lemma DetectorFrameLengths()
    ensures DetectorChunk(16000) == 1280 && DetectorChunk(48000) == 3840 && DetectorChunk(44100) == 3528
    ensures forall r | r in DetectorRates :: ResampledLength(DetectorChunk(r), r, 16000) == 1280
  {
  }

  /**
   * The assistant reads 480, 960 or 882 microphone samples, which always
   * become 480 samples (20 ms) at the API's 24 kHz.
   */
  lemma InputFrameLengths()
    ensures InputChunk(24000) == 480 && InputChunk(48000) == 960 && InputChunk(44100) == 882
    ensures forall r | r in InputRates :: ResampledLength(InputChunk(r), r, 24000) == 480
  {
  }

  /**
   * Playback resampling from the API's 24 kHz to the speaker rate scales a
   * chunk by the rate ratio and never shortens it.
   */
  lemma PlaybackLength(len: nat, rate: nat)
    requires rate >= 24000
    ensures ResampledLength(len, 24000, rate) >= len
    ensures ResampledLength(len * 24000, 24000, rate) == len * rate
  {
    assert len * rate >= len * 24000;
    assert len * rate / 24000 >= len * 24000 / 24000;
  }

  // ---------------------------------------------------------------------
  // Keyword detection

  /** The `score > 0.5` test; a score of exactly 0.5 is not a detection. */
  predicate Detected(score: real)
  {
    score > 0.5
  }

  /** The keywords of one prediction that pass the threshold, in dict order. */
  function Hits(prediction: seq<(string, real)>): (h: seq<string>)
    ensures |h| <= |prediction|
  {
    if prediction == [] then []
    else (if Detected(prediction[0].1) then [prediction[0].0] else []) + Hits(prediction[1..])
  }

  /**
   * A keyword is a hit exactly when one of its scores in the prediction is
   * strictly above 0.5, and every such score yields its own hit (the loop
   * does not stop at the first one).
   */
  lemma {:induction false} HitsAreDetections(prediction: seq<(string, real)>)
    ensures forall k | 0 <= k < |prediction| && Detected(prediction[k].1) :: prediction[k].0 in Hits(prediction)
    ensures forall w | w in Hits(prediction) :: exists k | 0 <= k < |prediction| :: prediction[k].0 == w && Detected(prediction[k].1)
    decreases |prediction|
  {
    if prediction != [] {
      var rest := prediction[1..];
      HitsAreDetections(rest);
      forall k | 0 <= k < |prediction| && Detected(prediction[k].1)
        ensures prediction[k].0 in Hits(prediction)
      {
        if k > 0 {
          assert rest[k - 1] == prediction[k];
        }
      }
      forall w | w in Hits(prediction)
        ensures exists k | 0 <= k < |prediction| :: prediction[k].0 == w && Detected(prediction[k].1)
      {
        if w !in Hits(rest) {
          assert prediction[0].0 == w && Detected(prediction[0].1);
        } else {
          var k :| 0 <= k < |rest| && rest[k].0 == w && Detected(rest[k].1);
          assert prediction[k + 1] == rest[k];
        }
      }
    }
  }

  // ---------------------------------------------------------------------
  // Detector events

  /**
   * What the detection thread does, as a ghost log: a sleep while it has no
   * stream, a failed read, a frame scored by the keyword model (with the
   * number of samples fed to it), `pause()`, and one callback invocation
   * recording whether the detector still held the microphone at that moment.
   */
  datatype DetectorEvent = Slept | ReadError | Scored(samples: nat) | Paused | Invoked(keyword: string, micHeld: bool)

  /** One iteration of the detection loop's input. */
  datatype Tick = Prediction(scores: seq<(string, real)>) | ReadFailure | StopRequest

  /**
   * The events of the callback loop over `hits`: pause, then the callback,
   * for every hit; an exception from the callback ends the iteration.
   */
  function CallbackEvents(hits: seq<string>, raises: bool): seq<DetectorEvent>
    decreases |hits|
  {
    if hits == [] then []
    else if raises then [Paused, Invoked(hits[0], false)]
    else [Paused, Invoked(hits[0], false)] + CallbackEvents(hits[1..], raises)
  }

  /** The keywords passed to the callback, in order. */
  function Invocations(evs: seq<DetectorEvent>): seq<string>
    decreases |evs|
  {
    if evs == [] then []
    else (if evs[0].Invoked? then [evs[0].keyword] else []) + Invocations(evs[1..])
  }

  /**
   * Each callback invocation comes right after a `pause()` and finds the
   * microphone released; without an exception the callback runs once per
   * hit, with one it runs for the first hit only.
   */
  lemma {:induction false} CallbackAfterPause(hits: seq<string>, raises: bool)
    ensures var evs := CallbackEvents(hits, raises);
      forall j | 0 <= j < |evs| && evs[j].Invoked? :: j > 0 && evs[j - 1] == Paused && !evs[j].micHeld
    ensures Invocations(CallbackEvents(hits, raises)) == if raises && hits != [] then [hits[0]] else hits
    decreases |hits|
  {
    if hits != [] {
      var head := [Paused, Invoked(hits[0], false)];
      assert Invocations(head) == [hits[0]] by {
        assert head[1..] == [Invoked(hits[0], false)];
        assert head[1..][1..] == [];
        assert Invocations(head[1..]) == [hits[0]] + Invocations(head[1..][1..]);
      }
      if !raises {
        CallbackAfterPause(hits[1..], raises);
        InvocationsAppend(head, CallbackEvents(hits[1..], raises));
        var evs := CallbackEvents(hits, raises);
        var tail := CallbackEvents(hits[1..], raises);
        forall j | 0 <= j < |evs| && evs[j].Invoked?
          ensures j > 0 && evs[j - 1] == Paused && !evs[j].micHeld
        {
          if j >= 2 {
            assert evs[j] == tail[j - 2];
            if j - 2 > 0 {
              assert evs[j - 1] == tail[j - 3];
            }
          }
        }
      }
    }
  }

  lemma {:induction false} InvocationsAppend(a: seq<DetectorEvent>, b: seq<DetectorEvent>)
    ensures Invocations(a + b) == Invocations(a) + Invocations(b)
    decreases |a|
  {
    if a == [] {
      assert a + b == b;
    } else {
      assert (a + b)[0] == a[0];
      assert (a + b)[1..] == a[1..] + b;
      InvocationsAppend(a[1..], b);
    }
  }

  /** The events of one detection-loop iteration from a detector state. */
  function TickEvents(t: Tick, micOpen: bool, hasCallback: bool, raises: bool): seq<DetectorEvent>
  {
    match t
    case StopRequest => []
    case ReadFailure => if micOpen then [ReadError] else [Slept]
    case Prediction(p) =>
      if !micOpen then [Slept]
      else [Scored(1280)] + (if hasCallback then CallbackEvents(Hits(p), raises) else [])
  }

  /** Whether the stream is still open after one iteration. */
  function MicAfter(t: Tick, micOpen: bool, hasCallback: bool): bool
  {
    match t
    case Prediction(p) => micOpen && !(hasCallback && Hits(p) != [])
    case _ => micOpen
  }

  /** A scored prediction: one frame, then the callbacks for its hits; the stream stays open unless one fired. */
  lemma PredictionTick(scores: seq<(string, real)>, hasCallback: bool, raises: bool)
    ensures TickEvents(Prediction(scores), true, hasCallback, raises)
            == [Scored(1280)] + (if hasCallback then CallbackEvents(Hits(scores), raises) else [])
    ensures MicAfter(Prediction(scores), true, hasCallback) == !(hasCallback && Hits(scores) != [])
  {
  }

  /** The events of the detection loop over `ticks`, up to a stop request. */
  function RunEvents(ticks: seq<Tick>, micOpen: bool, hasCallback: bool, raises: bool): seq<DetectorEvent>
    decreases |ticks|
  {
    if ticks == [] || ticks[0].StopRequest? then []
    else TickEvents(ticks[0], micOpen, hasCallback, raises)
         + RunEvents(ticks[1..], MicAfter(ticks[0], micOpen, hasCallback), hasCallback, raises)
  }

  /** One unfolding of `RunEvents` at iteration `i`. */
  lemma RunEventsStep(ticks: seq<Tick>, i: nat, micOpen: bool, hasCallback: bool, raises: bool)
    requires i < |ticks|
    ensures RunEvents(ticks[i..], micOpen, hasCallback, raises)
            == if ticks[i].StopRequest? then []
               else TickEvents(ticks[i], micOpen, hasCallback, raises)
                    + RunEvents(ticks[i + 1..], MicAfter(ticks[i], micOpen, hasCallback), hasCallback, raises)
  {
    assert ticks[i..][0] == ticks[i];
    assert ticks[i..][1..] == ticks[i + 1..];
  }

  /**
   * Once the detector has released its stream the loop never reads, scores
   * or reopens again: every later iteration only sleeps.
   */
  lemma {:induction false} ReleasedMicOnlySleeps(ticks: seq<Tick>, hasCallback: bool, raises: bool)
    ensures forall e | e in RunEvents(ticks, false, hasCallback, raises) :: e == Slept
    decreases |ticks|
  {
    if ticks != [] && !ticks[0].StopRequest? {
      ReleasedMicOnlySleeps(ticks[1..], hasCallback, raises);
    }
  }

  /**
   * With a callback, the first prediction with a hit hands the microphone
   * over for good: the rest of the run only sleeps.
   */
  lemma HandOverIsFinal(ticks: seq<Tick>, raises: bool)
    requires |ticks| > 0 && ticks[0].Prediction? && Hits(ticks[0].scores) != []
    ensures RunEvents(ticks, true, true, raises)
            == [Scored(1280)] + CallbackEvents(Hits(ticks[0].scores), raises) + RunEvents(ticks[1..], false, true, raises)
    ensures forall e | e in RunEvents(ticks[1..], false, true, raises) :: e == Slept
  {
    ReleasedMicOnlySleeps(ticks[1..], true, raises);
  }

  // ---------------------------------------------------------------------
  // The wake-word detector

  class WakeWordDetector {
    const keywords: seq<string>
    var isRunning: bool
    var callback: RealtimeAssistant?
    var threadsStarted: nat
    var audioStream: bool
    var pyaudioInstance: bool
    var nativeRate: nat
    var needsResampling: bool
    ghost var events: seq<DetectorEvent>

    ghost predicate Valid()
      reads this
    {
      nativeRate in DetectorRates && needsResampling == (nativeRate != 16000)
    }

    /** `keywords or ["hey_jarvis"]`: an empty list also selects the default. */
    constructor (keywords: seq<string>)
      ensures Valid()
      ensures this.keywords == if keywords == [] then ["hey_jarvis"] else keywords
      ensures !isRunning && callback == null && threadsStarted == 0
      ensures !audioStream && !pyaudioInstance && events == []
    {
      this.keywords := if keywords == [] then ["hey_jarvis"] else keywords;
      isRunning := false;
      callback := null;
      threadsStarted := 0;
      audioStream := false;
      pyaudioInstance := false;
      nativeRate := 16000;
      needsResampling := false;
      events := [];
    }

    /** `start(callback)`: a no-op while running; otherwise one detection thread. */
    method Start(cb: RealtimeAssistant?)
      modifies this
      ensures old(isRunning) ==> unchanged(this)
      ensures !old(isRunning) ==> isRunning && callback == cb && threadsStarted == old(threadsStarted) + 1
      ensures !old(isRunning) ==>
        audioStream == old(audioStream) && pyaudioInstance == old(pyaudioInstance)
        && nativeRate == old(nativeRate) && needsResampling == old(needsResampling) && events == old(events)
    {
      if isRunning {
        return;
      }
      callback := cb;
      isRunning := true;
      threadsStarted := threadsStarted + 1;
    }

    /** `stop()`: clears `is_running` and releases both handles. */
    method Stop()
      modifies this
      ensures !isRunning && !audioStream && !pyaudioInstance
      ensures callback == old(callback) && nativeRate == old(nativeRate) && threadsStarted == old(threadsStarted)
        && needsResampling == old(needsResampling) && events == old(events)
    {
      isRunning := false;
      CleanupAudio();
    }

    /** `pause()`: releases the stream and the PyAudio instance, if held. */
    method Pause()
      modifies this
      ensures !audioStream && !pyaudioInstance
      ensures events == old(events) + [Paused]
      ensures isRunning == old(isRunning) && callback == old(callback) && threadsStarted == old(threadsStarted)
        && nativeRate == old(nativeRate) && needsResampling == old(needsResampling)
    {
      audioStream := false;
      pyaudioInstance := false;
      events := events + [Paused];
    }

    /**
     * `resume()` only prints. Its frame is empty, so it changes no state and
     * nothing here reopens the stream.
     */
    method Resume()
    {
    }

    /** `_cleanup_audio()`: like `pause`, but errors are swallowed and nothing is logged. */
    method CleanupAudio()
      modifies this
      ensures !audioStream && !pyaudioInstance
      ensures isRunning == old(isRunning) && callback == old(callback) && events == old(events)
      ensures threadsStarted == old(threadsStarted)
        && nativeRate == old(nativeRate) && needsResampling == old(needsResampling)
    {
      audioStream := false;
      pyaudioInstance := false;
    }

    /**
     * The set-up at the top of `_run_detection`: a PyAudio instance, then the
     * rate probe. `listening` is false when the probe raised, which ends the
     * thread through the outer `except`.
     */
    method OpenStream(micRates: set<int>) returns (listening: bool)
      modifies this
      ensures Valid()
      ensures pyaudioInstance
      ensures var r := Probe(DetectorRates, micRates, 44100);
        && listening == !r.Raised?
        && (r.Opened? ==> audioStream && nativeRate == r.rate && needsResampling == (r.rate != 16000))
        && (!r.Opened? ==> audioStream == old(audioStream))
      ensures isRunning == old(isRunning) && callback == old(callback) && events == old(events)
      ensures threadsStarted == old(threadsStarted)
    {
      pyaudioInstance := true;
      nativeRate := 16000;
      needsResampling := false;
      var r := ProbeRates(DetectorRates, micRates, 44100);
      if r.Opened? {
        DetectorProbe(micRates);
        audioStream := true;
        nativeRate := r.rate;
        needsResampling := r.rate != 16000;
      } else if r.Raised? {
        return false;
      }
      return true;
    }

    /**
     * The callback loop of one prediction: for each hit, `pause()` and then
     * the callback (the assistant's `activate`). `raised` reports the
     * exception that ends the iteration.
     */
    method FireCallbacks(hits: seq<string>, micRates: set<int>, speakerRates: set<int>)
      requires Valid() && callback != null && callback.Valid()
      modifies this, callback
      ensures Valid() && callback == old(callback) && callback.Valid()
      ensures events == old(events) + CallbackEvents(hits, !callback.loopCreated)
      ensures hits != [] ==> !audioStream && !pyaudioInstance
      ensures hits != [] && callback.inputStream == Live ==> !audioStream && !pyaudioInstance
      ensures hits == [] ==> audioStream == old(audioStream) && pyaudioInstance == old(pyaudioInstance)
      ensures isRunning == old(isRunning) && nativeRate == old(nativeRate)
      ensures callback.loopCreated == old(callback.loopCreated)
    {
      var cb := callback;
      var i := 0;
      ghost var raises := !cb.loopCreated;
      while i < |hits|
        invariant 0 <= i <= |hits|
        invariant Valid() && callback == cb && cb.Valid() && cb.loopCreated == !raises
        invariant events == old(events) + CallbackEvents(hits[..i], raises)
        invariant i > 0 ==> !audioStream && !pyaudioInstance
        invariant i == 0 ==> audioStream == old(audioStream) && pyaudioInstance == old(pyaudioInstance)
        invariant isRunning == old(isRunning) && nativeRate == old(nativeRate)
        invariant raises ==> i == 0
        decreases |hits| - i
      {
        var raised := FireOne(hits[i], micRates, speakerRates);
        CallbackEventsSplit(hits, i, raises);
        i := i + 1;
        if raised {
          CallbackEventsAll(hits, raises);
          return;
        }
      }
      assert hits[..i] == hits;
    }

    /** One hit: `pause()`, then the callback; `raised` is the callback's exception. */
    method FireOne(hit: string, micRates: set<int>, speakerRates: set<int>) returns (raised: bool)
      requires Valid() && callback != null && callback.Valid()
      modifies this, callback
      ensures Valid() && callback == old(callback) && callback.Valid()
      ensures events == old(events) + [Paused, Invoked(hit, false)]
      ensures !audioStream && !pyaudioInstance
      ensures callback.inputStream == Live ==> !audioStream && !pyaudioInstance
      ensures isRunning == old(isRunning) && nativeRate == old(nativeRate)
      ensures raised == !callback.loopCreated && callback.loopCreated == old(callback.loopCreated)
    {
      Pause();
      events := events + [Invoked(hit, audioStream || pyaudioInstance)];
      raised := callback.Activate(micRates, speakerRates);
    }

    /**
     * One pass of the detection loop: sleep while there is no stream;
     * otherwise read a chunk at the native rate, resample it to 16 kHz and
     * score it, and run the callbacks for the hits. Read errors are caught
     * and the loop goes on. A stop request clears `is_running`.
     */
    method DetectionStep(t: Tick, micRates: set<int>, speakerRates: set<int>)
      requires Valid() && (callback != null ==> callback.Valid())
      modifies this, callback
      ensures Valid() && callback == old(callback) && (callback != null ==> callback.Valid())
      ensures events == old(events) + TickEvents(t, old(audioStream), callback != null,
                                                 callback != null && !callback.loopCreated)
      ensures audioStream == MicAfter(t, old(audioStream), callback != null)
      ensures isRunning == (old(isRunning) && !t.StopRequest?)
      ensures callback != null ==> callback.loopCreated == old(callback.loopCreated)
    {
      match t {
        case StopRequest =>
          isRunning := false;
        case ReadFailure =>
          events := events + [if audioStream then ReadError else Slept];
        case Prediction(scores) =>
          PredictionStep(scores, micRates, speakerRates);
      }
    }

    /** A pass that got a prediction: it sleeps while there is no stream, and otherwise scores the chunk. */
    method PredictionStep(scores: seq<(string, real)>, micRates: set<int>, speakerRates: set<int>)
      requires Valid() && (callback != null ==> callback.Valid())
      modifies this, callback
      ensures Valid() && callback == old(callback) && (callback != null ==> callback.Valid())
      ensures events == old(events) + TickEvents(Prediction(scores), old(audioStream), callback != null,
                                                 callback != null && !callback.loopCreated)
      ensures audioStream == MicAfter(Prediction(scores), old(audioStream), callback != null)
      ensures isRunning == old(isRunning)
      ensures callback != null ==> callback.loopCreated == old(callback.loopCreated)
    {
      if !audioStream {
        events := events + [Slept];
      } else {
        ghost var hasCallback := callback != null;
        ghost var raises := callback != null && !callback.loopCreated;
        ScoreChunk(scores, micRates, speakerRates);
        PredictionTick(scores, hasCallback, raises);
      }
    }

    /**
     * A chunk read at the native rate, resampled to 16 kHz and scored; then
     * the callbacks for the keywords over the threshold.
     */
    method ScoreChunk(scores: seq<(string, real)>, micRates: set<int>, speakerRates: set<int>)
      requires Valid() && (callback != null ==> callback.Valid())
      modifies this, callback
      ensures Valid() && callback == old(callback) && (callback != null ==> callback.Valid())
      ensures events == old(events) + [Scored(1280)]
        + (if callback != null then CallbackEvents(Hits(scores), !callback.loopCreated) else [])
      ensures audioStream == (old(audioStream) && !(callback != null && Hits(scores) != []))
      ensures isRunning == old(isRunning)
      ensures callback != null ==> callback.loopCreated == old(callback.loopCreated)
    {
      var scored := ReadChunk();
      events := events + [Scored(scored)];
      if callback != null {
        var hits := Hits(scores);
        FireCallbacks(hits, micRates, speakerRates);
      }
    }

    /** `stream.read(chunk_size)` at the native rate, resampled to 16 kHz when needed: always one 80 ms frame. */
    method ReadChunk() returns (scored: nat)
      requires Valid()
      ensures scored == 1280
    {
      var chunk := DetectorChunk(nativeRate);
      scored := if needsResampling then ResampledLength(chunk, nativeRate, 16000) else chunk;
      DetectorFrameLengths();
    }

    /**
     * `_run_detection` after its model is loaded: the stream set-up, then the
     * loop over `ticks` while `is_running`, then the clean-up once stopped.
     */
    method RunDetection(micRates: set<int>, speakerRates: set<int>, ticks: seq<Tick>) returns (listening: bool)
      requires Valid() && (callback != null ==> callback.Valid())
      modifies this, callback
      ensures Valid() && callback == old(callback) && (callback != null ==> callback.Valid())
      ensures listening == !Probe(DetectorRates, micRates, 44100).Raised?
      ensures !listening ==> events == old(events) && isRunning == old(isRunning)
      ensures listening && old(isRunning) ==>
        events == old(events) + RunEvents(ticks, true, callback != null,
                                            callback != null && !callback.loopCreated)
      ensures listening && !isRunning ==> !audioStream && !pyaudioInstance
    {
      listening := OpenStream(micRates);
      if !listening {
        return;
      }
      DetectorProbe(micRates);
      DetectionLoop(micRates, speakerRates, ticks);
    }

    /** The `while self.is_running` loop of `_run_detection` and the clean-up after it. */
    method DetectionLoop(micRates: set<int>, speakerRates: set<int>, ticks: seq<Tick>)
      requires Valid() && (callback != null ==> callback.Valid())
      modifies this, callback
      ensures Valid() && callback == old(callback) && (callback != null ==> callback.Valid())
      ensures callback != null ==> callback.loopCreated == old(callback.loopCreated)
      ensures old(isRunning) ==>
        events == old(events) + RunEvents(ticks, old(audioStream), callback != null,
                                            callback != null && !callback.loopCreated)
      ensures !old(isRunning) ==> events == old(events) && !isRunning
      ensures !isRunning ==> !audioStream && !pyaudioInstance
    {
      ghost var raises := callback != null && !callback.loopCreated;
      ghost var hasCallback := callback != null;
      ghost var rest := if isRunning then RunEvents(ticks, audioStream, hasCallback, raises) else [];
      var i := 0;
      while isRunning && i < |ticks|
        invariant 0 <= i <= |ticks|
        invariant Valid() && callback == old(callback) && (callback != null ==> callback.Valid())
        invariant callback != null ==> callback.loopCreated == !raises
        invariant old(isRunning) ==>
          old(events) + RunEvents(ticks, old(audioStream), hasCallback, raises) == events + rest
        invariant isRunning ==> rest == RunEvents(ticks[i..], audioStream, hasCallback, raises)
        invariant !isRunning ==> rest == []
        invariant !old(isRunning) ==> events == old(events) && !isRunning
        decreases |ticks| - i
      {
        RunEventsStep(ticks, i, audioStream, hasCallback, raises);
        ghost var te := TickEvents(ticks[i], audioStream, hasCallback, raises);
        ghost var next := if ticks[i].StopRequest? then []
                          else RunEvents(ticks[i + 1..], MicAfter(ticks[i], audioStream, hasCallback), hasCallback, raises);
        assert rest == te + next;
        ghost var before := events;
        AppendAssoc(before, te, next);
        DetectionStep(ticks[i], micRates, speakerRates);
        assert events == before + te;
        rest := next;
        i := i + 1;
      }
      if isRunning {
        assert ticks[i..] == [];
      }
      if !isRunning {
        CleanupAudio();
      }
    }

    lemma CallbackEventsSplit(hits: seq<string>, i: nat, raises: bool)
      requires i < |hits|
      requires raises ==> i == 0
      ensures CallbackEvents(hits[..i + 1], raises)
              == CallbackEvents(hits[..i], raises) + [Paused, Invoked(hits[i], false)]
    {
      CallbackEventsConcat(hits[..i], [hits[i]], raises);
      assert hits[..i + 1] == hits[..i] + [hits[i]];
    }

    lemma CallbackEventsAll(hits: seq<string>, raises: bool)
      requires raises && hits != []
      ensures CallbackEvents(hits, raises) == CallbackEvents(hits[..1], raises)
    {
      assert hits[..1] == [hits[0]];
    }
  }

  /** Without an exception the callback events of a concatenation concatenate. */
  lemma {:induction false} CallbackEventsConcat(a: seq<string>, b: seq<string>, raises: bool)
    requires raises ==> a == []
    ensures CallbackEvents(a + b, raises) == CallbackEvents(a, raises) + CallbackEvents(b, raises)
    decreases |a|
  {
    if a == [] {
      assert a + b == b;
    } else {
      assert (a + b)[1..] == a[1..] + b;
      CallbackEventsConcat(a[1..], b, raises);
    }
  }

  // ---------------------------------------------------------------------
  // Realtime assistant: values

  /** A PyAudio object reference: None, open, or closed but still referenced. */
  datatype Handle = NoHandle | Live | Shut

  /** The objects `deactivate` releases, in its order. */
  datatype Device = InputDevice | OutputDevice | PortAudio

  /** The handle state `deactivate` leaves when it calls `resume()`. */
  datatype ResumeSnapshot = ResumeSnapshot(input: Handle, output: Handle, audio: Handle,
                                           queued: nat, active: bool, sending: bool)

  /** The parsed `arguments` of a function call; `Malformed` when `json.loads` fails. */
  datatype ToolArgs = Malformed | Args(query: string, durationSeconds: Option<int>)

  /** The realtime-API events `_handle_message` looks at (the rest are `Other`). */
  datatype Inbound =
    | AudioDelta(chunk: seq<int>)
    | ResponseDone
    | TranscriptCompleted(transcript: Option<string>)
    | TextDelta(text: string)
    | FunctionCallDone(callId: string, name: string, arguments: ToolArgs)
    | ApiError(code: Option<string>)
    | Other(kind: string)

  /** The messages the assistant sends on the socket. */
  datatype Outbound =
    | Greeting
    | UserText(text: string)
    | ResponseCreate
    | FunctionCallOutput(callId: string, output: string)
    | AssistantText(text: string)
    | SpeakExactly(text: string)
    | AudioAppend(samples: nat)

  /**
   * What the outside world supplies to a message: the clock (seconds and its
   * `%Y%m%d_%H%M%S` rendering), the formatted figures of the status report,
   * the web-search text, the vision description (None when there is no
   * frame getter, no frame, or the vision request fails), and which frames
   * the recorder's writer accepts.
   */
  datatype Env = Env(now: int, timestamp: string, statusFigures: string,
                     searchResult: string, visionText: Option<string>,
                     writable: FrameQueue.Frame -> bool)

  /** The outcome of a tool handler: a text to relay, nothing, or an exception. */
  datatype ToolReply = Reply(text: string) | NoReply | ToolRaised

  /** `max(0.0, min(1.0, v))`. */
  function Clamp(v: real): (r: real)
    ensures 0.0 <= r <= 1.0
    ensures 0.0 <= v <= 1.0 ==> r == v
    ensures v < 0.0 ==> r == 0.0
    ensures v > 1.0 ==> r == 1.0
  {
    if v < 0.0 then 0.0 else if v > 1.0 then 1.0 else v
  }

  const DismissalPhrases: seq<string> := [
    "okay thanks", "ok thanks", "thank you", "thanks",
    "that's all", "thats all", "all done", "done",
    "i don't need you", "don't need you", "go away",
    "dismiss", "dismissed", "stop listening", "never mind",
    "goodbye", "bye", "see you later"]

  const VisionKeywords: seq<string> := [
    "what do you see", "what am i looking at", "describe this",
    "analyze this", "what is this", "look at", "can you see"]

  /** `any(phrase in text for phrase in self.dismissal_phrases)`. */
  predicate IsDismissal(text: string)
  {
    ContainsAny(text, DismissalPhrases)
  }

  /**
   * Substring matching dismisses on any text containing a phrase, including
   * words that merely contain one ("abandoned" contains "done"); and a text
   * without any phrase is never a dismissal.
   */
  lemma DismissalBySubstring(text: string, k: nat)
    requires k < |DismissalPhrases| && Contains(text, DismissalPhrases[k])
    ensures IsDismissal(text)
    ensures IsDismissal("abandoned")
    ensures IsDismissal("okay thanks, that's all")
  {
    assert "abandoned"[4..8] == "done";
    assert OccursAt("abandoned", "done", 4);
    assert Contains("abandoned", DismissalPhrases[7]);
    assert OccursAt("okay thanks, that's all", "okay thanks", 0);
    assert Contains("okay thanks, that's all", DismissalPhrases[0]);
  }

  /** A dismissal phrase is found only where it occurs. */
  lemma NoPhraseNoDismissal(text: string)
    requires forall k | 0 <= k < |DismissalPhrases| :: !Contains(text, DismissalPhrases[k])
    ensures !IsDismissal(text)
  {
  }

  /** `min(2 ** n, 10)`. */
  function Backoff(n: nat): (d: nat)
    ensures d <= 10 && d >= 1
    ensures n <= 3 ==> d == Pow2(n)
  {
    if Pow2(n) < 10 then Pow2(n) else 10
  }

  function Pow2(n: nat): (p: nat)
    ensures p >= 1
  {
    if n == 0 then 1 else 2 * Pow2(n - 1)
  }

  // ---------------------------------------------------------------------
  // The reconnect loop

  /** How one pass of `_connect_and_run` ends. */
  datatype SessionEnd =
    | ConnectFailed      // an exception before the connection was established
    | HandlerRaised      // connected, then an exception escaped the message loop
    | ConnectionLost     // connected, then `ConnectionClosed` ended the message loop

  /** One pass, and whether `stop()` cleared `is_running` during it. */
  datatype Attempt = Attempt(end: SessionEnd, stopRequested: bool)

  /** The result of the loop: passes made, final counter, delays slept, `is_running`. */
  datatype RetryRun = RetryRun(passes: nat, retries: nat, delays: seq<nat>, running: bool)

  /** The retry counter after one pass that started with counter `retry`. */
  function NextRetry(e: SessionEnd, retry: nat): nat
  {
    match e
    case ConnectFailed => retry + 1
    case HandlerRaised => 1   // reset to 0 on connect, then incremented
    case ConnectionLost => 0
  }

  /** The counter, `is_running` and the delay slept after one pass. */
  datatype PassResult = PassResult(retry: nat, running: bool, delay: seq<nat>)

  function Pass(a: Attempt, running: bool, retry: nat): PassResult
  {
    var r := NextRetry(a.end, retry);
    var run := running && !a.stopRequested;
    PassResult(r, run, if a.end != ConnectionLost && run && r < 3 then [Backoff(r)] else [])
  }

  /** `while self.is_running and retry_count < max_retries` over the given passes. */
  function Retries(attempts: seq<Attempt>, running: bool, retry: nat): RetryRun
    decreases |attempts|
  {
    if !running || retry >= 3 || attempts == [] then RetryRun(0, retry, [], running)
    else
      var p := Pass(attempts[0], running, retry);
      var rest := Retries(attempts[1..], p.running, p.retry);
      RetryRun(1 + rest.passes, rest.retries, p.delay + rest.delays, rest.running)
  }

  /**
   * The counter never passes 3, every delay slept is 2 or 4 seconds, and the
   * loop makes at most one pass per attempt and stops early only when
   * stopped or out of retries.
   */
  lemma {:induction false} RetriesBounded(attempts: seq<Attempt>, running: bool, retry: nat)
    requires retry <= 3
    ensures var r := Retries(attempts, running, retry);
      && r.retries <= 3 && r.passes <= |attempts|
      && (forall d | d in r.delays :: d == 2 || d == 4)
      && (r.passes < |attempts| ==> !r.running || r.retries >= 3)
    decreases |attempts|
  {
    if running && retry < 3 && attempts != [] {
      var p := Pass(attempts[0], running, retry);
      RetriesBounded(attempts[1..], p.running, p.retry);
    }
  }

  /** Three failed connections in a row: delays of 2 s and 4 s, then give up. */
  lemma ThreeFailuresGiveUp(rest: seq<Attempt>)
    ensures var a := Attempt(ConnectFailed, false);
      Retries([a, a, a] + rest, true, 0) == RetryRun(3, 3, [2, 4], true)
  {
    var a := Attempt(ConnectFailed, false);
    assert ([a, a, a] + rest)[1..] == [a, a] + rest;
    assert ([a, a] + rest)[1..] == [a] + rest;
    assert ([a] + rest)[1..] == rest;
    assert Backoff(1) == 2 && Backoff(2) == 4;
    assert Retries(rest, true, 3) == RetryRun(0, 3, [], true);
    assert Retries([a] + rest, true, 2) == RetryRun(1, 3, [], true);
    assert Retries([a, a] + rest, true, 1) == RetryRun(2, 3, [4], true);
  }

  /**
   * A connection that drops without an exception never counts against the
   * limit: any number of them leaves the counter at 0 with no delay.
   */
  lemma {:induction false} LostConnectionsDoNotCount(attempts: seq<Attempt>)
    requires forall k | 0 <= k < |attempts| :: attempts[k] == Attempt(ConnectionLost, false)
    ensures Retries(attempts, true, 0) == RetryRun(|attempts|, 0, [], true)
    decreases |attempts|
  {
    if attempts != [] {
      LostConnectionsDoNotCount(attempts[1..]);
    }
  }

  /** A successful connection resets the counter: a failure after it starts over at 1. */
  lemma SuccessResetsCounter(retry: nat, rest: seq<Attempt>)
    requires retry < 3
    ensures Retries([Attempt(ConnectionLost, false), Attempt(ConnectFailed, false)] + rest, true, retry)
            == var r := Retries(rest, true, 1); RetryRun(2 + r.passes, r.retries, [2] + r.delays, r.running)
  {
    var s := [Attempt(ConnectionLost, false), Attempt(ConnectFailed, false)] + rest;
    assert s[1..] == [Attempt(ConnectFailed, false)] + rest;
    assert s[1..][1..] == rest;
  }

  /** The objects `deactivate` closes, in its order: those that are not None. */
  function ReleaseOrder(input: Handle, output: Handle, audio: Handle): seq<Device>
  {
    (if input != NoHandle then [InputDevice] else [])
    + (if output != NoHandle then [OutputDevice] else [])
    + (if audio != NoHandle then [PortAudio] else [])
  }

  /**
   * The counter bookkeeping of one pass: reset on a connection, incremented
   * on an exception, and the backoff slept only when another pass follows.
   */
  method PassStep(a: Attempt, running: bool, retry: nat) returns (next: nat, stillRunning: bool, delay: seq<nat>)
    ensures PassResult(next, stillRunning, delay) == Pass(a, running, retry)
    ensures a.end == ConnectFailed ==> next == retry + 1
    ensures a.end == HandlerRaised ==> next == 1
    ensures a.end == ConnectionLost ==> next == 0 && delay == []
    ensures stillRunning == (running && !a.stopRequested)
    ensures delay == [] || (delay == [Backoff(next)] && stillRunning && next < 3)
    ensures a.end != ConnectionLost && stillRunning && next < 3 ==> delay == [Backoff(next)]
  {
    next, stillRunning, delay := retry, running, [];
    if a.end != ConnectFailed {
      next := 0;
    }
    if a.stopRequested {
      stillRunning := false;
    }
    if a.end != ConnectionLost {
      next := next + 1;
      if stillRunning && next < 3 {
        delay := [Backoff(next)];
      }
    }
  }

  /** A run of `Retries` after `done` passes that have slept `delays`. */
  function Resumed(done: nat, delays: seq<nat>, rest: RetryRun): RetryRun
  {
    RetryRun(done + rest.passes, rest.retries, delays + rest.delays, rest.running)
  }

  lemma ResumedCompose(done: nat, delays: seq<nat>, delay: seq<nat>, rest: RetryRun)
    ensures Resumed(done, delays, Resumed(1, delay, rest)) == Resumed(done + 1, delays + delay, rest)
  {
    AppendAssoc(delays, delay, rest.delays);
  }

  /** One unfolding of `Retries` at pass `i`. */
  lemma RetriesStep(attempts: seq<Attempt>, i: nat, running: bool, retry: nat)
    requires running && retry < 3 && i < |attempts|
    ensures var p := Pass(attempts[i], running, retry);
      var rest := Retries(attempts[i + 1..], p.running, p.retry);
      Retries(attempts[i..], running, retry) == RetryRun(1 + rest.passes, rest.retries, p.delay + rest.delays, rest.running)
  {
    assert attempts[i..][0] == attempts[i];
    assert attempts[i..][1..] == attempts[i + 1..];
  }

  /** `Live` handles are closed by `_cleanup_audio`; the reference stays. */
  function Closed(h: Handle): Handle
  {
    if h == Live then Shut else h
  }

  // ---------------------------------------------------------------------
  // The realtime assistant

  datatype SessionState = SessionState(isActive: bool, sendAudioEnabled: bool, isRunning: bool,
    loopCreated: bool, websocket: bool, isPlayingResponse: bool, audioQueue: seq<seq<int>>,
    outbox: seq<Outbound>, released: seq<Device>, resumeLog: seq<ResumeSnapshot>)

  /** The PyAudio instance, the two streams and the rates they were opened at. */
  datatype AudioSetup = AudioSetup(audio: Handle, inputStream: Handle, outputStream: Handle,
    inputNativeRate: nat, needsResampling: bool, outputNativeRate: nat, needsOutputResampling: bool)

  class RealtimeAssistant {
    const outputVolume: real
    const detector: WakeWordDetector?
    const recorder: VideoRecording.VideoRecorder?
    const monitor: SystemMonitoring.SystemMonitor?

    var isRunning: bool
    var isActive: bool
    var sendAudioEnabled: bool
    var isPlayingResponse: bool
    /** `self.loop` exists: the assistant thread has created its event loop. */
    var loopCreated: bool
    /** `self.websocket` is set: a connection has been made (it is never cleared). */
    var websocket: bool
    var audio: Handle
    var inputStream: Handle
    var outputStream: Handle
    var inputNativeRate: nat
    var needsResampling: bool
    var outputNativeRate: nat
    var needsOutputResampling: bool
    var audioQueue: seq<seq<int>>
    var outbox: seq<Outbound>

    /** Objects released by `deactivate`, in order. */
    ghost var released: seq<Device>
    /** The state at each `resume()` call `deactivate` makes. */
    ghost var resumeLog: seq<ResumeSnapshot>
    /** Input streams opened and then dropped unclosed when the speaker probe raised. */
    ghost var leakedInputs: nat
    /** Lengths of the chunks written to the speaker. */
    ghost var played: seq<nat>
    /** Microphone chunks read by `_send_audio`, sent or not. */
    ghost var micReads: nat
    /** API error codes reported to the log. */
    ghost var loggedErrors: seq<Option<string>>

    ghost predicate Valid()
      reads this
    {
      && 0.0 <= outputVolume <= 1.0
      && (inputStream == Live ==> inputNativeRate in InputRates && needsResampling == (inputNativeRate != 24000))
      && (outputStream == Live ==> outputNativeRate in OutputRates
                                    && needsOutputResampling == (outputNativeRate != 24000))
    }

    /** The recorder, when there is one, keeps its own invariant. */
    ghost predicate RecorderValid()
      reads recorder
    {
      recorder != null ==> recorder.Valid()
    }

    constructor (outputVolume: real, detector: WakeWordDetector?,
                 recorder: VideoRecording.VideoRecorder?, monitor: SystemMonitoring.SystemMonitor?)
      ensures Valid()
      ensures this.outputVolume == Clamp(outputVolume)
      ensures this.detector == detector && this.recorder == recorder && this.monitor == monitor
      ensures !isRunning && !isActive && !sendAudioEnabled && !isPlayingResponse && !loopCreated && !websocket
      ensures audio == NoHandle && inputStream == NoHandle && outputStream == NoHandle
      ensures audioQueue == [] && outbox == []
    {
      this.outputVolume := Clamp(outputVolume);
      this.detector := detector;
      this.recorder := recorder;
      this.monitor := monitor;
      isRunning := false;
      isActive := false;
      sendAudioEnabled := false;
      isPlayingResponse := false;
      loopCreated := false;
      websocket := false;
      audio := NoHandle;
      inputStream := NoHandle;
      outputStream := NoHandle;
      inputNativeRate := 24000;
      needsResampling := false;
      outputNativeRate := 44100;
      needsOutputResampling := true;
      audioQueue := [];
      outbox := [];
      released := [];
      resumeLog := [];
      leakedInputs := 0;
      played := [];
      micReads := 0;
      loggedErrors := [];
    }

    /** `start()`: a no-op while running; the new thread creates the event loop. */
    method Start()
      requires Valid()
      modifies this
      ensures Valid()
      ensures old(isRunning) ==> unchanged(this)
      ensures !old(isRunning) ==>
        && isRunning && loopCreated && isActive == old(isActive)
        && sendAudioEnabled == old(sendAudioEnabled) && websocket == old(websocket)
        && isPlayingResponse == old(isPlayingResponse) && audioQueue == old(audioQueue)
        && outbox == old(outbox) && Setup() == old(Setup())
        && released == old(released) && resumeLog == old(resumeLog)
    {
      if isRunning {
        return;
      }
      isRunning := true;
      loopCreated := true;
    }

    /** `stop()`: clears `is_running` and `is_active`, and nothing else. */
    method Stop()
      requires Valid()
      modifies this
      ensures Valid() && !isRunning && !isActive
      ensures sendAudioEnabled == old(sendAudioEnabled) && loopCreated == old(loopCreated)
        && websocket == old(websocket) && isPlayingResponse == old(isPlayingResponse)
        && audioQueue == old(audioQueue) && outbox == old(outbox) && Setup() == old(Setup())
        && released == old(released) && resumeLog == old(resumeLog)
    {
      isRunning := false;
      isActive := false;
    }

    /**
     * `_init_audio_lazy()` with the rates the microphone and the speaker
     * accept. Any failure drops all three handles, losing an input stream
     * already opened in this call without closing it.
     */
    method InitAudioLazy(micRates: set<int>, speakerRates: set<int>)
      requires Valid()
      modifies this
      ensures Valid()
      ensures old(audio) != NoHandle ==> unchanged(this)
      ensures old(audio) == NoHandle ==>
        var ri := Probe(InputRates, micRates, 44100);
        var ro := Probe(OutputRates, speakerRates, 44100);
        && (ri.Opened? && ro.Opened? ==>
              && audio == Live && inputStream == Live && outputStream == Live
              && inputNativeRate == ri.rate && needsResampling == (ri.rate != 24000)
              && outputNativeRate == 44100 && !ro.Raised?)
        && (ri.Raised? || (ri.Opened? && ro.Raised?) ==>
              audio == NoHandle && inputStream == NoHandle && outputStream == NoHandle)
        && leakedInputs == old(leakedInputs) + (if ri.Opened? && ro.Raised? then 1 else 0)
      ensures Session() == old(Session())
    {
      if audio != NoHandle {
        return;
      }
      audio := Live;
      var ri := OpenInput(micRates);
      if ri.Raised? {
        audio, inputStream, outputStream := NoHandle, NoHandle, NoHandle;
        return;
      }
      OpenSpeaker(ri.Opened?, speakerRates);
    }

    /**
     * The second half of `_init_audio_lazy()`: the speaker probe, which
     * either opens at 44.1 kHz or raises; the exception drops all three
     * handles, leaking the input stream when one was `inputOpened`.
     */
    method OpenSpeaker(inputOpened: bool, speakerRates: set<int>)
      requires Valid()
      modifies this
      ensures Valid() && Session() == old(Session())
      ensures 44100 in speakerRates ==>
        && outputStream == Live && outputNativeRate == 44100
        && audio == old(audio) && inputStream == old(inputStream)
        && inputNativeRate == old(inputNativeRate) && needsResampling == old(needsResampling)
      ensures 44100 !in speakerRates ==> audio == NoHandle && inputStream == NoHandle && outputStream == NoHandle
      ensures leakedInputs == old(leakedInputs) + (if inputOpened && 44100 !in speakerRates then 1 else 0)
    {
      var ro := OpenOutput(speakerRates);
      OutputProbe(speakerRates);
      if ro.Raised? {
        if inputOpened {
          leakedInputs := leakedInputs + 1;
        }
        audio, inputStream, outputStream := NoHandle, NoHandle, NoHandle;
      }
    }

    /** The microphone loop of `_init_audio_lazy`, from the 24 kHz default. */
    method OpenInput(micRates: set<int>) returns (r: ProbeOutcome)
      requires Valid()
      modifies this
      ensures Valid()
      ensures r == Probe(InputRates, micRates, 44100)
      ensures r.Opened? ==> inputStream == Live && inputNativeRate == r.rate && needsResampling == (r.rate != 24000)
      ensures !r.Opened? ==> inputStream == old(inputStream)
      ensures outputNativeRate == old(outputNativeRate) && needsOutputResampling == old(needsOutputResampling)
      ensures audio == old(audio) && outputStream == old(outputStream) && Session() == old(Session()) && leakedInputs == old(leakedInputs)
    {
      inputNativeRate := 24000;
      needsResampling := false;
      r := ProbeRates(InputRates, micRates, 44100);
      if r.Opened? {
        InputProbe(micRates);
        inputStream := Live;
        inputNativeRate := r.rate;
        needsResampling := r.rate != 24000;
      }
    }

    /** The speaker loop of `_init_audio_lazy`, from the 44.1 kHz default. */
    method OpenOutput(speakerRates: set<int>) returns (r: ProbeOutcome)
      requires Valid()
      modifies this
      ensures Valid()
      ensures r == Probe(OutputRates, speakerRates, 44100)
      ensures r.Opened? ==> outputStream == Live && outputNativeRate == r.rate
      ensures !r.Opened? ==> outputStream == old(outputStream)
      ensures inputNativeRate == old(inputNativeRate) && needsResampling == old(needsResampling)
      ensures audio == old(audio) && inputStream == old(inputStream) && Session() == old(Session()) && leakedInputs == old(leakedInputs)
    {
      outputNativeRate := 44100;
      needsOutputResampling := true;
      r := ProbeRates(OutputRates, speakerRates, 44100);
      if r.Opened? {
        OutputProbe(speakerRates);
        outputStream := Live;
        outputNativeRate := r.rate;
        needsOutputResampling := r.rate != 24000;
      }
    }

    /** The audio handles and their rates, which only the audio set-up and release change. */
    ghost function Setup(): AudioSetup
      reads this
    {
      AudioSetup(audio, inputStream, outputStream, inputNativeRate, needsResampling,
                 outputNativeRate, needsOutputResampling)
    }

    /** The session flags, the queues and the ghost logs, which opening the audio leaves alone. */
    ghost function Session(): SessionState
      reads this
    {
      SessionState(isActive, sendAudioEnabled, isRunning, loopCreated, websocket, isPlayingResponse,
                   audioQueue, outbox, released, resumeLog)
    }

    /**
     * `activate()`: the flags first, then the audio if there is no PyAudio
     * instance, then the greeting. Reading `self.loop` raises before the
     * event loop exists; `raised` reports that exception.
     */
    method Activate(micRates: set<int>, speakerRates: set<int>) returns (raised: bool)
      requires Valid()
      modifies this
      ensures Valid()
      ensures isActive && sendAudioEnabled
      ensures raised == !loopCreated && loopCreated == old(loopCreated)
      ensures outbox == old(outbox) + (if loopCreated && websocket then [Greeting] else [])
      ensures old(audio) != NoHandle ==> audio == old(audio) && inputStream == old(inputStream)
                                          && outputStream == old(outputStream)
      ensures old(audio) == NoHandle ==>
        var ri := Probe(InputRates, micRates, 44100);
        && (ri.Opened? && 44100 in speakerRates ==>
              && audio == Live && inputStream == Live && outputStream == Live
              && inputNativeRate == ri.rate && needsResampling == (ri.rate != 24000) && outputNativeRate == 44100)
        && (!(ri.Opened? && 44100 in speakerRates) ==>
              audio == NoHandle && inputStream == NoHandle && outputStream == NoHandle)
      ensures leakedInputs == old(leakedInputs)
        + (if old(audio) == NoHandle && Probe(InputRates, micRates, 44100).Opened? && 44100 !in speakerRates
           then 1 else 0)
      ensures isRunning == old(isRunning) && websocket == old(websocket)
        && isPlayingResponse == old(isPlayingResponse) && audioQueue == old(audioQueue)
    {
      isActive := true;
      sendAudioEnabled := true;
      if audio == NoHandle {
        InitAudioLazy(micRates, speakerRates);
        OutputProbe(speakerRates);
      }
      if !loopCreated {
        return true;
      }
      if websocket {
        outbox := outbox + [Greeting];
      }
      return false;
    }

    /**
     * `deactivate()`: clears the flags, closes and drops every handle,
     * empties the playback queue, and only then calls the detector's
     * `resume()`.
     */
    method Deactivate()
      requires Valid()
      modifies this
      ensures Valid()
      ensures !isActive && !sendAudioEnabled
      ensures audio == NoHandle && inputStream == NoHandle && outputStream == NoHandle && audioQueue == []
      ensures released == old(released) + ReleaseOrder(old(inputStream), old(outputStream), old(audio))
      ensures resumeLog == old(resumeLog)
        + (if detector != null then [ResumeSnapshot(NoHandle, NoHandle, NoHandle, 0, false, false)] else [])
      ensures isRunning == old(isRunning) && loopCreated == old(loopCreated) && websocket == old(websocket)
        && isPlayingResponse == old(isPlayingResponse) && outbox == old(outbox)
        && leakedInputs == old(leakedInputs)
    {
      isActive := false;
      sendAudioEnabled := false;
      ReleaseAudio();
      if detector != null {
        resumeLog := resumeLog + [ResumeSnapshot(inputStream, outputStream, audio, |audioQueue|,
                                                 isActive, sendAudioEnabled)];
        detector.Resume();
      }
    }

    /**
     * The middle of `deactivate()`: each handle that is there is closed and
     * dropped (input stream, output stream, PyAudio), and the playback queue
     * is emptied.
     */
    method ReleaseAudio()
      requires Valid()
      modifies this
      ensures Valid()
      ensures audio == NoHandle && inputStream == NoHandle && outputStream == NoHandle && audioQueue == []
      ensures released == old(released) + ReleaseOrder(old(inputStream), old(outputStream), old(audio))
      ensures isActive == old(isActive) && sendAudioEnabled == old(sendAudioEnabled) && resumeLog == old(resumeLog)
      ensures isRunning == old(isRunning) && loopCreated == old(loopCreated) && websocket == old(websocket)
        && isPlayingResponse == old(isPlayingResponse) && outbox == old(outbox)
        && leakedInputs == old(leakedInputs)
    {
      released := released + ReleaseOrder(inputStream, outputStream, audio);
      inputStream, outputStream, audio := NoHandle, NoHandle, NoHandle;
      audioQueue := [];
    }

    /**
     * `process_transcript(text)`: nothing unless active. A dismissal
     * deactivates; its acknowledgement is scheduled but the coroutine finds
     * `is_active` false and sends nothing. Otherwise the original text is
     * sent and a response requested. Scheduling onto `self.loop` raises
     * before the event loop exists.
     */
    method ProcessTranscript(text: string) returns (raised: bool)
      requires Valid()
      modifies this
      ensures Valid()
      ensures !old(isActive) ==> !raised && unchanged(this)
      ensures old(isActive) && IsDismissal(Strip(Lower(text))) ==>
        && !isActive && !sendAudioEnabled && raised == !loopCreated
        && audio == NoHandle && inputStream == NoHandle && outputStream == NoHandle && audioQueue == []
        && released == old(released) + ReleaseOrder(old(inputStream), old(outputStream), old(audio))
        && resumeLog == old(resumeLog)
           + (if detector != null then [ResumeSnapshot(NoHandle, NoHandle, NoHandle, 0, false, false)] else [])
        && outbox == old(outbox)
      ensures old(isActive) && !IsDismissal(Strip(Lower(text))) ==>
        && isActive && raised == !loopCreated && audio == old(audio) && inputStream == old(inputStream)
        && outbox == old(outbox) + (if loopCreated && websocket then [UserText(text), ResponseCreate] else [])
      ensures loopCreated == old(loopCreated)
    {
      if !isActive {
        return false;
      }
      var lowered := Strip(Lower(text));
      if IsDismissal(lowered) {
        Deactivate();
        return !loopCreated;
      }
      if !loopCreated {
        return true;
      }
      if websocket {
        outbox := outbox + [UserText(text), ResponseCreate];
      }
      return false;
    }

    /**
     * One pass of `_send_audio`. Nothing is read until activated; a chunk is
     * read whenever there is an open input stream; it is sent only when the
     * assistant is not speaking, resampled to 24 kHz.
     */
    method SendAudioStep()
      requires Valid()
      modifies this
      ensures Valid()
      ensures micReads == old(micReads) + (if sendAudioEnabled && inputStream == Live then 1 else 0)
      ensures outbox == old(outbox)
        + (if sendAudioEnabled && inputStream == Live && !isPlayingResponse && websocket
           then [AudioAppend(480)] else [])
      ensures isPlayingResponse ==> outbox == old(outbox)
      ensures isActive == old(isActive) && sendAudioEnabled == old(sendAudioEnabled)
        && isPlayingResponse == old(isPlayingResponse) && inputStream == old(inputStream)
        && audioQueue == old(audioQueue) && websocket == old(websocket)
    {
      if !sendAudioEnabled {
        return;
      }
      if inputStream != Live {
        // None: wait for audio; a closed stream: the read raises and is logged.
        return;
      }
      var chunk := InputChunk(inputNativeRate);
      micReads := micReads + 1;
      if isPlayingResponse {
        return;
      }
      var samples := if needsResampling then ResampledLength(chunk, inputNativeRate, 24000) else chunk;
      InputFrameLengths();
      if !websocket {
        return;
      }
      outbox := outbox + [AudioAppend(samples)];
    }

    /**
     * One pass of `_play_audio`: the oldest queued chunk is taken and, with
     * an open speaker, written at the speaker's rate. Without one the chunk
     * is lost.
     */
    method PlayStep()
      requires Valid()
      modifies this
      ensures Valid()
      ensures old(audioQueue) == [] ==> unchanged(this)
      ensures old(audioQueue) != [] ==>
        audioQueue == old(audioQueue)[1..]
        && played == old(played)
           + (if outputStream == Live
              then [if needsOutputResampling then ResampledLength(|old(audioQueue)[0]|, 24000, outputNativeRate)
                    else |old(audioQueue)[0]|]
              else [])
      ensures outputStream == old(outputStream) && outbox == old(outbox) && isActive == old(isActive)
    {
      if audioQueue == [] {
        return;
      }
      var chunk := audioQueue[0];
      audioQueue := audioQueue[1..];
      if outputStream == Live {
        var n := if needsOutputResampling then ResampledLength(|chunk|, 24000, outputNativeRate) else |chunk|;
        played := played + [n];
      }
    }

    /**
     * One pass of `_connect_and_run`: `_setup_audio` drops the PyAudio
     * instance and the speaker (the lazy set-up recreates them), the session
     * runs to the given end, and `finally` closes whatever is open.
     */
    method RunPass(a: Attempt, retry: nat) returns (next: nat, delay: seq<nat>)
      requires Valid()
      modifies this
      ensures Valid()
      ensures PassResult(next, isRunning, delay) == Pass(a, old(isRunning), retry)
      ensures audio == NoHandle && outputStream == NoHandle && inputStream == Closed(old(inputStream))
      ensures isActive == old(isActive) && audioQueue == old(audioQueue) && outbox == old(outbox)
    {
      audio := NoHandle;
      outputStream := NoHandle;
      if a.end != ConnectFailed {
        websocket := true;
      }
      var running;
      next, running, delay := PassStep(a, isRunning, retry);
      isRunning := running;
      inputStream := Closed(inputStream);
    }

    /**
     * `_connect_and_run()` over the outcomes of its passes: passes run while
     * `is_running` holds and fewer than three exceptions have been counted
     * since the last connection.
     */
    method ConnectAndRun(attempts: seq<Attempt>) returns (run: RetryRun)
      requires Valid()
      modifies this
      ensures Valid()
      ensures run == Retries(attempts, old(isRunning), 0)
      ensures isRunning == run.running
      ensures run.passes > 0 ==> audio == NoHandle && outputStream == NoHandle
                                 && inputStream == Closed(old(inputStream))
      ensures run.passes == 0 ==> audio == old(audio) && outputStream == old(outputStream)
                                  && inputStream == old(inputStream)
      ensures isActive == old(isActive) && audioQueue == old(audioQueue) && outbox == old(outbox)
    {
      var retry: nat := 0;
      var i := 0;
      var delays: seq<nat> := [];
      ghost var total := Retries(attempts, isRunning, 0);
      ghost var handlesAfter := (NoHandle, NoHandle, Closed(inputStream));
      while isRunning && retry < 3 && i < |attempts|
        invariant i <= |attempts| && Valid()
        invariant total == Resumed(i, delays, Retries(attempts[i..], isRunning, retry))
        invariant Handles() == if i == 0 then old(Handles()) else handlesAfter
        invariant Kept() == old(Kept())
        decreases |attempts| - i
      {
        var delay;
        retry, delay := NextPass(attempts, i, retry);
        ResumedCompose(i, delays, delay, Retries(attempts[i + 1..], isRunning, retry));
        delays := delays + delay;
        i := i + 1;
      }
      run := RetryRun(i, retry, delays, isRunning);
    }

    /** Pass `i` of the loop, as one unfolding of `Retries`. */
    method NextPass(attempts: seq<Attempt>, i: nat, retry: nat) returns (next: nat, delay: seq<nat>)
      requires Valid() && isRunning && retry < 3 && i < |attempts|
      modifies this
      ensures Valid()
      ensures Retries(attempts[i..], old(isRunning), retry) == Resumed(1, delay, Retries(attempts[i + 1..], isRunning, next))
      ensures Handles() == (NoHandle, NoHandle, Closed(old(inputStream)))
      ensures Kept() == old(Kept())
    {
      RetriesStep(attempts, i, isRunning, retry);
      next, delay := RunPass(attempts[i], retry);
    }

    /** The audio handles, and what the session loop leaves alone. */
    function Handles(): (Handle, Handle, Handle)
      reads this
    {
      (audio, outputStream, inputStream)
    }

    function Kept(): (bool, seq<seq<int>>, seq<Outbound>)
      reads this
    {
      (isActive, audioQueue, outbox)
    }

    // -------------------------------------------------------------------
    // Tool handlers

    /** `_get_system_status()`: the figures and the warnings of three thresholds. */
    function SystemStatusText(figures: string): (s: string)
      reads monitor
    {
      if monitor == null then "System monitor not available."
      else "System status: " + figures + StatusWarnings(monitor.GetTelemetry())
    }

    /**
     * `_start_recording(duration_seconds)` evaluated on the recorder's state
     * before the call: the file name is the recorder's default one.
     */
    function StartRecordingText(duration: Option<int>, timestamp: string): string
      reads recorder
    {
      if recorder == null then "Video recorder not available."
      else if recorder.isRecording then "Already recording."
      else
        var f := VideoRecording.RecordingPath(recorder.outputDir, "helmet_recording_" + timestamp);
        if VideoRecording.HasLimit(duration)
        then "Recording started for " + IntToString(duration.value) + " seconds. File: " + f
        else "Recording started. Say 'stop recording' when done. File: " + f
    }

    /** `_stop_recording()` evaluated on the recorder's state before the call. */
    function StopRecordingText(): string
      reads recorder
    {
      if recorder == null then "Video recorder not available."
      else if !recorder.isRecording then "Not currently recording."
      else "Recording stopped. Saved to " + recorder.currentFilename.GetOr("None")
    }

    /** `_get_recording_status()` at clock time `now`. */
    function RecordingStatusText(now: int): string
      reads recorder
    {
      if recorder == null then "Video recorder not available."
      else RecordingInfoText(recorder.GetRecordingInfo(now))
    }

    /**
     * The relay of one `response.function_call_arguments.done`: the five
     * tools answer with exactly one `function_call_output` carrying the
     * request's `call_id`, followed by one `response.create`; an unknown
     * name sends nothing; arguments that do not parse raise before anything
     * is sent.
     */
    method HandleFunctionCall(callId: string, name: string, args: ToolArgs, env: Env) returns (raised: bool)
      requires Valid() && RecorderValid()
      modifies this, recorder
      ensures Valid() && RecorderValid()
      ensures var reply := old(ToolReplyFor(name, args, env));
        && (reply.Reply? && websocket ==> !raised && outbox == old(outbox) + [FunctionCallOutput(callId, reply.text), ResponseCreate])
        && (reply.Reply? && !websocket ==> raised && outbox == old(outbox))
        && (reply.NoReply? ==> !raised && outbox == old(outbox))
        && (reply.ToolRaised? ==> raised && outbox == old(outbox))
      ensures !IsRecordingTool(name) || (name == "start_recording" && args.Malformed?) ==>
        recorder == null || unchanged(recorder)
      ensures recorder != null && name == "start_recording" && args.Args? ==> recorder.isRecording
      ensures recorder != null && name == "stop_recording" ==> !recorder.isRecording
      ensures isActive == old(isActive) && sendAudioEnabled == old(sendAudioEnabled)
        && isRunning == old(isRunning) && loopCreated == old(loopCreated) && websocket == old(websocket)
        && isPlayingResponse == old(isPlayingResponse) && audioQueue == old(audioQueue)
        && Setup() == old(Setup()) && released == old(released) && resumeLog == old(resumeLog)
    {
      var reply := ToolReplyFor(name, args, env);
      if reply.ToolRaised? {
        return true;
      }
      if reply.NoReply? {
        return false;
      }
      RunRecordingTool(name, args, env);
      if !websocket {
        return true;
      }
      outbox := outbox + [FunctionCallOutput(callId, reply.text), ResponseCreate];
      return false;
    }

    /**
     * What the two recording tools do to the recorder after their reply text
     * is formed: start a recording when none runs, stop the one that runs.
     */
    method RunRecordingTool(name: string, args: ToolArgs, env: Env)
      requires RecorderValid()
      requires name == "start_recording" ==> args.Args?
      modifies recorder
      ensures RecorderValid()
      ensures !IsRecordingTool(name) ==> recorder == null || unchanged(recorder)
      ensures recorder != null && name == "start_recording" ==>
        if old(recorder.isRecording) then unchanged(recorder)
        else recorder.isRecording && recorder.recordingStartTime == Some(env.now)
             && recorder.maxDurationSeconds == args.durationSeconds
      ensures recorder != null && name == "stop_recording" ==> !recorder.isRecording
    {
      if recorder == null {
        return;
      }
      if name == "start_recording" {
        if !recorder.isRecording {
          var _ := recorder.StartRecording(args.durationSeconds, None, env.now, env.timestamp);
        }
      } else if name == "stop_recording" {
        if recorder.isRecording {
          var _ := recorder.StopRecording(env.writable);
        }
      }
    }

    /** What each tool name answers, on the state before the call. */
    function ToolReplyFor(name: string, args: ToolArgs, env: Env): ToolReply
      reads recorder, monitor
    {
      if name == "web_search" then (if args.Malformed? then ToolRaised else Reply(env.searchResult))
      else if name == "get_system_status" then Reply(SystemStatusText(env.statusFigures))
      else if name == "start_recording" then
        (if args.Malformed? then ToolRaised else Reply(StartRecordingText(args.durationSeconds, env.timestamp)))
      else if name == "stop_recording" then Reply(StopRecordingText())
      else if name == "get_recording_status" then Reply(RecordingStatusText(env.now))
      else NoReply
    }

    /**
     * `_handle_message(message)`. Audio deltas mark the assistant as
     * speaking and queue their audio; `response.done` clears the mark; a
     * completed transcript is lower-cased (not stripped) and a dismissal in it
     * deactivates; a vision question relays the description, while active;
     * function calls go to `HandleFunctionCall`; API errors are logged unless
     * they are the empty-commit error the echo gate provokes.
     */
    method HandleMessage(m: Inbound, env: Env, micRates: set<int>) returns (raised: bool)
      requires Valid() && RecorderValid()
      modifies this, recorder
      ensures Valid() && RecorderValid()
      ensures m.AudioDelta? ==>
        isPlayingResponse && !raised
        && audioQueue == old(audioQueue) + (if m.chunk != [] then [m.chunk] else [])
        && outbox == old(outbox)
      ensures m.ResponseDone? ==>
        !isPlayingResponse && !raised
        && audioQueue == old(audioQueue) && outbox == old(outbox)
      ensures m.TranscriptCompleted? && IsDismissal(Lower(m.transcript.GetOr(""))) ==>
        !isActive && !sendAudioEnabled && inputStream == NoHandle && outputStream == NoHandle
        && audio == NoHandle && audioQueue == [] && outbox == old(outbox) && !raised
      ensures m.TranscriptCompleted? && !IsDismissal(Lower(m.transcript.GetOr(""))) ==>
        outbox == old(outbox)
          + (if ContainsAny(Lower(m.transcript.GetOr("")), VisionKeywords) && env.visionText.Some?
                && websocket && isActive
             then [AssistantText(env.visionText.value), SpeakExactly(env.visionText.value)] else [])
        && isActive == old(isActive) && !raised
      ensures m.FunctionCallDone? ==> var reply := old(ToolReplyFor(m.name, m.arguments, env));
        && (reply.Reply? && websocket ==>
              outbox == old(outbox) + [FunctionCallOutput(m.callId, reply.text), ResponseCreate])
        && (!reply.Reply? || !websocket ==> outbox == old(outbox))
        && raised == (reply.ToolRaised? || (reply.Reply? && !websocket))
      ensures m.FunctionCallDone? ==>
        && sendAudioEnabled == old(sendAudioEnabled) && isRunning == old(isRunning)
        && loopCreated == old(loopCreated) && websocket == old(websocket)
        && isPlayingResponse == old(isPlayingResponse) && audioQueue == old(audioQueue)
        && Setup() == old(Setup())
      ensures m.ApiError? ==>
        !raised && outbox == old(outbox)
        && loggedErrors == old(loggedErrors)
           + (if m.code != Some("input_audio_buffer_commit_empty") then [m.code] else [])
      ensures m.TextDelta? || m.Other? ==> !raised && unchanged(this)
      ensures !m.TranscriptCompleted? ==> isActive == old(isActive) && inputStream == old(inputStream)
    {
      raised := false;
      match m {
        case AudioDelta(chunk) =>
          isPlayingResponse := true;
          if chunk != [] {
            audioQueue := audioQueue + [chunk];
          }
        case ResponseDone =>
          isPlayingResponse := false;
        case TranscriptCompleted(transcript) =>
          HandleTranscript(transcript, env);
        case TextDelta(_) =>
        case FunctionCallDone(callId, name, args) =>
          raised := HandleFunctionCall(callId, name, args, env);
        case ApiError(code) =>
          if code != Some("input_audio_buffer_commit_empty") {
            loggedErrors := loggedErrors + [code];
          }
        case Other(_) =>
      }
    }

    /**
     * A completed input transcript: lower-cased, not stripped; a dismissal
     * deactivates, and otherwise a vision question is answered with the
     * description while active.
     */
    method HandleTranscript(transcript: Option<string>, env: Env)
      requires Valid()
      modifies this
      ensures Valid()
      ensures IsDismissal(Lower(transcript.GetOr(""))) ==>
        !isActive && !sendAudioEnabled && inputStream == NoHandle && outputStream == NoHandle
        && audio == NoHandle && audioQueue == [] && outbox == old(outbox)
      ensures !IsDismissal(Lower(transcript.GetOr(""))) ==>
        outbox == old(outbox)
          + (if ContainsAny(Lower(transcript.GetOr("")), VisionKeywords) && env.visionText.Some?
                && websocket && isActive
             then [AssistantText(env.visionText.value), SpeakExactly(env.visionText.value)] else [])
        && isActive == old(isActive)
    {
      var t := Lower(transcript.GetOr(""));
      if IsDismissal(t) {
        Deactivate();
        return;
      }
      if ContainsAny(t, VisionKeywords) && env.visionText.Some? && websocket && isActive {
        outbox := outbox + [AssistantText(env.visionText.value), SpeakExactly(env.visionText.value)];
      }
    }
  }

  /** The warnings `_get_system_status` adds: two temperatures and RAM, no power. */
  function StatusWarningList(t: SystemMonitoring.Telemetry): seq<string>
  {
    (if t.cpuTemp > 70.0 then ["CPU temperature elevated"] else [])
    + (if t.gpuTemp > 70.0 then ["GPU temperature elevated"] else [])
    + (if t.ramUsage > 85.0 then ["RAM usage high"] else [])
  }

  function StatusWarnings(t: SystemMonitoring.Telemetry): string
  {
    var w := StatusWarningList(t);
    if w == [] then "" else ". Warnings: " + Join(w, ", ")
  }

  /**
   * Each status warning appears exactly when its threshold is exceeded; the
   * power draw never produces one here, and without warnings nothing is
   * appended to the figures.
   */
  lemma StatusWarningRules(t: SystemMonitoring.Telemetry)
    ensures "CPU temperature elevated" in StatusWarningList(t) <==> t.cpuTemp > 70.0
    ensures "GPU temperature elevated" in StatusWarningList(t) <==> t.gpuTemp > 70.0
    ensures "RAM usage high" in StatusWarningList(t) <==> t.ramUsage > 85.0
    ensures "High power consumption" !in StatusWarningList(t)
    ensures StatusWarnings(t) == "" <==> !(t.cpuTemp > 70.0 || t.gpuTemp > 70.0 || t.ramUsage > 85.0)
  {
    if StatusWarningList(t) != [] {
      assert StatusWarnings(t)[0] == '.';
    }
  }

  /** The `get_recording_status` text for one recording-info record. */
  function RecordingInfoText(info: VideoRecording.RecordingInfo): string
  {
    if !info.recording then "Not currently recording"
    else
      "Currently recording: " + IntToString(info.duration) + ".0 seconds, "
      + NatToString(info.frames) + " frames captured"
      + (if VideoRecording.HasLimit(info.maxDuration)
         then ", " + IntToString(info.maxDuration.value - info.duration) + " seconds remaining" else "")
  }

  /** Which names are the recording tools, whose handlers change the recorder. */
  predicate IsRecordingTool(name: string)
  {
    name == "start_recording" || name == "stop_recording"
  }
}
