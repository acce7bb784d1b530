// `VoiceListener`: speech heard on the microphone, turned into one of five
// HUD commands by substring tests and handed to a callback.
module VoiceCommands {
  import opened Wrappers
  import opened Text

  datatype Command = Analyze | ShowDetections | HideDetections | ShowHud | HideHud

  /** The string `_parse_command` returns for each command. */
  function CommandName(c: Command): string
  {
    match c
    case Analyze => "analyze"
    case ShowDetections => "show_detections"
    case HideDetections => "hide_detections"
    case ShowHud => "show_hud"
    case HideHud => "hide_hud"
  }

  function PhrasesOf(c: Command): seq<string>
  {
    match c
    case Analyze => ["analyze", "what am i looking at", "whats this", "identify"]
    case ShowDetections => ["show detection", "show objects", "detect"]
    case HideDetections => ["hide detection", "hide objects"]
    case ShowHud => ["show hud", "show status"]
    case HideHud => ["hide hud", "hide status", "clear display"]
  }

  /** The order in which `_parse_command` tries the phrase lists. */
  const Order: seq<Command> := [Analyze, ShowDetections, HideDetections, ShowHud, HideHud]

  /** The first command of `cmds` whose list has a phrase inside `t`. */
  function FirstMatching(t: string, cmds: seq<Command>): Option<Command>
    decreases |cmds|
  {
    if cmds == [] then None
    else if ContainsAny(t, PhrasesOf(cmds[0])) then Some(cmds[0])
    else FirstMatching(t, cmds[1..])
  }

  /** `_parse_command(text)`: the chain of `if any(...)` tests over the lower-cased, stripped text. */
  function ParseCommand(text: string): Option<Command>
  {
    FirstMatching(Strip(Lower(text)), Order)
  }

  /** The scan only ever answers with one of the commands it was given. */
  lemma {:induction false} FirstMatchingIn(t: string, cmds: seq<Command>)
    ensures FirstMatching(t, cmds).Some? ==> FirstMatching(t, cmds).value in cmds
    decreases |cmds|
  {
    if cmds != [] && !ContainsAny(t, PhrasesOf(cmds[0])) {
      FirstMatchingIn(t, cmds[1..]);
    }
  }

  /** Distinct commands: no command appears twice. */
  predicate Distinct(cmds: seq<Command>)
  {
    forall i, j | 0 <= i < j < |cmds| :: cmds[i] != cmds[j]
  }

  /** Whether the command at position `k` is the first one whose list matches `t`. */
  predicate FirstAt(t: string, cmds: seq<Command>, k: nat)
    requires k < |cmds|
  {
    ContainsAny(t, PhrasesOf(cmds[k])) && forall j | 0 <= j < k :: !ContainsAny(t, PhrasesOf(cmds[j]))
  }

  /** Over distinct commands, the scan finds position `k` exactly when it matches and no earlier one does. */
  lemma {:induction false} FirstMatchingIsFirst(t: string, cmds: seq<Command>, k: nat)
    requires k < |cmds| && Distinct(cmds)
    ensures FirstMatching(t, cmds) == Some(cmds[k]) <==> FirstAt(t, cmds, k)
    decreases k, 1
  {
    if ContainsAny(t, PhrasesOf(cmds[0])) {
      assert FirstMatching(t, cmds) == Some(cmds[0]);
      if k > 0 {
        assert cmds[0] != cmds[k];
      }
    } else if k == 0 {
      FirstMatchingIn(t, cmds[1..]);
      assert cmds[0] !in cmds[1..] by {
        forall j | 0 <= j < |cmds[1..]| ensures cmds[1..][j] != cmds[0] {
          assert cmds[1..][j] == cmds[j + 1];
        }
      }
    } else {
      FirstMatchingSkip(t, cmds, k);
    }
  }

  /** The step past a first command that does not match. */
  lemma {:induction false} FirstMatchingSkip(t: string, cmds: seq<Command>, k: nat)
    requires 0 < k < |cmds| && Distinct(cmds)
    requires !ContainsAny(t, PhrasesOf(cmds[0]))
    ensures FirstMatching(t, cmds) == Some(cmds[k]) <==> FirstAt(t, cmds, k)
    decreases k, 0
  {
    var tail := cmds[1..];
    assert Distinct(tail) by {
      forall i, j | 0 <= i < j < |tail| ensures tail[i] != tail[j] {
        assert tail[i] == cmds[i + 1] && tail[j] == cmds[j + 1];
      }
    }
    assert FirstMatching(t, cmds) == FirstMatching(t, tail);
    FirstMatchingIsFirst(t, tail, k - 1);
    assert tail[k - 1] == cmds[k];
    assert FirstAt(t, cmds, k) <==> FirstAt(t, tail, k - 1) by {
      assert forall j | 0 <= j < k - 1 :: tail[j] == cmds[j + 1];
    }
  }

  /** The scan finds nothing exactly when no list matches. */
  lemma {:induction false} FirstMatchingNone(t: string, cmds: seq<Command>)
    ensures FirstMatching(t, cmds) == None <==> forall j | 0 <= j < |cmds| :: !ContainsAny(t, PhrasesOf(cmds[j]))
    decreases |cmds|
  {
    if cmds != [] {
      FirstMatchingNone(t, cmds[1..]);
      assert forall j | 0 <= j < |cmds| - 1 :: cmds[1..][j] == cmds[j + 1];
    }
  }

  /**
   * The first matching list wins: the result is the command at position `k`
   * of the order exactly when its list matches and no earlier one does, and
   * None exactly when no list matches.
   */
  lemma ParseCommandFirstMatch(text: string, k: nat)
    requires k < |Order|
    ensures ParseCommand(text) == Some(Order[k]) <==> FirstAt(Strip(Lower(text)), Order, k)
    ensures var t := Strip(Lower(text));
      ParseCommand(text) == None <==> forall j | 0 <= j < |Order| :: !ContainsAny(t, PhrasesOf(Order[j]))
  {
    FirstMatchingIsFirst(Strip(Lower(text)), Order, k);
    FirstMatchingNone(Strip(Lower(text)), Order);
  }

  /**
   * "hide detection" contains "detect": unless an analyze phrase comes
   * first, a text saying it shows the detections rather than hiding them.
   */
  lemma HideDetectionShows(text: string)
    requires Contains(Strip(Lower(text)), "hide detection")
    requires !ContainsAny(Strip(Lower(text)), PhrasesOf(Analyze))
    ensures ParseCommand(text) == Some(ShowDetections)
  {
    var t := Strip(Lower(text));
    assert OccursAt("hide detection", "detect", 5);
    ContainsTransitive(t, "hide detection", "detect");
    assert Contains(t, PhrasesOf(ShowDetections)[2]);
    ParseCommandFirstMatch(text, 1);
  }

  /** Saying "hide detection" always says "detect" too. */
  lemma HideDetectionSaysDetect(t: string)
    ensures Contains(t, "hide detection") ==> ContainsAny(t, PhrasesOf(ShowDetections))
  {
    if Contains(t, "hide detection") {
      assert OccursAt("hide detection", "detect", 5);
      ContainsTransitive(t, "hide detection", "detect");
      assert Contains(t, PhrasesOf(ShowDetections)[2]);
    }
  }

  /** Whenever the hide command comes out, "hide objects" was said: its other phrase can never win. */
  lemma HideDetectionsOnlyByObjects(text: string)
    requires ParseCommand(text) == Some(HideDetections)
    ensures Contains(Strip(Lower(text)), "hide objects")
    ensures !Contains(Strip(Lower(text)), "hide detection")
  {
    var t := Strip(Lower(text));
    ParseCommandFirstMatch(text, 2);
    HideDetectionSaysDetect(t);
    var k :| 0 <= k < |PhrasesOf(HideDetections)| && Contains(t, PhrasesOf(HideDetections)[k]);
  }

  /** One pass of `_listen_loop`: what `listen` and `recognize_google` produced. */
  datatype Heard =
    | Recognized(text: string)   // already lower-cased by the loop
    | NotUnderstood              // `UnknownValueError`
    | RequestFailed              // `RequestError`
    | WaitTimeout                // `WaitTimeoutError`
    | ListenFailed               // any other exception
    | StopCalled                 // `stop()` cleared `is_listening` before this pass

  /** The commands the loop hands to the callback over `heard`, up to a stop. */
  function Dispatched(heard: seq<Heard>, hasCallback: bool): seq<Command>
    decreases |heard|
  {
    if heard == [] || heard[0].StopCalled? then []
    else
      var here := if heard[0].Recognized? && ParseCommand(heard[0].text).Some? && hasCallback
                  then [ParseCommand(heard[0].text).value] else [];
      here + Dispatched(heard[1..], hasCallback)
  }

  /**
   * The callback guard: without a callback nothing is dispatched, and every
   * dispatched command is the parse of something recognised before any stop.
   */
  lemma {:induction false} DispatchedComeFromSpeech(heard: seq<Heard>, hasCallback: bool)
    ensures !hasCallback ==> Dispatched(heard, hasCallback) == []
    ensures forall c | c in Dispatched(heard, hasCallback) ::
      exists k | 0 <= k < |heard| :: heard[k].Recognized? && ParseCommand(heard[k].text) == Some(c)
    ensures |Dispatched(heard, hasCallback)| <= |heard|
    decreases |heard|
  {
    if heard != [] && !heard[0].StopCalled? {
      DispatchedComeFromSpeech(heard[1..], hasCallback);
      forall c | c in Dispatched(heard, hasCallback)
        ensures exists k | 0 <= k < |heard| :: heard[k].Recognized? && ParseCommand(heard[k].text) == Some(c)
      {
        if c !in Dispatched(heard[1..], hasCallback) {
          assert heard[0].Recognized? && ParseCommand(heard[0].text) == Some(c);
        } else {
          var k :| 0 <= k < |heard[1..]| && heard[1..][k].Recognized? && ParseCommand(heard[1..][k].text) == Some(c);
          assert heard[k + 1] == heard[1..][k];
        }
      }
    }
  }

  /** One unfolding of `Dispatched` at pass `i`. */
  lemma DispatchedStep(heard: seq<Heard>, i: nat, hasCallback: bool)
    requires i < |heard|
    ensures Dispatched(heard[i..], hasCallback)
            == if heard[i].StopCalled? then []
               else (if heard[i].Recognized? && ParseCommand(heard[i].text).Some? && hasCallback
                     then [ParseCommand(heard[i].text).value] else [])
                    + Dispatched(heard[i + 1..], hasCallback)
  {
    assert heard[i..][0] == heard[i];
    assert heard[i..][1..] == heard[i + 1..];
  }

  class VoiceListener {
    /** Whether `_setup` found the recogniser and the microphone. */
    const available: bool
    var isListening: bool
    var hasCallback: bool
    var threadsStarted: nat
    /** The commands passed to the callback, oldest first. */
    var dispatched: seq<Command>

    constructor (available: bool)
      ensures this.available == available && !isListening && !hasCallback
      ensures threadsStarted == 0 && dispatched == []
    {
      this.available := available;
      isListening := false;
      hasCallback := false;
      threadsStarted := 0;
      dispatched := [];
    }

    /** `start(callback)`; `callbackGiven` is the truthiness of `callback`. No guard against a second start. */
    method Start(callbackGiven: bool) returns (ok: bool)
      modifies this
      ensures ok == available
      ensures !ok ==> isListening == old(isListening) && hasCallback == old(hasCallback)
                      && threadsStarted == old(threadsStarted)
      ensures ok ==> isListening && hasCallback == callbackGiven && threadsStarted == old(threadsStarted) + 1
      ensures dispatched == old(dispatched)
    {
      if !available {
        return false;
      }
      hasCallback := callbackGiven;
      isListening := true;
      threadsStarted := threadsStarted + 1;
      return true;
    }

    method Stop()
      modifies this
      ensures !isListening && hasCallback == old(hasCallback) && dispatched == old(dispatched)
      ensures threadsStarted == old(threadsStarted)
    {
      isListening := false;
    }

    /** `while self.is_listening` over the passes in `heard`. */
    method ListenLoop(heard: seq<Heard>)
      requires isListening
      modifies this
      ensures dispatched == old(dispatched) + Dispatched(heard, hasCallback)
      ensures hasCallback == old(hasCallback)
      ensures !isListening <==> exists k | 0 <= k < |heard| :: heard[k].StopCalled?
      ensures threadsStarted == old(threadsStarted)
    {
      ghost var rest := Dispatched(heard, hasCallback);
      var i := 0;
      while isListening && i < |heard|
        invariant 0 <= i <= |heard|
        invariant hasCallback == old(hasCallback) && threadsStarted == old(threadsStarted)
        invariant old(dispatched) + Dispatched(heard, hasCallback) == dispatched + rest
        invariant isListening ==> rest == Dispatched(heard[i..], hasCallback)
        invariant !isListening ==> rest == []
        invariant isListening ==> forall k | 0 <= k < i :: !heard[k].StopCalled?
        invariant !isListening ==> i > 0 && heard[i - 1].StopCalled?
        decreases |heard| - i
      {
        DispatchedStep(heard, i, hasCallback);
        var h := heard[i];
        ghost var before := dispatched;
        ghost var here := if h.Recognized? && ParseCommand(h.text).Some? && hasCallback
                          then [ParseCommand(h.text).value] else [];
        if h.StopCalled? {
          isListening := false;
          rest := [];
        } else {
          if h.Recognized? {
            var command := ParseCommand(h.text);
            if command.Some? && hasCallback {
              dispatched := dispatched + [command.value];
            }
          }
          rest := Dispatched(heard[i + 1..], hasCallback);
          AppendAssoc(before, here, rest);
        }
        i := i + 1;
      }
      if isListening {
        assert heard[i..] == [];
      }
    }
  }
}
