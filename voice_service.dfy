// The voice service's `IntentEngine` (keyword patterns over transcribed text)
// and the buffering loop of `ProcessAudio`. The speech recogniser is a
// function passed in; the gRPC stream is a sequence of requests.
module VoiceIntents {
  import opened Wrappers
  import opened Text

  /**
   * A pattern of the form `p0.*p1.*...`: literal pieces separated by `.*`.
   * Every default pattern has this form.
   */
  type Pattern = seq<string>

  predicate NoNewline(s: string)
  {
    forall i | 0 <= i < |s| :: s[i] != '\n'
  }

  /** The rest of a pattern, `.*p1.*p2...`, matches from index `j` (`.` matches anything but a newline). */
  predicate GapMatch(text: string, ps: Pattern, j: nat)
    decreases |ps|
  {
    ps == [] ||
    exists k | j <= k <= |text| ::
      NoNewline(text[j..k]) && OccursAt(text, ps[0], k) && GapMatch(text, ps[1..], k + |ps[0]|)
  }

  /** `re.search(pattern, text)` is not None. */
  predicate Search(text: string, p: Pattern)
  {
    p == [] || exists i | 0 <= i <= |text| :: OccursAt(text, p[0], i) && GapMatch(text, p[1..], i + |p[0]|)
  }

  /** A piece of a single line is a single line. */
  lemma NoNewlineSlice(s: string, j: nat, k: nat)
    requires NoNewline(s) && j <= k <= |s|
    ensures NoNewline(s[j..k])
  {
    forall m | 0 <= m < k - j ensures s[j..k][m] != '\n' {
      assert s[j..k][m] == s[j + m];
    }
  }

  /** On a single line, "a.*b" matches exactly when `b` occurs somewhere after an occurrence of `a`. */
  lemma SearchTwoPieces(text: string, a: string, b: string)
    requires NoNewline(text)
    ensures Search(text, [a, b]) <==>
      exists i, k | 0 <= i && i + |a| <= k <= |text| :: OccursAt(text, a, i) && OccursAt(text, b, k)
  {
    var p: Pattern := [a, b];
    assert p[1..] == [b] && p[1..][1..] == [];
    if exists i, k | 0 <= i && i + |a| <= k <= |text| :: OccursAt(text, a, i) && OccursAt(text, b, k) {
      var i, k :| 0 <= i && i + |a| <= k <= |text| && OccursAt(text, a, i) && OccursAt(text, b, k);
      NoNewlineSlice(text, i + |a|, k);
      assert GapMatch(text, [], k + |b|);
      assert GapMatch(text, [b], i + |a|);
    }
  }

  /** A pattern that matches a text still matches it with more text around it. */
  lemma {:induction false} GapMatchShift(text: string, ps: Pattern, j: nat, pre: string, post: string)
    requires GapMatch(text, ps, j)
    ensures GapMatch(pre + text + post, ps, j + |pre|)
    decreases |ps|
  {
    if ps != [] {
      var big := pre + text + post;
      var k :| j <= k <= |text| && NoNewline(text[j..k]) && OccursAt(text, ps[0], k) && GapMatch(text, ps[1..], k + |ps[0]|);
      assert big[j + |pre|..k + |pre|] == text[j..k];
      assert big[k + |pre|..k + |pre| + |ps[0]|] == text[k..k + |ps[0]|];
      GapMatchShift(text, ps[1..], k + |ps[0]|, pre, post);
    }
  }

  /** Saying more around a command does not stop it from being recognised. */
  lemma SearchInContext(text: string, p: Pattern, pre: string, post: string)
    requires Search(text, p)
    ensures Search(pre + text + post, p)
  {
    if p != [] {
      var big := pre + text + post;
      var i :| 0 <= i <= |text| && OccursAt(text, p[0], i) && GapMatch(text, p[1..], i + |p[0]|);
      assert big[i + |pre|..i + |pre| + |p[0]|] == text[i..i + |p[0]|];
      assert OccursAt(big, p[0], i + |pre|);
      GapMatchShift(text, p[1..], i + |p[0]|, pre, post);
      assert GapMatch(big, p[1..], i + |pre| + |p[0]|);
    }
  }

  /** A parameter value: the defaults hold strings and booleans. */
  datatype Param = Str(s: string) | Flag(b: bool)

  /** `str(value)`: booleans print as Python spells them. */
  function ParamText(v: Param): string
  {
    match v
    case Str(s) => s
    case Flag(b) => if b then "True" else "False"
  }

  /** One entry of the intents table: its name, patterns, action and parameters, in table order. */
  datatype IntentSpec = IntentSpec(name: string, patterns: seq<Pattern>, action: string, parameters: seq<(string, Param)>)

  /** `helmet_pb2.Intent` without its timestamp. */
  datatype Intent = Intent(text: string, intentName: string, confidence: real, entities: map<string, string>)

  const DefaultIntents: seq<IntentSpec> := [
    IntentSpec("toggle_night_mode",
      [["toggle night", "mode"], ["night", "vision"], ["low", "light", "mode"], ["dark", "mode"]],
      "set_mode", [("mode", Str("night"))]),
    IntentSpec("start_recording",
      [["start", "record"], ["begin", "record"], ["record", "video"]],
      "toggle_recording", [("enabled", Flag(true))]),
    IntentSpec("stop_recording",
      [["stop", "record"], ["end", "record"], ["finish", "record"]],
      "toggle_recording", [("enabled", Flag(false))]),
    IntentSpec("take_screenshot",
      [["take", "screenshot"], ["capture", "screen"], ["snap", "photo"]],
      "screenshot", []),
    IntentSpec("show_navigation",
      [["show", "nav"], ["navigation", "mode"], ["compass", "mode"]],
      "set_mode", [("mode", Str("navigation"))]),
    IntentSpec("normal_mode",
      [["normal", "mode"], ["default", "mode"], ["regular", "mode"]],
      "set_mode", [("mode", Str("normal"))])]

  /** `for key, value in parameters.items(): intent.entities[key] = str(value)`. */
  function EntitiesOf(params: seq<(string, Param)>): map<string, string>
    decreases |params|
  {
    if params == [] then map[]
    else EntitiesOf(params[..|params| - 1])[params[|params| - 1].0 := ParamText(params[|params| - 1].1)]
  }

  /** The entity keys are exactly the parameter keys. */
  lemma {:induction false} EntitiesOfKeys(params: seq<(string, Param)>)
    ensures EntitiesOf(params).Keys == set j | 0 <= j < |params| :: params[j].0
    decreases |params|
  {
    if params != [] {
      var init := params[..|params| - 1];
      EntitiesOfKeys(init);
      assert forall j | 0 <= j < |init| :: init[j] == params[j];
    }
  }

  /** Every parameter becomes an entity of the same key holding the value's `str()`, a later duplicate key winning. */
  lemma {:induction false} EntitiesOfParams(params: seq<(string, Param)>, k: nat)
    requires k < |params|
    requires forall j | k < j < |params| :: params[j].0 != params[k].0
    ensures params[k].0 in EntitiesOf(params) && EntitiesOf(params)[params[k].0] == ParamText(params[k].1)
    decreases |params|
  {
    var init := params[..|params| - 1];
    if k < |params| - 1 {
      assert forall j | 0 <= j < |init| :: init[j] == params[j];
      EntitiesOfParams(init, k);
    }
  }

  predicate AnyPattern(t: string, patterns: seq<Pattern>)
  {
    exists k | 0 <= k < |patterns| :: Search(t, patterns[k])
  }

  /** The first entry, in table order, with a pattern found in `t`. */
  function FirstIntent(t: string, specs: seq<IntentSpec>): Option<IntentSpec>
    decreases |specs|
  {
    if specs == [] then None
    else if AnyPattern(t, specs[0].patterns) then Some(specs[0])
    else FirstIntent(t, specs[1..])
  }

  /** `classify_intent(text)` over the table `specs`. */
  function ClassifyIntent(text: string, specs: seq<IntentSpec>): Option<Intent>
  {
    if text == "" then None
    else match FirstIntent(Lower(text), specs)
      case Some(spec) => Some(Intent(text, spec.name, 0.9, EntitiesOf(spec.parameters)))
      case None => Some(Intent(text, "unknown", 0.1, map[]))
  }

  /** The scan picks entry `k` exactly when its patterns match and no earlier entry's do. */
  lemma {:induction false} FirstIntentAt(t: string, specs: seq<IntentSpec>, k: nat)
    requires k < |specs|
    ensures AnyPattern(t, specs[k].patterns) && (forall j | 0 <= j < k :: !AnyPattern(t, specs[j].patterns))
            ==> FirstIntent(t, specs) == Some(specs[k])
    ensures FirstIntent(t, specs).Some? ==>
      exists j | 0 <= j < |specs| :: FirstIntent(t, specs) == Some(specs[j]) && AnyPattern(t, specs[j].patterns)
        && forall i | 0 <= i < j :: !AnyPattern(t, specs[i].patterns)
    ensures FirstIntent(t, specs).None? <==> forall j | 0 <= j < |specs| :: !AnyPattern(t, specs[j].patterns)
    decreases k
  {
    if AnyPattern(t, specs[0].patterns) {
      assert FirstIntent(t, specs) == Some(specs[0]);
    } else {
      var tail := specs[1..];
      assert FirstIntent(t, specs) == FirstIntent(t, tail);
      FirstIntentTail(t, specs);
      if k > 0 {
        FirstIntentAt(t, tail, k - 1);
        assert tail[k - 1] == specs[k];
        assert forall j | 0 <= j < k - 1 :: tail[j] == specs[j + 1];
      }
    }
  }

  /** Past a first entry that does not match, the scan is the scan of the rest. */
  lemma {:induction false} FirstIntentTail(t: string, specs: seq<IntentSpec>)
    requires specs != [] && !AnyPattern(t, specs[0].patterns)
    ensures FirstIntent(t, specs).Some? ==>
      exists j | 0 <= j < |specs| :: FirstIntent(t, specs) == Some(specs[j]) && AnyPattern(t, specs[j].patterns)
        && forall i | 0 <= i < j :: !AnyPattern(t, specs[i].patterns)
    ensures FirstIntent(t, specs).None? <==> forall j | 0 <= j < |specs| :: !AnyPattern(t, specs[j].patterns)
    decreases |specs|, 0
  {
    var tail := specs[1..];
    assert forall j | 0 <= j < |tail| :: tail[j] == specs[j + 1];
    if tail != [] {
      if AnyPattern(t, tail[0].patterns) {
        assert FirstIntent(t, tail) == Some(specs[1]);
      } else {
        FirstIntentTail(t, tail);
        if FirstIntent(t, tail).Some? {
          var j :| 0 <= j < |tail| && FirstIntent(t, tail) == Some(tail[j]) && AnyPattern(t, tail[j].patterns)
            && forall i | 0 <= i < j :: !AnyPattern(t, tail[i].patterns);
          assert forall i | 0 <= i < j + 1 :: !AnyPattern(t, specs[i].patterns) by {
            forall i | 0 <= i < j + 1 ensures !AnyPattern(t, specs[i].patterns) {
              if i > 0 {
                assert specs[i] == tail[i - 1];
              }
            }
          }
        }
      }
    }
  }

  /**
   * Classification: an empty text gives nothing; any other text keeps its
   * original spelling. The first entry, in table order, with a pattern
   * found in the lower-cased text wins with confidence 0.9 and its
   * parameters as entities; with no match the intent is "unknown", with
   * confidence 0.1 and no entities.
   */
  lemma ClassifyIntentCases(text: string, specs: seq<IntentSpec>, k: nat)
    requires k < |specs|
    ensures ClassifyIntent(text, specs).None? <==> text == ""
    ensures ClassifyIntent(text, specs).Some? ==> ClassifyIntent(text, specs).value.text == text
    ensures text != "" && AnyPattern(Lower(text), specs[k].patterns)
            && (forall j | 0 <= j < k :: !AnyPattern(Lower(text), specs[j].patterns)) ==>
      ClassifyIntent(text, specs) == Some(Intent(text, specs[k].name, 0.9, EntitiesOf(specs[k].parameters)))
    ensures text != "" && (forall j | 0 <= j < |specs| :: !AnyPattern(Lower(text), specs[j].patterns)) ==>
      ClassifyIntent(text, specs) == Some(Intent(text, "unknown", 0.1, map[]))
  {
    FirstIntentAt(Lower(text), specs, k);
  }

  /** A known intent was produced only by a table entry whose patterns match the lower-cased text. */
  lemma KnownIntentMatched(text: string, specs: seq<IntentSpec>)
    requires specs != []
    requires ClassifyIntent(text, specs).Some? && ClassifyIntent(text, specs).value.confidence == 0.9
    ensures exists j | 0 <= j < |specs| ::
      ClassifyIntent(text, specs).value.intentName == specs[j].name && AnyPattern(Lower(text), specs[j].patterns)
  {
    FirstIntentAt(Lower(text), specs, 0);
  }

  /** The default start-recording entry reports `enabled` as Python prints `True`. */
  lemma DefaultRecordingEntities()
    ensures EntitiesOf(DefaultIntents[1].parameters) == map["enabled" := "True"]
    ensures EntitiesOf(DefaultIntents[2].parameters) == map["enabled" := "False"]
    ensures EntitiesOf(DefaultIntents[0].parameters) == map["mode" := "night"]
  {
    assert DefaultIntents[1].parameters[..0] == [];
    assert DefaultIntents[2].parameters[..0] == [];
    assert DefaultIntents[0].parameters[..0] == [];
  }

  class IntentEngine {
    const intents: seq<IntentSpec>

    /** `_load_intents`: the table read from `intents.json` when there is one, the defaults otherwise (or on any error). */
    constructor (fromFile: Option<seq<IntentSpec>>)
      ensures intents == fromFile.GetOr(DefaultIntents)
    {
      intents := fromFile.GetOr(DefaultIntents);
    }
  }

  /** One element of the `ProcessAudio` request stream. */
  datatype AudioRequest =
    | Samples(data: seq<int>)   // `np.frombuffer(audio_data.data, dtype=np.int16)`
    | Cancelled                 // `context.is_active()` false or `_processing` cleared

  const FlushThreshold: nat := 16000

  /** What one flushed buffer yields: its transcription's intent, unless empty or unknown. */
  function Flush(buffer: seq<int>, specs: seq<IntentSpec>, transcribe: seq<int> -> Option<string>): seq<Intent>
  {
    var t := transcribe(buffer);
    if t.None? || t.value == "" then []
    else
      var intent := ClassifyIntent(t.value, specs);
      if intent.Some? && intent.value.intentName != "unknown" then [intent.value] else []
  }

  /** The intents the stream yields from the requests on, with `buffer` already accumulated. */
  function Stream(reqs: seq<AudioRequest>, buffer: seq<int>, specs: seq<IntentSpec>,
                  transcribe: seq<int> -> Option<string>): seq<Intent>
    decreases |reqs|
  {
    if reqs == [] || reqs[0].Cancelled? then []
    else
      var b := buffer + reqs[0].data;
      if |b| > FlushThreshold then Flush(b, specs, transcribe) + Stream(reqs[1..], [], specs, transcribe)
      else Stream(reqs[1..], b, specs, transcribe)
  }

  /**
   * The stream never yields an unknown intent, yields at most one intent
   * per request, and every intent it yields is a classification of some
   * transcribed text.
   */
  lemma {:induction false} StreamYieldsKnown(reqs: seq<AudioRequest>, buffer: seq<int>, specs: seq<IntentSpec>,
                                             transcribe: seq<int> -> Option<string>)
    ensures forall i | i in Stream(reqs, buffer, specs, transcribe) ::
      i.intentName != "unknown" && i.confidence == 0.9 && i.text != ""
    ensures |Stream(reqs, buffer, specs, transcribe)| <= |reqs|
    decreases |reqs|
  {
    if reqs != [] && !reqs[0].Cancelled? {
      StreamYieldsKnown(reqs[1..], [], specs, transcribe);
      StreamYieldsKnown(reqs[1..], buffer + reqs[0].data, specs, transcribe);
      var b := buffer + reqs[0].data;
      var t := transcribe(b);
      if t.Some? && t.value != "" {
        var lt := Lower(t.value);
        match FirstIntent(lt, specs)
        case Some(_) =>
        case None =>
      }
    }
  }

  /** One unfolding of `Stream` at request `i`. */
  lemma StreamStep(reqs: seq<AudioRequest>, i: nat, buffer: seq<int>, specs: seq<IntentSpec>,
                   transcribe: seq<int> -> Option<string>)
    requires i < |reqs| && reqs[i].Samples?
    ensures var b := buffer + reqs[i].data;
      Stream(reqs[i..], buffer, specs, transcribe)
      == if |b| > FlushThreshold then Flush(b, specs, transcribe) + Stream(reqs[i + 1..], [], specs, transcribe)
         else Stream(reqs[i + 1..], b, specs, transcribe)
  {
    assert reqs[i..][0] == reqs[i];
    assert reqs[i..][1..] == reqs[i + 1..];
  }

  class VoiceService {
    const intents: seq<IntentSpec>
    var processing: bool

    constructor (intents: seq<IntentSpec>)
      ensures this.intents == intents && !processing
    {
      this.intents := intents;
      processing := false;
    }

    /**
     * `ProcessAudio`: samples accumulate until the buffer holds more than
     * 16000 of them; then it is transcribed, a known intent is yielded, and
     * the buffer starts over. A cancelled stream stops at once.
     */
    method ProcessAudio(reqs: seq<AudioRequest>, transcribe: seq<int> -> Option<string>) returns (yielded: seq<Intent>)
      modifies this
      ensures yielded == Stream(reqs, [], intents, transcribe)
      ensures !processing
    {
      processing := true;
      var buffer: seq<int> := [];
      yielded := [];
      ghost var rest := Stream(reqs, [], intents, transcribe);
      var i := 0;
      while i < |reqs|
        invariant 0 <= i <= |reqs|
        invariant Stream(reqs, [], intents, transcribe) == yielded + rest
        invariant rest == Stream(reqs[i..], buffer, intents, transcribe)
        invariant processing
        decreases |reqs| - i
      {
        if reqs[i].Cancelled? {
          assert reqs[i..][0] == reqs[i];
          break;
        }
        StreamStep(reqs, i, buffer, intents, transcribe);
        buffer := buffer + reqs[i].data;
        if |buffer| > FlushThreshold {
          var out := Flush(buffer, intents, transcribe);
          AppendAssoc(yielded, out, Stream(reqs[i + 1..], [], intents, transcribe));
          yielded := yielded + out;
          buffer := [];
        }
        rest := Stream(reqs[i + 1..], buffer, intents, transcribe);
        i := i + 1;
      }
      if i == |reqs| {
        assert reqs[i..] == [];
      }
      processing := false;
    }
  }
}
