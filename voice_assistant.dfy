// `VoiceAssistant`: the text chat assistant. Messages are queued, answered
// by the language model with the whole conversation as context, and spoken.
// The dismissal list is the same as the realtime assistant's, so it is
// shared with module VoicePipeline.
module ChatAssistant {
  import opened Wrappers
  import opened Text
  import VoicePipeline

  datatype Role = User | Assistant

  /** One `{"role": ..., "content": ...}` entry of `conversation_history`. */
  datatype Turn = Turn(role: Role, content: string)

  /** What `_get_claude_response` got back from the model client. */
  datatype ModelReply =
    | Reply(text: string)      // `response.content[0].text`
    | SdkMissing               // `ImportError`
    | Failed(error: string)    // any other exception, as `str(e)`

  /** The text `_get_claude_response` returns for each outcome. */
  function ReplyText(r: ModelReply): string
  {
    match r
    case Reply(text) => text
    case SdkMissing => "Error: Anthropic SDK not installed."
    case Failed(error) => "Error: " + error
  }

  const DismissalReply: string := "Understood, Sir. I'll be here if you need me."

  const DefaultSystemPrompt: string :=
    "You are a helpful AI assistant integrated into an AR helmet. Provide concise, clear responses."

  /** `user_message.lower().strip()`. */
  function Clean(msg: string): string
  {
    Strip(Lower(msg))
  }

  /** `user_message.lower().strip()` matched against the dismissal phrases. */
  predicate Dismisses(msg: string)
  {
    VoicePipeline.IsDismissal(Clean(msg))
  }

  /**
   * The state one message touches: the history, the active flag, the texts
   * handed to `_speak`, and the histories `messages.create` is called with,
   * oldest first.
   */
  datatype Chat = Chat(history: seq<Turn>, active: bool, spoken: seq<string>, requests: seq<seq<Turn>>)

  /**
   * Whether a message reaches `messages.create`: it does not dismiss the
   * assistant, and the SDK import inside `_get_claude_response` succeeds.
   */
  predicate ReachesModel(dismissed: bool, reply: ModelReply)
  {
    !dismissed && !reply.SdkMissing?
  }

  /**
   * One message, once it is known whether it dismisses the assistant: a
   * dismissal is answered with the fixed reply, anything else with the
   * model's text.
   */
  function Step(c: Chat, msg: string, dismissed: bool, wake: bool, reply: ModelReply): Chat
  {
    var withUser := c.history + [Turn(User, msg)];
    var answer := if dismissed then DismissalReply else ReplyText(reply);
    Chat(withUser + [Turn(Assistant, answer)],
         if dismissed then false else wake || c.active,
         c.spoken + [answer],
         c.requests + if ReachesModel(dismissed, reply) then [withUser] else [])
  }

  /** `_process_message_async(msg, wake)`, with `reply` standing for what the model would answer. */
  function ProcessOn(c: Chat, msg: string, wake: bool, reply: ModelReply): Chat
  {
    Step(c, msg, Dismisses(msg), wake, reply)
  }

  /** The history alternates user and assistant entries, starting with the user. */
  predicate Alternating(h: seq<Turn>)
  {
    forall i | 0 <= i < |h| :: h[i].role == if i % 2 == 0 then User else Assistant
  }

  /**
   * Each message adds exactly one user entry, holding the message, and one
   * assistant entry, and keeps the history before it. A dismissal deactivates,
   * answers with the fixed reply and asks the model nothing; any other message
   * answers with the model's text (or its error text) and activates on a wake
   * word, and the model is called once, with the history ending in that
   * message, unless the SDK is missing.
   */
  lemma ProcessOnTurns(c: Chat, msg: string, wake: bool, reply: ModelReply)
    ensures var d := ProcessOn(c, msg, wake, reply);
      && |d.history| == |c.history| + 2
      && d.history[..|c.history|] == c.history
      && d.history[|c.history|] == Turn(User, msg)
      && d.history[|c.history| + 1].role == Assistant
      && d.spoken == c.spoken + [d.history[|c.history| + 1].content]
    ensures var d := ProcessOn(c, msg, wake, reply);
      Dismisses(msg) ==> !d.active && d.requests == c.requests && d.history[|c.history| + 1].content == DismissalReply
    ensures var d := ProcessOn(c, msg, wake, reply);
      !Dismisses(msg) ==>
        && d.active == (wake || c.active)
        && d.requests == c.requests + (if reply.SdkMissing? then [] else [d.history[..|c.history| + 1]])
        && d.history[|c.history| + 1].content == ReplyText(reply)
  {
    var d := ProcessOn(c, msg, wake, reply);
    assert d.history[..|c.history|] == c.history;
    assert d.history[..|c.history| + 1] == c.history + [Turn(User, msg)];
  }

  /** A model failure is reported as text starting with "Error: ", never dropped. */
  lemma FailuresBecomeErrorText(r: ModelReply)
    ensures !r.Reply? ==> |ReplyText(r)| >= 7 && ReplyText(r)[..7] == "Error: "
  {
  }

  /** Each message keeps the history alternating. */
  lemma ProcessOnAlternates(c: Chat, msg: string, wake: bool, reply: ModelReply)
    requires Alternating(c.history) && |c.history| % 2 == 0
    ensures var d := ProcessOn(c, msg, wake, reply); Alternating(d.history) && |d.history| % 2 == 0
  {
    var d := ProcessOn(c, msg, wake, reply);
    ProcessOnTurns(c, msg, wake, reply);
    forall i | 0 <= i < |d.history| ensures d.history[i].role == if i % 2 == 0 then User else Assistant {
      if i < |c.history| {
        assert d.history[i] == d.history[..|c.history|][i];
      }
    }
  }

  /** The messages the loop served, each one with the reply the model would give to it. */
  function ServeOn(c: Chat, msgs: seq<(string, bool)>, replies: seq<ModelReply>): Chat
    requires |msgs| == |replies|
    decreases |msgs|
  {
    if msgs == [] then c
    else ServeOn(ProcessOn(c, msgs[0].0, msgs[0].1, replies[0]), msgs[1..], replies[1..])
  }

  /**
   * Over any run of the loop the conversation only grows, by two entries
   * per message, stays alternating, and one reply is spoken per message.
   */
  lemma {:induction false} ServeOnAlternates(c: Chat, msgs: seq<(string, bool)>, replies: seq<ModelReply>)
    requires |msgs| == |replies|
    requires Alternating(c.history) && |c.history| % 2 == 0
    ensures var d := ServeOn(c, msgs, replies);
      && |d.history| == |c.history| + 2 * |msgs|
      && d.history[..|c.history|] == c.history
      && Alternating(d.history) && |d.history| % 2 == 0
      && |d.spoken| == |c.spoken| + |msgs|
    decreases |msgs|
  {
    if msgs != [] {
      var c1 := ProcessOn(c, msgs[0].0, msgs[0].1, replies[0]);
      ProcessOnTurns(c, msgs[0].0, msgs[0].1, replies[0]);
      ProcessOnAlternates(c, msgs[0].0, msgs[0].1, replies[0]);
      ServeOnAlternates(c1, msgs[1..], replies[1..]);
      var d := ServeOn(c, msgs, replies);
      assert d.history[..|c.history|] == d.history[..|c1.history|][..|c.history|];
    }
  }

  /**
   * Every request sent to the model is an odd-length alternating history,
   * so the model is always asked about a user's message.
   */
  lemma {:induction false} ServeOnRequests(c: Chat, msgs: seq<(string, bool)>, replies: seq<ModelReply>)
    requires |msgs| == |replies|
    requires Alternating(c.history) && |c.history| % 2 == 0
    requires forall r | r in c.requests :: Alternating(r) && |r| % 2 == 1
    ensures forall r | r in ServeOn(c, msgs, replies).requests :: Alternating(r) && |r| % 2 == 1
    decreases |msgs|
  {
    if msgs != [] {
      var c1 := ProcessOn(c, msgs[0].0, msgs[0].1, replies[0]);
      ProcessOnAlternates(c, msgs[0].0, msgs[0].1, replies[0]);
      ProcessOnRequests(c, msgs[0].0, msgs[0].1, replies[0]);
      ServeOnRequests(c1, msgs[1..], replies[1..]);
    }
  }

  /** One message adds at most one request, the alternating history ending in that message. */
  lemma ProcessOnRequests(c: Chat, msg: string, wake: bool, reply: ModelReply)
    requires Alternating(c.history) && |c.history| % 2 == 0
    requires forall r | r in c.requests :: Alternating(r) && |r| % 2 == 1
    ensures forall r | r in ProcessOn(c, msg, wake, reply).requests :: Alternating(r) && |r| % 2 == 1
  {
    StepRequests(c, msg, Dismisses(msg), wake, reply);
  }

  lemma StepRequests(c: Chat, msg: string, dismissed: bool, wake: bool, reply: ModelReply)
    requires Alternating(c.history) && |c.history| % 2 == 0
    requires forall r | r in c.requests :: Alternating(r) && |r| % 2 == 1
    ensures forall r | r in Step(c, msg, dismissed, wake, reply).requests :: Alternating(r) && |r| % 2 == 1
  {
    var withUser := c.history + [Turn(User, msg)];
    assert Alternating(withUser) && |withUser| % 2 == 1 by {
      forall i | 0 <= i < |withUser| ensures withUser[i].role == if i % 2 == 0 then User else Assistant {
        if i < |c.history| {
          assert withUser[i] == c.history[i];
        }
      }
    }
  }

  /** The number of messages in a run that reach the model. */
  function Asked(msgs: seq<(string, bool)>, replies: seq<ModelReply>): (n: nat)
    requires |msgs| == |replies|
    ensures n <= |msgs|
    decreases |msgs|
  {
    if msgs == [] then 0
    else (if ReachesModel(Dismisses(msgs[0].0), replies[0]) then 1 else 0) + Asked(msgs[1..], replies[1..])
  }

  /**
   * Dismissals and a missing SDK never reach the model: the requests grow
   * by the other messages only.
   */
  lemma {:induction false} ServeOnAsks(c: Chat, msgs: seq<(string, bool)>, replies: seq<ModelReply>)
    requires |msgs| == |replies|
    ensures var d := ServeOn(c, msgs, replies);
      |d.requests| == |c.requests| + Asked(msgs, replies) && d.requests[..|c.requests|] == c.requests
    decreases |msgs|
  {
    if msgs != [] {
      var c1 := ProcessOn(c, msgs[0].0, msgs[0].1, replies[0]);
      ServeOnAsks(c1, msgs[1..], replies[1..]);
      var d := ServeOn(c, msgs, replies);
      assert c1.requests[..|c.requests|] == c.requests;
      assert d.requests[..|c.requests|] == d.requests[..|c1.requests|][..|c.requests|];
    }
  }

  /** One unfolding of `ServeOn` past its first message. */
  lemma ServeOnStep(c: Chat, msgs: seq<(string, bool)>, replies: seq<ModelReply>, i: nat)
    requires |msgs| == |replies| && i < |msgs|
    ensures ServeOn(c, msgs[i..], replies[i..])
            == ServeOn(ProcessOn(c, msgs[i].0, msgs[i].1, replies[i]), msgs[i + 1..], replies[i + 1..])
  {
    assert msgs[i..][0] == msgs[i] && replies[i..][0] == replies[i];
    assert msgs[i..][1..] == msgs[i + 1..] && replies[i..][1..] == replies[i + 1..];
  }

  class VoiceAssistant {
    const systemPrompt: string
    var isRunning: bool
    var isActive: bool
    var history: seq<Turn>
    /** `message_queue`, oldest first. */
    var queue: seq<(string, bool)>
    var threadsStarted: nat
    var spoken: seq<string>
    var requests: seq<seq<Turn>>

    function Snap(): Chat
      reads this
    {
      Chat(history, isActive, spoken, requests)
    }

    predicate Valid()
      reads this
    {
      Alternating(history) && |history| % 2 == 0
    }

    /** `VoiceAssistant(...)`: a missing or empty system prompt falls back to the default one. */
    constructor (systemPrompt: Option<string>)
      ensures this.systemPrompt == if systemPrompt.Some? && systemPrompt.value != "" then systemPrompt.value
                                   else DefaultSystemPrompt
      ensures !isRunning && !isActive && history == [] && queue == [] && threadsStarted == 0
      ensures spoken == [] && requests == []
      ensures Valid()
    {
      this.systemPrompt := if systemPrompt.Some? && systemPrompt.value != "" then systemPrompt.value
                           else DefaultSystemPrompt;
      isRunning := false;
      isActive := false;
      history := [];
      queue := [];
      threadsStarted := 0;
      spoken := [];
      requests := [];
    }

    /** `start()`: a second start is a no-op; the first starts one processing thread. */
    method Start()
      modifies this
      ensures isRunning && Snap() == old(Snap()) && queue == old(queue)
      ensures threadsStarted == old(threadsStarted) + (if old(isRunning) then 0 else 1)
    {
      if isRunning {
        return;
      }
      isRunning := true;
      threadsStarted := threadsStarted + 1;
    }

    method Stop()
      modifies this
      ensures !isRunning && Snap() == old(Snap()) && queue == old(queue) && threadsStarted == old(threadsStarted)
    {
      isRunning := false;
    }

    /** `process_message(msg, wake)`: queued only while running. */
    method ProcessMessage(msg: string, wake: bool)
      modifies this
      ensures queue == old(queue) + (if old(isRunning) then [(msg, wake)] else [])
      ensures isRunning == old(isRunning) && Snap() == old(Snap()) && threadsStarted == old(threadsStarted)
    {
      if !isRunning {
        return;
      }
      queue := queue + [(msg, wake)];
    }

    method ClearHistory()
      modifies this
      ensures history == [] && Valid()
      ensures isActive == old(isActive) && spoken == old(spoken) && requests == old(requests)
      ensures queue == old(queue) && isRunning == old(isRunning) && threadsStarted == old(threadsStarted)
    {
      history := [];
    }

    /** `_process_message_async(msg, wake)`; `reply` is what the model answers if it is asked. */
    method ProcessMessageAsync(msg: string, wake: bool, reply: ModelReply)
      modifies this
      ensures Snap() == ProcessOn(old(Snap()), msg, wake, reply)
      ensures old(Valid()) ==> Valid()
      ensures queue == old(queue) && isRunning == old(isRunning) && threadsStarted == old(threadsStarted)
    {
      if Valid() {
        ProcessOnAlternates(Snap(), msg, wake, reply);
      }
      if wake {
        isActive := true;
      }
      history := history + [Turn(User, msg)];
      var lowered := Strip(Lower(msg));
      if VoicePipeline.IsDismissal(lowered) {
        isActive := false;
        history := history + [Turn(Assistant, DismissalReply)];
        spoken := spoken + [DismissalReply];
        return;
      }
      if !reply.SdkMissing? {
        requests := requests + [history];
      }
      var response := ReplyText(reply);
      history := history + [Turn(Assistant, response)];
      spoken := spoken + [response];
    }

    /** One pass of `_run_assistant` that found a message: dequeue it and process it. */
    method ServeOne(reply: ModelReply)
      requires queue != []
      modifies this
      ensures Snap() == ProcessOn(old(Snap()), old(queue)[0].0, old(queue)[0].1, reply)
      ensures queue == old(queue)[1..] && isRunning == old(isRunning) && threadsStarted == old(threadsStarted)
    {
      var (msg, wake) := queue[0];
      queue := queue[1..];
      ProcessMessageAsync(msg, wake, reply);
    }

    /** `ServeOne` as a step of the run that serves `msgs` with `rs`, the `i`-th message being next. */
    method ServeNext(ghost msgs: seq<(string, bool)>, ghost rs: seq<ModelReply>, i: nat, ghost goal: Chat, reply: ModelReply)
      requires |msgs| == |rs| && i < |msgs| && queue != []
      requires queue[0] == msgs[i] && reply == rs[i]
      requires ServeOn(Snap(), msgs[i..], rs[i..]) == goal
      modifies this
      ensures ServeOn(Snap(), msgs[i + 1..], rs[i + 1..]) == goal
      ensures queue == old(queue)[1..] && isRunning == old(isRunning) && threadsStarted == old(threadsStarted)
    {
      ServeOnStep(Snap(), msgs, rs, i);
      ServeOne(reply);
    }

    /**
     * `_run_assistant`: while running, take the oldest queued message and
     * process it; `replies[i]` is what the model would answer to the i-th.
     * The run ends when the queue or the replies run out.
     */
    method RunAssistant(replies: seq<ModelReply>)
      requires Valid()
      modifies this
      ensures Valid() && isRunning == old(isRunning) && threadsStarted == old(threadsStarted)
      ensures var n := if !old(isRunning) then 0
                       else if |old(queue)| < |replies| then |old(queue)| else |replies|;
        && queue == old(queue)[n..]
        && Snap() == ServeOn(old(Snap()), old(queue)[..n], replies[..n])
    {
      var n := if !isRunning then 0 else if |queue| < |replies| then |queue| else |replies|;
      ServeFirst(n, replies);
      ServeOnAlternates(old(Snap()), old(queue)[..n], replies[..n]);
    }

    /** The loop of `_run_assistant` over its first `n` messages. */
    method ServeFirst(n: nat, replies: seq<ModelReply>)
      requires n <= |queue| && n <= |replies|
      modifies this
      ensures queue == old(queue)[n..] && isRunning == old(isRunning) && threadsStarted == old(threadsStarted)
      ensures Snap() == ServeOn(old(Snap()), old(queue)[..n], replies[..n])
    {
      ghost var msgs := queue[..n];
      ghost var rs := replies[..n];
      ghost var goal := ServeOn(Snap(), msgs, rs);
      var i := 0;
      while i < n
        invariant i <= n
        invariant isRunning == old(isRunning) && threadsStarted == old(threadsStarted)
        invariant queue == old(queue)[i..]
        invariant ServeOn(Snap(), msgs[i..], rs[i..]) == goal
      {
        ServeNext(msgs, rs, i, goal, replies[i]);
        i := i + 1;
      }
      assert msgs[n..] == [];
    }
  }
}
