/** The chat front end's turn handler (main.py, `ChatbotUI.stream_response`):
    it updates two histories in place, the messages shown in the chat
    window and the conversation handed to the agents, and streams the
    answer into the last shown message chunk by chunk. The agents are those
    of `AgentRunner`, given by the caller, and the thinking message
    `random.choice` picks is an index given by the caller. */
module ChatUI {
  import opened Text
  import opened AgentRunner

  /** A list of `{"role": ..., "content": ...}` messages updated in place. */
  class History {
    var messages: seq<Message>

    constructor(initial: seq<Message>)
      ensures messages == initial
    {
      messages := initial;
    }

    /** `history.append(message)`. */
    method Append(m: Message)
      modifies this
      ensures messages == old(messages) + [m]
    {
      messages := messages + [m];
    }

    /** `history[-1]["content"] = content`. */
    method SetLastContent(content: string)
      requires messages != []
      modifies this
      ensures |messages| == |old(messages)|
      ensures messages[..|messages| - 1] == old(messages)[..|messages| - 1]
      ensures messages[|messages| - 1] == Message(old(messages)[|messages| - 1].role, content)
    {
      var n := |messages| - 1;
      messages := messages[..n] + [Message(messages[n].role, content)];
    }

    function LastContent(): string
      reads this
      requires messages != []
    {
      messages[|messages| - 1].content
    }
  }

  const EmptyPromptReply: string := "Please enter a question."

  /** The four placeholders shown while the agents work; `pick` stands for
      the index `random.choice` draws. */
  function ThinkingMessage(pick: nat): string
    requires pick < 4
  {
    if pick == 0 then "\U{1F914} Let me think about that..."
    else if pick == 1 then "\U{1F4AD} Gathering information..."
    else if pick == 2 then "\U{1F4DA} Checking my knowledge base..."
    else "\U{26A1} Processing your question..."
  }

  /** The blank-prompt path: the fixed reply and nothing else. */
  method ReplyToBlank(chatbot: History) returns (shown: seq<seq<Message>>)
    modifies chatbot
    ensures chatbot.messages == old(chatbot.messages) + [Message("assistant", EmptyPromptReply)]
    ensures shown == [chatbot.messages]
  {
    chatbot.Append(Message("assistant", EmptyPromptReply));
    shown := [chatbot.messages];
  }

  /** The window and the conversation before the agents are called: the
      prompt shown, then the placeholder, then the placeholder emptied; the
      conversation gains the prompt. */
  method ShowPrompt(prompt: string, chatbot: History, conversation: History, placeholder: string)
    returns (shown: seq<seq<Message>>)
    requires chatbot != conversation
    modifies chatbot, conversation
    ensures chatbot.messages == old(chatbot.messages) + [Message("user", prompt), Message("assistant", "")]
    ensures conversation.messages == old(conversation.messages) + [Message("user", prompt)]
    ensures shown == [old(chatbot.messages) + [Message("user", prompt)],
                      old(chatbot.messages) + [Message("user", prompt), Message("assistant", placeholder)]]
  {
    ghost var window := chatbot.messages;
    chatbot.Append(Message("user", prompt));
    shown := [chatbot.messages];
    chatbot.Append(Message("assistant", placeholder));
    assert chatbot.messages == window + [Message("user", prompt), Message("assistant", placeholder)];
    shown := shown + [chatbot.messages];
    chatbot.SetLastContent("");
    assert chatbot.messages == window + [Message("user", prompt), Message("assistant", "")];
    conversation.Append(Message("user", prompt));
  }

  /** One turn, with `process_query` given the session id it requires and
      each final-presentation event's text added to the shown answer. A
      blank prompt gets the fixed reply and nothing else. Any other prompt
      is answered by `AnswerPrompt` with the thinking message `pick`
      selects; `raised` tells whether the agents' exception ended the turn.
      `shown` is the chat window as each UI update sends it, in order. */
  method StreamResponse(prompt: string, chatbot: History, conversation: History, pick: nat, agents: Agents)
    returns (shown: seq<seq<Message>>, raised: bool)
    requires chatbot != conversation
    requires pick < 4
    modifies chatbot, conversation
    ensures IsBlank(prompt) ==>
      chatbot.messages == old(chatbot.messages) + [Message("assistant", EmptyPromptReply)]
      && conversation.messages == old(conversation.messages)
      && shown == [chatbot.messages] && !raised
    ensures !IsBlank(prompt) ==>
      Answered(old(chatbot.messages), old(conversation.messages), chatbot.messages, conversation.messages,
               shown, raised, prompt, ThinkingMessage(pick),
               Pipeline(agents, prompt, old(conversation.messages) + [Message("user", prompt)]))
  {
    BlankIffStripEmpty(prompt);
    if prompt == "" || Strip(prompt) == "" {
      shown := ReplyToBlank(chatbot);
      return shown, false;
    }
    assert !IsBlank(prompt);
    shown, raised := AnswerPrompt(prompt, chatbot, conversation, ThinkingMessage(pick), agents);
  }

  /** The state after a non-blank prompt whose agents produced `trace`: the
      window shows the prompt and then the answer streamed so far; the
      conversation gained the prompt, and the answer when the trace
      completed; the window was sent with the prompt, then with the
      placeholder, then once per presentation fragment with the answer so
      far (the placeholder is gone before the first one). The answer kept
      for a completed trace is the runner's `final_response`. */
  ghost predicate Answered(chatbot0: seq<Message>, conversation0: seq<Message>,
                           chatbot1: seq<Message>, conversation1: seq<Message>, shown: seq<seq<Message>>,
                           raised: bool, prompt: string, placeholder: string, trace: Trace)
  {
    var asked := conversation0 + [Message("user", prompt)];
    var chunks := PresentationOutputs(trace.events);
    var answer := Concat(chunks);
    var before := chatbot0 + [Message("user", prompt)];
    raised == trace.outcome.Failed?
    && (!raised ==> answer == trace.outcome.finalResponse)
    && chatbot1 == before + [Message("assistant", answer)]
    && conversation1 == (if raised then asked else asked + [Message("assistant", answer)])
    && shown == [before, before + [Message("assistant", placeholder)]] + Progress(before, chunks)
  }

  /** The window after each chunk: the answer so far as the last message. */
  function Progress(before: seq<Message>, chunks: seq<string>): (windows: seq<seq<Message>>)
    ensures |windows| == |chunks|
    ensures forall k :: 0 <= k < |chunks| ==> windows[k] == before + [Message("assistant", Concat(chunks[..k + 1]))]
  {
    seq(|chunks|, k requires 0 <= k < |chunks| => before + [Message("assistant", Concat(chunks[..k + 1]))])
  }

  /** The non-blank path of `stream_response`; the exception that ends a
      failed query leaves the histories as they are at that point. */
  method AnswerPrompt(prompt: string, chatbot: History, conversation: History, placeholder: string, agents: Agents)
    returns (shown: seq<seq<Message>>, raised: bool)
    requires chatbot != conversation
    modifies chatbot, conversation
    ensures Answered(old(chatbot.messages), old(conversation.messages), chatbot.messages, conversation.messages,
                     shown, raised, prompt, placeholder,
                     Pipeline(agents, prompt, old(conversation.messages) + [Message("user", prompt)]))
  {
    ghost var before := chatbot.messages + [Message("user", prompt)];
    shown := ShowPrompt(prompt, chatbot, conversation, placeholder);
    assert old(chatbot.messages) + [Message("user", prompt), Message("assistant", placeholder)]
        == before + [Message("assistant", placeholder)];
    assert shown == [before, before + [Message("assistant", placeholder)]];
    var events, outcome := ProcessQuery(agents, prompt, conversation.messages);
    var streamed := StreamChunks(chatbot, before, events);
    shown := shown + streamed;
    if outcome.Failed? {
      return shown, true;
    }
    conversation.Append(Message("assistant", chatbot.LastContent()));
    raised := false;
    ghost var asked := old(conversation.messages) + [Message("user", prompt)];
    CompletedAnswer(agents, prompt, asked);
  }

  /** The streaming loop: the text of every final-presentation event is
      appended to the content of the last shown message, which starts
      empty, and the window is sent after each. */
  method StreamChunks(chatbot: History, ghost before: seq<Message>, events: seq<AgentEvent>)
    returns (shown: seq<seq<Message>>)
    requires chatbot.messages == before + [Message("assistant", "")]
    modifies chatbot
    ensures chatbot.messages == before + [Message("assistant", Concat(PresentationOutputs(events)))]
    ensures shown == Progress(before, PresentationOutputs(events))
  {
    shown := [];
    var i := 0;
    while i < |events|
      invariant 0 <= i <= |events|
      invariant chatbot.messages == before + [Message("assistant", Concat(PresentationOutputs(events[..i])))]
      invariant shown == Progress(before, PresentationOutputs(events[..i]))
    {
      ghost var chunks := PresentationOutputs(events[..i]);
      assert events[..i + 1][..i] == events[..i];
      if events[i].source == FromFinalPresentation {
        var chunk := events[i].output;
        assert PresentationOutputs(events[..i + 1]) == chunks + [chunk];
        ConcatSnoc(chunks, chunk);
        chatbot.SetLastContent(chatbot.LastContent() + chunk);
        shown := shown + [chatbot.messages];
        ProgressSnoc(before, chunks, chunk);
      } else {
        assert PresentationOutputs(events[..i + 1]) == chunks;
      }
      i := i + 1;
    }
    assert events[..i] == events;
  }

  lemma ProgressSnoc(before: seq<Message>, chunks: seq<string>, chunk: string)
    ensures Progress(before, chunks + [chunk])
         == Progress(before, chunks) + [before + [Message("assistant", Concat(chunks + [chunk]))]]
  {
    var c := chunks + [chunk];
    var longer := Progress(before, c);
    var extended := Progress(before, chunks) + [before + [Message("assistant", Concat(c))]];
    forall k | 0 <= k < |longer| ensures longer[k] == extended[k] {
      if k < |chunks| {
        assert c[..k + 1] == chunks[..k + 1];
      } else {
        assert c[..k + 1] == c;
      }
    }
  }

  // ---------------------------------------------------------------------
  // The handler as written

  /** `stream_response` as written: `process_query` is called without its
      `session_id` argument, which raises TypeError at the call. The
      window is left with the emptied placeholder and the conversation
      with the unanswered prompt. */
  method StreamResponseAsWritten(prompt: string, chatbot: History, conversation: History, pick: nat)
    returns (shown: seq<seq<Message>>, raised: bool)
    requires chatbot != conversation
    requires pick < 4
    modifies chatbot, conversation
    ensures IsBlank(prompt) ==>
      chatbot.messages == old(chatbot.messages) + [Message("assistant", EmptyPromptReply)]
      && conversation.messages == old(conversation.messages)
      && shown == [chatbot.messages] && !raised
    ensures !IsBlank(prompt) ==>
      raised
      && chatbot.messages == old(chatbot.messages) + [Message("user", prompt), Message("assistant", "")]
      && conversation.messages == old(conversation.messages) + [Message("user", prompt)]
      && shown == [old(chatbot.messages) + [Message("user", prompt)],
                   old(chatbot.messages) + [Message("user", prompt), Message("assistant", ThinkingMessage(pick))]]
  {
    BlankIffStripEmpty(prompt);
    if prompt == "" || Strip(prompt) == "" {
      shown := ReplyToBlank(chatbot);
      return shown, false;
    }
    assert !IsBlank(prompt);
    shown := ShowPrompt(prompt, chatbot, conversation, ThinkingMessage(pick));
    raised := true;
  }

  /** With the session id supplied, line 68 as written would still raise
      before the content changes: every query either yields an event
      first, an `AgentEvent` that cannot be added to a `str`, or fails
      before yielding anything. */
  lemma EveryTurnRaisesAsWritten(agents: Agents, prompt: string, conversation: seq<Message>)
    ensures Pipeline(agents, prompt, conversation).events != []
         || (Pipeline(agents, prompt, conversation).outcome.Failed? && agents.orchestrator(conversation).None?)
  {
    RouteEventFirst(agents, prompt, conversation);
  }

  /** The non-blank path of `stream_response` as written at line 68, with
      the session id supplied: the first event reaches
      `chatbot[-1]["content"] += chunk`, which raises because the event is
      not a `str`, and a query that fails before yielding raises as well.
      Either way no answer text is ever shown: the window is left with the
      prompt and the emptied placeholder, the conversation with the
      unanswered prompt, and the window was sent only twice. */
  method AnswerPromptAsWritten(prompt: string, chatbot: History, conversation: History, placeholder: string, agents: Agents)
    returns (shown: seq<seq<Message>>, raised: bool)
    requires chatbot != conversation
    modifies chatbot, conversation
    ensures raised
    ensures chatbot.messages == old(chatbot.messages) + [Message("user", prompt), Message("assistant", "")]
    ensures conversation.messages == old(conversation.messages) + [Message("user", prompt)]
    ensures shown == [old(chatbot.messages) + [Message("user", prompt)],
                      old(chatbot.messages) + [Message("user", prompt), Message("assistant", placeholder)]]
  {
    shown := ShowPrompt(prompt, chatbot, conversation, placeholder);
    var events, outcome := ProcessQuery(agents, prompt, conversation.messages);
    EveryTurnRaisesAsWritten(agents, prompt, conversation.messages);
    if events != [] {
      return shown, true;
    }
    assert outcome.Failed?;
    raised := true;
  }
}
