/** The agent's session: the state it keeps (conversation flag, transparency
    flag, memory items, context items), the parts of the page it writes (the
    message thread, the reference count, the reasoning panel, the context bar),
    and the operations that change them. A turn runs synchronously: the user
    message, then the reasoning steps when they are switched on, then the answer. */
module Session {
  import opened Text
  import opened Classifier
  import opened Responses
  import opened Citations

  datatype Role = User | Agent

  /** One entry of the message thread; only answers carry citation chips. */
  datatype Message = Message(role: Role, text: string, citations: seq<Source>)

  datatype Option<T> = None | Some(value: T)

  /** The reasoning labels, revealed in this order when the process is shown. */
  const ThinkingLabels: seq<string> := [
    "\U{1F4D6} Consulting Leonardo's codices...",
    "\U{1F52C} Analyzing natural principles...",
    "\U{2699}\U{FE0F} Synthesizing mechanical solutions...",
    "\U{1F3A8} Applying aesthetic proportions...",
    "\U{1F4A1} Formulating innovative approach..."
  ]

  /** The manuscripts the attach button adds as context. */
  const Manuscripts: seq<string> := [
    "Codex Atlanticus - Folio 812",
    "Windsor RL 19037r - Anatomy",
    "Codex Leicester - Water Studies"
  ]

  /** The codices counted as active references on top of the memory items. */
  const CodexBaseline: nat := 4

  /** `answer` is the entry of `responses` for what one of the two
      classifiers makes of `question`: the keyword search of a typed message
      or the chain of a prompt card. */
  ghost predicate Answers(responses: map<string, string>, question: string, answer: string) {
    Tag(General) in responses
    && (answer == Lookup(responses, Tag(ClassifyText(question)))
        || answer == Lookup(responses, Tag(ClassifyPrompt(question))))
  }

  /** Entry `i` of a thread of alternating questions and answers: even entries
      are user messages without chips, odd ones answer the entry before them
      and carry a valid chip selection. */
  ghost predicate WellFormedAt(responses: map<string, string>, t: seq<Message>, i: int)
    requires 0 <= i < |t|
  {
    if i % 2 == 0 then t[i].role == User && t[i].citations == []
    else t[i].role == Agent && ValidSelection(t[i].citations) && Answers(responses, t[i - 1].text, t[i].text)
  }

  ghost predicate Alternates(responses: map<string, string>, t: seq<Message>) {
    forall i :: 0 <= i < |t| ==> WellFormedAt(responses, t, i)
  }

  /** Appending an entry that fits its position keeps the thread alternating. */
  lemma AppendEntry(responses: map<string, string>, t: seq<Message>, m: Message)
    requires Alternates(responses, t)
    requires WellFormedAt(responses, t + [m], |t|)
    ensures Alternates(responses, t + [m])
  {
    var u := t + [m];
    forall i | 0 <= i < |u| ensures WellFormedAt(responses, u, i) {
      if i < |t| {
        assert WellFormedAt(responses, t, i);
        assert u[i] == t[i];
        assert i > 0 ==> u[i - 1] == t[i - 1];
      }
    }
  }

  /** With the agent's own table, an answer in the thread is the canned
      answer for the topic one of the classifiers gives its question. */
  lemma AnswersAreCanned(question: string, answer: string)
    requires Answers(ResponseTable, question, answer)
    ensures answer == Canned(ClassifyText(question)) || answer == Canned(ClassifyPrompt(question))
  {
    var typed := ResponseFor(Tag(ClassifyText(question)));
    var card := ResponseFor(Tag(ClassifyPrompt(question)));
  }

  class Agent {
    /** The canned answers, keyed by response type. */
    const responses: map<string, string>

    // The agent's own state.
    var conversationActive: bool
    var showThinkingProcess: bool
    var memoryItems: seq<string>
    var contextItems: seq<string>

    // What the agent writes on the page.
    /** The message box. */
    var inputValue: string
    /** The message thread. */
    var transcript: seq<Message>
    /** The number shown as "<n> references active"; None until first written. */
    var sourcesCount: Option<nat>
    /** Welcome section hidden; conversation area, new-chat button and sources panel shown. */
    var conversationShown: bool
    var thinkingShown: bool
    /** The labels in the reasoning panel. */
    var thinkingSteps: seq<string>
    var contextBarShown: bool
    /** The text of the transparency button; None until first written. */
    var transparencyLabel: Option<string>

    /** Holds at every point of the session: the conversation panel is shown
        exactly while the conversation is active; while it is active, the count
        shown is the memory items plus the four codices; while it is not,
        thread and memory are empty; the thread alternates question and answer,
        each answer the table's entry for its question; and there is one
        memory item per answer. */
    ghost predicate Consistent()
      reads this
    {
      Tag(General) in responses
      && conversationShown == conversationActive
      && Alternates(responses, transcript)
      && |memoryItems| == |transcript| / 2
      && (conversationActive ==> sourcesCount == Some(|memoryItems| + CodexBaseline))
      && (!conversationActive ==> transcript == [] && memoryItems == [])
    }

    /** Between turns: every question has its answer and the reasoning panel is hidden. */
    ghost predicate Valid()
      reads this
    {
      Consistent() && |transcript| % 2 == 0 && !thinkingShown
    }

    /** Within a turn: the question is in the thread, its answer is not yet. */
    ghost predicate AwaitingAnswer()
      reads this
    {
      Consistent() && conversationActive && |transcript| % 2 == 1
    }

    /** The home screen: no conversation, empty thread, box, memory and context. */
    ghost predicate AtHome()
      reads this
    {
      !conversationActive && !conversationShown && transcript == [] && inputValue == ""
      && !contextBarShown && contextItems == [] && memoryItems == []
    }

    /** A new agent: the canned answers loaded, inactive, transparency off,
        nothing remembered. */
    constructor ()
      ensures responses == ResponseTable
      ensures Valid() && AtHome()
      ensures !showThinkingProcess && sourcesCount == None
      ensures thinkingSteps == [] && transparencyLabel == None
    {
      responses := ResponseTable;
      conversationActive := false;
      showThinkingProcess := false;
      memoryItems := [];
      contextItems := [];
      inputValue := "";
      transcript := [];
      sourcesCount := None;
      conversationShown := false;
      thinkingShown := false;
      thinkingSteps := [];
      contextBarShown := false;
      transparencyLabel := None;
    }

    /** The transparency button: flips whether the reasoning is shown and
        relabels the button after the new setting. */
    method ToggleTransparency()
      requires Valid()
      modifies this`showThinkingProcess, this`transparencyLabel
      ensures Valid()
      ensures showThinkingProcess == !old(showThinkingProcess)
      ensures transparencyLabel == Some(if showThinkingProcess then "Hide Process" else "Show Process")
    {
      showThinkingProcess := !showThinkingProcess;
      transparencyLabel := Some(if showThinkingProcess then "Hide Process" else "Show Process");
    }

    /** Writes the reference count: the memory items plus the four codices. */
    method UpdateSourcesCount()
      modifies this`sourcesCount
      ensures sourcesCount == Some(|memoryItems| + CodexBaseline)
    {
      sourcesCount := Some(|memoryItems| + CodexBaseline);
    }

    /** Activates the conversation once: shows the conversation panel and
        writes the count; on an active conversation it changes nothing. */
    method StartConversation()
      requires Valid()
      modifies this`conversationActive, this`conversationShown, this`sourcesCount
      ensures Valid() && conversationActive
      ensures old(conversationActive) ==> unchanged(this)
      ensures !old(conversationActive) ==> sourcesCount == Some(CodexBaseline)
    {
      if !conversationActive {
        conversationActive := true;
        conversationShown := true;
        UpdateSourcesCount();
      }
    }

    /** Appends a message to the thread; an answer gets the chips the draw selects. */
    method AddMessage(text: string, sender: Role, draw: Draw)
      requires sender == Agent ==> ValidDraw(draw)
      modifies this`transcript
      ensures transcript == old(transcript)
        + [Message(sender, text, if sender == Agent then Select(draw) else [])]
    {
      var sources := if sender == Agent then Select(draw) else [];
      transcript := transcript + [Message(sender, text, sources)];
    }

    /** Reveals the five reasoning labels one after another. */
    method ShowThinkingSteps()
      modifies this`thinkingShown, this`thinkingSteps
      ensures thinkingShown && thinkingSteps == ThinkingLabels
    {
      thinkingShown := true;
      thinkingSteps := [];
      for i := 0 to |ThinkingLabels|
        invariant thinkingShown && thinkingSteps == ThinkingLabels[..i]
      {
        thinkingSteps := thinkingSteps + [ThinkingLabels[i]];
      }
    }

    /** Delivers the answer of a turn: the reasoning steps when they are
        switched on, then the canned answer for the response type with its
        chips, one more memory item, the count rewritten, the panel hidden. */
    method ProcessAgentResponse(responseType: string, draw: Draw, time: string)
      requires AwaitingAnswer() && ValidDraw(draw)
      requires var question := transcript[|transcript| - 1].text;
        responseType == Tag(ClassifyText(question)) || responseType == Tag(ClassifyPrompt(question))
      modifies this`thinkingShown, this`thinkingSteps, this`transcript, this`memoryItems, this`sourcesCount
      ensures Valid()
      ensures transcript == old(transcript) + [Message(Agent, Lookup(responses, responseType), Select(draw))]
      ensures memoryItems == old(memoryItems) + ["Analysis at " + time]
      ensures sourcesCount == Some(|memoryItems| + CodexBaseline)
      ensures old(showThinkingProcess) ==> thinkingSteps == ThinkingLabels
      ensures !old(showThinkingProcess) ==> thinkingSteps == old(thinkingSteps)
    {
      if showThinkingProcess {
        ShowThinkingSteps();
      }
      var response := Lookup(responses, responseType);
      AppendEntry(responses, transcript, Message(Agent, response, Select(draw)));
      AddMessage(response, Agent, draw);
      memoryItems := memoryItems + ["Analysis at " + time];
      UpdateSourcesCount();
      thinkingShown := false;
    }

    /** The send button: a blank message box changes nothing; otherwise the
        trimmed text is submitted. */
    method SendMessage(draw: Draw, time: string)
      requires Valid() && ValidDraw(draw)
      modifies this`conversationActive, this`conversationShown, this`sourcesCount, this`transcript,
        this`memoryItems, this`thinkingShown, this`thinkingSteps, this`inputValue
      ensures Valid()
      ensures Trim(old(inputValue)) == [] ==> unchanged(this)
      ensures Trim(old(inputValue)) != [] ==>
        var message := Trim(old(inputValue));
        conversationActive && inputValue == ""
        && transcript == old(transcript) + [
             Message(User, message, []),
             Message(Agent, Lookup(responses, Tag(ClassifyText(message))), Select(draw))]
        && memoryItems == old(memoryItems) + ["Analysis at " + time]
        && sourcesCount == Some(|memoryItems| + CodexBaseline)
        && (old(showThinkingProcess) ==> thinkingSteps == ThinkingLabels)
        && (!old(showThinkingProcess) ==> thinkingSteps == old(thinkingSteps))
    {
      var message := Trim(inputValue);
      if message == [] {
        return;
      }
      SubmitMessage(message, draw, time);
    }

    /** The rest of a send, once the trimmed text is known to be non-blank:
        it becomes the question, the box is cleared, and the answer is the
        table's entry for the keyword search's topic. */
    method SubmitMessage(message: string, draw: Draw, time: string)
      requires Valid() && ValidDraw(draw)
      modifies this`conversationActive, this`conversationShown, this`sourcesCount, this`transcript,
        this`memoryItems, this`thinkingShown, this`thinkingSteps, this`inputValue
      ensures Valid() && conversationActive && inputValue == ""
      ensures transcript == old(transcript) + [
                Message(User, message, []),
                Message(Agent, Lookup(responses, Tag(ClassifyText(message))), Select(draw))]
      ensures memoryItems == old(memoryItems) + ["Analysis at " + time]
      ensures sourcesCount == Some(|memoryItems| + CodexBaseline)
      ensures old(showThinkingProcess) ==> thinkingSteps == ThinkingLabels
      ensures !old(showThinkingProcess) ==> thinkingSteps == old(thinkingSteps)
    {
      StartConversation();
      AppendEntry(responses, transcript, Message(User, message, []));
      AddMessage(message, User, draw);
      inputValue := "";
      assert AwaitingAnswer() && transcript[|transcript| - 1].text == message;
      var responseType := ClassifyMessage(message);
      ProcessAgentResponse(Tag(responseType), draw, time);
    }

    /** A prompt card: its text, as it is, becomes the question, and the
        answer is the canned one for the prompt-card chain's topic. The
        message box is left alone. */
    method HandlePromptCard(prompt: string, draw: Draw, time: string)
      requires Valid() && ValidDraw(draw)
      modifies this`conversationActive, this`conversationShown, this`sourcesCount, this`transcript,
        this`memoryItems, this`thinkingShown, this`thinkingSteps
      ensures Valid() && conversationActive
      ensures transcript == old(transcript) + [
                Message(User, prompt, []),
                Message(Agent, Lookup(responses, Tag(ClassifyPrompt(prompt))), Select(draw))]
      ensures memoryItems == old(memoryItems) + ["Analysis at " + time]
      ensures sourcesCount == Some(|memoryItems| + CodexBaseline)
      ensures old(showThinkingProcess) ==> thinkingSteps == ThinkingLabels
      ensures !old(showThinkingProcess) ==> thinkingSteps == old(thinkingSteps)
    {
      StartConversation();
      AppendEntry(responses, transcript, Message(User, prompt, []));
      AddMessage(prompt, User, draw);
      assert AwaitingAnswer() && transcript[|transcript| - 1].text == prompt;
      var responseType := ClassifyPrompt(prompt);
      ProcessAgentResponse(Tag(responseType), draw, time);
    }

    /** The attach button: shows the context bar and adds the three
        manuscripts again, without checking for ones already there. */
    method ShowContextBar()
      requires Valid()
      modifies this`contextBarShown, this`contextItems
      ensures Valid() && contextBarShown
      ensures contextItems == old(contextItems) + Manuscripts
    {
      contextBarShown := true;
      contextItems := contextItems + Manuscripts;
    }

    /** The new-chat button: back to the home screen, forgetting the thread,
        the memory and the context; the transparency setting, the count last
        written and the reasoning panel are left as they are. A second reset
        changes nothing. */
    method ResetToHome()
      requires Valid()
      modifies this`conversationActive, this`conversationShown, this`transcript, this`inputValue,
        this`contextBarShown, this`contextItems, this`memoryItems
      ensures Valid() && AtHome()
      ensures old(AtHome()) ==> unchanged(this)
    {
      conversationActive := false;
      conversationShown := false;
      transcript := [];
      inputValue := "";
      contextBarShown := false;
      contextItems := [];
      memoryItems := [];
    }
  }
}
