/** The chat-assistant widget (src/components/Chatbot.tsx): a transcript seeded
    with a greeting, an input buffer, a loading flag, the resume text loaded once
    at mount, and the submit pipeline that grounds a prompt on the resume and the
    current question and appends the model's reply or an error explanation.

    The resume `fetch` and the model's `generateContent` are outside calls; their
    results enter as `FetchOutcome` and `ModelOutcome` values.  The asynchronous
    send is split at its first `await`: `BeginSend` runs everything before it,
    `CompleteSend` everything after the model answers. */
module Chatbot {
  import opened JsText
  import opened Wrappers

  datatype Sender = User | Bot

  /** A transcript entry; the timestamp is left out. */
  datatype Message = Message(id: string, text: string, sender: Sender)

  const GreetingText: string :=
    "Hi! I'm Pranav's AI assistant. Ask me anything about his work, skills, or experience!"
  const Greeting: Message := Message("1", GreetingText, Bot)

  const MissingKeyText: string :=
    "Gemini API key not found. Please set VITE_GEMINI_API_KEY in your .env file."
  const ResumeMissingText: string :=
    "Resume content not loaded yet. Please try again in a moment."
  const FallbackErrorText: string :=
    "Sorry, I encountered an error. Please check your configuration."

  const ModelName: string := "gemini-2.5-flash"

  /** The prompt template, split around its two interpolations. */
  const PromptHead: string :=
    "\n        You are a helpful assistant for Pranav's portfolio website. \n" +
    "        Answer the user's question using ONLY the context provided below from his resume.\n" +
    "        If the information is not in the resume, politely say you don't have that information.\n" +
    "        Keep your answers concise, professional, and friendly.\n" +
    "\n" +
    "        RESUME CONTEXT:\n" +
    "        "
  const PromptMiddle: string := "\n\n        USER QUESTION:\n        "
  const PromptTail: string := "\n      "

  /** What the resume `fetch` produced: an ok response with its body, a response
      that is not ok, or a thrown error. */
  datatype FetchOutcome = FetchOk(body: string) | FetchNotOk | FetchThrew

  /** What awaiting `generateContent` and reading the response text produced:
      the text, or a thrown value, which may or may not be an `Error`. */
  datatype ModelOutcome = Reply(text: string) | Thrown(isError: bool, message: string)

  /** One call handed to the model. */
  datatype ModelRequest = ModelRequest(model: string, prompt: string)

  /** `!apiKey` for the configured key, which may be absent. */
  predicate KeyMissing(apiKey: Option<string>) {
    apiKey.None? || apiKey.value == ""
  }

  /** The grounded prompt: instruction, resume, then the current question only. */
  function BuildPrompt(resume: string, question: string): string {
    PromptHead + resume + PromptMiddle + question + PromptTail
  }

  /** The prompt starts with the fixed instruction and places the resume and then
      the question at fixed offsets. */
  lemma PromptLayout(resume: string, question: string)
    ensures var p := BuildPrompt(resume, question);
            var q0 := |PromptHead| + |resume| + |PromptMiddle|;
            && |p| == q0 + |question| + |PromptTail|
            && p[..|PromptHead|] == PromptHead
            && p[|PromptHead|..|PromptHead| + |resume|] == resume
            && p[|PromptHead| + |resume|..q0] == PromptMiddle
            && p[q0..q0 + |question|] == question
            && p[q0 + |question|..] == PromptTail
  {
    var p := BuildPrompt(resume, question);
    var h := |PromptHead|;
    var q0 := h + |resume| + |PromptMiddle|;
    assert p == (((PromptHead + resume) + PromptMiddle) + question) + PromptTail;
    assert p[..q0 + |question|] == ((PromptHead + resume) + PromptMiddle) + question;
    assert p[..q0] == (PromptHead + resume) + PromptMiddle;
    assert p[..h + |resume|] == PromptHead + resume;
    assert p[h..h + |resume|] == p[..h + |resume|][h..];
    assert p[h + |resume|..q0] == p[..q0][h + |resume|..];
    assert p[q0..q0 + |question|] == p[..q0 + |question|][q0..];
  }

  /** Given the resume, the prompt determines the question: the user's text
      reaches the model unaltered. */
  lemma PromptDeterminesQuestion(resume: string, q1: string, q2: string)
    requires BuildPrompt(resume, q1) == BuildPrompt(resume, q2)
    ensures q1 == q2
  {
    PromptLayout(resume, q1);
    PromptLayout(resume, q2);
  }

  /** Given the question, the prompt determines the resume it was grounded on. */
  lemma PromptDeterminesResume(r1: string, r2: string, question: string)
    requires BuildPrompt(r1, question) == BuildPrompt(r2, question)
    ensures r1 == r2
  {
    PromptLayout(r1, question);
    PromptLayout(r2, question);
  }

  /** The synchronous checks before the model is called, in their order: the API
      key first, then the resume.  A failed check is the `Error` it throws; a
      passed one is the request handed to the model. */
  function Prepare(apiKey: Option<string>, resume: string, question: string): (r: Result)
    ensures r.Call? <==> !KeyMissing(apiKey) && resume != ""
    ensures r.Call? ==> r.request.prompt == BuildPrompt(resume, question) && r.request.model == ModelName
    ensures r.Failed? ==> r.error == Thrown(true, if KeyMissing(apiKey) then MissingKeyText else ResumeMissingText)
  {
    if KeyMissing(apiKey) then Failed(Thrown(true, MissingKeyText))
    else if resume == "" then Failed(Thrown(true, ResumeMissingText))
    else Call(ModelRequest(ModelName, BuildPrompt(resume, question)))
  }

  datatype Result = Call(request: ModelRequest) | Failed(error: ModelOutcome)

  /** The bot message text: the model's text, or for a thrown value its message
      when it is an `Error` and the fixed apology otherwise. */
  function ReplyText(outcome: ModelOutcome): string {
    match outcome
    case Reply(text) => text
    case Thrown(isError, message) => if isError then message else FallbackErrorText
  }

  /** The bot's answer to a submit, stated without the pipeline: what the user
      reads for a given configuration, resume and model outcome. */
  function ExpectedAnswer(apiKey: Option<string>, resume: string, outcome: ModelOutcome): (text: string)
    ensures KeyMissing(apiKey) ==> text == MissingKeyText
    ensures !KeyMissing(apiKey) && resume == "" ==> text == ResumeMissingText
    ensures !KeyMissing(apiKey) && resume != "" && outcome.Reply? ==> text == outcome.text
    ensures !KeyMissing(apiKey) && resume != "" && outcome.Thrown? ==>
              text == (if outcome.isError then outcome.message else FallbackErrorText)
  {
    if KeyMissing(apiKey) then MissingKeyText
    else if resume == "" then ResumeMissingText
    else ReplyText(outcome)
  }

  function UserMessage(now: nat, text: string): Message {
    Message(NatToString(now), text, User)
  }

  /** Bot messages take the id `(Date.now() + 1).toString()`. */
  function BotMessage(now: nat, text: string): Message {
    Message(NatToString(now + 1), text, Bot)
  }

  /** The whole widget state.  `inFlight` is the model request the suspended send
      awaits; `resumeSettled` records that the mount effect's fetch has finished. */
  datatype ChatState = ChatState(
    isOpen: bool,
    isMinimized: bool,
    messages: seq<Message>,
    inputValue: string,
    isLoading: bool,
    resumeContent: string,
    inFlight: Option<ModelRequest>,
    resumeSettled: bool)

  /** The state at mount. */
  function Init(): (s: ChatState)
    ensures !s.isOpen && !s.isMinimized
    ensures s.messages == [Greeting] && s.messages[0].id == "1" && s.messages[0].sender == Bot
    ensures !s.isLoading && s.inputValue == "" && s.resumeContent == ""
    ensures Valid(s)
  {
    ChatState(false, false, [Greeting], "", false, "", None, false)
  }

  /** After the greeting the transcript alternates user and bot messages;
      while a send is in flight it ends with the user message awaiting a reply. */
  ghost predicate Paired(messages: seq<Message>, loading: bool) {
    && |messages| >= 1
    && messages[0] == Greeting
    && (forall i :: 1 <= i < |messages| ==> messages[i].sender == (if i % 2 == 1 then User else Bot))
    && (|messages| % 2 == 0 <==> loading)
  }

  /** The widget invariant. */
  ghost predicate Valid(s: ChatState) {
    && Paired(s.messages, s.isLoading)
    && (s.isLoading <==> s.inFlight.Some?)
    && (!s.resumeSettled ==> s.resumeContent == "")
  }

  /** `setIsOpen(true)` from the launcher button. */
  function Open(s: ChatState): (t: ChatState)
    ensures t.isOpen && t.isMinimized == s.isMinimized
    ensures t.(isOpen := s.isOpen) == s
  {
    s.(isOpen := true)
  }

  /** `setIsMinimized(!isMinimized)` from the header button. */
  function ToggleMinimize(s: ChatState): (t: ChatState)
    ensures t.isMinimized != s.isMinimized
    ensures t.(isMinimized := s.isMinimized) == s
  {
    s.(isMinimized := !s.isMinimized)
  }

  /** `setIsOpen(false)` from the close button; `isMinimized` is kept. */
  function Close(s: ChatState): (t: ChatState)
    ensures !t.isOpen && t.isMinimized == s.isMinimized
    ensures t.(isOpen := s.isOpen) == s
  {
    s.(isOpen := false)
  }

  /** The input's `onChange`. */
  function SetInput(s: ChatState, text: string): ChatState {
    s.(inputValue := text)
  }

  /** The chat area and the input are rendered only when open and not minimized. */
  predicate ChatAreaShown(s: ChatState) {
    s.isOpen && !s.isMinimized
  }

  /** The synchronous start of a non-blank submit: append the user message with
      the untrimmed text, clear the input and set loading. */
  function Submitted(s: ChatState, now: nat): (t: ChatState)
    ensures t.messages == s.messages + [UserMessage(now, s.inputValue)]
    ensures t.inputValue == "" && t.isLoading
    ensures t.(messages := s.messages, inputValue := s.inputValue, isLoading := s.isLoading) == s
  {
    s.(messages := s.messages + [UserMessage(now, s.inputValue)], inputValue := "", isLoading := true)
  }

  /** The outcome of the checks: a request goes in flight, or the thrown check is
      caught at once, its bot message (clock `errNow`) appended and loading cleared. */
  function Dispatch(s: ChatState, prepared: Result, errNow: nat): ChatState {
    match prepared
    case Call(request) => s.(inFlight := Some(request))
    case Failed(error) =>
      s.(messages := s.messages + [BotMessage(errNow, ReplyText(error))], isLoading := false)
  }

  /** `handleSendMessage` up to its first `await`: a blank input is rejected;
      otherwise `Submitted`, then the precondition checks on the question and the
      resume the handler sees. */
  function Begin(s: ChatState, apiKey: Option<string>, now: nat, errNow: nat): ChatState {
    if IsBlank(s.inputValue) then s
    else Dispatch(Submitted(s, now), Prepare(apiKey, s.resumeContent, s.inputValue), errNow)
  }

  /** `handleSendMessage` after the model answered (clock `now`): append the reply
      or the caught error's text, then clear loading in `finally`. */
  function Complete(s: ChatState, outcome: ModelOutcome, now: nat): (t: ChatState)
    requires s.inFlight.Some?
    ensures t.messages == s.messages + [BotMessage(now, ReplyText(outcome))]
    ensures !t.isLoading && t.inFlight.None?
    ensures t.isOpen == s.isOpen && t.isMinimized == s.isMinimized && t.inputValue == s.inputValue
    ensures t.resumeContent == s.resumeContent && t.resumeSettled == s.resumeSettled
  {
    s.(messages := s.messages + [BotMessage(now, ReplyText(outcome))],
       isLoading := false, inFlight := None)
  }

  /** The mount effect's resume loader settling: the body is kept only for an ok
      response; a response that is not ok or a thrown error leave it empty. */
  function LoadResume(s: ChatState, fetched: FetchOutcome): (t: ChatState)
    requires !s.resumeSettled
    ensures t.resumeSettled
    ensures t.resumeContent == (if fetched.FetchOk? then fetched.body else s.resumeContent)
    ensures t.messages == s.messages && t.isLoading == s.isLoading && t.inFlight == s.inFlight
    ensures t.(resumeContent := s.resumeContent, resumeSettled := s.resumeSettled) == s
  {
    match fetched
    case FetchOk(body) => s.(resumeContent := body, resumeSettled := true)
    case FetchNotOk => s.(resumeSettled := true)
    case FetchThrew => s.(resumeSettled := true)
  }

  /** `handleKeyPress`: Enter without Shift submits. */
  predicate IsSubmitKey(key: string, shiftKey: bool) {
    key == "Enter" && !shiftKey
  }

  // ---------------------------------------------------------------------------
  // Properties of the pipeline

  /** `Begin` on a non-blank input, one branch per outcome of the checks. */
  lemma BeginUnfold(s: ChatState, apiKey: Option<string>, now: nat, errNow: nat)
    requires !IsBlank(s.inputValue)
    ensures var sent := Submitted(s, now);
            var prepared := Prepare(apiKey, s.resumeContent, s.inputValue);
            && (prepared.Call? ==> Begin(s, apiKey, now, errNow) == sent.(inFlight := Some(prepared.request)))
            && (prepared.Failed? ==>
                  Begin(s, apiKey, now, errNow) ==
                  sent.(messages := s.messages + [UserMessage(now, s.inputValue), BotMessage(errNow, ReplyText(prepared.error))],
                        isLoading := false))
  {
    var sent := Submitted(s, now);
    var prepared := Prepare(apiKey, s.resumeContent, s.inputValue);
    assert Begin(s, apiKey, now, errNow) == Dispatch(sent, prepared, errNow);
    if prepared.Failed? {
      assert sent.messages + [BotMessage(errNow, ReplyText(prepared.error))] ==
             s.messages + [UserMessage(now, s.inputValue), BotMessage(errNow, ReplyText(prepared.error))];
    }
  }

  /** A blank or white-space-only input changes nothing and opens no model call. */
  lemma BlankSubmitIsNoOp(s: ChatState, apiKey: Option<string>, now: nat, errNow: nat)
    requires forall i :: 0 <= i < |s.inputValue| ==> IsJsWhiteSpace(s.inputValue[i])
    ensures Begin(s, apiKey, now, errNow) == s
  {
    BlankIffAllWhiteSpace(s.inputValue);
  }

  /** A missing API key is reported first, whatever the resume; no model call. */
  lemma MissingKeyFailsFast(s: ChatState, apiKey: Option<string>, now: nat, errNow: nat)
    requires !IsBlank(s.inputValue) && KeyMissing(apiKey)
    ensures var t := Begin(s, apiKey, now, errNow);
            && t.inFlight == s.inFlight
            && t.messages == s.messages + [UserMessage(now, s.inputValue), BotMessage(errNow, MissingKeyText)]
            && !t.isLoading
  {
    BeginUnfold(s, apiKey, now, errNow);
  }

  /** With a key but no resume, the resume error is reported; no model call. */
  lemma MissingResumeFailsFast(s: ChatState, apiKey: Option<string>, now: nat, errNow: nat)
    requires !IsBlank(s.inputValue) && !KeyMissing(apiKey) && s.resumeContent == ""
    ensures var t := Begin(s, apiKey, now, errNow);
            && t.inFlight == s.inFlight
            && t.messages == s.messages + [UserMessage(now, s.inputValue), BotMessage(errNow, ResumeMissingText)]
            && !t.isLoading
  {
    BeginUnfold(s, apiKey, now, errNow);
  }

  /** With both preconditions met the send stays loading, and the model receives
      exactly the prompt grounded on the resume and this question. */
  lemma CallStartsLoading(s: ChatState, apiKey: Option<string>, now: nat, errNow: nat)
    requires !IsBlank(s.inputValue) && !KeyMissing(apiKey) && s.resumeContent != ""
    ensures var t := Begin(s, apiKey, now, errNow);
            && t.isLoading
            && t.messages == s.messages + [UserMessage(now, s.inputValue)]
            && t.inFlight == Some(ModelRequest(ModelName, BuildPrompt(s.resumeContent, s.inputValue)))
  {
    BeginUnfold(s, apiKey, now, errNow);
  }

  /** The prompt ignores the transcript: two states that differ only in their
      messages send the same request. */
  lemma GroundingWindowIsOne(s1: ChatState, s2: ChatState, apiKey: Option<string>, now: nat, errNow: nat)
    requires s1.inputValue == s2.inputValue && s1.resumeContent == s2.resumeContent
    requires s1.inFlight == s2.inFlight
    ensures Begin(s2, apiKey, now, errNow).inFlight == Begin(s1, apiKey, now, errNow).inFlight
  {
  }

  /** The state once a send has finished: settled at once, or after the model's answer. */
  function Send(s: ChatState, apiKey: Option<string>, now: nat, errNow: nat, outcome: ModelOutcome, later: nat): ChatState
    requires !s.isLoading && Valid(s)
  {
    var t := Begin(s, apiKey, now, errNow);
    if t.inFlight.Some? then Complete(t, outcome, later) else t
  }

  /** Whatever the outcome, a non-blank send ends with the transcript exactly two
      messages longer, the user's then the bot's, earlier messages unchanged,
      loading cleared, and the bot text the one `ExpectedAnswer` gives. */
  lemma SendAppendsExchange(s: ChatState, apiKey: Option<string>, now: nat, errNow: nat, outcome: ModelOutcome, later: nat)
    requires Valid(s) && !s.isLoading && !IsBlank(s.inputValue)
    ensures var u := Send(s, apiKey, now, errNow, outcome, later);
            var clock := if Begin(s, apiKey, now, errNow).inFlight.Some? then later else errNow;
            && u.messages == s.messages + [UserMessage(now, s.inputValue),
                                           BotMessage(clock, ExpectedAnswer(apiKey, s.resumeContent, outcome))]
            && !u.isLoading && u.inFlight.None? && u.inputValue == ""
  {
    BeginUnfold(s, apiKey, now, errNow);
  }

  // ---------------------------------------------------------------------------
  // Reachable states

  /** The events the rendered widget accepts. */
  datatype Event =
    | OpenClicked
    | MinimizeClicked
    | CloseClicked
    | Typed(text: string)
    | SendClicked(now: nat, errNow: nat)
    | KeyPressed(key: string, shiftKey: bool, now: nat, errNow: nat)
    | ModelAnswered(outcome: ModelOutcome, now: nat)
    | ResumeFetched(fetched: FetchOutcome)

  /** Whether the event can happen in `s`: the launcher exists only while closed,
      the header buttons only while open, the input and send button only while the
      chat area is shown, and both are disabled while loading; a model answer needs
      a request in flight, and the resume loader settles once. */
  predicate Enabled(s: ChatState, e: Event) {
    match e
    case OpenClicked => !s.isOpen
    case MinimizeClicked => s.isOpen
    case CloseClicked => s.isOpen
    case Typed(_) => ChatAreaShown(s) && !s.isLoading
    case SendClicked(_, _) => ChatAreaShown(s) && !s.isLoading
    case KeyPressed(_, _, _, _) => ChatAreaShown(s) && !s.isLoading
    case ModelAnswered(_, _) => s.inFlight.Some?
    case ResumeFetched(_) => !s.resumeSettled
  }

  function Step(s: ChatState, apiKey: Option<string>, e: Event): ChatState
    requires Enabled(s, e)
  {
    match e
    case OpenClicked => Open(s)
    case MinimizeClicked => ToggleMinimize(s)
    case CloseClicked => Close(s)
    case Typed(text) => SetInput(s, text)
    case SendClicked(now, errNow) => Begin(s, apiKey, now, errNow)
    case KeyPressed(key, shiftKey, now, errNow) =>
      if IsSubmitKey(key, shiftKey) then Begin(s, apiKey, now, errNow) else s
    case ModelAnswered(outcome, now) => Complete(s, outcome, now)
    case ResumeFetched(fetched) => LoadResume(s, fetched)
  }

  /** Every step keeps the invariant and only ever appends to the transcript. */
  lemma StepPreservesValid(s: ChatState, apiKey: Option<string>, e: Event)
    requires Valid(s) && Enabled(s, e)
    ensures Valid(Step(s, apiKey, e))
    ensures s.messages <= Step(s, apiKey, e).messages
  {
    match e
    case SendClicked(now, errNow) => BeginPreservesValid(s, apiKey, now, errNow);
    case KeyPressed(key, shiftKey, now, errNow) =>
      if IsSubmitKey(key, shiftKey) { BeginPreservesValid(s, apiKey, now, errNow); }
    case ModelAnswered(outcome, now) =>
      PairedAppend(s.messages, true, BotMessage(now, ReplyText(outcome)));
    case _ =>
  }

  /** Appending a message from the side whose turn it is keeps the pairing, and
      flips whether a reply is awaited. */
  lemma PairedAppend(messages: seq<Message>, loading: bool, m: Message)
    requires Paired(messages, loading)
    requires m.sender == (if loading then Bot else User)
    ensures Paired(messages + [m], !loading)
  {
    var ms := messages + [m];
    forall i | 1 <= i < |ms| ensures ms[i].sender == (if i % 2 == 1 then User else Bot) {
      if i < |messages| {
        assert ms[i] == messages[i];
      }
    }
  }

  lemma BeginPreservesValid(s: ChatState, apiKey: Option<string>, now: nat, errNow: nat)
    requires Valid(s) && !s.isLoading
    ensures Valid(Begin(s, apiKey, now, errNow))
    ensures s.messages <= Begin(s, apiKey, now, errNow).messages
  {
    if !IsBlank(s.inputValue) {
      var sent := Submitted(s, now);
      PairedAppend(s.messages, false, UserMessage(now, s.inputValue));
      assert s.messages <= sent.messages;
      match Prepare(apiKey, s.resumeContent, s.inputValue)
      case Call(request) =>
        assert Begin(s, apiKey, now, errNow) == sent.(inFlight := Some(request));
      case Failed(error) =>
        var m := BotMessage(errNow, ReplyText(error));
        PairedAppend(sent.messages, true, m);
        assert Begin(s, apiKey, now, errNow) == sent.(messages := sent.messages + [m], isLoading := false);
        assert sent.messages <= sent.messages + [m];
    }
  }

  /** A sequence of events, each enabled where it happens. */
  function Run(s: ChatState, apiKey: Option<string>, events: seq<Event>): Option<ChatState>
    decreases |events|
  {
    if events == [] then Some(s)
    else if !Enabled(s, events[0]) then None
    else Run(Step(s, apiKey, events[0]), apiKey, events[1..])
  }

  /** In every state reachable from mount the invariant holds: the greeting is
      still first, user and bot messages alternate, and the transcript only grew. */
  lemma {:induction false} RunPreservesValid(s: ChatState, apiKey: Option<string>, events: seq<Event>)
    requires Valid(s)
    ensures Run(s, apiKey, events).Some? ==>
              Valid(Run(s, apiKey, events).value) && s.messages <= Run(s, apiKey, events).value.messages
    decreases |events|
  {
    if events != [] && Enabled(s, events[0]) {
      var t := Step(s, apiKey, events[0]);
      StepPreservesValid(s, apiKey, events[0]);
      RunPreservesValid(t, apiKey, events[1..]);
    }
  }

  /** Open, then the header's minimize button twice: minimizing hides the chat
      area and restoring brings it back, with the transcript kept throughout. */
  lemma MinimizeKeepsTranscript(s: ChatState)
    ensures var m := ToggleMinimize(Open(s));
            m.messages == s.messages && m.isMinimized == !s.isMinimized && m.isOpen
    ensures var r := ToggleMinimize(ToggleMinimize(Open(s)));
            r.messages == s.messages && r.isMinimized == s.isMinimized && r.isOpen
    ensures !s.isMinimized ==> !ChatAreaShown(ToggleMinimize(Open(s))) && ChatAreaShown(ToggleMinimize(ToggleMinimize(Open(s))))
  {
  }

  /** Closing does not reset `isMinimized`: a widget closed while minimized
      reopens minimized, so "minimized" is reachable straight from "closed". */
  lemma ReopenAfterMinimizedClose()
    ensures var s := Close(ToggleMinimize(Open(Init())));
            !s.isOpen && s.isMinimized && Open(s).isMinimized && !ChatAreaShown(Open(s))
  {
  }

  /** The scenario of a fresh widget that is opened and asked a question. */
  lemma FirstQuestionScenario(apiKey: Option<string>, resume: string, outcome: ModelOutcome, now: nat, later: nat)
    ensures var s := SetInput(Open(LoadResume(Init(), FetchOk(resume))), "What languages do you know?");
            var u := Send(s, apiKey, now, now, outcome, later);
            |Init().messages| == 1 && |u.messages| == 3 && u.messages[2].sender == Bot
  {
    var s := SetInput(Open(LoadResume(Init(), FetchOk(resume))), "What languages do you know?");
    assert !IsBlank(s.inputValue) by {
      BlankIffAllWhiteSpace(s.inputValue);
      assert !IsJsWhiteSpace(s.inputValue[0]);
    }
    SendAppendsExchange(s, apiKey, now, now, outcome, later);
  }

  // ---------------------------------------------------------------------------
  // The component, with its state fields updated in place

  class ChatWidget {
    const apiKey: Option<string>
    var isOpen: bool
    var isMinimized: bool
    var messages: seq<Message>
    var inputValue: string
    var isLoading: bool
    var resumeContent: string
    var inFlight: Option<ModelRequest>
    var resumeSettled: bool

    function View(): ChatState
      reads this
    {
      ChatState(isOpen, isMinimized, messages, inputValue, isLoading, resumeContent, inFlight, resumeSettled)
    }

    /** Mounting the component with the build's configured key. */
    constructor (apiKey: Option<string>)
      ensures this.apiKey == apiKey && View() == Init() && Valid(View())
    {
      this.apiKey := apiKey;
      isOpen, isMinimized := false, false;
      messages := [Greeting];
      inputValue, isLoading := "", false;
      resumeContent := "";
      inFlight, resumeSettled := None, false;
    }

    method OpenWidget()
      modifies this
      ensures View() == Open(old(View()))
    {
      isOpen := true;
    }

    method ToggleMinimized()
      modifies this
      ensures View() == ToggleMinimize(old(View()))
    {
      isMinimized := !isMinimized;
    }

    method CloseWidget()
      modifies this
      ensures View() == Close(old(View()))
    {
      isOpen := false;
    }

    method InputChanged(text: string)
      modifies this
      ensures View() == SetInput(old(View()), text)
    {
      inputValue := text;
    }

    /** The resume loader's continuation, run once after mount. */
    method ResumeLoaded(fetched: FetchOutcome)
      requires Valid(View()) && !resumeSettled
      modifies this
      ensures View() == LoadResume(old(View()), fetched) && Valid(View())
    {
      match fetched {
        case FetchOk(body) => resumeContent := body;
        case FetchNotOk =>
        case FetchThrew =>
      }
      resumeSettled := true;
    }

    /** Submit up to the model call.  The source does not test `isLoading` here;
        the disabled input and send button keep a second submit out, which this
        precondition stands for. */
    method BeginSend(now: nat, errNow: nat)
      requires Valid(View()) && !isLoading
      modifies this
      ensures View() == Begin(old(View()), apiKey, now, errNow) && Valid(View())
    {
      ghost var s := View();
      BeginPreservesValid(s, apiKey, now, errNow);
      if IsBlank(inputValue) {
        return;
      }
      var question := inputValue;
      AppendUserMessage(now);
      var prepared := Prepare(apiKey, resumeContent, question);
      Settle(prepared, errNow);
    }

    /** `setMessages`, `setInputValue('')` and `setIsLoading(true)`. */
    method AppendUserMessage(now: nat)
      modifies this
      ensures View() == Submitted(old(View()), now)
    {
      messages := messages + [UserMessage(now, inputValue)];
      inputValue := "";
      isLoading := true;
    }

    /** Hands the request to the model, or catches the failed check. */
    method Settle(prepared: Result, errNow: nat)
      modifies this
      ensures View() == Dispatch(old(View()), prepared, errNow)
    {
      match prepared {
        case Call(request) =>
          inFlight := Some(request);
        case Failed(error) =>
          messages := messages + [BotMessage(errNow, ReplyText(error))];
          isLoading := false;
      }
    }

    /** The model answered the request in flight. */
    method CompleteSend(outcome: ModelOutcome, now: nat)
      requires Valid(View()) && inFlight.Some?
      modifies this
      ensures View() == Complete(old(View()), outcome, now) && Valid(View())
    {
      StepPreservesValid(View(), apiKey, ModelAnswered(outcome, now));
      messages := messages + [BotMessage(now, ReplyText(outcome))];
      isLoading := false;
      inFlight := None;
    }

    /** `handleKeyPress`: Enter without Shift starts a send, any other key does nothing. */
    method KeyPress(key: string, shiftKey: bool, now: nat, errNow: nat)
      requires Valid(View()) && !isLoading
      modifies this
      ensures View() == (if IsSubmitKey(key, shiftKey) then Begin(old(View()), apiKey, now, errNow) else old(View()))
      ensures Valid(View())
    {
      if IsSubmitKey(key, shiftKey) {
        BeginSend(now, errNow);
      }
    }
  }
}
