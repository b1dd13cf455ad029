/**
 * The chat widget's conversation controller (src/components/ChatWidget.tsx):
 * a transcript of display messages, the role-tagged history sent to the
 * completion service, the typing flag, the input box and the open flag.
 *
 * A send runs to completion before the next one starts, and the completion
 * service is a function from the request's history to what came back.
 */
module Chat {
  import opened JsCore

  datatype Sender = User | Bot

  /** A transcript entry. */
  datatype Message = Message(id: int, text: string, sender: Sender)

  datatype Role = SystemRole | UserRole | AssistantRole

  /** A turn of the history sent to the completion service. */
  datatype Turn = Turn(role: Role, content: string)

  /** What one completion call did: it returned its list of choices, each
      with a message content that may be null, or it threw. */
  datatype Outcome = Responded(choices: seq<Option<string>>) | Threw

  const Greeting := "Hi there! How can I help you today?"

  const SystemPrompt := "You are a helpful assistant for SoftSell, a platform that helps businesses sell unused software licenses. Answer questions about the license selling process, types of licenses accepted, payment methods, and other related inquiries. Keep responses concise and friendly."

  /** Shown and recorded when the service answers with no content. */
  const Fallback := "I'm sorry, I couldn't process your request."

  /** Shown, and not recorded, when the call fails. */
  const Apology := "I'm sorry, I encountered an error. Please try again later or contact support."

  const SampleQuestions := [
    "How do I sell my license?",
    "What types of licenses do you accept?",
    "How long does the process take?",
    "How do I get paid?"
  ]

  /** The history the widget starts with. */
  const SeedHistory := [Turn(SystemRole, SystemPrompt), Turn(AssistantRole, Greeting)]

  /** `response.choices[0].message.content || Fallback`, or `None` when the
      try block throws: the call failed, or there is no first choice to read. */
  function Reply(o: Outcome): (r: Option<string>)
    ensures r.None? <==> o.Threw? || o.choices == []
    ensures r.Some? ==> r.value != ""
    ensures r.Some? && o.choices[0].Some? && o.choices[0].value != "" ==> r.value == o.choices[0].value
    ensures r.Some? && (o.choices[0].None? || o.choices[0].value == "") ==> r.value == Fallback
  {
    match o
    case Threw => None
    case Responded(choices) =>
      if choices == [] then None
      else match choices[0]
        case Some(content) => if content != "" then Some(content) else Some(Fallback)
        case None => Some(Fallback)
  }

  /** The bot's line for a reply: the reply itself, or the apology. */
  function BotText(reply: Option<string>): string {
    match reply
    case Some(text) => text
    case None => Apology
  }

  /** One completed send: the user's text and the reply (`None`: it failed). */
  datatype Exchange = Exchange(question: string, reply: Option<string>)

  /** The transcript after a sequence of completed sends: the greeting, then
      per send the user's message and the bot's, each numbered one past the
      length of the transcript it joins. */
  ghost function Transcript(log: seq<Exchange>): seq<Message>
    decreases |log|
  {
    if log == [] then [Message(1, Greeting, Bot)]
    else
      var before := Transcript(log[..|log| - 1]);
      var e := log[|log| - 1];
      before + [Message(|before| + 1, e.question, User),
                Message(|before| + 2, BotText(e.reply), Bot)]
  }

  /** The turns a send adds to the history: the user's, and the assistant's
      only when there was a reply. */
  function ExchangeTurns(e: Exchange): seq<Turn> {
    [Turn(UserRole, e.question)]
    + (match e.reply case Some(text) => [Turn(AssistantRole, text)] case None => [])
  }

  /** The history after a sequence of completed sends. */
  ghost function History(log: seq<Exchange>): seq<Turn>
    decreases |log|
  {
    if log == [] then SeedHistory
    else History(log[..|log| - 1]) + ExchangeTurns(log[|log| - 1])
  }

  /** How many sends got a reply. */
  ghost function Answered(log: seq<Exchange>): nat
    decreases |log|
  {
    if log == [] then 0
    else Answered(log[..|log| - 1]) + (if log[|log| - 1].reply.Some? then 1 else 0)
  }

  /** The transcript has the greeting plus two entries per send, and each
      entry's id is its 1-based position. */
  lemma {:induction false} TranscriptIdsArePositions(log: seq<Exchange>)
    ensures |Transcript(log)| == 2 * |log| + 1
    ensures forall k :: 0 <= k < |Transcript(log)| ==> Transcript(log)[k].id == k + 1
    decreases |log|
  {
    if log != [] {
      TranscriptIdsArePositions(log[..|log| - 1]);
    }
  }

  /** Entry 0 is the greeting; send `j` put the user's text at entry 2j+1
      and the bot's line at entry 2j+2. */
  lemma {:induction false} TranscriptEntries(log: seq<Exchange>, j: nat)
    requires j < |log|
    ensures |Transcript(log)| == 2 * |log| + 1
    ensures Transcript(log)[0] == Message(1, Greeting, Bot)
    ensures Transcript(log)[2 * j + 1] == Message(2 * j + 2, log[j].question, User)
    ensures Transcript(log)[2 * j + 2] == Message(2 * j + 3, BotText(log[j].reply), Bot)
    decreases |log|
  {
    TranscriptIdsArePositions(log);
    var init := log[..|log| - 1];
    TranscriptIdsArePositions(init);
    if j < |log| - 1 {
      TranscriptEntries(init, j);
      assert init[j] == log[j];
    } else if init != [] {
      TranscriptEntries(init, 0);
    }
  }

  /** Later sends only append: an earlier transcript is a prefix of a later one. */
  lemma {:induction false} TranscriptIsAppendOnly(log: seq<Exchange>, more: seq<Exchange>)
    ensures Transcript(log) <= Transcript(log + more)
    decreases |more|
  {
    if more != [] {
      var all := log + more;
      assert all[..|all| - 1] == log + more[..|more| - 1];
      TranscriptIsAppendOnly(log, more[..|more| - 1]);
      assert Transcript(all[..|all| - 1]) <= Transcript(all);
    } else {
      assert log + more == log;
    }
  }

  /** Later sends only append to the history too. */
  lemma {:induction false} HistoryIsAppendOnly(log: seq<Exchange>, more: seq<Exchange>)
    ensures History(log) <= History(log + more)
    decreases |more|
  {
    if more != [] {
      var all := log + more;
      assert all[..|all| - 1] == log + more[..|more| - 1];
      HistoryIsAppendOnly(log, more[..|more| - 1]);
      assert History(all[..|all| - 1]) <= History(all);
    } else {
      assert log + more == log;
    }
  }

  /** The history is the two seed turns, one user turn per send and one
      assistant turn per send that got a reply. */
  lemma {:induction false} HistoryLength(log: seq<Exchange>)
    ensures |History(log)| == 2 + |log| + Answered(log)
    ensures History(log)[..2] == SeedHistory
    decreases |log|
  {
    if log != [] {
      HistoryLength(log[..|log| - 1]);
    }
  }

  /** One more send appends its two messages and its turns. */
  lemma TranscriptAndHistoryStep(log: seq<Exchange>, e: Exchange)
    ensures var before := Transcript(log);
            Transcript(log + [e]) == before + [Message(|before| + 1, e.question, User),
                                               Message(|before| + 2, BotText(e.reply), Bot)]
    ensures History(log + [e]) == History(log) + ExchangeTurns(e)
  {
    assert (log + [e])[..|log|] == log;
  }

  /** The frequently-asked-questions block (shown while the transcript has
      fewer than 3 entries) is shown exactly until the first send. */
  lemma SuggestionsShownIff(log: seq<Exchange>)
    ensures |Transcript(log)| < 3 <==> log == []
  {
    TranscriptIdsArePositions(log);
  }

  /** Every logged question was not blank and every logged reply not empty. */
  ghost predicate LogWellFormed(log: seq<Exchange>) {
    forall j :: 0 <= j < |log| ==>
      !IsBlank(log[j].question) && (log[j].reply.Some? ==> log[j].reply.value != "")
  }

  class ChatWidget {
    var isOpen: bool
    var messages: seq<Message>
    var inputValue: string
    var isTyping: bool
    var conversationHistory: seq<Turn>

    /** The sends completed so far. */
    ghost var log: seq<Exchange>

    /** Between sends the transcript and the history are those the log
        determines and the typing flag is down. */
    ghost predicate Valid()
      reads this
    {
      && messages == Transcript(log)
      && conversationHistory == History(log)
      && !isTyping
      && LogWellFormed(log)
    }

    constructor ()
      ensures Valid()
      ensures messages == [Message(1, Greeting, Bot)]
      ensures conversationHistory == [Turn(SystemRole, SystemPrompt), Turn(AssistantRole, Greeting)]
      ensures !isOpen && !isTyping && inputValue == "" && log == []
    {
      isOpen := false;
      messages := [Message(1, Greeting, Bot)];
      inputValue := "";
      isTyping := false;
      conversationHistory := SeedHistory;
      log := [];
    }

    /** What one `handleSendMessage(text)` does, given the service. A blank
        text changes nothing and sends nothing. Otherwise the request carries
        the old history plus the user's turn; that extended history is kept
        whatever the outcome, and gains the assistant's turn on a reply; the
        transcript gains the user's message and the bot's, numbered by
        position; the input box is cleared and the typing flag is down. */
    twostate predicate Sent(text: string, service: seq<Turn> -> Outcome, new request: Option<seq<Turn>>)
      reads this
    {
      && isOpen == old(isOpen)
      && !isTyping
      && if IsBlank(text) then
           && request == None
           && messages == old(messages)
           && conversationHistory == old(conversationHistory)
           && inputValue == old(inputValue)
           && log == old(log)
         else
           var extended := old(conversationHistory) + [Turn(UserRole, text)];
           var reply := Reply(service(extended));
           && request == Some(extended)
           && messages == old(messages) + [Message(|old(messages)| + 1, text, User),
                                           Message(|old(messages)| + 2, BotText(reply), Bot)]
           && conversationHistory == extended + (if reply.Some? then [Turn(AssistantRole, reply.value)] else [])
           && inputValue == ""
           && log == old(log) + [Exchange(text, reply)]
    }

    /** While a request is outstanding: the user's message and turn are in,
        the typing flag is up, and the send is not yet in the log. */
    ghost predicate Awaiting(text: string)
      reads this
    {
      && !IsBlank(text)
      && messages == Transcript(log) + [Message(|Transcript(log)| + 1, text, User)]
      && conversationHistory == History(log) + [Turn(UserRole, text)]
      && isTyping
      && inputValue == ""
      && LogWellFormed(log)
    }

    /** `handleSendMessage`: the part before the request goes out. */
    method BeginSend(text: string) returns (updatedHistory: seq<Turn>)
      requires Valid() && !IsBlank(text)
      modifies this
      ensures Awaiting(text)
      ensures updatedHistory == old(conversationHistory) + [Turn(UserRole, text)]
      ensures conversationHistory == updatedHistory
      ensures messages == old(messages) + [Message(|old(messages)| + 1, text, User)]
      ensures isOpen == old(isOpen) && log == old(log)
    {
      var newUserMessage := Message(|messages| + 1, text, User);
      messages := messages + [newUserMessage];
      inputValue := "";
      isTyping := true;
      updatedHistory := conversationHistory + [Turn(UserRole, text)];
      conversationHistory := updatedHistory;
    }

    /** `handleSendMessage`: the part after the request settles. A reply is
        added to the history and shown; a failure only shows the apology;
        either way the typing flag comes down. */
    method FinishSend(text: string, outcome: Outcome)
      requires Awaiting(text)
      modifies this
      ensures Valid()
      ensures var reply := Reply(outcome);
              && messages == old(messages) + [Message(|old(messages)| + 1, BotText(reply), Bot)]
              && conversationHistory == old(conversationHistory)
                   + (if reply.Some? then [Turn(AssistantRole, reply.value)] else [])
              && log == old(log) + [Exchange(text, reply)]
      ensures !isTyping && isOpen == old(isOpen) && inputValue == old(inputValue)
    {
      var reply := Reply(outcome);
      match reply {
        case Some(botResponse) =>
          conversationHistory := conversationHistory + [Turn(AssistantRole, botResponse)];
          messages := messages + [Message(|messages| + 1, botResponse, Bot)];
        case None =>
          messages := messages + [Message(|messages| + 1, Apology, Bot)];
      }
      isTyping := false;
      TranscriptAndHistoryStep(log, Exchange(text, reply));
      log := log + [Exchange(text, reply)];
    }

    /** `handleSendMessage`: a blank text is ignored; otherwise one request
        goes out with the extended history and its outcome is applied. */
    method SendMessage(text: string, service: seq<Turn> -> Outcome) returns (request: Option<seq<Turn>>)
      requires Valid()
      modifies this
      ensures Valid()
      ensures Sent(text, service, request)
    {
      if IsBlank(text) {
        return None;
      }
      var updatedHistory := BeginSend(text);
      request := Some(updatedHistory);
      FinishSend(text, service(updatedHistory));
    }

    /** `handleSubmit`: send what is in the input box. */
    method SubmitInput(service: seq<Turn> -> Outcome) returns (request: Option<seq<Turn>>)
      requires Valid()
      modifies this
      ensures Valid()
      ensures Sent(old(inputValue), service, request)
    {
      request := SendMessage(inputValue, service);
    }

    /** `handleSampleQuestionClick`: send one of the suggested questions,
        which are never blank, so a request always goes out. */
    method AskSampleQuestion(question: string, service: seq<Turn> -> Outcome) returns (request: Option<seq<Turn>>)
      requires Valid()
      requires question in SampleQuestions
      modifies this
      ensures Valid()
      ensures Sent(question, service, request)
      ensures request.Some?
    {
      assert !IsWhitespace(question[0]);
      request := SendMessage(question, service);
    }

    /** The input box's `onChange`. */
    method SetInput(value: string)
      modifies this
      ensures inputValue == value
      ensures isOpen == old(isOpen) && isTyping == old(isTyping)
      ensures messages == old(messages) && conversationHistory == old(conversationHistory)
      ensures log == old(log)
    {
      inputValue := value;
    }

    /** The floating button: flips the panel and nothing else. */
    method Toggle()
      modifies this
      ensures isOpen == !old(isOpen)
      ensures isTyping == old(isTyping) && inputValue == old(inputValue)
      ensures messages == old(messages) && conversationHistory == old(conversationHistory)
      ensures log == old(log)
    {
      isOpen := !isOpen;
    }

    /** The header's close button: closes the panel and nothing else. */
    method Close()
      modifies this
      ensures !isOpen
      ensures isTyping == old(isTyping) && inputValue == old(inputValue)
      ensures messages == old(messages) && conversationHistory == old(conversationHistory)
      ensures log == old(log)
    {
      isOpen := false;
    }

    /** Whether the frequently-asked-questions block is rendered. */
    function ShowSuggestions(): (shown: bool)
      reads this
      ensures Valid() ==> (shown <==> log == [])
    {
      SuggestionsShownIff(log);
      |messages| < 3
    }
  }

  /** Four conversations the widget supports, stated as assertions that
      follow from the contracts above. */
  method ExampleConversations()
  {
    var question := "How do I sell my license?";
    var answer := "You can start by uploading your license.";
    assert !IsWhitespace(question[0]);

    // A reply is shown as entry 3 and recorded in the history.
    var w := new ChatWidget();
    var request := w.SendMessage(question, h => Responded([Some(answer)]));
    assert request == Some(SeedHistory + [Turn(UserRole, question)]);
    assert w.messages[1] == Message(2, question, User);
    assert |w.messages| == 3 && w.messages[2] == Message(3, answer, Bot);
    assert |w.conversationHistory| == 4;

    // A failed call shows the apology; the history keeps the user's turn.
    w := new ChatWidget();
    request := w.SendMessage(question, h => Threw);
    assert |w.messages| == 3 && w.messages[2] == Message(3, Apology, Bot);
    assert w.conversationHistory == SeedHistory + [Turn(UserRole, question)];

    // White space only: nothing happens.
    w := new ChatWidget();
    request := w.SendMessage("   ", h => Threw);
    assert request == None && |w.messages| == 1 && |w.conversationHistory| == 2;
    assert !w.isTyping;

    // An empty answer is replaced by the fallback, which is recorded.
    w := new ChatWidget();
    request := w.SendMessage(question, h => Responded([Some("")]));
    assert w.messages[2] == Message(3, Fallback, Bot);
    assert w.conversationHistory[3] == Turn(AssistantRole, Fallback);
  }
}
