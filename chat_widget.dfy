/** The floating chat widget (src/components/ChatWidget.tsx). Its state is the
    input line, the ordered conversation, and the `isLoading` / `isOpen`
    flags. Sending is split at its one `await`: `HandleSend` runs up to the
    call to the relay and returns the text it sends, and `Settle` runs the
    continuation once the call has settled, so anything the user does in
    between (a reset, say) can be expressed. */
module Chat {
  import opened Js
  import Relay

  /** The one reply shown for every failure. */
  const Fallback := "Sorry, something went wrong. Please try again later."

  datatype Sender = User | Bot

  /** What an entry shows: text, or the spinner that stands in for a reply
      still on its way. */
  datatype Content = Text(text: string) | Pending

  datatype Message = Message(sender: Sender, content: Content)

  /** The relay's JSON answer as the widget reads it: whether `data.error` is
      truthy, and `data.choices[0].message.content` when it can be read. */
  datatype ReplyBody = ReplyBody(errorTruthy: bool, firstContent: Option<string>)

  /** What `fetch` plus `res.json()` produced on the client. */
  datatype FetchOutcome = FetchFailed | Received(body: ReplyBody)

  /** The reply text `sendMessageToAI` resolves to: the first choice's content
      when the body has no error and that content can be read, and the fixed
      fallback for a failed call, an error body, or a body without choices. */
  function Interpret(outcome: FetchOutcome): (reply: string)
    ensures outcome.FetchFailed? ==> reply == Fallback
    ensures outcome.Received? && outcome.body.errorTruthy ==> reply == Fallback
    ensures outcome.Received? && !outcome.body.errorTruthy ==>
      reply == (if outcome.body.firstContent.Some? then outcome.body.firstContent.value else Fallback)
  {
    match outcome
    case FetchFailed => Fallback
    case Received(body) =>
      if body.errorTruthy then Fallback
      else if body.firstContent.None? then Fallback
      else body.firstContent.value
  }

  /** How the widget decodes a relay response: an `{ error }` body has no
      choices, and a passed-through body is read field by field. The status
      code plays no part (`fetch` does not reject on it). */
  function FromRelay(response: Relay.Response): (outcome: FetchOutcome)
    ensures outcome.Received?
    ensures response.body.ErrorBody? ==>
      outcome.body.firstContent.None? && (outcome.body.errorTruthy <==> response.body.error != "")
    ensures response.body.Passthrough? ==>
      && (outcome.body.errorTruthy <==> response.body.completion.error.Some?)
      && outcome.body.firstContent == response.body.completion.firstContent
  {
    match response.body
    case ErrorBody(e) => Received(ReplyBody(e != "", None))
    case Passthrough(c) => Received(ReplyBody(c.error.Some?, c.firstContent))
  }

  datatype ChatState = ChatState(input: string, messages: seq<Message>, isLoading: bool, isOpen: bool)

  /** The state on mount: nothing typed, no messages, idle, closed. */
  const Initial := ChatState("", [], false, false)

  /** `Array.prototype.slice(0, -1)`: all but the last element, and nothing
      for an empty list. */
  function DropLast<T>(s: seq<T>): (r: seq<T>)
    ensures |r| == if s == [] then 0 else |s| - 1
    ensures r == s[..|r|]
  {
    if s == [] then [] else s[..|s| - 1]
  }

  /** The text `handleSend` sends to the relay: nothing for a blank input,
      the trimmed input otherwise. */
  function SendRequest(s: ChatState): (request: Option<string>)
    ensures request.None? <==> IsBlank(s.input)
    ensures request.Some? ==> request.value != "" && request.value == Trim(s.input)
  {
    var text := Trim(s.input);
    if text == "" then None else Some(text)
  }

  /** The state when `handleSend` reaches its `await`. A blank input changes
      nothing. Otherwise exactly two entries are appended after the old ones,
      the user's trimmed text and then the pending placeholder, the input is
      cleared and the widget is loading. */
  function AfterSend(s: ChatState): (t: ChatState)
    ensures IsBlank(s.input) ==> t == s
    ensures !IsBlank(s.input) ==>
      && |t.messages| == |s.messages| + 2
      && t.messages[..|s.messages|] == s.messages
      && t.messages[|s.messages|] == Message(User, Text(Trim(s.input)))
      && t.messages[|s.messages| + 1] == Message(Bot, Pending)
      && t.input == "" && t.isLoading && t.isOpen == s.isOpen
  {
    var text := Trim(s.input);
    if text == "" then s
    else
      s.(messages := s.messages + [Message(User, Text(text)), Message(Bot, Pending)],
         input := "", isLoading := true)
  }

  /** The state after the call settles: the last entry, whatever it is, is
      replaced by the bot's reply (on an empty list the reply is the only
      entry), everything before it is kept, and loading is over. */
  function AfterSettle(s: ChatState, outcome: FetchOutcome): (t: ChatState)
    ensures |t.messages| == if s.messages == [] then 1 else |s.messages|
    ensures t.messages[..|t.messages| - 1] == s.messages[..|t.messages| - 1]
    ensures t.messages[|t.messages| - 1] == Message(Bot, Text(Interpret(outcome)))
    ensures !t.isLoading && t.input == s.input && t.isOpen == s.isOpen
  {
    s.(messages := DropLast(s.messages) + [Message(Bot, Text(Interpret(outcome)))],
       isLoading := false)
  }

  /** What the user (or the settling call) can do to the widget. */
  datatype ChatEvent =
    | Typed(value: string)
    | SendClicked
    | KeyPressed(key: string)
    | Settled(outcome: FetchOutcome)
    | ResetClicked
    | ToggleClicked

  /** The widget's response to one event. */
  function Step(s: ChatState, e: ChatEvent): ChatState {
    match e
    case Typed(value) => s.(input := value)
    case SendClicked => AfterSend(s)
    case KeyPressed(key) => if key == "Enter" then AfterSend(s) else s
    case Settled(outcome) => AfterSettle(s, outcome)
    case ResetClicked => s.(messages := [])
    case ToggleClicked => s.(isOpen := !s.isOpen)
  }

  /** The input line accepts keys only while nothing is loading; while it is
      disabled the send button is disabled too, so nothing can send. */
  predicate InputEnabled(s: ChatState): (enabled: bool)
    ensures enabled <==> !s.isLoading
    ensures !enabled ==> !SendEnabled(s)
  {
    !s.isLoading
  }

  /** The send button: disabled while loading or while the input is blank. */
  function SendEnabled(s: ChatState): (enabled: bool)
    ensures enabled <==> !s.isLoading && !IsBlank(s.input)
    ensures enabled ==> SendRequest(s).Some?
  {
    !s.isLoading && Trim(s.input) != ""
  }

  /** Which events the rendered widget can deliver: the panel's controls only
      while it is open, the input and its Enter key only while it is enabled,
      the send button only while enabled, and a settlement only while a call
      is outstanding (`isLoading` is set exactly while one is). */
  predicate Allowed(s: ChatState, e: ChatEvent): (ok: bool)
    ensures ok && (e.Typed? || e.KeyPressed? || e.SendClicked?) ==> s.isOpen && !s.isLoading
    ensures ok && e.SendClicked? ==> SendRequest(s).Some?
    ensures ok && e.ResetClicked? ==> s.isOpen
    ensures e.Settled? ==> (ok <==> s.isLoading)
    ensures e.ToggleClicked? ==> ok
  {
    match e
    case Typed(_) => s.isOpen && InputEnabled(s)
    case SendClicked => s.isOpen && SendEnabled(s)
    case KeyPressed(_) => s.isOpen && InputEnabled(s)
    case Settled(_) => s.isLoading
    case ResetClicked => s.isOpen
    case ToggleClicked => true
  }

  function Run(s: ChatState, events: seq<ChatEvent>): ChatState
    decreases |events|
  {
    if events == [] then s else Run(Step(s, events[0]), events[1..])
  }

  predicate AllowedRun(s: ChatState, events: seq<ChatEvent>)
    decreases |events|
  {
    events == [] || (Allowed(s, events[0]) && AllowedRun(Step(s, events[0]), events[1..]))
  }

  /** The conversation's shape: a placeholder can only be the last entry;
      while loading the list is empty (after a reset) or ends in the
      placeholder; while idle there is no placeholder at all. */
  predicate WellFormed(s: ChatState) {
    && (forall i :: 0 <= i < |s.messages| - 1 ==> s.messages[i].content.Text?)
    && (s.isLoading ==> s.messages == [] || s.messages[|s.messages| - 1].content.Pending?)
    && (!s.isLoading ==> forall i :: 0 <= i < |s.messages| ==> s.messages[i].content.Text?)
  }

  lemma StepPreservesWellFormed(s: ChatState, e: ChatEvent)
    requires WellFormed(s) && Allowed(s, e)
    ensures WellFormed(Step(s, e))
  {
  }

  /** Whatever the user does through the rendered widget, at most one
      placeholder exists and it is the last entry; it is gone once loading
      ends. The guard that keeps a second send from firing mid-flight is the
      disabled input and button, nothing else (see SendWhileLoading). */
  lemma {:induction false} RunPreservesWellFormed(s: ChatState, events: seq<ChatEvent>)
    requires WellFormed(s) && AllowedRun(s, events)
    ensures WellFormed(Run(s, events))
    decreases |events|
  {
    if events != [] {
      StepPreservesWellFormed(s, events[0]);
      RunPreservesWellFormed(Step(s, events[0]), events[1..]);
    }
  }

  /** On mount the conversation is well formed, and it stays so under every
      allowed sequence of events. */
  lemma InitialRunsWellFormed(events: seq<ChatEvent>)
    requires AllowedRun(Initial, events)
    ensures WellFormed(Run(Initial, events))
  {
    RunPreservesWellFormed(Initial, events);
  }

  /** Without the disabled controls, a send while a call is in flight (the
      list ending in its placeholder) would leave that placeholder in the
      middle of the list, with a second one after it. */
  lemma SendWhileLoading(s: ChatState)
    requires s.isLoading && s.messages != [] && s.messages[|s.messages| - 1].content.Pending?
    requires !IsBlank(s.input)
    ensures !Allowed(s, SendClicked) && !WellFormed(AfterSend(s))
  {
    var t := AfterSend(s);
    assert t.messages[|s.messages| - 1] == s.messages[|s.messages| - 1];
  }

  /** A complete turn with no reset in between: the list grows by exactly
      two entries, the user's trimmed text and the bot's reply, and no
      placeholder is left behind. */
  lemma SendThenSettle(s: ChatState, outcome: FetchOutcome)
    requires !IsBlank(s.input)
    ensures var t := AfterSettle(AfterSend(s), outcome);
      && t.messages == s.messages + [Message(User, Text(Trim(s.input))), Message(Bot, Text(Interpret(outcome)))]
      && !t.isLoading && t.input == ""
  {
  }

  /** A reset between send and settlement does not cancel the call: its reply
      still lands, as the only entry of the emptied list. */
  lemma ResetMidFlight(s: ChatState, outcome: FetchOutcome)
    requires !IsBlank(s.input)
    ensures Run(s, [SendClicked, ResetClicked, Settled(outcome)]).messages
      == [Message(Bot, Text(Interpret(outcome)))]
  {
    var s1 := Step(s, SendClicked);
    var s2 := Step(s1, ResetClicked);
    assert Run(s, [SendClicked, ResetClicked, Settled(outcome)]) == Run(s1, [ResetClicked, Settled(outcome)]);
    assert Run(s1, [ResetClicked, Settled(outcome)]) == Run(s2, [Settled(outcome)]);
  }

  /** The text the widget sends always passes the relay's checks on method
      and message: the widget never draws a 405 or a 400. */
  lemma WidgetRequestsAreWellFormed(s: ChatState, apiKey: Option<string>, upstream: Relay.UpstreamOutcome)
    requires SendRequest(s).Some?
    ensures var r := Relay.Handle(Relay.Request("POST", SendRequest(s)), apiKey, upstream);
      r.status != 405 && r.status != 400
  {
  }

  /** Every relay failure (a missing key, a failed upstream call, a provider
      error) reaches the user as the fixed fallback text. */
  lemma RelayFailuresShowFallback(req: Relay.Request, apiKey: Option<string>, upstream: Relay.UpstreamOutcome)
    requires Relay.Handle(req, apiKey, upstream).status != 200
    ensures Interpret(FromRelay(Relay.Handle(req, apiKey, upstream))) == Fallback
  {
  }

  /** End to end: with a key configured and an upstream that answers with
      content `c`, one send and its settlement append the user's trimmed text
      and then `c`, and nothing else. */
  lemma EndToEnd(s: ChatState, apiKey: string, c: string)
    requires !IsBlank(s.input) && apiKey != ""
    ensures var text := SendRequest(s).value;
      var r := Relay.Handle(Relay.Request("POST", Some(text)), Some(apiKey),
                            Relay.Decoded(Relay.Completion(None, Some(c))));
      && r.status == 200
      && AfterSettle(AfterSend(s), FromRelay(r)).messages
         == s.messages + [Message(User, Text(text)), Message(Bot, Text(c))]
  {
  }

  /** The widget's state, updated in place by its handlers. */
  class ChatWidget {
    var input: string
    var messages: seq<Message>
    var isLoading: bool
    var isOpen: bool

    function State(): ChatState
      reads this
    {
      ChatState(input, messages, isLoading, isOpen)
    }

    constructor ()
      ensures State() == Initial
    {
      input := "";
      messages := [];
      isLoading := false;
      isOpen := false;
    }

    /** The input's `onChange`. */
    method OnInputChange(value: string)
      modifies this
      ensures State() == Step(old(State()), Typed(value))
    {
      input := value;
    }

    /** `handleSend` up to its `await`: returns the text sent to the relay,
        or nothing when the input is blank. */
    method HandleSend() returns (request: Option<string>)
      modifies this
      ensures request == SendRequest(old(State()))
      ensures State() == AfterSend(old(State()))
    {
      var text := Trim(input);
      if text == "" {
        request := None;
      } else {
        messages := messages + [Message(User, Text(text))];
        input := "";
        isLoading := true;
        messages := messages + [Message(Bot, Pending)];
        request := Some(text);
      }
    }

    /** `handleSend` after its `await`: the last entry gives way to the reply
        and loading ends. */
    method Settle(outcome: FetchOutcome)
      modifies this
      ensures State() == AfterSettle(old(State()), outcome)
    {
      var reply := Interpret(outcome);
      messages := DropLast(messages) + [Message(Bot, Text(reply))];
      isLoading := false;
    }

    /** `handleKeyPress`: Enter sends, any other key does nothing. */
    method HandleKeyPress(key: string) returns (request: Option<string>)
      modifies this
      ensures request == if key == "Enter" then SendRequest(old(State())) else None
      ensures State() == Step(old(State()), KeyPressed(key))
    {
      if key == "Enter" {
        request := HandleSend();
      } else {
        request := None;
      }
    }

    /** `toggleChat`: shows or hides the panel, nothing else. */
    method ToggleChat()
      modifies this
      ensures State() == Step(old(State()), ToggleClicked)
      ensures isOpen == !old(isOpen) && messages == old(messages)
    {
      isOpen := !isOpen;
    }

    /** `resetChat`: empties the conversation, whatever it held. */
    method ResetChat()
      modifies this
      ensures State() == Step(old(State()), ResetClicked)
      ensures messages == [] && isLoading == old(isLoading)
    {
      messages := [];
    }
  }
}
