/**
 The free-text request screen. Sending appends the user's trimmed text
 and clears the input; one second later a fixed acknowledgement is
 appended, and two seconds after that the trimmed text is handed to
 `onRequestSubmitted`. The two timers are modelled as separate events
 working through first-in first-out queues of the texts they carry
 (timers of equal delay fire in the order they were set). The callback
 receives the text the handler saw when the message was sent, before
 the input was cleared.
 */
module NaturalLanguageRequest {
  import opened Text

  datatype Message = Message(text: string, isUser: bool)

  datatype RequestState = RequestState(
    inputText: string,
    messages: seq<Message>,
    awaitingAck: seq<string>,       // sent texts whose acknowledgement timer is still set
    awaitingCallback: seq<string>)  // acknowledged texts whose callback timer is still set

  const Welcome := "Welcome to Partz Finda! What part do you need? Describe it in your own words - include the vehicle make, model, year, and any specific details."

  const Acknowledgement := "Got it! I'm processing your request and will connect you with suppliers who have this part. Let's get you signed in to continue."

  /** A single welcome message from the system. */
  function Initial(): (st: RequestState)
    ensures st.inputText == [] && st.awaitingAck == [] && st.awaitingCallback == []
    ensures st.messages == [Message(Welcome, false)]
  {
    RequestState([], [Message(Welcome, false)], [], [])
  }

  /** The send button is enabled exactly when the input has content. */
  predicate SendEnabled(st: RequestState)
    ensures SendEnabled(st) <==> exists i :: 0 <= i < |st.inputText| && !IsWhitespace(st.inputText[i])
  {
    HasContent(st.inputText)
  }

  /** `handleSendMessage`. */
  function HandleSendMessage(st: RequestState): (st': RequestState)
    ensures !SendEnabled(st) <==> st' == st
    ensures SendEnabled(st) ==>
              && st'.messages == st.messages + [Message(Trim(st.inputText), true)]
              && st'.inputText == []
              && st'.awaitingAck == st.awaitingAck + [Trim(st.inputText)]
              && st'.awaitingCallback == st.awaitingCallback
  {
    if HasContent(st.inputText) then
      var text := Trim(st.inputText);
      RequestState([], st.messages + [Message(text, true)], st.awaitingAck + [text], st.awaitingCallback)
    else
      st
  }

  /** The one-second timer: append the acknowledgement and set the
      callback timer for the same text. */
  function AcknowledgeTimer(st: RequestState): (st': RequestState)
    requires st.awaitingAck != []
    ensures st'.messages == st.messages + [Message(Acknowledgement, false)]
    ensures st'.awaitingAck == st.awaitingAck[1..]
    ensures st'.awaitingCallback == st.awaitingCallback + [st.awaitingAck[0]]
    ensures st'.inputText == st.inputText
  {
    st.(messages := st.messages + [Message(Acknowledgement, false)],
        awaitingAck := st.awaitingAck[1..],
        awaitingCallback := st.awaitingCallback + [st.awaitingAck[0]])
  }

  /** The two-second timer: `onRequestSubmitted(text)`; the returned
      string is the callback's argument. */
  function CallbackTimer(st: RequestState): (r: (RequestState, string))
    requires st.awaitingCallback != []
    ensures r.1 == st.awaitingCallback[0]
    ensures r.0 == st.(awaitingCallback := st.awaitingCallback[1..])
  {
    (st.(awaitingCallback := st.awaitingCallback[1..]), st.awaitingCallback[0])
  }

  /** The texts of the user's messages, oldest first. */
  function UserTexts(messages: seq<Message>): (texts: seq<string>)
    ensures |texts| <= |messages|
  {
    if messages == [] then []
    else
      var last := messages[|messages| - 1];
      UserTexts(messages[..|messages| - 1]) + (if last.isUser then [last.text] else [])
  }

  lemma UserTextsAppend(messages: seq<Message>, m: Message)
    ensures UserTexts(messages + [m]) == UserTexts(messages) + (if m.isUser then [m.text] else [])
  {
    assert (messages + [m])[..|messages|] == messages;
  }

  datatype RequestEvent = Type(text: string) | PressSend | AckFires | CallbackFires

  predicate CanHappen(st: RequestState, ev: RequestEvent) {
    && (ev == AckFires ==> st.awaitingAck != [])
    && (ev == CallbackFires ==> st.awaitingCallback != [])
  }

  /** One event; the second component is the text handed to
      `onRequestSubmitted`, if the event calls it. */
  function Step(st: RequestState, ev: RequestEvent): (r: (RequestState, seq<string>))
    requires CanHappen(st, ev)
    ensures |r.1| <= 1
  {
    match ev
    case Type(text) => (st.(inputText := text), [])
    case PressSend => (HandleSendMessage(st), [])
    case AckFires => (AcknowledgeTimer(st), [])
    case CallbackFires =>
      var (st', text) := CallbackTimer(st);
      (st', [text])
  }

  /** Runs the events that can happen, in order, and collects every text
      handed to `onRequestSubmitted`. An event that cannot happen in the
      state it meets (a timer nobody set) is skipped. */
  function Run(st: RequestState, evs: seq<RequestEvent>): (r: (RequestState, seq<string>))
    decreases |evs|
  {
    if evs == [] then (st, [])
    else if !CanHappen(st, evs[0]) then Run(st, evs[1..])
    else
      var first := Step(st, evs[0]);
      var rest := Run(first.0, evs[1..]);
      (rest.0, first.1 + rest.1)
  }

  /** The user's messages are exactly what was already submitted, then
      what waits for its callback, then what waits for its
      acknowledgement, in order: every submitted text is a user message,
      submitted in the order it was sent. */
  ghost predicate Accounted(st: RequestState, submitted: seq<string>) {
    UserTexts(st.messages) == submitted + st.awaitingCallback + st.awaitingAck
  }

  lemma SendKeepsAccounted(st: RequestState, submitted: seq<string>)
    requires Accounted(st, submitted)
    ensures Accounted(HandleSendMessage(st), submitted)
  {
    if SendEnabled(st) {
      var text := Trim(st.inputText);
      UserTextsAppend(st.messages, Message(text, true));
      assert submitted + st.awaitingCallback + (st.awaitingAck + [text])
          == (submitted + st.awaitingCallback + st.awaitingAck) + [text];
    }
  }

  lemma AckKeepsAccounted(st: RequestState, submitted: seq<string>)
    requires st.awaitingAck != [] && Accounted(st, submitted)
    ensures Accounted(AcknowledgeTimer(st), submitted)
  {
    UserTextsAppend(st.messages, Message(Acknowledgement, false));
    var head := st.awaitingAck[0];
    assert st.awaitingAck == [head] + st.awaitingAck[1..];
    assert submitted + (st.awaitingCallback + [head]) + st.awaitingAck[1..]
        == submitted + st.awaitingCallback + st.awaitingAck;
  }

  lemma CallbackKeepsAccounted(st: RequestState, submitted: seq<string>)
    requires st.awaitingCallback != [] && Accounted(st, submitted)
    ensures Accounted(CallbackTimer(st).0, submitted + [CallbackTimer(st).1])
  {
    var head := st.awaitingCallback[0];
    assert st.awaitingCallback == [head] + st.awaitingCallback[1..];
    assert (submitted + [head]) + st.awaitingCallback[1..] + st.awaitingAck
        == submitted + st.awaitingCallback + st.awaitingAck;
  }

  /** Every event keeps the user's messages accounted for. */
  lemma StepKeepsAccounted(st: RequestState, submitted: seq<string>, ev: RequestEvent)
    requires CanHappen(st, ev) && Accounted(st, submitted)
    ensures Accounted(Step(st, ev).0, submitted + Step(st, ev).1)
  {
    match ev
    case Type(_) =>
      assert submitted + [] == submitted;
    case PressSend =>
      SendKeepsAccounted(st, submitted);
      assert submitted + [] == submitted;
    case AckFires =>
      AckKeepsAccounted(st, submitted);
      assert submitted + [] == submitted;
    case CallbackFires =>
      CallbackKeepsAccounted(st, submitted);
  }

  /** From the opening screen, after any events, the texts handed to
      `onRequestSubmitted` are the user's messages in order, followed by
      those whose timers are still set. */
  lemma {:induction false} RunKeepsAccounted(st: RequestState, submitted: seq<string>, evs: seq<RequestEvent>)
    requires Accounted(st, submitted)
    ensures Accounted(Run(st, evs).0, submitted + Run(st, evs).1)
    decreases |evs|
  {
    if evs != [] {
      if !CanHappen(st, evs[0]) {
        RunKeepsAccounted(st, submitted, evs[1..]);
      } else {
        var first := Step(st, evs[0]);
        var rest := Run(first.0, evs[1..]);
        assert Run(st, evs) == (rest.0, first.1 + rest.1);
        StepKeepsAccounted(st, submitted, evs[0]);
        RunKeepsAccounted(first.0, submitted + first.1, evs[1..]);
        assert (submitted + first.1) + rest.1 == submitted + (first.1 + rest.1);
      }
    }
  }

  /** Every text handed to `onRequestSubmitted` is, in order, the text of
      a user message: the submitted texts are a prefix of the user's
      messages. */
  lemma SubmittedAreUserMessages(evs: seq<RequestEvent>)
    ensures var (st, submitted) := Run(Initial(), evs);
            |submitted| <= |UserTexts(st.messages)| && submitted == UserTexts(st.messages)[..|submitted|]
  {
    assert UserTexts(Initial().messages) == [] by {
      assert Initial().messages == [] + [Message(Welcome, false)];
      UserTextsAppend([], Message(Welcome, false));
    }
    RunKeepsAccounted(Initial(), [], evs);
    var (st, submitted) := Run(Initial(), evs);
    assert [] + submitted == submitted;
    var all := UserTexts(st.messages);
    assert all == submitted + st.awaitingCallback + st.awaitingAck;
    assert all[..|submitted|] == submitted;
  }
}
