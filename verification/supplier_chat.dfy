/**
 The mechanic's chat with one supplier. Sending appends the mechanic's
 trimmed message and clears the input; a timer later appends one
 supplier reply drawn at random from four canned texts. The timer is
 modelled as a separate event, the random draw as its argument, and the
 number of replies still to come as part of the state. Message ids and
 timestamps come from the clock and are left out.
 */
module SupplierChat {
  import opened Wrappers
  import opened Text

  datatype Sender = MechanicSender | SupplierSender

  datatype Message = Message(text: string, sender: Sender)

  datatype ChatState = ChatState(
    inputText: string,
    messages: seq<Message>,
    pendingReplies: nat)   // sends whose reply timer has not fired yet

  /** The `partRequest` prop's default, used when the prop is undefined. */
  const DefaultPartRequest := "Front brake pads for 2018 Toyota Camry"

  /** The four canned supplier replies. */
  const Responses: seq<string> := [
    "Thanks for your message! Let me check on that for you.",
    "I'll get back to you with more details shortly.",
    "That sounds good! I'll prepare the quote for you.",
    "Perfect! I'll process that right away."]

  const MechanicOpening := "Yes, please! I need them as soon as possible."
  const SupplierQuote := "Great! I can offer you OEM quality brake pads for $89.99 + shipping. They're in stock and I can ship today. Would that work for you?"

  function SupplierGreeting(partRequest: string): string {
    "Hi! I see you're looking for " + partRequest
    + ". I have those in stock. Would you like me to send you a quote?"
  }

  /** The opening conversation: supplier, mechanic, supplier. The
      greeting names the `partRequest` prop, or its default when the prop
      is undefined. */
  function Initial(partRequest: Option<string>): (st: ChatState)
    ensures st.inputText == [] && st.pendingReplies == 0
    ensures |st.messages| == 3
    ensures st.messages[0].sender == SupplierSender
    ensures st.messages[1].sender == MechanicSender
    ensures st.messages[2].sender == SupplierSender
    ensures partRequest.Some? ==> st.messages[0].text == SupplierGreeting(partRequest.value)
    ensures partRequest.None? ==> st.messages[0].text == SupplierGreeting(DefaultPartRequest)
  {
    ChatState([], [
      Message(SupplierGreeting(partRequest.GetOr(DefaultPartRequest)), SupplierSender),
      Message(MechanicOpening, MechanicSender),
      Message(SupplierQuote, SupplierSender)
    ], 0)
  }

  /** The send button is enabled exactly when the input has content. */
  predicate SendEnabled(st: ChatState)
    ensures SendEnabled(st) <==> exists i :: 0 <= i < |st.inputText| && !IsWhitespace(st.inputText[i])
  {
    HasContent(st.inputText)
  }

  /** `handleSendMessage`. */
  function HandleSendMessage(st: ChatState): (st': ChatState)
    ensures !SendEnabled(st) <==> st' == st
    ensures SendEnabled(st) ==>
              && st'.messages == st.messages + [Message(Trim(st.inputText), MechanicSender)]
              && st'.inputText == []
              && st'.pendingReplies == st.pendingReplies + 1
  {
    if HasContent(st.inputText) then
      ChatState([], st.messages + [Message(Trim(st.inputText), MechanicSender)], st.pendingReplies + 1)
    else
      st
  }

  /** The reply timer fires; `pick` is `Math.floor(Math.random() * 4)`. */
  function DeliverReply(st: ChatState, pick: nat): (st': ChatState)
    requires st.pendingReplies > 0
    requires pick < |Responses|
    ensures |st'.messages| == |st.messages| + 1
    ensures st'.messages[..|st.messages|] == st.messages
    ensures st'.messages[|st.messages|].sender == SupplierSender
    ensures st'.messages[|st.messages|].text == Responses[pick]
    ensures st'.pendingReplies == st.pendingReplies - 1
    ensures st'.inputText == st.inputText
  {
    st.(messages := st.messages + [Message(Responses[pick], SupplierSender)],
        pendingReplies := st.pendingReplies - 1)
  }

  function CountFrom(messages: seq<Message>, who: Sender): (n: nat)
    ensures n <= |messages|
  {
    if messages == [] then 0
    else CountFrom(messages[..|messages| - 1], who) + (if messages[|messages| - 1].sender == who then 1 else 0)
  }

  /** What every state reached from the opening conversation satisfies:
      the opening three messages are still first; every later supplier
      message is one of the canned replies; and each mechanic message
      after the opening one is answered by a supplier message already on
      screen or by a reply still to come. */
  ghost predicate Reachable(st: ChatState, partRequest: Option<string>) {
    && |st.messages| >= 3
    && st.messages[..3] == Initial(partRequest).messages
    && (forall i :: 3 <= i < |st.messages| && st.messages[i].sender == SupplierSender
                    ==> st.messages[i].text in Responses)
    && CountFrom(st.messages, MechanicSender) + 1
         == CountFrom(st.messages, SupplierSender) + st.pendingReplies
  }

  datatype ChatEvent = Type(text: string) | PressSend | ReplyTimer(pick: nat)

  /** Whether an event can happen: a reply timer fires only after a send
      scheduled it. */
  predicate CanHappen(st: ChatState, ev: ChatEvent) {
    ev.ReplyTimer? ==> st.pendingReplies > 0 && ev.pick < |Responses|
  }

  function Step(st: ChatState, ev: ChatEvent): ChatState
    requires CanHappen(st, ev)
  {
    match ev
    case Type(text) => st.(inputText := text)
    case PressSend => HandleSendMessage(st)
    case ReplyTimer(pick) => DeliverReply(st, pick)
  }

  lemma CountFromAppend(messages: seq<Message>, m: Message, who: Sender)
    ensures CountFrom(messages + [m], who)
            == CountFrom(messages, who) + (if m.sender == who then 1 else 0)
  {
    assert (messages + [m])[..|messages + [m]| - 1] == messages;
  }

  lemma InitialReachable(partRequest: Option<string>)
    ensures Reachable(Initial(partRequest), partRequest)
  {
    var ms := Initial(partRequest).messages;
    var m0, m1, m2 := ms[0], ms[1], ms[2];
    var s1 := [] + [m0];
    var s2 := s1 + [m1];
    assert ms == s2 + [m2];
    CountFromAppend([], m0, MechanicSender);
    CountFromAppend([], m0, SupplierSender);
    CountFromAppend(s1, m1, MechanicSender);
    CountFromAppend(s1, m1, SupplierSender);
    CountFromAppend(s2, m2, MechanicSender);
    CountFromAppend(s2, m2, SupplierSender);
    assert CountFrom(ms, MechanicSender) == 1;
    assert CountFrom(ms, SupplierSender) == 2;
  }

  /** Every event keeps the invariant. */
  lemma StepPreservesReachable(st: ChatState, ev: ChatEvent, partRequest: Option<string>)
    requires Reachable(st, partRequest) && CanHappen(st, ev)
    ensures Reachable(Step(st, ev), partRequest)
  {
    var st' := Step(st, ev);
    match ev
    case Type(_) =>
    case PressSend =>
      if SendEnabled(st) {
        var m := Message(Trim(st.inputText), MechanicSender);
        CountFromAppend(st.messages, m, MechanicSender);
        CountFromAppend(st.messages, m, SupplierSender);
        assert st'.messages[..3] == st.messages[..3];
      }
    case ReplyTimer(pick) =>
      var m := Message(Responses[pick], SupplierSender);
      CountFromAppend(st.messages, m, MechanicSender);
      CountFromAppend(st.messages, m, SupplierSender);
      assert st'.messages[..3] == st.messages[..3];
  }
}
