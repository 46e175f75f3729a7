/**
 * The socket chat screen (`App` in App.js): a session id drawn at launch, a connection
 * flag driven by the socket's `connect`/`disconnect` events, a contact id and a draft
 * typed by the user, and an in-memory message log that every sent or received private
 * message extends by exactly one entry.
 *
 * `Screen` is the component's whole state as a value and `Step` its reaction to one
 * event; the class `App` holds the same state in fields and its handlers are proved to
 * follow `Step`. The socket's outgoing traffic is the abstract trace `emitted`.
 */
module SocketChat {
  import opened JsText
  import opened Decimal

  /** The sender name the screen gives its own messages. */
  const SelfLabel: string := "Você"

  /** The `type` of a log entry: `'sent'` or `'received'`. */
  datatype Kind = Sent | Received

  /** One entry of the message log: `{from, message, type}`. */
  datatype Entry = Entry(from: string, message: string, kind: Kind)

  /** One `private-message` emission: `{to, message}`. */
  datatype Outbound = PrivateMessage(to: string, message: string)

  datatype Screen = Screen(
    userId: string,
    socketPresent: bool,   // `socket` is no longer null
    listening: bool,       // the socket's handlers are registered
    hasConnection: bool,
    contactId: string,
    draft: string,         // the `message` input
    messages: seq<Entry>,
    emitted: seq<Outbound>)

  /** What reaches the screen: the mount effect, socket events, typing, the send button,
      and the effect's cleanup. */
  datatype Event =
    | Mounted
    | Connected
    | Disconnected
    | Inbound(from: string, message: string)
    | ContactTyped(text: string)
    | DraftTyped(text: string)
    | SendPressed
    | Unmounted

  /** The session id: `Math.floor(100000 + Math.random() * 900000).toString()`, where
      `r` stands for the whole part of `Math.random() * 900000`. */
  function UserCode(r: nat): (id: string)
    requires r < 900000
    ensures |id| == 6 && AllDigits(id) && id[0] != '0'
    ensures Parse(id) == 100000 + r
  {
    DecimalLength(100000 + r, 5);
    ParseToDecimal(100000 + r);
    ToDecimal(100000 + r)
  }

  /** The state on first render: no socket yet, not connected, empty inputs and log. */
  function Initial(r: nat): Screen
    requires r < 900000
  {
    Screen(UserCode(r), false, false, false, "", "", [], [])
  }

  /** `sendMessage`: guarded by non-blank contact id and draft and a present socket;
      emits, appends a `sent` entry at once and clears the draft. */
  function Send(s: Screen): (t: Screen)
    ensures t.userId == s.userId && t.contactId == s.contactId
    ensures t.hasConnection == s.hasConnection && t.listening == s.listening && t.socketPresent == s.socketPresent
    ensures s.messages <= t.messages && s.emitted <= t.emitted
    ensures |t.messages| - |s.messages| == |t.emitted| - |s.emitted| <= 1
    ensures t.draft == s.draft || (t.draft == "" && |t.emitted| == |s.emitted| + 1)
  {
    if Trim(s.contactId) == [] || Trim(s.draft) == [] || !s.socketPresent then s
    else s.(emitted := s.emitted + [PrivateMessage(s.contactId, s.draft)],
            messages := s.messages + [Entry(SelfLabel, s.draft, Sent)],
            draft := "")
  }

  /** The screen's reaction to one event. Socket events reach it only while its handlers
      are registered; typing and pressing need the inputs, which are rendered only while
      connected. */
  function Step(s: Screen, e: Event): (t: Screen)
    ensures t.userId == s.userId
    ensures s.messages <= t.messages && |t.messages| <= |s.messages| + 1
    ensures s.emitted <= t.emitted && |t.emitted| <= |s.emitted| + 1
    ensures |t.emitted| > |s.emitted| ==> e == SendPressed && s.hasConnection
  {
    match e
    case Mounted =>
      if s.socketPresent then s else s.(socketPresent := true, listening := true)
    case Connected =>
      if s.listening then s.(hasConnection := true) else s
    case Disconnected =>
      if s.listening then s.(hasConnection := false) else s
    case Inbound(from, message) =>
      if s.listening then s.(messages := s.messages + [Entry(from, message, Received)]) else s
    case ContactTyped(text) =>
      if s.hasConnection then s.(contactId := text) else s
    case DraftTyped(text) =>
      if s.hasConnection then s.(draft := text) else s
    case SendPressed =>
      if s.hasConnection then Send(s) else s
    case Unmounted =>
      // `disconnect()` still reaches the registered 'disconnect' handler; then every
      // handler is removed
      s.(hasConnection := false, listening := false)
  }

  function Run(s: Screen, events: seq<Event>): Screen
    decreases |events|
  {
    if events == [] then s else Run(Step(s, events[0]), events[1..])
  }

  // ---------------------------------------------------------------- rendering

  /** What the screen shows: a placeholder while not connected, else the chat. */
  datatype View =
    | Connecting
    | Chat(userId: string, contactId: string, draft: string, lines: seq<string>)

  /** The label in front of an entry: `'Você'` for sent, `'De ' + from` otherwise. */
  function Label(e: Entry): (r: string)
    ensures r == SelfLabel <==> e.kind == Sent
  {
    if e.kind == Sent then SelfLabel
    else
      assert ("De " + e.from)[0] != SelfLabel[0];
      "De " + e.from
  }

  /** One row of the list: `{label}: {item.message}`. */
  function Line(e: Entry): string {
    Label(e) + ": " + e.message
  }

  function Render(s: Screen): (v: View)
    ensures v == Connecting <==> !s.hasConnection
    ensures v.Chat? ==> v.userId == s.userId && v.contactId == s.contactId && v.draft == s.draft
    ensures v.Chat? ==> |v.lines| == |s.messages|
                        && forall i :: 0 <= i < |s.messages| ==> v.lines[i] == Label(s.messages[i]) + ": " + s.messages[i].message
  {
    if !s.hasConnection then Connecting
    else Chat(s.userId, s.contactId, s.draft, seq(|s.messages|, i requires 0 <= i < |s.messages| => Line(s.messages[i])))
  }

  // ---------------------------------------------------------------- properties

  /** The messages of the `sent` entries of a log, in log order. */
  function SentTexts(log: seq<Entry>): seq<string> {
    if log == [] then []
    else SentTexts(log[..|log| - 1]) + (if log[|log| - 1].kind == Sent then [log[|log| - 1].message] else [])
  }

  /** The messages of the emissions, in emission order. */
  function EmittedTexts(out: seq<Outbound>): seq<string> {
    if out == [] then [] else EmittedTexts(out[..|out| - 1]) + [out[|out| - 1].message]
  }

  /** What every reachable state satisfies. */
  predicate Inv(s: Screen) {
    (s.hasConnection ==> s.listening)
    && (s.listening ==> s.socketPresent)
    && (forall i :: 0 <= i < |s.messages| && s.messages[i].kind == Sent ==> s.messages[i].from == SelfLabel)
    && (forall i :: 0 <= i < |s.emitted| ==> !IsBlank(s.emitted[i].to) && !IsBlank(s.emitted[i].message))
    && SentTexts(s.messages) == EmittedTexts(s.emitted)
  }

  /** A send that passes the guard: one `sent` entry at the end, one emission with the
      untrimmed contact id and draft, the draft cleared, everything else as before. */
  lemma SendAccepted(s: Screen)
    requires !IsBlank(s.contactId) && !IsBlank(s.draft) && s.socketPresent
    ensures Send(s) == s.(emitted := s.emitted + [PrivateMessage(s.contactId, s.draft)],
                          messages := s.messages + [Entry(SelfLabel, s.draft, Sent)],
                          draft := "")
  {
    TrimEmptyIffBlank(s.contactId);
    TrimEmptyIffBlank(s.draft);
  }

  /** A send with a blank contact id, a blank draft or no socket changes nothing. */
  lemma SendRejected(s: Screen)
    requires IsBlank(s.contactId) || IsBlank(s.draft) || !s.socketPresent
    ensures Send(s) == s
  {
    TrimEmptyIffBlank(s.contactId);
    TrimEmptyIffBlank(s.draft);
  }

  /** Sending "hi" to "654321" while connected logs one sent entry, emits one
      `private-message` with that payload, and shows `Você: hi` as the last line. */
  lemma SendHiScenario(s: Screen)
    requires s.hasConnection && s.socketPresent && s.contactId == "654321" && s.draft == "hi"
    ensures var t := Step(s, SendPressed);
            t.messages == s.messages + [Entry("Você", "hi", Sent)]
            && t.emitted == s.emitted + [PrivateMessage("654321", "hi")]
            && t.draft == "" && t.contactId == "654321"
            && Render(t).Chat? && Render(t).lines[|s.messages|] == "Você: hi"
  {
    assert !IsWhitespace(s.contactId[0]) && !IsWhitespace(s.draft[0]);
    SendAccepted(s);
  }

  /** An inbound private message, while the handlers are registered, appends one
      `received` entry at the end and changes nothing else. */
  lemma InboundAppends(s: Screen, from: string, message: string)
    requires s.listening
    ensures Step(s, Inbound(from, message)) == s.(messages := s.messages + [Entry(from, message, Received)])
  {
  }

  /** Two inbound messages are logged in the order they arrived, after what was there. */
  lemma InboundOrder(s: Screen, a: string, x: string, b: string, y: string)
    requires s.listening
    ensures Run(s, [Inbound(a, x), Inbound(b, y)]).messages
            == s.messages + [Entry(a, x, Received), Entry(b, y, Received)]
  {
    var s1 := Step(s, Inbound(a, x));
    assert [Inbound(a, x), Inbound(b, y)][1..] == [Inbound(b, y)];
    assert Run(s1, [Inbound(b, y)]) == Step(s1, Inbound(b, y));
  }

  /** `connect` and `disconnect` set the connection flag while the handlers are registered. */
  lemma ConnectionFlag(s: Screen)
    requires s.listening
    ensures Step(s, Connected).hasConnection && !Step(s, Disconnected).hasConnection
  {
  }

  /** Once the screen is torn down no socket event reaches it: connecting, disconnecting
      and inbound messages change nothing. */
  lemma UnmountSilencesSocket(s: Screen, e: Event)
    requires e.Connected? || e.Disconnected? || e.Inbound?
    ensures Step(Step(s, Unmounted), e) == Step(s, Unmounted)
  {
  }

  /** While not connected only the placeholder is shown, and no event emits anything. */
  lemma NothingSentWhileConnecting(s: Screen, e: Event)
    requires !s.hasConnection
    ensures Render(s) == Connecting
    ensures Step(s, e).emitted == s.emitted
    ensures !e.Inbound? ==> Step(s, e).messages == s.messages
  {
  }

  /** Sent entries are labelled `'Você'`, all others `'De ' + from`, and the label alone
      tells the two apart. */
  lemma LabelDistinguishesSent(e: Entry)
    ensures e.kind == Sent ==> Label(e) == SelfLabel
    ensures e.kind != Sent ==> Label(e) == "De " + e.from
    ensures Label(e) == SelfLabel <==> e.kind == Sent
  {
    if e.kind != Sent {
      assert Label(e)[0] == 'D' != SelfLabel[0];
    }
  }

  lemma {:induction false} SentTextsAppend(log: seq<Entry>, e: Entry)
    ensures SentTexts(log + [e]) == SentTexts(log) + (if e.kind == Sent then [e.message] else [])
  {
    assert (log + [e])[..|log|] == log;
  }

  lemma {:induction false} EmittedTextsAppend(out: seq<Outbound>, o: Outbound)
    ensures EmittedTexts(out + [o]) == EmittedTexts(out) + [o.message]
  {
    assert (out + [o])[..|out|] == out;
  }

  lemma InitialInv(r: nat)
    requires r < 900000
    ensures Inv(Initial(r))
  {
  }

  /** Every event keeps the invariant: sent entries carry the self label, nothing blank is
      ever emitted, and the sent entries match the emissions one for one, in order. */
  lemma StepInv(s: Screen, e: Event)
    requires Inv(s)
    ensures Inv(Step(s, e))
  {
    match e
    case Inbound(from, message) =>
      if s.listening {
        AppendReceivedInv(s, Entry(from, message, Received));
      }
    case SendPressed =>
      if s.hasConnection {
        SendInv(s);
      }
    case _ =>
  }

  lemma PressSendIsSend(s: Screen)
    ensures Step(s, SendPressed) == if s.hasConnection then Send(s) else s
  {
  }

  lemma AppendReceivedInv(s: Screen, e: Entry)
    requires Inv(s) && e.kind == Received
    ensures Inv(s.(messages := s.messages + [e]))
  {
    SentTextsAppend(s.messages, e);
  }

  lemma SendInv(s: Screen)
    requires Inv(s)
    ensures Inv(Send(s))
  {
    if !IsBlank(s.contactId) && !IsBlank(s.draft) && s.socketPresent {
      SendAccepted(s);
      AppendSentInv(s, PrivateMessage(s.contactId, s.draft));
    } else {
      SendRejected(s);
    }
  }

  /** Emitting `o` and logging it as a `sent` entry keeps the invariant. */
  lemma AppendSentInv(s: Screen, o: Outbound)
    requires Inv(s) && !IsBlank(o.to) && !IsBlank(o.message)
    ensures Inv(s.(emitted := s.emitted + [o], messages := s.messages + [Entry(SelfLabel, o.message, Sent)], draft := ""))
  {
    var e := Entry(SelfLabel, o.message, Sent);
    SentTextsAppend(s.messages, e);
    EmittedTextsAppend(s.emitted, o);
  }

  lemma {:induction false} RunInv(s: Screen, events: seq<Event>)
    requires Inv(s)
    ensures Inv(Run(s, events))
    decreases |events|
  {
    if events != [] {
      StepInv(s, events[0]);
      RunInv(Step(s, events[0]), events[1..]);
    }
  }

  /** Every state reached from launch emits exactly as many messages as its log holds
      `sent` entries, with the same texts in the same order. */
  lemma {:induction false} ReachableSentMatchesEmitted(r: nat, events: seq<Event>)
    requires r < 900000
    ensures var s := Run(Initial(r), events);
            SentTexts(s.messages) == EmittedTexts(s.emitted) && |SentTexts(s.messages)| == |s.emitted|
  {
    InitialInv(r);
    RunInv(Initial(r), events);
    EmittedTextsLength(Run(Initial(r), events).emitted);
  }

  lemma {:induction false} EmittedTextsLength(out: seq<Outbound>)
    ensures |EmittedTexts(out)| == |out|
    decreases |out|
  {
    if out != [] {
      EmittedTextsLength(out[..|out| - 1]);
    }
  }

  /** The log and the emissions only grow: whatever was there stays, in place. */
  lemma {:induction false} RunOnlyGrows(s: Screen, events: seq<Event>)
    ensures s.messages <= Run(s, events).messages
    ensures s.emitted <= Run(s, events).emitted
    ensures Run(s, events).userId == s.userId
    decreases |events|
  {
    if events != [] {
      RunOnlyGrows(Step(s, events[0]), events[1..]);
    }
  }

  // ---------------------------------------------------------------- the component

  class App {
    const userId: string
    var socketPresent: bool
    var listening: bool
    var hasConnection: bool
    var contactId: string
    var draft: string
    var messages: seq<Entry>
    ghost var emitted: seq<Outbound>

    ghost function State(): Screen
      reads this
    {
      Screen(userId, socketPresent, listening, hasConnection, contactId, draft, messages, emitted)
    }

    /** First render, with `r` the whole part of the random draw. */
    constructor (r: nat)
      requires r < 900000
      ensures State() == Initial(r)
    {
      userId := UserCode(r);
      socketPresent, listening, hasConnection := false, false, false;
      contactId, draft := "", "";
      messages := [];
      emitted := [];
    }

    /** The mount effect: open the socket, keep it, register the handlers. */
    method Mount()
      modifies this
      ensures State() == Step(old(State()), Mounted)
    {
      if !socketPresent {
        socketPresent := true;
        listening := true;
      }
    }

    method OnConnect()
      modifies this
      ensures State() == Step(old(State()), Connected)
    {
      if listening {
        hasConnection := true;
      }
    }

    method OnDisconnect()
      modifies this
      ensures State() == Step(old(State()), Disconnected)
    {
      if listening {
        hasConnection := false;
      }
    }

    method OnPrivateMessage(from: string, message: string)
      modifies this
      ensures State() == Step(old(State()), Inbound(from, message))
    {
      if listening {
        messages := messages + [Entry(from, message, Received)];
      }
    }

    method SetContactId(text: string)
      modifies this
      ensures State() == Step(old(State()), ContactTyped(text))
    {
      if hasConnection {
        contactId := text;
      }
    }

    method SetMessage(text: string)
      modifies this
      ensures State() == Step(old(State()), DraftTyped(text))
    {
      if hasConnection {
        draft := text;
      }
    }

    method SendMessage()
      modifies this
      ensures State() == Send(old(State()))
    {
      if Trim(contactId) == [] || Trim(draft) == [] || !socketPresent {
        return;
      }
      emitted := emitted + [PrivateMessage(contactId, draft)];
      messages := messages + [Entry(SelfLabel, draft, Sent)];
      draft := "";
    }

    /** The send button, which exists only while connected. */
    method PressSend()
      modifies this
      ensures State() == Step(old(State()), SendPressed)
    {
      if hasConnection {
        SendMessage();
      }
      PressSendIsSend(old(State()));
    }

    /** The effect's cleanup: `disconnect()`, then `removeAllListeners()`. */
    method Unmount()
      modifies this
      ensures State() == Step(old(State()), Unmounted)
    {
      hasConnection := false;
      listening := false;
    }
  }
}
