/**
 * The conversation screen (`ChatScreen` in screens/ChatScreen.js): a live query on
 * `chats/{chatId}/messages` ordered by ascending `timestamp`, whose every snapshot
 * replaces the local log wholesale, and a `sendMessage` that writes one document to the
 * store without touching the local log and clears the draft only once the write is done.
 *
 * `Screen` is the component's state as a value and `Step` its reaction to one event; the
 * class `ChatScreen` holds the same state in fields and its handlers are proved to follow
 * `Step`. The store is seen only through two abstract traces: the writes the screen
 * issues and the listener subscriptions it opens and closes.
 */
module Conversation {
  import opened Wrappers
  import opened JsText

  /** The fields of a stored message document, `doc.data()`. */
  datatype DocData = DocData(from: string, text: string, timestamp: int)

  /** One document of a snapshot. */
  datatype Doc = Doc(id: string, data: DocData)

  /** One entry of the local log, `{id: doc.id, ...doc.data()}`. */
  datatype Entry = Entry(id: string, from: string, text: string, timestamp: int)

  /** One `addDoc` call on `chats/{chatId}/messages`; the store adds the timestamp. */
  datatype Write = Write(chatId: string, from: string, text: string)

  /** Opening or closing the live query of one conversation. */
  datatype ListenerOp = Subscribe(chatId: string) | Unsubscribe(chatId: string)

  datatype Screen = Screen(
    userEmail: string,
    mounted: bool,
    chatId: string,
    subscribedTo: Option<string>,  // the conversation whose `unsubscribe` the effect holds
    draft: string,                 // the `message` input
    messages: seq<Entry>,
    writes: seq<Write>,
    listenerOps: seq<ListenerOp>)

  datatype Event =
    | ChatChanged(chatId: string)
    | Snapshot(chatId: string, docs: seq<Doc>)
    | DraftTyped(text: string)
    | SendPressed(writeSucceeds: bool)
    | Unmounted

  // ---------------------------------------------------------------- snapshots

  function ToEntry(d: Doc): Entry {
    Entry(d.id, d.data.from, d.data.text, d.data.timestamp)
  }

  /** `snapshot.docs.map(doc => ({id: doc.id, ...doc.data()}))`. */
  function ToLog(docs: seq<Doc>): (log: seq<Entry>)
    ensures |log| == |docs|
  {
    if docs == [] then [] else [ToEntry(docs[0])] + ToLog(docs[1..])
  }

  /** The document an entry was made from. */
  function ToDoc(e: Entry): Doc {
    Doc(e.id, DocData(e.from, e.text, e.timestamp))
  }

  function ToDocs(log: seq<Entry>): seq<Doc> {
    if log == [] then [] else [ToDoc(log[0])] + ToDocs(log[1..])
  }

  predicate DocsByTimestamp(docs: seq<Doc>) {
    forall i, j :: 0 <= i < j < |docs| ==> docs[i].data.timestamp <= docs[j].data.timestamp
  }

  predicate LogByTimestamp(log: seq<Entry>) {
    forall i, j :: 0 <= i < j < |log| ==> log[i].timestamp <= log[j].timestamp
  }

  /** The log holds one entry per document, the i-th made from the i-th document. */
  lemma {:induction false} ToLogAt(docs: seq<Doc>, i: nat)
    requires i < |docs|
    ensures |ToLog(docs)| == |docs| && ToLog(docs)[i] == ToEntry(docs[i])
    decreases |docs|
  {
    if i > 0 {
      ToLogAt(docs[1..], i - 1);
    }
  }

  /** No information is lost in the conversion: the documents can be recovered from the log. */
  lemma {:induction false} ToLogRoundTrip(docs: seq<Doc>)
    ensures ToDocs(ToLog(docs)) == docs
    decreases |docs|
  {
    if docs != [] {
      ToLogRoundTrip(docs[1..]);
      assert ToLog(docs)[1..] == ToLog(docs[1..]);
    }
  }

  /** Documents delivered in ascending timestamp order make a log in that order. */
  lemma ToLogKeepsOrder(docs: seq<Doc>)
    requires DocsByTimestamp(docs)
    ensures LogByTimestamp(ToLog(docs))
  {
    forall i, j | 0 <= i < j < |docs|
      ensures ToLog(docs)[i].timestamp <= ToLog(docs)[j].timestamp
    {
      ToLogAt(docs, i);
      ToLogAt(docs, j);
    }
  }

  // ---------------------------------------------------------------- the screen

  /** The cleanup the effect returns: none when no query was opened. */
  function Release(s: Screen): seq<ListenerOp> {
    if s.subscribedTo.Some? then [Unsubscribe(s.subscribedTo.value)] else []
  }

  /** The effect body: with a falsy `chatId` it opens nothing. */
  function Acquire(chatId: string): seq<ListenerOp> {
    if chatId == "" then [] else [Subscribe(chatId)]
  }

  function SubscriptionFor(chatId: string): Option<string> {
    if chatId == "" then None else Some(chatId)
  }

  /** Mounting on `chatId`: empty draft and log, and the effect's first run. */
  function Open(userEmail: string, chatId: string): Screen {
    Screen(userEmail, true, chatId, SubscriptionFor(chatId), "", [], [], Acquire(chatId))
  }

  /** `sendMessage`, with the outcome of the awaited `addDoc` passed in. A blank draft
      returns at once; an empty `chatId` makes `collection` throw before `addDoc` is
      called, so nothing is written and the draft stays. Otherwise one write is issued,
      and the draft is cleared only if it succeeds. */
  function Send(s: Screen, writeSucceeds: bool): (t: Screen)
    ensures t.messages == s.messages && t.chatId == s.chatId && t.userEmail == s.userEmail
    ensures t.mounted == s.mounted && t.subscribedTo == s.subscribedTo && t.listenerOps == s.listenerOps
    ensures s.writes <= t.writes && |t.writes| <= |s.writes| + 1
    ensures t.draft == s.draft || (t.draft == "" && writeSucceeds && |t.writes| == |s.writes| + 1)
  {
    if Trim(s.draft) == [] || s.chatId == "" then s
    else s.(writes := s.writes + [Write(s.chatId, s.userEmail, Trim(s.draft))],
            draft := if writeSucceeds then "" else s.draft)
  }

  /** The screen's reaction to one event. A new `chatId` reruns the effect: the old query
      is closed before the new one is opened. A snapshot reaches the screen only through
      an open query. The inputs exist only while mounted. */
  function Step(s: Screen, e: Event): (t: Screen)
    ensures t.userEmail == s.userEmail
    ensures s.writes <= t.writes && s.listenerOps <= t.listenerOps
    ensures !e.Snapshot? ==> t.messages == s.messages
    ensures !s.mounted ==> t.writes == s.writes && t.draft == s.draft && !t.mounted
  {
    match e
    case ChatChanged(chatId) =>
      if !s.mounted || chatId == s.chatId then s
      else s.(chatId := chatId, subscribedTo := SubscriptionFor(chatId),
              listenerOps := s.listenerOps + Release(s) + Acquire(chatId))
    case Snapshot(chatId, docs) =>
      if s.subscribedTo == Some(chatId) then s.(messages := ToLog(docs)) else s
    case DraftTyped(text) =>
      if s.mounted then s.(draft := text) else s
    case SendPressed(writeSucceeds) =>
      if s.mounted then Send(s, writeSucceeds) else s
    case Unmounted =>
      s.(mounted := false, subscribedTo := None, listenerOps := s.listenerOps + Release(s))
  }

  function Run(s: Screen, events: seq<Event>): Screen
    decreases |events|
  {
    if events == [] then s else Run(Step(s, events[0]), events[1..])
  }

  /** `item.from === user.email`: whether an entry is drawn as the user's own. */
  function IsMine(e: Entry, userEmail: string): bool {
    e.from == userEmail
  }

  // ---------------------------------------------------------------- listeners

  /** The query a sequence of listener operations leaves open, if any. */
  function Active(ops: seq<ListenerOp>): Option<string> {
    if ops == [] then None
    else match ops[|ops| - 1]
      case Subscribe(c) => Some(c)
      case Unsubscribe(_) => None
  }

  /** Every query is opened only when none is open, and every close closes the open one:
      at most one listener is ever active. */
  predicate OneAtATime(ops: seq<ListenerOp>) {
    ops == []
    || (OneAtATime(ops[..|ops| - 1])
        && match ops[|ops| - 1]
           case Subscribe(c) => Active(ops[..|ops| - 1]) == None
           case Unsubscribe(c) => Active(ops[..|ops| - 1]) == Some(c))
  }

  /** What every reachable state satisfies. */
  predicate Inv(s: Screen) {
    OneAtATime(s.listenerOps)
    && Active(s.listenerOps) == s.subscribedTo
    && s.subscribedTo == (if s.mounted then SubscriptionFor(s.chatId) else None)
    && (forall i :: 0 <= i < |s.writes| ==> IssuedBy(s.writes[i], s.userEmail))
  }

  // ---------------------------------------------------------------- properties

  /** A snapshot through the open query sets the log to exactly its documents, in order,
      whatever the log held before; nothing else changes. */
  lemma SnapshotReplaces(s: Screen, chatId: string, docs: seq<Doc>)
    requires s.subscribedTo == Some(chatId)
    ensures Step(s, Snapshot(chatId, docs)) == s.(messages := ToLog(docs))
    ensures |Step(s, Snapshot(chatId, docs)).messages| == |docs|
    ensures ToDocs(Step(s, Snapshot(chatId, docs)).messages) == docs
  {
    ToLogRoundTrip(docs);
  }

  /** Two screens listening to the same conversation show the same log after the same
      snapshot: no earlier local entry survives. */
  lemma SnapshotForgetsLocalLog(s1: Screen, s2: Screen, chatId: string, docs: seq<Doc>)
    requires s1.subscribedTo == Some(chatId) && s2.subscribedTo == Some(chatId)
    ensures Step(s1, Snapshot(chatId, docs)).messages == Step(s2, Snapshot(chatId, docs)).messages
  {
  }

  /** With the query's ascending order, the log after a snapshot is in timestamp order. */
  lemma SnapshotOrdered(s: Screen, chatId: string, docs: seq<Doc>)
    requires s.subscribedTo == Some(chatId) && DocsByTimestamp(docs)
    ensures LogByTimestamp(Step(s, Snapshot(chatId, docs)).messages)
  {
    ToLogKeepsOrder(docs);
  }

  /** A snapshot that does not come through the open query changes nothing. */
  lemma SnapshotWithoutListenerIgnored(s: Screen, chatId: string, docs: seq<Doc>)
    requires s.subscribedTo != Some(chatId)
    ensures Step(s, Snapshot(chatId, docs)) == s
  {
  }

  /** With a falsy `chatId` no query is opened, and switching to one keeps the log. */
  lemma FalsyChatOpensNothing(s: Screen, userEmail: string)
    requires s.mounted && s.chatId != ""
    ensures Open(userEmail, "").subscribedTo == None && Open(userEmail, "").listenerOps == []
    ensures var t := Step(s, ChatChanged(""));
            t.subscribedTo == None && t.messages == s.messages
            && t.listenerOps == s.listenerOps + Release(s)
  {
  }

  /** Changing conversation closes the open query before opening the new one. */
  lemma ChangeClosesBeforeOpening(s: Screen, chatId: string)
    requires Inv(s) && s.mounted && chatId != s.chatId && s.chatId != "" && chatId != ""
    ensures Step(s, ChatChanged(chatId)).listenerOps
            == s.listenerOps + [Unsubscribe(s.chatId), Subscribe(chatId)]
  {
  }

  /** Closing the screen twice is the same as closing it once. */
  lemma UnmountIdempotent(s: Screen)
    ensures Step(Step(s, Unmounted), Unmounted) == Step(s, Unmounted)
  {
  }

  /** A send on a screen without a conversation writes nothing and keeps the draft. */
  lemma SendWithoutChatFails(s: Screen, writeSucceeds: bool)
    requires s.chatId == ""
    ensures Send(s, writeSucceeds) == s
  {
  }

  /** A blank draft sends nothing and keeps the draft. */
  lemma SendBlankIsNoop(s: Screen, writeSucceeds: bool)
    requires IsBlank(s.draft)
    ensures Send(s, writeSucceeds) == s
  {
    TrimEmptyIffBlank(s.draft);
  }

  /** A non-blank draft in a conversation issues exactly one write of the trimmed text
      under the user's email, leaves the local log alone, and is cleared only when the
      write succeeds; without a conversation nothing is written and the draft stays. */
  lemma SendWritesOnce(s: Screen, writeSucceeds: bool)
    requires !IsBlank(s.draft)
    ensures var t := Send(s, writeSucceeds);
            if s.chatId == "" then t == s
            else t.writes == s.writes + [Write(s.chatId, s.userEmail, Trim(s.draft))]
                 && t.messages == s.messages
                 && t.draft == (if writeSucceeds then "" else s.draft)
                 && t.chatId == s.chatId && t.subscribedTo == s.subscribedTo
  {
    TrimEmptyIffBlank(s.draft);
  }

  /** One more operation decides the open query on its own, and keeps what came before. */
  lemma ActiveAfterOne(ops: seq<ListenerOp>, op: ListenerOp)
    ensures Active(ops + [op]) == Active([op])
    ensures (ops + [op])[..|ops|] == ops
  {
    assert (ops + [op])[..|ops|] == ops;
  }

  lemma InitialInv(userEmail: string, chatId: string)
    ensures Inv(Open(userEmail, chatId))
  {
    var ops := Acquire(chatId);
    if chatId != "" {
      assert ops[..0] == [];
    }
  }

  lemma ReleaseInv(s: Screen)
    requires OneAtATime(s.listenerOps) && Active(s.listenerOps) == s.subscribedTo
    ensures OneAtATime(s.listenerOps + Release(s)) && Active(s.listenerOps + Release(s)) == None
  {
    var ops := s.listenerOps;
    if s.subscribedTo.Some? {
      var closed := ops + [Unsubscribe(s.subscribedTo.value)];
      assert closed[..|closed| - 1] == ops;
    } else {
      assert ops + Release(s) == ops;
    }
  }

  lemma AcquireInv(ops: seq<ListenerOp>, chatId: string)
    requires OneAtATime(ops) && Active(ops) == None
    ensures OneAtATime(ops + Acquire(chatId)) && Active(ops + Acquire(chatId)) == SubscriptionFor(chatId)
  {
    if chatId != "" {
      ActiveAfterOne(ops, Subscribe(chatId));
    } else {
      assert ops + Acquire(chatId) == ops;
    }
  }

  /** A write as this screen issues it: the user's own, not empty, no whitespace at
      either end (so neither blank nor changed by trimming: see `IssuedTextIsFinal`). */
  predicate IssuedBy(w: Write, userEmail: string) {
    w.chatId != "" && w.from == userEmail && w.text != [] && IsTrimmed(w.text)
  }

  lemma IssuedTextIsFinal(w: Write, userEmail: string)
    requires IssuedBy(w, userEmail)
    ensures !IsBlank(w.text) && Trim(w.text) == w.text
  {
    TrimmedIffFixed(w.text);
  }

  lemma SendInv(s: Screen, writeSucceeds: bool)
    requires Inv(s)
    ensures Inv(Send(s, writeSucceeds))
  {
    if !IsBlank(s.draft) && s.chatId != "" {
      SendWritesOnce(s, writeSucceeds);
      TrimOfNonBlank(s.draft);
      AppendWriteInv(s, Write(s.chatId, s.userEmail, Trim(s.draft)), Send(s, writeSucceeds));
    } else if IsBlank(s.draft) {
      SendBlankIsNoop(s, writeSucceeds);
    }
  }

  lemma AppendWriteInv(s: Screen, w: Write, t: Screen)
    requires Inv(s) && IssuedBy(w, s.userEmail)
    requires t.writes == s.writes + [w] && t.userEmail == s.userEmail && t.listenerOps == s.listenerOps
    requires t.subscribedTo == s.subscribedTo && t.mounted == s.mounted && t.chatId == s.chatId
    ensures Inv(t)
  {
    forall i | 0 <= i < |t.writes|
      ensures IssuedBy(t.writes[i], t.userEmail)
    {
      if i < |s.writes| {
        assert t.writes[i] == s.writes[i];
      }
    }
  }

  /** Every event keeps the invariant: one listener at most, open exactly for the current
      non-empty conversation while mounted, and every write trimmed, non-blank and the
      user's own. */
  lemma StepInv(s: Screen, e: Event)
    requires Inv(s)
    ensures Inv(Step(s, e))
  {
    match e
    case ChatChanged(chatId) =>
      if s.mounted && chatId != s.chatId {
        ReleaseInv(s);
        AcquireInv(s.listenerOps + Release(s), chatId);
        assert s.listenerOps + Release(s) + Acquire(chatId) == (s.listenerOps + Release(s)) + Acquire(chatId);
      }
    case SendPressed(ok) =>
      if s.mounted {
        SendInv(s, ok);
      }
    case Unmounted =>
      ReleaseInv(s);
    case _ =>
  }

  lemma {:induction false} RunInv(s: Screen, events: seq<Event>)
    requires Inv(s)
    ensures Inv(Run(s, events))
    decreases |events|
  {
    if events != [] {
      StepInv(s, events[0]);
      RunInv(Step(s, events[0]), events[1..]);
    }
  }

  /** From mounting on, whatever happens, at most one query is open at a time, and once
      the screen is gone none is. */
  lemma {:induction false} ReachableOneListener(userEmail: string, chatId: string, events: seq<Event>)
    ensures var s := Run(Open(userEmail, chatId), events);
            OneAtATime(s.listenerOps) && (!s.mounted ==> Active(s.listenerOps) == None)
  {
    InitialInv(userEmail, chatId);
    RunInv(Open(userEmail, chatId), events);
  }

  /** A document the store makes from one of this screen's writes is drawn as the
      user's own, whatever id and timestamp the store gives it. */
  lemma OwnWritesRenderAsMine(s: Screen, w: Write, id: string, timestamp: int)
    requires Inv(s) && w in s.writes
    ensures IsMine(ToEntry(Doc(id, DocData(w.from, w.text, timestamp))), s.userEmail)
  {
  }

  /** Sending, typing and switching conversation never change the local log: only a
      snapshot does. */
  lemma {:induction false} OnlySnapshotsChangeLog(s: Screen, events: seq<Event>)
    requires forall i :: 0 <= i < |events| ==> !events[i].Snapshot?
    ensures Run(s, events).messages == s.messages
    decreases |events|
  {
    if events != [] {
      OnlySnapshotsChangeLog(Step(s, events[0]), events[1..]);
    }
  }

  // ---------------------------------------------------------------- the component

  class ChatScreen {
    const userEmail: string
    var mounted: bool
    var chatId: string
    var subscribedTo: Option<string>
    var draft: string
    var messages: seq<Entry>
    ghost var writes: seq<Write>
    ghost var listenerOps: seq<ListenerOp>

    ghost function State(): Screen
      reads this
    {
      Screen(userEmail, mounted, chatId, subscribedTo, draft, messages, writes, listenerOps)
    }

    /** Mounting on the route's `chatId` and running the effect once. */
    constructor (userEmail: string, chatId: string)
      ensures State() == Open(userEmail, chatId)
    {
      this.userEmail := userEmail;
      this.chatId := chatId;
      mounted := true;
      draft, messages, writes := "", [], [];
      if chatId == "" {
        subscribedTo, listenerOps := None, [];
      } else {
        subscribedTo, listenerOps := Some(chatId), [Subscribe(chatId)];
      }
    }

    /** A new `chatId`: the effect's cleanup, then the effect. */
    method ChangeChat(newChatId: string)
      modifies this
      ensures State() == Step(old(State()), ChatChanged(newChatId))
    {
      if !mounted || newChatId == chatId {
        return;
      }
      Unsubscribe();
      chatId := newChatId;
      if newChatId != "" {
        subscribedTo := Some(newChatId);
        listenerOps := listenerOps + [Subscribe(newChatId)];
      }
    }

    /** The `unsubscribe` the effect returned, when it returned one. */
    method Unsubscribe()
      modifies this
      ensures subscribedTo == None && listenerOps == old(listenerOps) + Release(old(State()))
      ensures mounted == old(mounted) && chatId == old(chatId) && draft == old(draft)
      ensures messages == old(messages) && writes == old(writes)
    {
      if subscribedTo.Some? {
        listenerOps := listenerOps + [ListenerOp.Unsubscribe(subscribedTo.value)];
        subscribedTo := None;
      }
    }

    /** The `onSnapshot` callback. */
    method OnSnapshot(forChat: string, docs: seq<Doc>)
      modifies this
      ensures State() == Step(old(State()), Snapshot(forChat, docs))
    {
      if subscribedTo == Some(forChat) {
        messages := ToLog(docs);
      }
    }

    method SetMessage(text: string)
      modifies this
      ensures State() == Step(old(State()), DraftTyped(text))
    {
      if mounted {
        draft := text;
      }
    }

    /** `sendMessage`; `writeSucceeds` is how the awaited `addDoc` ends. */
    method SendMessage(writeSucceeds: bool)
      modifies this
      ensures State() == Send(old(State()), writeSucceeds)
    {
      if Trim(draft) == [] {
        return;
      }
      if chatId == "" {
        // `collection(db, 'chats', chatId, 'messages')` throws: `addDoc` never runs
        return;
      }
      writes := writes + [Write(chatId, userEmail, Trim(draft))];
      if writeSucceeds {
        draft := "";
      }
    }

    /** The send button, which exists only while mounted. */
    method PressSend(writeSucceeds: bool)
      modifies this
      ensures State() == Step(old(State()), SendPressed(writeSucceeds))
    {
      if mounted {
        SendMessage(writeSucceeds);
      }
    }

    /** Leaving the screen: the effect's cleanup. */
    method Unmount()
      modifies this
      ensures State() == Step(old(State()), Unmounted)
    {
      Unsubscribe();
      mounted := false;
    }
  }
}
