# Chat client message logs, modelled in Dafny

This project models the two message-log state machines of a small React Native chat
client and proves what each one promises.

- **Socket chat screen** (`App` in App.js, module `SocketChat`). It has a six-digit session
  id drawn at launch and a connection flag driven by the socket's `connect` and
  `disconnect` events. It also holds a contact id, a draft, and an in-memory log.
  `sendMessage` is guarded: the contact id and the draft must be non-blank after
  trimming, and a socket must exist. When the guard passes, it emits one
  `private-message` and at once appends a `sent` entry (an optimistic append, with no
  acknowledgement). It then clears the draft. Each inbound `private-message` appends one
  `received` entry. While the flag is false, the screen shows only a "connecting"
  placeholder.
- **Conversation screen** (`ChatScreen` in screens/ChatScreen.js, module `Conversation`).
  It runs a live query on `chats/{chatId}/messages`, ordered by ascending `timestamp`.
  Every snapshot replaces the whole log with the snapshot's documents. The subscription
  is opened and closed by an effect keyed on `chatId`. `sendMessage` writes one document
  with the trimmed draft and the user's email, and never touches the local log. It
  clears the draft only once the write has completed.

Each screen is modelled twice over, in two forms.

- **A value-level specification.** A `Screen` datatype holds the component's whole state,
  and `Step` gives its reaction to one `Event`. `Run` applies a sequence of events.
- **A class with the component's state fields.** Its event handlers are methods, each proved
  to follow `Step`.

The socket's outgoing traffic and the store's traffic appear only as abstract traces:
- `emitted` is the list of `private-message` emissions;
- `writes` is the list of `addDoc` calls;
- `listenerOps` is the list of query subscriptions opened and closed.

The helper modules are `JsText` (`String.prototype.trim` over ECMAScript's whitespace
and line terminators) and `Decimal` (the integer-to-string rendering of the session id).

The model follows the code in three places where a reader might expect otherwise:
- the connection state is a single boolean, not three states;
- the socket screen's send guard checks that a socket object exists, not that it is
  connected; the rendering gate keeps the button away while not connected;
- the conversation screen does not append its own messages optimistically.

## Model

| member | source | states |
|---|---|---|
| `SocketChat.UserCode` | App.js:11 | the session id is six decimal digits with no leading zero, denoting 100000 + r for a random part r in [0, 900000) |
| `Decimal.ParseToDecimal` | App.js:11 | reading back the decimal rendering of an integer gives that integer |
| `Decimal.DecimalLength` | App.js:11 | an integer in [10^k, 10^(k+1)) is rendered with exactly k + 1 digits |
| `SocketChat.App.constructor` | App.js:9-20 | first render: not connected, no socket, empty contact id, draft and log, the session id drawn once |
| `SocketChat.App.Mount` | App.js:22-28 | the mount effect opens the socket once, keeps it and registers the handlers |
| `SocketChat.App.OnConnect` | App.js:30-31 | `connect` sets the connection flag while handlers are registered |
| `SocketChat.App.OnDisconnect` | App.js:32-33 | `disconnect` clears the connection flag while handlers are registered |
| `SocketChat.ConnectionFlag` | App.js:30-33 | after `connect` the flag is true, after `disconnect` it is false |
| `SocketChat.App.OnPrivateMessage` | App.js:39-43 | an inbound private message appends one `received` entry |
| `SocketChat.InboundAppends` | App.js:39-43 | an inbound `{from, message}` appends exactly `{from, message, received}` at the end and changes nothing else |
| `SocketChat.InboundOrder` | App.js:39-43 | two inbound messages are logged after the existing entries, in arrival order |
| `SocketChat.App.SetContactId` | App.js:85-90 | typing sets the contact id, only while the input is rendered |
| `SocketChat.App.SetMessage` | App.js:93-98 | typing sets the draft, only while the input is rendered |
| `SocketChat.Send` | App.js:53-67 | `sendMessage` on the state value: the contact id, session id and connection are kept, the log and the emissions only grow and by the same count (at most one), and the draft changes only to `''` together with an emission; `SendAccepted` and `SendRejected` give it exactly |
| `SocketChat.Step` | App.js:22-104 | the reaction to one event: the session id is kept, the log and the emissions grow by at most one entry each, and an emission happens only on the send button while connected; `StepInv` and `RunOnlyGrows` build on it |
| `SocketChat.App.SendMessage` | App.js:53-67 | the handler's new state is exactly `Send` of the old one |
| `SocketChat.SendAccepted` | App.js:53-66 | with non-blank contact id and draft and a socket: one emission `{to: contactId, message: draft}` (untrimmed), one `{Você, draft, sent}` entry at the end, draft cleared, nothing else changed |
| `SocketChat.SendRejected` | App.js:54 | a blank contact id, a blank draft or no socket: nothing changes, nothing is emitted |
| `SocketChat.SendHiScenario` | App.js:53-67 | sending `hi` to `654321` while connected logs `{Você, hi, sent}`, emits one `{to: 654321, message: hi}`, clears the draft, keeps the contact id, and the last rendered line is `Você: hi` |
| `SocketChat.App.PressSend` | App.js:100-104 | the button, rendered only while connected, runs `sendMessage` |
| `SocketChat.NothingSentWhileConnecting` | App.js:69-75 | while not connected only the placeholder is rendered, no event emits anything, and only an inbound message can change the log |
| `SocketChat.App.Unmount` | App.js:47-50 | cleanup disconnects and removes every handler: the new state is `Step` of the old one on `Unmounted`, which `UnmountSilencesSocket` shows no later socket event can change |
| `SocketChat.Label` | App.js:111 | the label of an entry, `Você` exactly for sent entries; `LabelDistinguishesSent` adds `'De ' + from` for the others |
| `SocketChat.Render` | App.js:69-116 | the placeholder exactly while not connected; otherwise the chat showing the session id, the contact id and the draft in the two inputs, and one line per log entry, line i being `Label(entry i) + ': ' + message i` |
| `SocketChat.UnmountSilencesSocket` | App.js:47-50 | after teardown, `connect`, `disconnect` and inbound messages change nothing |
| `SocketChat.LabelDistinguishesSent` | App.js:111 | the label is `Você` for sent entries and `De ` + from otherwise, and equals `Você` exactly for sent entries |
| `SocketChat.StepInv` | App.js:39-67 | every event keeps the invariant: sent entries carry the self label, nothing blank is emitted, sent entries match emissions one for one and in order |
| `SocketChat.RunInv` | App.js:39-67 | the invariant holds after any sequence of events |
| `SocketChat.ReachableSentMatchesEmitted` | App.js:56-64 | in every state reached from launch, the number of emissions equals the number of sent entries, with the same texts in the same order |
| `SocketChat.RunOnlyGrows` | App.js:40-43 | across any events the log and the emissions only grow: earlier entries stay in place; the session id never changes |
| `JsText.Trim` | App.js:54 | `String.prototype.trim`, as `trimEnd` after `trimStart` over ECMAScript whitespace and line terminators; `TrimShape`, `TrimEmptyIffBlank` and `TrimmedIffFixed` describe it |
| `JsText.TrimEmptyIffBlank` | App.js:54 | `!s.trim()` holds exactly when every character of s is whitespace |
| `JsText.TrimShape` | screens/ChatScreen.js:48 | `trim` returns the substring of its input that is left once the whitespace at both ends is dropped: that substring has no whitespace at either end, and everything dropped is whitespace |
| `JsText.TrimmedIffFixed` | screens/ChatScreen.js:48 | `trim` leaves a string unchanged exactly when it has no whitespace at either end |
| `JsText.TrimIdempotent` | screens/ChatScreen.js:48 | trimming a trimmed text changes nothing |
| `JsText.TrimOfNonBlank` | screens/ChatScreen.js:43-48 | a non-blank draft trims to a non-empty, non-blank text |
| `Conversation.ChatScreen.constructor` | screens/ChatScreen.js:16-26 | mount: empty draft and log, one query opened when `chatId` is truthy, none otherwise |
| `Conversation.ChatScreen.OnSnapshot` | screens/ChatScreen.js:31-37 | the snapshot callback of the open query sets the log to the mapped documents |
| `Conversation.ToLog` | screens/ChatScreen.js:32-35 | the `map` of a snapshot's documents to `{id, ...data}` entries, one entry per document; `ToLogAt`, `ToLogRoundTrip` and `ToLogKeepsOrder` describe it |
| `Conversation.ToLogAt` | screens/ChatScreen.js:32-35 | the log has one entry per document; the i-th entry is `{id, ...data}` of the i-th document |
| `Conversation.ToLogRoundTrip` | screens/ChatScreen.js:32-35 | the documents can be recovered from the log: the conversion loses nothing |
| `Conversation.ToLogKeepsOrder` | screens/ChatScreen.js:29-35 | documents in ascending timestamp order make a log in ascending timestamp order |
| `Conversation.SnapshotReplaces` | screens/ChatScreen.js:31-37 | a snapshot through the open query sets the log to exactly its documents, in order; the length equals the document count; nothing else changes |
| `Conversation.SnapshotForgetsLocalLog` | screens/ChatScreen.js:36 | the log after a snapshot does not depend on the log before it |
| `Conversation.SnapshotOrdered` | screens/ChatScreen.js:29-36 | with the query's ascending order, the log after a snapshot is sorted by timestamp |
| `Conversation.SnapshotWithoutListenerIgnored` | screens/ChatScreen.js:39 | a snapshot that does not come through the open query changes nothing |
| `Conversation.FalsyChatOpensNothing` | screens/ChatScreen.js:26 | a falsy `chatId` opens no query, and switching to one closes the old query and keeps the log |
| `Conversation.ChatScreen.ChangeChat` | screens/ChatScreen.js:25-40 | a new `chatId` runs the cleanup, then the effect |
| `Conversation.ChatScreen.Unsubscribe` | screens/ChatScreen.js:39 | the cleanup closes the open query, if any, and changes nothing else |
| `Conversation.ChangeClosesBeforeOpening` | screens/ChatScreen.js:25-40 | changing conversation closes the old query before opening the new one |
| `Conversation.ChatScreen.Unmount` | screens/ChatScreen.js:39 | leaving the screen closes the open query |
| `Conversation.UnmountIdempotent` | screens/ChatScreen.js:39 | running the cleanup twice is the same as once |
| `Conversation.StepInv` | screens/ChatScreen.js:25-53 | every event keeps the invariant: at most one query is open, and it is open exactly for the current non-empty `chatId` while mounted; every write is the user's, to a non-empty conversation, non-empty and trimmed |
| `Conversation.RunInv` | screens/ChatScreen.js:25-53 | the invariant holds after any sequence of events |
| `Conversation.ReachableOneListener` | screens/ChatScreen.js:25-40 | from mount on, queries are opened only when none is open and closed only when open, and none is left open once unmounted |
| `Conversation.ChatScreen.SetMessage` | screens/ChatScreen.js:78-83 | typing sets the draft while mounted |
| `Conversation.Send` | screens/ChatScreen.js:42-53 | `sendMessage` on the state value: the log, conversation and subscription are kept, the writes grow by at most one, and the draft changes only to `''` on a successful write; `SendBlankIsNoop`, `SendWithoutChatFails` and `SendWritesOnce` give it exactly |
| `Conversation.Step` | screens/ChatScreen.js:25-87 | the reaction to one event: the user is kept, writes and listener operations only grow, only a snapshot changes the log, and an unmounted screen writes nothing and keeps its draft |
| `Conversation.IsMine` | screens/ChatScreen.js:71 | whether an entry is drawn as the user's own, `from === user.email`; `OwnWritesRenderAsMine` ties it to the screen's writes |
| `Conversation.SendWithoutChatFails` | screens/ChatScreen.js:45 | with an empty `chatId`, `collection` throws before `addDoc`: nothing is written and the draft stays |
| `Conversation.ChatScreen.SendMessage` | screens/ChatScreen.js:42-53 | the handler's new state is exactly `Send` of the old one, for the given write outcome |
| `Conversation.ChatScreen.PressSend` | screens/ChatScreen.js:84-87 | the button runs `sendMessage` while mounted |
| `Conversation.SendBlankIsNoop` | screens/ChatScreen.js:43 | a blank draft: no write, the draft unchanged |
| `Conversation.SendWritesOnce` | screens/ChatScreen.js:42-53 | a non-blank draft in a conversation: exactly one write `{chatId, user.email, draft.trim()}`, the local log unchanged, the draft cleared only when the write succeeds; with an empty `chatId`, no change at all |
| `Conversation.IssuedTextIsFinal` | screens/ChatScreen.js:43-48 | a written text is neither blank nor changed by trimming |
| `Conversation.OnlySnapshotsChangeLog` | screens/ChatScreen.js:31-53 | across any events without a snapshot, the local log stays as it was: sending never touches it |
| `Conversation.OwnWritesRenderAsMine` | screens/ChatScreen.js:71 | a document made from one of the screen's writes is drawn as the user's own |

## Left out

- navigation/AppNavigator.js: it only wires the navigation stack and has no logic.
- The socket.io client and the Firestore calls (`io`, `emit`, `collection`, `query`, `orderBy`, `onSnapshot`, `addDoc`, `serverTimestamp`) are foreign library and network code. They appear only as the traces `emitted`, `writes` and `listenerOps`. The store's ordering is an assumption (`DocsByTimestamp`) passed to `SnapshotOrdered`.
- `async`/`await`: the outcome of `addDoc` is a boolean argument. Each send runs to completion before the next event. Two things the code allows are therefore not modelled. Edits typed while a write is pending would be cleared on success. A second press while `addDoc` is still pending would write the same text twice.
- `writes` records every `addDoc` call the screen makes, whether or not the store accepts it. A send with an empty `chatId` makes no call: `collection` throws first.
- `SocketChat.UserCode`: `Math.random()` is floating point. The model takes r, the whole part of `Math.random() * 900000`, as an integer in [0, 900000). The id is recomputed on every render but only the first value is kept, so it is modelled as drawn once.
- The `time-msg` handler and its display (App.js:35-37): the date formatting depends on locale and is purely informational.
- `process.env` (App.js:6), `console.log` (App.js:44), the `useAuth`/`useRoute`/`useNavigation` plumbing (the user's email and `chatId` are parameters), the back button, JSX layout and styles.
- `SocketChat.App.Unmount`: assumes the socket's `disconnect()` reaches the still-registered `disconnect` handler before `removeAllListeners()`, so the flag ends false. After unmount nothing is rendered either way.
- Firestore's local latency compensation, where a pending write can appear in a snapshot with a null timestamp, is library behaviour and is not modelled. Timestamps are integers.
- JavaScript strings are UTF-16. Every character `trim` removes lies in the Basic Multilingual Plane, so modelling strings as sequences of code points changes nothing for trimming.
