# Chat server connection handler, modelled in Dafny

This project models the socket handler of a small real-time group chat (the
`io.on('connection', …)` block of `server.js`). When a socket connects it
starts under the placeholder name `Аноним`. If a database is configured, it
is sent the stored message history. It can then:

- send `login` with a username and a password, which is checked against one
  shared password;
- send `new user` to announce that it joined;
- send `chat message`, which goes to every other socket;
- disconnect, which tells the remaining sockets that it left.

The model keeps one state object, `ChatServer.Registry`, with these fields:

- `live`: the connected sockets, in connection order;
- `names`: each live socket's `currentUsername`;
- `log`: the Message collection;
- `outbox`: every event emitted so far, paired with the socket it went to;
- `seen`: a ghost set of every socket id that ever connected.

Each socket event is one method. Each method's contract gives the whole new
state. It also gives the new state per socket: `Inbox(outbox, r)` is the
sequence of events socket `r` has received, and each handler's contract says
what it adds to every socket's inbox.

Modules:

- `ChatTypes` (`chat_types.dfy`): the constants (the placeholder name, the
  shared password, the wrong-password text, the history limit of 50), chat
  messages, notices, login replies, events and deliveries.
- `Broadcast` (`broadcast.dfy`): fan-out of one event to a list of sockets.
  `Without` gives "everyone but the sender" and also the socket list after a
  disconnect. `Inbox` is one socket's view of the deliveries. The lemmas say
  who receives how many copies.
- `HistoryQuery` (`history.dfy`): the query
  `Message.find().sort({ timestamp: 1 }).limit(50)`. It is an insertion sort
  by timestamp followed by taking a prefix. The lemmas say that the result is
  time-ordered, drawn from the log, of size min(50, n), and the earliest part
  of the log.
- `ChatServer` (`registry.dfy`): the `Registry` class and its handlers.
- `Scenarios` (`scenarios.dfy`): whole sessions with concrete names. For each
  one the contract states exactly what every socket ends up receiving.

What the code does, and what the model therefore does:

- There is no account store. Every login is checked against one shared
  password constant. There is no registration and no minimum length.
- A login may set any name, even the placeholder `Аноним`. `new user` stays
  silent while the name equals the placeholder, however the socket got that
  name.
- `new user` announces the socket again each time it is called. Nothing
  de-duplicates the notice.
- Chat from a socket that never logged in is still stored and broadcast,
  under the placeholder name.
- `disconnect` always sends a leave notice, whether or not the socket logged
  in.
- The history batch holds the *earliest* 50 messages by timestamp, not the
  most recent 50.

The external inputs become parameters:

- The `DB_URI` setting is the constant `dbEnabled`.
- Whether the history query succeeds is the `historyOk` argument of
  `OnConnect`.
- Whether `save()` succeeds is the `saveOk` argument of `OnChatMessage`.
- The `new Date()` values are integer `timestamp` arguments.
- Socket ids are supplied by the caller.

## Model

| member | source | states |
|---|---|---|
| ChatServer.Registry.OnConnect | server.js:2-17 | A new socket joins the live list under the placeholder name. The history batch, the earliest HistoryLimit stored messages by timestamp, goes to the new socket only and, since each handler runs to completion in the model, is the first event it receives. It is sent only when the database is configured and the query succeeds; otherwise nothing is sent. No other socket's inbox changes. |
| ChatServer.Registry.OnLogin | server.js:20-32 | The result is true exactly when the password equals the shared constant. On success only the caller's name becomes the supplied name. On failure no name changes. Exactly one reply goes to the caller and to no other socket: success with the name, or failure with the wrong-password text. |
| ChatServer.Registry.OnNewUser | server.js:35-44 | If the caller's name is the placeholder, nothing is emitted. Otherwise every live socket, the caller included, gets exactly one join notice naming the caller. No name, socket or stored message changes. |
| ChatServer.Registry.OnChatMessage | server.js:47-67 | The message carries the sender's current name, the placeholder included, plus the text and the timestamp. It is appended to the log exactly when the database is configured and the save succeeds. Every live socket except the sender gets exactly one copy, even when the save fails. The sender gets none. No name changes. |
| ChatServer.Registry.OnDisconnect | server.js:70-76 | The socket leaves the live list and the name map. Every remaining socket gets exactly one leave notice with the socket's current name, whether or not it logged in. The departing socket gets nothing. (A socket that disconnects before its history query returns sends no notice in the source; see "## Left out".) |
| Broadcast.Without | server.js:66 | The targets of a send to everyone but the sender: exactly the listed sockets other than the sender. The list stays free of repeats and is one shorter when the sender was listed. |
| Broadcast.Fanout | server.js:38-42 | One delivery of the event per target, in the targets' order, and nothing else. |
| Broadcast.InboxFanout | server.js:38-42 | Sending an event to every socket of a list without repeats gives each listed socket exactly one copy and every other socket none. |
| Broadcast.BroadcastReachesOthersOnce | server.js:66 | A send to everyone but the sender gives every other live socket exactly one copy and the sender none. |
| HistoryQuery.InsertByTime | server.js:12 | Inserting a message into a time-ordered list keeps it time-ordered and adds exactly that message. |
| HistoryQuery.SortByTime | server.js:12 | The sorted log is in non-decreasing timestamp order and is a permutation of the log. |
| HistoryQuery.EarliestBatch | server.js:12 | The query: sort by timestamp, take the first min(limit, n). The batch holds min(limit, n) messages, in non-decreasing timestamp order, all taken from the log and counted with multiplicity. |
| HistoryQuery.EarliestBatchIsEarliest | server.js:12 | No stored message left out of the batch is earlier than a message in it, so the batch is the earliest part of the log. |
| HistoryQuery.EarliestBatchOfOrderedLog | server.js:12 | When the log's timestamps already ascend, the batch is the log's first min(limit, n) messages. |
| HistoryQuery.SortByTimeOfSorted | server.js:12 | Sorting a log that is already time-ordered leaves it unchanged. |
| Scenarios.AnonymousChatScenario | server.js:47-66 | A and B connect and A logs in and joins. B then chats while still `Аноним`: the message is stored and reaches A under the placeholder name, and B gets no copy. When A disconnects, B receives A's leave notice. |
| Scenarios.PlaceholderLoginScenario | server.js:20-43 | A wrong password is refused and the name stays the placeholder. A login under the name `Аноним` with the right password succeeds, and `new user` then emits nothing. |
| Scenarios.RepeatedJoinScenario | server.js:35-43 | After a login as "bob", each of two `new user` calls sends the caller its own join notice, so the caller receives two. |

## Left out

- The socket.io transport is not modelled. An emit is modelled as appending (socket, event) deliveries to `outbox`. Broadcasts go out in the order of the live list, which is the order in which socket.io keeps its sockets.
- Mongoose and MongoDB are not modelled. The collection is a sequence. The query is a stable sort by timestamp followed by taking a prefix. MongoDB leaves the order of messages with equal timestamps unspecified; the model keeps storage order. What the contract of `EarliestBatch` and the lemma `EarliestBatchIsEarliest` say about the batch holds for any order of ties.
- A failing history query or save is not modelled as an exception. Each is a boolean argument. A failure is caught and logged, so it only means that nothing is sent or stored.
- Console logging, `server.listen` and `PORT`, and reading `DB_URI` from the environment are not modelled. `DB_URI` is the constant `dbEnabled`.
- `new Date()` is not modelled. Timestamps are caller-supplied integers, and no order is assumed between them.
- Asynchronous interleaving is not modelled; in the model each handler runs to completion, so a new socket's history always comes first. In the source the socket is already connected while its history query is awaited (server.js:12), with these consequences: events the socket sends before the handlers are registered are lost; chat and notices that other sockets cause during the wait (server.js:38, 66, 71) reach the new socket before its history; a socket that disconnects during the wait has no `disconnect` listener yet (server.js:70), so no leave notice is sent for it; and other events can run while a save is pending (server.js:59).
- The formatted notice texts (`**name** вошел в чат.` and `**name** покинул чат.`) and the `Система` sender name on notices are not modelled. They become `Joined(name)` and `Left(name)`. On the wire a peer's chat and a notice are the same `chat message` event with the same shape (server.js:38-42, 66, 71-75), so a user who logs in as `Система` can send text that looks exactly like a notice; the separate `Chat` and `SystemNotice` events of the model do not capture that.
- JavaScript dynamic typing is not modelled. Usernames, passwords and message texts are strings. A non-string password never equals the constant in the source either. A `login` event with no payload throws in the source; it is not modelled.
- A socket id that is reused after a disconnect is excluded by `OnConnect`'s precondition. Socket.io gives every connection a fresh id.
