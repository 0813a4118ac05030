/** The connection handler of the chat server: the live sockets, each
    socket's `currentUsername`, the Message collection, and every event
    emitted so far. Each handler of a socket is one method. */
module ChatServer {
  import opened ChatTypes
  import opened Broadcast
  import opened HistoryQuery

  class Registry {
    /** Whether a database connection string was configured (DB_URI). */
    const dbEnabled: bool
    /** The connected sockets, in the order they connected. */
    var live: seq<ConnId>
    /** The `currentUsername` of each connected socket. */
    var names: map<ConnId, string>
    /** The Message collection. */
    var log: seq<ChatMessage>
    /** Every event emitted so far, each with the socket it went to. */
    var outbox: seq<Delivery>
    /** Every socket id that has ever connected. */
    ghost var seen: set<ConnId>

    ghost predicate Valid()
      reads this
    {
      && Distinct(live)
      && (forall c :: c in names <==> c in live)
      && (forall c :: c in live ==> c in seen)
      && AddressedWithin(outbox, seen)
    }

    /** A server with no sockets; `stored` is what the Message collection
        already holds. */
    constructor (dbEnabled: bool, stored: seq<ChatMessage>)
      ensures Valid()
      ensures this.dbEnabled == dbEnabled
      ensures live == [] && names == map[] && log == stored && outbox == []
      ensures seen == {}
    {
      this.dbEnabled := dbEnabled;
      live, names, log, outbox := [], map[], stored, [];
      seen := {};
    }

    /** A new socket connects as the placeholder user. When the database is
        configured and the query succeeds (`historyOk`), the new socket, and
        it alone, is sent the earliest HistoryLimit stored messages. */
    method OnConnect(id: ConnId, historyOk: bool)
      requires Valid()
      requires id !in seen   // the transport never reuses a socket id
      modifies this
      ensures Valid()
      ensures live == old(live) + [id]
      ensures names == old(names)[id := Anonymous]
      ensures log == old(log)
      ensures seen == old(seen) + {id}
      ensures outbox == old(outbox) +
        if dbEnabled && historyOk then [Delivery(id, History(EarliestBatch(log, HistoryLimit)))]
        else []
      ensures Inbox(outbox, id) ==
        if dbEnabled && historyOk then [History(EarliestBatch(log, HistoryLimit))] else []
      ensures forall r :: r != id ==> Inbox(outbox, r) == Inbox(old(outbox), r)
    {
      var sent: seq<Delivery> := [];
      if dbEnabled && historyOk {
        sent := [Delivery(id, History(EarliestBatch(log, HistoryLimit)))];
      }
      InboxOfOthers(outbox, id);
      InboxConcat(outbox, sent, id);
      forall r | r != id ensures Inbox(outbox + sent, r) == Inbox(outbox, r) {
        InboxConcat(outbox, sent, r);
        InboxOfOthers(sent, r);
      }
      live := live + [id];
      names := names[id := Anonymous];
      seen := seen + {id};
      outbox := outbox + sent;
    }

    /** `login`: the password is compared with the one shared password. On a
        match the socket takes the supplied name and is told so; otherwise it
        is told the password is wrong and keeps its name. The reply goes to
        the caller only, and no other socket's name changes. */
    method OnLogin(id: ConnId, username: string, password: string) returns (ok: bool)
      requires Valid()
      requires id in names
      modifies this
      ensures Valid()
      ensures ok <==> password == CorrectPassword
      ensures names == if ok then old(names)[id := username] else old(names)
      ensures outbox == old(outbox) +
        [Delivery(id, LoginReply(if ok then LoginSuccess(username) else LoginFailure(WrongPasswordText)))]
      ensures forall r :: Inbox(outbox, r) == Inbox(old(outbox), r) +
                          if r == id then [outbox[|outbox| - 1].event] else []
      ensures live == old(live) && log == old(log) && seen == old(seen)
    {
      ok := password == CorrectPassword;
      var reply := LoginReply(if ok then LoginSuccess(username) else LoginFailure(WrongPasswordText));
      if ok {
        names := names[id := username];
      }
      forall r ensures Inbox(outbox + [Delivery(id, reply)], r) == Inbox(outbox, r) +
                       if r == id then [reply] else []
      {
        InboxConcat(outbox, [Delivery(id, reply)], r);
      }
      outbox := outbox + [Delivery(id, reply)];
    }

    /** `new user`: unless the socket's name is the placeholder, every live
        socket, the caller included, gets one join notice naming it. Nothing
        stops the notice from being sent again on a repeated call. */
    method OnNewUser(id: ConnId, timestamp: int)
      requires Valid()
      requires id in names
      modifies this
      ensures Valid()
      ensures live == old(live) && names == old(names) && log == old(log) && seen == old(seen)
      ensures outbox == old(outbox) +
        if names[id] != Anonymous then Fanout(live, SystemNotice(Joined(names[id]), timestamp))
        else []
      ensures forall r :: Inbox(outbox, r) == Inbox(old(outbox), r) +
                          if names[id] != Anonymous && r in live
                          then [SystemNotice(Joined(names[id]), timestamp)] else []
    {
      var sent: seq<Delivery> := [];
      if names[id] != Anonymous {
        sent := Fanout(live, SystemNotice(Joined(names[id]), timestamp));
        FanoutAddressed(outbox, live, SystemNotice(Joined(names[id]), timestamp), seen);
      }
      forall r ensures Inbox(outbox + sent, r) == Inbox(outbox, r) +
        if names[id] != Anonymous && r in live then [SystemNotice(Joined(names[id]), timestamp)]
        else []
      {
        InboxConcat(outbox, sent, r);
        InboxFanout(live, SystemNotice(Joined(names[id]), timestamp), r);
      }
      outbox := outbox + sent;
    }

    /** `chat message`: the message carries the sender's current name, even
        the placeholder. It is stored only when the database is configured
        and the save succeeds (`saveOk`); a failed save is swallowed. Either
        way every other live socket gets it exactly once, the sender never. */
    method OnChatMessage(id: ConnId, text: string, timestamp: int, saveOk: bool)
      returns (m: ChatMessage)
      requires Valid()
      requires id in names
      modifies this
      ensures Valid()
      ensures live == old(live) && names == old(names) && seen == old(seen)
      ensures m == ChatMessage(names[id], text, timestamp)
      ensures log == if dbEnabled && saveOk then old(log) + [m] else old(log)
      ensures outbox == old(outbox) + Fanout(Without(live, id), Chat(m))
      ensures forall r :: Inbox(outbox, r) == Inbox(old(outbox), r) +
                          if r in live && r != id then [Chat(m)] else []
    {
      m := ChatMessage(names[id], text, timestamp);
      if dbEnabled && saveOk {
        log := log + [m];
      }
      var sent := Fanout(Without(live, id), Chat(m));
      FanoutAddressed(outbox, Without(live, id), Chat(m), seen);
      forall r ensures Inbox(outbox + sent, r) == Inbox(outbox, r) +
        if r in live && r != id then [Chat(m)] else []
      {
        InboxConcat(outbox, sent, r);
        BroadcastReachesOthersOnce(live, id, Chat(m), r);
      }
      outbox := outbox + sent;
    }

    /** `disconnect`: the socket leaves, and every remaining socket gets one
        leave notice with its current name, whether or not it ever logged in. */
    method OnDisconnect(id: ConnId, timestamp: int)
      requires Valid()
      requires id in names
      modifies this
      ensures Valid()
      ensures live == Without(old(live), id)
      ensures names == old(names) - {id}
      ensures outbox == old(outbox) + Fanout(live, SystemNotice(Left(old(names)[id]), timestamp))
      ensures forall r :: Inbox(outbox, r) == Inbox(old(outbox), r) +
                          if r in old(live) && r != id
                          then [SystemNotice(Left(old(names)[id]), timestamp)] else []
      ensures log == old(log) && seen == old(seen)
    {
      var notice := SystemNotice(Left(names[id]), timestamp);
      var rest := Without(live, id);
      var sent := Fanout(rest, notice);
      FanoutAddressed(outbox, rest, notice, seen);
      forall r ensures Inbox(outbox + sent, r) == Inbox(outbox, r) +
        if r in live && r != id then [notice] else []
      {
        InboxConcat(outbox, sent, r);
        BroadcastReachesOthersOnce(live, id, notice, r);
      }
      live := rest;
      names := names - {id};
      outbox := outbox + sent;
    }
  }
}
