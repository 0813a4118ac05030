/** Whole sessions run through the connection handler, with what each
    socket ends up receiving. */
module Scenarios {
  import opened ChatTypes
  import opened Broadcast
  import opened ChatServer

  /** A and B connect to an empty, configured store; each gets the empty
      history. */
  method BothConnect() returns (server: Registry)
    ensures fresh(server) && server.Valid() && server.dbEnabled
    ensures server.live == ["A", "B"] && server.log == []
    ensures "A" in server.names && server.names["A"] == Anonymous
    ensures "B" in server.names && server.names["B"] == Anonymous
    ensures Inbox(server.outbox, "A") == [History([])]
    ensures Inbox(server.outbox, "B") == [History([])]
  {
    server := new Registry(true, []);
    assert HistoryQuery.EarliestBatch([], HistoryLimit) == [];
    server.OnConnect("A", true);
    assert Inbox(server.outbox, "A") == [History([])];
    server.OnConnect("B", true);
  }

  /** After BothConnect, A logs in as "alice" and announces itself; the
      caller and B both get the join notice. */
  method AliceJoins() returns (server: Registry)
    ensures fresh(server) && server.Valid() && server.dbEnabled
    ensures server.live == ["A", "B"] && server.log == []
    ensures "A" in server.names && server.names["A"] == "alice"
    ensures "B" in server.names && server.names["B"] == Anonymous
    ensures Inbox(server.outbox, "A") ==
            [History([]), LoginReply(LoginSuccess("alice")), SystemNotice(Joined("alice"), 1)]
    ensures Inbox(server.outbox, "B") == [History([]), SystemNotice(Joined("alice"), 1)]
  {
    server := BothConnect();
    var ok := server.OnLogin("A", "alice", CorrectPassword);
    server.OnNewUser("A", 1);
  }

  /** After AliceJoins, B chats while still the placeholder user and then A
      disconnects: B's message is stored and reaches A under the placeholder
      name, B gets no copy of it, and B sees both of A's notices. */
  method AnonymousChatScenario() returns (inboxA: seq<Event>, inboxB: seq<Event>, stored: seq<ChatMessage>)
    ensures inboxA == [History([]), LoginReply(LoginSuccess("alice")),
                       SystemNotice(Joined("alice"), 1), Chat(ChatMessage(Anonymous, "hi", 2))]
    ensures inboxB == [History([]), SystemNotice(Joined("alice"), 1),
                       SystemNotice(Left("alice"), 3)]
    ensures stored == [ChatMessage(Anonymous, "hi", 2)]
  {
    var server := AliceJoins();
    var m := server.OnChatMessage("B", "hi", 2, true);
    server.OnDisconnect("A", 3);
    inboxA := Inbox(server.outbox, "A");
    inboxB := Inbox(server.outbox, "B");
    stored := server.log;
  }

  /** One socket, no store: a wrong password is refused and leaves the
      placeholder name; a login under the placeholder name itself succeeds,
      and `new user` then stays silent. */
  method PlaceholderLoginScenario() returns (inbox: seq<Event>, name: string)
    ensures inbox == [LoginReply(LoginFailure(WrongPasswordText)),
                      LoginReply(LoginSuccess(Anonymous))]
    ensures name == Anonymous
  {
    var server := new Registry(false, []);
    server.OnConnect("C", true);
    var ok := server.OnLogin("C", "bob", "letmein");
    ok := server.OnLogin("C", Anonymous, CorrectPassword);
    server.OnNewUser("C", 4);
    inbox := Inbox(server.outbox, "C");
    name := server.names["C"];
  }

  /** One socket, no store: after a login as "bob", each `new user` call
      announces him again. */
  method RepeatedJoinScenario() returns (inbox: seq<Event>)
    ensures inbox == [LoginReply(LoginSuccess("bob")),
                      SystemNotice(Joined("bob"), 5), SystemNotice(Joined("bob"), 6)]
  {
    var server := new Registry(false, []);
    server.OnConnect("C", true);
    var ok := server.OnLogin("C", "bob", CorrectPassword);
    server.OnNewUser("C", 5);
    server.OnNewUser("C", 6);
    inbox := Inbox(server.outbox, "C");
  }
}
