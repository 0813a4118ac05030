/** The values exchanged by the chat server: constants of the connection
    handler, stored messages, and the events it emits to sockets. */
module ChatTypes {

  /** A socket id, as handed out by the transport for each new connection. */
  type ConnId = string

  /** The name every connection starts with, before a successful login. */
  const Anonymous: string := "Аноним"

  /** The one shared password that every login is checked against. */
  const CorrectPassword: string := "mysecretpassword"

  /** The text of the reply to a login with any other password. */
  const WrongPasswordText: string := "Неверный пароль."

  /** The most messages a history batch holds. */
  const HistoryLimit: nat := 50

  /** A chat message as built by the `chat message` handler and stored in
      the Message collection. */
  datatype ChatMessage = ChatMessage(username: string, text: string, timestamp: int)

  /** The substance of a system notice; its formatted text is not modelled. */
  datatype Notice = Joined(name: string) | Left(name: string)

  /** The payload of a `login response` event. */
  datatype LoginResponse =
    | LoginSuccess(username: string)   // { success: true, username }
    | LoginFailure(message: string)    // { success: false, message }

  /** One event pushed to one socket. */
  datatype Event =
    | History(messages: seq<ChatMessage>)           // `history`
    | LoginReply(response: LoginResponse)           // `login response`
    | Chat(message: ChatMessage)                    // `chat message` from a peer
    | SystemNotice(notice: Notice, timestamp: int)  // `chat message` from "Система"

  /** The delivery of one event to one socket. */
  datatype Delivery = Delivery(recipient: ConnId, event: Event)
}
