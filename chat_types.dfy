/** The message records shared by the chat components (types/chat.ts and
    types/notification.ts). */
module ChatTypes {
  import opened Wrappers

  datatype Role = Customer | Bot | Agent

  datatype Channel = WhatsApp | Telegram | WebChat

  /** A value of the open `metadata` record (`Record<string, unknown>`). The
      views only ever ask whether a value is a string (`typeof v === "string"`),
      so every other JavaScript value is `NotString`. */
  datatype MetaValue = MetaString(s: string) | NotString

  type Metadata = map<string, MetaValue>

  /** One turn of a conversation. `rating` is 0 (negative) or 1 (positive)
      when set; any other number the back end sends is kept as it is. */
  datatype ChatMessage = ChatMessage(
    role: Role,
    text: string,
    timestamp: string,
    metadata: Option<Metadata>,
    id: Option<string>,
    rating: Option<int>,
    feedback: Option<string>)

  /** The message part of an admin notification: only `text` is required. */
  datatype NotifiedMessage = NotifiedMessage(
    text: string,
    timestamp: Option<string>,
    role: Option<string>,
    metadata: Option<Metadata>)

  datatype AdminNotification = AdminNotification(sessionId: string, message: NotifiedMessage)
}
