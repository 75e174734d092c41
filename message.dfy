/** The message model (BE/src/models/Message.ts): a row of the `messages` table and the validation
    `Message.create` applies to the attributes a client sends. */
module Messages {
  import opened Common

  datatype MessageType = Text | Image | File

  /** The `status` ENUM; a new row gets the default `sent`. */
  datatype DeliveryStatus = Sent | Delivered | Read

  /** The value of the `type` ENUM column. */
  function MessageTypeName(t: MessageType): string
  {
    match t
    case Text => "text"
    case Image => "image"
    case File => "file"
  }

  /** A `type` attribute is accepted exactly when it is one of the three ENUM values. */
  function ParseMessageType(s: Option<string>): (t: Option<MessageType>)
    ensures t.Some? <==> s == Some("text") || s == Some("image") || s == Some("file")
    ensures t.Some? ==> s == Some(MessageTypeName(t.value))
  {
    if s == Some("text") then Some(Text)
    else if s == Some("image") then Some(Image)
    else if s == Some("file") then Some(File)
    else None
  }

  /** The value of the `status` ENUM column. */
  function DeliveryStatusName(d: DeliveryStatus): string
  {
    match d
    case Sent => "sent"
    case Delivered => "delivered"
    case Read => "read"
  }

  /** The `status` attribute: left out it takes the default `sent`; given, it is accepted exactly
      when it is one of the three ENUM values. */
  function ParseDeliveryStatus(s: Option<string>): (d: Option<DeliveryStatus>)
    ensures s.None? ==> d == Some(Sent)
    ensures s.Some? ==> (d.Some? <==> s.value == "sent" || s.value == "delivered" || s.value == "read")
    ensures s.Some? && d.Some? ==> s.value == DeliveryStatusName(d.value)
  {
    if s.None? || s.value == "sent" then Some(Sent)
    else if s.value == "delivered" then Some(Delivered)
    else if s.value == "read" then Some(Read)
    else None
  }

  /** A stored row; the timestamps and the `metadata` JSON are not modelled. */
  datatype Message = Message(id: string, roomId: string, senderId: string, content: string,
                             messageType: MessageType, status: DeliveryStatus)

  /** The attributes a client sends; an absent field is a null or missing attribute. Nothing
      stops a client from sending `status` too, and `Message.create` stores it. */
  datatype MessageInput = MessageInput(roomId: Option<string>, senderId: Option<string>,
                                       content: Option<string>, messageType: Option<string>,
                                       status: Option<string>)

  /** `Message.create(data)`: `roomId`, `senderId`, `content` and `type` must be present
      (`allowNull: false`), `type` one of its ENUM values and a given `status` one of its; the new
      row keeps those attributes and has status `sent` unless the attributes name another. `id` is
      the generated UUID, or the one the attributes carry. */
  function CreateMessage(input: MessageInput, id: string): (m: Option<Message>)
    ensures m.Some? <==> && input.roomId.Some? && input.senderId.Some? && input.content.Some?
                         && ParseMessageType(input.messageType).Some?
                         && ParseDeliveryStatus(input.status).Some?
    ensures m.Some? ==> && m.value.id == id
                        && Some(m.value.roomId) == input.roomId
                        && Some(m.value.senderId) == input.senderId
                        && Some(m.value.content) == input.content
                        && Some(MessageTypeName(m.value.messageType)) == input.messageType
                        && (input.status.None? ==> m.value.status == Sent)
                        && (input.status.Some? ==> input.status == Some(DeliveryStatusName(m.value.status)))
  {
    var t := ParseMessageType(input.messageType);
    var d := ParseDeliveryStatus(input.status);
    if input.roomId.None? || input.senderId.None? || input.content.None? || t.None? || d.None? then None
    else Some(Message(id, input.roomId.value, input.senderId.value, input.content.value, t.value, d.value))
  }
}
