/** The parts of the messaging client's (tdlib's) update objects that the bot reads. */
module Tdlib {
  import opened Results

  /** Who sent a message: a user, or a chat posting in its own name. */
  datatype Sender = SenderUser(userId: int) | SenderChat(chatId: int)

  /** The content of a message. Text, photos and videos carry the text the classifier reads; every other
      content variant is identified by its tdlib variant name. */
  datatype Content =
    | MessageText(text: string)
    | MessagePhoto(caption: string)
    | MessageVideo(caption: string)
    | OtherContent(variant: OtherVariant)

  /** The tdlib name of a content variant the bot does not read: never one of the three it does. */
  type OtherVariant = v: string | v != "MessageText" && v != "MessagePhoto" && v != "MessageVideo"
    witness "MessageSticker"

  datatype Message = Message(
    id: int,
    sender: Sender,
    chatId: int,
    date: int,
    editDate: int,
    restrictionReason: string,
    content: Content,
    isOutgoing: bool)

  datatype UserType = UserTypeBot | UserTypeDeleted | UserTypeRegular | UserTypeUnknown | UserTypeOther

  datatype User = User(
    id: int,
    firstName: string,
    lastName: string,
    username: string,
    phoneNumber: string,
    isVerified: bool,
    isSupport: bool,
    restrictionReason: string,
    isScam: bool,
    userType: UserType)

  datatype ChatType = BasicGroup | Private | Secret | Supergroup | OtherChatType

  datatype Chat = Chat(id: int, title: string, chatType: ChatType)

  /** The tdlib name of a content's variant; each of the three variants the bot reads owns its name. */
  function VariantName(c: Content): (r: string)
    ensures r == "MessageText" <==> c.MessageText?
    ensures r == "MessagePhoto" <==> c.MessagePhoto?
    ensures r == "MessageVideo" <==> c.MessageVideo?
  {
    match c
    case MessageText(_) => "MessageText"
    case MessagePhoto(_) => "MessagePhoto"
    case MessageVideo(_) => "MessageVideo"
    case OtherContent(v) => v
  }

  /** The text the bot reads from a message: the text of a text message, the caption of a photo or of a
      video, and nothing for any other content. */
  function TextOf(c: Content): Option<string> {
    match c
    case MessageText(t) => Some(t)
    case MessagePhoto(t) => Some(t)
    case MessageVideo(t) => Some(t)
    case OtherContent(_) => None
  }
}
