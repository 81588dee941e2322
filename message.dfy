/** The stored message record (collection "messages"). */
module Messages {
  import opened Results
  import opened Bson
  import Tdlib

  const COLLECTION := "messages"

  const ID := "id"
  const SENDER := "sender"
  const CHAT_ID := "chat_id"
  const DATE := "date"
  const EDIT_DATE := "edit_date"
  const RESTRICTION_REASON := "restriction_reason"
  const TYPE := "type"
  const CONTENT := "content"
  const EXTRA := "extra"
  const IS_SCAM := "is_scam"
  const TRIGGER := "trigger"

  /** `trigger` records whether the message caused a sanction. */
  datatype Message = Message(
    id: int,
    sender: int,
    chatId: int,
    date: int,
    editDate: int,
    restrictionReason: string,
    kind: string,
    content: string,
    extra: seq<string>,
    isScam: bool,
    trigger: bool)

  /** The content variants the record names by their own name; any other is tagged "None". */
  const CONTENT_TYPES: seq<string> := [
    "MessageAnimation", "MessageAudio", "MessageBasicGroupChatCreate", "MessageCall",
    "MessageChatAddMembers", "MessageChatChangePhoto", "MessageChatChangeTitle", "MessageChatDeleteMember",
    "MessageChatDeletePhoto", "MessageChatJoinByLink", "MessageChatSetTtl", "MessageChatUpgradeFrom",
    "MessageChatUpgradeTo", "MessageContact", "MessageContactRegistered", "MessageCustomServiceAction",
    "MessageDice", "MessageDocument", "MessageExpiredPhoto", "MessageExpiredVideo", "MessageGame",
    "MessageGameScore", "MessageInvoice", "MessageLocation", "MessagePassportDataReceived",
    "MessagePassportDataSent", "MessagePaymentSuccessful", "MessagePaymentSuccessfulBot", "MessagePhoto",
    "MessagePinMessage", "MessagePoll", "MessageProximityAlertTriggered", "MessageScreenshotTaken",
    "MessageSticker", "MessageSupergroupChatCreate", "MessageText", "MessageUnsupported", "MessageVenue",
    "MessageVideo", "MessageVideoNote", "MessageVoiceNote", "MessageWebsiteConnected"
  ]

  /** The type tag of a content: its variant name, or "None" for a variant the record does not name. */
  function TypeTag(c: Tdlib.Content): (r: string)
    ensures Tdlib.VariantName(c) in CONTENT_TYPES ==> r == Tdlib.VariantName(c)
    ensures Tdlib.VariantName(c) !in CONTENT_TYPES ==> r == "None"
  {
    var name := Tdlib.VariantName(c);
    if name in CONTENT_TYPES then name else "None"
  }

  /** The sender id stored: the user id, or 0 when the sender is not a user. */
  function SenderId(s: Tdlib.Sender): (r: int)
    ensures s.SenderUser? ==> r == s.userId
    ensures s.SenderChat? ==> r == 0
  {
    match s
    case SenderUser(uid) => uid
    case SenderChat(_) => 0
  }

  /** `Message::from_td`: the content is the text or caption for text, photo and video messages and ""
      for any other content; the record starts unflagged, without extras, with the given trigger. */
  function FromTd(m: Tdlib.Message, trigger: bool): (r: Message)
    ensures r.id == m.id && r.chatId == m.chatId && r.date == m.date && r.editDate == m.editDate
    ensures r.sender == SenderId(m.sender)
    ensures r.restrictionReason == m.restrictionReason
    ensures r.kind == TypeTag(m.content)
    ensures m.content.MessageText? ==> r.content == m.content.text
    ensures m.content.MessagePhoto? || m.content.MessageVideo? ==> r.content == m.content.caption
    ensures m.content.OtherContent? ==> r.content == ""
    ensures !r.isScam && r.extra == [] && r.trigger == trigger
  {
    var content := match Tdlib.TextOf(m.content) case Some(t) => t case None => "";
    Message(m.id, SenderId(m.sender), m.chatId, m.date, m.editDate, m.restrictionReason,
            TypeTag(m.content), content, [], false, trigger)
  }

  /** `Message::from_doc`: every field is required (the source unwraps each). */
  function FromDoc(d: Document): (r: Option<Message>)
    ensures r.Some? <==>
      && AsInt(d, ID).Some? && AsInt(d, SENDER).Some? && AsInt(d, CHAT_ID).Some?
      && AsInt(d, DATE).Some? && AsInt(d, EDIT_DATE).Some?
      && AsStr(d, RESTRICTION_REASON).Some? && AsStr(d, TYPE).Some? && AsStr(d, CONTENT).Some?
      && AsStrList(d, EXTRA).Some? && AsBool(d, IS_SCAM).Some? && AsBool(d, TRIGGER).Some?
  {
    if && AsInt(d, ID).Some? && AsInt(d, SENDER).Some? && AsInt(d, CHAT_ID).Some?
       && AsInt(d, DATE).Some? && AsInt(d, EDIT_DATE).Some?
       && AsStr(d, RESTRICTION_REASON).Some? && AsStr(d, TYPE).Some? && AsStr(d, CONTENT).Some?
       && AsStrList(d, EXTRA).Some? && AsBool(d, IS_SCAM).Some? && AsBool(d, TRIGGER).Some?
    then
      Some(Message(d[ID].i, d[SENDER].i, d[CHAT_ID].i, d[DATE].i, d[EDIT_DATE].i,
                   d[RESTRICTION_REASON].s, d[TYPE].s, d[CONTENT].s, d[EXTRA].items,
                   d[IS_SCAM].b, d[TRIGGER].b))
    else None
  }

  function ToDoc(m: Message): Document {
    map[
      ID := Int(m.id),
      SENDER := Int(m.sender),
      CHAT_ID := Int(m.chatId),
      DATE := Int(m.date),
      EDIT_DATE := Int(m.editDate),
      RESTRICTION_REASON := Str(m.restrictionReason),
      TYPE := Str(m.kind),
      CONTENT := Str(m.content),
      EXTRA := StrList(m.extra),
      IS_SCAM := Bool(m.isScam),
      TRIGGER := Bool(m.trigger)
    ]
  }

  /** Decoding an encoded message gives it back, field for field. */
  lemma RoundTrip(m: Message)
    ensures FromDoc(ToDoc(m)) == Some(m)
  {
  }

  /** `Message::merge`: only the content is taken from `latest`. */
  function Merge(cur: Message, latest: Message): (r: Message)
    ensures r.content == latest.content
    ensures r.(content := cur.content) == cur
  {
    cur.(content := latest.content)
  }
}
