/** The stored chat record (collection "chats"). */
module Chats {
  import opened Results
  import opened Bson
  import Tdlib

  const COLLECTION := "chats"

  const ID := "id"
  const TITLE := "title"
  const TYPE := "type"

  datatype Chat = Chat(id: int, title: string, kind: string)

  /** The type tag of a chat. */
  function ChatTypeTag(t: Tdlib.ChatType): (r: string)
    ensures r in {"BasicGroup", "Private", "Secret", "Supergroup", "Unknown"}
    ensures r == "BasicGroup" <==> t.BasicGroup?
    ensures r == "Private" <==> t.Private?
    ensures r == "Secret" <==> t.Secret?
    ensures r == "Supergroup" <==> t.Supergroup?
    ensures r == "Unknown" <==> t.OtherChatType?
  {
    match t
    case BasicGroup => "BasicGroup"
    case Private => "Private"
    case Secret => "Secret"
    case Supergroup => "Supergroup"
    case OtherChatType => "Unknown"
  }

  function FromTd(c: Tdlib.Chat): (r: Chat)
    ensures r.id == c.id && r.title == c.title && r.kind == ChatTypeTag(c.chatType)
  {
    Chat(c.id, c.title, ChatTypeTag(c.chatType))
  }

  /** `Chat::from_doc`: every field is required. */
  function FromDoc(d: Document): (r: Option<Chat>)
    ensures r.Some? <==> AsInt(d, ID).Some? && AsStr(d, TITLE).Some? && AsStr(d, TYPE).Some?
  {
    match (AsInt(d, ID), AsStr(d, TITLE), AsStr(d, TYPE))
    case (Some(id), Some(title), Some(kind)) => Some(Chat(id, title, kind))
    case _ => None
  }

  function ToDoc(c: Chat): Document {
    map[ID := Int(c.id), TITLE := Str(c.title), TYPE := Str(c.kind)]
  }

  /** Decoding an encoded chat gives it back. */
  lemma RoundTrip(c: Chat)
    ensures FromDoc(ToDoc(c)) == Some(c)
  {
  }

  /** `Chat::merge`: only the title is taken from `latest`. */
  function Merge(cur: Chat, latest: Chat): (r: Chat)
    ensures r.title == latest.title && r.id == cur.id && r.kind == cur.kind
  {
    cur.(title := latest.title)
  }
}
