/** The `Record` capability shared by every stored entity: its collection, its id, its document and its
    `$set` update. The entities form one tagged union; `merge` is per entity (see each module). */
module Records {
  import opened Bson
  import Users
  import Messages
  import Chats
  import Config
  import Sanctions

  const ID := "id"

  /** A sanction is written with the time of writing (`now`, seconds since the epoch). */
  datatype Record =
    | UserRecord(user: Users.User)
    | MessageRecord(message: Messages.Message)
    | ChatRecord(chat: Chats.Chat)
    | KeywordsRecord(keywords: Config.Keywords)
    | ForbiddenNamesRecord(names: Config.ForbiddenNames)
    | SanctionRecord(sanction: Sanctions.Sanction, now: int)
  {
    function CollectionName(): string {
      match this
      case UserRecord(_) => Users.COLLECTION
      case MessageRecord(_) => Messages.COLLECTION
      case ChatRecord(_) => Chats.COLLECTION
      case KeywordsRecord(_) => Config.COLLECTION
      case ForbiddenNamesRecord(_) => Config.COLLECTION
      case SanctionRecord(_, _) => Sanctions.COLLECTION
    }

    function Id(): int {
      match this
      case UserRecord(u) => u.id
      case MessageRecord(m) => m.id
      case ChatRecord(c) => c.id
      case KeywordsRecord(_) => Config.KEYWORDS_ID
      case ForbiddenNamesRecord(_) => Config.FORBIDDEN_NAMES_ID
      case SanctionRecord(s, _) => s.message.id
    }

    /** Every document carries its record's id in its "id" field: this is what a lookup by id finds. */
    function ToDoc(): (d: Document)
      ensures ID in d && d[ID] == Int(Id())
    {
      match this
      case UserRecord(u) => Users.ToDoc(u)
      case MessageRecord(m) => Messages.ToDoc(m)
      case ChatRecord(c) => Chats.ToDoc(c)
      case KeywordsRecord(kw) => Config.KeywordsToDoc(kw)
      case ForbiddenNamesRecord(fnames) => Config.ForbiddenNamesToDoc(fnames)
      case SanctionRecord(s, now) => Sanctions.ToDoc(s, now)
    }

    /** The update sets exactly the fields of the document, to the same values. */
    function ToDocUpdate(): Update {
      Set(ToDoc())
    }
  }

  /** The stored collections and ids of each kind of record. The two configuration records share the
      collection "config" under the fixed ids 0 and 1, and a sanction is filed under its message's id. */
  lemma Identities(r: Record)
    ensures r.UserRecord? ==> r.CollectionName() == "users" && r.Id() == r.user.id
    ensures r.MessageRecord? ==> r.CollectionName() == "messages" && r.Id() == r.message.id
    ensures r.ChatRecord? ==> r.CollectionName() == "chats" && r.Id() == r.chat.id
    ensures r.KeywordsRecord? ==> r.CollectionName() == "config" && r.Id() == 0
    ensures r.ForbiddenNamesRecord? ==> r.CollectionName() == "config" && r.Id() == 1
    ensures r.SanctionRecord? ==> r.CollectionName() == "stats" && r.Id() == r.sanction.message.id
    ensures r.ToDocUpdate().fields == r.ToDoc()
  {
  }
}
