/** The messaging client's request interface, as far as the bot uses it: the requests it issues are
    recorded in order. The client's answers and errors are not part of this model. */
module Api {

  datatype Request =
    | GetUser(userId: int)
    | SendMessage(chatId: int, replyToMessageId: int, text: string, clearDraft: bool, disableWebPagePreview: bool)

  class EventApi {
    var requests: seq<Request>

    constructor ()
      ensures requests == []
    {
      requests := [];
    }

    /** `get_user`: asks the client for a user's details; they arrive later as a user update. */
    method GetUser(userId: int)
      modifies this
      ensures requests == old(requests) + [Request.GetUser(userId)]
    {
      requests := requests + [Request.GetUser(userId)];
    }

    /** `send_message` of a text message. */
    method SendMessage(chatId: int, replyToMessageId: int, text: string, clearDraft: bool, disableWebPagePreview: bool)
      modifies this
      ensures requests == old(requests) + [Request.SendMessage(chatId, replyToMessageId, text, clearDraft, disableWebPagePreview)]
    {
      requests := requests + [Request.SendMessage(chatId, replyToMessageId, text, clearDraft, disableWebPagePreview)];
    }
  }
}
