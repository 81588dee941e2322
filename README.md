# fetish-rs in Dafny

fetish-rs is a Telegram anti-scam bot. It listens to the updates of a Telegram account (new messages, new
chats, new or changed users) and keeps every chat, user and threatening message in MongoDB. Each incoming
message passes through a scam classifier:

- a message is a *threat* unless it is outgoing, its sender carries the operator's `bypass` flag, or it is
  older than the configured timeout;
- a threat is *analysed*: a `Keyword` finding when its text (or photo/video caption), upper-cased and
  accent-folded, contains a stored keyword (French, English or German list) or is exactly "CC"; an
  `Account` finding when its sender is stored with the `scam` flag.

A threat with findings in a group chat (negative chat id) becomes a *sanction* on an in-process queue. A
responder drains the queue: it replies to the offending message (when replies are enabled) and logs the
sanction in the "stats" collection. New users are flagged as scammers by simple heuristics: "ESCORT" in the
username, a first name equal to the last name, or a forbidden name.

The model covers the domain records and their documents, the keyword and forbidden-name matching, the
classifier, the document store's `get_doc`/`save_doc` contract, the three update handlers and the responder.

- **Pure code is modelled as functions.** Records, matching, classifier and `Record` impls become datatypes
  and functions, with lemmas about them.
- **State is modelled as classes.** The store (`Mongo.Store`), the client's request log (`Api.EventApi`),
  the sanction queue (`Channel.Channel`), the bot (`Fetish.Fetish`) and the responder
  (`MessageSender.Sender`) are classes whose methods change their fields.
- **Each handler method is proved against an effect function.** The function states the handler's decisions
  from the store it reads.
- **The responder's loops are proved against specification functions.** `ReplyBody` specifies `load_text`;
  `Replies` and `Recorded` specify `run`.

Storage errors are a `Fault` parameter of each call. Panics of `unwrap()` are `Fail` results or a
`Panicked` outcome. The clock reading is a parameter. The text read from the message file is a parameter of
the responder.

Two behaviours of the code are easy to misread:

- **Reply text.** Any `Account` finding makes the reply the scammer sentence, whatever its position among
  the findings (`MessageSender.ReplyBodyOrderFree`). It is not the first finding's text.
- **"CC".** Only a text that upper-cases to exactly "CC" is special. "free CC now" is a finding only if a
  stored keyword occurs in it (`Scenarios.CcInsideText`).

## Model

| member | source | states |
|---|---|---|
| Text.UpperIdempotent | model/src/config.rs:52-54 | upper-casing an already upper-cased string changes nothing |
| Text.FoldChar | fetish/src/scam_analyser.rs:80 | an ASCII character is kept; a character that changes becomes an ASCII letter |
| Text.AsciiUnfolded | fetish/src/scam_analyser.rs:80 | accent folding leaves ASCII text unchanged |
| Text.UnidecodeIdempotent | fetish/src/scam_analyser.rs:80 | folding an already folded text changes nothing |
| Text.ContainsIsSubstring | model/src/config.rs:33 | `contains` is true exactly when the key occurs at some position of the text |
| Text.AnyContainsOccurs | model/src/config.rs:33 | `iter().any(contains)` is true exactly when some key of the list occurs in the text |
| Config.TextMatch | model/src/config.rs:32-44 | FrMatch iff a French keyword occurs in the upper-cased text; EnMatch iff none French and some English; DeMatch iff neither and some German; NoneMatch iff no keyword of any list occurs; all lists empty gives NoneMatch |
| Config.NameMatch | model/src/config.rs:94-96 | true iff some stored name occurs in the upper-cased first name or in the upper-cased last name |
| Config.NameMatchOccurs | model/src/config.rs:95 | the closure over the names agrees with occurrence in either name |
| Config.KeywordsFromDoc | model/src/config.rs:50-56 | decodes iff the fr, en and de lists are present; each list keeps its length and every entry is upper-cased |
| Config.ForbiddenNamesFromDoc | model/src/config.rs:102-106 | decodes iff the names list is present; every name is upper-cased, in order |
| Config.UpperAllIdempotent | model/src/config.rs:52-54 | upper-casing a list twice equals upper-casing it once |
| Config.KeywordsReload | model/src/config.rs:50-65 | keywords read from a document, written back and read again are the same lists |
| Config.ForbiddenNamesReload | model/src/config.rs:102-113 | the same for forbidden names |
| Users.UserTypeTag | model/src/user.rs:49-55 | Bot, Deleted, Regular and Unknown each get their own name, and "" exactly for any other user type |
| Users.FromTd | model/src/user.rs:38-59 | the platform's fields are copied, `scam` is the argument, `bypass` is false, the type tag is `UserTypeTag` of the user's type |
| Users.FromDoc | model/src/user.rs:73-88 | decodes iff "id" and "first_name" are present; each other field absent gives "" or false |
| Users.RoundTrip | model/src/user.rs:73-105 | decoding an encoded user gives the same user |
| Users.ReadBackFromSuperset | model/src/user.rs:73-124 | a document holding every field of the encoded user with the same values decodes to that user |
| Users.ReadBackIdentity | model/src/user.rs:75-77 | such a document yields the id, the first name and the last name |
| Users.ReadBackProfile | model/src/user.rs:78-84 | such a document yields the username, the phone number and the user type |
| Users.ReadBackDetails | model/src/user.rs:80-86 | such a document yields the flags and the restriction reason |
| Users.ReadBackFields | model/src/user.rs:73-88 | a document yielding every field decodes to the user |
| Users.Merge | model/src/user.rs:134-142 | names and username come from the new record; the phone number only when empty; every other field (scam, bypass included) is kept |
| Users.MergeIdempotent | model/src/user.rs:134-142 | merging the same record twice equals merging it once |
| Tdlib.VariantName | model/src/message.rs:43-87 | "MessageText", "MessagePhoto" and "MessageVideo" name exactly the text, photo and video contents |
| Messages.TypeTag | model/src/message.rs:43-87 | the variant name when it is one of the listed variants, "None" otherwise |
| Messages.SenderId | model/src/message.rs:38 | the user id for a user sender, 0 otherwise |
| Messages.FromTd | model/src/message.rs:35-98 | content is the text or caption for text/photo/video and "" otherwise; not scam, no extras, trigger as given |
| Messages.FromDoc | model/src/message.rs:104-118 | decodes iff every field is present with its kind |
| Messages.RoundTrip | model/src/message.rs:104-134 | decoding an encoded message gives the same message |
| Messages.Merge | model/src/message.rs:162-165 | only the content is replaced |
| Chats.ChatTypeTag | model/src/chat.rs:23-29 | BasicGroup, Private, Secret and Supergroup each get their own name, and "Unknown" exactly for any other chat type |
| Chats.FromTd | model/src/chat.rs:19-31 | id and title copied, type tagged |
| Chats.FromDoc | model/src/chat.rs:37-43 | decodes iff id, title and type are present |
| Chats.RoundTrip | model/src/chat.rs:37-51 | decoding an encoded chat gives the same chat |
| Chats.Merge | model/src/chat.rs:71-74 | only the title is replaced; id and type are kept |
| Sanctions.New | model/src/sanction.rs:26-32 | message and findings as given, no date |
| Sanctions.ScamTypesToStr | model/src/sanction.rs:46-53 | same length and order; "Keyword" exactly for Keyword, "Account" exactly for any Account |
| Sanctions.ScamTypesToStrIgnoresUserId | model/src/sanction.rs:48-51 | the names do not depend on the user ids of account findings |
| Sanctions.ToDoc | model/src/sanction.rs:64-71 | the stats document has exactly id, message, scam-types and date; id and message are the message id |
| Records.Record.ToDoc | model/src/record.rs:3-14 | every record's document carries its id in "id" |
| Records.Identities | model/src/record.rs:3-14 | collections and ids per record kind ("config" with ids 0 and 1, "stats" under the message id); the `$set` body equals the document |
| Settings.TimeoutSeconds | fetish/src/scam_analyser.rs:42 | `timeout as i64`: within the i64 range, truncation toward zero on each side, saturation beyond the range |
| Mongo.FindSpec | fetish/src/mongo.rs:30-33 | the lookup finds the first document whose "id" matches, and finds nothing exactly when no document has it |
| Mongo.Get | fetish/src/mongo.rs:30-33 | fails iff the lookup is rejected; a found document is in the collection with the id; none found means no document has it |
| Mongo.CountZero | fetish/src/mongo.rs:38-44 | a collection without the id counts zero documents with it |
| Mongo.UniqueCountAtMostOne | fetish/src/mongo.rs:38-44 | a collection without duplicate ids holds at most one document per id |
| Mongo.FoundCounted | fetish/src/mongo.rs:38-44 | a document the lookup finds is counted |
| Mongo.SameIdsSameFind | fetish/src/mongo.rs:41-44 | collections with the same ids position by position are searched alike |
| Mongo.FindAppend | fetish/src/mongo.rs:38-40 | appending keeps earlier finds; a new id is found at the end |
| Mongo.SavedValid | fetish/src/mongo.rs:35-47 | `save_doc` keeps every collection free of duplicate ids |
| Mongo.SavedFound | fetish/src/mongo.rs:38-44 | after a successful save the lookup finds a document with every field of the record's document |
| Mongo.SavedInsertsWhenAbsent | fetish/src/mongo.rs:38-40 | an absent id: the document is appended and is what the lookup finds |
| Mongo.SavedUpdatesWhenPresent | fetish/src/mongo.rs:41-44 | a present id: nothing is inserted, the found document gets the `$set` fields |
| Mongo.SavedFrame | fetish/src/mongo.rs:35-47 | every other (collection, id) lookup is unchanged |
| Mongo.SavedKeepsPresent | fetish/src/mongo.rs:35-47 | a save never makes a document disappear |
| Mongo.SavedStillFound | fetish/src/mongo.rs:35-47 | after a successful save every id found before is still found, and so is the record's own id |
| Mongo.ResetIsNoOp | fetish/src/mongo.rs:41-44 | a `$set` of values a document already holds leaves the collection as it is |
| Mongo.SavedIdempotent | fetish/src/mongo.rs:38-44 | saving the same record twice equals saving it once |
| Mongo.SaveTwiceOneDocument | fetish/src/mongo.rs:38-44 | after two saves of a record exactly one document carries its id |
| Mongo.Store.constructor | fetish/src/mongo.rs:18-24 | the store starts from a duplicate-free state |
| Bson.ApplyUpdate | fetish/src/mongo.rs:43 | `$set` keeps every field of the document, adds the update's fields and gives them the update's values |
| Mongo.Store.SaveDoc | fetish/src/mongo.rs:35-47 | the new state is the save's effect, duplicate-free; Ok iff no fault; a failure writes nothing |
| Api.EventApi.GetUser | fetish/src/fetish.rs:74 | one user request is appended to the client's log |
| Api.EventApi.SendMessage | fetish/src/message_sender.rs:74-82 | one message request is appended to the client's log |
| Api.EventApi.constructor | fetish/src/fetish.rs:30 | the client starts with no request issued |
| Channel.Channel.constructor | fetish/src/fetish.rs:33 | the queue starts empty, with its receiver |
| Channel.Channel.Send | fetish/src/fetish.rs:116-118 | queues the sanction last and succeeds iff the receiver is there; otherwise nothing changes |
| Channel.Channel.Recv | fetish/src/message_sender.rs:30 | takes the oldest sanction |
| Channel.Channel.Close | fetish/src/message_sender.rs:29-33 | the receiver is gone and its queued sanctions with it |
| ScamAnalyser.StoredUser | fetish/src/scam_analyser.rs:32-33 | fails iff the lookup is rejected or the stored document lacks id/first_name; nothing stored gives none; a found user is the stored document decoded, with the id |
| ScamAnalyser.IsThreat | fetish/src/scam_analyser.rs:25-48 | outgoing gives false before any lookup; fails iff a user sender's lookup fails; otherwise true iff not outgoing, not bypassed and younger than the timeout |
| ScamAnalyser.StoredKeywords | fetish/src/scam_analyser.rs:82 | succeeds iff the keywords document exists and decodes, and then is what it decodes to |
| ScamAnalyser.StoredForbiddenNames | fetish/src/scam_analyser.rs:115 | the same for the forbidden names |
| ScamAnalyser.IsKeywordInText | fetish/src/scam_analyser.rs:79-87 | true iff some keyword of any language occurs in the accent-folded upper-cased text |
| ScamAnalyser.KeywordFinding | fetish/src/scam_analyser.rs:54-67 | no text means no finding; otherwise a finding iff a keyword occurs or the upper-cased text is exactly "CC" |
| ScamAnalyser.IsScammerAccount | fetish/src/scam_analyser.rs:89-95 | fails iff the user lookup fails; true iff the user is stored with the scam flag |
| ScamAnalyser.Findings | fetish/src/scam_analyser.rs:50-77 | at most two findings, none repeated; Keyword iff the keyword finding, and first; none without text; Account of the sender iff flagged; every Account is the sender's |
| ScamAnalyser.Analyse | fetish/src/scam_analyser.rs:50-77 | the pushes produce exactly `Findings` |
| ScamAnalyser.IsNewUserScam | fetish/src/scam_analyser.rs:97-121 | true for "ESCORT" in the username or equal names, before the store is read; fails iff neither and the names cannot be read; false iff neither and no forbidden name occurs |
| ScamAnalyser.EscortUsername | fetish/src/scam_analyser.rs:103-105 | "hot_escort_94" is flagged |
| ScamAnalyser.SameNameDifferentCase | fetish/src/scam_analyser.rs:107-110 | "Ana"/"ANA" is flagged |
| ScamAnalyser.SameNameDifferentAccent | fetish/src/scam_analyser.rs:98-110 | "Zoé"/"ZOE" is flagged |
| Fetish.NewMessageEffectSpec | fetish/src/fetish.rs:68-124 | get_user iff an unknown user sender; nothing saved or queued unless a threat; saved with trigger iff findings; one sanction with the findings iff findings, chat id < 0 and the save succeeded; panics and logged errors exactly |
| Fetish.NewChatEffect | fetish/src/fetish.rs:130-142 | saves the chat iff no chat with its id is stored; never panics; logs both storage errors |
| Fetish.UpdateUserEffectSpec | fetish/src/fetish.rs:148-185 | stored user: scam recomputed only when neither flagged nor bypassed, bypass kept, names refreshed, phone only when empty; new user saved with `is_new_user_scam`; a stored document that does not decode panics and saves nothing; lookup errors logged |
| Fetish.Fetish.constructor | fetish/src/fetish.rs:28-49 | the bot holds its settings, store, client and queue |
| Fetish.Fetish.OnNewMessage | fetish/src/fetish.rs:68-124 | outcome, requests, store and queue are those of `NewMessageEffect`, whose decisions `NewMessageEffectSpec` states |
| Fetish.Fetish.HandleThreat | fetish/src/fetish.rs:92-121 | after the sender lookup: a failed staleness check or analysis panics and a message that is no threat is left alone; otherwise store, queue and outcome are those of the save-and-queue step |
| Fetish.Fetish.SaveAndQueue | fetish/src/fetish.rs:102-121 | the message is saved, a trigger iff findings; a storage error panics; the sanction is queued iff findings, chat id < 0 and the save succeeded; a closed queue is a logged error |
| Fetish.Fetish.OnNewChat | fetish/src/fetish.rs:130-142 | outcome and store are those of `NewChatEffect` |
| Fetish.Fetish.OnUpdateUser | fetish/src/fetish.rs:148-185 | outcome and store are those of `UpdateUserEffect`, whose decisions `UpdateUserEffectSpec` states |
| Fetish.KnownChatUntouched | fetish/src/fetish.rs:135-136 | a known chat leaves the store unchanged |
| Fetish.NewChatStored | fetish/src/fetish.rs:137 | an unknown chat is stored and reads back as seen |
| Fetish.SavedUserReadBack | fetish/src/fetish.rs:166-179 | a saved user reads back as saved, after insert or `$set` |
| Fetish.FlagReachesAnalyser | fetish/src/fetish.rs:157-170 | a user the handler flags is then reported by `is_scammer_account` |
| MessageSender.ReplyBodyStep | fetish/src/message_sender.rs:38-50 | one more finding: Keyword adds the notice only to an empty body, Account replaces the body by the scammer sentence |
| MessageSender.AccountPermuted | fetish/src/message_sender.rs:45-48 | a reordering keeps an account finding |
| MessageSender.ReplyBodyOrderFree | fetish/src/message_sender.rs:38-50 | the reply body does not depend on the order of the findings |
| MessageSender.Sender.constructor | fetish/src/message_sender.rs:20-27 | the responder holds its settings, client, store, queue and notice |
| MessageSender.Sender.LoadText | fetish/src/message_sender.rs:35-58 | the text is the reply body followed by the separator and the about line |
| MessageSender.Sender.Send | fetish/src/message_sender.rs:60-90 | a reply to the message in its chat iff `send`; the sanction is saved either way; the responder lives iff no storage error |
| MessageSender.Sender.HandleNext | fetish/src/message_sender.rs:30-31 | one turn: the oldest queued sanction is received and sent; its reply and its stats write extend the logs; the responder lives iff the write succeeds |
| MessageSender.Sender.Run | fetish/src/message_sender.rs:29-33 | sanctions handled in queue order; the replies and the stats writes are those of the handled prefix; crashed iff a handled write failed, and then only the last one; stops on the first storage error, with the receiver gone; otherwise drains the queue |
| MessageSender.LoggedStillFound | fetish/src/message_sender.rs:89 | logging without error keeps every stats document found and adds the sanction's own |
| MessageSender.RecordedFinds | fetish/src/message_sender.rs:29-33 | when every write was accepted, the `i`-th handled sanction has a stats document under its message id |
| MessageSender.AllRecorded | fetish/src/message_sender.rs:29-33 | without storage errors every handled sanction has a stats document under its message id |
| MessageSender.SanctionLogged | fetish/src/message_sender.rs:89 | the stats document holds the message id in "id" and "message" and the finding names |
| Scenarios.ArnaqueUpper | fetish/src/scam_analyser.rs:63 | "service arnaque garanti" upper-cases to "SERVICE ARNAQUE GARANTI" |
| Scenarios.ArnaqueNormal | fetish/src/scam_analyser.rs:80 | folding and upper-casing that text again changes nothing |
| Scenarios.ArnaqueInText | fetish/src/scam_analyser.rs:79-87 | the normalised text holds "ARNAQUE" |
| Scenarios.ArnaqueThreat | fetish/src/scam_analyser.rs:25-48 | an incoming five-second-old message of a sender not bypassed is a threat under a longer timeout |
| Scenarios.ArnaqueFindings | fetish/src/scam_analyser.rs:50-77 | with "ARNAQUE" the only keyword and an unflagged sender, "service arnaque garanti" finds exactly `[Keyword]` |
| Scenarios.ArnaqueEndToEnd | fetish/src/fetish.rs:92-121 | a 5-second-old "service arnaque garanti" in chat -100123 is a threat, finds exactly `[Keyword]`, queues one sanction; after `run` records that sanction, its stats document holds the message id and scam-types ["Keyword"] |
| Scenarios.AccentFolded | fetish/src/scam_analyser.rs:79-82 | "arnaqué" normalises to "ARNAQUE" |
| Scenarios.AccentedKeyword | fetish/src/scam_analyser.rs:79-87 | the keyword "ARNAQUE" matches "arnaqué" |
| Scenarios.CcAlone | fetish/src/scam_analyser.rs:64 | "cc" is a keyword finding with no keyword stored |
| Scenarios.CcInsideText | fetish/src/scam_analyser.rs:64 | "free CC now" is no finding with no keyword stored |

## Left out

- `merge` updates its record in place; the model returns the merged value, which the handler then uses.
- `to_uppercase` is modelled for ASCII letters only; the real library function is foreign code.
- `unidecode` is foreign code. The model folds, one character for one character, exactly the Latin-1 letters
  À-Å à-å ª to A/a, Ç ç to C/c, È-Ë è-ë to E/e, Ì-Ï ì-ï to I/i, Ð ð to D/d, Ñ ñ to N/n, Ò-Ö Ø ò-ö ø º to O/o,
  Ù-Ü ù-ü µ to U/u, and Ý ý ÿ to Y/y, and keeps every other character. The length of the text is
  kept, so transliterations to several letters (Æ/æ to AE/ae, ß to ss, Þ/þ to TH/th), the signs × and ÷,
  and every script other than Latin-1 are not modelled.
- The store is a sequence of documents per collection (lookup finds the first with the "id"), not MongoDB;
  its errors are one `Fault` per handler call, applied to every lookup or every write of that call.
- The age test `now - date` is on unbounded integers; i64 overflow of the subtraction is not modelled.
- Errors of the client's `get_user` and `send_message` (unwrapped in the source) are not modelled; the
  client is a log of requests.
- The random pause before a reply (`rand` and `thread::sleep`) has no effect on the result and is left out.
- The message file is read once as the `notice` parameter; a missing file (a panic) is not modelled.
- `Sanction::to_doc` and `to_doc_update` each read the clock; the model uses one clock reading per save.
- MessageSender.Sender.Run: the clock readings and the store faults are given in advance as sequences with one
  entry per queued sanction, rather than observed while the loop runs.
- The `Record` impl for `&Sanction` is identical to the one for `Sanction` and is not modelled separately.
- The `todo!()` bodies (`Sanction::from_doc`, `merge` of Keywords, ForbiddenNames and Sanction) are never
  reached by the code modelled and are left out.
- `is_scam_by_admin` and `is_bypass` are the field reads `scam` and `bypass`.
- Authorization, `main`, listener registration, logging, the stats record and configuration loading are
  not modelled; the responder's settings are a `SenderConfig` value.
- The thread, the mutex and the blocking receive: `run` drains the sanctions queued when it starts, and the
  handlers and the responder run one after the other.
- A non-string element in a stored keyword or name list (a panic in the source) is not representable in the
  model's documents.
- Settings.TimeoutSeconds: does not model a NaN timeout, because timeouts are reals.
- The store maps each collection to its documents rather than keying documents by (collection, id), so
  that "one document per id" is a proved invariant instead of a given.
