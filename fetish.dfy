/** The ingestion handlers: what the bot does with a new message, a new chat and a new or updated user.
    Each handler's decisions are stated as a function of the store it reads (its "effect"); the handler
    method performs them on the store, the client's request log and the sanction queue. */
module Fetish {
  import opened Results
  import opened Sanctions
  import opened Mongo
  import opened Records
  import opened ScamAnalyser
  import Text
  import opened Bson
  import Tdlib
  import Users
  import Messages
  import Chats
  import Config
  import Settings
  import Api
  import Channel

  /** How a handler call ends: normally, normally after logging a storage error, or by a panic. */
  datatype Outcome = Done | ErrorLogged | Panicked

  /** What the new-message handler does: whether it asks the client for the sender's details, the message
      record it hands to `save_doc`, the sanction it hands to the queue, and how it ends. */
  datatype MessageEffect = MessageEffect(
    askUser: bool,
    toSave: Option<Messages.Message>,
    sanction: Option<Sanction>,
    outcome: Outcome)

  /** The new-message handler's decisions. `alive` says whether the responder still receives. */
  function NewMessageEffect(db: Db, fault: Fault, m: Tdlib.Message, now: int, timeout: int, alive: bool)
    : MessageEffect
  {
    if m.sender.SenderUser? && fault == LookupFault then MessageEffect(false, None, None, Panicked)
    else
      var askUser := m.sender.SenderUser? && Lookup(db, Users.COLLECTION, m.sender.userId).None?;
      ThreatEffect(askUser, db, fault, m, now, timeout, alive)
  }

  /** The new-message handler's decisions once the sender is looked up (`askUser` says whether the client
      was asked for the sender): a threat is analysed, saved and, for a group chat, sanctioned. */
  function ThreatEffect(askUser: bool, db: Db, fault: Fault, m: Tdlib.Message, now: int, timeout: int, alive: bool)
    : MessageEffect
  {
    match IsThreat(db, fault, m, now, timeout)
    case Fail(_) => MessageEffect(askUser, None, None, Panicked)
    case Ok(false) => MessageEffect(askUser, None, None, Done)
    case Ok(true) =>
      match Findings(db, fault, m)
      case Fail(_) => MessageEffect(askUser, None, None, Panicked)
      case Ok(found) =>
        var msg := Messages.FromTd(m, found != []);
        if fault != NoFault then MessageEffect(askUser, Some(msg), None, Panicked)
        else if found == [] || m.chatId >= 0 then MessageEffect(askUser, Some(msg), None, Done)
        else MessageEffect(askUser, Some(msg), Some(New(m, found)), if alive then Done else ErrorLogged)
  }

  /** What the new-message handler's decisions amount to. */
  lemma NewMessageEffectSpec(db: Db, fault: Fault, m: Tdlib.Message, now: int, timeout: int, alive: bool)
    ensures var e := NewMessageEffect(db, fault, m, now, timeout, alive);
      // an unknown user sender is looked up on the platform
      && (e.askUser <==>
        m.sender.SenderUser? && fault != LookupFault && Lookup(db, Users.COLLECTION, m.sender.userId).None?)
      // nothing is saved or queued for a message that is not a threat
      && (IsThreat(db, fault, m, now, timeout) != Ok(true) ==> e.toSave.None? && e.sanction.None?)
      // a threat is saved whenever it could be analysed, flagged as a trigger iff something was found
      && (e.toSave.Some? <==> IsThreat(db, fault, m, now, timeout) == Ok(true) && Findings(db, fault, m).Ok?)
      && (e.toSave.Some? ==> e.toSave.value == Messages.FromTd(m, Findings(db, fault, m).value != []))
      // a sanction is queued only for a group chat, with the findings, once the message is saved
      && (e.sanction.Some? <==>
        e.toSave.Some? && Findings(db, fault, m).value != [] && m.chatId < 0 && fault == NoFault)
      && (e.sanction.Some? ==> e.sanction.value == New(m, Findings(db, fault, m).value))
      && (m.chatId >= 0 ==> e.sanction.None?)
      && (e.outcome == Panicked <==>
        || (m.sender.SenderUser? && fault == LookupFault)
        || IsThreat(db, fault, m, now, timeout).Fail?
        || (IsThreat(db, fault, m, now, timeout) == Ok(true) && (Findings(db, fault, m).Fail? || fault != NoFault)))
      && (e.outcome == ErrorLogged <==> e.sanction.Some? && !alive)
  {
  }

  /** What the new-chat handler does: a chat already stored is left as it is; otherwise its record is
      handed to `save_doc`. Both storage errors are logged. */
  datatype ChatEffect = ChatEffect(toSave: Option<Chats.Chat>, outcome: Outcome)

  function NewChatEffect(db: Db, fault: Fault, c: Tdlib.Chat): (e: ChatEffect)
    ensures e.toSave.Some? <==> fault != LookupFault && Lookup(db, Chats.COLLECTION, c.id).None?
    ensures e.toSave.Some? ==> e.toSave.value == Chats.FromTd(c)
    ensures e.outcome != Panicked
    ensures e.outcome == ErrorLogged <==> fault == LookupFault || (e.toSave.Some? && fault == WriteFault)
  {
    match Get(db, Chats.COLLECTION, c.id, fault)
    case Fail(_) => ChatEffect(None, ErrorLogged)
    case Ok(Some(_)) => ChatEffect(None, Done)
    case Ok(None) => ChatEffect(Some(Chats.FromTd(c)), if fault == NoFault then Done else ErrorLogged)
  }

  /** What the user handler does: the user record it hands to `save_doc`, and how it ends. */
  datatype UserEffect = UserEffect(toSave: Option<Users.User>, outcome: Outcome)

  /** The user handler's decisions. A stored user is refreshed: its scam flag is recomputed only when it
      is neither flagged nor bypassed, and the names, the username and a missing phone number come from
      the platform. An unknown user is saved as seen, flagged by `is_new_user_scam`. */
  function UpdateUserEffect(db: Db, fault: Fault, u: Tdlib.User): UserEffect
  {
    match Get(db, Users.COLLECTION, u.id, fault)
    case Fail(_) => UserEffect(None, ErrorLogged)
    case Ok(Some(d)) =>
      (match Users.FromDoc(d)
       case None => UserEffect(None, Panicked)
       case Some(cur) =>
         var scam := if !cur.scam && !cur.bypass then IsNewUserScam(db, fault, u) else Ok(cur.scam);
         match scam
         case Fail(_) => UserEffect(None, Panicked)
         case Ok(flag) =>
           var updt := Users.Merge(cur.(scam := flag), Users.FromTd(u, flag));
           UserEffect(Some(updt), if fault == NoFault then Done else ErrorLogged))
    case Ok(None) =>
      match IsNewUserScam(db, fault, u)
      case Fail(_) => UserEffect(None, Panicked)
      case Ok(flag) => UserEffect(Some(Users.FromTd(u, flag)), if fault == NoFault then Done else ErrorLogged)
  }

  /** What the user handler's decisions amount to. */
  lemma UpdateUserEffectSpec(db: Db, fault: Fault, u: Tdlib.User)
    ensures var e := UpdateUserEffect(db, fault, u);
      // a rejected lookup is logged and nothing is saved
      && (fault == LookupFault ==> e == UserEffect(None, ErrorLogged))
      // a stored document that does not decode panics and nothing is saved
      && (fault != LookupFault && StoredUser(db, fault, u.id).Fail? ==> e == UserEffect(None, Panicked))
      // the handler panics exactly when, the lookup having succeeded, it has nothing to save
      && (e.outcome == Panicked <==> fault != LookupFault && e.toSave.None?)
      && (e.outcome == ErrorLogged <==> fault != NoFault && e.outcome != Panicked)
      // an unknown user is saved as seen, flagged by `is_new_user_scam`
      && (StoredUser(db, fault, u.id) == Ok(None) ==>
        && (e.toSave.Some? <==> IsNewUserScam(db, fault, u).Ok?)
        && (e.toSave.Some? ==> e.toSave.value == Users.FromTd(u, IsNewUserScam(db, fault, u).value)))
      // a stored user is refreshed from the platform
      && (StoredUser(db, fault, u.id).Ok? && StoredUser(db, fault, u.id).value.Some? ==>
        var cur := StoredUser(db, fault, u.id).value.value;
        && (cur.scam || cur.bypass ==> e.toSave.Some? && e.toSave.value.scam == cur.scam)
        && (!cur.scam && !cur.bypass ==> (e.toSave.Some? <==> IsNewUserScam(db, fault, u).Ok?))
        && (!cur.scam && !cur.bypass && e.toSave.Some? ==> e.toSave.value.scam == IsNewUserScam(db, fault, u).value)
        && (e.toSave.Some? ==>
            var s := e.toSave.value;
            && s.id == cur.id && s.bypass == cur.bypass
            && s.firstName == u.firstName && s.lastName == u.lastName && s.username == u.username
            && s.phoneNumber == (if cur.phoneNumber == "" then u.phoneNumber else cur.phoneNumber)
            && s.isVerified == cur.isVerified && s.isSupport == cur.isSupport && s.isScam == cur.isScam
            && s.restrictionReason == cur.restrictionReason && s.userType == cur.userType))
  {
  }

  /** The store after a handler that hands `rec` to `save_doc`, or after one that saves nothing. */
  function AfterSave(db: Db, rec: Option<Record>, fault: Fault): Db {
    match rec
    case None => db
    case Some(r) => Saved(db, r, fault)
  }

  /** The bot: its settings, the store, the client and the sending side of the sanction queue. */
  class Fetish {
    const config: Settings.SenderConfig
    const store: Store
    const api: Api.EventApi
    const tx: Channel.Channel

    ghost predicate Valid()
      reads store
    {
      store.Valid()
    }

    constructor (config: Settings.SenderConfig, store: Store, api: Api.EventApi, tx: Channel.Channel)
      requires store.Valid()
      ensures Valid()
      ensures this.config == config && this.store == store && this.api == api && this.tx == tx
    {
      this.config := config;
      this.store := store;
      this.api := api;
      this.tx := tx;
    }

    /** The staleness window in whole seconds. */
    function Timeout(): int {
      Settings.TimeoutSeconds(config.timeout)
    }

    /** The new-message handler, at clock reading `now`. */
    method OnNewMessage(m: Tdlib.Message, now: int, fault: Fault) returns (outcome: Outcome)
      requires Valid()
      modifies store, api, tx
      ensures Valid()
      ensures var e := NewMessageEffect(old(store.collections), fault, m, now, Timeout(), old(tx.open));
        && outcome == e.outcome
        && api.requests == old(api.requests) + (if e.askUser then [Api.GetUser(m.sender.userId)] else [])
        && store.collections ==
           AfterSave(old(store.collections), if e.toSave.Some? then Some(MessageRecord(e.toSave.value)) else None, fault)
        && tx.items == old(tx.items) + (if e.sanction.Some? && old(tx.open) then [e.sanction.value] else [])
        && tx.open == old(tx.open)
    {
      var db := store.collections;
      var askUser := false;
      if m.sender.SenderUser? {
        var known := Get(db, Users.COLLECTION, m.sender.userId, fault);
        if known.Fail? {
          return Panicked;
        }
        if known.value.None? {
          api.GetUser(m.sender.userId);
          askUser := true;
        }
      }
      outcome := HandleThreat(m, now, fault, askUser);
    }

    /** The new-message handler after the sender lookup: the staleness check, the analysis, then the save
        and the queueing of the sanction. */
    method HandleThreat(m: Tdlib.Message, now: int, fault: Fault, ghost askUser: bool) returns (outcome: Outcome)
      requires Valid()
      modifies store, tx
      ensures Valid()
      ensures var e := ThreatEffect(askUser, old(store.collections), fault, m, now, Timeout(), old(tx.open));
        && outcome == e.outcome
        && store.collections ==
           AfterSave(old(store.collections), if e.toSave.Some? then Some(MessageRecord(e.toSave.value)) else None, fault)
        && tx.items == old(tx.items) + (if e.sanction.Some? && old(tx.open) then [e.sanction.value] else [])
        && tx.open == old(tx.open)
    {
      var db := store.collections;
      var threat := IsThreat(db, fault, m, now, Timeout());
      if threat.Fail? {
        return Panicked;
      }
      if !threat.value {
        return Done;
      }
      var found := Analyse(db, fault, m);
      if found.Fail? {
        return Panicked;
      }
      outcome := SaveAndQueue(m, found.value, fault);
    }

    /** The new-message handler once a threat's findings `found` are in: the message is saved, flagged
        as a trigger when something was found; a storage error panics; otherwise, for a group chat, the
        sanction is queued, and a closed queue is an error that is logged. */
    method SaveAndQueue(m: Tdlib.Message, found: seq<ScamType>, fault: Fault) returns (outcome: Outcome)
      requires Valid()
      modifies store, tx
      ensures Valid()
      ensures store.collections == Saved(old(store.collections), MessageRecord(Messages.FromTd(m, found != [])), fault)
      ensures var queued := found != [] && m.chatId < 0 && fault == NoFault;
        && tx.items == old(tx.items) + (if queued && old(tx.open) then [New(m, found)] else [])
        && tx.open == old(tx.open)
        && outcome == (if fault != NoFault then Panicked else if queued && !old(tx.open) then ErrorLogged else Done)
    {
      if found == [] {
        var saved := store.SaveDoc(MessageRecord(Messages.FromTd(m, false)), fault);
        return if saved.Fail? then Panicked else Done;
      }
      var saved := store.SaveDoc(MessageRecord(Messages.FromTd(m, true)), fault);
      if saved.Fail? {
        return Panicked;
      }
      outcome := Done;
      if m.chatId < 0 {
        var sent := tx.Send(New(m, found));
        if !sent {
          outcome := ErrorLogged;
        }
      }
    }

    /** The new-chat handler. */
    method OnNewChat(c: Tdlib.Chat, fault: Fault) returns (outcome: Outcome)
      requires Valid()
      modifies store
      ensures Valid()
      ensures var e := NewChatEffect(old(store.collections), fault, c);
        && outcome == e.outcome
        && store.collections ==
           AfterSave(old(store.collections), if e.toSave.Some? then Some(ChatRecord(e.toSave.value)) else None, fault)
    {
      var existing := Get(store.collections, Chats.COLLECTION, c.id, fault);
      if existing.Fail? {
        return ErrorLogged;
      }
      if existing.value.Some? {
        return Done;
      }
      var saved := store.SaveDoc(ChatRecord(Chats.FromTd(c)), fault);
      outcome := if saved.Fail? then ErrorLogged else Done;
    }

    /** The new-or-updated-user handler. */
    method OnUpdateUser(u: Tdlib.User, fault: Fault) returns (outcome: Outcome)
      requires Valid()
      modifies store
      ensures Valid()
      ensures var e := UpdateUserEffect(old(store.collections), fault, u);
        && outcome == e.outcome
        && store.collections ==
           AfterSave(old(store.collections), if e.toSave.Some? then Some(UserRecord(e.toSave.value)) else None, fault)
    {
      var db := store.collections;
      ghost var e := UpdateUserEffect(db, fault, u);
      var existing := Get(db, Users.COLLECTION, u.id, fault);
      if existing.Fail? {
        return ErrorLogged;
      }
      var updt: Users.User;
      if existing.value.Some? {
        var decoded := Users.FromDoc(existing.value.value);
        if decoded.None? {
          return Panicked;
        }
        updt := decoded.value;
        if !updt.scam && !updt.bypass {
          var scam := IsNewUserScam(db, fault, u);
          if scam.Fail? {
            return Panicked;
          }
          updt := updt.(scam := scam.value);
        }
        updt := Users.Merge(updt, Users.FromTd(u, updt.scam));
      } else {
        var scam := IsNewUserScam(db, fault, u);
        if scam.Fail? {
          return Panicked;
        }
        updt := Users.FromTd(u, scam.value);
      }
      assert e.toSave == Some(updt);
      var saved := store.SaveDoc(UserRecord(updt), fault);
      outcome := if saved.Fail? then ErrorLogged else Done;
    }
  }

  /** A chat already stored is never rewritten, not even its title: the new-chat handler leaves the store
      as it was. */
  lemma KnownChatUntouched(db: Db, fault: Fault, c: Tdlib.Chat)
    requires Lookup(db, Chats.COLLECTION, c.id).Some?
    ensures var e := NewChatEffect(db, fault, c);
      AfterSave(db, if e.toSave.Some? then Some(ChatRecord(e.toSave.value)) else None, fault) == db
  {
  }

  /** An unknown chat is stored, and reading it back gives the chat as seen. */
  lemma NewChatStored(db: Db, c: Tdlib.Chat)
    requires Lookup(db, Chats.COLLECTION, c.id).None?
    ensures var after := AfterSave(db, Some(ChatRecord(Chats.FromTd(c))), NoFault);
      && Lookup(after, Chats.COLLECTION, c.id).Some?
      && Chats.FromDoc(Lookup(after, Chats.COLLECTION, c.id).value) == Some(Chats.FromTd(c))
  {
    var rec := ChatRecord(Chats.FromTd(c));
    SavedInsertsWhenAbsent(db, rec);
    Chats.RoundTrip(Chats.FromTd(c));
  }

  /** A user record read back after a successful save is the record saved, whether the save inserted it
      or `$set` its fields on the stored document. */
  lemma SavedUserReadBack(db: Db, s: Users.User)
    ensures var after := AfterSave(db, Some(UserRecord(s)), NoFault);
      && Lookup(after, Users.COLLECTION, s.id).Some?
      && Users.FromDoc(Lookup(after, Users.COLLECTION, s.id).value) == Some(s)
  {
    var rec := UserRecord(s);
    SavedFound(db, rec);
    Users.ReadBackFromSuperset(s, Lookup(Saved(db, rec, NoFault), Users.COLLECTION, s.id).value);
  }

  /** A user the user handler flags as a scammer is, once saved, what `is_scammer_account` reports: the
      next message from that user carries an `Account` finding. */
  lemma FlagReachesAnalyser(db: Db, u: Tdlib.User)
    requires UpdateUserEffect(db, NoFault, u).toSave.Some?
    requires UpdateUserEffect(db, NoFault, u).toSave.value.scam
    ensures Flagged(AfterSave(db, Some(UserRecord(UpdateUserEffect(db, NoFault, u).toSave.value)), NoFault), u.id)
  {
    var s := UpdateUserEffect(db, NoFault, u).toSave.value;
    assert s.id == u.id;
    SavedUserReadBack(db, s);
  }
}
