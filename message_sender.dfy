/** The responder: it takes the queued sanctions one at a time, replies to each offending message (when
    replies are enabled) and logs the sanction in the "stats" collection. */
module MessageSender {
  import opened Results
  import opened Sanctions
  import opened Mongo
  import opened Records
  import Settings
  import Api
  import Channel
  import Bson

  /** The fixed reply to a message from a known scammer. */
  const SCAMMER_TEXT := "Ceci est le compte d'un arnaqueur. S'il vous demande quoi que ce soit, bloquez-le, autrement il tentera de voler votre argent."

  const SEPARATOR := "\n\n----------\n\n"

  const ABOUT := "Pour plus d'informations sur les arnaques, rejoignez le canal ScamWatch : https://t.me/thescamwatch"

  /** Every reply ends with the separator and the about line. */
  const FOOTER := SEPARATOR + ABOUT

  predicate HasAccount(types: seq<ScamType>) {
    exists j :: 0 <= j < |types| && types[j].Account?
  }

  /** The reply before its footer: the scammer sentence when some finding is an account, whatever its
      position; otherwise the notice (the text of the message file) when some finding is a keyword;
      otherwise nothing. */
  function ReplyBody(types: seq<ScamType>, notice: string): string {
    if HasAccount(types) then SCAMMER_TEXT
    else if Keyword in types then notice
    else ""
  }

  /** How one more finding changes the reply body: a keyword adds the notice only to an empty body, an
      account replaces the body by the scammer sentence. */
  lemma ReplyBodyStep(types: seq<ScamType>, t: ScamType, notice: string)
    ensures t == Keyword ==>
      ReplyBody(types + [t], notice) == if ReplyBody(types, notice) == "" then notice else ReplyBody(types, notice)
    ensures t.Account? ==> ReplyBody(types + [t], notice) == SCAMMER_TEXT
  {
    var ext := types + [t];
    assert forall j :: 0 <= j < |types| ==> ext[j] == types[j];
    assert ext[|types|] == t;
    assert HasAccount(ext) <==> HasAccount(types) || t.Account?;
    assert Keyword in ext <==> Keyword in types || t == Keyword;
  }

  /** Appending the separator, then the about line, appends the footer. */
  lemma AppendFooter(body: string)
    ensures body + SEPARATOR + ABOUT == body + FOOTER
  {
  }

  lemma AccountPermuted(x: seq<ScamType>, y: seq<ScamType>)
    requires multiset(x) == multiset(y) && HasAccount(x)
    ensures HasAccount(y)
  {
    var j :| 0 <= j < |x| && x[j].Account?;
    assert x[j] in multiset(y);
    var k :| 0 <= k < |y| && y[k] == x[j];
  }

  /** The reply does not depend on the order of the findings. */
  lemma ReplyBodyOrderFree(a: seq<ScamType>, b: seq<ScamType>, notice: string)
    requires multiset(a) == multiset(b)
    ensures ReplyBody(a, notice) == ReplyBody(b, notice)
  {
    if HasAccount(a) {
      AccountPermuted(a, b);
    }
    if HasAccount(b) {
      AccountPermuted(b, a);
    }
    assert Keyword in a <==> Keyword in multiset(a);
    assert Keyword in b <==> Keyword in multiset(b);
  }

  /** The responder: its settings, the client, the store, the receiving side of the queue and the notice
      read from the message file. */
  class Sender {
    const config: Settings.SenderConfig
    const api: Api.EventApi
    const store: Store
    const rx: Channel.Channel
    const notice: string

    ghost predicate Valid()
      reads store
    {
      store.Valid()
    }

    constructor (config: Settings.SenderConfig, api: Api.EventApi, store: Store, rx: Channel.Channel, notice: string)
      requires store.Valid()
      ensures Valid()
      ensures this.config == config && this.api == api && this.store == store && this.rx == rx
      ensures this.notice == notice
    {
      this.config := config;
      this.api := api;
      this.store := store;
      this.rx := rx;
      this.notice := notice;
    }

    /** `load_text`: the findings are read in order, then the footer is appended. */
    method LoadText(types: seq<ScamType>) returns (txt: string)
      ensures txt == ReplyBody(types, notice) + FOOTER
    {
      txt := "";
      for i := 0 to |types|
        invariant txt == ReplyBody(types[..i], notice)
      {
        ghost var next := if types[i].Account? then SCAMMER_TEXT else if txt == "" then txt + notice else txt;
        assert ReplyBody(types[..i + 1], notice) == next by {
          ReplyBodyStep(types[..i], types[i], notice);
          assert types[..i + 1] == types[..i] + [types[i]];
        }
        match types[i]
        case Keyword =>
          if txt == "" {
            txt := txt + notice;
          }
        case Account(_) =>
          txt := SCAMMER_TEXT;
      }
      assert types[..|types|] == types;
      ghost var body := txt;
      txt := txt + SEPARATOR;
      txt := txt + ABOUT;
      assert txt == body + FOOTER by {
        AppendFooter(body);
      }
    }

    /** The reply to a sanction: to the offending message, in its chat, with the draft cleared and link
        previews disabled. */
    function ReplyTo(s: Sanction): Api.Request {
      Api.SendMessage(s.message.chatId, s.message.id, ReplyBody(s.scamTypes, notice) + FOOTER, true, true)
    }

    /** The requests the responder issues for the first `n` sanctions of `ss`, in order: one reply each
        when replies are enabled, none otherwise. */
    function Replies(ss: seq<Sanction>, n: nat): seq<Api.Request>
      requires n <= |ss|
    {
      if n == 0 then []
      else Replies(ss, n - 1) + (if config.send then [ReplyTo(ss[n - 1])] else [])
    }

    /** `send`: the reply (when enabled), then the sanction logged with the clock reading `now`. A
        storage error panics and ends the responder; `alive` is false then. */
    method Send(s: Sanction, now: int, fault: Fault) returns (alive: bool)
      requires Valid()
      modifies api, store
      ensures Valid()
      ensures api.requests == old(api.requests) + (if config.send then [ReplyTo(s)] else [])
      ensures store.collections == Saved(old(store.collections), SanctionRecord(s, now), fault)
      ensures alive <==> fault == NoFault
    {
      var txt := LoadText(s.scamTypes);
      if config.send {
        api.SendMessage(s.message.chatId, s.message.id, txt, true, true);
      }
      var saved := store.SaveDoc(SanctionRecord(s, now), fault);
      alive := saved.Ok?;
    }

    /** One turn of `run`: the next queued sanction, the `n`-th, is received and sent. */
    method HandleNext(ghost queue: seq<Sanction>, n: nat, clock: seq<int>, faults: seq<Fault>,
                      ghost requests: seq<Api.Request>, ghost db: Db)
      returns (alive: bool)
      requires Valid()
      requires n < |queue| && n < |clock| && n < |faults| && rx.items == queue[n..]
      requires api.requests == requests + Replies(queue, n)
      requires store.collections == Recorded(db, queue, clock, faults, n)
      modifies api, store, rx
      ensures Valid()
      ensures rx.items == queue[n + 1..] && rx.open == old(rx.open)
      ensures alive <==> faults[n] == NoFault
      ensures api.requests == requests + Replies(queue, n + 1)
      ensures store.collections == Recorded(db, queue, clock, faults, n + 1)
    {
      var s := rx.Recv();
      assert s == queue[n];
      alive := Send(s, clock[n], faults[n]);
    }

    /** `run`: the queued sanctions are handled one at a time, oldest first, the `i`-th at clock reading
        `clock[i]` and against the store fault `faults[i]`. A panic ends the loop and the receiver with
        it; otherwise the loop stops once the queue is empty. */
    method Run(clock: seq<int>, faults: seq<Fault>) returns (handled: nat, crashed: bool)
      requires Valid()
      requires |rx.items| <= |clock| && |rx.items| <= |faults|
      modifies api, store, rx
      ensures Valid()
      ensures handled <= |old(rx.items)|
      ensures !crashed ==> handled == |old(rx.items)| && rx.items == [] && rx.open == old(rx.open)
      ensures crashed ==> 0 < handled && faults[handled - 1] != NoFault && rx.items == [] && !rx.open
      ensures forall i :: 0 <= i < handled - 1 ==> Accepted(faults, i)
      ensures !crashed ==> forall i :: 0 <= i < handled ==> Accepted(faults, i)
      ensures api.requests == old(api.requests) + Replies(old(rx.items), handled)
      ensures store.collections == Recorded(old(store.collections), old(rx.items), clock, faults, handled)
    {
      ghost var queue := rx.items;
      handled, crashed := 0, false;
      while rx.items != []
        invariant Valid()
        invariant handled <= |queue| && rx.items == queue[handled..] && rx.open == old(rx.open)
        invariant forall i :: 0 <= i < handled ==> Accepted(faults, i)
        invariant api.requests == old(api.requests) + Replies(queue, handled)
        invariant store.collections == Recorded(old(store.collections), queue, clock, faults, handled)
        decreases |rx.items|
      {
        var alive := HandleNext(queue, handled, clock, faults, old(api.requests), old(store.collections));
        handled := handled + 1;
        if !alive {
          rx.Close();
          crashed := true;
          return;
        }
        AcceptedStep(faults, handled - 1);
      }
    }
  }

  /** The store accepted the write of the `i`-th sanction. */
  predicate Accepted(faults: seq<Fault>, i: nat)
    requires i < |faults|
  {
    faults[i] == NoFault
  }

  /** One more accepted write extends the accepted prefix. */
  lemma AcceptedStep(faults: seq<Fault>, n: nat)
    requires n < |faults| && faults[n] == NoFault
    requires forall i :: 0 <= i < n ==> Accepted(faults, i)
    ensures forall i :: 0 <= i <= n ==> Accepted(faults, i)
  {
  }

  /** The store after logging the first `n` sanctions of `ss`, the `i`-th at clock reading `clock[i]`
      against the store fault `faults[i]`. */
  function Recorded(db: Db, ss: seq<Sanction>, clock: seq<int>, faults: seq<Fault>, n: nat): Db
    requires n <= |ss| && n <= |clock| && n <= |faults|
  {
    if n == 0 then db
    else Saved(Recorded(db, ss, clock, faults, n - 1), SanctionRecord(ss[n - 1], clock[n - 1]), faults[n - 1])
  }

  /** Logging a sanction keeps every document found and adds its own. */
  lemma LoggedStillFound(db: Db, s: Sanction, now: int, id: int)
    requires Lookup(db, Sanctions.COLLECTION, id).Some? || id == s.message.id
    ensures Lookup(Saved(db, SanctionRecord(s, now), NoFault), Sanctions.COLLECTION, id).Some?
  {
    SavedStillFound(db, SanctionRecord(s, now), Sanctions.COLLECTION, id);
  }

  /** Without storage errors, the `i`-th sanction handled has a "stats" document under its message's id. */
  lemma {:induction false} RecordedFinds(db: Db, ss: seq<Sanction>, clock: seq<int>, faults: seq<Fault>, n: nat, i: nat)
    requires i < n <= |ss| && n <= |clock| && n <= |faults|
    requires forall k :: 0 <= k < n ==> Accepted(faults, k)
    ensures Lookup(Recorded(db, ss, clock, faults, n), Sanctions.COLLECTION, ss[i].message.id).Some?
    decreases n
  {
    var before := Recorded(db, ss, clock, faults, n - 1);
    var id := ss[i].message.id;
    if i < n - 1 {
      RecordedFinds(db, ss, clock, faults, n - 1, i);
    }
    assert Accepted(faults, n - 1);
    LoggedStillFound(before, ss[n - 1], clock[n - 1], id);
  }

  /** Without storage errors, every sanction handled has a "stats" document under its message's id. */
  lemma AllRecorded(db: Db, ss: seq<Sanction>, clock: seq<int>, faults: seq<Fault>, n: nat)
    requires n <= |ss| && n <= |clock| && n <= |faults|
    requires forall i :: 0 <= i < n ==> Accepted(faults, i)
    ensures forall i :: 0 <= i < n ==>
      Lookup(Recorded(db, ss, clock, faults, n), Sanctions.COLLECTION, ss[i].message.id).Some?
  {
    forall i | 0 <= i < n
      ensures Lookup(Recorded(db, ss, clock, faults, n), Sanctions.COLLECTION, ss[i].message.id).Some?
    {
      RecordedFinds(db, ss, clock, faults, n, i);
    }
  }

  /** The "stats" document of a sanction logged without error records the message's id and the names
      of the findings. */
  lemma SanctionLogged(db: Db, s: Sanction, now: int)
    ensures var d := Lookup(Saved(db, SanctionRecord(s, now), NoFault), Sanctions.COLLECTION, s.message.id);
      && d.Some?
      && Records.ID in d.value && d.value[Records.ID] == Bson.Int(s.message.id)
      && Sanctions.MESSAGE in d.value && d.value[Sanctions.MESSAGE] == Bson.Int(s.message.id)
      && Sanctions.SCAM_TYPES in d.value && d.value[Sanctions.SCAM_TYPES] == Bson.StrList(ScamTypesToStr(s.scamTypes))
  {
    SavedFound(db, SanctionRecord(s, now));
  }
}
