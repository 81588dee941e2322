/** Worked examples over the whole pipeline: a keyword message from the classifier to the "stats"
    collection, accent-insensitive matching, and the "CC" special case. */
module Scenarios {
  import opened Results
  import opened Text
  import opened Sanctions
  import opened Mongo
  import opened Records
  import opened ScamAnalyser
  import Config
  import Tdlib
  import Fetish
  import MessageSender
  import Bson

  /** Upper-casing "service arnaque garanti" gives "SERVICE ARNAQUE GARANTI". */
  lemma ArnaqueUpper()
    ensures Upper("service arnaque garanti") == "SERVICE ARNAQUE GARANTI"
  {
  }

  /** The upper-cased text is plain ASCII, so folding and upper-casing it again change nothing. */
  lemma ArnaqueNormal()
    ensures Upper(Unidecode("SERVICE ARNAQUE GARANTI")) == "SERVICE ARNAQUE GARANTI"
  {
    AsciiUnfolded("SERVICE ARNAQUE GARANTI");
    UpperIdempotent("service arnaque garanti");
    ArnaqueUpper();
  }

  /** The normalised text holds the French keyword "ARNAQUE". */
  lemma ArnaqueInText()
    ensures Occurs(["ARNAQUE"], Upper(Unidecode(Upper("service arnaque garanti"))))
  {
    ArnaqueUpper();
    ArnaqueNormal();
    var t := "SERVICE ARNAQUE GARANTI";
    assert t[8..15] == "ARNAQUE";
    assert OccursAt("ARNAQUE", t, 8);
    assert IsSubstring(["ARNAQUE"][0], t);
  }

  /** The message is a threat: not outgoing, its sender not bypassed, five seconds old. */
  lemma ArnaqueThreat(db: Db, m: Tdlib.Message, now: int, timeout: int)
    requires !m.isOutgoing && m.sender.SenderUser?
    requires StoredUser(db, NoFault, m.sender.userId).Ok? && !Bypassed(db, m.sender)
    requires now - m.date == 5 && 5 < timeout
    ensures IsThreat(db, NoFault, m, now, timeout) == Ok(true)
  {
  }

  /** Its one finding is `Keyword`: the text holds the keyword and the sender is not flagged. */
  lemma ArnaqueFindings(db: Db, m: Tdlib.Message)
    requires StoredKeywords(db, NoFault) == Ok(Config.Keywords(["ARNAQUE"], [], []))
    requires m.content == Tdlib.MessageText("service arnaque garanti")
    requires m.sender.SenderUser?
    requires StoredUser(db, NoFault, m.sender.userId).Ok? && !Flagged(db, m.sender.userId)
    ensures Findings(db, NoFault, m) == Ok([Keyword])
  {
    ArnaqueInText();
    assert KeywordFinding(db, NoFault, m.content) == Ok(true);
    assert IsScammerAccount(db, NoFault, m.sender.userId) == Ok(false);
  }

  /** A message "service arnaque garanti", sent five seconds ago in the group -100123 by a user who is
      neither bypassed nor flagged, while the French keywords are ["ARNAQUE"]: it is a threat, its one
      finding is `Keyword`, one sanction is queued for it, and once the responder has run over a queue
      holding just that sanction, its write accepted, the "stats" collection holds a document under the
      message's id naming the finding, whatever the store `later` held when the responder started. */
  lemma ArnaqueEndToEnd(db: Db, m: Tdlib.Message, now: int, timeout: int, later: Db, loggedAt: int)
    requires StoredKeywords(db, NoFault) == Ok(Config.Keywords(["ARNAQUE"], [], []))
    requires m.content == Tdlib.MessageText("service arnaque garanti")
    requires !m.isOutgoing && m.sender.SenderUser? && m.chatId == -100123
    requires StoredUser(db, NoFault, m.sender.userId).Ok?
    requires !Bypassed(db, m.sender) && !Flagged(db, m.sender.userId)
    requires now - m.date == 5 && 5 < timeout
    ensures IsThreat(db, NoFault, m, now, timeout) == Ok(true)
    ensures Findings(db, NoFault, m) == Ok([Keyword])
    ensures Fetish.NewMessageEffect(db, NoFault, m, now, timeout, true).sanction == Some(New(m, [Keyword]))
    ensures var d := Lookup(MessageSender.Recorded(later, [New(m, [Keyword])], [loggedAt], [NoFault], 1),
                            Sanctions.COLLECTION, m.id);
      && d.Some?
      && Records.ID in d.value && d.value[Records.ID] == Bson.Int(m.id)
      && Sanctions.SCAM_TYPES in d.value && d.value[Sanctions.SCAM_TYPES] == Bson.StrList(["Keyword"])
  {
    ArnaqueThreat(db, m, now, timeout);
    ArnaqueFindings(db, m);
    var s := New(m, [Keyword]);
    assert ScamTypesToStr(s.scamTypes) == ["Keyword"];
    MessageSender.SanctionLogged(later, s, loggedAt);
    assert MessageSender.Recorded(later, [s], [loggedAt], [NoFault], 1) == Saved(later, SanctionRecord(s, loggedAt), NoFault);
  }

  /** Normalising "arnaqu\u00e9" gives "ARNAQUE". */
  lemma AccentFolded()
    ensures Upper(Unidecode(Upper("arnaqu\U{e9}"))) == "ARNAQUE"
  {
    var u := "ARNAQU\U{e9}";
    assert Upper("arnaqu\U{e9}") == u by {
      assert forall i :: 0 <= i < 7 ==> UpperChar("arnaqu\U{e9}"[i]) == u[i];
    }
    var f := "ARNAQUe";
    assert Unidecode(u) == f by {
      var p := "ARNAQU";
      AsciiUnfolded(p);
      FoldsToE();
      assert forall i :: 0 <= i < 6 ==> u[i] == p[i] && f[i] == Unidecode(p)[i];
    }
    assert Upper(f) == "ARNAQUE" by {
      assert forall i :: 0 <= i < 7 ==> UpperChar(f[i]) == "ARNAQUE"[i];
    }
  }

  /** A keyword stored without accents matches the text typed with them: "arnaqué" holds "ARNAQUE". */
  lemma AccentedKeyword(db: Db, c: Tdlib.Content)
    requires StoredKeywords(db, NoFault) == Ok(Config.Keywords(["ARNAQUE"], [], []))
    requires c == Tdlib.MessageText("arnaqu\U{e9}")
    ensures KeywordFinding(db, NoFault, c) == Ok(true)
  {
    AccentFolded();
    var t := "ARNAQUE";
    assert OccursAt("ARNAQUE", t, 0);
    assert IsSubstring(["ARNAQUE"][0], t);
  }

  /** A message that is exactly "cc", in any case, is a keyword finding even with no keyword stored. */
  lemma CcAlone(db: Db, c: Tdlib.Content)
    requires StoredKeywords(db, NoFault) == Ok(Config.Keywords([], [], []))
    requires c == Tdlib.MessageText("cc")
    ensures KeywordFinding(db, NoFault, c) == Ok(true)
  {
    assert Upper("cc") == "CC";
  }

  /** "CC" inside a longer text is not special: with no keyword stored, "free CC now" is no finding. */
  lemma CcInsideText(db: Db, c: Tdlib.Content)
    requires StoredKeywords(db, NoFault) == Ok(Config.Keywords([], [], []))
    requires c == Tdlib.MessageText("free CC now")
    ensures KeywordFinding(db, NoFault, c) == Ok(false)
  {
    assert |Upper("free CC now")| == 11;
  }
}
