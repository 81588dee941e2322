/** The scam classifier: whether a message is to be examined at all (`is_threat`), what is found against
    it (`analyse`), and whether a newly seen account looks like a scammer's (`is_new_user_scam`). Each
    reads the store; `Fail` stands for the panics of its `unwrap()` calls. */
module ScamAnalyser {
  import opened Results
  import opened Text
  import opened Sanctions
  import opened Mongo
  import Config
  import Tdlib
  import Users

  /** The stored user with id `uid`, if any. A rejected lookup fails, and so does a stored document
      lacking the fields `User::from_doc` unwraps. */
  function StoredUser(db: Db, fault: Fault, uid: int): (r: Result<Option<Users.User>>)
    ensures r.Fail? <==>
      fault == LookupFault
      || (Lookup(db, Users.COLLECTION, uid).Some? && Users.FromDoc(Lookup(db, Users.COLLECTION, uid).value).None?)
    ensures r == Ok(None) <==> fault != LookupFault && Lookup(db, Users.COLLECTION, uid).None?
    ensures r.Ok? && r.value.Some? ==> r.value.value.id == uid
    ensures r.Ok? && r.value.Some? ==>
      Lookup(db, Users.COLLECTION, uid).Some? && Users.FromDoc(Lookup(db, Users.COLLECTION, uid).value) == r.value
  {
    match Get(db, Users.COLLECTION, uid, fault)
    case Fail(e) => Fail(e)
    case Ok(None) => Ok(None)
    case Ok(Some(d)) =>
      match Users.FromDoc(d)
      case None => Fail(Malformed(Users.COLLECTION))
      case Some(u) => Ok(Some(u))
  }

  /** The sender is a user stored with the bypass flag. */
  ghost predicate Bypassed(db: Db, s: Tdlib.Sender) {
    && s.SenderUser?
    && Lookup(db, Users.COLLECTION, s.userId).Some?
    && Users.FromDoc(Lookup(db, Users.COLLECTION, s.userId).value).Some?
    && Users.FromDoc(Lookup(db, Users.COLLECTION, s.userId).value).value.bypass
  }

  /** The user `uid` is stored with the scam flag an administrator (or the new-user check) set. */
  ghost predicate Flagged(db: Db, uid: int) {
    && Lookup(db, Users.COLLECTION, uid).Some?
    && Users.FromDoc(Lookup(db, Users.COLLECTION, uid).value).Some?
    && Users.FromDoc(Lookup(db, Users.COLLECTION, uid).value).value.scam
  }

  /** `is_threat`, with the clock reading `now` and the configured timeout (in whole seconds) as
      parameters. The checks run in order: an outgoing message is never a threat, and is dismissed before
      the store is read; then a sender with the bypass flag; then a message `timeout` seconds old or
      older. */
  function IsThreat(db: Db, fault: Fault, m: Tdlib.Message, now: int, timeout: int): (r: Result<bool>)
    ensures m.isOutgoing ==> r == Ok(false)
    ensures r.Fail? <==> !m.isOutgoing && m.sender.SenderUser? && StoredUser(db, fault, m.sender.userId).Fail?
    ensures r.Ok? ==> (r.value <==> !m.isOutgoing && !Bypassed(db, m.sender) && now - m.date < timeout)
  {
    if m.isOutgoing then Ok(false)
    else
      var bypass := match m.sender
        case SenderChat(_) => Ok(false)
        case SenderUser(uid) =>
          match StoredUser(db, fault, uid)
          case Fail(e) => Fail(e)
          case Ok(None) => Ok(false)
          case Ok(Some(u)) => Ok(u.bypass);
      match bypass
      case Fail(e) => Fail(e)
      case Ok(true) => Ok(false)
      case Ok(false) => Ok(now - m.date < timeout)
  }

  /** The keyword lists stored under id 0 of "config". The source unwraps the lookup, the document and
      each list, so each of these missing is a failure. */
  function StoredKeywords(db: Db, fault: Fault): (r: Result<Config.Keywords>)
    ensures r.Ok? <==>
      && fault != LookupFault
      && Lookup(db, Config.COLLECTION, Config.KEYWORDS_ID).Some?
      && Config.KeywordsFromDoc(Lookup(db, Config.COLLECTION, Config.KEYWORDS_ID).value).Some?
    ensures r.Ok? ==> Config.KeywordsFromDoc(Lookup(db, Config.COLLECTION, Config.KEYWORDS_ID).value) == Some(r.value)
  {
    match Get(db, Config.COLLECTION, Config.KEYWORDS_ID, fault)
    case Fail(e) => Fail(e)
    case Ok(None) => Fail(MissingConfig(Config.KEYWORDS_ID))
    case Ok(Some(d)) =>
      match Config.KeywordsFromDoc(d)
      case None => Fail(Malformed(Config.COLLECTION))
      case Some(kw) => Ok(kw)
  }

  /** The forbidden names stored under id 1 of "config", under the same conditions. */
  function StoredForbiddenNames(db: Db, fault: Fault): (r: Result<Config.ForbiddenNames>)
    ensures r.Ok? <==>
      && fault != LookupFault
      && Lookup(db, Config.COLLECTION, Config.FORBIDDEN_NAMES_ID).Some?
      && Config.ForbiddenNamesFromDoc(Lookup(db, Config.COLLECTION, Config.FORBIDDEN_NAMES_ID).value).Some?
    ensures r.Ok? ==>
      Config.ForbiddenNamesFromDoc(Lookup(db, Config.COLLECTION, Config.FORBIDDEN_NAMES_ID).value) == Some(r.value)
  {
    match Get(db, Config.COLLECTION, Config.FORBIDDEN_NAMES_ID, fault)
    case Fail(e) => Fail(e)
    case Ok(None) => Fail(MissingConfig(Config.FORBIDDEN_NAMES_ID))
    case Ok(Some(d)) =>
      match Config.ForbiddenNamesFromDoc(d)
      case None => Fail(Malformed(Config.COLLECTION))
      case Some(fnames) => Ok(fnames)
  }

  /** `is_keyword_in_text`: after accent folding, some stored keyword of any language occurs in the
      upper-cased text. */
  function IsKeywordInText(db: Db, fault: Fault, text: string): (r: Result<bool>)
    ensures r.Ok? <==> StoredKeywords(db, fault).Ok?
    ensures r.Ok? ==>
      var kw := StoredKeywords(db, fault).value;
      var t := Upper(Unidecode(text));
      (r.value <==> Occurs(kw.fr, t) || Occurs(kw.en, t) || Occurs(kw.de, t))
  {
    match StoredKeywords(db, fault)
    case Fail(e) => Fail(e)
    case Ok(kw) => Ok(Config.TextMatch(kw, Unidecode(text)) != Config.NoneMatch)
  }

  /** The keyword finding of `analyse`: only a text, a photo caption or a video caption is read; its
      upper-cased form matches a stored keyword or is exactly "CC". The keyword lookup comes first, so
      its failure is a failure even for "CC". */
  function KeywordFinding(db: Db, fault: Fault, c: Tdlib.Content): (r: Result<bool>)
    ensures Tdlib.TextOf(c).None? ==> r == Ok(false)
    ensures Tdlib.TextOf(c).Some? ==> (r.Ok? <==> StoredKeywords(db, fault).Ok?)
    ensures Tdlib.TextOf(c).Some? && r.Ok? ==>
      var kw := StoredKeywords(db, fault).value;
      var up := Upper(Tdlib.TextOf(c).value);
      var t := Upper(Unidecode(up));
      (r.value <==> Occurs(kw.fr, t) || Occurs(kw.en, t) || Occurs(kw.de, t) || up == "CC")
  {
    match Tdlib.TextOf(c)
    case None => Ok(false)
    case Some(text) =>
      var up := Upper(text);
      match IsKeywordInText(db, fault, up)
      case Fail(e) => Fail(e)
      case Ok(found) => Ok(found || up == "CC")
  }

  /** `is_scammer_account`: the user is stored with the scam flag; an unknown user is not a scammer. */
  function IsScammerAccount(db: Db, fault: Fault, uid: int): (r: Result<bool>)
    ensures r.Fail? <==> StoredUser(db, fault, uid).Fail?
    ensures r.Ok? ==> (r.value <==> Flagged(db, uid))
  {
    match StoredUser(db, fault, uid)
    case Fail(e) => Fail(e)
    case Ok(None) => Ok(false)
    case Ok(Some(u)) => Ok(u.scam)
  }

  /** What `analyse` finds against a message: `Keyword` for a keyword finding, then `Account` of the
      sender for a sender stored as a scammer. */
  function Findings(db: Db, fault: Fault, m: Tdlib.Message): (r: Result<seq<ScamType>>)
    ensures r.Fail? <==>
      KeywordFinding(db, fault, m.content).Fail?
      || (m.sender.SenderUser? && IsScammerAccount(db, fault, m.sender.userId).Fail?)
    ensures r.Ok? ==> |r.value| <= 2
    ensures r.Ok? ==> forall i, j :: 0 <= i < j < |r.value| ==> r.value[i] != r.value[j]
    ensures r.Ok? ==> (Keyword in r.value <==> KeywordFinding(db, fault, m.content) == Ok(true))
    ensures r.Ok? && Keyword in r.value ==> r.value[0] == Keyword
    ensures r.Ok? && Tdlib.TextOf(m.content).None? ==> Keyword !in r.value
    ensures r.Ok? && m.sender.SenderUser? ==> (Account(m.sender.userId) in r.value <==> Flagged(db, m.sender.userId))
    ensures r.Ok? ==> forall i :: 0 <= i < |r.value| && r.value[i].Account? ==>
      m.sender == Tdlib.SenderUser(r.value[i].userId)
  {
    match KeywordFinding(db, fault, m.content)
    case Fail(e) => Fail(e)
    case Ok(kw) =>
      var found := if kw then [Keyword] else [];
      match m.sender
      case SenderChat(_) => Ok(found)
      case SenderUser(uid) =>
        match IsScammerAccount(db, fault, uid)
        case Fail(e) => Fail(e)
        case Ok(scammer) => Ok(if scammer then found + [Account(uid)] else found)
  }

  /** `analyse`: the findings are pushed one after the other onto an initially empty list. */
  method Analyse(db: Db, fault: Fault, m: Tdlib.Message) returns (r: Result<seq<ScamType>>)
    ensures r == Findings(db, fault, m)
  {
    var found: seq<ScamType> := [];
    var keyword := KeywordFinding(db, fault, m.content);
    if keyword.Fail? {
      return Fail(keyword.failure);
    }
    if keyword.value {
      found := found + [Keyword];
    }
    assert found == if keyword.value then [Keyword] else [];
    if m.sender.SenderUser? {
      var scammer := IsScammerAccount(db, fault, m.sender.userId);
      if scammer.Fail? {
        return Fail(scammer.failure);
      }
      if scammer.value {
        found := found + [Account(m.sender.userId)];
      }
    }
    return Ok(found);
  }

  /** `is_new_user_scam`, on the accent-folded names: a username containing "ESCORT", a first name equal
      to the last name (both upper-cased), or a stored forbidden name in either name. The first two are
      decided before the store is read. */
  function IsNewUserScam(db: Db, fault: Fault, u: Tdlib.User): (r: Result<bool>)
    ensures IsSubstring("ESCORT", Upper(Unidecode(u.username))) ==> r == Ok(true)
    ensures Upper(Unidecode(u.firstName)) == Upper(Unidecode(u.lastName)) ==> r == Ok(true)
    ensures r.Fail? <==>
      && !IsSubstring("ESCORT", Upper(Unidecode(u.username)))
      && Upper(Unidecode(u.firstName)) != Upper(Unidecode(u.lastName))
      && StoredForbiddenNames(db, fault).Fail?
    ensures r == Ok(false) <==>
      && !IsSubstring("ESCORT", Upper(Unidecode(u.username)))
      && Upper(Unidecode(u.firstName)) != Upper(Unidecode(u.lastName))
      && StoredForbiddenNames(db, fault).Ok?
      && !Occurs(StoredForbiddenNames(db, fault).value.names, Upper(Unidecode(u.firstName)))
      && !Occurs(StoredForbiddenNames(db, fault).value.names, Upper(Unidecode(u.lastName)))
  {
    var first := Unidecode(u.firstName);
    var last := Unidecode(u.lastName);
    var username := Unidecode(u.username);
    ContainsIsSubstring(Upper(username), "ESCORT");
    if Contains(Upper(username), "ESCORT") then Ok(true)
    else if Upper(first) == Upper(last) then Ok(true)
    else
      match StoredForbiddenNames(db, fault)
      case Fail(e) => Fail(e)
      case Ok(fnames) => Ok(Config.NameMatch(fnames, first, last))
  }

  /** A username such as "hot_escort_94" marks the account, whatever the store holds. */
  lemma EscortUsername(db: Db, fault: Fault, u: Tdlib.User)
    requires u.username == "hot_escort_94"
    ensures IsNewUserScam(db, fault, u) == Ok(true)
  {
    AsciiUnfolded(u.username);
    var t := Upper(u.username);
    assert t[4] == 'E' && t[5] == 'S' && t[6] == 'C' && t[7] == 'O' && t[8] == 'R' && t[9] == 'T';
    assert t[4..10] == "ESCORT";
    assert OccursAt("ESCORT", t, 4);
  }

  /** First and last names that differ only in case mark the account: "Ana" and "ANA". */
  lemma SameNameDifferentCase(db: Db, fault: Fault, u: Tdlib.User)
    requires u.firstName == "Ana" && u.lastName == "ANA"
    ensures IsNewUserScam(db, fault, u) == Ok(true)
  {
    AsciiUnfolded(u.firstName);
    AsciiUnfolded(u.lastName);
    assert Upper(u.firstName) == u.lastName;
  }

  /** So do names that differ only in accents: "Zo\u00e9" and "ZOE". */
  lemma SameNameDifferentAccent(db: Db, fault: Fault, u: Tdlib.User)
    requires u.firstName == "Zo\U{e9}" && u.lastName == "ZOE"
    ensures IsNewUserScam(db, fault, u) == Ok(true)
  {
    var f := "Zoe";
    assert Unidecode(u.firstName) == f by {
      var p := "Zo";
      AsciiUnfolded(p);
      FoldsToE();
      assert forall i :: 0 <= i < 2 ==> u.firstName[i] == p[i] && f[i] == Unidecode(p)[i];
    }
    assert Upper(f) == u.lastName by {
      assert forall i :: 0 <= i < 3 ==> UpperChar(f[i]) == u.lastName[i];
    }
    AsciiUnfolded(u.lastName);
  }
}
