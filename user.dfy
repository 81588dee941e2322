/** The stored user record (collection "users"). */
module Users {
  import opened Results
  import opened Bson
  import Tdlib

  const COLLECTION := "users"

  const ID := "id"
  const FIRST_NAME := "first_name"
  const LAST_NAME := "last_name"
  const USERNAME := "username"
  const PHONE_NUMBER := "phone_number"
  const IS_VERIFIED := "is_verified"
  const IS_SUPPORT := "is_support"
  const RESTRICTION_REASON := "restriction_reason"
  const IS_SCAM := "is_scam"
  const USER_TYPE := "user_type"
  const SCAM := "scam"
  const BYPASS := "bypass"

  /** `scam` is the bot's own scam flag (set by an administrator or by the new-user heuristics); `bypass`
      is the operator's allow-list flag. `isScam` is the messaging platform's flag. */
  datatype User = User(
    id: int,
    firstName: string,
    lastName: string,
    username: string,
    phoneNumber: string,
    isVerified: bool,
    isSupport: bool,
    restrictionReason: string,
    isScam: bool,
    userType: string,
    scam: bool,
    bypass: bool)

  /** The type tag of a user: its kind's own name, and "" for any other kind. */
  function UserTypeTag(t: Tdlib.UserType): (r: string)
    ensures r in {"Bot", "Deleted", "Regular", "Unknown", ""}
    ensures r == "Bot" <==> t.UserTypeBot?
    ensures r == "Deleted" <==> t.UserTypeDeleted?
    ensures r == "Regular" <==> t.UserTypeRegular?
    ensures r == "Unknown" <==> t.UserTypeUnknown?
    ensures r == "" <==> t.UserTypeOther?
  {
    match t
    case UserTypeBot => "Bot"
    case UserTypeDeleted => "Deleted"
    case UserTypeRegular => "Regular"
    case UserTypeUnknown => "Unknown"
    case UserTypeOther => ""
  }

  /** The record of a user seen on the platform, with the given scam flag and no bypass. */
  function FromTd(u: Tdlib.User, scam: bool): (r: User)
    ensures r.scam == scam && !r.bypass
    ensures r.id == u.id && r.firstName == u.firstName && r.lastName == u.lastName
    ensures r.username == u.username && r.phoneNumber == u.phoneNumber
    ensures r.isVerified == u.isVerified && r.isSupport == u.isSupport && r.isScam == u.isScam
    ensures r.restrictionReason == u.restrictionReason
    ensures r.userType == UserTypeTag(u.userType)
  {
    User(u.id, u.firstName, u.lastName, u.username, u.phoneNumber, u.isVerified, u.isSupport,
         u.restrictionReason, u.isScam, UserTypeTag(u.userType), scam, false)
  }

  /** `User::from_doc`: "id" and "first_name" are required (the source unwraps them); every other field
      falls back to "" or false when it is absent. */
  function FromDoc(d: Document): (r: Option<User>)
    ensures r.Some? <==> AsInt(d, ID).Some? && AsStr(d, FIRST_NAME).Some?
    ensures r.Some? ==> r.value.id == d[ID].i && r.value.firstName == d[FIRST_NAME].s
    ensures r.Some? && LAST_NAME !in d ==> r.value.lastName == ""
    ensures r.Some? && USERNAME !in d ==> r.value.username == ""
    ensures r.Some? && PHONE_NUMBER !in d ==> r.value.phoneNumber == ""
    ensures r.Some? && RESTRICTION_REASON !in d ==> r.value.restrictionReason == ""
    ensures r.Some? && USER_TYPE !in d ==> r.value.userType == ""
    ensures r.Some? && IS_VERIFIED !in d ==> !r.value.isVerified
    ensures r.Some? && IS_SUPPORT !in d ==> !r.value.isSupport
    ensures r.Some? && IS_SCAM !in d ==> !r.value.isScam
    ensures r.Some? && SCAM !in d ==> !r.value.scam
    ensures r.Some? && BYPASS !in d ==> !r.value.bypass
  {
    match (AsInt(d, ID), AsStr(d, FIRST_NAME))
    case (Some(id), Some(first)) =>
      Some(User(
        id, first,
        StrOr(d, LAST_NAME, ""),
        StrOr(d, USERNAME, ""),
        StrOr(d, PHONE_NUMBER, ""),
        BoolOr(d, IS_VERIFIED, false),
        BoolOr(d, IS_SUPPORT, false),
        StrOr(d, RESTRICTION_REASON, ""),
        BoolOr(d, IS_SCAM, false),
        StrOr(d, USER_TYPE, ""),
        BoolOr(d, SCAM, false),
        BoolOr(d, BYPASS, false)))
    case _ => None
  }

  function ToDoc(u: User): Document {
    map[
      ID := Int(u.id),
      FIRST_NAME := Str(u.firstName),
      LAST_NAME := Str(u.lastName),
      USERNAME := Str(u.username),
      PHONE_NUMBER := Str(u.phoneNumber),
      IS_VERIFIED := Bool(u.isVerified),
      IS_SUPPORT := Bool(u.isSupport),
      RESTRICTION_REASON := Str(u.restrictionReason),
      IS_SCAM := Bool(u.isScam),
      USER_TYPE := Str(u.userType),
      SCAM := Bool(u.scam),
      BYPASS := Bool(u.bypass)
    ]
  }

  /** Decoding an encoded user gives it back, field for field. */
  lemma RoundTrip(u: User)
    ensures FromDoc(ToDoc(u)) == Some(u)
  {
    ReadBackFromSuperset(u, ToDoc(u));
  }

  /** A document holding at least the fields of an encoded user, with the same values, decodes to that
      user: what `$set` leaves behind reads back as the user saved. */
  lemma ReadBackFromSuperset(u: User, d: Document)
    requires forall k :: k in ToDoc(u) ==> k in d && d[k] == ToDoc(u)[k]
    ensures FromDoc(d) == Some(u)
  {
    ReadBackIdentity(u, d);
    ReadBackProfile(u, d);
    ReadBackDetails(u, d);
    ReadBackFields(u, d);
  }

  lemma ReadBackIdentity(u: User, d: Document)
    requires forall k :: k in ToDoc(u) ==> k in d && d[k] == ToDoc(u)[k]
    ensures AsInt(d, ID) == Some(u.id) && AsStr(d, FIRST_NAME) == Some(u.firstName)
    ensures AsStr(d, LAST_NAME) == Some(u.lastName)
  {
    var e := ToDoc(u);
    assert ID in e && FIRST_NAME in e && LAST_NAME in e;
  }

  lemma ReadBackProfile(u: User, d: Document)
    requires forall k :: k in ToDoc(u) ==> k in d && d[k] == ToDoc(u)[k]
    ensures AsStr(d, USERNAME) == Some(u.username)
    ensures AsStr(d, PHONE_NUMBER) == Some(u.phoneNumber) && AsStr(d, USER_TYPE) == Some(u.userType)
  {
    var e := ToDoc(u);
    assert USERNAME in e && PHONE_NUMBER in e && USER_TYPE in e;
  }

  lemma ReadBackDetails(u: User, d: Document)
    requires forall k :: k in ToDoc(u) ==> k in d && d[k] == ToDoc(u)[k]
    ensures AsBool(d, IS_VERIFIED) == Some(u.isVerified) && AsBool(d, IS_SUPPORT) == Some(u.isSupport)
    ensures AsStr(d, RESTRICTION_REASON) == Some(u.restrictionReason) && AsBool(d, IS_SCAM) == Some(u.isScam)
    ensures AsBool(d, SCAM) == Some(u.scam) && AsBool(d, BYPASS) == Some(u.bypass)
  {
    var e := ToDoc(u);
    assert IS_VERIFIED in e && IS_SUPPORT in e && RESTRICTION_REASON in e && IS_SCAM in e && SCAM in e && BYPASS in e;
  }

  lemma ReadBackFields(u: User, d: Document)
    requires AsInt(d, ID) == Some(u.id) && AsStr(d, FIRST_NAME) == Some(u.firstName)
    requires AsStr(d, LAST_NAME) == Some(u.lastName) && AsStr(d, USERNAME) == Some(u.username)
    requires AsStr(d, PHONE_NUMBER) == Some(u.phoneNumber) && AsBool(d, IS_VERIFIED) == Some(u.isVerified)
    requires AsBool(d, IS_SUPPORT) == Some(u.isSupport) && AsStr(d, RESTRICTION_REASON) == Some(u.restrictionReason)
    requires AsBool(d, IS_SCAM) == Some(u.isScam) && AsStr(d, USER_TYPE) == Some(u.userType)
    requires AsBool(d, SCAM) == Some(u.scam) && AsBool(d, BYPASS) == Some(u.bypass)
    ensures FromDoc(d) == Some(u)
  {
  }

  /** `User::merge`: the names and the username are taken from `latest`; the phone number only when none is
      known yet; every other field, the flags `scam` and `bypass` included, is kept. */
  function Merge(cur: User, latest: User): (r: User)
    ensures r.firstName == latest.firstName && r.lastName == latest.lastName && r.username == latest.username
    ensures r.phoneNumber == (if cur.phoneNumber == "" then latest.phoneNumber else cur.phoneNumber)
    ensures r.(firstName := cur.firstName, lastName := cur.lastName, username := cur.username,
               phoneNumber := cur.phoneNumber) == cur
  {
    var phone := if cur.phoneNumber == "" then latest.phoneNumber else cur.phoneNumber;
    cur.(phoneNumber := phone, firstName := latest.firstName, lastName := latest.lastName, username := latest.username)
  }

  /** Merging the same observation twice changes nothing more. */
  lemma MergeIdempotent(cur: User, latest: User)
    ensures Merge(Merge(cur, latest), latest) == Merge(cur, latest)
  {
  }
}
