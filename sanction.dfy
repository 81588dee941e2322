/** A sanction: an offending message with the findings against it, logged in collection "stats". */
module Sanctions {
  import opened Results
  import opened Bson
  import Tdlib

  const COLLECTION := "stats"

  const ID := "id"
  const MESSAGE := "message"
  const SCAM_TYPES := "scam-types"
  const DATE := "date"

  /** A finding: the text matched a keyword, or the sender's account is known as a scammer's. */
  datatype ScamType = Keyword | Account(userId: int)

  datatype Sanction = Sanction(message: Tdlib.Message, scamTypes: seq<ScamType>, date: Option<int>)

  /** `Sanction::new`: the message and the findings as given, no date. */
  function New(m: Tdlib.Message, scamTypes: seq<ScamType>): (r: Sanction)
    ensures r.message == m && r.scamTypes == scamTypes && r.date == None
  {
    Sanction(m, scamTypes, None)
  }

  function ScamTypeName(t: ScamType): string {
    match t
    case Keyword => "Keyword"
    case Account(_) => "Account"
  }

  /** The names of the findings, in order; an account finding is named without its user id. */
  function ScamTypesToStr(scamTypes: seq<ScamType>): (r: seq<string>)
    ensures |r| == |scamTypes|
    ensures forall i :: 0 <= i < |r| ==> (r[i] == "Keyword" <==> scamTypes[i] == Keyword)
    ensures forall i :: 0 <= i < |r| ==> (r[i] == "Account" <==> scamTypes[i].Account?)
  {
    seq(|scamTypes|, i requires 0 <= i < |scamTypes| => ScamTypeName(scamTypes[i]))
  }

  /** Two finding lists that differ only in the user ids of their account findings are logged alike. */
  lemma ScamTypesToStrIgnoresUserId(a: seq<ScamType>, b: seq<ScamType>)
    requires |a| == |b|
    requires forall i :: 0 <= i < |a| ==> (a[i].Keyword? <==> b[i].Keyword?)
    ensures ScamTypesToStr(a) == ScamTypesToStr(b)
  {
  }

  /** The stats document of a sanction logged at time `now` (seconds since the epoch). */
  function ToDoc(s: Sanction, now: int): (d: Document)
    ensures d.Keys == {ID, MESSAGE, SCAM_TYPES, DATE}
    ensures d[ID] == Int(s.message.id) && d[MESSAGE] == Int(s.message.id)
    ensures d[SCAM_TYPES] == StrList(ScamTypesToStr(s.scamTypes)) && d[DATE] == Int(now)
  {
    map[
      ID := Int(s.message.id),
      MESSAGE := Int(s.message.id),
      SCAM_TYPES := StrList(ScamTypesToStr(s.scamTypes)),
      DATE := Int(now)
    ]
  }
}
