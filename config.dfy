/** The two configuration records kept in the "config" collection: the keyword lists and the forbidden
    names. */
module Config {
  import opened Results
  import opened Bson
  import opened Text

  const COLLECTION := "config"
  const KEYWORDS_ID := 0
  const FORBIDDEN_NAMES_ID := 1

  const ID := "id"
  const FR := "fr"
  const EN := "en"
  const DE := "de"
  const NAMES := "names"

  /** Per-language keyword lists (French, English, German). */
  datatype Keywords = Keywords(fr: seq<string>, en: seq<string>, de: seq<string>)

  datatype ForbiddenNames = ForbiddenNames(names: seq<string>)

  datatype KeywordMatch = FrMatch | EnMatch | DeMatch | NoneMatch

  /** The language whose list first matches the upper-cased text, in the fixed order fr, en, de. */
  function TextMatch(kw: Keywords, text: string): (r: KeywordMatch)
    ensures r == FrMatch <==> Occurs(kw.fr, Upper(text))
    ensures r == EnMatch <==> !Occurs(kw.fr, Upper(text)) && Occurs(kw.en, Upper(text))
    ensures r == DeMatch <==>
      !Occurs(kw.fr, Upper(text)) && !Occurs(kw.en, Upper(text)) && Occurs(kw.de, Upper(text))
    ensures r == NoneMatch <==>
      !Occurs(kw.fr, Upper(text)) && !Occurs(kw.en, Upper(text)) && !Occurs(kw.de, Upper(text))
    ensures kw.fr == [] && kw.en == [] && kw.de == [] ==> r == NoneMatch
  {
    var t := Upper(text);
    AnyContainsOccurs(kw.fr, t);
    AnyContainsOccurs(kw.en, t);
    AnyContainsOccurs(kw.de, t);
    if AnyContains(kw.fr, t) then FrMatch
    else if AnyContains(kw.en, t) then EnMatch
    else if AnyContains(kw.de, t) then DeMatch
    else NoneMatch
  }

  /** `names.iter().any(|name| first.contains(name) || last.contains(name))` */
  function AnyNameIn(names: seq<string>, first: string, last: string): bool {
    names != [] && (Contains(first, names[0]) || Contains(last, names[0]) || AnyNameIn(names[1..], first, last))
  }

  /** Some stored name occurs in the upper-cased first name or in the upper-cased last name. */
  function NameMatch(fnames: ForbiddenNames, first: string, last: string): (r: bool)
    ensures r <==> Occurs(fnames.names, Upper(first)) || Occurs(fnames.names, Upper(last))
  {
    NameMatchOccurs(fnames.names, Upper(first), Upper(last));
    AnyNameIn(fnames.names, Upper(first), Upper(last))
  }

  lemma {:induction false} NameMatchOccurs(names: seq<string>, first: string, last: string)
    ensures AnyNameIn(names, first, last) <==> Occurs(names, first) || Occurs(names, last)
    decreases |names|
  {
    if names != [] {
      ContainsIsSubstring(first, names[0]);
      ContainsIsSubstring(last, names[0]);
      NameMatchOccurs(names[1..], first, last);
      forall t | Occurs(names[1..], t) ensures Occurs(names, t) {
        var i :| 0 <= i < |names| - 1 && IsSubstring(names[1..][i], t);
        assert IsSubstring(names[i + 1], t);
      }
      forall t | Occurs(names, t) && !IsSubstring(names[0], t) ensures Occurs(names[1..], t) {
        var i :| 0 <= i < |names| && IsSubstring(names[i], t);
        assert names[1..][i - 1] == names[i];
      }
    }
  }

  /** Every entry upper-cased, in order. */
  function UpperAll(list: seq<string>): seq<string> {
    seq(|list|, i requires 0 <= i < |list| => Upper(list[i]))
  }

  /** `Keywords::from_doc`: the three lists must be present (the source unwraps them); each entry is
      upper-cased. */
  function KeywordsFromDoc(d: Document): (r: Option<Keywords>)
    ensures r.Some? <==> AsStrList(d, FR).Some? && AsStrList(d, EN).Some? && AsStrList(d, DE).Some?
    ensures r.Some? ==> |r.value.fr| == |d[FR].items| && |r.value.en| == |d[EN].items| && |r.value.de| == |d[DE].items|
    ensures r.Some? ==> forall i :: 0 <= i < |r.value.fr| ==> r.value.fr[i] == Upper(d[FR].items[i])
    ensures r.Some? ==> forall i :: 0 <= i < |r.value.en| ==> r.value.en[i] == Upper(d[EN].items[i])
    ensures r.Some? ==> forall i :: 0 <= i < |r.value.de| ==> r.value.de[i] == Upper(d[DE].items[i])
  {
    match (AsStrList(d, FR), AsStrList(d, EN), AsStrList(d, DE))
    case (Some(fr), Some(en), Some(de)) => Some(Keywords(UpperAll(fr), UpperAll(en), UpperAll(de)))
    case _ => None
  }

  function KeywordsToDoc(kw: Keywords): Document {
    map[ID := Int(KEYWORDS_ID), FR := StrList(kw.fr), EN := StrList(kw.en), DE := StrList(kw.de)]
  }

  /** `ForbiddenNames::from_doc`: the name list must be present; each name is upper-cased. */
  function ForbiddenNamesFromDoc(d: Document): (r: Option<ForbiddenNames>)
    ensures r.Some? <==> AsStrList(d, NAMES).Some?
    ensures r.Some? ==> |r.value.names| == |d[NAMES].items|
    ensures r.Some? ==> forall i :: 0 <= i < |r.value.names| ==> r.value.names[i] == Upper(d[NAMES].items[i])
  {
    match AsStrList(d, NAMES)
    case Some(names) => Some(ForbiddenNames(UpperAll(names)))
    case None => None
  }

  function ForbiddenNamesToDoc(fnames: ForbiddenNames): Document {
    map[ID := Int(FORBIDDEN_NAMES_ID), NAMES := StrList(fnames.names)]
  }

  lemma UpperAllIdempotent(list: seq<string>)
    ensures UpperAll(UpperAll(list)) == UpperAll(list)
  {
    forall i | 0 <= i < |list| ensures Upper(Upper(list[i])) == Upper(list[i]) {
      UpperIdempotent(list[i]);
    }
  }

  /** Writing back the keywords read from a document and reading them again gives the same lists: the
      lists read are already upper-case. */
  lemma KeywordsReload(d: Document)
    requires KeywordsFromDoc(d).Some?
    ensures KeywordsFromDoc(KeywordsToDoc(KeywordsFromDoc(d).value)) == KeywordsFromDoc(d)
  {
    UpperAllIdempotent(d[FR].items);
    UpperAllIdempotent(d[EN].items);
    UpperAllIdempotent(d[DE].items);
  }

  /** The same for the forbidden names. */
  lemma ForbiddenNamesReload(d: Document)
    requires ForbiddenNamesFromDoc(d).Some?
    ensures ForbiddenNamesFromDoc(ForbiddenNamesToDoc(ForbiddenNamesFromDoc(d).value)) == ForbiddenNamesFromDoc(d)
  {
    UpperAllIdempotent(d[NAMES].items);
  }
}
