/** The string operations the classifier relies on: upper-casing, accent folding and substring search.
    `to_uppercase` and `unidecode` are library functions; they are approximated here (see README). */
module Text {

  /** Upper-casing of one character, ASCII letters only. */
  function UpperChar(c: char): char {
    if 'a' <= c <= 'z' then (c as int - 32) as char else c
  }

  /** `str::to_uppercase`, ASCII-only. */
  function Upper(s: string): string {
    seq(|s|, i requires 0 <= i < |s| => UpperChar(s[i]))
  }

  /** Upper-casing twice is upper-casing once. */
  lemma UpperIdempotent(s: string)
    ensures Upper(Upper(s)) == Upper(s)
  {
    assert forall i :: 0 <= i < |s| ==> UpperChar(UpperChar(s[i])) == UpperChar(s[i]);
  }

  /** Accent folding of one character: every Latin-1 letter that transliterates to a single letter
      (the accented letters, the ordinal indicators and the micro sign) maps to that letter; every other
      character is kept. */
  function FoldChar(c: char): (r: char)
    ensures c < '\U{80}' ==> r == c
    ensures r != c ==> 'a' <= r <= 'z' || 'A' <= r <= 'Z'
  {
    if c in "\U{e0}\U{e1}\U{e2}\U{e3}\U{e4}\U{e5}\U{aa}" then 'a'
    else if c in "\U{c0}\U{c1}\U{c2}\U{c3}\U{c4}\U{c5}" then 'A'
    else if c == '\U{e7}' then 'c'
    else if c == '\U{c7}' then 'C'
    else if c in "\U{e8}\U{e9}\U{ea}\U{eb}" then 'e'
    else if c in "\U{c8}\U{c9}\U{ca}\U{cb}" then 'E'
    else if c in "\U{ec}\U{ed}\U{ee}\U{ef}" then 'i'
    else if c in "\U{cc}\U{cd}\U{ce}\U{cf}" then 'I'
    else if c == '\U{f1}' then 'n'
    else if c == '\U{d1}' then 'N'
    else if c in "\U{f2}\U{f3}\U{f4}\U{f5}\U{f6}\U{f8}\U{ba}" then 'o'
    else if c in "\U{d2}\U{d3}\U{d4}\U{d5}\U{d6}\U{d8}" then 'O'
    else if c in "\U{f9}\U{fa}\U{fb}\U{fc}\U{b5}" then 'u'
    else if c in "\U{d9}\U{da}\U{db}\U{dc}" then 'U'
    else if c in "\U{fd}\U{ff}" then 'y'
    else if c == '\U{dd}' then 'Y'
    else if c == '\U{f0}' then 'd'
    else if c == '\U{d0}' then 'D'
    else c
  }

  /** `unidecode`, restricted to the Latin-1 letters that transliterate to a single letter. */
  function Unidecode(s: string): string {
    seq(|s|, i requires 0 <= i < |s| => FoldChar(s[i]))
  }

  /** Folding twice is folding once: a folded letter has no accent left to fold. */
  lemma UnidecodeIdempotent(s: string)
    ensures Unidecode(Unidecode(s)) == Unidecode(s)
  {
    forall i | 0 <= i < |s|
      ensures FoldChar(FoldChar(s[i])) == FoldChar(s[i])
    {
    }
  }

  /** Accent folding leaves ASCII text as it is. */
  lemma AsciiUnfolded(s: string)
    requires forall i :: 0 <= i < |s| ==> s[i] < '\U{80}'
    ensures Unidecode(s) == s
  {
  }

  /** The acute e folds to a plain e. */
  lemma FoldsToE()
    ensures FoldChar('\U{e9}') == 'e'
  {
  }

  /** `key` occurs in `text` at position `i`. */
  ghost predicate OccursAt(key: string, text: string, i: int) {
    0 <= i <= |text| - |key| && text[i..i + |key|] == key
  }

  /** `key` occurs in `text` at some position. */
  ghost predicate IsSubstring(key: string, text: string) {
    exists i :: OccursAt(key, text, i)
  }

  /** Some element of `keys` occurs in `text`. */
  ghost predicate Occurs(keys: seq<string>, text: string) {
    exists i :: 0 <= i < |keys| && IsSubstring(keys[i], text)
  }

  /** `text.contains(key)`: a search from each position in turn. */
  function Contains(text: string, key: string): bool {
    key <= text || (text != [] && Contains(text[1..], key))
  }

  /** `keys.iter().any(|key| text.contains(key))` */
  function AnyContains(keys: seq<string>, text: string): bool {
    keys != [] && (Contains(text, keys[0]) || AnyContains(keys[1..], text))
  }

  /** The search finds `key` exactly when it occurs in `text`. */
  lemma {:induction false} ContainsIsSubstring(text: string, key: string)
    ensures Contains(text, key) <==> IsSubstring(key, text)
    decreases |text|
  {
    if key <= text {
      assert OccursAt(key, text, 0);
    } else if text == [] {
    } else {
      ContainsIsSubstring(text[1..], key);
      if IsSubstring(key, text) {
        var i :| OccursAt(key, text, i);
        assert i != 0;
        assert text[1..][i - 1..i - 1 + |key|] == key;
        assert OccursAt(key, text[1..], i - 1);
      }
      if IsSubstring(key, text[1..]) {
        var j :| OccursAt(key, text[1..], j);
        assert text[j + 1..j + 1 + |key|] == key;
        assert OccursAt(key, text, j + 1);
      }
    }
  }

  /** `AnyContains` is true exactly when some key occurs in `text`. */
  lemma {:induction false} AnyContainsOccurs(keys: seq<string>, text: string)
    ensures AnyContains(keys, text) <==> Occurs(keys, text)
    decreases |keys|
  {
    if keys != [] {
      ContainsIsSubstring(text, keys[0]);
      AnyContainsOccurs(keys[1..], text);
      if Occurs(keys[1..], text) {
        var i :| 0 <= i < |keys| - 1 && IsSubstring(keys[1..][i], text);
        assert IsSubstring(keys[i + 1], text);
      }
      if Occurs(keys, text) && !IsSubstring(keys[0], text) {
        var i :| 0 <= i < |keys| && IsSubstring(keys[i], text);
        assert keys[1..][i - 1] == keys[i];
      }
    }
  }
}
