/** The option type for the possibly-null list of AI-inferred parts. */
module Wrappers {
  datatype Option<T> = None | Some(value: T)
}

/**
 * The static category policy of AvatarPartsHandler: six category sets, each iterated
 * in its declaration order. The values of the `Constants.Avatar*SubCategory` names are
 * not part of this model; the constants below stand for them as distinct lower-case
 * names.
 */
module Categories {
  const Body: string := "body"
  const Hair: string := "hair"
  const Eyebrow: string := "eyebrow"
  const Eye: string := "eye"

  const Inner: string := "inner"
  const Layered: string := "layered"
  const InnerOnepiece: string := "inneronepiece"
  const Outer: string := "outer"
  const Vest: string := "vest"
  const Glasses: string := "glasses"
  const HeadPiece: string := "headpiece"

  const Head: string := "head"
  const Ear: string := "ear"
  const Eyelash: string := "eyelash"
  const Tooth: string := "tooth"
  const Pants: string := "pants"
  const Skirt: string := "skirt"

  const Socks: string := "socks"
  const Shoes: string := "shoes"

  const Ring: string := "ring"
  const Necklace: string := "necklace"
  const Beard: string := "beard"
  const Mustach: string := "mustach"

  /** Parts taken from the AI analysis and always equipped. */
  const AIRequired: seq<string> := [Body, Hair, Eyebrow, Eye]
  /** Parts taken from the AI analysis whose equipping is drawn at random. */
  const AIOptional: seq<string> := [Inner, Layered, InnerOnepiece, Outer, Vest, Glasses, HeadPiece]
  /** Parts drawn from the catalog and always equipped when the catalog has one. */
  const RandomRequired: seq<string> := [Head, Ear, Eyelash, Tooth, Pants, Skirt]
  /** Parts drawn from the catalog whose equipping is drawn at random. */
  const RandomOptional: seq<string> := [Socks, Shoes]
  /** The bottom group: at most one of these is equipped. */
  const Bottom: seq<string> := [Pants, Skirt]
  /** Categories that no pass ever equips. */
  const Excluded: seq<string> := [Ring, Necklace, Beard, Mustach]

  predicate Distinct(s: seq<string>) {
    forall i, j :: 0 <= i < j < |s| ==> s[i] != s[j]
  }

  /** A category that one of the four selection passes visits. */
  predicate Managed(c: string) {
    c in AIRequired || c in AIOptional || c in RandomRequired || c in RandomOptional
  }

  /** `char.ToLower` on ASCII letters; every other character is kept. */
  function LowerChar(ch: char): (r: char)
    ensures 'A' <= ch <= 'Z' ==> 'a' <= r <= 'z' && r as int == ch as int - 'A' as int + 'a' as int
    ensures !('A' <= ch <= 'Z') ==> r == ch
  {
    if 'A' <= ch <= 'Z' then (ch as int - 'A' as int + 'a' as int) as char else ch
  }

  /** `string.ToLower`, character by character. */
  function Lower(s: string): (r: string)
    ensures |r| == |s|
    ensures forall i :: 0 <= i < |s| ==> r[i] == LowerChar(s[i])
  {
    seq(|s|, i requires 0 <= i < |s| => LowerChar(s[i]))
  }

  /** A name with no upper-case ASCII letter is its own lower-case form. */
  lemma LowerKeeps(s: string)
    requires forall i :: 0 <= i < |s| ==> !('A' <= s[i] <= 'Z')
    ensures Lower(s) == s
  {
  }

  /** Lower-casing twice is lower-casing once. */
  lemma LowerIdempotent(s: string)
    ensures Lower(Lower(s)) == Lower(s)
  {
  }

  /** `s` and `t` spell the same name, each position up to ASCII case. */
  predicate SameUpToCase(s: string, t: string) {
    |s| == |t| &&
    forall i :: 0 <= i < |s| ==>
      s[i] == t[i] ||
      ('A' <= s[i] <= 'Z' && t[i] as int == s[i] as int - 'A' as int + 'a' as int) ||
      ('A' <= t[i] <= 'Z' && s[i] as int == t[i] as int - 'A' as int + 'a' as int)
  }

  /** Two names lower-case to the same name exactly when they differ only in ASCII case. */
  lemma LowerEqualIffSameUpToCase(s: string, t: string)
    ensures Lower(s) == Lower(t) <==> SameUpToCase(s, t)
  {
    if Lower(s) == Lower(t) {
      forall i | 0 <= i < |s|
        ensures s[i] == t[i] ||
                ('A' <= s[i] <= 'Z' && t[i] as int == s[i] as int - 'A' as int + 'a' as int) ||
                ('A' <= t[i] <= 'Z' && s[i] as int == t[i] as int - 'A' as int + 'a' as int)
      {
        assert Lower(s)[i] == Lower(t)[i];
      }
    }
    if SameUpToCase(s, t) {
      assert forall i :: 0 <= i < |s| ==> Lower(s)[i] == Lower(t)[i];
    }
  }

  /** Each set lists each category once, and the bottom group lies inside the random-required set. */
  lemma PolicyShape()
    ensures Distinct(AIRequired) && Distinct(AIOptional) && Distinct(RandomRequired) && Distinct(RandomOptional)
    ensures forall c :: c in Bottom <==> c == Pants || c == Skirt
    ensures forall c :: c in Bottom ==> c in RandomRequired
    ensures Head !in Bottom && Hair != Body && Pants != Skirt
  {
  }

  /** The five policy classes share no category. */
  lemma PolicyClassesDisjoint(c: string)
    ensures c in AIRequired ==> c !in AIOptional && c !in RandomRequired && c !in RandomOptional && c !in Excluded
    ensures c in AIOptional ==> c !in RandomRequired && c !in RandomOptional && c !in Excluded
    ensures c in RandomRequired ==> c !in RandomOptional && c !in Excluded
    ensures c in RandomOptional ==> c !in Excluded
    ensures c in Excluded ==> !Managed(c)
  {
  }
}
