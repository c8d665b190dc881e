/**
 * Avatar parts (`ChildPart`) and the category filters the selection applies to part lists
 * (the LINQ `Where(p => p.SubCategory.ToLower() ...)` queries).
 */
module Parts {
  import opened Categories

  /**
   * A part: its sub-category as the service spells it, its colour string, and `id`,
   * which stands for every field the selection passes through untouched.
   */
  datatype Part = Part(subCategory: string, color: string, id: nat)

  /** The lower-cased category a part is sorted by. */
  function Cat(p: Part): string {
    Lower(p.subCategory)
  }

  /** The parts of `parts` whose category is one of `cats`, in their original order. */
  function Matching(parts: seq<Part>, cats: seq<string>): (r: seq<Part>)
    ensures |r| <= |parts|
    ensures forall q :: q in r <==> q in parts && Cat(q) in cats
  {
    if parts == [] then []
    else (if Cat(parts[0]) in cats then [parts[0]] else []) + Matching(parts[1..], cats)
  }

  /** How many parts of `parts` have a category among `cats`. */
  function Count(parts: seq<Part>, cats: seq<string>): nat {
    |Matching(parts, cats)|
  }

  /** `parts` holds at least one part of category `c`. */
  predicate Offers(parts: seq<Part>, c: string) {
    exists q :: q in parts && Cat(q) == c
  }

  /** Filtering a concatenation filters each half. */
  lemma {:induction false} MatchingAppend(a: seq<Part>, b: seq<Part>, cats: seq<string>)
    ensures Matching(a + b, cats) == Matching(a, cats) + Matching(b, cats)
  {
    if a == [] {
      assert a + b == b;
    } else {
      assert (a + b)[1..] == a[1..] + b;
      MatchingAppend(a[1..], b, cats);
    }
  }

  lemma CountAppend(a: seq<Part>, b: seq<Part>, cats: seq<string>)
    ensures Count(a + b, cats) == Count(a, cats) + Count(b, cats)
  {
    MatchingAppend(a, b, cats);
  }

  lemma CountSingle(q: Part, cats: seq<string>)
    ensures Count([q], cats) == if Cat(q) in cats then 1 else 0
  {
    assert [q][1..] == [];
  }

  /** A list none of whose parts has a category in `cats` counts zero. */
  lemma {:induction false} CountNone(s: seq<Part>, cats: seq<string>)
    requires forall q :: q in s ==> Cat(q) !in cats
    ensures Count(s, cats) == 0
  {
    if s != [] {
      assert s[0] in s;
      CountNone(s[1..], cats);
    }
  }

  /** A category has candidates exactly when its filter is non-empty. */
  lemma OffersMatching(parts: seq<Part>, c: string)
    ensures Offers(parts, c) <==> |Matching(parts, [c])| > 0
  {
    var m := Matching(parts, [c]);
    if |m| > 0 {
      assert m[0] in m;
    }
    if Offers(parts, c) {
      var q :| q in parts && Cat(q) == c;
      assert q in m;
    }
  }

  /** The sorting ignores ASCII case: a part belongs to a lower-case category however its name is cased. */
  lemma CategoryIgnoresCase(p: Part, c: string)
    requires forall i :: 0 <= i < |c| ==> !('A' <= c[i] <= 'Z')
    ensures Cat(p) == c <==> SameUpToCase(p.subCategory, c)
  {
    LowerKeeps(c);
    LowerEqualIffSameUpToCase(p.subCategory, c);
  }
}
