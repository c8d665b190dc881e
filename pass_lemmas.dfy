/**
 * What one pass does to the selection state, for any list of distinct categories:
 * which parts it appends, how many of each category, and which categories it marks.
 */
module PassLemmas {
  import opened Categories
  import opened Parts
  import opened PartsHandler

  /** `r` keeps the parts of `st` as a prefix. */
  predicate Extends(st: Selection, r: Selection) {
    |st.parts| <= |r.parts| && r.parts[..|st.parts|] == st.parts
  }

  /** The parts a pass appended on its way from `st` to `r`. */
  function NewParts(st: Selection, r: Selection): seq<Part> {
    if |st.parts| <= |r.parts| then r.parts[|st.parts|..] else []
  }

  /** Every draw on the tape is 0, so every `Random.Range(0, max)` returns 0. */
  predicate ZeroDraws(tape: seq<nat>) {
    forall k :: 0 <= k < |tape| ==> tape[k] == 0
  }

  /** Some bottom category among `categories` has catalog candidates. */
  predicate BottomOffered(categories: seq<string>, catalog: seq<Part>) {
    exists c :: c in categories && c in Bottom && Offers(catalog, c)
  }

  /** `q` is a catalog part; a head part is a catalog head part recoloured with `bodyColor`. */
  predicate FromCatalog(q: Part, catalog: seq<Part>, bodyColor: string) {
    (Cat(q) != Head ==> q in catalog) &&
    (Cat(q) == Head ==> exists p :: p in catalog && q == p.(color := bodyColor))
  }

  /** The parts appended between `st` and `r` are candidates from `pool` of the pass's categories. */
  ghost predicate AppendsFrom(categories: seq<string>, pool: seq<Part>, st: Selection, r: Selection) {
    Extends(st, r) &&
    forall q :: q in NewParts(st, r) ==> q in pool && Cat(q) in categories
  }

  /** Exactly one part was appended for each category of the pass that has candidates, none for the rest. */
  ghost predicate OnePerOffered(categories: seq<string>, pool: seq<Part>, st: Selection, r: Selection) {
    Extends(st, r) &&
    forall c :: c in categories ==> Count(NewParts(st, r), [c]) == if Offers(pool, c) then 1 else 0
  }

  /** The categories marked by the pass are exactly its categories that have candidates. */
  ghost predicate MarksOffered(categories: seq<string>, pool: seq<Part>, st: Selection, r: Selection) {
    forall c :: c in r.processed <==> c in st.processed || (c in categories && Offers(pool, c))
  }

  /** When every draw is 0, the first candidate of each category with candidates was appended. */
  ghost predicate FirstOnZeroDraws(categories: seq<string>, pool: seq<Part>, tape: seq<nat>, st: Selection, r: Selection) {
    Extends(st, r) &&
    (ZeroDraws(tape) ==>
       forall c :: c in categories && |Matching(pool, [c])| > 0 ==> Matching(pool, [c])[0] in NewParts(st, r))
  }

  /** What an optional pass over `categories` with candidates from `pool` did between `st` and `r`. */
  ghost predicate OptionalEffect(categories: seq<string>, pool: seq<Part>, tape: seq<nat>, st: Selection, r: Selection) {
    AppendsFrom(categories, pool, st, r) &&
    OnePerOffered(categories, pool, st, r) &&
    MarksOffered(categories, pool, st, r) &&
    FirstOnZeroDraws(categories, pool, tape, st, r)
  }

  /** The parts appended by the random-required pass come from the catalog (a head recoloured). */
  ghost predicate RequiredAppendsFrom(categories: seq<string>, catalog: seq<Part>, bodyColor: string, st: Selection, r: Selection) {
    Extends(st, r) &&
    forall q :: q in NewParts(st, r) ==>
      (Cat(q) in categories || Cat(q) in Bottom) && FromCatalog(q, catalog, bodyColor)
  }

  /** One part per non-bottom category of the pass that has catalog candidates, none for the rest. */
  ghost predicate RequiredOnePerOffered(categories: seq<string>, catalog: seq<Part>, st: Selection, r: Selection) {
    Extends(st, r) &&
    forall c :: c in categories && c !in Bottom ==>
      Count(NewParts(st, r), [c]) == if Offers(catalog, c) then 1 else 0
  }

  /** One bottom part when some bottom category of the pass has candidates, none otherwise. */
  ghost predicate BottomOnce(categories: seq<string>, catalog: seq<Part>, st: Selection, r: Selection) {
    Extends(st, r) &&
    Count(NewParts(st, r), Bottom) == if BottomOffered(categories, catalog) then 1 else 0
  }

  /** The marked categories: non-bottom ones with candidates, and both bottom ones once the group is drawn. */
  ghost predicate RequiredMarks(categories: seq<string>, catalog: seq<Part>, st: Selection, r: Selection) {
    forall c :: c in r.processed <==>
      c in st.processed || (c in categories && c !in Bottom && Offers(catalog, c)) ||
      (c in Bottom && BottomOffered(categories, catalog))
  }

  /** What the random-required pass over `categories` did between `st` and `r`. */
  ghost predicate RequiredEffect(categories: seq<string>, catalog: seq<Part>, bodyColor: string, st: Selection, r: Selection) {
    RequiredAppendsFrom(categories, catalog, bodyColor, st, r) &&
    RequiredOnePerOffered(categories, catalog, st, r) &&
    BottomOnce(categories, catalog, st, r) &&
    RequiredMarks(categories, catalog, st, r)
  }

  lemma DistinctPrefix(s: seq<string>)
    requires Distinct(s) && s != []
    ensures Distinct(s[..|s| - 1]) && s[|s| - 1] !in s[..|s| - 1]
    ensures s == s[..|s| - 1] + [s[|s| - 1]]
  {
  }

  lemma AppendOne(st: Selection, m: Selection, x: Part, r: Selection)
    requires Extends(st, m) && r.parts == m.parts + [x]
    ensures Extends(st, r) && NewParts(st, r) == NewParts(st, m) + [x]
  {
    assert (m.parts + [x])[..|st.parts|] == m.parts[..|st.parts|];
  }

  /** Appending `x` adds one to the count of its category and leaves every other count alone. */
  lemma CountsAfterAppend(a: seq<Part>, x: Part)
    ensures forall c :: Count(a + [x], [c]) == Count(a, [c]) + (if Cat(x) == c then 1 else 0)
    ensures Count(a + [x], Bottom) == Count(a, Bottom) + (if Cat(x) in Bottom then 1 else 0)
  {
    forall c ensures Count(a + [x], [c]) == Count(a, [c]) + (if Cat(x) == c then 1 else 0) {
      CountAppend(a, [x], [c]);
      CountSingle(x, [c]);
    }
    CountAppend(a, [x], Bottom);
    CountSingle(x, Bottom);
  }

  lemma RandomRangeOfZero(tape: seq<nat>, call: nat, max: nat)
    requires 0 < max && ZeroDraws(tape)
    ensures RandomRange(tape, call, max) == 0
  {
    if call < |tape| {
      assert tape[call] == 0;
    }
  }

  // ---------------------------------------------------------------------------------
  // Optional passes.

  /** A category without candidates leaves an optional pass's effect as it was. */
  lemma OptionalSkip(categories: seq<string>, pool: seq<Part>, tape: seq<nat>, st: Selection, m: Selection, c: string)
    requires OptionalEffect(categories, pool, tape, st, m)
    requires c !in categories && !Offers(pool, c)
    ensures OptionalEffect(categories + [c], pool, tape, st, m)
  {
    var a := NewParts(st, m);
    assert forall q :: q in a ==> Cat(q) !in [c];
    CountNone(a, [c]);
    OffersMatching(pool, c);
  }

  /** Appending a candidate `x` of category `c` keeps one part per category with candidates. */
  lemma OptionalTakeCounts(categories: seq<string>, pool: seq<Part>, st: Selection, m: Selection, c: string, x: Part, r: Selection)
    requires OnePerOffered(categories, pool, st, m) && AppendsFrom(categories, pool, st, m)
    requires c !in categories && x in pool && Cat(x) == c
    requires Extends(st, r) && NewParts(st, r) == NewParts(st, m) + [x]
    ensures OnePerOffered(categories + [c], pool, st, r)
  {
    var a := NewParts(st, m);
    assert Offers(pool, c);
    assert forall q :: q in a ==> Cat(q) !in [c];
    CountNone(a, [c]);
    CountsAfterAppend(a, x);
  }

  /** Appending a candidate `x` of category `c` and marking `c` extends an optional pass's effect. */
  lemma OptionalTake(categories: seq<string>, pool: seq<Part>, tape: seq<nat>, st: Selection, m: Selection, c: string, x: Part, r: Selection)
    requires OptionalEffect(categories, pool, tape, st, m)
    requires c !in categories
    requires x in pool && Cat(x) == c
    requires ZeroDraws(tape) ==> |Matching(pool, [c])| > 0 && x == Matching(pool, [c])[0]
    requires r.parts == m.parts + [x] && r.processed == m.processed + {c}
    ensures OptionalEffect(categories + [c], pool, tape, st, r)
  {
    var cats' := categories + [c];
    AppendOne(st, m, x, r);
    assert AppendsFrom(cats', pool, st, r);
    OptionalTakeCounts(categories, pool, st, m, c, x, r);
    assert MarksOffered(cats', pool, st, r) by {
      assert Offers(pool, c);
    }
    assert FirstOnZeroDraws(cats', pool, tape, st, r);
  }

  /** One step of an optional pass extends the effect by one category. */
  lemma OptionalStepEffect(categories: seq<string>, pool: seq<Part>, tape: seq<nat>, st: Selection, m: Selection, c: string)
    requires OptionalEffect(categories, pool, tape, st, m)
    requires c !in categories && c !in st.processed
    ensures OptionalEffect(categories + [c], pool, tape, st, OptionalStep(pool, tape, m, c))
  {
    assert c !in m.processed;
    OffersMatching(pool, c);
    var categoryParts := Matching(pool, [c]);
    if |categoryParts| == 0 {
      OptionalSkip(categories, pool, tape, st, m, c);
    } else {
      var index := RandomRange(tape, m.calls, |categoryParts|);
      var x := categoryParts[index];
      assert x in categoryParts;
      if ZeroDraws(tape) {
        RandomRangeOfZero(tape, m.calls, |categoryParts|);
      }
      OptionalTake(categories, pool, tape, st, m, c, x, OptionalStep(pool, tape, m, c));
    }
  }

  /** The effect of a whole optional pass over distinct, not yet processed categories. */
  lemma {:induction false} OptionalPassEffect(categories: seq<string>, pool: seq<Part>, tape: seq<nat>, st: Selection)
    requires Distinct(categories)
    requires forall c :: c in categories ==> c !in st.processed
    ensures OptionalEffect(categories, pool, tape, st, OptionalPass(categories, pool, tape, st))
  {
    if categories == [] {
      assert NewParts(st, st) == [];
    } else {
      var cs := categories[..|categories| - 1];
      DistinctPrefix(categories);
      OptionalPassEffect(cs, pool, tape, st);
      OptionalStepEffect(cs, pool, tape, st, OptionalPass(cs, pool, tape, st), categories[|categories| - 1]);
    }
  }

  // ---------------------------------------------------------------------------------
  // The random-required pass.

  /** A bottom category with candidates makes the combined bottom pool non-empty. */
  lemma BottomPoolNonEmpty(catalog: seq<Part>, c: string)
    requires c in Bottom && Offers(catalog, c)
    ensures |Matching(catalog, Bottom)| > 0
  {
    var q :| q in catalog && Cat(q) == c;
    assert q in Matching(catalog, Bottom);
  }

  /** A category the step leaves alone: already marked through the bottom group, or without candidates. */
  lemma RequiredSkip(categories: seq<string>, catalog: seq<Part>, bodyColor: string, st: Selection, m: Selection, c: string)
    requires RequiredEffect(categories, catalog, bodyColor, st, m)
    requires c !in categories
    requires (c in Bottom && BottomOffered(categories, catalog)) || !Offers(catalog, c)
    ensures RequiredEffect(categories + [c], catalog, bodyColor, st, m)
  {
    PolicyShape();
    var cats' := categories + [c];
    var a := NewParts(st, m);
    assert BottomOffered(cats', catalog) == BottomOffered(categories, catalog);
    assert RequiredOnePerOffered(cats', catalog, st, m) by {
      if c !in Bottom {
        assert forall q :: q in a ==> Cat(q) !in [c];
        CountNone(a, [c]);
      }
    }
    assert RequiredMarks(cats', catalog, st, m);
  }

  /** Appending a bottom part `x` adds one to the bottom count and leaves non-bottom counts alone. */
  lemma RequiredTakeBottomCounts(categories: seq<string>, catalog: seq<Part>, st: Selection, m: Selection,
                                 c: string, x: Part, r: Selection)
    requires RequiredOnePerOffered(categories, catalog, st, m) && BottomOnce(categories, catalog, st, m)
    requires c in Bottom && Offers(catalog, c) && !BottomOffered(categories, catalog)
    requires Cat(x) in Bottom
    requires Extends(st, r) && NewParts(st, r) == NewParts(st, m) + [x]
    ensures RequiredOnePerOffered(categories + [c], catalog, st, r)
    ensures BottomOnce(categories + [c], catalog, st, r)
  {
    PolicyShape();
    assert BottomOffered(categories + [c], catalog);
    CountsAfterAppend(NewParts(st, m), x);
  }

  /** The first bottom category with candidates appends one part of the combined bottom pool. */
  lemma RequiredTakeBottom(categories: seq<string>, catalog: seq<Part>, bodyColor: string, st: Selection, m: Selection,
                           c: string, x: Part, r: Selection)
    requires RequiredEffect(categories, catalog, bodyColor, st, m)
    requires c !in categories && c in Bottom && Offers(catalog, c) && !BottomOffered(categories, catalog)
    requires x in Matching(catalog, Bottom)
    requires r.parts == m.parts + [x] && r.processed == m.processed + {Pants, Skirt}
    ensures RequiredEffect(categories + [c], catalog, bodyColor, st, r)
  {
    PolicyShape();
    var cats' := categories + [c];
    assert BottomOffered(cats', catalog);
    AppendOne(st, m, x, r);
    assert RequiredAppendsFrom(cats', catalog, bodyColor, st, r);
    RequiredTakeBottomCounts(categories, catalog, st, m, c, x, r);
    assert RequiredMarks(cats', catalog, st, r);
  }

  /** Appending a part `x` of the non-bottom category `c` counts one for `c` and nothing else. */
  lemma RequiredTakeOneCounts(categories: seq<string>, catalog: seq<Part>, bodyColor: string, st: Selection, m: Selection,
                              c: string, x: Part, r: Selection)
    requires RequiredOnePerOffered(categories, catalog, st, m) && BottomOnce(categories, catalog, st, m)
    requires RequiredAppendsFrom(categories, catalog, bodyColor, st, m)
    requires c !in categories && c !in Bottom && Offers(catalog, c) && Cat(x) == c
    requires Extends(st, r) && NewParts(st, r) == NewParts(st, m) + [x]
    ensures RequiredOnePerOffered(categories + [c], catalog, st, r)
    ensures BottomOnce(categories + [c], catalog, st, r)
  {
    var a := NewParts(st, m);
    var cats' := categories + [c];
    CountsAfterAppend(a, x);
    assert BottomOnce(cats', catalog, st, r) by {
      assert BottomOffered(cats', catalog) == BottomOffered(categories, catalog);
    }
    forall d | d in cats' && d !in Bottom
      ensures Count(NewParts(st, r), [d]) == if Offers(catalog, d) then 1 else 0
    {
      CountAppend(a, [x], [d]);
      CountSingle(x, [d]);
      if d == c {
        assert forall q :: q in a ==> Cat(q) !in [c];
        CountNone(a, [c]);
        assert Count(a + [x], [d]) == 1;
      } else {
        assert d in categories;
        assert Count(a + [x], [d]) == Count(a, [d]);
      }
    }
  }

  /** A non-bottom category with candidates appends its drawn catalog part. */
  lemma RequiredTakeOne(categories: seq<string>, catalog: seq<Part>, bodyColor: string, st: Selection, m: Selection,
                        c: string, x: Part, r: Selection)
    requires RequiredEffect(categories, catalog, bodyColor, st, m)
    requires c !in categories && c !in Bottom && Offers(catalog, c)
    requires Cat(x) == c && FromCatalog(x, catalog, bodyColor)
    requires r.parts == m.parts + [x] && r.processed == m.processed + {c}
    ensures RequiredEffect(categories + [c], catalog, bodyColor, st, r)
  {
    var cats' := categories + [c];
    assert BottomOffered(cats', catalog) == BottomOffered(categories, catalog);
    AppendOne(st, m, x, r);
    assert RequiredAppendsFrom(cats', catalog, bodyColor, st, r);
    RequiredTakeOneCounts(categories, catalog, bodyColor, st, m, c, x, r);
    assert RequiredMarks(cats', catalog, st, r);
  }

  /** One step of the random-required pass extends the effect by one category. */
  lemma RequiredStepEffect(categories: seq<string>, catalog: seq<Part>, bodyColor: string, tape: seq<nat>,
                           st: Selection, m: Selection, c: string)
    requires RequiredEffect(categories, catalog, bodyColor, st, m)
    requires c !in categories && c !in st.processed
    requires Pants !in st.processed && Skirt !in st.processed
    ensures RequiredEffect(categories + [c], catalog, bodyColor, st, RequiredStep(catalog, bodyColor, tape, m, c))
  {
    PolicyShape();
    OffersMatching(catalog, c);
    var categoryParts := Matching(catalog, [c]);
    if c in m.processed {
      RequiredSkip(categories, catalog, bodyColor, st, m, c);
    } else if |categoryParts| == 0 {
      RequiredSkip(categories, catalog, bodyColor, st, m, c);
    } else if c in Bottom {
      var bottomParts := Matching(catalog, Bottom);
      BottomPoolNonEmpty(catalog, c);
      var x := bottomParts[RandomRange(tape, m.calls + 1, |bottomParts|)];
      assert x in bottomParts;
      RequiredTakeBottom(categories, catalog, bodyColor, st, m, c, x, RequiredStep(catalog, bodyColor, tape, m, c));
    } else {
      var randomIndex := RandomRange(tape, m.calls, |categoryParts|);
      var p := categoryParts[randomIndex];
      assert p in categoryParts;
      var x := if c == Head then p.(color := bodyColor) else p;
      assert Cat(x) == c && FromCatalog(x, catalog, bodyColor);
      RequiredTakeOne(categories, catalog, bodyColor, st, m, c, x, RequiredStep(catalog, bodyColor, tape, m, c));
    }
  }

  /** The effect of the whole random-required pass over distinct, not yet processed categories. */
  lemma {:induction false} RequiredPassEffect(categories: seq<string>, catalog: seq<Part>, bodyColor: string,
                                              tape: seq<nat>, st: Selection)
    requires Distinct(categories)
    requires forall c :: c in categories ==> c !in st.processed
    requires Pants !in st.processed && Skirt !in st.processed
    ensures RequiredEffect(categories, catalog, bodyColor, st, RequiredPass(categories, catalog, bodyColor, tape, st))
  {
    if categories == [] {
      assert NewParts(st, st) == [];
      CountNone([], Bottom);
    } else {
      var cs := categories[..|categories| - 1];
      DistinctPrefix(categories);
      RequiredPassEffect(cs, catalog, bodyColor, tape, st);
      RequiredStepEffect(cs, catalog, bodyColor, tape, st, RequiredPass(cs, catalog, bodyColor, tape, st),
                         categories[|categories| - 1]);
    }
  }
}
