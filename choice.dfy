/**
 * What the draws decide. A step appends the candidate at the drawn index, so every
 * candidate of a category can be the one equipped, the bottom part included: a skirt can
 * win while pants is being handled. The passes before a category read only the draws
 * before its own, so a tape of zeros followed by the wanted index reaches any candidate
 * of the returned list.
 */
module DrawChoice {
  import opened Wrappers
  import opened Categories
  import opened Parts
  import opened PartsHandler
  import opened PassLemmas
  import SelectionProperties

  /** `n` draws of 0. */
  function Zeros(n: nat): (r: seq<nat>)
    ensures |r| == n
    ensures forall k :: 0 <= k < n ==> r[k] == 0
  {
    seq(n, k => 0)
  }

  /** Every draw before the `n`-th is 0. */
  predicate ZeroBelow(tape: seq<nat>, n: nat) {
    forall k :: 0 <= k < n && k < |tape| ==> tape[k] == 0
  }

  /** From `st` to `r` parts were only appended, draws only used and categories only marked. */
  predicate Grows(st: Selection, r: Selection) {
    Extends(st, r) && st.calls <= r.calls && st.processed <= r.processed
  }

  lemma GrowsTrans(a: Selection, b: Selection, c: Selection)
    requires Grows(a, b) && Grows(b, c)
    ensures Grows(a, c)
  {
    assert c.parts[..|a.parts|] == c.parts[..|b.parts|][..|a.parts|];
  }

  /** A part of a state is still there in every state that extends it. */
  lemma KeptByGrowth(q: Part, st: Selection, r: Selection)
    requires Grows(st, r) && q in st.parts
    ensures q in r.parts
  {
    var i :| 0 <= i < |st.parts| && st.parts[i] == q;
    assert r.parts[..|st.parts|][i] == q;
  }

  /** A draw the tape holds as an in-range index returns that index. */
  lemma DrawIsIndex(tape: seq<nat>, call: nat, max: nat, i: nat)
    requires i < max && call < |tape| && tape[call] == i
    ensures RandomRange(tape, call, max) == i
  {
  }

  /** A draw before the `n`-th of a tape zero below `n` returns what the empty tape returns. */
  lemma DrawBelow(tape: seq<nat>, n: nat, call: nat, max: nat)
    requires ZeroBelow(tape, n) && call < n && 0 < max
    ensures RandomRange(tape, call, max) == RandomRange([], call, max) == 0
  {
    if call < |tape| {
      assert tape[call] == 0;
    }
  }

  lemma DistinctSlice(s: seq<string>, j: nat)
    requires Distinct(s) && j < |s|
    ensures Distinct(s[..j]) && s[j] !in s[..j]
    ensures s[..j + 1][..j] == s[..j] && s[..j + 1][j] == s[j]
  {
  }

  // ---------------------------------------------------------------------------------
  // One step: the draw picks the candidate.

  /** An optional step on an unmarked category appends the candidate at the drawn index. */
  lemma OptionalStepTakesDrawn(pool: seq<Part>, tape: seq<nat>, st: Selection, c: string, i: nat)
    requires c !in st.processed
    requires i < |Matching(pool, [c])|
    requires st.calls < |tape| && tape[st.calls] == i
    ensures OptionalStep(pool, tape, st, c) ==
      Selection(st.parts + [Matching(pool, [c])[i]], st.processed + {c}, st.calls + 1)
  {
    DrawIsIndex(tape, st.calls, |Matching(pool, [c])|, i);
  }

  /** A non-bottom step of pass 3 appends the catalog part at the drawn index, a head recoloured. */
  lemma RequiredStepTakesDrawn(catalog: seq<Part>, bodyColor: string, tape: seq<nat>, st: Selection, c: string, i: nat)
    requires c !in st.processed && c !in Bottom
    requires i < |Matching(catalog, [c])|
    requires st.calls < |tape| && tape[st.calls] == i
    ensures var p := Matching(catalog, [c])[i];
      RequiredStep(catalog, bodyColor, tape, st, c) ==
      Selection(st.parts + [if c == Head then p.(color := bodyColor) else p], st.processed + {c}, st.calls + 1)
  {
    DrawIsIndex(tape, st.calls, |Matching(catalog, [c])|, i);
  }

  /**
   * A bottom step with candidates appends the part of the combined pants-and-skirt pool at
   * the second draw's index, whichever bottom category the step is for, and marks both.
   */
  lemma RequiredStepTakesBottom(catalog: seq<Part>, bodyColor: string, tape: seq<nat>, st: Selection, c: string, i: nat)
    requires c !in st.processed && c in Bottom && |Matching(catalog, [c])| > 0
    requires i < |Matching(catalog, Bottom)|
    requires st.calls + 1 < |tape| && tape[st.calls + 1] == i
    ensures RequiredStep(catalog, bodyColor, tape, st, c) ==
      Selection(st.parts + [Matching(catalog, Bottom)[i]], st.processed + {Pants, Skirt}, st.calls + 2)
  {
    DrawIsIndex(tape, st.calls + 1, |Matching(catalog, Bottom)|, i);
  }

  // ---------------------------------------------------------------------------------
  // Passes only grow the state, and read only the draws they use.

  lemma OptionalStepGrows(pool: seq<Part>, tape: seq<nat>, st: Selection, c: string)
    ensures Grows(st, OptionalStep(pool, tape, st, c))
    ensures OptionalStep(pool, tape, st, c).calls <= st.calls + 1
  {
    var r := OptionalStep(pool, tape, st, c);
    assert r.parts[..|st.parts|] == st.parts;
  }

  lemma RequiredStepGrows(catalog: seq<Part>, bodyColor: string, tape: seq<nat>, st: Selection, c: string)
    ensures Grows(st, RequiredStep(catalog, bodyColor, tape, st, c))
    ensures RequiredStep(catalog, bodyColor, tape, st, c).calls <= st.calls + 2
  {
    var r := RequiredStep(catalog, bodyColor, tape, st, c);
    assert r.parts[..|st.parts|] == st.parts;
  }

  /** An optional pass extends the state it reached after any prefix of its categories. */
  lemma {:induction false} OptionalPassGrows(categories: seq<string>, pool: seq<Part>, tape: seq<nat>, st: Selection, k: nat)
    requires k <= |categories|
    ensures Grows(OptionalPass(categories[..k], pool, tape, st), OptionalPass(categories, pool, tape, st))
  {
    if k == |categories| {
      assert categories[..k] == categories;
      assert OptionalPass(categories, pool, tape, st).parts[..|OptionalPass(categories, pool, tape, st).parts|] ==
             OptionalPass(categories, pool, tape, st).parts;
    } else {
      var cs := categories[..|categories| - 1];
      assert cs[..k] == categories[..k];
      OptionalPassGrows(cs, pool, tape, st, k);
      OptionalStepGrows(pool, tape, OptionalPass(cs, pool, tape, st), categories[|categories| - 1]);
      GrowsTrans(OptionalPass(cs[..k], pool, tape, st), OptionalPass(cs, pool, tape, st),
                 OptionalPass(categories, pool, tape, st));
    }
  }

  /** Pass 3 extends the state it reached after any prefix of its categories. */
  lemma {:induction false} RequiredPassGrows(categories: seq<string>, catalog: seq<Part>, bodyColor: string,
                                             tape: seq<nat>, st: Selection, k: nat)
    requires k <= |categories|
    ensures Grows(RequiredPass(categories[..k], catalog, bodyColor, tape, st),
                  RequiredPass(categories, catalog, bodyColor, tape, st))
  {
    if k == |categories| {
      assert categories[..k] == categories;
      assert RequiredPass(categories, catalog, bodyColor, tape, st).parts[..|RequiredPass(categories, catalog, bodyColor, tape, st).parts|] ==
             RequiredPass(categories, catalog, bodyColor, tape, st).parts;
    } else {
      var cs := categories[..|categories| - 1];
      assert cs[..k] == categories[..k];
      RequiredPassGrows(cs, catalog, bodyColor, tape, st, k);
      RequiredStepGrows(catalog, bodyColor, tape, RequiredPass(cs, catalog, bodyColor, tape, st), categories[|categories| - 1]);
      GrowsTrans(RequiredPass(cs[..k], catalog, bodyColor, tape, st), RequiredPass(cs, catalog, bodyColor, tape, st),
                 RequiredPass(categories, catalog, bodyColor, tape, st));
    }
  }

  /** An optional pass reads only the draws it uses: zeros there run it as the empty tape does. */
  lemma {:induction false} OptionalPassZeroBelow(categories: seq<string>, pool: seq<Part>, tape: seq<nat>, st: Selection)
    requires ZeroBelow(tape, OptionalPass(categories, pool, [], st).calls)
    ensures OptionalPass(categories, pool, tape, st) == OptionalPass(categories, pool, [], st)
  {
    if categories != [] {
      var cs := categories[..|categories| - 1];
      var c := categories[|categories| - 1];
      var m := OptionalPass(cs, pool, [], st);
      OptionalStepGrows(pool, [], m, c);
      OptionalPassZeroBelow(cs, pool, tape, st);
      var categoryParts := Matching(pool, [c]);
      if c !in m.processed && |categoryParts| > 0 {
        DrawBelow(tape, OptionalPass(categories, pool, [], st).calls, m.calls, |categoryParts|);
      }
    }
  }

  /** Pass 3 reads only the draws it uses: zeros there run it as the empty tape does. */
  lemma {:induction false} RequiredPassZeroBelow(categories: seq<string>, catalog: seq<Part>, bodyColor: string,
                                                 tape: seq<nat>, st: Selection)
    requires ZeroBelow(tape, RequiredPass(categories, catalog, bodyColor, [], st).calls)
    ensures RequiredPass(categories, catalog, bodyColor, tape, st) == RequiredPass(categories, catalog, bodyColor, [], st)
  {
    if categories != [] {
      var cs := categories[..|categories| - 1];
      var c := categories[|categories| - 1];
      var m := RequiredPass(cs, catalog, bodyColor, [], st);
      var n := RequiredPass(categories, catalog, bodyColor, [], st).calls;
      RequiredStepGrows(catalog, bodyColor, [], m, c);
      RequiredPassZeroBelow(cs, catalog, bodyColor, tape, st);
      var categoryParts := Matching(catalog, [c]);
      if c !in m.processed && |categoryParts| > 0 {
        DrawBelow(tape, n, m.calls, |categoryParts|);
        var bottomParts := Matching(catalog, Bottom);
        if c in Bottom && |bottomParts| > 0 {
          DrawBelow(tape, n, m.calls + 1, |bottomParts|);
        }
      }
    }
  }

  /** The passes before a category's draw run on a tape zero below it as on the empty tape. */
  lemma StagesZeroBelow(aiParts: Option<seq<Part>>, allFreeParts: seq<Part>, tape: seq<nat>)
    ensures ZeroBelow(tape, AfterOptionalAI(aiParts, []).calls) ==>
      AfterOptionalAI(aiParts, tape) == AfterOptionalAI(aiParts, [])
    ensures ZeroBelow(tape, AfterRandomRequired(aiParts, allFreeParts, []).calls) ==>
      AfterRandomRequired(aiParts, allFreeParts, tape) == AfterRandomRequired(aiParts, allFreeParts, [])
  {
    if aiParts.Some? && ZeroBelow(tape, AfterOptionalAI(aiParts, []).calls) {
      OptionalPassZeroBelow(AIOptional, aiParts.value, tape, AfterRequiredAI(aiParts));
    }
    var s2 := AfterOptionalAI(aiParts, []);
    if ZeroBelow(tape, AfterRandomRequired(aiParts, allFreeParts, []).calls) {
      RequiredPassGrows(RandomRequired, allFreeParts, BodyColor(aiParts), [], s2, 0);
      assert RandomRequired[..0] == [];
      if aiParts.Some? {
        OptionalPassZeroBelow(AIOptional, aiParts.value, tape, AfterRequiredAI(aiParts));
      }
      RequiredPassZeroBelow(RandomRequired, allFreeParts, BodyColor(aiParts), tape, s2);
    }
  }

  /** The passes after the state reached by pass 3 only extend it. */
  lemma LaterPassesKeep(q: Part, aiParts: Option<seq<Part>>, allFreeParts: seq<Part>, tape: seq<nat>)
    requires q in AfterRandomRequired(aiParts, allFreeParts, tape).parts
    ensures q in Select(aiParts, allFreeParts, tape).parts
  {
    var s3 := AfterRandomRequired(aiParts, allFreeParts, tape);
    OptionalPassGrows(RandomOptional, allFreeParts, tape, s3, 0);
    assert RandomOptional[..0] == [];
    KeptByGrowth(q, s3, Select(aiParts, allFreeParts, tape));
  }

  /** The passes after the state reached by pass 2 only extend it. */
  lemma PassesAfterTwoKeep(q: Part, aiParts: Option<seq<Part>>, allFreeParts: seq<Part>, tape: seq<nat>)
    requires q in AfterOptionalAI(aiParts, tape).parts
    ensures q in Select(aiParts, allFreeParts, tape).parts
  {
    var s2 := AfterOptionalAI(aiParts, tape);
    RequiredPassGrows(RandomRequired, allFreeParts, BodyColor(aiParts), tape, s2, 0);
    assert RandomRequired[..0] == [];
    KeptByGrowth(q, s2, AfterRandomRequired(aiParts, allFreeParts, tape));
    LaterPassesKeep(q, aiParts, allFreeParts, tape);
  }

  // ---------------------------------------------------------------------------------
  // Within one pass: the category at position `j` is still unmarked when its turn comes.

  lemma OptionalUnmarkedBefore(categories: seq<string>, pool: seq<Part>, tape: seq<nat>, st: Selection, j: nat)
    requires Distinct(categories) && j < |categories|
    requires forall c :: c in categories ==> c !in st.processed
    ensures categories[j] !in OptionalPass(categories[..j], pool, tape, st).processed
  {
    DistinctSlice(categories, j);
    OptionalPassEffect(categories[..j], pool, tape, st);
  }

  lemma RequiredUnmarkedBefore(categories: seq<string>, catalog: seq<Part>, bodyColor: string, tape: seq<nat>,
                               st: Selection, j: nat)
    requires Distinct(categories) && j < |categories|
    requires forall c :: c in categories ==> c !in st.processed
    requires Pants !in st.processed && Skirt !in st.processed
    requires categories[j] in Bottom ==> !BottomOffered(categories[..j], catalog)
    ensures categories[j] !in RequiredPass(categories[..j], catalog, bodyColor, tape, st).processed
  {
    DistinctSlice(categories, j);
    RequiredPassEffect(categories[..j], catalog, bodyColor, tape, st);
  }

  // ---------------------------------------------------------------------------------
  // Within one pass: zeros up to a category's draw, then the wanted index.

  /** A tape of zeros up to the draw of the unmarked category at `j`, then `i`, makes the pass return its `i`-th candidate. */
  lemma OptionalPassReaches(categories: seq<string>, pool: seq<Part>, st: Selection, j: nat, i: nat)
    requires j < |categories|
    requires categories[j] !in OptionalPass(categories[..j], pool, [], st).processed
    requires i < |Matching(pool, [categories[j]])|
    ensures var tape := Zeros(OptionalPass(categories[..j], pool, [], st).calls) + [i];
      Matching(pool, [categories[j]])[i] in OptionalPass(categories, pool, tape, st).parts
  {
    var c := categories[j];
    var pre := categories[..j];
    var m0 := OptionalPass(pre, pool, [], st);
    var tape := Zeros(m0.calls) + [i];
    OptionalPassZeroBelow(pre, pool, tape, st);
    OptionalStepTakesDrawn(pool, tape, m0, c, i);
    assert categories[..j + 1][..j] == pre;
    var m1 := OptionalPass(categories[..j + 1], pool, tape, st);
    assert m1.parts == m0.parts + [Matching(pool, [c])[i]];
    OptionalPassGrows(categories, pool, tape, st, j + 1);
    KeptByGrowth(Matching(pool, [c])[i], m1, OptionalPass(categories, pool, tape, st));
  }

  /** As `OptionalPassReaches`, for a non-bottom category of pass 3; a head part is recoloured. */
  lemma RequiredPassReaches(categories: seq<string>, catalog: seq<Part>, bodyColor: string, st: Selection, j: nat, i: nat)
    requires j < |categories| && categories[j] !in Bottom
    requires categories[j] !in RequiredPass(categories[..j], catalog, bodyColor, [], st).processed
    requires i < |Matching(catalog, [categories[j]])|
    ensures var tape := Zeros(RequiredPass(categories[..j], catalog, bodyColor, [], st).calls) + [i];
      var p := Matching(catalog, [categories[j]])[i];
      (if categories[j] == Head then p.(color := bodyColor) else p) in
        RequiredPass(categories, catalog, bodyColor, tape, st).parts
  {
    var c := categories[j];
    var pre := categories[..j];
    var m0 := RequiredPass(pre, catalog, bodyColor, [], st);
    var tape := Zeros(m0.calls) + [i];
    var p := Matching(catalog, [c])[i];
    var x := if c == Head then p.(color := bodyColor) else p;
    RequiredPassZeroBelow(pre, catalog, bodyColor, tape, st);
    RequiredStepTakesDrawn(catalog, bodyColor, tape, m0, c, i);
    assert categories[..j + 1][..j] == pre;
    var m1 := RequiredPass(categories[..j + 1], catalog, bodyColor, tape, st);
    assert m1.parts == m0.parts + [x];
    RequiredPassGrows(categories, catalog, bodyColor, tape, st, j + 1);
    KeptByGrowth(x, m1, RequiredPass(categories, catalog, bodyColor, tape, st));
  }

  /** For a bottom category with candidates: zeros, one discarded draw, then `i` returns the pool's `i`-th part. */
  lemma RequiredPassReachesBottom(categories: seq<string>, catalog: seq<Part>, bodyColor: string, st: Selection, j: nat, i: nat)
    requires j < |categories| && categories[j] in Bottom && |Matching(catalog, [categories[j]])| > 0
    requires categories[j] !in RequiredPass(categories[..j], catalog, bodyColor, [], st).processed
    requires i < |Matching(catalog, Bottom)|
    ensures var tape := Zeros(RequiredPass(categories[..j], catalog, bodyColor, [], st).calls) + [0, i];
      Matching(catalog, Bottom)[i] in RequiredPass(categories, catalog, bodyColor, tape, st).parts
  {
    var c := categories[j];
    var pre := categories[..j];
    var m0 := RequiredPass(pre, catalog, bodyColor, [], st);
    var tape := Zeros(m0.calls) + [0, i];
    var x := Matching(catalog, Bottom)[i];
    RequiredPassZeroBelow(pre, catalog, bodyColor, tape, st);
    RequiredStepTakesBottom(catalog, bodyColor, tape, m0, c, i);
    assert categories[..j + 1][..j] == pre;
    var m1 := RequiredPass(categories[..j + 1], catalog, bodyColor, tape, st);
    assert m1.parts == m0.parts + [x];
    RequiredPassGrows(categories, catalog, bodyColor, tape, st, j + 1);
    KeptByGrowth(x, m1, RequiredPass(categories, catalog, bodyColor, tape, st));
  }

  /** The state a pass starts from bounds the draws the passes before it used. */
  lemma StartBelow(categories: seq<string>, catalog: seq<Part>, bodyColor: string, pool: seq<Part>, st: Selection, j: nat)
    requires j <= |categories|
    ensures st.calls <= RequiredPass(categories[..j], catalog, bodyColor, [], st).calls
    ensures st.calls <= OptionalPass(categories[..j], pool, [], st).calls
  {
    RequiredPassGrows(categories[..j], catalog, bodyColor, [], st, 0);
    OptionalPassGrows(categories[..j], pool, [], st, 0);
    assert categories[..j][..0] == [];
  }

  // ---------------------------------------------------------------------------------
  // Every candidate can be returned.

  /** Every AI part of an AI-optional category is returned for some draws. */
  lemma AIOptionalEveryCandidate(ai: seq<Part>, allFreeParts: seq<Part>, q: Part)
    requires q in ai && Cat(q) in AIOptional
    ensures exists tape :: q in Select(Some(ai), allFreeParts, tape).parts
  {
    PolicyShape();
    var c := Cat(q);
    var j :| 0 <= j < |AIOptional| && AIOptional[j] == c;
    var st0 := AfterRequiredAI(Some(ai));
    SelectionProperties.Unmarked(Some(ai), allFreeParts, []);
    OptionalUnmarkedBefore(AIOptional, ai, [], st0, j);
    var cands := Matching(ai, [c]);
    assert q in cands;
    var i :| 0 <= i < |cands| && cands[i] == q;
    var tape := Zeros(OptionalPass(AIOptional[..j], ai, [], st0).calls) + [i];
    OptionalPassReaches(AIOptional, ai, st0, j, i);
    PassesAfterTwoKeep(q, Some(ai), allFreeParts, tape);
  }

  /**
   * Every catalog part of a non-bottom random-required category is returned for some draws;
   * a head part carries the body colour.
   */
  lemma RandomRequiredEveryCandidate(aiParts: Option<seq<Part>>, allFreeParts: seq<Part>, q: Part)
    requires q in allFreeParts && Cat(q) in RandomRequired && Cat(q) !in Bottom
    ensures exists tape ::
      (if Cat(q) == Head then q.(color := BodyColor(aiParts)) else q) in Select(aiParts, allFreeParts, tape).parts
  {
    PolicyShape();
    var c := Cat(q);
    var bodyColor := BodyColor(aiParts);
    var j :| 0 <= j < |RandomRequired| && RandomRequired[j] == c;
    var s2 := AfterOptionalAI(aiParts, []);
    SelectionProperties.Unmarked(aiParts, allFreeParts, []);
    RequiredUnmarkedBefore(RandomRequired, allFreeParts, bodyColor, [], s2, j);
    var cands := Matching(allFreeParts, [c]);
    assert q in cands;
    var i :| 0 <= i < |cands| && cands[i] == q;
    var n := RequiredPass(RandomRequired[..j], allFreeParts, bodyColor, [], s2).calls;
    var tape := Zeros(n) + [i];
    var x := if c == Head then q.(color := bodyColor) else q;
    RequiredPassReaches(RandomRequired, allFreeParts, bodyColor, s2, j, i);
    StartBelow(RandomRequired, allFreeParts, bodyColor, [], s2, j);
    StagesZeroBelow(aiParts, allFreeParts, tape);
    assert x in AfterRandomRequired(aiParts, allFreeParts, tape).parts;
    LaterPassesKeep(x, aiParts, allFreeParts, tape);
  }

  /** The position in pass 3 of the first bottom category with catalog candidates. */
  lemma FirstOfferedBottom(catalog: seq<Part>, q: Part) returns (j: nat)
    requires q in catalog && Cat(q) in Bottom
    ensures j < |RandomRequired| && RandomRequired[j] in Bottom && |Matching(catalog, [RandomRequired[j]])| > 0
    ensures !BottomOffered(RandomRequired[..j], catalog)
  {
    PolicyShape();
    j := if Offers(catalog, Pants) then 4 else 5;
    assert Offers(catalog, RandomRequired[j]);
    OffersMatching(catalog, RandomRequired[j]);
    assert RandomRequired[..j] == [Head, Ear, Eyelash, Tooth] ||
           (RandomRequired[..j] == [Head, Ear, Eyelash, Tooth, Pants] && !Offers(catalog, Pants));
  }

  /**
   * Every catalog pants or skirt part is returned for some draws: the bottom draw ranges over
   * the combined pool, so a skirt can be equipped while pants is handled and the reverse.
   */
  lemma BottomEveryCandidate(aiParts: Option<seq<Part>>, allFreeParts: seq<Part>, q: Part)
    requires q in allFreeParts && Cat(q) in Bottom
    ensures exists tape :: q in Select(aiParts, allFreeParts, tape).parts
  {
    PolicyShape();
    var bodyColor := BodyColor(aiParts);
    var j := FirstOfferedBottom(allFreeParts, q);
    var c := RandomRequired[j];
    var s2 := AfterOptionalAI(aiParts, []);
    SelectionProperties.Unmarked(aiParts, allFreeParts, []);
    RequiredUnmarkedBefore(RandomRequired, allFreeParts, bodyColor, [], s2, j);
    var pool := Matching(allFreeParts, Bottom);
    assert q in pool;
    var i :| 0 <= i < |pool| && pool[i] == q;
    var n := RequiredPass(RandomRequired[..j], allFreeParts, bodyColor, [], s2).calls;
    var tape := Zeros(n) + [0, i];
    RequiredPassReachesBottom(RandomRequired, allFreeParts, bodyColor, s2, j, i);
    StartBelow(RandomRequired, allFreeParts, bodyColor, [], s2, j);
    StagesZeroBelow(aiParts, allFreeParts, tape);
    assert q in AfterRandomRequired(aiParts, allFreeParts, tape).parts;
    LaterPassesKeep(q, aiParts, allFreeParts, tape);
  }

  /** Every catalog part of a random-optional category is returned for some draws. */
  lemma RandomOptionalEveryCandidate(aiParts: Option<seq<Part>>, allFreeParts: seq<Part>, q: Part)
    requires q in allFreeParts && Cat(q) in RandomOptional
    ensures exists tape :: q in Select(aiParts, allFreeParts, tape).parts
  {
    PolicyShape();
    var c := Cat(q);
    var j :| 0 <= j < |RandomOptional| && RandomOptional[j] == c;
    var s3 := AfterRandomRequired(aiParts, allFreeParts, []);
    SelectionProperties.Unmarked(aiParts, allFreeParts, []);
    OptionalUnmarkedBefore(RandomOptional, allFreeParts, [], s3, j);
    var cands := Matching(allFreeParts, [c]);
    assert q in cands;
    var i :| 0 <= i < |cands| && cands[i] == q;
    var n := OptionalPass(RandomOptional[..j], allFreeParts, [], s3).calls;
    var tape := Zeros(n) + [i];
    OptionalPassReaches(RandomOptional, allFreeParts, s3, j, i);
    StartBelow(RandomOptional, [], "", allFreeParts, s3, j);
    StagesZeroBelow(aiParts, allFreeParts, tape);
    assert q in Select(aiParts, allFreeParts, tape).parts;
  }
}
