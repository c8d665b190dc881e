/**
 * What `ProcessPartsAsync` guarantees about the list it returns, stated over the
 * specification `Select` that `PartsHandler.ProcessParts` is proved to compute.
 */
module SelectionProperties {
  import opened Wrappers
  import opened Categories
  import opened Parts
  import opened PartsHandler
  import opened PassLemmas

  // ---------------------------------------------------------------------------------
  // Pass 1 on its own.

  /** Pass 1 works part by part: the parts kept from a concatenation are those kept from each half, in order. */
  lemma {:induction false} RequiredAIPartsAppend(a: seq<Part>, b: seq<Part>)
    ensures RequiredAIParts(a + b) == RequiredAIParts(a) + RequiredAIParts(b)
  {
    if b == [] {
      assert a + b == a;
    } else {
      var b' := b[..|b| - 1];
      assert (a + b)[..|a + b| - 1] == a + b';
      assert (a + b)[|a + b| - 1] == b[|b| - 1];
      RequiredAIPartsAppend(a, b');
    }
  }

  /** Pass 1 keeps every AI-required part, one output part per input part (no deduplication), and nothing else. */
  lemma {:induction false} RequiredAIPartsCount(a: seq<Part>, c: string)
    ensures Count(RequiredAIParts(a), [c]) == if c in AIRequired then Count(a, [c]) else 0
  {
    if a != [] {
      var a', x := a[..|a| - 1], a[|a| - 1];
      assert a == a' + [x];
      RequiredAIPartsCount(a', c);
      CountAppend(a', [x], [c]);
      CountSingle(x, [c]);
      var kept := if Cat(x) in AIRequired then [ExpandHair(x)] else [];
      CountAppend(RequiredAIParts(a'), kept, [c]);
      if Cat(x) in AIRequired {
        CountSingle(ExpandHair(x), [c]);
      } else {
        CountNone(kept, [c]);
      }
    } else {
      CountNone([], [c]);
    }
  }

  /** Each part pass 1 emits is an AI-required input part, with a hair colour `c` written as `c,c,c`; and each such input part is emitted. */
  lemma {:induction false} RequiredAIPartsMembers(a: seq<Part>)
    ensures forall q :: q in RequiredAIParts(a) ==>
      Cat(q) in AIRequired && exists p :: p in a && Cat(p) == Cat(q) && q == ExpandHair(p)
    ensures forall p :: p in a && Cat(p) in AIRequired ==> ExpandHair(p) in RequiredAIParts(a)
  {
    if a != [] {
      var a', x := a[..|a| - 1], a[|a| - 1];
      assert a == a' + [x];
      RequiredAIPartsMembers(a');
      forall q | q in RequiredAIParts(a)
        ensures Cat(q) in AIRequired && exists p :: p in a && Cat(p) == Cat(q) && q == ExpandHair(p)
      {
        if q in RequiredAIParts(a') {
          var p :| p in a' && Cat(p) == Cat(q) && q == ExpandHair(p);
          assert p in a;
        } else {
          assert q == ExpandHair(x) && Cat(x) in AIRequired;
        }
      }
    }
  }

  /** The categories pass 1 marks are AI-required ones. */
  lemma {:induction false} RequiredAISeenIsRequired(a: seq<Part>)
    ensures forall c :: c in RequiredAISeen(a) ==> c in AIRequired
  {
    if a != [] {
      RequiredAISeenIsRequired(a[..|a| - 1]);
    }
  }

  /** `bodyColor` is the colour of the last AI body part, or "" when there is none. */
  lemma {:induction false} LastBodyColorIsLast(a: seq<Part>)
    ensures (forall i :: 0 <= i < |a| ==> Cat(a[i]) != Body) ==> LastBodyColor(a) == ""
    ensures forall j :: 0 <= j < |a| && Cat(a[j]) == Body && (forall k :: j < k < |a| ==> Cat(a[k]) != Body) ==>
      LastBodyColor(a) == a[j].color
  {
    if a != [] {
      var a' := a[..|a| - 1];
      LastBodyColorIsLast(a');
      forall j | 0 <= j < |a| && Cat(a[j]) == Body && (forall k :: j < k < |a| ==> Cat(a[k]) != Body)
        ensures LastBodyColor(a) == a[j].color
      {
        if j < |a| - 1 {
          assert a'[j] == a[j];
          assert forall k :: j < k < |a'| ==> a'[k] == a[k];
        }
      }
      if forall i :: 0 <= i < |a| ==> Cat(a[i]) != Body {
        assert forall i :: 0 <= i < |a'| ==> a'[i] == a[i];
      }
    }
  }

  // ---------------------------------------------------------------------------------
  // The four passes together.

  /** The parts pass 2 appends. */
  function AIOptionalPicks(aiParts: Option<seq<Part>>, tape: seq<nat>): seq<Part> {
    NewParts(AfterRequiredAI(aiParts), AfterOptionalAI(aiParts, tape))
  }

  /** The parts pass 3 appends. */
  function RandomRequiredPicks(aiParts: Option<seq<Part>>, allFreeParts: seq<Part>, tape: seq<nat>): seq<Part> {
    NewParts(AfterOptionalAI(aiParts, tape), AfterRandomRequired(aiParts, allFreeParts, tape))
  }

  /** The parts pass 4 appends. */
  function RandomOptionalPicks(aiParts: Option<seq<Part>>, allFreeParts: seq<Part>, tape: seq<nat>): seq<Part> {
    NewParts(AfterRandomRequired(aiParts, allFreeParts, tape), Select(aiParts, allFreeParts, tape))
  }

  /** No pass finds one of its own categories already marked by the passes before it. */
  lemma Unmarked(aiParts: Option<seq<Part>>, allFreeParts: seq<Part>, tape: seq<nat>)
    ensures forall c :: c in AIOptional ==> c !in AfterRequiredAI(aiParts).processed
    ensures forall c :: c in RandomRequired ==> c !in AfterOptionalAI(aiParts, tape).processed
    ensures forall c :: c in RandomOptional ==> c !in AfterRandomRequired(aiParts, allFreeParts, tape).processed
  {
    PolicyShape();
    var s1 := AfterRequiredAI(aiParts);
    var s2 := AfterOptionalAI(aiParts, tape);
    var s3 := AfterRandomRequired(aiParts, allFreeParts, tape);
    assert forall c :: c in s1.processed ==> c in AIRequired by {
      if aiParts.Some? {
        RequiredAISeenIsRequired(aiParts.value);
      }
    }
    forall c | c in AIOptional ensures c !in s1.processed {
      PolicyClassesDisjoint(c);
    }
    if aiParts.Some? {
      OptionalPassEffect(AIOptional, aiParts.value, tape, s1);
    }
    assert forall c :: c in s2.processed ==> c in AIRequired || c in AIOptional;
    forall c | c in RandomRequired ensures c !in s2.processed {
      PolicyClassesDisjoint(c);
    }
    RequiredPassEffect(RandomRequired, allFreeParts, BodyColor(aiParts), tape, s2);
    assert forall c :: c in s3.processed ==> c in AIRequired || c in AIOptional || c in RandomRequired;
    forall c | c in RandomOptional ensures c !in s3.processed {
      PolicyClassesDisjoint(c);
    }
  }

  /** Each pass runs over categories no earlier pass has marked, so the per-pass effects apply. */
  lemma Stages(aiParts: Option<seq<Part>>, allFreeParts: seq<Part>, tape: seq<nat>)
    ensures aiParts.Some? ==>
      OptionalEffect(AIOptional, aiParts.value, tape, AfterRequiredAI(aiParts), AfterOptionalAI(aiParts, tape))
    ensures aiParts.None? ==> AfterOptionalAI(aiParts, tape) == AfterRequiredAI(aiParts)
    ensures RequiredEffect(RandomRequired, allFreeParts, BodyColor(aiParts), AfterOptionalAI(aiParts, tape),
                           AfterRandomRequired(aiParts, allFreeParts, tape))
    ensures OptionalEffect(RandomOptional, allFreeParts, tape, AfterRandomRequired(aiParts, allFreeParts, tape),
                           Select(aiParts, allFreeParts, tape))
  {
    PolicyShape();
    Unmarked(aiParts, allFreeParts, tape);
    var s1 := AfterRequiredAI(aiParts);
    var s2 := AfterOptionalAI(aiParts, tape);
    var s3 := AfterRandomRequired(aiParts, allFreeParts, tape);
    if aiParts.Some? {
      OptionalPassEffect(AIOptional, aiParts.value, tape, s1);
    }
    RequiredPassEffect(RandomRequired, allFreeParts, BodyColor(aiParts), tape, s2);
    OptionalPassEffect(RandomOptional, allFreeParts, tape, s3);
  }

  lemma ExtendsSplit(st: Selection, r: Selection)
    requires Extends(st, r)
    ensures r.parts == st.parts + NewParts(st, r)
  {
  }

  /** The returned list is pass 1's parts, then pass 2's, pass 3's and pass 4's. */
  lemma SelectConcat(aiParts: Option<seq<Part>>, allFreeParts: seq<Part>, tape: seq<nat>)
    ensures Select(aiParts, allFreeParts, tape).parts ==
      RequiredFromAI(aiParts) + AIOptionalPicks(aiParts, tape) +
      RandomRequiredPicks(aiParts, allFreeParts, tape) + RandomOptionalPicks(aiParts, allFreeParts, tape)
  {
    Stages(aiParts, allFreeParts, tape);
    var s1 := AfterRequiredAI(aiParts);
    var s2 := AfterOptionalAI(aiParts, tape);
    var s3 := AfterRandomRequired(aiParts, allFreeParts, tape);
    var s4 := Select(aiParts, allFreeParts, tape);
    if aiParts.Some? {
      ExtendsSplit(s1, s2);
    } else {
      assert AIOptionalPicks(aiParts, tape) == [];
    }
    ExtendsSplit(s2, s3);
    ExtendsSplit(s3, s4);
  }

  /** The returned list is made of the four passes' parts, each from its own source. */
  lemma SelectPieces(aiParts: Option<seq<Part>>, allFreeParts: seq<Part>, tape: seq<nat>)
    ensures Select(aiParts, allFreeParts, tape).parts ==
      RequiredFromAI(aiParts) + AIOptionalPicks(aiParts, tape) +
      RandomRequiredPicks(aiParts, allFreeParts, tape) + RandomOptionalPicks(aiParts, allFreeParts, tape)
    ensures forall q :: q in AIOptionalPicks(aiParts, tape) ==>
      aiParts.Some? && q in aiParts.value && Cat(q) in AIOptional
    ensures forall q :: q in RandomRequiredPicks(aiParts, allFreeParts, tape) ==>
      Cat(q) in RandomRequired && FromCatalog(q, allFreeParts, BodyColor(aiParts))
    ensures forall q :: q in RandomOptionalPicks(aiParts, allFreeParts, tape) ==>
      q in allFreeParts && Cat(q) in RandomOptional
  {
    PolicyShape();
    SelectConcat(aiParts, allFreeParts, tape);
    Stages(aiParts, allFreeParts, tape);
    if aiParts.None? {
      assert AIOptionalPicks(aiParts, tape) == [];
    }
    assert forall q :: q in AIOptionalPicks(aiParts, tape) ==> aiParts.Some? && q in aiParts.value && Cat(q) in AIOptional;
    assert forall q :: q in RandomRequiredPicks(aiParts, allFreeParts, tape) ==>
      Cat(q) in RandomRequired && FromCatalog(q, allFreeParts, BodyColor(aiParts));
  }

  /**
   * How many parts of each category the returned list holds: every AI-required part of the
   * input, one part per optional or random-required category that has candidates, and none
   * of a category outside the four policy sets (the excluded ones included).
   */
  lemma CategoryCounts(aiParts: Option<seq<Part>>, allFreeParts: seq<Part>, tape: seq<nat>, c: string)
    ensures var out := Select(aiParts, allFreeParts, tape).parts;
      (c in AIRequired ==> Count(out, [c]) == if aiParts.Some? then Count(aiParts.value, [c]) else 0) &&
      (c in AIOptional ==> Count(out, [c]) == if aiParts.Some? && Offers(aiParts.value, c) then 1 else 0) &&
      (c in RandomRequired && c !in Bottom ==> Count(out, [c]) == if Offers(allFreeParts, c) then 1 else 0) &&
      (c in RandomOptional ==> Count(out, [c]) == if Offers(allFreeParts, c) then 1 else 0) &&
      (!Managed(c) ==> Count(out, [c]) == 0)
  {
    PolicyShape();
    PolicyClassesDisjoint(c);
    Stages(aiParts, allFreeParts, tape);
    SelectPieces(aiParts, allFreeParts, tape);
    var r1 := RequiredFromAI(aiParts);
    var p2 := AIOptionalPicks(aiParts, tape);
    var p3 := RandomRequiredPicks(aiParts, allFreeParts, tape);
    var p4 := RandomOptionalPicks(aiParts, allFreeParts, tape);
    CountAppend(r1 + p2 + p3, p4, [c]);
    CountAppend(r1 + p2, p3, [c]);
    CountAppend(r1, p2, [c]);
    if aiParts.Some? {
      RequiredAIPartsCount(aiParts.value, c);
    } else {
      CountNone(r1, [c]);
    }
    if c !in AIOptional {
      CountNone(p2, [c]);
    }
    if c !in RandomRequired {
      CountNone(p3, [c]);
    }
    if c !in RandomOptional {
      CountNone(p4, [c]);
    }
  }

  /** Every returned part has a category of one of the four policy sets; none is excluded. */
  lemma OnlyManagedCategories(aiParts: Option<seq<Part>>, allFreeParts: seq<Part>, tape: seq<nat>)
    ensures forall q :: q in Select(aiParts, allFreeParts, tape).parts ==> Managed(Cat(q)) && Cat(q) !in Excluded
  {
    SelectPieces(aiParts, allFreeParts, tape);
    if aiParts.Some? {
      RequiredAIPartsMembers(aiParts.value);
    }
    forall q | q in Select(aiParts, allFreeParts, tape).parts
      ensures Managed(Cat(q)) && Cat(q) !in Excluded
    {
      PolicyClassesDisjoint(Cat(q));
    }
  }

  /** Pass 1's parts open the returned list, in input order, and no later part is of an AI-required category. */
  lemma AIRequiredPartsFirst(aiParts: Option<seq<Part>>, allFreeParts: seq<Part>, tape: seq<nat>)
    ensures var out := Select(aiParts, allFreeParts, tape).parts;
      var kept := RequiredFromAI(aiParts);
      |kept| <= |out| && out[..|kept|] == kept &&
      forall i :: |kept| <= i < |out| ==> Cat(out[i]) !in AIRequired
  {
    SelectPieces(aiParts, allFreeParts, tape);
    var out := Select(aiParts, allFreeParts, tape).parts;
    var kept := RequiredFromAI(aiParts);
    var rest := AIOptionalPicks(aiParts, tape) + RandomRequiredPicks(aiParts, allFreeParts, tape) +
                RandomOptionalPicks(aiParts, allFreeParts, tape);
    assert out == kept + rest;
    forall i | |kept| <= i < |out| ensures Cat(out[i]) !in AIRequired {
      assert out[i] == rest[i - |kept|];
      assert out[i] in rest;
      PolicyClassesDisjoint(Cat(out[i]));
    }
  }

  /** An AI hair part of colour `c` is returned with colour `c,c,c`; other AI-required parts are returned as they came. */
  lemma HairColourExpanded(aiParts: Option<seq<Part>>, allFreeParts: seq<Part>, tape: seq<nat>)
    ensures var out := Select(aiParts, allFreeParts, tape).parts;
      (forall p :: aiParts.Some? && p in aiParts.value && Cat(p) == Hair ==>
         p.(color := p.color + "," + p.color + "," + p.color) in out) &&
      (forall p :: aiParts.Some? && p in aiParts.value && Cat(p) in AIRequired && Cat(p) != Hair ==> p in out) &&
      (forall q :: q in out && Cat(q) == Hair ==>
         aiParts.Some? && exists p :: p in aiParts.value && Cat(p) == Hair &&
                                      q == p.(color := p.color + "," + p.color + "," + p.color))
  {
    PolicyShape();
    SelectPieces(aiParts, allFreeParts, tape);
    if aiParts.Some? {
      RequiredAIPartsMembers(aiParts.value);
    }
    forall q | q in Select(aiParts, allFreeParts, tape).parts && Cat(q) == Hair
      ensures aiParts.Some? && exists p :: p in aiParts.value && Cat(p) == Hair &&
                                           q == p.(color := p.color + "," + p.color + "," + p.color)
    {
      PolicyClassesDisjoint(Hair);
      assert q in RequiredFromAI(aiParts);
    }
  }

  /**
   * Body colour reaches the head: when the catalog has a head candidate exactly one head part
   * is returned, and it is a catalog head part whose colour is that of the last AI body part
   * ("" without one), whatever colour the catalog gave it.
   */
  lemma BodyColorOnHead(aiParts: Option<seq<Part>>, allFreeParts: seq<Part>, tape: seq<nat>)
    ensures var out := Select(aiParts, allFreeParts, tape).parts;
      Count(out, [Head]) == (if Offers(allFreeParts, Head) then 1 else 0) &&
      forall q :: q in out && Cat(q) == Head ==>
        q.color == BodyColor(aiParts) &&
        exists p :: p in allFreeParts && Cat(p) == Head && q == p.(color := BodyColor(aiParts))
  {
    PolicyShape();
    CategoryCounts(aiParts, allFreeParts, tape, Head);
    SelectPieces(aiParts, allFreeParts, tape);
    if aiParts.Some? {
      RequiredAIPartsMembers(aiParts.value);
    }
    forall q | q in Select(aiParts, allFreeParts, tape).parts && Cat(q) == Head
      ensures q.color == BodyColor(aiParts) &&
              exists p :: p in allFreeParts && Cat(p) == Head && q == p.(color := BodyColor(aiParts))
    {
      PolicyClassesDisjoint(Head);
      assert q in RandomRequiredPicks(aiParts, allFreeParts, tape);
      var p :| p in allFreeParts && q == p.(color := BodyColor(aiParts));
      assert Cat(p) == Cat(q);
    }
  }

  /**
   * The bottom group: the returned list holds exactly one part of pants or skirt when the
   * catalog has any, none otherwise, and that part is a catalog part.
   */
  lemma BottomExclusive(aiParts: Option<seq<Part>>, allFreeParts: seq<Part>, tape: seq<nat>)
    ensures var out := Select(aiParts, allFreeParts, tape).parts;
      Count(out, Bottom) == (if exists p :: p in allFreeParts && Cat(p) in Bottom then 1 else 0) &&
      forall q :: q in out && Cat(q) in Bottom ==> q in allFreeParts
    ensures var processed := AfterRandomRequired(aiParts, allFreeParts, tape).processed;
      (Pants in processed <==> Skirt in processed)
  {
    PolicyShape();
    Stages(aiParts, allFreeParts, tape);
    SelectPieces(aiParts, allFreeParts, tape);
    if aiParts.Some? {
      RequiredAIPartsMembers(aiParts.value);
    }
    var r1 := RequiredFromAI(aiParts);
    var p2 := AIOptionalPicks(aiParts, tape);
    var p3 := RandomRequiredPicks(aiParts, allFreeParts, tape);
    var p4 := RandomOptionalPicks(aiParts, allFreeParts, tape);
    forall c | c in Bottom ensures c !in AIRequired && c !in AIOptional && c !in RandomOptional {
      PolicyClassesDisjoint(c);
    }
    CountAppend(r1 + p2 + p3, p4, Bottom);
    CountAppend(r1 + p2, p3, Bottom);
    CountAppend(r1, p2, Bottom);
    CountNone(r1, Bottom);
    CountNone(p2, Bottom);
    CountNone(p4, Bottom);
    assert BottomOffered(RandomRequired, allFreeParts) <==> exists p :: p in allFreeParts && Cat(p) in Bottom;
    assert Pants !in AfterOptionalAI(aiParts, tape).processed && Skirt !in AfterOptionalAI(aiParts, tape).processed by {
      PolicyClassesDisjoint(Pants);
      PolicyClassesDisjoint(Skirt);
      RequiredAISeenIsRequired(if aiParts.Some? then aiParts.value else []);
    }
  }

  /** Each non-bottom random-required category with catalog candidates yields one catalog part; one without is skipped. */
  lemma RandomRequiredCoverage(aiParts: Option<seq<Part>>, allFreeParts: seq<Part>, tape: seq<nat>)
    ensures var out := Select(aiParts, allFreeParts, tape).parts;
      (forall c :: c in RandomRequired && c !in Bottom ==> Count(out, [c]) == if Offers(allFreeParts, c) then 1 else 0) &&
      (forall q :: q in out && Cat(q) in RandomRequired && Cat(q) != Head ==> q in allFreeParts)
  {
    forall c | c in RandomRequired && c !in Bottom
      ensures Count(Select(aiParts, allFreeParts, tape).parts, [c]) == if Offers(allFreeParts, c) then 1 else 0
    {
      CategoryCounts(aiParts, allFreeParts, tape, c);
    }
    SelectPieces(aiParts, allFreeParts, tape);
    if aiParts.Some? {
      RequiredAIPartsMembers(aiParts.value);
    }
    forall q | q in Select(aiParts, allFreeParts, tape).parts && Cat(q) in RandomRequired && Cat(q) != Head
      ensures q in allFreeParts
    {
      PolicyClassesDisjoint(Cat(q));
    }
  }

  /**
   * Each AI-optional category with AI candidates, and each random-optional category with
   * catalog candidates, yields exactly one of its candidates: the draw never lands on the
   * "equip nothing" value.
   */
  lemma OptionalCoverage(aiParts: Option<seq<Part>>, allFreeParts: seq<Part>, tape: seq<nat>)
    ensures var out := Select(aiParts, allFreeParts, tape).parts;
      (forall c :: c in AIOptional ==> Count(out, [c]) == if aiParts.Some? && Offers(aiParts.value, c) then 1 else 0) &&
      (forall c :: c in RandomOptional ==> Count(out, [c]) == if Offers(allFreeParts, c) then 1 else 0) &&
      (forall q :: q in out && Cat(q) in AIOptional ==> aiParts.Some? && q in aiParts.value) &&
      (forall q :: q in out && Cat(q) in RandomOptional ==> q in allFreeParts)
  {
    forall c | c in AIOptional || c in RandomOptional
      ensures var out := Select(aiParts, allFreeParts, tape).parts;
        (c in AIOptional ==> Count(out, [c]) == if aiParts.Some? && Offers(aiParts.value, c) then 1 else 0) &&
        (c in RandomOptional ==> Count(out, [c]) == if Offers(allFreeParts, c) then 1 else 0)
    {
      CategoryCounts(aiParts, allFreeParts, tape, c);
    }
    SelectPieces(aiParts, allFreeParts, tape);
    if aiParts.Some? {
      RequiredAIPartsMembers(aiParts.value);
    }
    forall q | q in Select(aiParts, allFreeParts, tape).parts && (Cat(q) in AIOptional || Cat(q) in RandomOptional)
      ensures Cat(q) in AIOptional ==> aiParts.Some? && q in aiParts.value
      ensures Cat(q) in RandomOptional ==> q in allFreeParts
    {
      PolicyClassesDisjoint(Cat(q));
    }
  }

  /** When every draw is 0, each optional category with candidates yields its first candidate. */
  lemma FirstCandidateOnZeroDraws(aiParts: Option<seq<Part>>, allFreeParts: seq<Part>, tape: seq<nat>)
    requires ZeroDraws(tape)
    ensures var out := Select(aiParts, allFreeParts, tape).parts;
      (forall c :: aiParts.Some? && c in AIOptional && |Matching(aiParts.value, [c])| > 0 ==>
         Matching(aiParts.value, [c])[0] in out) &&
      (forall c :: c in RandomOptional && |Matching(allFreeParts, [c])| > 0 ==> Matching(allFreeParts, [c])[0] in out)
  {
    Stages(aiParts, allFreeParts, tape);
    SelectPieces(aiParts, allFreeParts, tape);
  }

  /** With no AI list, only catalog parts are returned, and the head part is coloured "". */
  lemma NoAIParts(allFreeParts: seq<Part>, tape: seq<nat>)
    ensures var out := Select(None, allFreeParts, tape).parts;
      (forall q :: q in out && Cat(q) != Head ==> q in allFreeParts) &&
      (forall q :: q in out && Cat(q) == Head ==> q.color == "" && exists p :: p in allFreeParts && q == p.(color := ""))
    ensures forall c :: c in AIRequired || c in AIOptional ==> Count(Select(None, allFreeParts, tape).parts, [c]) == 0
  {
    SelectPieces(None, allFreeParts, tape);
    forall c | c in AIRequired || c in AIOptional
      ensures Count(Select(None, allFreeParts, tape).parts, [c]) == 0
    {
      CategoryCounts(None, allFreeParts, tape, c);
    }
  }

  /**
   * No category is filled twice, provided the AI list holds at most one part per AI-required
   * category; the bottom group holds at most one part in any case.
   */
  lemma AtMostOnePerCategory(aiParts: Option<seq<Part>>, allFreeParts: seq<Part>, tape: seq<nat>)
    requires aiParts.Some? ==> forall c :: c in AIRequired ==> Count(aiParts.value, [c]) <= 1
    ensures forall c :: Count(Select(aiParts, allFreeParts, tape).parts, [c]) <= 1
    ensures Count(Select(aiParts, allFreeParts, tape).parts, Bottom) <= 1
  {
    PolicyShape();
    forall c ensures Count(Select(aiParts, allFreeParts, tape).parts, [c]) <= 1 {
      CategoryCounts(aiParts, allFreeParts, tape, c);
      if c in Bottom {
        BottomExclusive(aiParts, allFreeParts, tape);
        var out := Select(aiParts, allFreeParts, tape).parts;
        BottomSplit(out);
      }
    }
    BottomExclusive(aiParts, allFreeParts, tape);
  }

  /** The bottom count is the pants count plus the skirt count. */
  lemma {:induction false} BottomSplit(s: seq<Part>)
    ensures Count(s, Bottom) == Count(s, [Pants]) + Count(s, [Skirt])
  {
    PolicyShape();
    if s != [] {
      BottomSplit(s[1..]);
    }
  }
}
