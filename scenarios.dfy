/** Concrete runs of the selection. */
module Scenarios {
  import opened Wrappers
  import opened Categories
  import opened Parts
  import opened PartsHandler
  import opened PassLemmas
  import SelectionProperties

  const AIHair: Part := Part("hair", "#112233", 1)
  const AIBody: Part := Part("body", "#445566", 2)
  const CatalogHead: Part := Part("head", "#000000", 3)
  const CatalogPants: Part := Part("pants", "#111111", 4)
  const CatalogShoes: Part := Part("shoes", "#222222", 5)

  /** An optional pass over categories without candidates changes nothing. */
  lemma {:induction false} OptionalPassIdle(categories: seq<string>, pool: seq<Part>, tape: seq<nat>, st: Selection)
    requires forall c :: c in categories ==> !Offers(pool, c)
    ensures OptionalPass(categories, pool, tape, st) == st
  {
    if categories != [] {
      var cs := categories[..|categories| - 1];
      OptionalPassIdle(cs, pool, tape, st);
      OffersMatching(pool, categories[|categories| - 1]);
    }
  }

  lemma ScenarioCategories()
    ensures Cat(AIHair) == Hair && Cat(AIBody) == Body
    ensures Cat(CatalogHead) == Head && Cat(CatalogPants) == Pants && Cat(CatalogShoes) == Shoes
  {
    LowerKeeps("hair");
    LowerKeeps("body");
    LowerKeeps("head");
    LowerKeeps("pants");
    LowerKeeps("shoes");
  }

  const ScenarioAI: seq<Part> := [AIHair, AIBody]
  const ScenarioCatalog: seq<Part> := [CatalogHead, CatalogPants, CatalogShoes]
  const TripledHair: Part := AIHair.(color := "#112233,#112233,#112233")
  const RecolouredHead: Part := CatalogHead.(color := "#445566")

  lemma ScenarioPass1()
    ensures AfterRequiredAI(Some(ScenarioAI)) == Selection([TripledHair, AIBody], {Hair, Body}, 0)
    ensures BodyColor(Some(ScenarioAI)) == "#445566"
  {
    ScenarioCategories();
    assert ScenarioAI[..1] == [AIHair];
    assert [AIHair][..0] == [];
    assert "#112233" + "," + "#112233" + "," + "#112233" == "#112233,#112233,#112233";
    assert ExpandHair(AIHair) == TripledHair;
    assert ExpandHair(AIBody) == AIBody;
    assert RequiredAIParts([AIHair]) == [TripledHair];
    assert RequiredAISeen([AIHair]) == {Hair};
  }

  lemma ScenarioPass2()
    ensures AfterOptionalAI(Some(ScenarioAI), []) == AfterRequiredAI(Some(ScenarioAI))
  {
    ScenarioCategories();
    forall c | c in AIOptional ensures !Offers(ScenarioAI, c) {
      PolicyClassesDisjoint(c);
    }
    OptionalPassIdle(AIOptional, ScenarioAI, [], AfterRequiredAI(Some(ScenarioAI)));
  }

  /** The catalog filtered by any category list, part by part. */
  lemma ScenarioMatching(cats: seq<string>)
    ensures Matching(ScenarioCatalog, cats) ==
      (if Head in cats then [CatalogHead] else []) + (if Pants in cats then [CatalogPants] else []) +
      (if Shoes in cats then [CatalogShoes] else [])
  {
    ScenarioCategories();
    var catalog := ScenarioCatalog;
    assert catalog[1..] == [CatalogPants, CatalogShoes];
    assert catalog[1..][1..] == [CatalogShoes];
    assert [CatalogShoes][1..] == [];
    var shoes := if Shoes in cats then [CatalogShoes] else [];
    assert Matching([CatalogShoes], cats) == shoes + Matching([], cats);
    assert Matching([CatalogShoes], cats) == shoes;
    var pants := if Pants in cats then [CatalogPants] else [];
    assert Matching([CatalogPants, CatalogShoes], cats) == pants + Matching([CatalogShoes], cats);
    var head := if Head in cats then [CatalogHead] else [];
    assert Matching(catalog, cats) == head + Matching([CatalogPants, CatalogShoes], cats);
  }

  lemma ScenarioCandidates()
    ensures Matching(ScenarioCatalog, [Head]) == [CatalogHead]
    ensures Matching(ScenarioCatalog, [Pants]) == [CatalogPants]
    ensures Matching(ScenarioCatalog, Bottom) == [CatalogPants]
    ensures Matching(ScenarioCatalog, [Shoes]) == [CatalogShoes]
    ensures forall c :: c in [Ear, Eyelash, Tooth, Socks] ==> |Matching(ScenarioCatalog, [c])| == 0
  {
    ScenarioMatching([Head]);
    ScenarioMatching([Pants]);
    ScenarioMatching(Bottom);
    ScenarioMatching([Shoes]);
    forall c | c in [Ear, Eyelash, Tooth, Socks] ensures |Matching(ScenarioCatalog, [c])| == 0 {
      ScenarioMatching([c]);
    }
  }

  const AfterHead: Selection := Selection([TripledHair, AIBody, RecolouredHead], {Hair, Body, Head}, 1)
  const AfterBottom: Selection :=
    Selection([TripledHair, AIBody, RecolouredHead, CatalogPants], {Hair, Body, Head, Pants, Skirt}, 3)

  lemma ScenarioHeadFresh()
    ensures Head !in {Hair, Body} && Head !in Bottom
    ensures {Hair, Body} + {Head} == {Hair, Body, Head}
  {
    PolicyShape();
  }

  lemma ScenarioHeadStep()
    ensures RequiredStep(ScenarioCatalog, "#445566", [], Selection([TripledHair, AIBody], {Hair, Body}, 0), Head) == AfterHead
  {
    ScenarioCandidates();
    ScenarioHeadFresh();
    var st := Selection([TripledHair, AIBody], {Hair, Body}, 0);
    var chosen := Matching(ScenarioCatalog, [Head])[RandomRange([], 0, 1)].(color := "#445566");
    assert chosen == RecolouredHead;
    assert RequiredStep(ScenarioCatalog, "#445566", [], st, Head) ==
           Selection(st.parts + [chosen], st.processed + {Head}, 1);
  }

  lemma ScenarioIdleSteps()
    ensures forall c :: c in [Ear, Eyelash, Tooth] ==> RequiredStep(ScenarioCatalog, "#445566", [], AfterHead, c) == AfterHead
  {
    ScenarioCandidates();
  }

  lemma ScenarioBottomSteps()
    ensures RequiredStep(ScenarioCatalog, "#445566", [], AfterHead, Pants) == AfterBottom
    ensures RequiredStep(ScenarioCatalog, "#445566", [], AfterBottom, Skirt) == AfterBottom
  {
    ScenarioCandidates();
    assert Pants !in AfterHead.processed && Pants in Bottom;
    assert RandomRange([], 1, 1) == 0 && RandomRange([], 2, 1) == 0;
    var picked := [Matching(ScenarioCatalog, Bottom)[0]];
    assert picked == [CatalogPants];
    assert RequiredStep(ScenarioCatalog, "#445566", [], AfterHead, Pants) ==
           Selection(AfterHead.parts + picked, AfterHead.processed + {Pants, Skirt}, 3);
    assert AfterHead.processed + {Pants, Skirt} == AfterBottom.processed;
    assert Skirt in AfterBottom.processed;
  }

  lemma ScenarioPass3()
    ensures AfterRandomRequired(Some(ScenarioAI), ScenarioCatalog, []) == AfterBottom
  {
    ScenarioPass1();
    ScenarioPass2();
    ScenarioHeadStep();
    ScenarioIdleSteps();
    ScenarioBottomSteps();
    var catalog := ScenarioCatalog;
    var s1 := Selection([TripledHair, AIBody], {Hair, Body}, 0);
    assert RandomRequired[..1][..0] == [];
    assert RequiredPass(RandomRequired[..1], catalog, "#445566", [], s1) == AfterHead;
    assert RandomRequired[..2][..1] == RandomRequired[..1];
    assert RequiredPass(RandomRequired[..2], catalog, "#445566", [], s1) == AfterHead;
    assert RandomRequired[..3][..2] == RandomRequired[..2];
    assert RequiredPass(RandomRequired[..3], catalog, "#445566", [], s1) == AfterHead;
    assert RandomRequired[..4][..3] == RandomRequired[..3];
    assert RequiredPass(RandomRequired[..4], catalog, "#445566", [], s1) == AfterHead;
    assert RandomRequired[..5][..4] == RandomRequired[..4];
    assert RequiredPass(RandomRequired[..5], catalog, "#445566", [], s1) == AfterBottom;
    assert RandomRequired[..6][..5] == RandomRequired[..5];
    assert RandomRequired[..6] == RandomRequired;
  }

  /**
   * Hair and body from the AI; head, pants and shoes in the catalog; every draw 0. Hair is
   * tripled, the head takes the body colour, pants fill the bottom group, and the shoes are
   * equipped: the optional draw never chooses "nothing".
   */
  lemma ScenarioSocksStep()
    ensures OptionalStep(ScenarioCatalog, [], AfterBottom, Socks) == AfterBottom
  {
    ScenarioCandidates();
  }

  lemma ScenarioShoesFresh()
    ensures Shoes !in AfterBottom.processed
  {
    PolicyClassesDisjoint(Shoes);
  }

  lemma ScenarioShoesStep()
    ensures OptionalStep(ScenarioCatalog, [], AfterBottom, Shoes).parts ==
      [TripledHair, AIBody, RecolouredHead, CatalogPants, CatalogShoes]
  {
    ScenarioCandidates();
    ScenarioShoesFresh();
    assert RandomRange([], 3, 1) == 0;
    assert Matching(ScenarioCatalog, [Shoes])[0] == CatalogShoes;
    assert AfterBottom.parts + [CatalogShoes] == [TripledHair, AIBody, RecolouredHead, CatalogPants, CatalogShoes];
  }

  lemma HairBodyHeadPantsShoes()
    ensures Select(Some(ScenarioAI), ScenarioCatalog, []).parts ==
      [TripledHair, AIBody, RecolouredHead, CatalogPants, CatalogShoes]
  {
    ScenarioPass3();
    ScenarioSocksStep();
    ScenarioShoesStep();
    assert RandomOptional[..1] == [Socks];
    assert [Socks][..0] == [];
    assert OptionalPass([Socks], ScenarioCatalog, [], AfterBottom) == AfterBottom;
    assert RandomOptional[..2][..1] == RandomOptional[..1];
    assert RandomOptional[..2] == RandomOptional;
  }

  /** "HAIR" and "hair" differ only in case. */
  lemma UpperCaseHairSpelling()
    ensures SameUpToCase("HAIR", Hair)
  {
    assert "HAIR"[0] == 'H' && "HAIR"[1] == 'A' && "HAIR"[2] == 'I' && "HAIR"[3] == 'R';
    assert Hair[0] == 'h' && Hair[1] == 'a' && Hair[2] == 'i' && Hair[3] == 'r';
  }

  /** A part spelled "HAIR" is a hair part, and its colour is tripled. */
  lemma UpperCaseHair()
    ensures Cat(Part("HAIR", "#123456", 7)) == Hair
    ensures ExpandHair(Part("HAIR", "#123456", 7)) == Part("HAIR", "#123456,#123456,#123456", 7)
  {
    UpperCaseHairSpelling();
    CategoryIgnoresCase(Part("HAIR", "#123456", 7), Hair);
    assert "#123456" + "," + "#123456" + "," + "#123456" == "#123456,#123456,#123456";
  }

  /** Two AI hair parts are both kept: pass 1 does not deduplicate. */
  lemma TwoHairPartsBothKept(h1: Part, h2: Part, allFreeParts: seq<Part>, tape: seq<nat>)
    requires Cat(h1) == Hair && Cat(h2) == Hair
    ensures Count(Select(Some([h1, h2]), allFreeParts, tape).parts, [Hair]) == 2
  {
    PolicyShape();
    SelectionProperties.CategoryCounts(Some([h1, h2]), allFreeParts, tape, Hair);
    assert [h1, h2][1..][1..] == [];
  }
}
