/**
 * The selection part of `AvatarPartsHandler.ProcessPartsAsync`: four ordered passes that
 * merge AI-inferred parts with the catalog of free parts.
 *
 * Each pass is given twice: as a function over the prefix of its input already handled
 * (the specification), and as a method with the source's loop, proved equal to it.
 *
 * `Random.Range(0, max)` (integer overload, `max` excluded) is modelled by a tape of raw
 * draws: the k-th call of the invocation returns `tape[k] % max`, and 0 once the tape is
 * used up. Every sequence of in-range results arises from some tape.
 */
module PartsHandler {
  import opened Wrappers
  import opened Categories
  import opened Parts

  /** The selection state: the combined list, the processed categories, the draws used so far. */
  datatype Selection = Selection(parts: seq<Part>, processed: set<string>, calls: nat)

  /** The `call`-th `Random.Range(0, max)` of an invocation. */
  function RandomRange(tape: seq<nat>, call: nat, max: nat): (r: nat)
    requires 0 < max
    ensures r < max
  {
    if call < |tape| then tape[call] % max else 0
  }

  // ---------------------------------------------------------------------------------
  // Pass 1: AI-required parts, in input order.

  /** A hair part's single colour `c` becomes `c,c,c`; every other part is unchanged. */
  function ExpandHair(p: Part): (r: Part)
    ensures r.subCategory == p.subCategory && r.id == p.id
    ensures Cat(p) == Hair ==> r.color == p.color + "," + p.color + "," + p.color
    ensures Cat(p) != Hair ==> r == p
  {
    if Cat(p) == Hair then
      var hex := p.color;
      p.(color := hex + "," + hex + "," + hex)
    else p
  }

  /** The parts pass 1 appends after reading `ai`. */
  function RequiredAIParts(ai: seq<Part>): seq<Part>
  {
    if ai == [] then []
    else
      var aiPart := ai[|ai| - 1];
      RequiredAIParts(ai[..|ai| - 1]) + (if Cat(aiPart) in AIRequired then [ExpandHair(aiPart)] else [])
  }

  /** The categories pass 1 marks processed after reading `ai`. */
  function RequiredAISeen(ai: seq<Part>): set<string>
  {
    if ai == [] then {}
    else
      var category := Cat(ai[|ai| - 1]);
      RequiredAISeen(ai[..|ai| - 1]) + (if category in AIRequired then {category} else {})
  }

  /** `bodyColor` after pass 1 has read `ai`. */
  function LastBodyColor(ai: seq<Part>): string
  {
    if ai == [] then ""
    else if Cat(ai[|ai| - 1]) == Body then ai[|ai| - 1].color
    else LastBodyColor(ai[..|ai| - 1])
  }

  // ---------------------------------------------------------------------------------
  // Passes 2 and 4: one draw among the candidates per optional category.

  /** One iteration of an optional pass over category `category`, candidates from `pool`. */
  function OptionalStep(pool: seq<Part>, tape: seq<nat>, st: Selection, category: string): Selection
  {
    if category in st.processed then st
    else
      var categoryParts := Matching(pool, [category]);
      if |categoryParts| == 0 then st
      else
        var index := RandomRange(tape, st.calls, |categoryParts| + 0);
        var isNull := index == |categoryParts|;
        Selection(st.parts + (if isNull then [] else [categoryParts[index]]),
                  st.processed + {category}, st.calls + 1)
  }

  /** An optional pass after handling `categories`. */
  function OptionalPass(categories: seq<string>, pool: seq<Part>, tape: seq<nat>, st: Selection): Selection
  {
    if categories == [] then st
    else
      OptionalStep(pool, tape, OptionalPass(categories[..|categories| - 1], pool, tape, st),
                   categories[|categories| - 1])
  }

  // ---------------------------------------------------------------------------------
  // Pass 3: one catalog part per random-required category; the bottom group is drawn once.

  /** One iteration of the random-required pass over category `category`. */
  function RequiredStep(catalog: seq<Part>, bodyColor: string, tape: seq<nat>, st: Selection, category: string): Selection
  {
    if category in st.processed then st
    else
      var categoryParts := Matching(catalog, [category]);
      if |categoryParts| == 0 then st
      else
        var randomIndex := RandomRange(tape, st.calls, |categoryParts|);
        var chosen := if category == Head then categoryParts[randomIndex].(color := bodyColor)
                      else categoryParts[randomIndex];
        if category in Bottom then
          var bottomParts := Matching(catalog, Bottom);
          var picked := if |bottomParts| > 0 then [bottomParts[RandomRange(tape, st.calls + 1, |bottomParts|)]] else [];
          var draws := if |bottomParts| > 0 then 2 else 1;
          Selection(st.parts + picked, st.processed + {Pants, Skirt}, st.calls + draws)
        else
          Selection(st.parts + [chosen], st.processed + {category}, st.calls + 1)
  }

  /** The random-required pass after handling `categories`. */
  function RequiredPass(categories: seq<string>, catalog: seq<Part>, bodyColor: string, tape: seq<nat>, st: Selection): Selection
  {
    if categories == [] then st
    else
      RequiredStep(catalog, bodyColor, tape, RequiredPass(categories[..|categories| - 1], catalog, bodyColor, tape, st),
                   categories[|categories| - 1])
  }

  // ---------------------------------------------------------------------------------
  // The four passes in order.

  /** `bodyColor` once the AI passes are done: "" when there is no AI list. */
  function BodyColor(aiParts: Option<seq<Part>>): string {
    if aiParts.Some? then LastBodyColor(aiParts.value) else ""
  }

  /** The AI-required parts that open the result ([] when there is no AI list). */
  function RequiredFromAI(aiParts: Option<seq<Part>>): seq<Part> {
    if aiParts.Some? then RequiredAIParts(aiParts.value) else []
  }

  /** The state after pass 1. */
  function AfterRequiredAI(aiParts: Option<seq<Part>>): Selection {
    if aiParts.Some? then Selection(RequiredAIParts(aiParts.value), RequiredAISeen(aiParts.value), 0)
    else Selection([], {}, 0)
  }

  /** The state after pass 2. */
  function AfterOptionalAI(aiParts: Option<seq<Part>>, tape: seq<nat>): Selection {
    if aiParts.Some? then OptionalPass(AIOptional, aiParts.value, tape, AfterRequiredAI(aiParts))
    else AfterRequiredAI(aiParts)
  }

  /** The state after pass 3. */
  function AfterRandomRequired(aiParts: Option<seq<Part>>, allFreeParts: seq<Part>, tape: seq<nat>): Selection {
    RequiredPass(RandomRequired, allFreeParts, BodyColor(aiParts), tape, AfterOptionalAI(aiParts, tape))
  }

  /** The state after pass 4; its `parts` is what `ProcessPartsAsync` returns. */
  function Select(aiParts: Option<seq<Part>>, allFreeParts: seq<Part>, tape: seq<nat>): Selection {
    OptionalPass(RandomOptional, allFreeParts, tape, AfterRandomRequired(aiParts, allFreeParts, tape))
  }

  // ---------------------------------------------------------------------------------
  // The imperative passes.

  /** Pass 1: walk the AI parts, keep the AI-required ones, expand hair colour, remember body colour. */
  method TakeRequiredAIParts(aiParts: seq<Part>) returns (combinedParts: seq<Part>, processedCategories: set<string>, bodyColor: string)
    ensures combinedParts == RequiredAIParts(aiParts)
    ensures processedCategories == RequiredAISeen(aiParts)
    ensures bodyColor == LastBodyColor(aiParts)
  {
    combinedParts, processedCategories, bodyColor := [], {}, "";
    for i := 0 to |aiParts|
      invariant combinedParts == RequiredAIParts(aiParts[..i])
      invariant processedCategories == RequiredAISeen(aiParts[..i])
      invariant bodyColor == LastBodyColor(aiParts[..i])
    {
      assert aiParts[..i + 1][..i] == aiParts[..i];
      var aiPart := aiParts[i];
      var category := Lower(aiPart.subCategory);
      if category in AIRequired {
        if category == Hair {
          var hex := aiPart.color;
          aiPart := aiPart.(color := hex + "," + hex + "," + hex);
        }
        if category == Body {
          bodyColor := aiPart.color;
        }
        combinedParts := combinedParts + [aiPart];
        processedCategories := processedCategories + {category};
      }
    }
    assert aiParts[..|aiParts|] == aiParts;
  }

  /** Passes 2 and 4: for each unprocessed category with candidates in `pool`, equip the drawn one. */
  method RunOptionalPass(categories: seq<string>, pool: seq<Part>, tape: seq<nat>, st: Selection) returns (r: Selection)
    ensures r == OptionalPass(categories, pool, tape, st)
  {
    var combinedParts, processedCategories, calls := st.parts, st.processed, st.calls;
    for i := 0 to |categories|
      invariant Selection(combinedParts, processedCategories, calls) == OptionalPass(categories[..i], pool, tape, st)
    {
      assert categories[..i + 1][..i] == categories[..i];
      var category := categories[i];
      if category in processedCategories {
        continue;
      }
      var categoryParts := Matching(pool, [category]);
      if |categoryParts| == 0 {
        continue;
      }
      var index := RandomRange(tape, calls, |categoryParts| + 0);
      calls := calls + 1;
      var isNull := index == |categoryParts|;
      if !isNull {
        combinedParts := combinedParts + [categoryParts[index]];
      }
      processedCategories := processedCategories + {category};
    }
    assert categories[..|categories|] == categories;
    r := Selection(combinedParts, processedCategories, calls);
  }

  /** Pass 3: one catalog part per unprocessed random-required category; bottom drawn over both. */
  method RunRequiredPass(categories: seq<string>, catalog: seq<Part>, bodyColor: string, tape: seq<nat>, st: Selection) returns (r: Selection)
    ensures r == RequiredPass(categories, catalog, bodyColor, tape, st)
  {
    var combinedParts, processedCategories, calls := st.parts, st.processed, st.calls;
    for i := 0 to |categories|
      invariant Selection(combinedParts, processedCategories, calls) == RequiredPass(categories[..i], catalog, bodyColor, tape, st)
    {
      assert categories[..i + 1][..i] == categories[..i];
      var category := categories[i];
      if category in processedCategories {
        continue;
      }
      var categoryParts := Matching(catalog, [category]);
      if |categoryParts| == 0 {
        continue;
      }
      var randomIndex := RandomRange(tape, calls, |categoryParts|);
      calls := calls + 1;
      if category == Head {
        categoryParts := categoryParts[randomIndex := categoryParts[randomIndex].(color := bodyColor)];
      }
      if category in Bottom {
        var bottomParts := Matching(catalog, Bottom);
        if |bottomParts| > 0 {
          var bottomIndex := RandomRange(tape, calls, |bottomParts|);
          calls := calls + 1;
          combinedParts := combinedParts + [bottomParts[bottomIndex]];
        }
        processedCategories := processedCategories + {Pants};
        processedCategories := processedCategories + {Skirt};
        continue;
      }
      combinedParts := combinedParts + [categoryParts[randomIndex]];
      processedCategories := processedCategories + {category};
    }
    assert categories[..|categories|] == categories;
    r := Selection(combinedParts, processedCategories, calls);
  }

  /** `ProcessPartsAsync` after both lists are fetched: the four passes in order. */
  method ProcessParts(aiParts: Option<seq<Part>>, allFreeParts: seq<Part>, tape: seq<nat>) returns (combinedParts: seq<Part>)
    ensures combinedParts == Select(aiParts, allFreeParts, tape).parts
  {
    var st := Selection([], {}, 0);
    var bodyColor := "";
    if aiParts.Some? {
      var required, seen;
      required, seen, bodyColor := TakeRequiredAIParts(aiParts.value);
      st := Selection(required, seen, 0);
    }
    if aiParts.Some? {
      st := RunOptionalPass(AIOptional, aiParts.value, tape, st);
    }
    st := RunRequiredPass(RandomRequired, allFreeParts, bodyColor, tape, st);
    st := RunOptionalPass(RandomOptional, allFreeParts, tape, st);
    combinedParts := st.parts;
  }
}
