# Avatar part selection

This project models the part-selection step of `AvatarPartsHandler.ProcessPartsAsync`.
Once the service has returned two lists, this step merges them into the list of parts the
avatar wears:
- the parts an AI analysis of a photo inferred (`aiParts`, possibly null);
- the catalog of free parts (`allFreeParts`).

Six static category sets drive the merge, and it runs in four ordered passes. Every pass
appends to `combinedParts` and adds the categories it finished to `processedCategories`.

1. **AI-required** (body, hair, eyebrow, eye): every AI part of such a category is kept,
   in input order. A hair colour `c` becomes `c,c,c`. The colour of the last body part is
   remembered as `bodyColor`.
2. **AI-optional** (inner, layered, inner one-piece, outer, vest, glasses, head piece):
   for each such category with AI candidates, one drawn candidate is kept.
3. **Random-required** (head, ear, eyelash, tooth, pants, skirt): for each such category
   with catalog candidates, one drawn catalog part is kept. The head part takes
   `bodyColor`. Pants and skirt form the bottom group: one part is drawn from their
   combined pool, and both categories are marked done.
4. **Random-optional** (socks, shoes): handled like pass 2, but over the catalog.

The excluded set (ring, necklace, beard, moustache) and categories that appear in no set
are never equipped.

Files:
- `categories.dfy`: the category sets, and lower-casing of category names.
- `parts.dfy`: the part record and the category filters (`Where(... ToLower() ...)`).
- `handler.dfy`: each pass twice. Once as a specification function over the prefix of its
  input already handled; once as the source's loop in a method proved equal to that
  function. `ProcessParts` chains the four methods.
- `pass_lemmas.dfy`: what a single pass appends and marks, for any list of distinct,
  unprocessed categories.
- `properties.dfy`: the guarantees about the returned list.
- `choice.dfy`: what the draws decide: each step appends the candidate at the drawn index,
  and every candidate of the returned categories is returned for some draws.
- `scenarios.dfy`: a worked example, and a check that duplicate hair parts are kept.

Modelling choices:
- The `Constants.Avatar*SubCategory` values are not part of this model. They are stood
  for by distinct lower-case names. Each set is iterated in its declaration order.
- `Random.Range(0, max)` is Unity's integer overload, which excludes `max`. It is modelled
  by a tape of raw draws: the k-th call returns `tape[k] % max`, and 0 once the tape is
  used up. So every sequence of in-range results comes from some tape. In the bottom case
  pass 3 draws twice, and the model counts both draws: the first draw is discarded, the
  second picks the bottom part.
- The source writes colours into the part objects in place (lines 101 and 155). The model
  updates the value just before it is appended. The recoloured head is never read again
  by a later pass, and a hair part never reaches pass 2, so the returned list is the same.

Two places where the code does not do what its comments or a first reading suggest; the
model follows the code:
- **The optional passes never equip "nothing".** The comments at
  AvatarPartsHandler.cs:128 and 189 announce a random choice that includes the option of
  equipping nothing. But passes 2 and 4 draw over `categoryParts.Count + 0`, so the index
  never equals the count and the "not equipped" branch (lines 130-135, 191-196) is dead.
  Every optional category with candidates therefore yields exactly one part
  (`OptionalCoverage`).
- **AI-required parts are not deduplicated.** Every AI-required part is appended, so two
  hair parts both appear (`TwoHairPartsBothKept`), and `bodyColor` is the colour of the
  last body part.

## Model

| member | source | states |
|---|---|---|
| Categories.PolicyShape | AvatarPartsHandler.cs:14-60 | each category set lists each category once; the bottom group is exactly pants and skirt, and it lies inside the random-required set |
| Categories.PolicyClassesDisjoint | AvatarPartsHandler.cs:14-66 | the AI-required, AI-optional, random-required, random-optional and excluded sets are pairwise disjoint; an excluded category belongs to no pass |
| Categories.LowerChar | AvatarPartsHandler.cs:95 | an upper-case ASCII letter maps to its own lower-case letter; every other character is kept |
| Categories.LowerEqualIffSameUpToCase | AvatarPartsHandler.cs:95 | two names lower-case to the same name exactly when they differ only in ASCII case, position by position |
| Categories.Lower | AvatarPartsHandler.cs:95 | lower-casing keeps the length and maps each character by `LowerChar` |
| Categories.LowerKeeps | AvatarPartsHandler.cs:95 | a name without upper-case letters is returned unchanged |
| Categories.LowerIdempotent | AvatarPartsHandler.cs:95 | lower-casing twice is the same as lower-casing once |
| Parts.Matching | AvatarPartsHandler.cs:122-124 | the filter keeps exactly the parts whose lower-cased category is among the given ones, and is no longer than its input |
| Parts.MatchingAppend | AvatarPartsHandler.cs:145-147 | filtering a concatenation concatenates the filtered halves |
| Parts.CountAppend | AvatarPartsHandler.cs:160-162 | the count of a category in a concatenation is the sum of the counts in the halves |
| Parts.CountSingle | AvatarPartsHandler.cs:183-185 | a single part counts one exactly when its category is among those asked for |
| Parts.CountNone | AvatarPartsHandler.cs:183-185 | a list with no part of the asked categories counts zero |
| Parts.OffersMatching | AvatarPartsHandler.cs:126 | a category has candidates (`Any()`) exactly when its filtered list is non-empty |
| Parts.CategoryIgnoresCase | AvatarPartsHandler.cs:123 | a part belongs to a lower-case category exactly when its sub-category spells that name up to ASCII case |
| PartsHandler.RandomRange | AvatarPartsHandler.cs:129 | a draw of `Random.Range(0, max)` lies in `[0, max)` |
| PartsHandler.ExpandHair | AvatarPartsHandler.cs:98-102 | a hair part's colour `c` becomes `c,c,c` and nothing else changes; any other part is unchanged |
| PartsHandler.TakeRequiredAIParts | AvatarPartsHandler.cs:91-113 | the pass-1 loop returns the kept AI-required parts, the categories it saw and the last body colour, as the pass-1 specification functions define them |
| PartsHandler.RunOptionalPass | AvatarPartsHandler.cs:116-138 | the optional-pass loop (passes 2 and 4) computes the optional-pass fold: a processed category or one without candidates is skipped; otherwise the drawn candidate is appended, one draw is used and the category is marked |
| PartsHandler.RunRequiredPass | AvatarPartsHandler.cs:141-176 | the random-required loop computes the random-required fold, including the head recolouring and the second draw over the combined bottom pool |
| PartsHandler.ProcessParts | AvatarPartsHandler.cs:85-201 | the four passes in order return the `parts` of `Select`; a null AI list skips passes 1 and 2 |
| PassLemmas.OptionalPassEffect | AvatarPartsHandler.cs:179-198 | over distinct unprocessed categories, an optional pass appends only candidates of its categories from its pool; it appends one part for each category with candidates and none for the others; it marks exactly those categories; with all draws zero it picks the first candidate |
| PassLemmas.RequiredPassEffect | AvatarPartsHandler.cs:141-176 | over distinct unprocessed categories, pass 3 appends only catalog parts (the head recoloured with `bodyColor`) of its categories; it appends one per non-bottom category with candidates and one bottom part when a bottom category has candidates; it marks both pants and skirt together |
| PassLemmas.BottomPoolNonEmpty | AvatarPartsHandler.cs:158-164 | a bottom category with candidates makes the combined bottom pool non-empty, so the bottom draw always happens |
| PassLemmas.RandomRangeOfZero | AvatarPartsHandler.cs:151 | on an all-zero tape every draw returns 0 |
| SelectionProperties.RequiredAIPartsAppend | AvatarPartsHandler.cs:93-111 | pass 1 works part by part: the parts kept from a concatenation are those kept from each half, in order |
| SelectionProperties.RequiredAIPartsCount | AvatarPartsHandler.cs:93-111 | pass 1 keeps as many parts of an AI-required category as the input has (no deduplication), and none of any other category |
| SelectionProperties.RequiredAIPartsMembers | AvatarPartsHandler.cs:96-109 | every kept part is an AI-required input part after hair expansion, and every AI-required input part is kept |
| SelectionProperties.RequiredAISeenIsRequired | AvatarPartsHandler.cs:110 | pass 1 marks only AI-required categories |
| SelectionProperties.LastBodyColorIsLast | AvatarPartsHandler.cs:88-107 | `bodyColor` is the colour of the last body part, or "" when there is none |
| SelectionProperties.Stages | AvatarPartsHandler.cs:116-198 | each later pass starts from a state in which none of its categories is processed, so the single-pass effects apply to passes 2, 3 and 4 |
| SelectionProperties.ExtendsSplit | AvatarPartsHandler.cs:109 | a state that extends another is the old list followed by the newly appended parts |
| SelectionProperties.SelectConcat | AvatarPartsHandler.cs:85-201 | the returned list is pass 1's parts followed by the parts each later pass appends |
| SelectionProperties.SelectPieces | AvatarPartsHandler.cs:85-201 | as `SelectConcat`, with each pass's parts traced to their source: AI-optional parts from the AI list; random-required parts from the catalog (the head recoloured); random-optional parts from the catalog |
| SelectionProperties.CategoryCounts | AvatarPartsHandler.cs:93-198 | per category, the returned list holds: every AI-required input part; one part per optional or non-bottom random-required category with candidates; none of a category outside the four sets |
| SelectionProperties.OnlyManagedCategories | AvatarPartsHandler.cs:14-66 | every returned part has a category of one of the four policy sets, and none is excluded |
| SelectionProperties.AIRequiredPartsFirst | AvatarPartsHandler.cs:93-111 | pass 1's parts open the returned list in input order, and no later part is of an AI-required category |
| SelectionProperties.HairColourExpanded | AvatarPartsHandler.cs:98-102 | each AI hair part is returned with its colour tripled; other AI-required parts are returned unchanged; every returned hair part is such a tripled AI hair part |
| SelectionProperties.BodyColorOnHead | AvatarPartsHandler.cs:153-156 | exactly one head part is returned when the catalog has one (none otherwise); it is a catalog head part whose colour is replaced by the last AI body colour |
| SelectionProperties.BottomExclusive | AvatarPartsHandler.cs:158-171 | the returned list holds exactly one pants-or-skirt part when the catalog has any (none otherwise), and it comes from the catalog; after pass 3, pants is processed exactly when skirt is |
| SelectionProperties.RandomRequiredCoverage | AvatarPartsHandler.cs:141-175 | each non-bottom random-required category yields one catalog part when it has candidates and none otherwise |
| SelectionProperties.OptionalCoverage | AvatarPartsHandler.cs:179-198 | each AI-optional category with AI candidates, and each random-optional category with catalog candidates, yields exactly one of its own candidates; the others yield none |
| SelectionProperties.FirstCandidateOnZeroDraws | AvatarPartsHandler.cs:190-195 | when every draw is 0, each optional category with candidates yields its first candidate |
| SelectionProperties.NoAIParts | AvatarPartsHandler.cs:88-116 | with a null AI list only catalog parts are returned, none of an AI category, and the head is coloured "" |
| SelectionProperties.AtMostOnePerCategory | AvatarPartsHandler.cs:93-198 | when the AI list has at most one part per AI-required category, no category is filled twice; the bottom group never holds two parts |
| SelectionProperties.BottomSplit | AvatarPartsHandler.cs:160-162 | the bottom-pool count is the pants count plus the skirt count |
| DrawChoice.OptionalStepTakesDrawn | AvatarPartsHandler.cs:129-136 | an optional step on an unmarked category appends the candidate whose index was drawn, uses one draw and marks the category |
| DrawChoice.RequiredStepTakesDrawn | AvatarPartsHandler.cs:151-175 | a non-bottom step of pass 3 appends the catalog part whose index was drawn, a head part with the body colour, and marks the category |
| DrawChoice.RequiredStepTakesBottom | AvatarPartsHandler.cs:158-171 | a bottom step appends the part of the combined pants-and-skirt pool whose index the second draw gave, for either bottom category, uses two draws and marks both |
| DrawChoice.OptionalPassGrows | AvatarPartsHandler.cs:179-198 | an optional pass only appends parts, uses draws and marks categories: it extends every state it passes through |
| DrawChoice.RequiredPassGrows | AvatarPartsHandler.cs:141-176 | pass 3 only appends parts, uses draws and marks categories: it extends every state it passes through |
| DrawChoice.OptionalPassZeroBelow | AvatarPartsHandler.cs:129 | an optional pass reads only the draws it uses |
| DrawChoice.RequiredPassZeroBelow | AvatarPartsHandler.cs:151-166 | pass 3 reads only the draws it uses, both draws of the bottom case included |
| DrawChoice.OptionalPassReaches | AvatarPartsHandler.cs:118-137 | within an optional pass, any candidate of an unmarked category is appended when its draw gives its index |
| DrawChoice.RequiredPassReaches | AvatarPartsHandler.cs:141-175 | within pass 3, any catalog part of an unmarked non-bottom category is appended (a head recoloured) when its draw gives its index |
| DrawChoice.RequiredPassReachesBottom | AvatarPartsHandler.cs:158-171 | within pass 3, any part of the combined bottom pool is appended when the second bottom draw gives its index |
| DrawChoice.AIOptionalEveryCandidate | AvatarPartsHandler.cs:116-138 | every AI part of an AI-optional category is in the returned list for some draws |
| DrawChoice.RandomRequiredEveryCandidate | AvatarPartsHandler.cs:141-175 | every catalog part of a non-bottom random-required category is in the returned list for some draws, a head part with the body colour |
| DrawChoice.BottomEveryCandidate | AvatarPartsHandler.cs:158-171 | every catalog pants or skirt part is in the returned list for some draws: a skirt can win while pants is handled |
| DrawChoice.RandomOptionalEveryCandidate | AvatarPartsHandler.cs:179-198 | every catalog part of a random-optional category is in the returned list for some draws |
| SelectionProperties.Unmarked | AvatarPartsHandler.cs:116-198 | no pass finds one of its own categories marked by the passes before it |
| Scenarios.OptionalPassIdle | AvatarPartsHandler.cs:187 | an optional pass over categories without candidates changes nothing |
| Scenarios.ScenarioPass1 | AvatarPartsHandler.cs:93-111 | for a hair and a body AI part, pass 1 keeps the tripled hair and the body, and takes the body colour |
| Scenarios.ScenarioPass3 | AvatarPartsHandler.cs:141-176 | with a head, a pants and a shoes part in the catalog, pass 3 appends the head recoloured and the pants, uses three draws and marks both bottom categories |
| Scenarios.HairBodyHeadPantsShoes | AvatarPartsHandler.cs:85-201 | the example returns tripled hair, body, recoloured head, pants and shoes, in that order |
| Scenarios.UpperCaseHair | AvatarPartsHandler.cs:95-101 | a part spelled "HAIR" is sorted as hair and has its colour tripled |
| Scenarios.TwoHairPartsBothKept | AvatarPartsHandler.cs:109 | two AI hair parts both appear in the returned list |

## Left out

- The network calls, JSON (de)serialisation and logging around the selection
  (AvatarPartsHandler.cs:73-83 and 200) are I/O. The model takes the two part lists as
  inputs, and returns the list instead of serialising it.
- The early `return null` on an empty AI response (line 80) belongs to that I/O. The model
  only covers the null AI list reaching line 91.
- `Random` is not modelled as a generator. It is the tape described above, so no claim is
  made about the distribution of draws.
- Null list elements and null `SubCategory` values would throw in the source. Parts in the
  model always have a category string.
- A null `Color` is not modelled: a part's colour is always a string. In the source a null
  hair colour becomes `",,"` (line 101), and a null body colour reaches the head as null
  (lines 106 and 155).
- A null `allFreeParts` is not modelled: the catalog is always a list. The source accepts
  a JSON `null` catalog, since it is not an empty string (line 74), and its `Where` at
  line 145 then throws.
- `ToLower` is culture-sensitive in the source. The model lower-cases ASCII letters only.
- The in-place colour writes and the aliasing between the catalog list and the returned
  list are not modelled; the returned list is the same, as explained above.
- The actual values of the `Constants.Avatar*SubCategory` names are not part of this
  model. The model assumes they are distinct lower-case names.
- AIAvatarCustomization.cs and CameraCapture.cs are not part of this model. They hold
  permission checks, upload, UI flow, camera handling and floating-point layout.
