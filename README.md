# Eldenpedia: attack rating, catalog scripts and level guide, in Dafny

This project models the logic core of Eldenpedia, a fan-made reference site for Elden Ring. It has four parts.

- **The Attack Rating calculator** (`src/lib/calculator.ts`). This is the grade-to-coefficient table (`SCALING_COEFFICIENTS`), the four-segment stat saturation curve (`getStatSaturation`) and `calculateAR`.
  - `calculateAR` adds up the five elemental damages.
  - It accumulates a scaling bonus, entry by entry, from the letter grades and the player's stats.
  - If any requirement is unmet, it returns `floor(base * 0.6)`. Otherwise it returns `floor(base + bonus)`.
  - The calculator is module `Calculator`. `CalculateAR` is a method with the source's two loops and its early return. It is proved equal to the specification function `AttackRating`, and the properties are proved about that function.
- **`transformWeapon`** (`scripts/fetch-weapons.mjs`). It maps one weapon record of the public game API to the catalog's `Weapon` record through `findStat` and `findScaling`. This is module `FetchWeapons`.
- **The spreadsheet merge** (`scripts/merge-csv-data.mjs`).
  - `normalize` lower-cases a name, trims it and keeps only `a-z0-9`.
  - `num` reads a cell as a number.
  - The merge loop updates the first catalog entry whose normalised name matches a row, or appends a new entry. It counts both cases.
  - This is module `MergeCsv`. The loop is the method `Merge`, proved against the specification function `MergeAll`.
- **The level guide** (`src/app/guide/page.tsx`). It covers the under-, over- and perfectly-levelled predicates for a zone, the rule that folds away zones far behind the player, and the level input `parseInt(value) || 1`. This is module `LevelGuide`. The zone table of `src/data/zones.ts` appears as the constant `Zones`.

Shared modules:
- `WeaponTypes` holds the weapon record of `src/types/weapon.ts`.
- `JsValues` holds the JavaScript value semantics the code relies on:
  - `undefined`;
  - NaN, and `||` defaulting on falsy numbers;
  - `findIndex`;
  - `Number(string)` on decimal input, and `parseInt` on decimal and `0x` hexadecimal input.
- `JsText` holds ASCII lower-casing, trimming over the JavaScript white-space set, and the `[^a-z0-9]` filter.

Numbers are exact `real`s. `Math.floor` is `.Floor`.

The calculator expects five numeric damage values and a known grade on every scaling entry, and expresses this as the precondition `Calculable`. In the code, a grade missing from `SCALING_COEFFICIENTS` makes the bonus NaN, so the result is NaN only when every requirement holds. With an unmet requirement the code returns `floor(base * 0.6)` (`src/lib/calculator.ts:70-71`), a number, before the bonus is used.

Stats are a `map<string, int>` keyed by the lower-cased attribute name (`"str"`, `"dex"`, …). A missing key reads as 0.

`calculateAR` compares every requirement entry, those of 0 included (`src/lib/calculator.ts:63-68`), so a negative stat fails a requirement of 0 (`Calculator.ZeroRequirements`). A NaN requirement is never unmet, because every comparison with NaN is false.

## Model

| member | source | states |
|---|---|---|
| Calculator.Coefficient | src/lib/calculator.ts:5-13 | every coefficient lies in [0, 1.5] and is 0 exactly for the "-" grade |
| Calculator.CoefficientsDecrease | src/lib/calculator.ts:5-13 | the table is S 1.5, A 1.25, B 1.0, C 0.75, D 0.5, E 0.25, "-" 0; a grade earlier in the table has a strictly larger coefficient, and conversely |
| Calculator.Saturation | src/lib/calculator.ts:20-29 | saturation lies in [0, 1]; it is 0 for stats at or below 0 and 1 from 99 on |
| Calculator.SaturationBreakpoints | src/lib/calculator.ts:21-28 | the curve passes through 0 at 0, 0.25 at 20, 0.75 at 50, 0.95 at 80 and 1 at 99; any stat above 99 counts as 99 |
| Calculator.SaturationMonotone | src/lib/calculator.ts:25-28 | the segments meet, so the curve never decreases, and it strictly increases between 0 and 99 |
| Calculator.EntryWeight | src/lib/calculator.ts:42-57 | one entry's coefficient times saturation lies in [0, 1.5] |
| Calculator.AccumulateStep | src/lib/calculator.ts:41-58 | a "-" entry leaves the bonus unchanged; any other entry adds base × coefficient × saturation of its stat |
| Calculator.RequirementStep | src/lib/calculator.ts:62-68 | after checking one more requirement the flag holds exactly when it held before and that requirement is met |
| Calculator.CalculateAR | src/lib/calculator.ts:31-77 | the loops over scaling entries and requirements return exactly `AttackRating`: floor(base × 0.6) when a requirement is unmet, otherwise floor(base + bonus) |
| Calculator.AttackRating | src/lib/calculator.ts:31-77 | with non-negative damage the rating is at least 0, and when every requirement holds it is at least the floored base damage |
| Calculator.BonusNonNegative | src/lib/calculator.ts:39-58 | with non-negative base damage the accumulated scaling bonus is never negative |
| Calculator.PenaltyRule | src/lib/calculator.ts:62-72 | one unmet requirement gives floor(base × 0.6), and replacing the scaling entries changes nothing |
| Calculator.ScalingBonusOrderFree | src/lib/calculator.ts:41-58 | any reordering of the scaling entries (equal multisets) leaves the bonus unchanged |
| Calculator.WeightsPermutation | src/lib/calculator.ts:41-58 | scaling lists that are permutations of each other have the same summed weights |
| Calculator.RatingOrderFree | src/lib/calculator.ts:31-77 | reordering a weapon's scaling entries keeps it rateable and leaves its rating unchanged |
| Calculator.NoScalingAddsNothing | src/lib/calculator.ts:42 | entries all graded "-" contribute a bonus of 0 |
| Calculator.AllDashRating | src/lib/calculator.ts:41-76 | a weapon graded "-" everywhere whose requirements hold rates floor(base) |
| Calculator.WeightsReadOnlyStatKeys | src/lib/calculator.ts:45-46 | stat maps that agree on the five lower-cased attribute keys give every entry the same weight |
| Calculator.RatingReadsOnlyStatKeys | src/lib/calculator.ts:45-65 | stat maps that agree on the five keys give the same rating |
| Calculator.MissingStatIsZero | src/lib/calculator.ts:45-65 | a missing stat rates like a stat of 0, and a key that is no attribute's key, such as "strength", changes nothing |
| Calculator.CriticalIgnored | src/lib/calculator.ts:36 | the critical value never affects the rating |
| Calculator.RatingBounds | src/lib/calculator.ts:36-76 | with non-negative damage the rating lies between 0 and floor(base + base × 1.5 × number of entries) |
| Calculator.ZeroDamageRatesZero | src/lib/calculator.ts:36-76 | damages summing to 0 rate 0 whatever the stats and requirements |
| Calculator.EntryWeightMonotone | src/lib/calculator.ts:46-57 | raising stats never lowers an entry's weight |
| Calculator.RequirementsMonotone | src/lib/calculator.ts:62-68 | requirements met by some stats stay met by stats at least as high |
| Calculator.RatingMonotone | src/lib/calculator.ts:20-76 | with non-negative damage, stats at least as high on every key never give a lower rating, including when they clear a requirement that was unmet |
| Calculator.RaisingOneStat | src/lib/calculator.ts:20-76 | raising a single stat never lowers the rating |
| Calculator.ZeroRequirements | src/lib/calculator.ts:63-68 | requirements of 0 are met by stats of at least 0; a negative stat fails its requirement of 0 |
| Calculator.ExampleRatings | src/lib/calculator.ts:31-77 | 100 physical damage, grade B in Str and 12 Str required rate 158 at Str 40 and 60 at Str 5 |
| WeaponTypes.ParseTierRoundTrip | src/types/weapon.ts:3 | every grade label parses back to its grade, and a string parses to a grade only if it is that grade's label |
| WeaponTypes.StatKeyIsLowerCased | src/lib/calculator.ts:45 | the stat key is the lower-cased attribute name |
| WeaponTypes.StatKeyInjective | src/lib/calculator.ts:64 | two attributes share a stat key exactly when they are the same attribute |
| JsValues.OrDefault | scripts/fetch-weapons.mjs:69-74 | defaulting a number `n` to `d` with the or-operator always gives a number: `n` when truthy, otherwise `d` |
| JsValues.FindIndex | scripts/merge-csv-data.mjs:44 | the result is -1 exactly when no element matches; otherwise it is the first matching index |
| JsValues.ToNumber | scripts/merge-csv-data.mjs:52 | `Number` of empty or all-white-space text is 0, and a negative result comes only from text whose trimmed form starts with "-" |
| JsValues.ParseInt | src/app/guide/page.tsx:35 | `parseInt` reads a number only when, after leading white space, the text starts with a digit or a sign, and a negative one only after "-"; after `0x` it reads hexadecimal |
| JsValues.ToNumberRoundTrip | scripts/merge-csv-data.mjs:52 | `Number` reads a decimal spelling of `n` back as `n` |
| JsValues.UnsignedDigits | scripts/merge-csv-data.mjs:52 | a non-empty run of decimal digits is read by `Number` as the integer it spells |
| JsValues.ParseIntRoundTrip | src/app/guide/page.tsx:35 | `parseInt` reads the decimal spelling of any integer, negative ones included, back as that integer |
| JsValues.ParseIntIgnoresTail | src/app/guide/page.tsx:35 | `parseInt` stops at the first non-digit, except that a lone 0 followed by `x` or `X` starts a hexadecimal number |
| JsValues.ParseIntOfHex | src/app/guide/page.tsx:35 | after `0x` or `0X`, `parseInt` reads the hexadecimal digits up to the first character that is not one |
| JsValues.ParseIntEmptyHex | src/app/guide/page.tsx:35 | `0x` followed by no hexadecimal digit is NaN, not 0 |
| JsValues.ParseIntOfLetter | src/app/guide/page.tsx:35 | text starting with an ASCII letter is NaN for `parseInt` |
| JsValues.LetterIsNaN | scripts/merge-csv-data.mjs:52 | `Number` of text whose trimmed form starts with a letter, other than "Infinity", is NaN |
| JsText.TrimIsInvisible | scripts/merge-csv-data.mjs:10 | trimming before the alphanumeric filter changes nothing |
| JsText.KeepLowerAlnumIdempotent | scripts/merge-csv-data.mjs:10 | filtering to `a-z0-9` twice is filtering once |
| JsText.LowerAscii | scripts/merge-csv-data.mjs:10 | lower-casing keeps the length and maps each character on its own: A-Z to a-z, everything else unchanged |
| JsText.KeepLowerAlnum | scripts/merge-csv-data.mjs:10 | the `[^a-z0-9]` filter never lengthens the text and leaves only `a-z` and `0-9` |
| JsText.Trim | scripts/merge-csv-data.mjs:10 | `trim` never lengthens the text, and a non-empty result starts and ends with a non-space character |
| JsText.TrimEmpties | scripts/merge-csv-data.mjs:10 | `trim` gives the empty string exactly when the text is all white space, and leaves text without white space unchanged |
| FetchWeapons.Find | scripts/fetch-weapons.mjs:49 | `arr?.find` gives an entry with the name, and nothing exactly when the array is missing or has no such entry |
| FetchWeapons.FindFirstMatch | scripts/fetch-weapons.mjs:49 | `find` returns the first entry carrying the name |
| FetchWeapons.FindStat | scripts/fetch-weapons.mjs:48-51 | `findStat` gives 0 when the array is missing or has no entry with the name, and otherwise the amount of some entry with that name |
| FetchWeapons.FindScaling | scripts/fetch-weapons.mjs:54-57 | `findScaling` gives "-" when the array is missing or has no entry with the name, and otherwise the grade of some entry with that name |
| FetchWeapons.FindStatLookup | scripts/fetch-weapons.mjs:48-51 | `findStat` gives the amount of the first entry with the name, and 0 without one |
| FetchWeapons.FindScalingLookup | scripts/fetch-weapons.mjs:54-57 | `findScaling` gives the unchecked grade of the first entry with the name, and "-" without one |
| FetchWeapons.StatOrDefault | scripts/fetch-weapons.mjs:69-74 | the looked-up amount, converted and defaulted to `d`, is always a number; it is `d` when the entry is absent, zero or unreadable, and the entry's value otherwise |
| FetchWeapons.TransformWeapon | scripts/fetch-weapons.mjs:46-96 | every damage field and every requirement value of a transformed record is a number; there are five scaling and five requirement entries, both with attribute `i` at position `i` |
| FetchWeapons.TransformShape | scripts/fetch-weapons.mjs:77-91 | each scaling and requirement entry is looked up under its own attribute's name: the grade is `findScaling` of that name and the value `findStat` of it, defaulted to 0 |
| FetchWeapons.UnlistedScalingIsDash | scripts/fetch-weapons.mjs:56 | an attribute missing from `scalesWith` is graded "-" |
| FetchWeapons.RequirementValues | scripts/fetch-weapons.mjs:85-91 | every requirement value is a number; it is 0 when the attribute is unlisted, zero or unreadable |
| FetchWeapons.DamageFields | scripts/fetch-weapons.mjs:68-75 | the damages come from Phy, Mag, Fire, Ligt and Holy with default 0; critical comes from Crit with default 100 |
| FetchWeapons.CopiedFields | scripts/fetch-weapons.mjs:60-95 | id, name, category, weight, image and description are copied unchanged, and `isSomber` is false |
| FetchWeapons.TransformCalculable | scripts/fetch-weapons.mjs:77-83 | a transformed record can be rated exactly when every grade found in `scalesWith` is a known one |
| FetchWeapons.UnknownGradePassesThrough | scripts/fetch-weapons.mjs:54-57 | an unknown grade such as "Z" is passed through, and the record then cannot be rated |
| FetchWeapons.DashGradesKnown | scripts/fetch-weapons.mjs:56 | the default grade "-" is a known grade |
| FetchWeapons.BareRecordEntries | scripts/fetch-weapons.mjs:54-91 | without `scalesWith` every grade is "-"; without `requiredAttributes` every requirement is 0 |
| FetchWeapons.BareRecordRating | scripts/fetch-weapons.mjs:46-96 | a record without `scalesWith` and `requiredAttributes`, rated with stats of at least 0, rates its floored base damage |
| MergeCsv.Normalize | scripts/merge-csv-data.mjs:10 | `undefined` stays `undefined`; a normalised name holds only `a-z` and `0-9` |
| MergeCsv.NormalizeIsLowerFilter | scripts/merge-csv-data.mjs:10 | normalising is lower-casing followed by the `a-z0-9` filter; the trim has no effect |
| MergeCsv.NormalizeIdempotent | scripts/merge-csv-data.mjs:10 | normalising twice is normalising once |
| MergeCsv.NormalizeCaseBlind | scripts/merge-csv-data.mjs:10 | names that differ only in letter case normalise alike |
| MergeCsv.NormalizeDropsPunctuation | scripts/merge-csv-data.mjs:10 | removing a space or a punctuation character does not change the normalised name |
| MergeCsv.FindMatch | scripts/merge-csv-data.mjs:44 | the match index is -1 or a valid catalog index |
| MergeCsv.NumCellValues | scripts/merge-csv-data.mjs:50-53 | a missing cell, an empty cell and "-" give 0; a natural-number cell gives its value |
| MergeCsv.NumCell | scripts/merge-csv-data.mjs:50-53 | a missing cell and "-" give 0; any other cell gives `Number` of its text |
| MergeCsv.RowDamage | scripts/merge-csv-data.mjs:56-64 | the critical value built from a row is always a non-zero number |
| MergeCsv.RowScalingEntries | scripts/merge-csv-data.mjs:65-71 | five scaling entries, Str to Arc, each grade taken from the column of that name or "-" when missing or empty |
| MergeCsv.RowCritical | scripts/merge-csv-data.mjs:63 | critical is always a number; it is 100 when the Cri cell is missing, empty, "-", zero or unreadable, and the cell's value otherwise |
| MergeCsv.UpdateWeapon | scripts/merge-csv-data.mjs:86-89 | an update keeps the entry's id, name, category, image, description and requirements, so it matches a row exactly when it matched before |
| MergeCsv.NewWeapon | scripts/merge-csv-data.mjs:95-106 | a new entry matches the row it came from and has no requirements |
| MergeCsv.UpdateOverwritesStats | scripts/merge-csv-data.mjs:83-92 | an update takes damage, scaling, weight and the somber flag from the row; it keeps id, name, category, image, description and requirements; applying it twice is applying it once |
| MergeCsv.NewWeaponFields | scripts/merge-csv-data.mjs:93-109 | an appended entry has the normalised name as id, the row's name, no requirements, an empty image and the fixed description, and it matches its own row |
| MergeCsv.MergeRow | scripts/merge-csv-data.mjs:44-109 | one row lengthens the catalog by one exactly when no entry matches it, and every existing entry keeps its identity |
| MergeCsv.MergeAll | scripts/merge-csv-data.mjs:39-110 | merging rows grows the catalog by at most the number of rows, and every entry the catalog started with keeps its id, name, category, image, description and requirements |
| MergeCsv.MergeRowUpdatesFirstMatch | scripts/merge-csv-data.mjs:44-92 | a row updates the first entry with its normalised name and leaves the rest of the catalog unchanged |
| MergeCsv.MergeRowAppends | scripts/merge-csv-data.mjs:93-109 | a row that matches no entry is appended at the end |
| MergeCsv.MergeRowFrame | scripts/merge-csv-data.mjs:83-109 | every entry other than the matched one is left unchanged by a row |
| MergeCsv.MatchAfterRow | scripts/merge-csv-data.mjs:44-109 | after a row is merged, the catalog holds an entry matching it |
| MergeCsv.MatchPersists | scripts/merge-csv-data.mjs:39-110 | once a row is merged, every later catalog state still holds an entry matching it |
| MergeCsv.LaterSameNameUpdates | scripts/merge-csv-data.mjs:39-110 | a row whose normalised name equals that of any earlier row finds a match, so it updates and appends nothing |
| MergeCsv.NoDuplicateAppend | scripts/merge-csv-data.mjs:39-110 | any number of rows sharing one normalised name append at most one entry between them |
| MergeCsv.MergeLength | scripts/merge-csv-data.mjs:39-110 | the catalog grows by exactly the number of appended rows, which is at most the number of rows |
| MergeCsv.Merge | scripts/merge-csv-data.mjs:35-113 | the loop computes `MergeAll` and `NewCount`; updated plus new equals the number of rows, and the catalog grows by the new count |
| LevelGuide.FirstZoneAbove | src/app/guide/page.tsx:72 | `findIndex(z => z.minLevel > level)` is -1 exactly when no zone lies ahead; otherwise it is the first zone ahead |
| LevelGuide.IsUnderLeveled | src/app/guide/page.tsx:66 | an under-leveled player is below the zone's minimum |
| LevelGuide.IsOverLeveled | src/app/guide/page.tsx:67 | an over-leveled player is above the zone's maximum |
| LevelGuide.IsPerfect | src/app/guide/page.tsx:66-68 | a zone is perfect exactly from 5 levels below its minimum to 10 above its maximum |
| LevelGuide.IsHidden | src/app/guide/page.tsx:72 | a hidden zone is not the last, and both it and the zone after it have a minimum at or below the level |
| LevelGuide.Shown | src/app/guide/page.tsx:64-74 | the rendered list is never longer than the zones considered, holds only zones among them, and holds every one of them that is not hidden |
| LevelGuide.NeverBoth | src/app/guide/page.tsx:66-67 | no level is both under- and over-leveled for a zone exactly when its minimum is at most 16 above its maximum |
| LevelGuide.FirstZoneAboveIs | src/app/guide/page.tsx:72 | the first zone whose minimum exceeds the level is the one `findIndex` returns |
| LevelGuide.HiddenOnlyIf | src/app/guide/page.tsx:72 | a hidden zone is over-leveled, "show all" is off, and a zone ahead lies more than one place after it |
| LevelGuide.ShowAllHidesNothing | src/app/guide/page.tsx:72 | with "show all" nothing is hidden |
| LevelGuide.NothingAheadHidesNothing | src/app/guide/page.tsx:72 | when no zone lies ahead, `findIndex` is -1 and nothing is hidden |
| LevelGuide.LastPassedZoneShown | src/app/guide/page.tsx:70-72 | the zone just before the first zone ahead, and every later zone, stays visible |
| LevelGuide.ShownKeepsUnhidden | src/app/guide/page.tsx:64-74 | when none of the zones is hidden, the rendered list is all of them, in order |
| LevelGuide.ShownNoneOfHidden | src/app/guide/page.tsx:64-74 | when the first zones are all hidden, none of them is rendered |
| LevelGuide.ShownAfterHiddenPrefix | src/app/guide/page.tsx:64-74 | when the first `k` zones are hidden and the following ones are not, exactly the following ones are rendered, in order |
| LevelGuide.HiddenDownwardClosed | src/app/guide/page.tsx:67-72 | in a table whose maximum levels never decrease, every zone before a hidden zone is hidden too |
| LevelGuide.FirstUnhidden | src/app/guide/page.tsx:72 | the index found is the first zone from the start position on that is not hidden, and every zone before it is hidden |
| LevelGuide.ShownIsUnhiddenSuffix | src/app/guide/page.tsx:64-74 | in a table whose maximum levels never decrease, the hidden zones are exactly those before the first unhidden one, and the page renders all the others, in order, and nothing else |
| LevelGuide.ShownAll | src/app/guide/page.tsx:64-74 | with "show all", or with no zone ahead, every zone is rendered |
| LevelGuide.LevelInput | src/app/guide/page.tsx:35 | the level read from the input is never 0 |
| LevelGuide.LevelInputValues | src/app/guide/page.tsx:35 | any non-zero typed level, negative ones included, is read back as itself |
| LevelGuide.LevelInputFallback | src/app/guide/page.tsx:35 | an empty entry, one starting with an ASCII letter (lower- or upper-case), and "0" all become 1 |
| LevelGuide.ZonesConsistent | src/data/zones.ts:12-112 | every zone of the table has its minimum at or below its maximum |
| LevelGuide.ZonesSorted | src/data/zones.ts:12-112 | the walkthrough's maximum levels never decrease along the table |
| LevelGuide.ZonesShown | src/app/guide/page.tsx:64-74 | at every level, with or without "show all", the page renders exactly the walkthrough's unhidden zones, in order, and the hidden ones form a prefix |
| LevelGuide.LevelSixtyAhead | src/app/guide/page.tsx:72 | at level 60 the first zone ahead is Leyndell |
| LevelGuide.LevelSixtyHides | src/app/guide/page.tsx:64-74 | at level 60 the four zones up to Stormveil Castle are hidden |
| LevelGuide.LevelSixtyShows | src/app/guide/page.tsx:64-74 | at level 60 every zone from Liurnia (South) on is shown |
| LevelGuide.LevelSixtyShown | src/app/guide/page.tsx:64-74 | at level 60 the page renders exactly the zones from Liurnia (South) to Farum Azula, in order |
| LevelGuide.LevelSixtyPerfect | src/app/guide/page.tsx:66-68 | at level 60 the perfect zones are exactly Liurnia (South) through the Altus Plateau |
| LevelGuide.LevelTwoHundred | src/app/guide/page.tsx:72 | at level 200 every zone is over-leveled, yet none is hidden, because no zone lies ahead |

## Left out

- Floating point: numbers are exact reals. Rounding differences in the bonus sum, which `Math.floor` could expose, are not modelled.
- NaN inside `calculateAR`: a grade missing from `SCALING_COEFFICIENTS` turns the result into NaN only when every requirement holds; with an unmet requirement the result is `floor(base * 0.6)`. Non-numeric damage is not modelled either. The model rules both out with the precondition `Calculable`, so the penalty path for a weapon with an unknown grade is not covered. `FetchWeapons.TransformCalculable` says which transformed records meet it.
- Calculator.EntryWeight: gives an unknown grade weight 0 instead of NaN. Such entries never reach it, because of `Calculable`.
- `toLowerCase` is limited to the ASCII letters A-Z. Full Unicode case mapping is not modelled. `trim` removes the full set of JavaScript white-space and line-terminator characters.
- `Number(string)` is limited to decimal text with an optional `+` or `-` sign. Its hexadecimal, binary and octal prefixes (`0x`, `0b`, `0o`) and exponents are not modelled: the model reads such text as NaN. `parseInt` models both the decimal form and the `0x` prefix.
- JsValues.ToNumber: reads "Infinity" (and "+Infinity", "-Infinity") as NaN, where `Number` gives an infinite value; `JsValues.LetterIsNaN` therefore excludes "Infinity".
- The stat map holds integers. Fractional stats are not modelled.
- The editor page (`src/app/builds/editor/page.tsx:19`) keeps stats under keys like `"strength"`. The calculator reads `"str"`. `Calculator.MissingStatIsZero` states the consequence: such keys are ignored.
- `null` amounts from the API are read as 0 (`Number(null)`). A `scalesWith` entry without a `scaling` field is not modelled: its grade is a string here.
- File reading and writing, `JSON.parse`/`JSON.stringify`, the `csv-parse` library, console logging and the early returns when a file is missing are not modelled. The merge takes the parsed JSON array and the parsed rows as values.
- The paging and fetch loop of `scripts/fetch-weapons.mjs` (network access) is not modelled; only `transformWeapon` is.
- LevelGuide.Shown: its own contract says every unhidden zone is rendered and nothing from outside the zones, but not that a hidden zone is left out, because a zone value may occur twice in a table. That direction is stated by `LevelGuide.ShownIsUnhiddenSuffix` for every table whose maximum levels never decrease, and by `LevelGuide.ZonesShown` for the walkthrough at every level.
- React rendering, state hooks, the progress bar and the zone cards of the guide page are not modelled. `Shown` models only which zones the map renders.
- The zone table keeps only the level ranges. Ids, names, upgrade levels, descriptions, bosses and images are not modelled.
- CSV rows without a `Name` cell: `normalize(undefined)` is `undefined`, so such a row matches the first catalog entry without a name. This is modelled (`Normalize` keeps `None`) but no lemma singles it out.
