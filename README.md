# Client-side logic of a Geometry Dash demon-list front end, in Dafny

This project models the few pieces of real logic in the client library of a
community leaderboard site. Everything else in that library fetches from a
remote API. The pieces are:

- **Rating aggregation** (`Ratings`, from `calcRating`). The method clones the
  player's `{progress, rating}` records into a fresh array. With a preview
  rating it appends the preview as a `progress: 100` record and sorts the
  array in place with the source's comparator. A loop then weights each record
  by its 1-based position: ×1/2, ×3/10 and ×1/5 for the first three places;
  `max(5, r·25/top/100)` up to place 15; a flat 5 up to place 25; a flat 1
  after that. A partial record is further multiplied by 100/150. Each value is
  floored on its own and the floors are summed. The caller's array is never
  written, since `CalcRating` has no `modifies` clause. Two behaviours of the
  code are kept as written:
  - Without a preview nothing is sorted, so positions follow input order.
  - Whether the comparator discounts a key by 100/150 depends on the FIRST
    argument alone: each record's key uses its own progress, but only when
    the first record is partial.
- **Experience levels** (`ExpLevels`, from `getExpLevel`). A `while (true)`
  loop walks contiguous half-open bands `[lowerBound, upperBound)` until one
  holds the experience. The first band is `[0, 50)`. Each new band ends at the
  old end doubled (levels 2–4), ×1.2 (levels 5–51) or ×1.01 (level 52 on),
  rounded half up. `progress` is the rounded share of the band still
  remaining, in percent with one decimal.
- **Titles** (`Titles`, from `getTitle` in `getTitle.ts`, and `LegacyTitles`,
  the older `getTitle` in `index.ts`). These are descending chains of
  inclusive thresholds. Each is proved monotone against an independent count
  of the thresholds a rating reaches.
- **Cart** (`CartStore.Cart`). A keyed list of `{id, quantity}` entries that
  `addItem` and `removeItem` update in place, plus `saved`, the copy last
  handed to local storage.
- **List cache** (`ListCaches.ListCache`). A string-keyed map. An empty key
  passed to `clearListCache` is falsy, so it clears everything.
- **WebP file name** (`Images`). Either `name + ".webp"`, or the original name
  with the regular expression `\.[^.]+$` replaced by `.webp`.

Numbers are exact: ratings, progress and elo are `real`. Multipliers are the
rationals they denote. `Math.floor` is `real.Floor` and `Math.round` is
`floor(x + 1/2)`. Experience, cart ids and quantities, and contest counts
are `int`.

Three behaviours of the code are worth stating plainly:

- The level curve multiplies by 2, then 1.2, then 1.01, switching after
  levels 4 and 51.
- `progress` is the share of the band still to go, so zero experience
  reports 100 (`ExpLevels.ProgressIsRemainingShare`). Progress can also
  round to 0 at the end of a band wider than 2000 points, so its range is
  [0, 100].
- Without a preview the aggregate depends on input order
  (`Ratings.InputOrderMattersWithoutPreview`). With a preview and complete
  records it depends only on which records are present
  (`Ratings.PreviewIgnoresInputOrder`).

## Model

| member | source | states |
|---|---|---|
| `Ratings.CalcRating` | src/lib/client/rating.ts:6-58 | without a preview the aggregate is taken over the records in input order; with a preview and only complete records it equals the aggregate of all records plus the preview in non-increasing rating order; with a preview in general the working list is a permutation of the input plus a complete preview record |
| `Ratings.InsertCorrect` | src/lib/client/rating.ts:14-27 | inserting a record into a non-increasing list keeps it non-increasing and adds exactly that record (the step of the reference arrangement) |
| `Ratings.SortDescendingCorrect` | src/lib/client/rating.ts:14-27 | the reference arrangement the sorted aggregate is stated against is a non-increasing permutation of its input |
| `Ratings.SortByComparator` | src/lib/client/rating.ts:14-27 | sorting with the source comparator yields a permutation of the array, non-increasing in rating whenever every record is complete |
| `Ratings.TopThree` | src/lib/client/rating.ts:36-41 | a complete record in place 1, 2 or 3 contributes floor(r·1/2), floor(r·3/10), floor(r·1/5) |
| `Ratings.MiddleBandFloor` | src/lib/client/rating.ts:42-52 | places 4 to 15 contribute at least 5 for a complete record and at least 3 for a partial one |
| `Ratings.FlatBands` | src/lib/client/rating.ts:44-54 | places 16 to 25 contribute 5 (3 if partial), later places 1 (0 if partial), whatever the rating |
| `Ratings.FloorsBeforeSumming` | src/lib/client/rating.ts:50-54 | the aggregate lies at or below the unfloored sum and less than one unit per record below it |
| `Ratings.FlooringOnceDiffers` | src/lib/client/rating.ts:54 | flooring each value first differs from flooring the sum (5 against 6) |
| `Ratings.ScoreNonNegative` | src/lib/client/rating.ts:30-57 | with non-negative ratings the aggregate is non-negative |
| `Ratings.EmptyScore` | src/lib/client/rating.ts:30-57 | an empty list aggregates to 0 |
| `Ratings.InputOrderMattersWithoutPreview` | src/lib/client/rating.ts:9-34 | with no sort, the same two records score 65 in one order and 55 in the other |
| `Ratings.ComparatorSkipsSecondDiscount` | src/lib/client/rating.ts:14-26 | only the first record decides whether keys are discounted: when it is complete raw ratings are compared, so a partial 100 at 30% goes ahead of a complete 90; when it is partial both keys are discounted by their own progress, so a partial 150 at 90% stays ahead of a complete 120 |
| `Ratings.SortedPermutationUnique` | src/lib/client/rating.ts:14-27 | two non-increasing arrangements of the same complete records are equal |
| `Ratings.PreviewIgnoresInputOrder` | src/lib/client/rating.ts:7-27 | with a preview and complete records, inputs holding the same records give the same working list and the same aggregate |
| `Ratings.PreviewExample` | src/lib/client/rating.ts:9-41 | a preview of 120 next to a complete 80 aggregates to 60 + 24 = 84 |
| `Ratings.SmallExamples` | src/lib/client/rating.ts:30-57 | one complete 100 scores 50, two score 80, one half-done 100 scores 33 |
| `ExpLevels.GetExpLevel` | src/lib/client/getExpLevel.ts:8-40 | for experience >= 0 the loop ends in the band of the reported level, with lowerBound <= exp < upperBound and progress computed from that band |
| `ExpLevels.Round` | src/lib/client/getExpLevel.ts:21-27 | rounding lands within one half of its argument |
| `ExpLevels.GrowIncreases` | src/lib/client/getExpLevel.ts:19-27 | each growth step raises a bound of 50 or more |
| `ExpLevels.UpperBound` | src/lib/client/getExpLevel.ts:16-31 | every band ends at 50 or above |
| `ExpLevels.Progress` | src/lib/client/getExpLevel.ts:37 | progress lies between 0 and 100 and is 100 at the start of a band |
| `ExpLevels.FirstBands` | src/lib/client/getExpLevel.ts:17-24 | the first bands are [0,50), [50,100), [100,200), [200,400), [400,480) |
| `ExpLevels.GrowthByLevel` | src/lib/client/getExpLevel.ts:19-27 | levels 2–4 double the bound, levels 5–51 multiply it by 1.2 and later levels by 1.01, rounded |
| `ExpLevels.Contiguous` | src/lib/client/getExpLevel.ts:20-26 | each band starts where the previous ended and is non-empty |
| `ExpLevels.UpperBoundIncreasing` | src/lib/client/getExpLevel.ts:16-31 | upper bounds strictly increase with the level |
| `ExpLevels.BandsOrdered` | src/lib/client/getExpLevel.ts:16-35 | a later band lies wholly above an earlier one |
| `ExpLevels.BandUnique` | src/lib/client/getExpLevel.ts:32-34 | an amount of experience lies in at most one band, so the reported level is the only one |
| `ExpLevels.LevelMonotone` | src/lib/client/getExpLevel.ts:16-35 | more experience never gives a lower level |
| `ExpLevels.ProgressIsRemainingShare` | src/lib/client/getExpLevel.ts:37 | progress is the remaining share: 100 at zero experience, 2 at 49, and 0 at the end of a wide band |
| `TitleTypes.Decimal` | src/lib/client/getTitle.ts:79 | the count in the message is printed as decimal digits that spell it, with no leading zero |
| `Titles.GetTitle` | src/lib/client/getTitle.ts:1-153 | undefined exactly for lists other than dl and elo; null exactly for dl with rating <= 0; the message-only entry exactly for elo below ten contests |
| `Titles.DlRankByThresholds` | src/lib/client/getTitle.ts:2-73 | the dl title's place in the ladder equals the number of thresholds the rating reaches |
| `Titles.DlMonotone` | src/lib/client/getTitle.ts:3-73 | every positive rating has a dl title and a higher rating never has a lower one |
| `Titles.DlBoundaries` | src/lib/client/getTitle.ts:3-73 | thresholds are inclusive: 6000 and above is AGM, 5000 is LGM, 4999 is GM, 500 is B, below 500 is C |
| `Titles.EloGate` | src/lib/client/getTitle.ts:77-81 | below ten contests the result is only the count still needed, whatever the elo |
| `Titles.EloRankByThresholds` | src/lib/client/getTitle.ts:83-151 | a ranked player's elo title's place equals the number of thresholds the elo reaches |
| `Titles.EloMonotone` | src/lib/client/getTitle.ts:83-151 | among ranked players a higher elo never has a lower title; below 200 it is Plastic |
| `LegacyTitles.GetTitle` | src/lib/client/index.ts:69-169 | undefined exactly for lists other than dl; null exactly for ratings <= 0; otherwise a full title object |
| `LegacyTitles.RankByThresholds` | src/lib/client/index.ts:71-167 | the title's place in the 16-tier ladder equals the number of thresholds the rating reaches |
| `LegacyTitles.Monotone` | src/lib/client/index.ts:71-167 | every positive rating has a title and a higher rating never has a lower one |
| `LegacyTitles.Boundaries` | src/lib/client/index.ts:71-166 | 4200 and above is LGM in darkred; below 600 is C; 600 is C+ and 599 is C |
| `LegacyTitles.LetterGradesSelfNamed` | src/lib/client/index.ts:101-166 | from S+ down to C the short and the full title agree |
| `CartStore.FindIndex` | src/lib/client/cart.ts:49-51 | the first position holding the id, or -1 exactly when no entry has it |
| `CartStore.Cart.constructor` | src/lib/client/cart.ts:43-44 | the cart starts with the stored items |
| `CartStore.Cart.GetItem` | src/lib/client/cart.ts:45-47 | the first entry with the id, or nothing exactly when no entry has it |
| `CartStore.Cart.AddItem` | src/lib/client/cart.ts:48-61 | the items become the added list and that list is saved |
| `CartStore.Cart.RemoveItem` | src/lib/client/cart.ts:62-77 | the items become the removed list; the cart is saved only when the id was present |
| `CartStore.AddedShape` | src/lib/client/cart.ts:48-57 | an existing id gets its quantity raised by q with the length unchanged; a new id is appended with quantity q |
| `CartStore.RemovedShape` | src/lib/client/cart.ts:63-72 | quantity above 1 drops by exactly one; otherwise the entry is deleted and the rest keep their order; an absent id changes nothing |
| `CartStore.AddedKeepsOthers` | src/lib/client/cart.ts:48-57 | entries with other ids are untouched by addItem |
| `CartStore.RemovedKeepsOthers` | src/lib/client/cart.ts:62-72 | entries with other ids are untouched by removeItem |
| `CartStore.AddedKeepsUnique` | src/lib/client/cart.ts:49-57 | unique ids stay unique after addItem |
| `CartStore.RemovedKeepsUnique` | src/lib/client/cart.ts:63-72 | unique ids stay unique after removeItem, and a deleted entry's id is gone |
| `ListCaches.Cleared` | src/lib/client/listCache.ts:16-22 | a truthy key removes only itself; a missing or empty key empties the map |
| `ListCaches.ListCache.constructor` | src/lib/client/listCache.ts:6 | the cache starts empty |
| `ListCaches.ListCache.Get` | src/lib/client/listCache.ts:8-10 | the stored value, or undefined exactly for a key not present |
| `ListCaches.ListCache.Set` | src/lib/client/listCache.ts:12-14 | the key reads back the new value and every other key reads as before |
| `ListCaches.ListCache.Clear` | src/lib/client/listCache.ts:16-22 | a non-empty key is removed alone; no key or the empty key leaves every key undefined |
| `ListCaches.EmptyKeyClearsAll` | src/lib/client/listCache.ts:17-20 | clearing with the empty string equals clearing with no key; a non-empty key keeps the others |
| `ListCaches.SetGetClear` | src/lib/client/listCache.ts:8-22 | a fresh cache reads undefined, reads back a set value after another key is cleared, and reads undefined after clearing with "" |
| `Images.LastDot` | src/lib/client/image.ts:19 | the position of the last dot, with no dot after it |
| `Images.WebpFileName` | src/lib/client/image.ts:19 | a non-empty name gets ".webp" appended; a null or empty name falls back to the original name with its extension replaced |
| `Images.ExtensionUnique` | src/lib/client/image.ts:19 | the pattern `\.[^.]+$` matches at one place at most |
| `Images.ReplaceIsRegexReplace` | src/lib/client/image.ts:19 | the fallback is the regex replacement: the prefix before the match is kept and ".webp" follows; with no match the name is unchanged |
| `Images.FallbackShape` | src/lib/client/image.ts:19 | a name without a dot or ending in a dot is unchanged; otherwise everything before the last dot is preserved and ".webp" follows |
| `Images.Examples` | src/lib/client/image.ts:19 | a.tar.gz becomes a.tar.webp, an empty name falls back, README and file. are unchanged |

## Left out

- Ratings.CalcRating: when the list holds partial records the comparator is not a consistent order, and ECMAScript leaves the result of `sort` to the engine. The model sorts by one insertion sort, and the contract promises only a permutation for such lists.
- ExpLevels.GetExpLevel: experience is an integer, and a negative amount is excluded. The source loops forever on a negative amount.
- CartStore.Item: ids and quantities are integers. The source takes any JavaScript number, so `removeItem` on a quantity of 1.5 would leave 0.5; fractional quantities are not modelled.
- Titles.Player: `matchCount` is an integer. A fractional count such as 9.5 would print "Need 0.5 more contest"; the model prints whole numbers only.
- IEEE-754 doubles: the multipliers 0.3, 0.2, 1.2, 1.01 and 100/150 are exact rationals, so double rounding is not reproduced.
- CartStore.Cart: reading and writing local storage is left out. This covers JSON parsing, an absent storage and a failed write. `saved` records what would be written. `refresh` and the Svelte store notification (`cart.set`) are not modelled. `getItem` returns a value, so a caller cannot mutate the cart through the returned object.
- ListCaches.ListCache: the levels of a cache entry are opaque (a type parameter). The module-level singleton is an instance of the class.
- Images: only the output file name is modelled. Image decoding, canvas drawing, blob encoding and `File` construction are browser APIs.
- Session handling, HTTP wrappers, settings, route loaders and configuration files are framework and network glue. They hold no logic to verify.
