# AI app manager catalog rules, modelled in Dafny

The app manager is a browser page that keeps a catalog of AI application
entries in three collections of a REST table store (`ai_apps`,
`ai_apps_creative`, `ai_apps_tools`). Almost all of `js/main.js` is DOM and
`fetch` glue; this project models the rules underneath it:

- **Catalog ordering** (`catalog.dfy`): the comparator of
  `sortAppsBySubscription` (tier paid > trial > anything else, then
  favourites, then names without Hangul before names with Hangul, each group
  in its own collation) and the in-place sort of the entry array.
- **Aggregation and filtering** (`aggregation.dfy`): `filterApps` reads a
  non-ok collection as empty, merges main, creative and tools in that order,
  then applies the category and search filters; `loadApps` drops the merge
  as soon as one collection is not ok and hands the main collection fetched
  again, or nothing, to `displayApps`. Both pass their list to `displayApps`,
  which sorts it with `sortAppsBySubscription` before rendering; the lists
  stated here are the ones handed over, before that sort.
- **Form records** (`forms.dfy`): the checked-category collector, tag
  parsing, the inline subscription fields of the registration form,
  `collectEditSubscriptionData` of the edit form, the two records, and
  `validateAppData` with its messages and the category indicator.
- **Derived values** (`derived.dfy`): `checkExpirationStatus` on integer
  milliseconds, `generateStarRating` and `getCategoryEmoji`.
- Helpers: `text.dfy` (JavaScript `trim`, `split(',')`, `join`, `includes`,
  ASCII `toLowerCase`, the Hangul character class), `seqs.dfy`
  (order-preserving filter, subsequences), `common.dfy` (`Option`, a JSON
  member that may be absent, null or a value, and `||` on form values).

Foreign behaviour is passed in as parameters: the two `localeCompare`
collations (`ko` and `en`) of the sort, `new URL` as `parsesAsUrl`,
`parseFloat`, `parseInt` and `new Date` as partial parsers (`None` standing
for `NaN` or an invalid date), and the current time as `now`. Each fetch is a
`Response`: rejected, not ok, or ok with a body that may lack `data`.

Three behaviours of the code worth knowing:

- `loadApps` falls back to the main collection when ANY of the three
  responses fails, not only when all three fail; only `filterApps` degrades
  a failed collection to an empty one.
- The favourite level comes before the script level: a free favourite named
  `가위` precedes a free non-favourite named `Zebra`
  (`Catalog.TierAndFavouriteExample`).
- For a free entry the registration form sends plan `''` and price `0`, not
  null; only the edit form nulls them (`Forms.FreeEntryNormalisation`).

## Model

| member | source | states |
|---|---|---|
| `Catalog.Compare` | js/main.js:397-438 | the comparator puts the higher tier first; within a tier the favourite first; within tier and flag the trimmed name without Hangul first; otherwise its value is the Korean collation of the trimmed names, or the English one of the lower-cased trimmed names |
| `Catalog.Priority` | js/main.js:399-406 | paid ranks 3, trial 2, and every other or missing status 1, the same as free |
| `Catalog.SortName` | js/main.js:417-418 | the name the sort compares is trimmed, no longer than the entry's name, and empty for an empty name |
| `Catalog.LeqTotal` | js/main.js:397-438 | with consistent collations any two entries are ordered one way or the other by the comparator |
| `Catalog.LeqTransitive` | js/main.js:397-438 | with consistent collations "may precede" is transitive across all three levels of the comparator |
| `Catalog.CompareIsTotalPreorder` | js/main.js:397-438 | the comparator of the sort is a total preorder whenever both collations are consistent comparators |
| `Catalog.SortedTiers` | js/main.js:405-410 | along a sorted list the tier priority never increases |
| `Catalog.SortedFavouritesFirst` | js/main.js:413-415 | within one tier every favourite precedes every non-favourite |
| `Catalog.SortedHangulLast` | js/main.js:418-428 | within one tier and favourite flag, trimmed names without a Hangul character precede names with one |
| `Catalog.SortedWithinGroup` | js/main.js:430-437 | within one tier, flag and script group, the Korean collation on trimmed names, or the English one on lower-cased trimmed names, decides |
| `Catalog.TierAndFavouriteExample` | js/main.js:405-415 | a paid entry precedes free ones, and a free favourite with a Hangul name precedes a free non-favourite Latin name |
| `Catalog.ScriptExample` | js/main.js:418-428 | in one tier and flag, `apple` precedes `가나` whatever the collations |
| `Catalog.InsertionSort` | js/main.js:397 | the in-place sort leaves a permutation of its input, sorted when the ordering is a total preorder, and leaves a sorted input unchanged |
| `Catalog.SortAppsBySubscription` | js/main.js:396-439 | sorting the entry array in place yields a permutation of it, sorted by the comparator when the collations are consistent; an already sorted array is unchanged, so sorting is idempotent |
| `Aggregation.Body` | js/main.js:366-370 | an ok body contributes its `data`, or nothing when `data` is missing |
| `Aggregation.DataOrEmpty` | js/main.js:857-860 | a non-ok response contributes no entries, an ok one its `data` or nothing when `data` is missing |
| `Aggregation.Merge` | js/main.js:864-868 | the spread of the three collections has their total length and holds exactly their entries, as a multiset |
| `Aggregation.InCategory` | js/main.js:875-876 | the category test holds exactly when some position of the entry's categories holds the filter value |
| `Aggregation.SearchableText` | js/main.js:883-887 | the searched text starts with the lower-cased name and holds no ASCII capital |
| `Aggregation.SearchTerm` | js/main.js:846 | the search term is lower-cased before it is trimmed: it has no whitespace at either end, no ASCII capital, and is no longer than the input |
| `Aggregation.ApplyFilters` | js/main.js:870-891 | the filtered list is no longer than the merge and holds only entries of the merge that pass both the category and the search test |
| `Aggregation.ApplyFiltersIsFilter` | js/main.js:870-891 | the category filter followed by the search filter, each skipped on empty input, keeps exactly the entries that pass both tests |
| `Aggregation.ApplyFiltersResult` | js/main.js:870-891 | the filtered list is an order-preserving subsequence holding every passing entry as often as the input does and no failing one |
| `Aggregation.FilterApps` | js/main.js:845-903 | `filterApps` ends in its error message exactly when one of the three fetches rejects; otherwise it reports the merged length as total and hands `displayApps` at most that many entries, all passing both filters |
| `Aggregation.FilterAppsResult` | js/main.js:845-898 | `filterApps` hands `displayApps` an order-preserving subsequence of main ++ creative ++ tools holding exactly the entries in the category (or any, for no category) whose lower-cased space-joined name, description and tags contain the lower-cased trimmed search text (or any, for none), and reports the merged length as total |
| `Aggregation.FilterAppsRejected` | js/main.js:849-902 | a rejected fetch of any collection ends `filterApps` with its error message and no list |
| `Aggregation.FilterAppsNoFilters` | js/main.js:870-891 | with empty search text and no category the list handed over is the whole merge |
| `Aggregation.FilterAppsSkipsFailedCollection` | js/main.js:857-868 | a not-ok collection gives the same result as an empty one: the other collections' entries are still handed over |
| `Aggregation.FilterAppsByCollection` | js/main.js:864-891 | the filtered list is the filtered main part, then the filtered creative part, then the filtered tools part |
| `Aggregation.LoadApps` | js/main.js:346-393 | when all three are ok a list is handed over and no error shown; no list is handed over exactly when some collection failed and the retry is not ok; the error message appears exactly when some collection failed and the retry rejects or its body lacks `data` |
| `Aggregation.LoadAppsMergesAll` | js/main.js:346-374 | when all three are ok `loadApps` hands `displayApps` main ++ creative ++ tools, with no error |
| `Aggregation.LoadAppsFallsBack` | js/main.js:355-391 | when one collection is not ok the list handed to `displayApps` is exactly the retried main collection's data, nothing when the retry is not ok, and the error message appears exactly when the retry rejects or its body lacks `data`; the other collections' data play no part |
| `Aggregation.PoliciesDiffer` | js/main.js:355-370 | with the creative collection failing, `filterApps` still hands over a tools entry while `loadApps` does not |
| `Forms.CheckedValues` | js/main.js:226-230 | one value per checked box, in document order: the values are exactly those of the checked boxes taken in order, so each checked box contributes once and an unchecked one never |
| `Forms.CollectSelectedCategories` | js/main.js:762-766 | the push loop collects exactly `CheckedValues`: the checked values, one per checked box, in document order |
| `Forms.ParseTags` | js/main.js:240 | a missing or empty tag field gives `[]`; every tag is non-empty and has no whitespace at either end |
| `Forms.TrimAll` | js/main.js:240 | `.map(tag => tag.trim())` keeps the number of pieces and trims each one in place |
| `Forms.ParseTagsInOrder` | js/main.js:777 | the tags are an order-preserving subsequence of the trimmed comma-separated pieces holding every non-empty piece as often as it occurs and no empty one; none contains a comma |
| `Forms.ParseTagsRoundTrip` | js/main.js:710 | stored clean tags shown as `tags.join(', ')` by the edit form parse back to the same tags |
| `Forms.EffectiveStatus` | js/main.js:1282 | a non-empty status is kept as given, a missing or empty one is `free` |
| `Forms.Rating` | js/main.js:241 | the rating is the parsed integer, or 0 when the field is missing or does not parse |
| `Forms.PriceOrZero` | js/main.js:247 | the price is the parsed value, or 0 when the field is missing or does not parse |
| `Forms.RegistrationSubscription` | js/main.js:232-250 | registration writes every subscription field: for free plan `''`, price `0`, null cycle and dates; otherwise the trimmed plan field (`''` when missing), the parsed price (0 when missing or unparseable), the cycle defaulting to `monthly` and the dates or null |
| `Forms.EditSubscription` | js/main.js:1281-1312 | edit nulls all subscription fields for free; for paid keeps plan and dates or null, the parsed price, null when absent or unparseable, cycle defaulting to `monthly`; for trial plan `Trial`, price null, cycle `trial`; for an unknown status leaves every field out |
| `Forms.CollectEditSubscriptionData` | js/main.js:1284-1309 | assigning the fields branch by branch onto `{ subscription_status }` builds exactly that record |
| `Forms.FreeEntryNormalisation` | js/main.js:246-250 | for a free entry registration sends plan `''` and price `0` where edit sends null for both; both send null cycle and dates |
| `Forms.PaidEntryNormalisation` | js/main.js:1295-1301 | for a paid entry both forms send the same billing cycle and dates |
| `Forms.BuildRegistrationRecord` | js/main.js:234-251 | the registration record holds the trimmed name, url, description and icon url of the form, the parsed rating, the given categories, the parsed tags, the favourite flag iff the box said `on`, usage 0 and last use null |
| `Forms.BuildEditRecord` | js/main.js:771-781 | the edit record holds the trimmed text fields of the form, the parsed rating, the given categories, the parsed tags and the favourite flag, no usage fields and the edit subscription part |
| `Forms.BuildersAgree` | js/main.js:771-781 | apart from usage and subscription fields the two forms build the same record from the same input |
| `Forms.ValidateAppData` | js/main.js:302-327 | a record is valid exactly when name and url are non-empty, a category is selected and the url parses; a valid record has no effect; the category indicator is raised exactly on the category failure |
| `Forms.ValidationReportsFirstFailure` | js/main.js:303-324 | the message shown is the one of the first failing check in the order name, url, categories, url syntax |
| `Derived.CeilDiv` | js/main.js:1212 | the integer ceiling quotient q satisfies d(q-1) < x <= dq |
| `Derived.CeilDivAtMost` | js/main.js:1212-1214 | a ceiling quotient is at most k exactly when the dividend is at most k days |
| `Derived.CheckExpirationStatus` | js/main.js:1207-1215 | a warning needs a non-empty billing date that parses and lies at most seven days after now |
| `Derived.ExpiringIff` | js/main.js:1207-1215 | an entry is expiring exactly when it has a valid billing date at most seven days after now, past dates included; a missing date gives false |
| `Derived.ExpirationExamples` | js/main.js:1207-1215 | five days ahead and three days overdue warn, eight days ahead and no date do not |
| `Derived.StarIcons` | js/main.js:574-583 | five icons, icon k full exactly when k is below the rating |
| `Derived.GenerateStarRating` | js/main.js:573-586 | the loop's string is the markup of those five icons in order |
| `Derived.GetCategoryEmoji` | js/main.js:589-600 | a known category gets its table emoji, every other string the robot |
| `Derived.EmojiIdentifiesCategory` | js/main.js:590-599 | the robot marks exactly the unknown categories and the known ones have pairwise different emoji |
| `Text.Leading` | js/main.js:235-240 | the count of leading characters `trim` removes covers a whitespace run that is followed by a non-whitespace character or the end |
| `Text.Trailing` | js/main.js:235-240 | the count of trailing characters `trim` removes covers a whitespace run that is preceded by a non-whitespace character or the start |
| `Text.Trim` | js/main.js:235-240 | `trim` is no longer than its input and leaves no whitespace at either end |
| `Text.TrimSlice` | js/main.js:235-240 | `trim` keeps the slice between the leading and the trailing whitespace run |
| `Text.TrimChars` | js/main.js:846 | each character of a trim is the character of the input just past the leading whitespace run |
| `Text.TrimLacks` | js/main.js:240 | a trimmed piece contains no character its piece lacked |
| `Text.TrimPadded` | js/main.js:240 | whitespace around a trimmed text is exactly what `trim` removes |
| `Text.Split` | js/main.js:240 | `split(',')` gives at least one piece, none containing the separator |
| `Text.Join` | js/main.js:710 | `join` of no pieces is empty and of one piece is that piece |
| `Text.JoinStartsWithFirst` | js/main.js:883-887 | a join starts with its first piece |
| `Text.Lower` | js/main.js:846 | `toLowerCase` keeps the length, maps each character on its own and leaves no ASCII capital |
| `Text.LowerLeavesNoCapital` | js/main.js:846 | lower-casing then trimming leaves no ASCII capital |
| `Text.Contains` | js/main.js:889 | `includes` of the empty term holds, and a term longer than the text never occurs |
| `Text.JoinSplit` | js/main.js:240 | joining the pieces of `split(',')` with commas gives back the text |
| `Text.SplitJoin` | js/main.js:240 | splitting a comma-join of comma-free pieces gives back the pieces |
| `Text.ContainsIff` | js/main.js:889 | `includes` holds exactly when the term occurs as a contiguous slice |
| `Text.HangulBounds` | js/main.js:421-422 | the character class is the two closed ranges U+3131 to U+3163 and U+AC00 to U+D7A3: their ends are Hangul, their neighbours and ASCII letters are not |
| `Text.ContainsHangulAppend` | js/main.js:421-422 | the Hangul test holds of a concatenation exactly when it holds of one of the parts |
| `Seqs.Filter` | js/main.js:240 | `Array.prototype.filter` is no longer than its input and keeps only elements of the input that pass |
| `Seqs.FilterIsSubsequence` | js/main.js:874-891 | `Array.prototype.filter` keeps an order-preserving subsequence with every passing element as often as the input and no failing one |

## Left out

- DOM and presentation: `displayApps` (the sort it runs is `Catalog.SortAppsBySubscription`, but `FilterApps` and `LoadApps` stop at the list they hand over and are not composed with it), card and
  badge templating (`createAppCard`, `generateSubscriptionBadge`,
  `generateSubscriptionContent`, `showImageUploadTip`), the modals,
  navigation, spinners, the star widgets (`initializeRatingStars` and the
  display updaters), `validateField` and the field error helpers,
  `updateFilterResults` (its counts are the `total` of `FilterApps`),
  `loadEditSubscriptionInfo` and the field toggles: presentation only.
- Store calls: `openApp`, `getAppUsageCount` and the non-atomic usage
  read-modify-write, `toggleFavorite`, `deleteApp`, `editApp` (except the
  tag join its form shows, used in `Forms.ParseTagsRoundTrip`), the
  `fetch` calls of the two submit handlers and `showSubscriptionModal`: I/O
  against an external store whose behaviour is not visible. A rejected
  `response.json()` is not modelled either.
- `debounce`: timer and event-loop behaviour.
- `localeCompare` with `ko`/`en` options, `new URL`, `parseFloat`,
  `parseInt` and `new Date`: foreign library code, passed in as parameters.
- Text.Lower: maps only ASCII letters; full Unicode `toLowerCase` is not modelled.
- Strings are sequences of Unicode scalar values rather than UTF-16 code
  units; the whitespace of `trim` and the Hangul class lie in the Basic
  Multilingual Plane, so only lengths of astral characters would differ.
- Floating point: prices are exact reals, `NaN` travels as JSON `null`;
  `yearlyPrice` and the savings tip are not modelled.
- Derived.CheckExpirationStatus: times are integer milliseconds and the day
  count is an exact ceiling division, not a floating-point `Math.ceil`.
- Date formatting (`toLocaleDateString`, `toISOString`).
- `is_favorite` is a `bool`; the `NaN` that `undefined` produces in the
  favourite subtraction is not reproduced.
- Catalog.SortAppsBySubscription: the order among entries the comparator
  ties is not stated (the engine's sort is stable; the model's insertion
  sort is too, but that is not proved), and sortedness is stated only for
  consistent collations, as `Array.prototype.sort` requires.
- Catalog.Priority: a status naming an `Object.prototype` member (`constructor`, `toString`, ...) is looked up in the tier table as a truthy non-number, so the comparator returns `NaN` across tiers; the model ranks it 1 like any other unknown status. Status values come from a fixed select.
- Derived.GetCategoryEmoji: keys inherited from `Object.prototype`
  (`"constructor"` and the like), which the table lookup would also find,
  are not modelled; the category values come from fixed checkboxes.
