# cs2_price_checker: the price-resolution core in Dafny

This project models how cs2_price_checker chooses an expected price for a Counter-Strike 2
skin. A query names an item and, optionally, a wear, a float value and a paint seed. The
engine then:

- picks the wear: the given one, the float's bucket, or Factory New;
- asks the Steam market for the lowest and median prices of `item (wear)`;
- for a float query, averages the CSFloat listings in a ±0.002 window around the float;
- returns the first price that is present among the float-adjusted average, the median and
  the lowest price.

In cross-wear mode the engine resolves each of the five wears in turn. It keeps the ones
that succeed and averages their prices.

The logic exists twice: in the Python engine `api/checker.py` and inline in the serverless
handler `api/price.js`. Both copies are modelled. A separate module proves where they agree
and exhibits the inputs on which they differ.

The network is not modelled. Steam and CSFloat are function-typed parameters that map the
query actually sent to the reply it gets: no answer, an error status, or a decoded body.
Whether the CSFloat API key is set is a boolean. Prices and floats are `real`.

Modules:

- `Common`: `Option`, `Result` and the error kinds the Python engine raises.
- `Stats`: sum, mean, minimum and maximum, with the mean lying between the extremes.
- `Decimal`: ASCII digit strings and the decimal numbers they spell.
- `Wear`: the five buckets, the classifier, and the proof that the buckets tile `[0, 1)`.
- `SteamPrice`: `parse_steam_price`. This is the leftmost-longest `[\d,.]+` search, comma
  removal, and Python's `float()` on the result.
- `Upstream`: the queries and replies of the two services.
- `Checker`: `estimate_expected_price` and `estimate_across_wears`. Each is a specification
  function plus the imperative method proved equal to it.
- `PriceJs`: the handler in `api/price.js`. This covers its own `classifyWear` loop, `num`,
  the `floatAvg` reduction, `??` precedence, and the request checks.
- `Parity`: the two copies side by side.

Three points of the code that the model keeps as written:

- `float()` raises on a token such as `1.2.3`, so the model returns `MalformedPrice` for it
  rather than reading the field as absent. The resolver propagates that error, and
  cross-wear mode skips the wear.
- `classify_wear` rejects `1.0`, although its message says "inclusive".
  `Wear.ClassifyWearSpec` states the half-open range `[0, 1)` the code implements.
- The all-wears failure raises its own message, so the model gives it its own error kind,
  `NoWearPriced(item)`.

## Model

| member | source | states |
|---|---|---|
| Wear.FirstMatch | api/checker.py:23-25 | the scan returns the first bucket containing the value, none before it does, and none only when no bucket does |
| Wear.WearBucketsTile | api/checker.py:11-17 | the five buckets are non-empty, sorted, adjacent half-open intervals covering exactly [0, 1) |
| Wear.TilesCover | api/checker.py:11-17 | every value of a tiled interval hits some bucket |
| Wear.TilesDisjoint | api/checker.py:11-17 | no value of a tiling lies in two buckets |
| Wear.TilesSorted | api/checker.py:11-17 | an earlier bucket ends at or before a later one starts |
| Wear.ClassifyWearSpec | api/checker.py:22-26 | classification succeeds exactly on 0 <= v < 1 (1.0 raises); failure is OutOfRange; success names the unique bucket containing v |
| Wear.ClassifyWearBoundaries | api/checker.py:11-26 | 0.07, 0.15, 0.38 and 0.45 belong to the higher bucket, 0.0 is Factory New, -0.01 and 1.0 are rejected |
| Wear.ClassifyWearMonotone | api/checker.py:11-25 | a larger float never lands in a more pristine bucket |
| SteamPrice.Search | api/checker.py:32-34 | no match exactly when the string has no digit, comma or dot; otherwise the leftmost, longest such run |
| SteamPrice.SearchUnique | api/checker.py:19-19 | any leftmost longest run of price characters is the one the search returns |
| SteamPrice.RemoveCommas | api/checker.py:35-35 | the result has no commas, is no longer than the input, and keeps only digits and dots of a price run |
| SteamPrice.RemoveCommasAppend | api/checker.py:35-35 | removing commas distributes over concatenation |
| SteamPrice.PyFloat | api/checker.py:35-35 | `float()` on digits and dots succeeds exactly on `d+`, `d+.d*` and `.d+` literals, with the decimal value they spell; otherwise MalformedPrice |
| SteamPrice.ParseToken | api/checker.py:35-35 | a matched token parses exactly when its comma-free form is a float literal, and then to a present price |
| SteamPrice.ParseSteamPrice | api/checker.py:29-35 | the result is "no price" exactly when the field is missing, empty or has no price character |
| SteamPrice.ParseAtMatch | api/checker.py:32-35 | the parse of a field is the parse of its leftmost longest price run, whatever surrounds it |
| SteamPrice.ParseGroupedDecimal | api/checker.py:29-35 | a field `pre whole.frac post` reads as the decimal whole.frac with thousands commas ignored |
| SteamPrice.RemoveGroupComma | api/checker.py:35-35 | one thousands comma between two digit groups disappears and the groups join |
| SteamPrice.ParseDollars | api/checker.py:29-35 | a field `$d.c` reads as the decimal d.c |
| SteamPrice.ParseThousandsExample | api/checker.py:29-35 | "$1,234.56" reads as 1234.56 |
| SteamPrice.ParseEdgeExamples | api/checker.py:29-35 | None, "" and "free" read as no price; "1.2.3" is an error |
| Stats.MeanBounds | api/checker.py:139-139 | the mean of a non-empty sequence lies between its minimum and maximum |
| Stats.SumScaled | api/price.js:52-52 | summing prices converted to dollars equals converting the summed cents |
| Wear.ClassifyWear | api/checker.py:22-26 | a success names a bucket that contains the float; a failure is OutOfRange, and then no bucket contains it |
| Checker.MarketHashNameShape | api/checker.py:97-97 | the name is exactly the item, " (", the wear and ")"; given the item's length, both can be read back from it |
| Checker.MarketHashNameInjective | api/checker.py:97-97 | for one wear, distinct items get distinct names; for one item, distinct wears get distinct names |
| Checker.ChooseWear | api/checker.py:90-95 | a non-empty wear wins; else a float is classified (failing outside [0, 1)); else Factory New |
| Checker.SteamPriceOverview | api/checker.py:38-50 | a body with success set gives its lowest and median fields; a body with success unset is UpstreamRejected for that name; no body is UpstreamUnavailable |
| Checker.FloatWindow | api/checker.py:105-109 | for f in [0, 1], 0 <= min <= f <= max <= 1; the window is never wider than 0.004 |
| Checker.ListingsQueryFor | api/checker.py:103-110 | the query carries the name, lowest_price order, limit 50 and the paint seed as given; for a float in [0, 1] its window contains the float, stays in [0, 1] and is at most 0.004 wide |
| Checker.CsfloatListings | api/checker.py:61-85 | without a key the result is empty and the service is not consulted; with one, the listings of the filtered query or UpstreamUnavailable |
| Checker.FloatAdjusted | api/checker.py:112-114 | a price exists exactly when there are listings, and lies between the cheapest and dearest listing |
| Checker.FirstPresent | api/checker.py:117-118 | returns the first present candidate, and none exactly when all are absent |
| Checker.Choose | api/checker.py:116-126 | float-adjusted beats median beats lowest; all three raw values are carried unchanged; all absent is NoPriceAvailable |
| Checker.Gather | api/checker.py:88-113 | gathering succeeds only once a wear is chosen and Steam answered with success; a float-adjusted signal needs a float and a key; its failures are OutOfRange, UpstreamUnavailable, UpstreamRejected or MalformedPrice |
| Checker.Resolve | api/checker.py:88-126 | a resolved price is one of the three signals it reports; a float-adjusted signal needs a float and a key; NoPriceAvailable only after gathering succeeded; never NoWearPriced |
| Checker.EstimateExpectedPrice | api/checker.py:88-126 | the imperative resolver equals the resolution function on every query and upstream reply |
| Checker.ResolveOutcome | api/checker.py:116-126 | a success carries the gathered signals and the first present of them; NoPriceAvailable exactly when all were absent |
| Checker.FloatAdjustedNeedsFloatAndKey | api/checker.py:103-114 | without a float or without a key there is never a float-adjusted price |
| Checker.FloatAdjustedFromListings | api/checker.py:103-114 | with float and key, the float-adjusted price is the mean dollar price of the window query's listings, and then it is the expected price |
| Checker.DegradedMode | api/checker.py:61-67 | without a key the listings service is irrelevant, the result is exactly that of a key with no listings, the price is the median, else the lowest, and a Steam answer with a parseable median or lowest is always priced |
| Checker.NoFloatNoListings | api/checker.py:103-104 | a query without a float depends neither on the key nor on the listings service |
| Checker.ResolveConsults | api/checker.py:97-111 | only the replies to `item (wear)` and to the clamped window query matter |
| Checker.ResolveExample | api/checker.py:88-126 | float 0.10, Steam $40/$45 and listings $42/$44 resolve to $43 with all three signals reported |
| Checker.Successes | api/checker.py:130-136 | every kept entry is a wear that was tried and succeeded, with that wear's expected price |
| Checker.SuccessesExactly | api/checker.py:130-136 | a tried wear is kept exactly when it resolves |
| Checker.SuccessesOrdered | api/checker.py:129-136 | kept wears appear in the order they were tried |
| Checker.WearNamesDistinct | api/checker.py:129-129 | the five canonical wears are distinct and are the bucket names, in bucket order |
| Checker.SuccessesSnoc | api/checker.py:130-136 | trying one more wear appends it to the kept list exactly when it resolves |
| Checker.FirstAndThirdOfFive | api/checker.py:128-136 | of five wears tried, if only the first and the third resolve, exactly those two are kept, in order |
| Checker.CrossWearExample | api/checker.py:128-143 | if only Factory New ($50) and Field-Tested ($30) resolve, exactly those two are kept in that order and average $40 |
| Checker.CollectSuccesses | api/checker.py:130-136 | the loop's result is the list of successes of the wears it tried |
| Checker.EstimateAcrossWears | api/checker.py:128-143 | fails with NoWearPriced exactly when no wear succeeds; otherwise returns the successes and their mean, which lies between their extremes |
| PriceJs.ClassifyWear | api/price.js:12-22 | the loop succeeds exactly on [0, 1), agrees with the Python classifier, and otherwise throws "Float out of range" |
| PriceJs.ChooseWear | api/price.js:24-24 | a falsy float (absent or 0) gives Factory New without classifying; otherwise the float's bucket or the range error |
| PriceJs.StripNonNumeric | api/price.js:32-32 | the result holds only digits and dots and is no longer than the input |
| PriceJs.StripAppend | api/price.js:32-32 | stripping distributes over concatenation |
| PriceJs.StripPriceRun | api/price.js:32-32 | on a run of digits, commas and dots, stripping equals Python's comma removal |
| PriceJs.JsParseFloat | api/price.js:32-32 | `parseFloat` is NaN exactly when the text starts with neither a digit nor a dot and digit; it agrees with the digit and `w.f` values |
| PriceJs.JsParseFloatStopsAtDot | api/price.js:32-32 | `parseFloat` reads `w.f` and ignores a following dot and everything after it |
| PriceJs.Num | api/price.js:32-34 | `num` is undefined exactly for a missing or empty field, and otherwise parses the stripped field |
| PriceJs.FloatAvg | api/price.js:50-53 | summed cents / 100 / count is the mean dollar price, between the extremes; undefined without listings |
| PriceJs.ListingsQueryFor | api/price.js:40-48 | the query carries the name, lowest_price, limit 50 and the clamped window within [0, 1]; the paint seed only when truthy |
| PriceJs.FloatAverage | api/price.js:37-54 | listings are asked for only with a key and a truthy float; an error status leaves the average undefined; a rejected request throws |
| PriceJs.CoalesceLaws | api/price.js:56-56 | `undefined` is the identity of `??`, `??` is associative, and `a ?? b` is undefined exactly when both are |
| PriceJs.Expected | api/price.js:56-56 | `??` picks the first value that is not undefined, NaN included; undefined exactly when all three are |
| PriceJs.Priced | api/price.js:24-58 | a priced result is never undefined and needs a chosen wear and a Steam body; its errors are "Float out of range", "Steam request failed", "No price data found" or a runtime error |
| PriceJs.Respond | api/price.js:2-62 | 405 "POST only" exactly for another verb; 400 "Missing item" exactly for a POST with a falsy item; 200 exactly with a price payload |
| PriceJs.Handle | api/price.js:2-62 | the imperative handler equals the response function on every request and upstream reply |
| PriceJs.RejectsBeforePricing | api/price.js:3-9 | non-POST is 405 "POST only" and a falsy item 400 "Missing item", whatever the upstreams |
| PriceJs.RespondOutcome | api/price.js:56-61 | responses are 200 with a defined price, or 400, 405 or 500 with an error; a 200 price is the `??` chain of the gathered signals |
| PriceJs.ListingsNeedKeyAndFloat | api/price.js:38-39 | without a key or with a falsy float the listings service is irrelevant |
| PriceJs.NaNIsKept | api/price.js:56-56 | a NaN median hides any lowest price |
| Parity.PrecedenceAgrees | api/price.js:56-57 | with agreeing signals, the `??` chain and the Python loop succeed together and pick the same price |
| Parity.LiteralsAgree | api/price.js:32-32 | wherever `float()` accepts a digits-and-dots string, `parseFloat` reads the same number |
| Parity.ParsersAgreeOnSingleRun | api/price.js:32-34 | on a field with a single price run whose comma-free form `float()` accepts, the two parsers read the same number |
| Parity.StripSpaceGroup | api/price.js:32-32 | the handler's filter drops a space between two digit groups and joins them |
| Parity.ParseLeadingDigits | api/checker.py:29-35 | Python reads a field that starts with digits as those digits, stopping at the first character that cannot be part of a price |
| Parity.SpaceSeparatorDiverges | api/price.js:32-32 | for digit groups a and b, Python reads "a b" as a and the handler as the number ab, which is larger whenever a is not zero (so "1 234" is 1 against 1234) |
| Parity.DigitFreeFieldDiverges | api/price.js:32-56 | "$" is no price in Python but NaN in the handler, and a NaN median then beats a good lowest price |
| Parity.SecondDotDiverges | api/price.js:32-32 | "1.2.3" is an error in Python and 1.2 in the handler |
| Parity.ListingsQueriesAgree | api/price.js:40-48 | the two listing queries are equal except for a paint seed of 0, which only Python sends |
| Parity.ZeroFloatDiverges | api/price.js:24-39 | a numeric float 0 is Factory New in both, but only Python then consults the listings |
| Parity.SuccessFlagDiverges | api/price.js:28-34 | success=false makes Python fail with UpstreamRejected, while the handler ignores the flag |
| Parity.ListingsErrorDiverges | api/price.js:49-53 | a listings error status makes Python fail, while the handler behaves as without a key |
| Parity.EmptyItemDiverges | api/price.js:8-8 | an empty item gets 400 "Missing item" from the handler, while the Python resolver `estimate_expected_price` (whose callers reject an empty name before calling it) asks Steam for " (Factory New)": no answer gives UpstreamUnavailable, a successful body without prices gives NoPriceAvailable |
| Parity.CopiesAgree | api/price.js:24-58 | away from those divergences, and for a non-empty item (for an empty one Python prices " (Factory New)" while the handler answers 400), the handler answers 200 exactly when Python resolves, with the same price |

## Left out

- Network I/O, timeouts, `raise_for_status`, `fetch` and JSON decoding are not modelled. Each upstream call is its reply value: unreachable, error status, or decoded body.
- Reading `CSFLOAT_API_KEY` and the `print` warning are not modelled. Only whether the key is set matters, as a boolean.
- Floating point is not modelled; prices and floats are exact reals. The bucket bounds, `/ 100`, `statistics.mean` and the handler's `sum / 100 / count` are therefore exact, and the last two are equal.
- Only ASCII digits are modelled. Python's `\d` and `float()` also accept other Unicode decimal digits.
- `app.py` and `api/check_price.py` are not part of this model: they hold the Flask and serverless request parsing, the casts and the mode switch.
- PriceJs.Body: `float` and `paintSeed` are JSON numbers and `item` a string. A string-valued float passed through `parseFloat`, and other JSON types, are not modelled. Because the field is a number, `parseFloat(float)` is the float itself.
- PriceJs.JsParseFloat: covers only digits-and-dots strings, which is all `num` ever passes. Signs, exponents, `Infinity` and whitespace rules are not needed.
- PriceJs.Response: a NaN price is kept as NaN. `res.json` would serialise it as `null`.
- PriceJs.RuntimeText: the messages of runtime errors, such as a rejected `fetch` or destructuring an absent body, are not modelled. Every message the handler throws itself is non-empty, so its `|| 'Internal error'` fallback never applies.
- Upstream.SteamReply: `success` is a boolean. A non-boolean truthy value is not modelled, and the price fields are strings when present.
- Upstream.ListingsReply: each listing is its integer price in cents. Other listing fields, and a body that is not a list, are not modelled.
- Checker.PriceQuery: `item` is always present, so the `KeyError` raised for a missing item is not modelled.
- Checker.CollectSuccesses: the loop of `estimate_across_wears` runs over any list of wears. `Checker.EstimateAcrossWears` calls it with the five canonical wears.
- Parity.ListingsErrorDiverges: states only that Python fails, not with which error, because an earlier step may fail first.
