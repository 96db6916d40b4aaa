# Cleaning-quote pricing, modelled in Dafny

This project models the pricing core of a cleaning-business quote calculator.
It proves properties of the model with the Dafny verifier.

Three source files are modelled:

- `calculateQuote` in `server/routes.ts` turns a request into a priced quote.
  - The main-service hours are a per-room rate times the number of rooms, but never less than a per-service minimum.
  - Each catalogue add-on is priced at its hours times the hourly rate; an unknown add-on aborts the whole quote.
  - Custom add-ons add their price but no hours.
  - The discount is a fixed amount capped at the subtotal, or a percentage.
  - GST is 10% of net revenue. Labour cost, profit, the margin (guarded against division by zero) and the deposit follow from it.
  - `formatAddonName` is modelled too.
- `shared/schema.ts` holds the request validator (bounds and defaults), `PRICING_CONFIG`, the per-service `(bedrooms, bathrooms)` hours table `SERVICES`, and the add-on hours catalogue `ADD_ONS`.
- `server/utils/suburbPricing.ts` holds:
  - the median-income multiplier with four brackets;
  - the first-match lookups by postcode and by case-insensitive suburb name, which default to `found: false` and a multiplier of 1.0;
  - the suburb search, which returns at most ten results.
  - The loaded suburb list is a parameter of every lookup.

The model is pure: datatypes, functions and lemmas, as the source is.

- Money and hours are exact `real`s.
- The thrown "Invalid add-on service" error becomes a `Result`.
- JavaScript's `parseInt` is a function returning `Option<int>`, with `None` for NaN.

Modules:

- `Wrappers` holds `Option` and `Result`.
- `AsciiText` holds ASCII case mapping and substring search.
- `Sequences` holds `Array.find`, `Array.filter` and subsequences.
- `Schema`, `Quote` and `SuburbPricing` follow the three source files.

`calculateQuote` never applies a suburb multiplier, although clients may send one. The model does not apply one either.

`CalculateQuote` is total: the source computes a quote for any numbers and fails only on an unknown add-on. The bounds the arithmetic properties need form `ValidRequest`. That predicate is a hypothesis of the property lemmas, not a precondition of the calculation. It combines:

- the validator's bounds;
- non-negative custom add-on prices;
- discount and deposit percentages in 0..100;
- a non-negative fixed discount.

## Model

| member | source | states |
|---|---|---|
| Schema.ParseService | shared/schema.ts:8 | a service name is accepted exactly when it is `general`, `deep` or `move`, and the accepted value prints back as that name |
| Schema.ServiceNameRoundTrip | shared/schema.ts:8 | every service's name parses back to that service |
| Schema.ParseQuoteCalculation | shared/schema.ts:7-15 | validation either fails with a non-empty list of issues, or returns the request within every bound, with `addons` defaulting to `[]`, `discountApplied` to false, `hourlyRate` to 60 and `cleanerRate` to 35 |
| Schema.ParseAcceptsExactly | shared/schema.ts:8-14 | the validator accepts exactly when the service is one of the three names, 1 ≤ bedrooms ≤ 6, 1 ≤ bathrooms ≤ 3, and any rate given is within 1..200 (hourly) or 1..100 (cleaner) |
| Schema.IssueNamesFailingField | shared/schema.ts:8-14 | each field is reported as an issue exactly when its own check fails, so both directions hold for every field |
| Schema.DefaultsWithinBounds | shared/schema.ts:11-14 | a request that omits every defaulted field validates to `[]`, false, 60 and 35, so the defaults pass their own bounds |
| Schema.ConfigMatchesDefaults | shared/schema.ts:47-52 | `PRICING_CONFIG`'s hourly and cleaner rates equal the validator's defaults, and the GST rate is one tenth |
| Schema.AddOnHoursPositive | shared/schema.ts:89-101 | every key in the add-on catalogue has strictly positive hours |
| Schema.AddOnCatalogue | shared/schema.ts:89-101 | the catalogue has exactly 11 keys, they are the listed names, and all have positive hours |
| Schema.TableKeysShared | shared/schema.ts:55-86 | every service tabulates the same 8 `(bedrooms, bathrooms)` pairs, each within the validator's bounds |
| Schema.TableOrdered | shared/schema.ts:55-86 | within a service the hours strictly increase along the listed pairs, and at each pair general < deep < move |
| Quote.MainServiceHours | server/routes.ts:113-131 | the hours are at least the service minimum and at least rooms × per-room time, and equal one of the two (their maximum) |
| Quote.MainServiceHoursMonotone | server/routes.ts:114-131 | more rooms never give fewer hours |
| Quote.ServicesOrderedByHours | server/routes.ts:117-128 | for the same rooms, general < deep < move in main-service hours |
| Quote.FormulaDiffersFromTable | server/routes.ts:114-131 | the formula gives 1.6 hours for a one-bedroom, one-bathroom general clean, where `SERVICES` says 2, so the table is not what is charged |
| Quote.FalsyIffUnknown | server/routes.ts:138-141 | the `!hours` test rejects exactly the names missing from the catalogue, because every catalogue value is positive |
| Quote.AddonItems | server/routes.ts:137-147 | it succeeds exactly when every requested add-on is in the catalogue. The breakdown then has one line per requested add-on, in order, with the catalogue hours and cost = hours × rate. Otherwise the error names the first unknown add-on |
| Quote.AddonCostIsHoursAtRate | server/routes.ts:145-149 | the summed add-on cost equals the summed add-on hours times the hourly rate |
| Quote.ResolveDiscount | server/routes.ts:153-163 | the discount is 0 when not applied; with a positive fixed amount it is min(amount, subtotal); otherwise it is the percentage of the subtotal |
| Quote.DiscountWithinSubtotal | server/routes.ts:154-165 | with subtotal ≥ 0 and a percentage in 0..100, the discount lies between 0 and the subtotal, so net revenue ≥ 0 |
| Quote.NetRevenueMonotone | server/routes.ts:154-165 | a larger subtotal never gives a smaller net revenue, in every discount mode |
| Quote.Margin | server/routes.ts:175 | the margin is 0 when net revenue ≤ 0; otherwise margin × net revenue = profit × 100 |
| Quote.MarginBelowHundred | server/routes.ts:174-175 | a profit below net revenue gives a margin below 100 |
| Quote.Deposit | server/routes.ts:178 | deposit × 100 = total × deposit percentage |
| Quote.DepositWithinTotal | server/routes.ts:178 | a percentage in 0..100 of a non-negative total lies between 0 and the total |
| Quote.CalculateQuote | server/routes.ts:110-207 | it succeeds exactly when every add-on is in the catalogue; a failure names the first unknown one. A quote copies the request's fields and has one breakdown line per add-on in order. Its hours are `MainServiceHours` and its discount is `ResolveDiscount` of its subtotal. It satisfies `Consistent`: subtotal = main cost + add-on costs + custom prices, net = subtotal − discount, GST = net × 0.1, total = net + GST, hours = main hours + add-on hours (custom add-ons add none), pay = hours × cleaner rate, profit = net − pay, margin, deposit |
| Quote.TotalIsNetRevenuePlusGst | server/routes.ts:168-169 | GST is a tenth of net revenue and the total is 1.1 × net revenue |
| Quote.AddonCostOfQuote | server/routes.ts:145-151 | subtotal = (main hours + add-on hours) × hourly rate + custom add-on prices |
| Quote.DepositBoundaries | server/routes.ts:178 | a 0% deposit is 0 and a 100% deposit is the whole total |
| Quote.SubtotalPositive | server/routes.ts:131-151 | with positive hours and rate and no negative add-on hours or prices, subtotal ≥ main-service cost > 0 |
| Quote.RevenueBounds | server/routes.ts:165-178 | once the discount is within the subtotal: net revenue, GST and the deposit are ≥ 0; total ≥ net; the deposit ≤ total; with positive hours and cleaner rate, profit < net revenue and margin < 100 |
| Quote.AddonHoursNonNegative | server/routes.ts:137-147 | the add-on hours of any successful quote sum to ≥ 0 |
| Quote.QuoteWithinBounds | server/routes.ts:110-207 | for a valid request that succeeds: subtotal > 0, 0 ≤ discount ≤ subtotal, net revenue and GST ≥ 0, total ≥ net, 0 ≤ deposit ≤ total, positive hours and labour cost, profit < net revenue, margin < 100 |
| Quote.SubtotalGrowsWithRate | server/routes.ts:134-151 | for the same work, a higher hourly rate gives a strictly higher main-service cost and subtotal |
| Quote.HourlyRateMonotone | server/routes.ts:134-169 | raising the hourly rate strictly raises the main-service cost and the subtotal and never lowers the total; without a discount the total rises strictly |
| Quote.SameWorkSamePrice | server/routes.ts:134-151 | two quotes for the same hours, rate and add-ons have the same main cost, and their subtotals differ by exactly the difference of their custom add-on prices |
| Quote.ProfitFallsWithCleanerRate | server/routes.ts:172-174 | with the same hours and net revenue, a higher cleaner rate gives a strictly lower profit |
| Quote.CleanerRateLowersProfit | server/routes.ts:172-174 | raising the cleaner rate of a request strictly lowers its profit |
| Quote.CustomAddonAddsCostNotHours | server/routes.ts:149-172 | appending a custom add-on raises the subtotal by exactly its price and changes neither the main-service hours nor the total hours |
| Quote.SingleRoomFigures | server/routes.ts:131-178 | a consistent quote of 1.6 hours at $60 and $35 an hour, with nothing added, no discount and no deposit, is $96 subtotal, $9.60 GST, $105.60 total, $56 labour, $40 profit and a $0 deposit |
| Quote.SingleRoomGeneralClean | server/routes.ts:114-131 | a one-bedroom, one-bathroom general clean at the default rates succeeds as such a consistent 1.6-hour quote |
| Quote.ReplaceUnderscores | server/routes.ts:210 | every `_` becomes a space and every other character is kept |
| Quote.CapitalizeWords | server/routes.ts:210 | exactly the word characters that begin a word (`\b\w`) are upper-cased; the length is kept |
| Quote.FormatAddonName | server/routes.ts:209-211 | the output has the input's length, contains no `_`, has a space exactly where the input had `_` or a space, and elsewhere differs from the input at most in letter case |
| Quote.FormatCapitalizesWordStarts | server/routes.ts:210 | a letter at the start, after `_` or after a non-word character comes out upper-case; any other letter is unchanged |
| Quote.FormatIdempotent | server/routes.ts:209-211 | formatting a formatted name changes nothing |
| Quote.FormatCatalogueKey | server/routes.ts:209-211 | `extra_bedroom` is displayed as `Extra Bedroom` |
| AsciiText.Lower | server/utils/suburbPricing.ts:115 | `toLowerCase` keeps the length, maps each character on its own, and leaves no upper-case letter |
| AsciiText.LowerIdempotent | server/utils/suburbPricing.ts:115 | lower-casing an already lower-cased name changes nothing |
| Sequences.FindFirst | server/utils/suburbPricing.ts:47 | `Array.find` gives the index of the first element satisfying the test, or none exactly when no element does |
| Sequences.Filter | server/utils/suburbPricing.ts:172 | `Array.filter` keeps exactly the elements that pass, in their original order (a subsequence), each as many times as it occurs in the input |
| SuburbPricing.IncomeMultiplierBrackets | server/utils/suburbPricing.ts:58-61 | the multiplier is one of 1.0, 1.05, 1.15, 1.25, and each value holds exactly on its own income band |
| SuburbPricing.IncomeMultiplierMonotone | server/utils/suburbPricing.ts:58-61 | a higher income never gets a lower multiplier, and every multiplier lies in 1.0..1.25 |
| SuburbPricing.ThresholdsAreStrict | server/utils/suburbPricing.ts:58-61 | incomes of exactly 80000, 60000 and 40000 get 1.15, 1.05 and 1.0 |
| SuburbPricing.ParseIntDecimal | server/utils/suburbPricing.ts:37 | `parseInt` reads back the decimal form of any integer, whatever non-digit follows it, except an `x` or `X` after a lone `0` (which starts a hexadecimal prefix) |
| SuburbPricing.ParseIntLeadingZero | server/utils/suburbPricing.ts:37 | a number written with a leading zero parses to the number itself |
| SuburbPricing.ParseIntNaN | server/utils/suburbPricing.ts:37 | a string that starts, after white space, with neither a digit nor a sign is NaN |
| SuburbPricing.ParseIntSkipsWhitespace | server/utils/suburbPricing.ts:37 | leading white space does not change the result |
| SuburbPricing.FindPostcode | server/utils/suburbPricing.ts:47 | the search finds nothing exactly when no suburb has the postcode; otherwise it finds the first that does |
| SuburbPricing.GetMultiplierForPostcode | server/utils/suburbPricing.ts:35-62 | NaN gives 1.0, not found, "Invalid postcode format"; no suburb with the postcode gives 1.0, not found, "Postcode not found"; otherwise the first match's income multiplier, found, with no message |
| SuburbPricing.GetPostcodeInfo | server/utils/suburbPricing.ts:64-106 | the same three outcomes; a match also reports that first entry's income, suburb name and state |
| SuburbPricing.PostcodeFoundIff | server/utils/suburbPricing.ts:73-91 | `found` holds exactly when the postcode parses and some suburb has it |
| SuburbPricing.PostcodeLookupsAgree | server/utils/suburbPricing.ts:35-106 | the two postcode lookups agree on `found`, the multiplier and the message for every postcode |
| SuburbPricing.LeadingZeroPostcode | server/utils/suburbPricing.ts:73-106 | a postcode written with a leading zero, as "0800", finds the first suburb with that postcode and reports its name and state |
| SuburbPricing.FindSuburb | server/utils/suburbPricing.ts:140-142 | the search finds nothing exactly when no name matches, ignoring case; otherwise it finds the first that does |
| SuburbPricing.GetMultiplierForSuburb | server/utils/suburbPricing.ts:110-129 | an unknown suburb gives 1.0; otherwise the first case-insensitive match's income multiplier |
| SuburbPricing.GetSuburbInfo | server/utils/suburbPricing.ts:131-165 | an unknown suburb gives not found and 1.0 with no other fields; otherwise the first match's income, multiplier, postcode and state |
| SuburbPricing.SuburbFoundIff | server/utils/suburbPricing.ts:140-149 | `found` holds exactly when some suburb's name matches, ignoring case |
| SuburbPricing.SuburbLookupsAgree | server/utils/suburbPricing.ts:110-165 | `getMultiplierForSuburb(name)` equals `getSuburbInfo(name).multiplier` |
| SuburbPricing.SuburbLookupIgnoresCase | server/utils/suburbPricing.ts:140-142 | a name and its lower-case form give the same result |
| SuburbPricing.SearchSuburbs | server/utils/suburbPricing.ts:167-174 | the result is the first min(10, number of matches) matching suburbs, in list order: each is in the list and its lower-cased name contains the lower-cased query, the result is a subsequence of the list, and fewer than 10 results means every match is included |
| SuburbPricing.EmptyQueryListsFirstTen | server/utils/suburbPricing.ts:167-174 | an empty query returns the first ten suburbs of the list (all of them when there are fewer) |

## Left out

- The Express handlers of `server/routes.ts` are left out as HTTP plumbing: request parsing, logging, storage calls, serialisation and status codes.
- `loadSuburbData` and its module-level cache are left out as file I/O and global state. The suburb list is a parameter instead.
- The database tables and insert schemas in `shared/schema.ts` are left out as persistence, and so are the UI and the API test script.
- `quoteResultSchema` only declares a type and is not modelled.
- The suburb records' extra JSON keys are not modelled. The record keeps the five declared fields; the lookups read four of them (`suburb`, `postcode`, `median_income`, `state`), and `ssc_code` is never read.
- The `console.log` calls of `getMultiplierForPostcode` are left out as logging; they do not affect its result.
- `Schema.ParseAcceptsExactly` covers well-typed request bodies only. The raw request has a string `service` and numeric `bedrooms` and `bathrooms`, so a missing required field ("Required") or a value of the wrong JSON type ("Expected number"), both of which zod rejects, cannot be expressed.
- Floating point is not modelled. Amounts are exact reals, so IEEE rounding (for example 0.1 × 10) and `toFixed` formatting are absent, and so is NaN propagation.
- `toLowerCase` is modelled for ASCII letters only. Unicode case mapping is not modelled.
- `SuburbPricing.ParseInt` models the whitespace JavaScript skips except the Unicode space separators U+1680, U+2000–U+200A, U+202F, U+205F and U+3000. It also leaves out the loss of precision above 2^53, because integers are exact.
- `Quote.LookupAddon` treats the catalogue as a plain map. Keys inherited from `Object.prototype` (such as `constructor`) are truthy in JavaScript and would be accepted with non-numeric "hours"; the model rejects them as unknown.
- The request the model prices is the one `calculateQuote` reads: it includes `customAddons`, the discount fields and `depositPercentage`. `quoteCalculationSchema` does not declare these fields, and zod's object schema drops undeclared keys. A request passed through that schema first would reach `customAddons.reduce` with `customAddons` undefined. JavaScript's `undefined` is not modelled.
- `Quote.ValidRequest` is a hypothesis of the property lemmas, not a precondition of `Quote.CalculateQuote`. The source computes a quote for any numbers.
- `Quote.HourlyRateMonotone`: the total is only claimed not to fall when a discount is applied. A 100% discount, or a fixed discount held at the subtotal by the cap, keeps the total at 0 whatever the rate.
- `Quote.SingleRoomGeneralClean`: it states the quote's hours, rates and empty extras. The dollar figures follow from `Quote.SingleRoomFigures`, which states them for any consistent quote with those inputs.
- No suburb multiplier is applied to the quote, because `calculateQuote` applies none.
