# CARB shipping-compliance checks, modelled in Dafny

The repository checks carts at checkout against the California Air Resources
Board (CARB) shipping restriction: when an order ships to a California address,
products that are not CARB compliant may not be shipped. The check exists in
three copies that have drifted apart. The model keeps each copy as its own
module:

- `CarbValidation` (client utility): products carry a boolean `hasAnyTag`. Every
  non-compliant title is listed in one aggregate error.
- `ServerValidation` (server function): the same aggregate error, behind a
  buyer-journey gate. A missing `hasAnyTag` counts as non-compliant.
- `MetafieldValidation` (metafield function): a line is non-compliant only when
  its product metafield reads exactly `"true"`. One generic error is emitted
  however many lines are flagged. There is no journey gate.

`CarbHook` models the pure parts of the client hook that feeds the client
check. They are: reading compliance from tags, de-duplicating variant ids,
building the variant-to-product map and the cart, and the errors one
validation pass ends with. `CheckoutExtension` holds the one blocking rule of
the UI extension. `Carts` holds the shared shapes, the title and message text,
and the California delivery gate, which all three copies write identically.

Absent values are explicit: a custom line has product `None`; an undefined or
null address, code, title, tag list or metafield is `None`. JavaScript's
`x || d` is `OrDefault`, so an empty string falls back like an absent one.

The loops of the source (`forEach` with `push`, the `forEach` that fills the
product map) are methods proved equal to specification functions. The
properties are proved about those functions.

The client utility says it mirrors the server function
(fe-validation/extensions/cart-checkout-validation/src/utils/carbValidation.ts:4-5).
Both copies test `!hasAnyTag`
(fe-validation/extensions/cart-checkout-validation/src/utils/carbValidation.ts:62-64,
be-validation/extensions/cart-checkout-validation/src/run.ts:51-53), so a
missing flag is non-compliant in either. Only the client's declared product
type makes the flag mandatory
(fe-validation/extensions/cart-checkout-validation/src/utils/carbValidation.ts:10),
so the model types it `bool` on the client and `Option<bool>` on the server.
Each copy has its own module; the metafield function has its own predicate,
compliance signal and message policy.

## Model

| member | source | states |
|---|---|---|
| Carts.DisplayTitle | fe-validation/extensions/cart-checkout-validation/src/utils/carbValidation.ts:65 | the reported title is never empty: a present non-empty title is kept, an absent or empty one becomes "Unknown Product" |
| Carts.JoinEmptyIff | fe-validation/extensions/cart-checkout-validation/src/utils/carbValidation.ts:72 | joining non-empty titles with ", " gives the empty string only for an empty list, so a reported list is never blank |
| Carts.IsCaliforniaAddress | fe-validation/extensions/cart-checkout-validation/src/utils/carbValidation.ts:94-96 | an address is Californian iff it is exactly the address with country "US" and province "CA"; any absent or different code fails |
| Carts.HasCaliforniaIff | fe-validation/extensions/cart-checkout-validation/src/utils/carbValidation.ts:119-123 | the gate holds iff some delivery group has an address with country "US" and province "CA"; a group without an address never matches |
| CarbValidation.NonCompliantTitles | fe-validation/extensions/cart-checkout-validation/src/utils/carbValidation.ts:102-113 | at most one title per line, and every title is non-empty |
| CarbValidation.NonCompliantTitlesAppend | fe-validation/extensions/cart-checkout-validation/src/utils/carbValidation.ts:105-110 | the titles of two runs of lines are the titles of the first run followed by those of the second: line order is kept |
| CarbValidation.NonCompliantTitlesAt | fe-validation/extensions/cart-checkout-validation/src/utils/carbValidation.ts:105-110 | every flagged line contributes its own title at its own place, so equal titles on several lines are all kept |
| CarbValidation.NonCompliantTitlesEmptyIff | fe-validation/extensions/cart-checkout-validation/src/utils/carbValidation.ts:105-109 | no title is collected iff no line has a product with `hasAnyTag` false; custom lines are never flagged |
| CarbValidation.NonCompliantTitlesSound | fe-validation/extensions/cart-checkout-validation/src/utils/carbValidation.ts:105-109 | every collected title is the display title of some flagged line |
| CarbValidation.CarbErrors | fe-validation/extensions/cart-checkout-validation/src/utils/carbValidation.ts:43-80 | at most one error, always targeted at "$.cart"; none without a California group; non-empty iff California and some flagged line; its message is the fixed prefix, the titles joined by ", ", the fixed suffix |
| CarbValidation.GetNonCompliantProducts | fe-validation/extensions/cart-checkout-validation/src/utils/carbValidation.ts:102-113 | the `forEach` loop returns exactly the titles of the flagged lines, in line order |
| CarbValidation.ValidateCarbCompliance | fe-validation/extensions/cart-checkout-validation/src/utils/carbValidation.ts:43-80 | the gate-then-loop-then-push procedure returns exactly the errors characterised by `CarbValidation.CarbErrors` |
| ServerValidation.FlaggedTitles | be-validation/extensions/cart-checkout-validation/src/run.ts:47-59 | at most one title per line |
| ServerValidation.FlaggedTitlesAppend | be-validation/extensions/cart-checkout-validation/src/run.ts:47-59 | titles of concatenated lines are the concatenated titles: line order is kept |
| ServerValidation.FlaggedTitlesEmptyIff | be-validation/extensions/cart-checkout-validation/src/run.ts:47-59 | nothing is flagged iff every line either has no product or has `hasAnyTag` true; a missing flag counts as non-compliant |
| ServerValidation.CarbErrors | be-validation/extensions/cart-checkout-validation/src/run.ts:30-70 | at most one error, targeted at "$.cart"; none without a California group; non-empty iff California and some flagged line; message lists the flagged titles joined by ", " |
| ServerValidation.CheckCarbCompliance | be-validation/extensions/cart-checkout-validation/src/run.ts:30-70 | the gate-then-loop-then-push procedure returns exactly the errors characterised by `ServerValidation.CarbErrors` |
| ServerValidation.CartValidationsGenerateRun | be-validation/extensions/cart-checkout-validation/src/run.ts:8-28 | outside `CheckoutInteraction` the result has no operation at all; otherwise exactly one `validationAdd` carrying the compliance errors, even when there are none |
| ServerValidation.FlaggedTitlesMatchClient | be-validation/extensions/cart-checkout-validation/src/run.ts:47-59 | the server's titles equal the client's titles once a missing `hasAnyTag` is read as false |
| ServerValidation.MissingFlagIsNonCompliant | be-validation/extensions/cart-checkout-validation/src/run.ts:51-53 | on every cart, the server errors equal the client errors of the same cart with each missing flag replaced by false |
| ServerValidation.MirrorsClientValidation | be-validation/extensions/cart-checkout-validation/src/run.ts:30-70 | on a cart whose flags are all defined, the server check and the client check return identical errors |
| MetafieldValidation.HasNonCompliantIff | extensions/cart-checkout-validation/src/run.ts:40-45 | the `some` holds iff some line has a product whose metafield value is exactly "true" |
| MetafieldValidation.CarbErrors | extensions/cart-checkout-validation/src/run.ts:25-55 | the errors are empty or the single fixed generic error at "$.cart"; non-empty iff a California group exists and some line's metafield is exactly "true" |
| MetafieldValidation.CheckCarbCompliance | extensions/cart-checkout-validation/src/run.ts:25-55 | the two tests and the conditional push return exactly the errors characterised by `MetafieldValidation.CarbErrors` |
| MetafieldValidation.CartValidationsGenerateRun | extensions/cart-checkout-validation/src/run.ts:7-23 | the result always holds exactly one `validationAdd`, with empty errors included |
| MetafieldValidation.CountIndependent | extensions/cart-checkout-validation/src/run.ts:47-52 | any two carts with the same delivery groups and at least one flagged line each get identical errors, whatever the number of flagged lines |
| MetafieldValidation.NonCompliantMatchesClient | extensions/cart-checkout-validation/src/run.ts:40-45 | a line is flagged by the metafield test iff the client test flags it once `hasAnyTag` is set to `value != "true"` |
| MetafieldValidation.AgreesWithClientOnWhenToReport | extensions/cart-checkout-validation/src/run.ts:25-55 | the metafield variant reports an error on exactly the carts on which the client variant reports one after translation |
| MetafieldValidation.TestScenarios | extensions/cart-checkout-validation/src/run.test.ts:6-202 | the five scenarios: "true" to New York gives no error; "true" to California gives the generic error; "false", a null metafield and "no" to California give none |
| CarbHook.AnyComplianceTagIff | fe-validation/extensions/cart-checkout-validation/src/hooks/useCarbValidation.ts:122-127 | the `some` over tags holds iff some tag is one of the four compliance tags |
| CarbHook.CheckCarbComplianceTags | fe-validation/extensions/cart-checkout-validation/src/hooks/useCarbValidation.ts:117-128 | compliant iff the tags are present and contain "EPA:Compliant", "EPA:N/A", "California Compliant" or "Non-CARB:Y"; absent tags give false |
| CarbHook.IndexOf | fe-validation/extensions/cart-checkout-validation/src/hooks/useCarbValidation.ts:41 | -1 iff the id is absent; otherwise the position of its first occurrence |
| CarbHook.KeepFirstSpec | fe-validation/extensions/cart-checkout-validation/src/hooks/useCarbValidation.ts:41 | the filtered suffix holds ids in strictly increasing first-occurrence position and every id first occurring from that point on |
| CarbHook.UniqueVariantIdsSpec | fe-validation/extensions/cart-checkout-validation/src/hooks/useCarbValidation.ts:40-41 | the unique ids have no duplicates, the same elements as the input, and first-occurrence order |
| CarbHook.BuildVariantProductMap | fe-validation/extensions/cart-checkout-validation/src/hooks/useCarbValidation.ts:68-76 | the `forEach` leaves exactly the map `ProductMap(nodes)` |
| CarbHook.ProductMapKeys | fe-validation/extensions/cart-checkout-validation/src/hooks/useCarbValidation.ts:69-76 | an id is a key iff some non-null node with a product has that id |
| CarbHook.ProductMapValue | fe-validation/extensions/cart-checkout-validation/src/hooks/useCarbValidation.ts:71-74 | the entry under an id is built from the last node with that id, its title and `checkCarbComplianceTags` of its tags |
| CarbHook.BuildCart | fe-validation/extensions/cart-checkout-validation/src/hooks/useCarbValidation.ts:79-95 | one line per cart line, in order, quantities kept; a known variant gets its map entry, an unknown one "Unknown Product" with `hasAnyTag` false; no group without a shipping address, else one with "US"/"CA" filled in for missing codes |
| CarbHook.CaliforniaAfterDefaults | fe-validation/extensions/cart-checkout-validation/src/hooks/useCarbValidation.ts:89-94 | the built cart passes the California gate iff a shipping address exists whose country is absent, empty or "US" and whose province is absent, empty or "CA" |
| CarbHook.UnknownVariantReported | fe-validation/extensions/cart-checkout-validation/src/hooks/useCarbValidation.ts:83-86 | on a Californian cart, a line whose variant is not in the map makes the check fail and is reported as "Unknown Product" |
| CarbHook.HasErrors | fe-validation/extensions/cart-checkout-validation/src/hooks/useCarbValidation.ts:133 | the hook reports errors iff the final error list is non-empty |
| CarbHook.ValidateCart | fe-validation/extensions/cart-checkout-validation/src/hooks/useCarbValidation.ts:29-114 | no errors for absent or empty cart lines; exactly the synthetic "Unable to validate CARB compliance. Please try again." error on a failed query; no errors without nodes; otherwise the client check of the built cart; at most one error, always at "$.cart" |
| CheckoutExtension.BuyerJourneyIntercept | fe-validation/extensions/cart-checkout-validation/src/Checkout.tsx:28-48 | progress is blocked, with reason "Shipping restrictions", iff blocking is possible and there are errors |
| CheckoutExtension.FailedFetchBlocks | fe-validation/extensions/cart-checkout-validation/src/Checkout.tsx:32-41 | once the errors of a failed query on a non-empty cart are stored, progress is blocked whenever blocking is possible |

## Left out

- The GraphQL query, its promise chain, `useApi`, `useShippingAddress` and `useCartLines` are platform calls. Their outcomes are inputs: the cart lines (or `None` when unavailable), the shipping address, and a `FetchOutcome`.
- React state (`isValidating`, the setters), the `useEffect` trigger and `refetch` are not modelled. `ValidateCart` gives the errors a pass finally stores.
- All `console` logging is left out.
- The pending window of a validation pass is left out: while the query is in flight the hook has already reset its errors to `[]` (fe-validation/extensions/cart-checkout-validation/src/hooks/useCarbValidation.ts:37), so `hasErrors` is false and the intercept allows progress until the outcome is stored.
- Rendering in `Checkout.tsx` is left out: the banner, translation, the `canUpdateAttributes` early return and extension registration.
- The generated API types are not part of this model. Each variant has its own datatypes with the fields the code reads.
- The query outcome `FetchFailed` stands for both a rejected query and an exception thrown while handling its response (for example a response whose `nodes` is not an array); both end with the same synthetic error.
- `quantity` is carried through the lines but no decision reads it.
- `CarbValidation.IsProductCarbCompliant` returns the flag unchanged. It has no contract of its own; `NonCompliantTitlesEmptyIff` states its effect.
- The query variables (the de-duplicated ids) do not shape the fetched nodes here: the nodes are an independent input.
