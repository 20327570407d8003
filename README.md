# Sale pricing and line-item reconciliation (Ambev.DeveloperEvaluation)

This Dafny project models the sales core of the Ambev developer-evaluation Web API. It covers the following pieces.

- **Pricing.** The quantity-tier discount (`CalculateDiscount`): no discount below 4 units, 10 % from 4, 20 % from 10, and an error above 20. It also covers the line total `UnitPrice * Quantity - Discount` and the sale total, which is the sum of the line totals.
- **`CreateSaleHandler.Handle`.** It validates the command, maps it to a new `Sale`, prices every line in place and sums the totals. It then stamps the `SALE-yyyyMMdd-XXXXXX` number and the sale date, and adds the sale to the repository.
- **`UpdateSaleHandler.Handle`.** It validates the command, loads the sale and overwrites the customer and branch. It reconciles the lines against the request:
  - lines whose product is not requested are dropped;
  - the first line of each requested product is overwritten;
  - requested products without a line become new lines.

  It then reprices every line, re-sums the total and stores the sale.
- **The test-data builder.** `MapToSale` and `CalculateTotalAmount` of the unit-test data builder.
- **The FluentValidation validators.** These are the command validators (create, update, list) and their Web API request counterparts. Every validator runs all its rules and reports the failures in declaration order. The failures of a collection element carry the `Items[i].` prefix.

Amounts are `real`, standing for C# `decimal`. A `Guid` is a number below 16^32, and `Guid.Empty` is 0. `Sale` is a class with a `seq<SaleItem>` field. The repository is a class holding a map from id to sale and a log of the calls made on it. Several things that cannot be computed here become parameters:

- `DateTime.UtcNow`;
- `Guid.NewGuid()`, as the k-th call `newGuid(k)`;
- the text-to-`Guid` conversions (`Guid.Parse` and the mapper's conversion), as the oracle `parseGuid`;
- the key the store generates.

## Model

| member | source | states |
|---|---|---|
| Pricing.CalculateDiscount | src/Ambev.DeveloperEvaluation.Application/Sale/UpdateSale/UpdateSaleHandler.cs:65-74 | the discount fails exactly when the quantity is above 20 |
| Pricing.DiscountTiers | src/Ambev.DeveloperEvaluation.Application/Sale/CreateSale/CreateSaleHandler.cs:75-84 | the discount table: nothing for 3 units or fewer, a tenth of the gross for 4-9, a fifth for 10-20, an error above 20 |
| Pricing.DiscountBounded | tests/Ambev.DeveloperEvaluation.Unit/Application/TestData/SaleHandlerTestData.cs:171-180 | for quantities 0-20 and a non-negative price, the discount lies between zero and the gross amount |
| Pricing.DiscountMonotone | src/Ambev.DeveloperEvaluation.Application/Sale/UpdateSale/UpdateSaleHandler.cs:65-74 | for a non-negative price, more units never earn a smaller discount |
| Pricing.LineTotal | src/Ambev.DeveloperEvaluation.Application/Sale/CreateSale/CreateSaleHandler.cs:53-54 | a line total fails exactly when the quantity is above 20 |
| Pricing.LineTotalTiers | src/Ambev.DeveloperEvaluation.Application/Sale/CreateSale/CreateSaleHandler.cs:53-54 | for an accepted quantity and a positive price, the line total is positive and equals the gross, 90 % of it or 80 % of it, by tier |
| Pricing.PriceItem | src/Ambev.DeveloperEvaluation.Application/Sale/UpdateSale/UpdateSaleHandler.cs:117-118 | pricing a line fails exactly above 20 units; otherwise the line is priced and its other fields are kept |
| Pricing.PriceItemIdempotent | src/Ambev.DeveloperEvaluation.Application/Sale/UpdateSale/UpdateSaleHandler.cs:115-119 | repricing an already priced line leaves it unchanged |
| Pricing.PriceAllSpec | src/Ambev.DeveloperEvaluation.Application/Sale/UpdateSale/UpdateSaleHandler.cs:115-119 | the pricing loop succeeds exactly when no line is above the limit, and then prices every line in place, in order |
| Pricing.PriceAllPrices | src/Ambev.DeveloperEvaluation.Application/Sale/CreateSale/CreateSaleHandler.cs:51-55 | after a successful loop every line is priced and keeps its product, name, quantity, price and ids |
| Pricing.PriceAllAppendPriced | src/Ambev.DeveloperEvaluation.Application/Sale/UpdateSale/UpdateSaleHandler.cs:115-119 | repricing a list whose tail is already priced leaves that tail unchanged |
| Pricing.SumTotalsAppend | src/Ambev.DeveloperEvaluation.Application/Sale/UpdateSale/UpdateSaleHandler.cs:121 | the sum of the line totals is additive over concatenation |
| Pricing.SumTotalsFromFront | tests/Ambev.DeveloperEvaluation.Unit/Application/TestData/SaleHandlerTestData.cs:185-193 | the sum taken from the front agrees with the sum taken from the back |
| Pricing.SumTotalsNonNegative | src/Ambev.DeveloperEvaluation.Application/Sale/CreateSale/CreateSaleHandler.cs:57 | lines with non-negative totals sum to a non-negative total |
| Pricing.PricedTotalNonNegative | src/Ambev.DeveloperEvaluation.Application/Sale/CreateSale/CreateSaleHandler.cs:51-57 | priced lines with quantities 1-20 and positive prices give a non-negative sale total |
| Text.Utf16Length | src/Ambev.DeveloperEvaluation.Application/Sale/CreateSale/CreateSaleValidator.cs:18-19 | `string.Length` counts UTF-16 code units: between one and two per character |
| Text.Utf16LengthOfBmp | src/Ambev.DeveloperEvaluation.Application/Sale/CreateSale/CreateSaleValidator.cs:18-19 | for text inside the Basic Multilingual Plane the UTF-16 length is the number of characters |
| Text.ToUpperChar | src/Ambev.DeveloperEvaluation.Application/Sale/CreateSale/CreateSaleHandler.cs:69 | upper-casing maps 'a'-'z' to 'A'-'Z' and leaves every other character alone |
| Text.ToUpper | src/Ambev.DeveloperEvaluation.Application/Sale/CreateSale/CreateSaleHandler.cs:69 | upper-casing keeps the length and works character by character |
| Text.UpperOfLowerHex | src/Ambev.DeveloperEvaluation.Application/Sale/CreateSale/CreateSaleHandler.cs:69 | upper-casing lower-case hex digits gives upper-case hex digits |
| Text.Digits | src/Ambev.DeveloperEvaluation.Application/Sale/CreateSale/CreateSaleHandler.cs:69 | fixed-width digit text has the requested width, with decimal digits for radix 10 |
| Text.DigitsRoundTrip | src/Ambev.DeveloperEvaluation.Application/Sale/CreateSale/CreateSaleHandler.cs:69 | reading back the fixed-width digits of a number that fits gives the number |
| Text.NatToString | src/Ambev.DeveloperEvaluation.Application/Sale/CreateSale/CreateSaleValidator.cs:26-27 | the index text in `Items[i].` is a non-empty run of decimal digits |
| Text.NatToStringRoundTrip | src/Ambev.DeveloperEvaluation.Application/Sale/CreateSale/CreateSaleValidator.cs:26-27 | the index text reads back as the index |
| Guids.HexDigits | src/Ambev.DeveloperEvaluation.Application/Sale/CreateSale/CreateSaleHandler.cs:69 | a Guid gives 32 lower-case hex digits |
| Guids.ToText | src/Ambev.DeveloperEvaluation.Application/Sale/CreateSale/CreateSaleHandler.cs:69 | `Guid.ToString()` is 36 characters, with hyphens at positions 8, 13, 18 and 23 and lower-case hex elsewhere; the first 8 characters are the first 8 digits |
| Guids.TextRoundTrip | src/Ambev.DeveloperEvaluation.Application/Sale/CreateSale/CreateSaleHandler.cs:69 | the text with its hyphens removed reads back as the Guid |
| DateTimes.FormatYyyyMMdd | src/Ambev.DeveloperEvaluation.Application/Sale/CreateSale/CreateSaleHandler.cs:69 | the `yyyyMMdd` format is 8 decimal digits |
| DateTimes.FormatYyyyMMddRoundTrip | src/Ambev.DeveloperEvaluation.Application/Sale/CreateSale/CreateSaleHandler.cs:69 | the 8 digits read back as year, month and day |
| DateTimes.SameDaySameDigits | src/Ambev.DeveloperEvaluation.Application/Sale/CreateSale/CreateSaleHandler.cs:59-60 | two readings on the same calendar day format alike |
| Entities.PidsAppend | src/Ambev.DeveloperEvaluation.Domain/Entities/SaleItem.cs:21 | the product ids of a concatenation are the concatenated product ids |
| Entities.Sale.FromData | src/Ambev.DeveloperEvaluation.Domain/Entities/Sale.cs:14-61 | a sale object built from a record holds exactly that record |
| FluentRules.NotEmptyText | src/Ambev.DeveloperEvaluation.Application/Sale/CreateSale/CreateSaleValidator.cs:16-17 | `NotEmpty` on a string passes exactly when the string is not empty or white space, otherwise one failure names the property |
| FluentRules.NotEmptyGuid | src/Ambev.DeveloperEvaluation.Application/Sale/UpdateSale/UpdateSaleCommandValidator.cs:22 | `NotEmpty` on a Guid passes exactly when it is not `Guid.Empty` |
| FluentRules.NotEmptyList | src/Ambev.DeveloperEvaluation.Application/Sale/CreateSale/CreateSaleValidator.cs:24-25 | `NotEmpty` on a list passes exactly when it has an element, and the failure carries the custom message |
| FluentRules.LengthBetween | src/Ambev.DeveloperEvaluation.Application/Sale/CreateSale/CreateSaleValidator.cs:18-19 | `Length(min, max)` passes exactly when `string.Length`, counted in UTF-16 code units, is in the inclusive range |
| FluentRules.Between | src/Ambev.DeveloperEvaluation.Application/Sale/CreateSale/CreateSaleValidator.cs:39-40 | `InclusiveBetween(from, to)` passes exactly for values in the inclusive range |
| FluentRules.Above | src/Ambev.DeveloperEvaluation.Application/Sale/CreateSale/CreateSaleValidator.cs:41-42 | `GreaterThan(bound)` passes exactly for values above the bound |
| FluentRules.NotBefore | src/Ambev.DeveloperEvaluation.Application/Sale/ListSale/ListSaleValidator.cs:14 | `GreaterThanOrEqualTo` passes exactly when the value is absent or not before the other date |
| FluentRules.Nested | src/Ambev.DeveloperEvaluation.Application/Sale/CreateSale/CreateSaleValidator.cs:26-27 | a child validator's failures come out in order, each with the prefix on its property name |
| FluentRules.ForEachPassesIff | src/Ambev.DeveloperEvaluation.Application/Sale/CreateSale/CreateSaleValidator.cs:26-27 | `RuleForEach` passes exactly when every element passes |
| FluentRules.ForEachReportsElement | src/Ambev.DeveloperEvaluation.Application/Sale/CreateSale/CreateSaleValidator.cs:26-27 | every failure of element i is reported under `Items[i].` |
| FluentRules.ForEachAgreesThroughMap | src/Ambev.DeveloperEvaluation.WebApi/Features/Sales/CreateSale/CreateSaleRequestValidator.cs:27 | validating elements after a mapping that keeps their verdicts gives the same failures |
| CreateSaleValidator.ItemPassesIff | src/Ambev.DeveloperEvaluation.Application/Sale/CreateSale/CreateSaleValidator.cs:35-42 | an item passes exactly when it is acceptable, and each property is reported exactly when its own rule is broken |
| CreateSaleValidator.CommandPassesIff | src/Ambev.DeveloperEvaluation.Application/Sale/CreateSale/CreateSaleValidator.cs:16-27 | a command passes exactly when the ids are not blank, the names are not blank and 3-100 UTF-16 code units long, there is an item, and every item passes |
| CreateSaleValidator.AcceptedQuantitiesInRange | src/Ambev.DeveloperEvaluation.Application/Sale/CreateSale/CreateSaleValidator.cs:24-27 | an accepted command has at least one item, and every item has 1-20 units at a positive price |
| CreateSaleValidator.EmptyItemsReported | src/Ambev.DeveloperEvaluation.Application/Sale/CreateSale/CreateSaleValidator.cs:24-25 | an empty item list is reported with the message "A sale must have at least one item." |
| CreateSaleValidator.EmptyCustomerNameReported | tests/Ambev.DeveloperEvaluation.Unit/Application/Sale/CreateSaleCommandValidatorTests.cs:9-15 | an empty customer name is reported against `CustomerName` |
| CreateSaleValidator.DefaultCommandRejected | src/Ambev.DeveloperEvaluation.Application/Sale/CreateSale/CreateSaleValidator.cs:16-25 | a command left at its defaults is rejected |
| CreateSaleValidator.ItemBoundaries | src/Ambev.DeveloperEvaluation.Application/Sale/CreateSale/CreateSaleValidator.cs:39-42 | 0 and 21 units and a zero price are rejected; 1 and 20 units are accepted on an otherwise acceptable item |
| CreateSaleValidator.NameLengthBoundsInclusive | src/Ambev.DeveloperEvaluation.Application/Sale/CreateSale/CreateSaleValidator.cs:18-19 | names of 3 and 100 characters pass; names of 2 and 101 characters fail |
| CreateSaleValidator.SurrogatePairsCountTwice | src/Ambev.DeveloperEvaluation.Application/Sale/CreateSale/CreateSaleValidator.cs:18-19 | a name of two characters outside the Basic Multilingual Plane is four code units long and passes the length rule |
| UpdateSaleCommandValidator.CommandPassesIff | src/Ambev.DeveloperEvaluation.Application/Sale/UpdateSale/UpdateSaleCommandValidator.cs:9-25 | an update command passes exactly when the customer and branch are not blank, the names are 3-100 UTF-16 code units long, there is an item, and every item has a non-empty product, a name, 1-20 units and a positive price |
| UpdateSaleCommandValidator.CommandRulesPassIff | src/Ambev.DeveloperEvaluation.Application/Sale/UpdateSale/UpdateSaleCommandValidator.cs:9-13 | the command-level rules pass exactly when customer and branch ids are not blank, the names are acceptable and there is an item |
| UpdateSaleCommandValidator.IdUnconstrained | src/Ambev.DeveloperEvaluation.Application/Sale/UpdateSale/UpdateSaleCommandValidator.cs:9-14 | the sale id is not validated: changing it changes no failure |
| UpdateSaleCommandValidator.AcceptedQuantitiesInRange | src/Ambev.DeveloperEvaluation.Application/Sale/UpdateSale/UpdateSaleCommandValidator.cs:13-14 | an accepted command has at least one item, and every item has 1-20 units at a positive price |
| UpdateSaleCommandValidator.EmptyProductIdReported | src/Ambev.DeveloperEvaluation.Application/Sale/UpdateSale/UpdateSaleCommandValidator.cs:22 | an item `i` with `Guid.Empty` as its product is reported as `Items[i].ProductId` |
| ListSaleValidator.CommandPassesIff | src/Ambev.DeveloperEvaluation.Application/Sale/ListSale/ListSaleValidator.cs:12-14 | a list command passes exactly when the page is positive, the page size is 1-100, and the end date is not before a given start date |
| ListSaleValidator.DefaultCommandRejected | tests/Ambev.DeveloperEvaluation.Unit/Application/Sale/ListSalesHandlerTests.cs:50-58 | `new ListSaleCommand()` (page 0, size 0) is rejected |
| ListSaleValidator.DateRangeRule | src/Ambev.DeveloperEvaluation.Application/Sale/ListSale/ListSaleValidator.cs:14 | an end date before the start date is reported against `EndDate`; a start date without an end date, or an end date without a start date, passes |
| ListSaleValidator.OrderedRangeAccepted | tests/Ambev.DeveloperEvaluation.Unit/Application/TestData/ListSalesHandlerTestData.cs:16-27 | the test data's command (a date range in order, both filters, page 1 of 10) passes |
| WebSaleItemValidator.AgreesWithCommandValidator | src/Ambev.DeveloperEvaluation.WebApi/Features/Sales/CreateSale/SaleItemValidator.cs:9-12 | the web item validator reports exactly what the command item validator reports on the mapped item |
| WebCreateSaleRequestValidator.AgreesWithCommandValidator | src/Ambev.DeveloperEvaluation.WebApi/Features/Sales/CreateSale/CreateSaleRequestValidator.cs:22-27 | the web create validator reports exactly what the command validator reports on the mapped command |
| WebCreateSaleRequestValidator.RequestPassesIff | src/Ambev.DeveloperEvaluation.WebApi/Features/Sales/CreateSale/CreateSaleRequestValidator.cs:22-27 | a create request passes exactly when the mapped command is acceptable |
| WebUpdateSaleItemRequestValidator.AgreesWithCommandValidator | src/Ambev.DeveloperEvaluation.WebApi/Features/Sales/UpdateSale/UpdateSaleItemRequestValidator.cs:9-12 | the web update item validator reports exactly what the command item validator reports |
| WebUpdateSaleRequestValidator.AgreesWithCommandValidator | src/Ambev.DeveloperEvaluation.WebApi/Features/Sales/UpdateSale/UpdateSaleRequestValidator.cs:23-28 | the web update validator reports exactly what the command validator reports on the command built from the request and the route id |
| WebUpdateSaleRequestValidator.IdNotChecked | src/Ambev.DeveloperEvaluation.WebApi/Features/Sales/UpdateSale/UpdateSaleRequestValidator.cs:12 | the request's `Id` is not checked, despite the documented "Id: Required": the verdict does not depend on it, even when it is `Guid.Empty` |
| WebListSalesRequestValidator.AgreesWithCommandValidator | src/Ambev.DeveloperEvaluation.WebApi/Features/Sales/ListSales/ListSalesRequestValidator.cs:12-14 | the web list validator reports exactly what the list command validator reports on the mapped command |
| WebListSalesRequestValidator.DefaultRequestAccepted | src/Ambev.DeveloperEvaluation.WebApi/Features/Sales/ListSales/ListSaleRequest.cs:9-10 | a request left at its defaults (page 1 of 10) passes both validators |
| SaleStore.SaleRepository.constructor | src/Ambev.DeveloperEvaluation.ORM/Repositories/SaleRepository.cs:34-72 | a repository starts with the given sales and an empty call log |
| SaleStore.SaleRepository.GetByIdAsync | src/Ambev.DeveloperEvaluation.ORM/Repositories/SaleRepository.cs:52-55 | it returns null exactly when no sale is stored under the id, and otherwise a new object holding the stored sale; the store is unchanged |
| SaleStore.SaleRepository.UpdateAsync | src/Ambev.DeveloperEvaluation.ORM/Repositories/SaleRepository.cs:57-72 | an unknown id fails with KeyNotFound and changes nothing; otherwise the stored sale is overwritten and returned |
| SaleStore.SaleRepository.CreateAsync | src/Ambev.DeveloperEvaluation.ORM/Repositories/SaleRepository.cs:34-39 | a sale with an empty id gets the generated key; a key already stored fails and changes nothing; otherwise the sale is added under its key |
| CreateSaleHandler.GenerateSaleNumber | src/Ambev.DeveloperEvaluation.Application/Sale/CreateSale/CreateSaleHandler.cs:67-70 | a sale number is 20 characters: "SALE-", 8 decimal digits, "-", 6 upper-case hex digits |
| CreateSaleHandler.SaleNumberRoundTrip | src/Ambev.DeveloperEvaluation.Application/Sale/CreateSale/CreateSaleHandler.cs:67-70 | the digits read back as the clock's year, month and day, and the last six characters are the Guid's first six hex digits, upper-cased |
| CreateSaleHandler.SaleNumberCarriesSaleDay | src/Ambev.DeveloperEvaluation.Application/Sale/CreateSale/CreateSaleHandler.cs:59-60 | when the two clock readings fall on the same day, the number's date digits are the sale date's |
| CreateSaleHandler.MapItems | src/Ambev.DeveloperEvaluation.Application/Sale/CreateSale/CreateSaleProfile.cs:26 | the item mapping succeeds exactly when every product id text converts, and then copies product, name, quantity and price into new unpriced lines |
| CreateSaleHandler.MapToEntity | src/Ambev.DeveloperEvaluation.Application/Sale/CreateSale/CreateSaleProfile.cs:23 | the command mapping succeeds exactly when the customer, branch and every product id convert, and then gives a new sale holding the command's data |
| CreateSaleHandler.StampedSale | src/Ambev.DeveloperEvaluation.Application/Sale/CreateSale/CreateSaleHandler.cs:49-62 | the created sale is the mapped sale, priced, summed, numbered, dated and keyed |
| CreateSaleHandler.ValidCommandPrices | src/Ambev.DeveloperEvaluation.Application/Sale/CreateSale/CreateSaleHandler.cs:43-55 | for a validated command, pricing cannot throw: the sale is created exactly when the mapping succeeds |
| CreateSaleHandler.CreatedSaleContents | src/Ambev.DeveloperEvaluation.Application/Sale/CreateSale/CreateSaleHandler.cs:49-62 | the created sale has the generated key, the command's customer, branch and names, one priced line per requested item in order, the sum as its total, the sale number, the date, and is not cancelled |
| CreateSaleHandler.ValidSaleTotals | src/Ambev.DeveloperEvaluation.Application/Sale/CreateSale/CreateSaleHandler.cs:51-57 | for a validated command every line total is positive and the sale total is non-negative |
| CreateSaleHandler.PriceLines | src/Ambev.DeveloperEvaluation.Application/Sale/CreateSale/CreateSaleHandler.cs:51-55 | the in-place loop leaves the list priced as the pricing specification says and every other field as it was |
| CreateSaleHandler.BuildSale | src/Ambev.DeveloperEvaluation.Application/Sale/CreateSale/CreateSaleHandler.cs:51-60 | a new sale object holding the mapped sale, priced, summed, numbered and dated |
| CreateSaleHandler.Handle | src/Ambev.DeveloperEvaluation.Application/Sale/CreateSale/CreateSaleHandler.cs:41-65 | an invalid command fails with its failures and no store call; a failed mapping fails before the store; a stored key fails with `DuplicateKey` after one `Create` call carrying the specified sale; otherwise exactly the specified sale is added under the generated key, after one `Create` call |
| UpdateSaleHandler.ToDictionaryContents | src/Ambev.DeveloperEvaluation.Application/Sale/UpdateSale/UpdateSaleHandler.cs:92 | a successful `ToDictionary` is keyed by exactly the requested products and maps each to its request |
| UpdateSaleHandler.ToDictionaryFailure | src/Ambev.DeveloperEvaluation.Application/Sale/UpdateSale/UpdateSaleHandler.cs:92 | a failing `ToDictionary` names a product requested at two positions |
| UpdateSaleHandler.ToDictionarySucceedsIff | src/Ambev.DeveloperEvaluation.Application/Sale/UpdateSale/UpdateSaleHandler.cs:92 | `ToDictionary` succeeds exactly when no product is requested twice |
| UpdateSaleHandler.ToDictionaryKeyed | src/Ambev.DeveloperEvaluation.Application/Sale/UpdateSale/UpdateSaleHandler.cs:92 | every entry of the dictionary is keyed by its own product |
| UpdateSaleHandler.UpdateItem | src/Ambev.DeveloperEvaluation.Application/Sale/UpdateSale/UpdateSaleHandler.cs:127-132 | overwriting a line copies name, quantity and price from the request and keeps its ids, product and computed amounts |
| UpdateSaleHandler.CreateItem | src/Ambev.DeveloperEvaluation.Application/Sale/UpdateSale/UpdateSaleHandler.cs:137-147 | a new line fails exactly above 20 units; otherwise it has the fresh id, the sale's id, the request's data, and is priced |
| UpdateSaleHandler.LeftoverSpec | src/Ambev.DeveloperEvaluation.Application/Sale/UpdateSale/UpdateSaleHandler.cs:95-104 | the requests left over after the removal pass are exactly those whose product had no line, unchanged |
| UpdateSaleHandler.KeptProducts | src/Ambev.DeveloperEvaluation.Application/Sale/UpdateSale/UpdateSaleHandler.cs:95-104 | the kept lines hold each requested product that had a line exactly once |
| UpdateSaleHandler.KeptItemsAreFirstLines | src/Ambev.DeveloperEvaluation.Application/Sale/UpdateSale/UpdateSaleHandler.cs:95-104 | every kept line is the first line of its product in the sale, overwritten from its request |
| UpdateSaleHandler.SameProductsKeepEveryLine | src/Ambev.DeveloperEvaluation.Application/Sale/UpdateSale/UpdateSaleHandler.cs:95-107 | when a sale with distinct products is sent exactly its products, every line is kept and overwritten in place, and nothing is added |
| UpdateSaleHandler.NewItemsFields | src/Ambev.DeveloperEvaluation.Application/Sale/UpdateSale/UpdateSaleHandler.cs:107 | the added lines are one per leftover request, hold exactly the leftover products, and each is created from its request with the next fresh id |
| UpdateSaleHandler.UpdateSaleMetadata | src/Ambev.DeveloperEvaluation.Application/Sale/UpdateSale/UpdateSaleHandler.cs:79-85 | an unconvertible customer text fails with nothing changed; an unconvertible branch text fails after the customer id and name are assigned; otherwise customer and branch are overwritten and nothing else changes |
| UpdateSaleHandler.RemoveAllPass | src/Ambev.DeveloperEvaluation.Application/Sale/UpdateSale/UpdateSaleHandler.cs:95-104 | the removal loop yields the kept lines and the leftover requests of the specification |
| UpdateSaleHandler.AddRangePass | src/Ambev.DeveloperEvaluation.Application/Sale/UpdateSale/UpdateSaleHandler.cs:107 | the add loop succeeds exactly when no leftover request is above 20 units, and then creates one new line per leftover request |
| UpdateSaleHandler.UpdateSaleItems | src/Ambev.DeveloperEvaluation.Application/Sale/UpdateSale/UpdateSaleHandler.cs:90-108 | a duplicate product fails before any change; otherwise the lines become the kept lines followed by the new lines; no other field changes |
| UpdateSaleHandler.RecalculateSaleTotals | src/Ambev.DeveloperEvaluation.Application/Sale/UpdateSale/UpdateSaleHandler.cs:113-122 | when every line is within the limit, the lines are repriced and the total is their sum; otherwise the loop stops at the first line above the limit |
| UpdateSaleHandler.ValidRequests | src/Ambev.DeveloperEvaluation.Application/Sale/UpdateSale/UpdateSaleHandler.cs:36-40 | after validation every requested entry has 1-20 units at a positive price |
| UpdateSaleHandler.KeptItemsPrice | src/Ambev.DeveloperEvaluation.Application/Sale/UpdateSale/UpdateSaleHandler.cs:113-122 | kept lines overwritten from requests within the limit always price |
| UpdateSaleHandler.ValidCommandWithinLimit | src/Ambev.DeveloperEvaluation.Application/Sale/UpdateSale/UpdateSaleHandler.cs:36-40 | a validated command requests no more than 20 units of any product |
| UpdateSaleHandler.LeftoverWithinLimit | src/Ambev.DeveloperEvaluation.Application/Sale/UpdateSale/UpdateSaleHandler.cs:107 | leftover requests of a command within the limit are within the limit |
| UpdateSaleHandler.ReconciledUpdate | src/Ambev.DeveloperEvaluation.Application/Sale/UpdateSale/UpdateSaleHandler.cs:48-54 | the reconciled lines always price, and the repriced sale is an update of the original by the command |
| UpdateSaleHandler.ApplyUpdate | src/Ambev.DeveloperEvaluation.Application/Sale/UpdateSale/UpdateSaleHandler.cs:48-54 | the customer, branch and duplicate-product failures come in that order; success happens exactly when both convert and no product repeats, and then the sale is an update of the original by the command |
| UpdateSaleHandler.Handle | src/Ambev.DeveloperEvaluation.Application/Sale/UpdateSale/UpdateSaleHandler.cs:34-59 | an invalid command fails with no store call; an unknown id fails after the lookup; for a valid command and a stored sale, an unconvertible customer id, then branch id, then a repeated product id fails with that error; every failure of a valid command makes exactly the lookup call; success happens exactly when the command is valid, the sale exists, the ids convert and no product repeats; then the stored sale is the update, after a lookup and an `Update` call; a failure changes no stored sale |
| UpdateSaleHandler.UpdateHoldsRequestedProducts | src/Ambev.DeveloperEvaluation.Application/Sale/UpdateSale/UpdateSaleHandler.cs:90-108 | an updated sale holds each requested product exactly once and no other |
| UpdateSaleHandler.UpdatePricesEveryLine | src/Ambev.DeveloperEvaluation.Application/Sale/UpdateSale/UpdateSaleHandler.cs:113-122 | every line of an updated sale is priced |
| UpdateSaleHandler.UpdateKeepsFirstLines | src/Ambev.DeveloperEvaluation.Application/Sale/UpdateSale/UpdateSaleHandler.cs:95-104 | the leading lines of an updated sale are the first lines of the requested products that had one, keeping their ids, overwritten and repriced |
| UpdateSaleHandler.NewLineIsFresh | src/Ambev.DeveloperEvaluation.Application/Sale/UpdateSale/UpdateSaleHandler.cs:137-147 | the t-th added line has the t-th fresh id, the sale's id, and a product the sale did not have |
| UpdateSaleHandler.UpdateAppendsNewLines | src/Ambev.DeveloperEvaluation.Application/Sale/UpdateSale/UpdateSaleHandler.cs:107 | the trailing lines of an updated sale have fresh ids in order, the sale's id, and products the sale did not have |
| UpdateSaleHandler.UpdateLinesCarryRequests | src/Ambev.DeveloperEvaluation.Application/Sale/UpdateSale/UpdateSaleHandler.cs:90-108 | every line of an updated sale carries its request's name, quantity and price |
| UpdateSaleHandler.SameProductsKeepIds | src/Ambev.DeveloperEvaluation.Application/Sale/UpdateSale/UpdateSaleHandler.cs:95-104 | resending exactly a sale's distinct products keeps every line and its id, in place |
| UpdateSaleHandler.ValidUpdateTotalNonNegative | src/Ambev.DeveloperEvaluation.Application/Sale/UpdateSale/UpdateSaleHandler.cs:121 | a validated update has a non-negative total |
| UpdateSaleHandler.AcceptedRequestsTotalNonNegative | src/Ambev.DeveloperEvaluation.Application/Sale/UpdateSale/UpdateSaleHandler.cs:113-122 | an update by requests of 1-20 units at positive prices has a non-negative total |
| UpdateSaleHandler.DuplicateProductsPassValidation | src/Ambev.DeveloperEvaluation.Application/Sale/UpdateSale/UpdateSaleCommandValidator.cs:9-25 | a command naming the same product twice passes validation and then fails in `ToDictionary` |
| SaleHandlerTestData.CalculateTotalAmount | tests/Ambev.DeveloperEvaluation.Unit/Application/TestData/SaleHandlerTestData.cs:185-193 | the accumulating loop returns the sum of the line totals |
| SaleHandlerTestData.MapLinesSucceedsIff | tests/Ambev.DeveloperEvaluation.Unit/Application/TestData/SaleHandlerTestData.cs:84-97 | building the lines succeeds exactly when every item is within the limit and its product id converts |
| SaleHandlerTestData.MapLinesContents | tests/Ambev.DeveloperEvaluation.Unit/Application/TestData/SaleHandlerTestData.cs:84-97 | each built line has the i-th fresh id, the converted product, the request's data, and is priced |
| SaleHandlerTestData.MapLinesFirstError | tests/Ambev.DeveloperEvaluation.Unit/Application/TestData/SaleHandlerTestData.cs:84-97 | the loop fails with the error of the first item it cannot turn into a line: the discount error first, then the id conversion |
| SaleHandlerTestData.MapToSale | tests/Ambev.DeveloperEvaluation.Unit/Application/TestData/SaleHandlerTestData.cs:80-110 | the builder gives the sale of its specification: the lines, then the sale id, the customer and branch conversions, the clock reading and the sum |
| SaleHandlerTestData.MapToSaleContents | tests/Ambev.DeveloperEvaluation.Unit/Application/TestData/SaleHandlerTestData.cs:99-109 | a built sale has the fresh id taken after the lines, the clock as its date, one priced line per item in order, and the sum as its total |
| SaleHandlerTestData.GeneratedQuantitiesNeverThrow | tests/Ambev.DeveloperEvaluation.Unit/Application/TestData/SaleHandlerTestData.cs:145 | on the generated quantities 1-20 the builder fails only on an id text that is not a Guid |

## Left out

- **Decimal arithmetic.** C# `decimal` is modelled as exact `real`. Its 28-digit precision, rounding and `OverflowException` are not modelled.
- **Guid text conversion.** `Guid.Parse` and the mapper's string-to-`Guid` conversion are the oracle `parseGuid`. Accepted text formats are not modelled.
- **Randomness and the clock.** `Guid.NewGuid()` is `newGuid(k)`, the k-th call. `DateTime.UtcNow` is a parameter per reading.
- **Key generation.** The key EF generates for a new sale is the `generatedKey` parameter of `CreateAsync`.
- **Persistence details.** EF Core's persistence is reduced to a map of sale records. Three behaviours are lost:
  - `GetByIdAsync` loading without `Include(Items)`;
  - `SetValues` copying only scalar properties;
  - inserted items receiving their key and `SaleId` fix-up.
- **Object identity.** The model does not capture identity and aliasing of `SaleItem` objects. A line is a value in the sale's `seq`, and "overwritten in place" means the same position and id.
- **Order of new lines.** `UpdateSaleItems` appends the new lines in dictionary enumeration order, which .NET does not specify. The model picks the next leftover request nondeterministically. Properties of the appended lines are stated by multisets and per line, not by order.
- **Stopping point of a mid-update failure.** When `CreateItem` throws while adding lines, or `RecalculateSaleTotals` throws mid-loop, the handler aborts and nothing is stored. The model keeps the partial in-memory state, but states only that the stored sales are unchanged.
- **Mapping failure detail.** The create handler's mapper failure is one `MappingFailed` error. It does not say which id text failed.
- **Result mapping.** The AutoMapper mapping of the stored sale to `CreateSaleResult` / `UpdateSaleResult` is not modelled. The handlers return the stored sale record.
- **Null values.** Strings and lists are never null in the model. In the source, a null name fails `NotEmpty` and passes `Length`, so it reports only the `NotEmpty` failure; a null `Items` list fails `NotEmpty` and its `ForEach` rule checks no element.
- **Upper-casing.** `ToUpper` is modelled for ASCII only. That covers the hex digits the sale number uses.
- CreateSaleHandler.GenerateSaleNumber: the `yyyyMMdd` date is written in the Gregorian calendar, as under the invariant culture. Under a current culture with another default calendar (th-TH writes 2026 as 2569), the source writes other digits, so `SaleNumberRoundTrip` holds only for Gregorian cultures. The culture is ambient process state, not part of the model.
- **Missing source files.** `UpdateSaleCommand.cs` and `UpdateSaleRequest.cs` are not part of this model. Their field types (Guid sale and product ids, string customer and branch ids) are deduced from the handler, the validators and the controller.
- **Async and cancellation.** `CancellationToken`, async execution and exception types other than the modelled error values are left out.
- **Fakers.** The Bogus fakers of the test data are left out, except the quantity range 1-20 they generate.
- **Other operations.** `DeleteAsync`, `ListAllAsync`, the list handler's filtering and paging, the get handler and the controller's logging and responses are left out, as outside the pricing and reconciliation core. The controller's request-to-command mapping is kept.
- **One `CalculateDiscount`.** The three private copies of `CalculateDiscount` (create handler, update handler, test data) are textually identical and are modelled once.
- **The "Id: Required" remark.** The web update validator documents "Id: Required" but has no such rule. The model follows the code (see `WebUpdateSaleRequestValidator.IdNotChecked`).
- **Duplicate products.** The update validators accept a command that names a product twice. The handler then fails in `ToDictionary` (see `UpdateSaleHandler.DuplicateProductsPassValidation`). This is modelled as the failure `DuplicateProductId`, not as an exception.
