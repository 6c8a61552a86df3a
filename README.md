# inventory_manager in Dafny

A verified model of the core of a small retail inventory and sales program. The
program keeps products in an insertion-ordered dictionary keyed by product id. It
records sales in an append-only ledger and saves and loads that ledger as records.
Most values typed at its console go through a validation rule, among them the
buyer's CPF, checked with the Brazilian mod-11 check-digit algorithm. The main menu
choice, the choice between sale items, the search menu choice and the removal
confirmation are read without one. On top of that
state it tops up stock, sells items, classifies perishable products by how close
their expiration date is, sums up sales, removes expired products and searches the
catalogue.

The model follows the program's own layout:

| file | module | models |
|---|---|---|
| `wrappers.dfy` | `Wrappers` | `Option` (Python's `None`) |
| `text.dfy` | `Text` | `str.strip`, `str.isspace`, `str.lower` (ASCII and Latin-1), `in` on strings, `re.sub(r'[^0-9]', '', s)` |
| `validators.dfy` | `Validators` | `utils/validators.py`: every rule as a function returning `Ok(value)` or `Err(reason)` |
| `cpf_examples.dfy` | `CpfExamples` | worked CPF cases: one accepted, and one rejected for each reason |
| `product.dfy` | `Products` | `models/product.py`: `Product` as a class whose setters assign one field |
| `sale.dfy` | `Sales` | `models/sale_item.py`, `models/sale.py`: items share their product; the total follows its current price |
| `queries.dfy` | `Queries` | the filters the repository and the service apply to `inventory.values()` |
| `product_repository.dfy` | `ProductRepository` | `repositories/product_repository.py`: a class holding the dictionary as a map plus its key order |
| `sales_repository.dfy` | `SalesRepository` | `repositories/sales_repository.py`: the ledger class and the record encoding and decoding |
| `expiration.dfy` | `Expiration` | the expiration classification shared by the four reports of `services/inventory_service.py` |
| `aggregation.dfy` | `Aggregation` | the sales totals of the two sales reports |
| `inventory_service.dfy` | `InventoryService` | top-up on insert, the sale steps, removal of expired products, product search |

Units:

- Prices are integer cents.
- Dates are integer day numbers, and a date difference is a number of days.
- Timestamps are integers.
- Ids are strings.
- The clock (`datetime.now()`, `date.today()`) and the random ids (`uuid4()`) are
  parameters of the operations that use them.

Where the program's prompts would loop until a validator accepts, most service
operations take either the typed text, require that the validator accepts it and
work with the validator's normalised value, or take the answer itself and require
that it is one the validator accepts. The answers of a search are checked by
`InventoryService.ValidRequest`. `InventoryService.InsertProduct` is the
exception: it takes the barcode, name, description and brand as given, and
requires of a new product's answers only what `InventoryService.DraftValid` says
of the price and the expiration date.

## Model

| member | source | states |
|---|---|---|
| `Text.Strip` | utils/validators.py:18 | the result is the slice left after cutting leading and trailing whitespace; it is empty exactly when the input is all whitespace; its ends are not whitespace |
| `Text.KeepDigitsStrip` | utils/validators.py:71-73 | stripping whitespace first does not change which digits are kept |
| `Text.KeepDigits` | utils/validators.py:73 | removing the non-digits leaves digits only, and never a longer string |
| `Text.KeepDigitsOfDigits` | utils/validators.py:73 | a string of digits keeps all of them |
| `Text.RemoveSpaces` | utils/validators.py:62 | no space is left; every other character of the input survives, and nothing else appears |
| `Text.RemoveSpacesConcat` | utils/validators.py:62 | removing spaces from a concatenation removes them from each part, so the other characters keep their order and repeats |
| `Text.Lower` | repositories/product_repository.py:18 | same length; each character lower-cased |
| `Text.LowerHasNoUpper` | repositories/product_repository.py:26 | a lower-cased string holds no upper-case letter |
| `Text.Offset` | services/inventory_service.py:650-651 | when the substring test holds, the needle occurs at the returned offset |
| `Text.Contains` | services/inventory_service.py:650-651 | the empty needle is in every text; a needle longer than the text is in none |
| `Text.ContainsAtOffset` | services/inventory_service.py:650-651 | a needle occurring at any offset makes the substring test hold |
| `Validators.ValidateNonEmptyString` | utils/validators.py:13-22 | succeeds exactly when the input is not all whitespace; returns the stripped input, whose ends are not whitespace; the failure names the field |
| `Validators.ValidatePositiveNumber` | utils/validators.py:25-33 | succeeds exactly for values above 0, returning them unchanged |
| `Validators.ValidateNonNegativeInteger` | utils/validators.py:36-44 | succeeds exactly for values of 0 or more, returning them unchanged |
| `Validators.ValidatePositiveInteger` | utils/validators.py:47-55 | succeeds exactly for values above 0, returning them unchanged |
| `Validators.ValidateBarcode` | utils/validators.py:58-66 | succeeds exactly when the stripped input with spaces removed is a non-empty string of digits in the sense of `str.isdigit()`, and returns that string; otherwise fails as empty or as not digits |
| `Validators.SuperscriptBarcode` | utils/validators.py:62-66 | "7²" is accepted unchanged as a barcode, though '²' is not an ASCII digit |
| `Validators.WeightedSum` | utils/validators.py:82 | the weighted digit sum is non-negative |
| `Validators.CheckDigit` | utils/validators.py:81-84 | the check digit lies in 0..9 and is 0 exactly when the sum leaves a remainder below 2 modulo 11 |
| `Validators.CheckDigitTimesTen` | utils/validators.py:81-84 | the check digit equals ten times the sum, modulo 11, modulo 10 (the textbook form used by `IsCpf`) |
| `Validators.SumTimesTen` | utils/validators.py:83-84 | the same equality for any integer sum |
| `Validators.CheckCpfDigits` | utils/validators.py:75-94 | accepts a digit string exactly when it is a CPF, returning it unchanged; fails for a wrong length exactly when there are not 11 digits, and for repeated digits exactly when all 11 are equal; the first check digit fails exactly when those two checks pass and it is wrong, and the second exactly when the first is right and the second is wrong |
| `Validators.ValidateCpf` | utils/validators.py:69-94 | succeeds exactly when the digits of the input form a CPF (11 digits, not all equal, both check digits right), and then returns those bare digits; an all-whitespace input fails as empty |
| `Validators.CpfIdempotent` | utils/validators.py:73-94 | validating an accepted CPF again accepts it with the same value |
| `Validators.ValidateExpirationDate` | utils/validators.py:109-114 | succeeds exactly when the date is today or later |
| `Validators.ValidatePrice` | utils/validators.py:117-127 | succeeds exactly for 0 < cents <= 99999999; a non-positive price and a price above R$ 999.999,99 fail for different reasons |
| `Validators.ValidateBounded` | utils/validators.py:130-185 | succeeds exactly when the stripped text is non-empty, within the bounds and made of allowed characters, returning it; empty, too short and too long each fail for their own reason, in that order |
| `Validators.ValidateName` | utils/validators.py:130-143 | accepts exactly a stripped name of 2 to 100 characters from the name character class |
| `Validators.ValidateDescription` | utils/validators.py:146-153 | accepts exactly a stripped, non-empty description of at most 500 characters, returning it |
| `Validators.ValidateBrand` | utils/validators.py:156-169 | accepts exactly a stripped brand of 2 to 50 characters from the brand character class |
| `Validators.ValidateSellerName` | utils/validators.py:172-185 | accepts exactly a stripped seller name of 2 to 100 letters and whitespace |
| `Validators.ValidateQuantityForSale` | utils/validators.py:188-195 | succeeds exactly when 0 < requested <= available, returning the requested quantity; the shortage error carries both numbers |
| `CpfExamples.KnownCheckDigits` | utils/validators.py:81-84 | the check digits of 529.982.247 are 2, and then 5 |
| `CpfExamples.KnownCpfAccepted` | utils/validators.py:69-94 | "52998224725" is accepted unchanged |
| `CpfExamples.TamperedCpfRejected` | utils/validators.py:86-92 | altering the first check digit fails the first check; altering the second fails the second |
| `CpfExamples.MalformedCpfRejected` | utils/validators.py:75-79 | eleven equal digits fail as repeated; ten digits fail as a wrong length |
| `Products.Product.constructor` | models/product.py:5-27 | every argument is stored in the field of the same name |
| `Products.Product.SetId` | models/product.py:29-30 | sets the id; every other field keeps its value |
| `Products.Product.SetName` | models/product.py:32-33 | sets the name; every other field keeps its value |
| `Products.Product.SetDescription` | models/product.py:35-36 | sets the description; every other field keeps its value |
| `Products.Product.SetPrice` | models/product.py:38-39 | sets the price; every other field keeps its value |
| `Products.Product.SetBrand` | models/product.py:41-42 | sets the brand; every other field keeps its value |
| `Products.Product.SetQuantity` | models/product.py:44-45 | sets the quantity, any integer including a negative one; every other field keeps its value |
| `Products.Product.SetIsPerishable` | services/inventory_service.py:124 | sets the perishable flag; every other field keeps its value |
| `Products.Product.SetExpirationDate` | models/product.py:47-48 | sets the expiration date; every other field keeps its value |
| `Products.Product.SetBarcode` | models/product.py:50-51 | sets the barcode; every other field keeps its value |
| `Products.Product.SetCreatedAt` | models/product.py:53-54 | sets the creation time; every other field keeps its value |
| `Products.Product.SetUpdatedAt` | models/product.py:56-57 | sets the update time; every other field keeps its value |
| `Products.Product.DaysUntilExpiration` | services/inventory_service.py:377 | today plus the result is the expiration date |
| `Products.Product.IsExpired` | services/inventory_service.py:590 | a product is expired exactly when its expiration date is before today; the expiration day itself is not expired |
| `Products.SetThenGetQuantity` | models/product.py:44-45 | reading the quantity after setting it gives the value set, and nothing else changed |
| `Sales.SaleItem.Subtotal` | models/sale_item.py:14-15 | no units sold gives 0; a positive quantity at a positive price gives at least the price |
| `Sales.RepriceSoldProduct` | models/sale_item.py:15 | after a later `set_price` on the shared product, the item's subtotal is the new price times the quantity |
| `Sales.NewSale` | models/sale.py:7-19 | a given id is kept and a fresh one is used when none is given; items, seller, CPF and date are stored as given |
| `Sales.Total` | models/sale.py:36-37 | the total of no items is 0 |
| `Sales.TotalConcat` | models/sale.py:36-37 | the total of two item lists joined is the sum of their totals |
| `Sales.TotalNonNegative` | models/sale.py:36-37 | items with non-negative prices and quantities have a non-negative total |
| `Queries.Select` | services/inventory_service.py:650-689 | the selection holds only products of the input that meet the criterion, and every product of the input that meets it |
| `Queries.SelectMember` | services/inventory_service.py:650-689 | a product is selected exactly when it is in the input and meets the criterion |
| `Queries.SelectConcat` | services/inventory_service.py:650-689 | selecting from two lists joined joins the selections, so order is kept |
| `Queries.SelectDistinct` | services/inventory_service.py:650-689 | selecting from a list without repetitions gives a list without repetitions |
| `Queries.PerishablePartition` | services/inventory_service.py:367-368 | the perishable and non-perishable products together are the whole list, none in both, and their counts add up to its length |
| `Queries.FirstMatching` | repositories/product_repository.py:24-36 | the position of the first product meeting the criterion, or None exactly when no product meets it |
| `ProductRepository.ValuesOf` | repositories/product_repository.py:13-14 | the values in key order, one per key |
| `ProductRepository.StoredValues` | repositories/product_repository.py:13-14 | the values are exactly the stored products, as many as there are keys |
| `ProductRepository.Without` | repositories/product_repository.py:40 | the key order without the deleted key, nothing else removed |
| `ProductRepository.WithoutConcat` | repositories/product_repository.py:40 | deleting a key from a concatenated order deletes it from each part, so the other keys keep their order |
| `ProductRepository.Inventory.constructor` | repositories/product_repository.py:4 | the repository starts empty |
| `ProductRepository.Inventory.GetProduct` | repositories/product_repository.py:21-22 | the product stored under the id, and None exactly when the id is absent |
| `ProductRepository.Inventory.InsertProduct` | repositories/product_repository.py:6-7 | afterwards the id of `p` maps to `p` and every other id to what it did before; a new id goes last in the order |
| `ProductRepository.Inventory.UpdateProduct` | repositories/product_repository.py:9-11 | the product is always stored under the given id, present or not, and is returned |
| `ProductRepository.Inventory.RemoveProduct` | repositories/product_repository.py:38-42 | reports true exactly when the id was present; afterwards it is absent and every other entry and the order of the rest are unchanged |
| `ProductRepository.Inventory.Find` | repositories/product_repository.py:24-36 | the scan in insertion order with early return finds the first product meeting the criterion, and None exactly when none does |
| `ProductRepository.Inventory.GetProductByBarcode` | repositories/product_repository.py:31-36 | the first product in insertion order with that barcode, and None exactly when no product has it |
| `ProductRepository.Inventory.GetProductByName` | repositories/product_repository.py:24-29 | as written: finds only a product whose stored name equals the lower-cased query, the first such in insertion order, and None exactly when there is none |
| `ProductRepository.Inventory.GetProductByNameIgnoringCase` | repositories/product_repository.py:24-29 | corrected: finds the first product in insertion order whose name equals the query ignoring case, None exactly when there is none, and always one when a stored name equals the query exactly |
| `ProductRepository.Inventory.ListProductsByBrand` | repositories/product_repository.py:16-19 | exactly the stored products whose brand equals the query ignoring case, in insertion order: the selection by brand of the stored values |
| `ProductRepository.UpperCaseNameNeverMatches` | repositories/product_repository.py:26 | a stored name with an upper-case letter never equals a lower-cased query |
| `ProductRepository.CapitalisedNameNotFound` | repositories/product_repository.py:26 | the name "Arroz" equals no lower-cased query |
| `ProductRepository.CapitalisedNameLookup` | repositories/product_repository.py:24-29 | with one product named "Arroz" stored, the lookup as written for "Arroz" finds nothing; the lookup ignoring case finds it |
| `SalesRepository.EncodeItems` | repositories/sales_repository.py:39-45 | one record per item, in item order, with the product's id and the item's quantity |
| `SalesRepository.SaleToDict` | repositories/sales_repository.py:33-46 | the record holds the sale's id, seller, CPF and date, and one (product id, quantity) record per item in order |
| `SalesRepository.DecodeItems` | repositories/sales_repository.py:49-53 | no more items than records, each referring to a stored product |
| `SalesRepository.DecodeSale` | repositories/sales_repository.py:48-60 | the decoded sale keeps the record's id, seller, CPF and date; it has no more items than records, each referring to a stored product |
| `SalesRepository.DecodeAll` | repositories/sales_repository.py:29-31 | one decoded sale per record, in order |
| `SalesRepository.Resolvable` | repositories/sales_repository.py:51-52 | the records whose product id is stored, and only those |
| `SalesRepository.ResolvableConcat` | repositories/sales_repository.py:50-53 | filtering a concatenation of records filters each part, so the kept records keep their order and repeats |
| `SalesRepository.DecodeItemsConcat` | repositories/sales_repository.py:50-53 | decoding two record lists joined joins the decoded items |
| `SalesRepository.DecodeKeepsResolvable` | repositories/sales_repository.py:48-53 | decoding keeps exactly the records whose product is stored, in their order, each as that product with the record's quantity |
| `SalesRepository.DecodeDropsNothing` | repositories/sales_repository.py:48-53 | when every product id is stored, the i-th item is the i-th record's product and quantity |
| `SalesRepository.DecodeDropsUnknown` | repositories/sales_repository.py:51-53 | when no product id is stored, no item is left |
| `SalesRepository.DecodeEncode` | repositories/sales_repository.py:33-60 | when each item's product is the one stored under its id, decoding the encoding gives the sale back exactly |
| `SalesRepository.RoundTripRecords` | repositories/sales_repository.py:33-60 | when each item's product id is stored under a product with that id, the decoded sale has the same id, seller, CPF, date and (product id, quantity) sequence |
| `SalesRepository.SalesLedger.constructor` | repositories/sales_repository.py:8-9 | a new ledger holds no sales |
| `SalesRepository.SalesLedger.MakeSale` | repositories/sales_repository.py:11-16 | any sale, one without items included, is appended last and reported as made; None is refused and changes nothing |
| `SalesRepository.SalesLedger.DictToSale` | repositories/sales_repository.py:48-60 | the loop builds the decoded sale: the record's id, seller, CPF and date, with the items whose product is stored |
| `SalesRepository.SalesLedger.LoadFromFile` | repositories/sales_repository.py:25-31 | a missing or empty record list leaves the ledger as it was; otherwise one decoded sale is appended per record, in order |
| `Expiration.StatusOf` | services/inventory_service.py:379-386 | expired exactly below 0 days, expiring soon exactly at 0..7, this month exactly at 8..30, valid exactly above 30 |
| `Expiration.ShownDays` | services/inventory_service.py:380-386 | an expired product shows the positive number of days since its date; any other shows its days left |
| `Expiration.Classify` | services/inventory_service.py:376-386 | each perishable product lands in exactly one list, so the four lists are as long as the input together |
| `Expiration.PlaceOf` | services/inventory_service.py:379-386 | placing a product appends it to its own status's list and leaves the other three alone |
| `Expiration.ClassifyMembership` | services/inventory_service.py:376-386 | a product is listed under a status exactly when it is one of the classified products and its days give that status |
| `Expiration.ClassifyEntries` | services/inventory_service.py:376-386 | every entry is a classified product with the day count shown for it and the status of its list |
| `Expiration.ClassifyPerishables` | services/inventory_service.py:376-386 | the loop's four lists are the classification of the input, and as long as it together |
| `Expiration.ExpirationReport` | services/inventory_service.py:359-397 | an empty inventory is reported as such; otherwise the perishables are classified, the non-perishables listed, and the five counts add up to the number of products |
| `Expiration.CsvColumns` | services/inventory_service.py:541-578 | the type column says perishable exactly for perishable products, the status column is "not applicable" exactly for the others, and a perishable product's status is the label of its report status |
| `Expiration.CsvSameThresholds` | services/inventory_service.py:545-556 | the CSV if-chain gives the label of the report's status for every day count |
| `Expiration.CsvLabelInjective` | services/inventory_service.py:545-556 | different statuses have different CSV labels |
| `Expiration.SearchSameThresholds` | services/inventory_service.py:712-721 | the search listing's if-chain gives the badge of the report's status for every day count |
| `Expiration.BadgeInjective` | services/inventory_service.py:712-721 | different statuses have different badges |
| `Aggregation.TallyOf` | services/inventory_service.py:259-267 | the summary has at most one key per line added |
| `Aggregation.TallyDomain` | services/inventory_service.py:267 | the summary's keys are distinct and are exactly its dictionary's keys |
| `Aggregation.TallyKeys` | services/inventory_service.py:267-271 | the summary lists every key of the lines exactly once, and no other |
| `Aggregation.TallyUnits` | services/inventory_service.py:267 | the units under each key are the sum of that key's lines |
| `Aggregation.SumAfterBump` | services/inventory_service.py:259-267 | adding units under a key adds them to the sum of the summary's values |
| `Aggregation.TallySum` | services/inventory_service.py:259-267 | the summary's values add up to the units of all lines |
| `Aggregation.TallyOrder` | services/inventory_service.py:267-271 | the summary's keys come in the order in which they first occur |
| `Aggregation.UnitsConcat` | services/inventory_service.py:266 | the units of two item lists joined add up |
| `Aggregation.UnitsFlatten` | services/inventory_service.py:259-266 | the units of all items of all sales are the sum, over the sales, of each sale's units |
| `Aggregation.ByBarcodeAndNameUnits` | services/inventory_service.py:263-267 | keying items by (barcode, name) keeps every unit |
| `Aggregation.ByNameUnits` | services/inventory_service.py:309-317 | keying items by name keeps every unit |
| `Aggregation.SummaryMatchesTotal` | services/inventory_service.py:259-267 | the (barcode, name) summary's values add up to the units sold over all sales |
| `Aggregation.NameSummaryMatchesTotal` | services/inventory_service.py:308-317 | the name summary's values add up to the units sold over all sales |
| `Aggregation.SalesReport` | services/inventory_service.py:243-267 | the loops' total is the units sold over all sales, and their summary is the tally of the items keyed by (barcode, name) |
| `Aggregation.AddItems` | services/inventory_service.py:260-267 | one sale's items extend the running total and summary |
| `Aggregation.SalesTextReport` | services/inventory_service.py:290-317 | the loops' total is the units sold over all sales, and their summary is the tally of the items keyed by name |
| `Aggregation.AddItemsByName` | services/inventory_service.py:308-317 | one sale's items extend the running total and the name summary, a present name adding and a new one set |
| `InventoryService.InsertProduct` | services/inventory_service.py:10-75 | the barcode is found exactly when some stored product has it, and then the product is the first in insertion order that has it: its stock grows by the amount entered, its update time is set, it is stored again under its id, no product is created and the key order is unchanged when that id was already a key; otherwise a fresh product with the new id and the draft's values is stored under the new id, which goes last when it is new; no other product changes |
| `InventoryService.AddNew` | services/inventory_service.py:60-74 | a fresh product with the new id and the draft's values is stored under the new id, which goes last in the order when it is new; its price is in the accepted range and it has a date, not before today, exactly when it is perishable |
| `InventoryService.TopUp` | services/inventory_service.py:22-25 | the stock grows by the amount entered, the update time is set and nothing else about the product changes; the product is stored again under its id, and the key order is unchanged when that id was already a key |
| `InventoryService.SellItem` | services/inventory_service.py:200-208 | the stock falls by exactly the validated quantity and stays non-negative; the product is stored again, its key keeping its place in the order; the item refers to it |
| `InventoryService.CompleteSale` | services/inventory_service.py:219-236 | the sale recorded has the items, the validated seller name, the bare CPF digits, the date and a fresh id; the buyer's CPF is valid; recording succeeds and appends it |
| `InventoryService.RestoreStock` | services/inventory_service.py:204-206 | every product referred to by the items gets back the units of all items that refer to it, and nothing else about it changes |
| `InventoryService.CancelledSaleAsWritten` | services/inventory_service.py:200-221 | one item of 3 units sold from a stock of 10, then the seller's name prompt cancelled: the stock is left at 7 and no sale is recorded |
| `InventoryService.CancelledSaleRestoringStock` | services/inventory_service.py:200-221 | the same cancelled sale with the stock given back: the stock is 10 again and no sale is recorded |
| `InventoryService.IdList` | services/inventory_service.py:608-609 | the ids of the products, in order |
| `InventoryService.WithoutAll` | services/inventory_service.py:607-610 | the key order without the removed ids, nothing else removed |
| `InventoryService.WithoutAllConcat` | services/inventory_service.py:607-610 | removing ids from a concatenated order removes them from each part, so the remaining keys keep their order |
| `InventoryService.WithoutNothing` | services/inventory_service.py:607 | removing no ids changes nothing |
| `InventoryService.WithoutOneMore` | services/inventory_service.py:608-610 | removing one more id from the order is removing the larger set |
| `InventoryService.RemoveExpiredProducts` | services/inventory_service.py:582-614 | an empty inventory, no expired product or no confirmation changes nothing; otherwise the ids of the expired perishable products are removed, everything else is kept, and the count is the number of those ids that were stored |
| `InventoryService.RemoveListed` | services/inventory_service.py:607-611 | the ids of the listed products are removed, the rest kept in order, and the count is the number of those ids that were stored |
| `InventoryService.RemoveEach` | services/inventory_service.py:607-611 | the loop over the ids: they are removed, the rest kept in order, and the count is the number of those ids that were stored |
| `InventoryService.RemoveCounted` | services/inventory_service.py:609-610 | one turn of the removal loop extends the removed ids and the count by the one id |
| `InventoryService.RemovalStep` | services/inventory_service.py:609 | removing one more id from the map and order that lack the earlier ones |
| `InventoryService.CountStep` | services/inventory_service.py:609-610 | one more removal counts exactly when its id was stored and not removed before |
| `InventoryService.DistinctIdsCard` | services/inventory_service.py:590 | products with distinct ids have as many ids as products |
| `InventoryService.SelectDistinctIds` | services/inventory_service.py:590 | selecting from products with distinct ids keeps the ids distinct |
| `InventoryService.Confirms` | services/inventory_service.py:604-606 | an answer that confirms is, once trimmed, one or three characters long and starts with "s" or "S" |
| `InventoryService.ExpiredIdsStored` | services/inventory_service.py:590-609 | when every product is stored under its own id, every id taken from the expired products is the key of a stored expired product |
| `InventoryService.ExpiredKeysListed` | services/inventory_service.py:590-609 | every key of a stored expired product is among the ids taken from the expired products |
| `InventoryService.ExpiredRemovalExact` | services/inventory_service.py:590-612 | when every product is stored under its own id, the ids removed are the keys of exactly the expired perishable products, and the count is the number of expired products found |
| `InventoryService.SearchProducts` | services/inventory_service.py:616-697 | an empty inventory, an option outside the menu and a minimum price above the maximum are reported exactly when they occur; the barcode option finds none exactly when no product has the barcode, and otherwise exactly the first product in insertion order that has it; every other option finds exactly the stored products that pass its test, in insertion order and each once per key (`Select` over the stored values) |
| `InventoryService.SearchSelects` | services/inventory_service.py:646-688 | the test of each option: name or brand containing the query ignoring case, stock below the threshold (5 when its prompt is cancelled), price within the range inclusive, perishable, non-perishable |

## Left out

- Console input and output: the `safe_input*` retry loops, the menus and every `print`.
- Cancelled prompts (`None`): each makes its operation return early. Outside `make_sale`, and in `make_sale` before the first item's stock step, nothing has changed by then.
- `make_sale`'s early returns after `InventoryService.SellItem` has run (the next barcode unknown or cancelled, the quantity, the choice between items, the seller or the CPF cancelled) keep the stock taken off and record no sale, because `InventoryService.CompleteSale` is never reached. `InventoryService.CancelledSaleAsWritten` shows one such case; see Findings.
- File output: `save_to_file`, the JSON helpers of `utils/serializations.py`, the text and CSV report files, `strftime` formatting and timestamped file names. The reports are modelled only by the computations ahead of their output.
- `main.py`, which is start-up and menu plumbing, and the `__init__.py` re-exports.
- Floating point. Prices are integer cents, so the `round(price, 2) != price` test of `validate_price` has no counterpart.
- `validate_date`: `date.fromisoformat` parsing is a library call, and dates are day numbers throughout.
- `str(...)`, `UUID(...)`, `isoformat` and `fromisoformat` in the record codec are taken as the identity on ids and dates.
- `Validators.ValidateName`, `Validators.ValidateBrand`, `Validators.ValidateSellerName`: the `str.title()` applied to the accepted value is not modelled; the value is returned as stripped.
- `Text.Lower`: lower-cases ASCII and Latin-1 letters only (A-Z and U+00C0-U+00DE without U+00D7). A search query may hold other letters. So may a validated name or brand once `str.title()` has run: it turns 'ÿ' into 'Ÿ' (U+0178), which is outside Latin-1. Such letters are left as they are.
- `Validators.ValidateBarcode`: digits are those of Unicode 15.0 (`Text.IsUnicodeDigit`); a Python built on another Unicode version may accept a slightly different set.
- The getters of `Product`, `SaleItem` and `Sale`, `list_products` and `list_sales` are field reads of the model (`p.quantity`, `item.product`, `sale.items`, `Inventory.Values()`, `SalesLedger.sales`). Being reads, they return the very values and objects stored.
- `Products.Product.DaysUntilExpiration` and `Products.Product.IsExpired`: the product class shown defines neither, nor the `is_perishable` field the service passes and reads. They are added: days are expiration minus today, and expired means fewer than 0 days. The second is an assumption about the code that is not shown.
- `make_sale`'s interactive loop is modelled as its steps, `InventoryService.SellItem` for each item and `InventoryService.CompleteSale` at the end. The loop itself and the option menu between items are console input.
- `InventoryService.InsertProduct`: takes the barcode, name, description and brand as given and does not require that their validators accept them; only the price and the expiration date are required to be answers their prompts let through (`InventoryService.DraftValid`). The name and brand are not title-cased (see `Validators.ValidateName` above). The bounds on price and date are stated by `InventoryService.AddNew`, not repeated in `InsertProduct`'s own contract.
- `InventoryService.InsertProduct`: after a top-up the dictionary is stated as the old one with the product stored under its id. It is the old dictionary itself only when the product was already stored under its own id; `set_id` can break that, and the source then stores the product under its new id.
- `InventoryService.SearchProducts`: takes the menu answer and its prompts' answers as a request, each answer as its prompt returns it. The "no product found" message is the empty `Found` result.
- `Aggregation.SalesReport`: the early return for an empty ledger is not a separate outcome; it leaves the same zero total and empty summary.
- `Expiration.ExpirationReport`: also stands for the text report's classification (services/inventory_service.py:428-457), which is the same loop.
- The `repository` that `repositories/sales_repository.py` looks products up in is taken to be the product repository, passed in as an `Inventory`.

Where the code and its description differ, the code was followed. `make_sale` tests `if sale:`, and a Python object is truthy unless it defines otherwise. So a sale with no items is appended and reported as made; only `None` is refused.

## Findings

| source | as written | input that shows it | evidently intended | confidence | as-written member | corrected member |
|---|---|---|---|---|---|---|
| services/inventory_service.py:204-206 | takes each item's units off the stock as soon as the item is entered, and the later early returns do not give them back | one product with stock 10; sell 3 units of it, then cancel the seller's name prompt: the stock is 7 and no sale is recorded | give the collected items' units back before returning, so that a sale not recorded leaves the stock as it was | not executed | `InventoryService.CancelledSaleAsWritten` (with `InventoryService.SellItem`) | `InventoryService.CancelledSaleRestoringStock` (with `InventoryService.RestoreStock`) |
| repositories/product_repository.py:26 | compares the stored name with the lower-cased query, leaving the stored name as it is | a product stored with the name "Arroz" (validated names are title-cased) and the query "Arroz": nothing is found | compare both sides lower-cased, so that a stored name is found ignoring case | not executed | `ProductRepository.Inventory.GetProductByName` (with `ProductRepository.CapitalisedNameLookup`) | `ProductRepository.Inventory.GetProductByNameIgnoringCase` |
