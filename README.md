# Store-Pilot: return bills, product codes and sales

A Dafny model of three pieces of the Store-Pilot store-management system:

- **The return-bill page** (`ReturnsBill.jsx`, module `ReturnsBill`). The page keeps a
  ledger of returned line items and a running `totalReturnAmount`. It also holds a
  draft item typed in by the user, the customer selection and the confirm-then-submit
  workflow that sends the bill. `ReturnBillPage` is a class whose fields are the
  page's state. Its invariant `Valid` is `Balanced` on the form and the draft, which
  says three things:
  - the total is the left fold `Sum` over the items;
  - the draft's total is quantity times price when both are numbers, and blank
    otherwise (`DraftBalanced`);
  - every item has a positive quantity and price, and their product as total.

  Every handler keeps the invariant.
- **The product page** (`ManageProducts.jsx`, module `ManageProducts`).
  - `NextProductCode` is the pure code generator. Its unanchored pattern
    `(\D*)(\d+)$` is modelled by `TrailingCodeMatch` and proved to be the leftmost
    match.
  - `ProductManager` is a class holding the form state. Its handlers are
    `LoadProducts`, `LoadUnits`, `HandleChange`, `HandleSubmit` and `HandleEdit`.
- **The sale service** (`SaleService.java`, module `SaleService`). `SaleStore` is a
  class holding the repositories:
  - products and customers as maps by id;
  - sales as a sequence in repository order;
  - the next ids the database hands out.

  `SaveSale` maps the request (`ToEntity`), stores the sale and runs the stock loop
  `DecrementStock`. That loop is proved against the specification function
  `Decrement`. The identifier lookups are functions over a `Query` chosen by
  `Classify`.

Module `Digits` holds the string and number helpers the three share:
- decimal digits and their value;
- `padStart`;
- JavaScript `parseInt` and Java `Integer.parseInt`;
- ASCII upper-casing;
- substring search.

Quantities and prices are exact `real` numbers. Integers are unbounded, except where
Java's `Integer.parseInt` limits them to 32 bits.

## Model

| member | source | states |
|---|---|---|
| Digits.JsParseInt | store-management-frontend/src/Component/ReturnsBill.jsx:91 | For decimal text (no `0x` prefix, see "Left out"), `parseInt` gives a number exactly when a digit follows the optional sign; the two rows below give its value. |
| Digits.JsParseIntReadsSignedDigits | store-management-frontend/src/Component/ReturnsBill.jsx:132 | An optional sign, a run of digits and any text that does not start with a digit read as the run's value, negated after a minus sign. |
| Digits.JsParseIntOfDecimal | store-management-frontend/src/Component/ReturnsBill.jsx:91 | The decimal text of an id, as an option value holds it, reads back as that id, and with a leading minus as its negation. |
| Digits.JavaParseInt | store-management/src/main/java/com/store/management/service/SaleService.java:149 | `Integer.parseInt` accepts only an optional sign followed by digits, with a value in the 32-bit range. |
| Digits.JavaParseIntOfDecimal | store-management/src/main/java/com/store/management/service/SaleService.java:149 | Every decimal spelling of an `int` from 0 to the maximum parses back to itself. |
| Digits.JavaParseIntAcceptsSignedDigits | store-management/src/main/java/com/store/management/service/SaleService.java:149 | Every optional sign followed by digits whose value fits the 32-bit range is accepted with that value, leading zeros included. |
| Digits.JavaParseIntRejectsNonDigit | store-management/src/main/java/com/store/management/service/SaleService.java:149-152 | A string with a non-digit other than a leading sign is not an id, so the lookup falls through to the next branch. |
| Digits.UpperString | store-management/src/main/java/com/store/management/service/SaleService.java:156 | `toUpperCase` keeps the length and upper-cases each ASCII letter in place. |
| Digits.NatToDecimal | store-management-frontend/src/pages/ManageProducts.jsx:78 | `toString` gives at least one character, and all of them are digits. |
| Digits.NatToDecimalReadsBack | store-management-frontend/src/pages/ManageProducts.jsx:78 | The spelling has no leading zero and reads back as the number. |
| Digits.DecimalWidth | store-management-frontend/src/pages/ManageProducts.jsx:78 | The decimal spelling of n fits in w digits exactly when n < 10^w. |
| Digits.PadStart | store-management-frontend/src/pages/ManageProducts.jsx:78 | `padStart` reaches the width, or keeps a longer string as it is. |
| Digits.PadStartShape | store-management-frontend/src/pages/ManageProducts.jsx:78 | The padded string ends with the original string, and everything before it is the fill character. |
| Digits.LeadingZeros | store-management-frontend/src/pages/ManageProducts.jsx:78 | Padding with zeros does not change the digits' value. |
| ManageProducts.TrailingCodeMatch | store-management-frontend/src/pages/ManageProducts.jsx:74 | The match, if any, splits the code into a non-digit run followed by a digit run reaching the end. |
| ManageProducts.TrailingCodeMatchIsLeftmostMatch | store-management-frontend/src/pages/ManageProducts.jsx:74-75 | `(\D*)(\d+)$` matches exactly when the code ends in a digit. The model's split is the leftmost match, and its digit group is the only possible one. |
| ManageProducts.IncrementDigits | store-management-frontend/src/pages/ManageProducts.jsx:77-78 | The incremented group is all digits and never narrower than the old one. |
| ManageProducts.IncrementDigitsCounts | store-management-frontend/src/pages/ManageProducts.jsx:77-78 | The new digits read as the old value plus one. Their width is the old width, or one more exactly when every old digit is 9. |
| ManageProducts.AllNinesIsLargest | store-management-frontend/src/pages/ManageProducts.jsx:78 | The digit run's value plus one reaches the next power of ten exactly when every digit is 9. |
| ManageProducts.SuccessorWidth | store-management-frontend/src/pages/ManageProducts.jsx:78 | The spelling of n+1 is at most one digit wider than the run, and wider only when the run is all 9s. |
| ManageProducts.NextProductCode | store-management-frontend/src/pages/ManageProducts.jsx:73-81 | The generated code always ends in a digit. |
| ManageProducts.NextProductCodeCountsUp | store-management-frontend/src/pages/ManageProducts.jsx:74-78 | The result is the kept prefix followed by digits worth one more than before, never narrower. Its own match keeps the same prefix. |
| ManageProducts.NextProductCodeDropsLeadingPart | store-management-frontend/src/pages/ManageProducts.jsx:74-78 | Everything before the last non-digit run is dropped, because the pattern is not anchored at the start. |
| ManageProducts.NoTrailingDigitGivesP001 | store-management-frontend/src/pages/ManageProducts.jsx:74-80 | A code that does not end in a digit, the empty one included, gives "P001". |
| ManageProducts.NextProductCodeMixedExample | store-management-frontend/src/pages/ManageProducts.jsx:74-78 | "AB12CD34" gives "CD35". |
| ManageProducts.PowerOfTenSpelling | store-management-frontend/src/pages/ManageProducts.jsx:78 | `toString` of 10^n is a one followed by n zeros. |
| ManageProducts.IncrementNines | store-management-frontend/src/pages/ManageProducts.jsx:77-78 | A run of nines increments to a one followed by as many zeros. |
| ManageProducts.NextProductCodeOverflow | store-management-frontend/src/pages/ManageProducts.jsx:74-78 | A code whose digit group is all nines widens by one digit, e.g. "P999" gives "P1000". |
| ManageProducts.NextProductCodeSeedExample | store-management-frontend/src/pages/ManageProducts.jsx:58-59 | The seed "P000" gives "P001". |
| ManageProducts.StartingCode | store-management-frontend/src/pages/ManageProducts.jsx:58 | `loadProducts` starts from the last product's code, or from "P000" for an empty list. |
| ManageProducts.SubmitStartingCode | store-management-frontend/src/pages/ManageProducts.jsx:122 | `handleSubmit` starts from the last product's code unless that code is blank or the list is empty. Otherwise it starts from "P000". |
| ManageProducts.StartingCodeRulesAgree | store-management-frontend/src/pages/ManageProducts.jsx:58-59 | Both starting-code rules suggest the same next code. |
| ManageProducts.EmptyListSuggestsP001 | store-management-frontend/src/pages/ManageProducts.jsx:58-59 | An empty product list suggests "P001". |
| ManageProducts.SelectedUnit | store-management-frontend/src/pages/ManageProducts.jsx:113 | The selected unit is the first unit with the form's unit name, else the first unit. There is none only when no units exist. |
| ManageProducts.ProductPayload | store-management-frontend/src/pages/ManageProducts.jsx:120-128 | The payload never has a blank name or code. A blank name becomes "Unnamed Product", a blank code becomes the next suggested code, and blank numbers become 0. Anything else is copied. |
| ManageProducts.EditUnitName | store-management-frontend/src/pages/ManageProducts.jsx:161 | The edit form's unit is the product's unit name. If that is missing or blank, it is the first unit's name, then "". |
| ManageProducts.ProductManager.constructor | store-management-frontend/src/pages/ManageProducts.jsx:30-43 | The page starts with no products or units, a blank form, no product being edited, not loading and no error. |
| ManageProducts.ProductManager.StoreProducts | store-management-frontend/src/pages/ManageProducts.jsx:55-64 | The fetched list replaces the products, and the form's code becomes the one after the last product's code. |
| ManageProducts.ProductManager.LoadProducts | store-management-frontend/src/pages/ManageProducts.jsx:50-71 | The products are stored (a body that is not an array counts as empty) and the code after the last one is suggested. On failure the list is kept and the error is set. |
| ManageProducts.ProductManager.LoadUnits | store-management-frontend/src/pages/ManageProducts.jsx:83-100 | The units are stored and the first one is preselected. On failure the error is set. |
| ManageProducts.ProductManager.HandleChange | store-management-frontend/src/pages/ManageProducts.jsx:102-104 | One input changes and the rest of the form stays. |
| ManageProducts.SubmitRequest | store-management-frontend/src/pages/ManageProducts.jsx:106-135 | With no units there is no request. Otherwise it is an update of the edited product exactly when an id is being edited, else a create. Its payload uses a unit from the list and has no blank name or code. |
| ManageProducts.ProductManager.ResetForm | store-management-frontend/src/pages/ManageProducts.jsx:137-145 | After a save the form is blank except for the chosen unit and the next suggested code. |
| ManageProducts.ProductManager.HandleSubmit | store-management-frontend/src/pages/ManageProducts.jsx:106-154 | With no units: an error and no request. Otherwise the defaulted payload is sent as an update when an id is being edited, else as a create. After success the form is cleared and the update mode ends. After failure the form and the id are kept and the error is set. |
| ManageProducts.ProductManager.HandleEdit | store-management-frontend/src/pages/ManageProducts.jsx:156-167 | The product's id is the edited id, and its fields are copied into the form with the unit fallback. |
| ReturnsBill.SumAppend | store-management-frontend/src/Component/ReturnsBill.jsx:145-146 | Appending an item adds exactly its total to the running sum. |
| ReturnsBill.SumConcat | store-management-frontend/src/Component/ReturnsBill.jsx:146 | The running sum of two lists joined is the sum of their sums. |
| ReturnsBill.SumRemoveAt | store-management-frontend/src/Component/ReturnsBill.jsx:153-155 | Removing an item lowers the sum by exactly that item's total. |
| ReturnsBill.TotalIsSumOfSubtotals | store-management-frontend/src/Component/ReturnsBill.jsx:117-146 | For items built as `addItem` builds them, the running sum is the sum of quantity times price. |
| ReturnsBill.LedgerTotalIsSubtotals | store-management-frontend/src/Component/ReturnsBill.jsx:146-155 | On every reachable page the bill total is the sum of quantity times price over its items. |
| ReturnsBill.FilterOutIndexRemovesOne | store-management-frontend/src/Component/ReturnsBill.jsx:153 | The index filter removes exactly the given position and keeps the rest in order. An index outside the list removes nothing. |
| ReturnsBill.DraftTotal | store-management-frontend/src/Component/ReturnsBill.jsx:116-120 | The draft total is a number exactly when quantity and price both are, and then it is their product. |
| ReturnsBill.InputValue | store-management-frontend/src/Component/ReturnsBill.jsx:105-108 | Empty or unreadable input is stored as blank, and anything else as the parsed number. |
| ReturnsBill.FindProduct | store-management-frontend/src/Component/ReturnsBill.jsx:132 | Finds the first catalog product with the parsed id. An unreadable id finds nothing. |
| ReturnsBill.FindCustomer | store-management-frontend/src/Component/ReturnsBill.jsx:219 | Finds the first catalog customer with the selected id. No selection finds nothing. |
| ReturnsBill.Bill | store-management-frontend/src/Component/ReturnsBill.jsx:222-230 | The bill carries the form's items, total, type and payment mode, the sale id as `parseInt` reads it, and the date's ISO text. |
| ReturnsBill.SentBill | store-management-frontend/src/Component/ReturnsBill.jsx:204-232 | A bill is sent exactly when the date converts and, in new-customer mode, the customer was created. Its customer is the created one in that mode; otherwise it is the catalog lookup's answer, which may be none. The other fields come from the form. |
| ReturnsBill.ReturnBillPage.constructor | store-management-frontend/src/Component/ReturnsBill.jsx:30-60 | The page starts with an empty ledger, total 0, an empty draft and the modal closed, and it keeps its invariant. |
| ReturnsBill.ReturnBillPage.SelectSale | store-management-frontend/src/Component/ReturnsBill.jsx:412-415 | Only the sale id changes. |
| ReturnsBill.ReturnBillPage.HandleCustomerSelect | store-management-frontend/src/Component/ReturnsBill.jsx:85-93 | "new" turns new-customer mode on and clears the customer. Any other value turns it off and stores the parsed id. |
| ReturnsBill.ReturnBillPage.HandleFormChange | store-management-frontend/src/Component/ReturnsBill.jsx:95-98 | Only the named field of the form changes. |
| ReturnsBill.ReturnBillPage.HandleNewCustomerInput | store-management-frontend/src/Component/ReturnsBill.jsx:158-161 | Only the named new-customer field changes. |
| ReturnsBill.ReturnBillPage.SelectProduct | store-management-frontend/src/Component/ReturnsBill.jsx:542-548 | Only the draft's product id changes. |
| ReturnsBill.ReturnBillPage.HandleItemChange | store-management-frontend/src/Component/ReturnsBill.jsx:100-123 | The edited field takes the parsed value and the other fields stay. Whenever quantity and price are both numbers, the draft total is their product. |
| ReturnsBill.ReturnBillPage.AddItem | store-management-frontend/src/Component/ReturnsBill.jsx:126-150 | An incomplete draft or an unknown product changes nothing. Otherwise exactly one item is appended, the earlier items stay, the total grows by the draft total (its quantity times its price) and the draft is cleared. |
| ReturnsBill.ReturnBillPage.AppendDraft | store-management-frontend/src/Component/ReturnsBill.jsx:138-149 | The draft becomes an item of the found product at the end of the ledger, the total grows by the draft's total, every other form field stays, and the draft is reset. |
| ReturnsBill.EmptyDraftRefused | store-management-frontend/src/Component/ReturnsBill.jsx:127-149 | The draft `addItem` resets to keeps the page invariant, and `addItem` refuses it again until a product, quantity and price are entered. |
| ReturnsBill.ReturnBillPage.RemoveItem | store-management-frontend/src/Component/ReturnsBill.jsx:152-156 | Exactly position i goes, the rest keep their order and the total falls by that item's total. An index outside the list changes nothing. |
| ReturnsBill.ReturnBillPage.StoreItems | store-management-frontend/src/Component/ReturnsBill.jsx:145-148 | The new item list is stored together with a total equal to the sum of the item totals; every other form field stays as it was. |
| ReturnsBill.ReturnBillPage.HandleSubmit | store-management-frontend/src/Component/ReturnsBill.jsx:164-186 | Sale, customer (or new-customer mode), items and date are checked in that order. It stops at the first one missing and leaves the modal as it was. The modal opens only when all are present. |
| ReturnsBill.ReturnBillPage.ConfirmAndSubmit | store-management-frontend/src/Component/ReturnsBill.jsx:202-259 | An incomplete new customer changes nothing. Any failure only closes the modal. Success keeps the returned id (0 counts as none), opens the popup and resets the form, the new customer, the mode and the draft. A sent bill's total is the sum of its items. |
| ReturnsBill.ReturnBillPage.ShowReturned | store-management-frontend/src/Component/ReturnsBill.jsx:235-253 | After a successful submit the form, the draft and the new customer are empty, new-customer mode is off, the confirmation is closed, and the popup shows the returned id. The page invariant holds. |
| ReturnsBill.ReturnBillPage.CancelConfirm | store-management-frontend/src/Component/ReturnsBill.jsx:262-264 | The modal closes and nothing else changes. |
| SaleService.ItemToDTO | store-management/src/main/java/com/store/management/service/SaleService.java:108-118 | The item's id, product id, code and name, quantity, price and total are carried over. |
| SaleService.CustomerToDTO | store-management/src/main/java/com/store/management/service/SaleService.java:123-130 | The customer's id, name, mobile number and address are carried over. |
| SaleService.ToDTO | store-management/src/main/java/com/store/management/service/SaleService.java:106-141 | Sale id, date, payment mode, sale type and gross total are copied. The customer maps field by field (id, name, mobile number, address), a missing one to none, and each item maps one to one in order with its product's id, code and name. |
| SaleService.DecrementOne | store-management/src/main/java/com/store/management/service/SaleService.java:43-56 | A failed iteration writes nothing. A successful one keeps the set of products. |
| SaleService.DecrementChangesOnlyQuantities | store-management/src/main/java/com/store/management/service/SaleService.java:46-55 | The stock loop changes only quantities, and every quantity it writes is at least 0. |
| SaleService.StockStaysNonNegative | store-management/src/main/java/com/store/management/service/SaleService.java:49-53 | Stock that is not negative never becomes negative, even when the loop fails. |
| SaleService.FailurePersists | store-management/src/main/java/com/store/management/service/SaleService.java:42-57 | Once an item fails, no later item runs and the earlier writes stay. |
| SaleService.FailureStopsAtFirstBadItem | store-management/src/main/java/com/store/management/service/SaleService.java:42-57 | A failed loop ends with the stock written by the items before the first bad item and with that item's error. |
| SaleService.DecrementIsCumulative | store-management/src/main/java/com/store/management/service/SaleService.java:42-56 | A loop that gets through lowers each product by its total sold quantity, repeated items included. |
| SaleService.DecrementSucceedsIff | store-management/src/main/java/com/store/management/service/SaleService.java:42-56 | For quantities that are not negative, the loop gets through exactly when every product exists and none is sold beyond its stock. |
| SaleService.SucceedsOnlyWithinStock | store-management/src/main/java/com/store/management/service/SaleService.java:42-56 | If the loop gets through, every product it read exists and no product was sold beyond its stock. |
| SaleService.SucceedsWithinStock | store-management/src/main/java/com/store/management/service/SaleService.java:42-56 | With sold quantities that are not negative, the loop gets through when every product exists and the totals stay within stock. |
| SaleService.ToEnum | store-management/src/main/java/com/store/management/service/SaleService.java:97-104 | Returns the first constant equal to the value ignoring case. If there is none, the error names the enum and the value. |
| SaleService.ValueOfAgreesWithEqualsIgnoreCase | store-management/src/main/java/com/store/management/service/SaleService.java:97-101 | For upper-case constant names, `valueOf(upper)` and `equalsIgnoreCase` pick the same constant. |
| SaleService.Classify | store-management/src/main/java/com/store/management/service/SaleService.java:148-169 | The strict priority of the branches: a Java `int` id, then a payment mode, then a sale type, then a customer-name fragment. |
| SaleService.Select | store-management/src/main/java/com/store/management/service/SaleService.java:155-167 | Every selected sale is one of the repository's sales and answers the query; the selection is no longer than the repository. |
| SaleService.SelectKeepsEveryMatch | store-management/src/main/java/com/store/management/service/SaleService.java:155-167 | Every sale answering the query is in the selection. |
| SaleService.SelectEmptyIff | store-management/src/main/java/com/store/management/service/SaleService.java:155-167 | The selection is empty exactly when no sale answers the query. |
| SaleService.SelectConcat | store-management/src/main/java/com/store/management/service/SaleService.java:155-167 | Selecting from two stretches of the repository in turn gives the selection of the whole, so the answers keep repository order. |
| SaleService.SelectIsSubBag | store-management/src/main/java/com/store/management/service/SaleService.java:155-167 | No sale is answered more often than it is stored. |
| SaleService.SelectStartsAtFirstMatch | store-management/src/main/java/com/store/management/service/SaleService.java:155-167 | A selection that is not empty starts with the first sale, in repository order, that answers the query. |
| SaleService.FindById | store-management/src/main/java/com/store/management/service/SaleService.java:150 | Finds a stored sale with that id, and nothing only when no sale has it. |
| SaleService.FindByIdIsSelect | store-management/src/main/java/com/store/management/service/SaleService.java:150-151 | With distinct ids, the lookup by id gives the same zero or one sale as the generic filter. |
| SaleService.Stored | store-management/src/main/java/com/store/management/service/SaleService.java:39 | The stored sale gets the next sale id and consecutive item ids, and is otherwise unchanged. |
| SaleService.SaleStore.constructor | store-management/src/main/java/com/store/management/service/SaleService.java:30-35 | The repositories start with the given products and customers and no sales. |
| SaleService.SaleStore.ToEntityItems | store-management/src/main/java/com/store/management/service/SaleService.java:77-90 | The items map one to one in order, each with its stored product and no id. An unknown product fails. |
| SaleService.SaleStore.ToEntity | store-management/src/main/java/com/store/management/service/SaleService.java:63-95 | Customer, then products, must exist: a missing customer gives `MissingCustomer`, an unknown one `CustomerNotFound`, then an unknown product `ProductNotFound`. The sale gets no id, the request's date or `now`, and the gross total as given, not recomputed. |
| SaleService.SaleStore.ToEntityRoundTrip | store-management/src/main/java/com/store/management/service/SaleService.java:63-141 | Mapping a request to an entity and back keeps the customer id, the date (or `now` when it has none), payment mode, sale type, gross total and each item's product id, quantity, price and total, in order. The sale and item ids come back empty; the customer's details and each product's code and name are the stored ones, not the request's. |
| SaleService.SaleStore.FindByIdentifier | store-management/src/main/java/com/store/management/service/SaleService.java:144-172 | An id gives at most one sale. |
| SaleService.SaleStore.FindByIdentifierSelects | store-management/src/main/java/com/store/management/service/SaleService.java:144-172 | With distinct ids, the result is exactly the sales answering the classified query, in order. |
| SaleService.SaleStore.FindSingleByIdentifier | store-management/src/main/java/com/store/management/service/SaleService.java:174-191 | Any answer is a stored sale. |
| SaleService.SaleStore.FindFirstMatchByIdentifier | store-management/src/main/java/com/store/management/service/SaleService.java:213-230 | Any answer is a stored sale. |
| SaleService.SaleStore.FindSingleIsFirstOfList | store-management/src/main/java/com/store/management/service/SaleService.java:174-191 | The single lookup gives the head of the list lookup, or nothing when the list is empty. |
| SaleService.SaleStore.FindFirstMatchIsFindSingle | store-management/src/main/java/com/store/management/service/SaleService.java:213-230 | The two single lookups give the same answer for every identifier. |
| SaleService.SaleStore.DecrementStock | store-management/src/main/java/com/store/management/service/SaleService.java:42-57 | The loop leaves exactly the stock and the error of the specification walk `Decrement`. |
| SaleService.SaleStore.AppendSale | store-management/src/main/java/com/store/management/service/SaleService.java:39 | The new sale is appended to the repository under the next sale id, both id counters move on by what it used, and the ids stay distinct. |
| SaleService.SaleStore.SaveSale | store-management/src/main/java/com/store/management/service/SaleService.java:37-60 | A refused request changes nothing. Otherwise the sale is stored first and the stock loop runs. A failure returns its error and keeps the stored sale and the earlier decrements (no rollback). Success returns the stored sale's transfer object. |

## Left out

- REST calls, the initial fetches of sales, customers and products, and the repositories' persistence. What a call answers is a parameter, and the catalogs of the return-bill page are constructor arguments.
- JSX rendering, styles, the language menu and translations, navigation, printing and the popup's print-and-close, `alert` and `console` output.
- Floating point. `parseFloat` is abstracted to an optional number, `Number(...)` of typed text to a blank-or-number input, and `BigDecimal` to exact `real`. `toFixed(2)` display is left out.
- Dates. The ISO conversion of the return date is a parameter that may fail, which the page handles like a failed call. The service's `now` is a parameter.
- `Digits.JsParseInt`: does not skip leading whitespace, which the page's values never carry.
- `Digits.JsParseInt`: reads decimal only. `parseInt` without a radix reads a `0x` or `0X` prefix as hexadecimal (`"0x1A"` is 26, `"0x"` is NaN), where the model gives 0; the option values it is applied to are decimal ids.
- `Digits.JsParseInt`: the result is an exact integer, so the loss of precision JavaScript numbers show above 2^53 is not modelled.
- `Digits.JavaParseInt`: ASCII digits only. `Integer.parseInt` also accepts other Unicode decimal digits (through `Character.digit`), so an identifier such as `"١٢"` is an id in the service but falls through to the enum and name branches in `SaleService.Classify`.
- `Digits.UpperString`: covers ASCII letters only, and assumes a default locale that is not Turkic. The case rules of other scripts are not modelled, nor the Turkish and Azeri rule under which `toUpperCase()` turns `i` into `İ` (so `"online"` becomes `"ONLİNE"` and `valueOf` fails).
- `ManageProducts.NextProductCode`: digit values are unbounded, so the loss of precision JavaScript shows for codes with more than 15 digits is not modelled.
- `ManageProducts.ProductManager.LoadUnits`: a response body is a list or absent. A body that is neither null nor an array is kept by `response.data || []` and makes the next `units.find` throw, so submit reports the submit error; the model cannot represent such a body.
- Null fields. The model keeps three: a request without a customer (`ToEntity` answers `MissingCustomer`), a request without a date (`ToEntity` uses `now`), and a stored sale without a customer (`ToDTO` keeps it absent, and a customer-name query does not match it). It cannot represent a product without a code, an item without a product, or a request whose item list is null.
- Async re-entrancy. A second submit while one is pending is not modelled, and neither is the `loadProducts()` that `handleSubmit` starts without awaiting; that reload is a separate `LoadProducts` call.
- `handleDelete` and the pages' other handlers outside the ledger, the code rule and the payload.
- The order in which the database returns sales for a payment mode, a sale type or a customer name. It is taken to be repository order.
- The `BigInteger` conversion of the customer id in `toDTO`.
- The enum constant sets of payment mode and sale type are not part of this model. They are given to `SaleStore` as lists of names.
- `SaleService.SaleStore.SaveSale`: assumes the saved sale carries its items with item ids assigned in order. The `Sale` entity and its cascade settings are not part of this model.
