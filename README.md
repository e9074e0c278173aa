# Quotation and invoicing core of an aluminium window and door shop

The application is a browser front end that lets a shop for aluminium
windows, doors and balconies do four things:

- keep a catalogue of products, glass, accessories, styles and colours;
- keep a customer list;
- write quotations, invoices and receipts;
- convert quotations into invoices or receipts, and record deposits and balance payments.

Everything is kept in a remote key-value store when it can be reached. Otherwise, and also when the user chooses to, it is kept in the browser's local storage.

This project models the logic behind those screens. Each module covers one part:

| Module | What it models |
|---|---|
| `Numbering` | document numbers: the next `QT-`, `INV-` or `REC-` number, and how numbers are printed and parsed |
| `Documents` | the document lifecycle: search, delete, conversion to an invoice or a receipt, and the balance payment |
| `Editor` | the editor state of the application shell: saving with validation, changing the type, new, edit and create |
| `Storage` | the persistence layer: the three routing flags, the mode preference, and the local-store upsert and delete |
| `AddItem` | the add-item dialog: option lists, the configured price per m², the accessory price, the description, the area and the line total |
| `DocumentForm` | the document form: customer fields, saving a typed-in customer, and adding, replacing and removing line items |
| `TaxInclusive` | the printable document's tax-inclusive totals, which back-compute the pre-tax part with a fixed 1.15 |
| `ForwardTax` | the preview's and the conversions' forward-tax totals, which add `taxRate` percent |
| `Dashboard` | the dashboard: counts, revenue, and recent documents |
| `Sections`, `Products`, `Styles`, `Customers` | the catalogue and customer screens: add, update and delete handlers, validation, search, and the style counts |
| `KeyedList`, `Text`, `Money`, `Types` | the shared list operations, string helpers, cent rounding, and the records |

Money is exact (`real`). Dimensions and quantities are `int`. Dates are day numbers.

Some things the code gets from outside are parameters of the model instead:

- the store's success answer;
- the confirmation dialog's answer;
- the network's answers;
- `Date.now()` ids;
- today's date.

The three total formulas in the code are different, and the model keeps them as three different functions:

- `AddItem.ItemTotal` is the dialog's per-line total.
- `TaxInclusive.TotalWithTax` is the tax-inclusive total of the dashboard and the printable document.
- `ForwardTax.Total` is the forward-tax total of the preview and of the conversions.

Lemmas state how they relate.

## Model

| member | source | states |
|---|---|---|
| Numbering.Prefix | src/App.tsx:211-220 | the three prefixes are at least two letters long and contain no `-` |
| Numbering.MaxOf | src/components/Documents.tsx:58 | `Math.max` of a non-empty list is one of its elements and no element exceeds it |
| Numbering.ParsedSuffixesMembers | src/components/Documents.tsx:54-57 | a number is collected exactly when a document of that type carries it as its parsed suffix; unparsable suffixes and other types are dropped |
| Numbering.NextNumberExceedsUsed | src/components/Documents.tsx:54-58 | the next number is strictly greater than every suffix already used by that type |
| Numbering.NextNumberIsOnePlusMax | src/components/Documents.tsx:54-58 | the next number is 1 exactly when no document of the type has a positive parsed suffix; otherwise it is one more than a suffix some document carries |
| Numbering.FormatKeepsDigits | src/components/Documents.tsx:59 | printing pads to at least three digits and never cuts a digit of the number |
| Numbering.FormattedSegmentDashFree | src/components/Documents.tsx:59 | the printed segment after the prefix is all digits and holds no `-` |
| Numbering.FormatThenParse | src/components/Documents.tsx:56-59 | parsing the segment of a printed number gives the number back |
| Numbering.NextNumberIsFresh | src/components/Documents.tsx:54-59 | the generated number differs from every number of that type in the list |
| Numbering.NextNumberAdvances | src/components/Documents.tsx:212-218 | appending a document that carries the generated number moves the next number on by exactly one |
| Numbering.OtherTypesIgnored | src/components/Documents.tsx:54-55 | documents of other types do not influence the number |
| Numbering.GapIsNotBackfilled | src/App.tsx:194-200 | QT-001 and QT-003 give QT-004: a gap is not filled |
| Numbering.FirstInvoiceNumber | src/components/Documents.tsx:104-111 | with no invoices, the first invoice is INV-001 |
| Documents.FilteredDocumentsSpec | src/components/Documents.tsx:32-38 | a document is listed iff its type passes the type filter and the term occurs in its number or customer name, ignoring case; "all" with an empty term lists everything, in order |
| Documents.ConversionNotesDiffer | src/components/Documents.tsx:61-119 | the generic conversion appends real line breaks; the invoice conversion appends a backslash and an `n`, and no line break |
| Documents.ConvertedSpec | src/components/Documents.tsx:51-67 | the converted copy keeps the content; it changes type, date and notes, and takes the next number of the new type. A request for a quotation would still get a REC prefix |
| Documents.InvoiceFromSpec | src/components/Documents.tsx:101-119 | the invoice is the quotation with only type, number, date and notes changed. The number is fresh among invoices, and the forward-tax total is unchanged |
| Documents.ReceiptFromSpec | src/components/Documents.tsx:190-235 | refused iff the amount is custom and missing or not positive. Otherwise the paid amount is the full total, half of it, or the custom amount with no upper bound. The status is Completed iff the payment is full, and the notes keep the old notes and the conversion line in front |
| Documents.DecideBalanceSpec | src/components/Documents.tsx:132-157 | refused iff the amount is missing or not positive; refused as an overpayment iff the rounded new paid total is above the rounded total. An accepted payment stores the unrounded sum, is Completed iff the rounded figures are equal, and stays under the total plus one cent |
| Documents.PayingRemainderCompletes | src/components/Documents.tsx:140-157 | paying exactly the remaining balance is accepted and completes the receipt |
| Documents.AfterBalanceSpec | src/components/Documents.tsx:159-171 | the payment changes only the paid amount, the status and the notes; the old notes stay in front of the payment block |
| Documents.ConversionOffers | src/components/Documents.tsx:417-439 | a converted receipt offers no further conversion, and offers a balance payment iff it was not paid in full |
| Documents.BalanceOffers | src/components/Documents.tsx:437-439 | after a balance payment the balance button stays iff the status is still Deposit Made |
| Documents.HalfThenBalance | src/components/Documents.tsx:147-157 | a 50% receipt of a 1000 total records a 500 deposit; 500 more completes it and 600 is refused |
| Documents.TotalFollowsContent | src/components/Documents.tsx:261-268 | `calculateTotal` depends only on the items, discount and tax rate |
| Documents.DocumentList.Delete | src/components/Documents.tsx:40-49 | the list loses every document with the number iff the deletion was confirmed and stored; nothing else changes |
| Documents.DocumentList.Convert | src/components/Documents.tsx:51-76 | the converted copy is handed to the store and appended only on success |
| Documents.DocumentList.ConvertToInvoice | src/components/Documents.tsx:101-130 | with a source, the invoice is handed to the store and appended on success: length grows by one and the old list is a prefix. Without a source, nothing happens |
| Documents.DocumentList.ConvertToReceipt | src/components/Documents.tsx:190-246 | a refused custom amount stops before the store call; otherwise the receipt is appended on success |
| Documents.DocumentList.BalancePayment | src/components/Documents.tsx:132-188 | a refused amount stops before the store call. On success every document with the receipt's number is replaced in place, with length, order and numbers kept. Only replaced positions change |
| Editor.SaveResultSpec | src/App.tsx:222-289 | the store is called iff there is a customer name and at least one item. A failed store call changes nothing. An update keeps length and numbers. An addition appends at the end. A duplicate number is left out of the list |
| Editor.DuplicateOverwritesStore | src/App.tsx:233-254 | a refused duplicate has already overwritten the stored record with that number: the store holds the new document in place of the old, while the screen list keeps the old one |
| Editor.ResetNumberIsFresh | src/App.tsx:262-288 | the number of the reset form is not used by any document of the current type |
| Editor.AddAdvancesNumber | src/App.tsx:256-268 | adding the proposed document moves the next number on by one |
| Editor.SwapPrefixOfFormatted | src/App.tsx:211-220 | a type change on a generated number gives the number the new type would print for the same value |
| Editor.SwapPrefixWithoutDash | src/App.tsx:211-220 | a number without `-` becomes the new prefix with `001` |
| Editor.SwapPrefixKeepsSuffix | src/App.tsx:211-220 | a parsable suffix survives a type change |
| Editor.Editor.constructor | src/App.tsx:115-134 | the editor starts with an empty quotation QT-001, no saved documents, and no edit |
| Editor.Editor.LoadDocuments | src/App.tsx:191-205 | loading keeps the fetched list and gives the form the next quotation number |
| Editor.Editor.DocumentTypeChange | src/App.tsx:211-220 | only the type and the number's prefix change |
| Editor.Editor.SaveDocument | src/App.tsx:222-289 | the result follows the checks in source order. The list changes only on an update or addition, after which the form is an empty document of the current type with the next number. Editing ends on an update |
| Editor.Editor.NewDocument | src/App.tsx:291-320 | the form becomes an empty document of the current type with the next number, and editing is off |
| Editor.Editor.EditDocument | src/App.tsx:322-327 | the document, its type and the editing flag are taken over |
| Editor.Editor.CreateNew | src/App.tsx:329-360 | like a new document, for the given type |
| Editor.Editor.SaveButton | src/components/DocumentPreview.tsx:219-224 | save and then new, whatever the save did: the form always ends empty, numbered from the list as the save left it |
| Storage.PreferenceOf | src/utils/api.ts:29-32 | an unset (or empty) preference reads as backend; a stored one is returned unchecked |
| Storage.CheckedAvailability | src/utils/api.ts:47-93 | a completed check returns the cached value; otherwise availability is true iff the health request answered OK |
| Storage.RoutingComplement | src/utils/api.ts:103-131 | reads stay local iff writes do not go remote, and forcing the local store does both |
| Storage.PreferenceRoundTrip | src/utils/api.ts:29-44 | a stored mode reads back, and forces the local store iff it is `local` |
| Storage.DocumentsKeyedByNumber | src/utils/api.ts:347-354 | saving a document whose number is stored puts it at the position of the first record with that number, leaves every other position unchanged and does not grow the table |
| Storage.Table.Upsert | src/utils/api.ts:153-160 | the first record with the key is overwritten, or the record is pushed; afterwards the record is present |
| Storage.Table.Remove | src/utils/api.ts:187-189 | every record with the key is filtered out |
| Storage.Api.constructor | src/utils/api.ts:24-44 | on load the backend is presumed available and unchecked, and the stored preference decides the local override |
| Storage.Api.GetStorageModePreference | src/utils/api.ts:29-32 | returns the stored preference or `backend` |
| Storage.Api.SetStorageModePreference | src/utils/api.ts:35-40 | stores the mode, forces the local store iff it is `local`, and clears the completed-check flag |
| Storage.Api.CheckBackendAvailability | src/utils/api.ts:47-93 | a completed check changes nothing; otherwise availability records whether the health request answered OK, and the check is marked complete |
| Storage.Api.GetBackendStatus | src/utils/api.ts:96-99 | runs the check and returns the availability |
| Storage.Api.Fetch | src/utils/api.ts:103-127 | reads the local rows when local or after a failed request, which marks the backend unavailable; otherwise returns the answer's rows, or none |
| Storage.Api.Save | src/utils/api.ts:129-167 | remote when available and not forced. A non-OK answer marks the backend unavailable and upserts locally, still reporting success. Only a thrown request reports failure. Availability never becomes true here |
| Storage.Api.Delete | src/utils/api.ts:169-196 | the same routing as a save, with the local delete filtering out the key |
| KeyedList.FindFirstIsFirstMatch | src/components/AddItemModal.tsx:149 | `find` returns the first record that passes the test |
| KeyedList.UpsertFirstSpec | src/utils/api.ts:153-160 | with the key present, the length is kept and only the first match is replaced; otherwise the record is appended |
| KeyedList.UpsertThenFind | src/utils/api.ts:153-160 | after an upsert the key is present and `find` returns the new record |
| KeyedList.UpsertIdempotent | src/utils/api.ts:153-160 | upserting twice is upserting once |
| KeyedList.RemoveKeyConcat | src/utils/api.ts:187-189 | the local delete keeps the remaining records in order |
| KeyedList.RemoveKeyMembers | src/utils/api.ts:187-189 | a record survives the delete iff its key differs |
| KeyedList.RemovedKeyAbsent | src/utils/api.ts:187-189 | no record with the key survives |
| KeyedList.RemoveKeyLength | src/utils/api.ts:187-189 | deleting an absent key changes nothing; deleting a present one shortens the list |
| KeyedList.AppendKeepsKeysUnique | src/App.tsx:250-257 | appending a record whose key is new keeps the keys unique |
| KeyedList.ReplaceKeySpec | src/App.tsx:241-248 | the `map` replacement keeps the length and the other records, and keeps every key when the new record carries the replaced key |
| KeyedList.ReplaceAbsentKey | src/App.tsx:241-248 | replacing a key that no record has changes nothing |
| KeyedList.ReplaceAgreesWithUpsert | src/utils/api.ts:347-354 | with unique keys, the screen's `map` replacement and the store's first-match upsert agree |
| KeyedList.FilterMembers | src/components/Dashboard.tsx:13-15 | a filter keeps exactly the records that pass |
| KeyedList.FilterConcat | src/components/Dashboard.tsx:18-27 | filtering distributes over concatenation |
| KeyedList.FilterOrder | src/components/AddItemModal.tsx:139-142 | a kept record sits at the count of records kept before it, and that count grows strictly past every kept record, so kept records keep their order |
| Money.Round2Close | src/components/Documents.tsx:147-148 | cent rounding moves a value by at most half a cent |
| Money.Round2Monotone | src/components/Documents.tsx:147-148 | cent rounding is monotone |
| Money.Round2OfCents | src/components/Documents.tsx:147-148 | a whole number of cents is unchanged |
| Money.Round2NotAboveMeansWithinCent | src/components/Documents.tsx:151-154 | when the guard passes, the exact paid total is less than one cent above the exact total |
| Money.Fixed2Shape | src/components/Documents.tsx:225 | the two-decimal text of a non-negative amount has exactly two digits after the point |
| Money.SumConcat | src/components/generate-pdf-html.ts:17-25 | the reduce sum distributes over concatenation |
| Money.SumNonNegative | src/components/generate-pdf-html.ts:17-25 | a sum of non-negative amounts is non-negative |
| TaxInclusive.ItemsTotalIsSumOfLineTotals | src/components/generate-pdf-html.ts:11-25 | the items total is the sum of the printed line totals |
| TaxInclusive.ItemsTotalAppend | src/components/generate-pdf-html.ts:17-25 | adding an item adds its line total |
| TaxInclusive.NoItemsTotal | src/components/generate-pdf-html.ts:27-29 | with no items the total is minus the discount |
| TaxInclusive.SubtotalPlusTax | src/components/generate-pdf-html.ts:27-31 | the back-computed subtotal plus the tax is the tax-inclusive total, and the tax is 15/115 of it |
| TaxInclusive.TaxRateIgnored | src/components/generate-pdf-html.ts:27-31 | the document's tax rate does not affect any printed figure |
| TaxInclusive.TitlesDistinct | src/components/generate-pdf-html.ts:4-72 | each type has its own title and status label |
| ForwardTax.RowsSumToSubtotal | src/components/DocumentPreview.tsx:12-286 | the preview's row totals add up to its subtotal |
| ForwardTax.TotalClosedForm | src/components/Documents.tsx:261-268 | total = (Σ w·h·qty·price − discount) × (1 + taxRate/100), the same value as the preview's |
| ForwardTax.SubtotalIgnoresAccessories | src/components/DocumentPreview.tsx:12-18 | accessory prices never reach the forward-tax subtotal |
| ForwardTax.RowIsMillionTimesAreaPrice | src/components/DocumentPreview.tsx:285-286 | a preview row is a million times the printable document's area-based line total without the accessory |
| ForwardTax.TitlesDistinct | src/components/DocumentPreview.tsx:189-198 | each type has its own heading |
| AddItem.ChoicesSpec | src/components/AddItemModal.tsx:66-90 | product choices are the products of the current type, none for accessories. Accessory choices are those for Window & Door or for the type's own category. The accessories type gets all accessories as products |
| AddItem.GlassSurchargeSpec | src/components/AddItemModal.tsx:147-153 | the glass surcharge is the price of the first glass with that name, or 0 |
| AddItem.StyleSurchargeSpec | src/components/AddItemModal.tsx:155-161 | the style surcharge is the price of the first style with that name, or 0 |
| AddItem.OptionPriceSpec | src/components/AddItemModal.tsx:144-175 | after any option change, price per m² = base + glass surcharge + style surcharge; the colour never changes it |
| AddItem.AccessoryPriceSpec | src/components/AddItemModal.tsx:163-428 | the accessory price is the first matching accessory's price times the quantity. A quantity change recomputes it when that accessory exists and otherwise keeps the old value |
| AddItem.DescriptionPartsSpec | src/components/AddItemModal.tsx:129-142 | the product name comes first when there is one; every later part is a non-empty option; there is one later part per chosen option; chosen option k sits right after the head and the options chosen before it, so colour, glass, style and accessory come in that order; no head and no option gives no parts |
| AddItem.JoinCommaSpec | src/components/AddItemModal.tsx:174-174 | the description join gives nothing for no parts, the part itself for one, `a, b` for two, and each further part after a comma and a space |
| AddItem.ItemTotalIsLineTotal | src/components/AddItemModal.tsx:191-201 | the dialog's area and total equal the printable document's area and line total |
| AddItem.StaleBase | src/components/AddItemModal.tsx:31-145 | reopened items keep no base price: with no surcharges, an option change prices the item at 0 on a fresh dialog |
| AddItem.ItemDialog.constructor | src/components/AddItemModal.tsx:18-31 | a fresh dialog holds the default form, no selection, and base 0 |
| AddItem.ItemDialog.Open | src/components/AddItemModal.tsx:33-63 | the edited item without its accessory price, or the defaults with quantity 1; the selection is cleared and the base is not restored |
| AddItem.ItemDialog.SelectProduct | src/components/AddItemModal.tsx:94-121 | an accessory sets the price and the description, and leaves the base alone. A product sets the price, colour, description and base. An unknown id changes only the selection |
| AddItem.ItemDialog.ChangeOption | src/components/AddItemModal.tsx:124-178 | the form becomes the option-change result; the selection and the base are kept |
| AddItem.ItemDialog.ChangeType | src/components/AddItemModal.tsx:181-184 | only the type changes, and the product selection is cleared |
| AddItem.ItemDialog.ChangeWidth | src/components/AddItemModal.tsx:381 | the width is the input, or 0 when it does not parse |
| AddItem.ItemDialog.ChangeHeight | src/components/AddItemModal.tsx:393 | the height is the input, or 0 when it does not parse |
| AddItem.ItemDialog.ChangePrice | src/components/AddItemModal.tsx:442 | the price is the input, or 0 when it does not parse |
| AddItem.ItemDialog.ChangeQuantity | src/components/AddItemModal.tsx:418-428 | the form becomes the quantity-change result |
| DocumentForm.ItemsAfterAddSpec | src/components/DocumentForm.tsx:82-103 | editing replaces only the item with that id, keeps the id, the length and the order. Adding appends exactly one item with the new id |
| DocumentForm.RemoveLineItemSpec | src/components/DocumentForm.tsx:110-115 | every item with the id is dropped, the others are kept in order, and an absent id changes nothing |
| DocumentForm.WithFieldSpec | src/components/DocumentForm.tsx:26-34 | exactly one customer field changes; the id and the totals never do |
| DocumentForm.IsNewCustomerSpec | src/components/DocumentForm.tsx:79-80 | new iff the trimmed name is non-empty and no listed customer has the form customer's id |
| DocumentForm.SavedCustomerNotNew | src/components/DocumentForm.tsx:62-70 | once appended and selected, the customer is no longer new |
| DocumentForm.CustomerChoicesSpec | src/components/DocumentForm.tsx:208-211 | the dropdown lists the customers whose name contains the typed name, ignoring case, and all of them for an empty name |
| DocumentForm.DisplayedFiguresSpec | src/components/DocumentForm.tsx:336-368 | the card's line total is w·h·qty·price, the preview row total, with no /1e6 and no accessory |
| DocumentForm.Form.constructor | src/components/DocumentForm.tsx:20-24 | the form starts with no item being edited |
| DocumentForm.Form.UpdateCustomer | src/components/DocumentForm.tsx:26-34 | only the chosen customer field of the document changes |
| DocumentForm.Form.SelectCustomer | src/components/DocumentForm.tsx:36-44 | the whole record, id included, becomes the document's customer, and a listed customer is not new |
| DocumentForm.Form.SaveNewCustomer | src/components/DocumentForm.tsx:46-76 | a blank name is refused. Otherwise the new customer has the new id and 0 orders and spending. On success it is appended and put on the document, and on failure nothing changes |
| DocumentForm.Form.EditItem | src/components/DocumentForm.tsx:105-108 | the item is remembered for the dialog |
| DocumentForm.Form.CloseDialog | src/components/DocumentForm.tsx:117-120 | the remembered item is forgotten |
| DocumentForm.Form.AddItem | src/components/DocumentForm.tsx:82-103 | the items become the add or replace result, and the edit ends |
| DocumentForm.Form.RemoveLineItem | src/components/DocumentForm.tsx:110-115 | the items lose the id and nothing else changes |
| Dashboard.CountsPartition | src/components/Dashboard.tsx:13-15 | the three type counts add up to the number of documents |
| Dashboard.FilterTwice | src/components/Dashboard.tsx:47 | filtering by type and then by status is filtering by both |
| Dashboard.RecentOfTypeSpec | src/components/Dashboard.tsx:52-55 | today's quotations or invoices are exactly the documents of that type dated today or later, in list order, no more than all of that type |
| Dashboard.CompletedReceiptsSpec | src/components/Dashboard.tsx:47-60 | the completed count is the number of receipts marked Completed, at most the receipt count; today's completed receipts are counted the same way |
| Dashboard.SumRevenueConcat | src/components/Dashboard.tsx:28-44 | the revenue reduce distributes over concatenation |
| Dashboard.RevenueAppend | src/components/Dashboard.tsx:18-44 | a quotation or invoice adds no revenue. A receipt adds its paid amount, or its items total minus the discount when none is recorded |
| Dashboard.RevenueOnlyReceipts | src/components/Dashboard.tsx:18-27 | revenue is the revenue of the receipts alone |
| Dashboard.InsertMultiset | src/components/Dashboard.tsx:106-107 | inserting into the sorted list adds exactly that document |
| Dashboard.InsertMembers | src/components/Dashboard.tsx:106-107 | each document of the insertion result is the new one or an old one |
| Dashboard.InsertSpec | src/components/Dashboard.tsx:106-107 | inserting into a newest-first list keeps it newest first |
| Dashboard.SortSpec | src/components/Dashboard.tsx:106-107 | the sort is newest first and a permutation |
| Dashboard.InsertOnDay | src/components/Dashboard.tsx:106-107 | inserting a document puts it in front of the documents of its own date and moves none of them |
| Dashboard.SortStable | src/components/Dashboard.tsx:106-107 | the sort is stable: the documents of any one date keep their list order |
| Dashboard.RecentDocumentsSpec | src/components/Dashboard.tsx:106-108 | the recent list holds min(5, n) documents from the list, newest first, and none left out is newer than one shown |
| Dashboard.StatusSpec | src/components/Dashboard.tsx:120-128 | the status is Pending, Sent or Completed by type, unless a receipt records its own status. The amount shown differs from the total only for a receipt with a recorded payment |
| Sections.AfterAddSpec | src/components/Products.tsx:60-73 | a saved add appends exactly one record at the end; a failed one changes nothing |
| Sections.AfterUpdateSpec | src/components/Products.tsx:75-88 | a saved update replaces only the records with the edited id, keeping length, order and ids; a failed one changes nothing |
| Sections.AfterDeleteSpec | src/components/Products.tsx:90-99 | a confirmed, saved delete removes every record with the id and keeps the others in order; otherwise nothing changes |
| Sections.Section.constructor | src/components/Styles.tsx:21-32 | a section starts with no edit and a blank form |
| Sections.Section.StartEdit | src/components/Styles.tsx:114-123 | the record is remembered and the form filled in from it |
| Sections.Section.ChangeForm | src/components/Customers.tsx:15-20 | only the form changes |
| Sections.Section.Cancel | src/components/Styles.tsx:194-200 | no edit and a blank form |
| Sections.Section.Add | src/components/Styles.tsx:57-77 | an invalid form is refused before the store call. On success the record with the new id is appended and the form cleared, and on failure nothing changes |
| Sections.Section.Update | src/components/Styles.tsx:79-100 | without an edit, or with an invalid form, nothing happens. On success the edited id is replaced, the edit ends and the form clears; on failure nothing changes |
| Sections.Section.Delete | src/components/Styles.tsx:102-112 | asks first; filters out the id only when confirmed and stored |
| Products.SavedRecordsSpec | src/components/Products.tsx:60-88 | an added record carries the new id, an updated one the edited id, and both carry the form's other fields |
| Products.EditRoundTrip | src/components/Products.tsx:101-112 | an untouched product or accessory edit writes back the same record |
| Products.GlassEditDropsText | src/components/Products.tsx:155-164 | an untouched glass edit writes back the same glass iff its description and specifications are empty; otherwise they are saved empty |
| Products.FilteredProductsSpec | src/components/Products.tsx:42-46 | a product is listed iff the lower-cased term occurs in its lower-cased name, type or material; an empty term lists all |
| Products.FilteredGlassSpec | src/components/Products.tsx:48-52 | likewise for glass name, type and specifications |
| Products.FilteredAccessoriesSpec | src/components/Products.tsx:54-58 | likewise for accessory name, type and specifications |
| Styles.ValidationSpec | src/components/Styles.tsx:57-130 | a style needs a name and a category, and a colour needs a name; the blank forms are refused |
| Styles.SavedRecordsSpec | src/components/Styles.tsx:57-100 | added records carry the new id, edited ones the edited id, and an untouched edit writes back the same record |
| Styles.FilteredStylesSpec | src/components/Styles.tsx:34-38 | a style is listed iff the term occurs, ignoring case, in its name, category or description |
| Styles.FilteredColoursSpec | src/components/Styles.tsx:40-44 | a colour is listed iff the term occurs, ignoring case, in its name, description or hex code |
| Styles.StyleCountsSpec | src/components/Styles.tsx:283-289 | window styles = Window + Both and door styles = Door + Both, so a Both style counts twice; neither count exceeds the total |
| Customers.SavedCustomersSpec | src/components/Customers.tsx:28-63 | a new customer gets the new id and 0 orders and spending. An update keeps the id and totals and takes the form's contact details |
| Customers.EditRoundTrip | src/components/Customers.tsx:76-85 | an untouched edit writes back the same customer |
| Customers.FilteredCustomersSpec | src/components/Customers.tsx:22-26 | a customer is listed iff the term occurs, ignoring case, in the name or email, or as typed in the phone |
| Customers.PhoneSearchIsCaseSensitive | src/components/Customers.tsx:22-26 | the phone search does not ignore case: a phone `x` is found by `x` but not by `X` |

## Left out

- Asynchrony: `await` ordering and `Promise.all` loading are not modelled, nor are number collisions between tabs. Each handler runs to completion, with the store's answer as a parameter.
- The remote key-value server is not part of this model. Its only rule is that documents are keyed by their number, which the local store's document table reproduces.
- `fetch`, timeouts, `localStorage` and JSON are left out. Parsing or writing errors other than a thrown request are not modelled.
- Rendering is left out: markup, PDF export, printing, alerts, modal and section flags, and `toLocaleString`. The balance-payment date label is a parameter.
- The storage-mode toggle of the application shell (src/App.tsx:139-166) is left out. The preference it sets is modelled.
- `Date.now()` ids and `new Date()` are parameters. Nothing guarantees that two ids differ.
- Dates are day numbers. Time zones and the string form of ISO dates are not modelled.
- Floating point is left out. Money is exact, so IEEE rounding noise in the totals and in the cent comparison is not modelled.
- `parseInt` is modelled as a leading-decimal-digit parse. Leading whitespace, signs and other radixes are not modelled.
- `parseFloat` of a custom or balance amount is an optional number. A non-numeric custom amount, which gives NaN and passes the receipt guard, is not modelled.
- Documents.DecideBalance: a non-empty balance amount that `parseFloat` cannot read gives NaN, which passes the `<= 0` guard (src/components/Documents.tsx:136); the new paid total is then NaN, both the overpayment test and the completion test are false, and the receipt is saved with a NaN paid amount and status Deposit Made (src/components/Documents.tsx:144-176). The model's amount is an optional real with no NaN, so an unreadable amount is refused instead.
- Lower-casing covers ASCII letters only. Trimming covers ASCII whitespace only.
- Optional fields (`material`, `specifications`, `description`, `accessoryPrice`) are strings or options. The search crash when an undefined field is lower-cased is not modelled.
- `handleCancel` and `handleSectionChange` reset every section of a screen at once. The model gives each section its own reset.
- The dashboard sort is modelled as an insertion sort by date. `Array.prototype.sort` is stable, as is the model (Dashboard.SortStable), so documents of the same date keep their list order in both; the comparator's `Date` parsing is left out and dates are whole numbers.
- The revenue test for receipts marked Pending is left out, because no receipt can carry that status.
- Dashboard.CountsAsRevenue: keeps every receipt, without the Pending test, for the reason above.
- Editor.Editor.SaveButton: the preview's button does not await the save; the model runs the save to completion before the new document.
- AddItem.ItemDialog.ChangeWidth: widths and heights are integers (millimetres), while the source keeps `parseFloat` values.
