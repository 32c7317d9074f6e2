# Order, stock and conference pages — client-side state model

This project models the client-side state handling of the page components of a
small clothing-shop back office and a conference site. The covered pages are:

- **Order taking.** The variant cart of the new-order page, with its per-variant
  pending quantities, cart total, role mapping and order payload.
- **Merge-by-article builders.** The billing and new-document pages keep one
  line per article and accumulate its quantity. They also scan bar codes, remove
  lines, and build the picking, document and header payloads.
- **Movements.** The movement page builds a per-location line list, removes
  lines by index, scans bar codes, and runs its chain of four requests.
- **Articles.** The article page edits variant strings (split at commas, trim,
  filter or append, join with `", "`). It also searches, keeps its carousel index
  in range, and updates or deletes articles by id.
- **Stock.** The stock page groups rows by article code, totals each group,
  filters the group keys, and keeps the expanded rows and the expanded locations
  map.
- **Listings.** The documents and orders listings format documents and orders,
  compute totals, map the status and the counterparty type, de-duplicate and
  sort the counterparty options, and prune the empty filter fields.
- **Id-keyed lists.** The article master, location and conference pages
  replace, remove or append entries by id. They also take one conference seat
  per registration and build a CSV of attendees.
- **Sign-up.** The sign-up form validates its fields.

Every server call is a parameter: whether it succeeded and, where it matters,
what it returned.

Each page is one module.

- **Pages whose handlers change React state step by step** are a `class`
  holding that state. Each handler is a method with `modifies this`, and its
  `ensures` ties the new state to specification functions. Properties of those
  functions are proved as lemmas.
- **Pure expressions** are functions. This covers totals, the role switch,
  formatting and the status table.
- **Loops in the source** become methods with loop invariants. These are the
  CSV `forEach`, the grouping `reduce` into an accumulator object and the
  key-pruning `forEach`.

Some modules are shared:

- `Common`: `Option` and removal of every occurrence.
- `Text`: JavaScript's `toLowerCase`, `toUpperCase`, `trim`, `includes`,
  `split` and `join`, over ASCII.
- `ArticleLines`: the merge-by-`articleId` line builder. Billing and the
  new-document page contain the same code for it.
- `ConferenceSeats`: the conference record, the seat decrement and the
  blank-field guard shared by both conference pages.

Money is modelled as integers (for example cents).

## Model

| member | source | states |
|---|---|---|
| NewOrder.QuantityKeyCollides | src/pages/NewOrder.tsx:297 | The `${code}-${variant}` key is not injective: two different code/variant pairs share one pending quantity |
| NewOrder.BumpedFacts | src/pages/NewOrder.tsx:296-302 | The new pending quantity is never negative: it is old-or-0 + delta when that is not negative and exactly 0 when it is; every other key keeps its value |
| NewOrder.WithoutLine | src/pages/NewOrder.tsx:321-325 | Removing a line keeps exactly the lines whose code or variant differ, and never lengthens the cart |
| NewOrder.WithoutLineConcat | src/pages/NewOrder.tsx:321-325 | Removal distributes over concatenation, so the kept lines stay in their order |
| NewOrder.WithoutLineNone | src/pages/NewOrder.tsx:321-325 | Removing a code and variant that no line has leaves the cart unchanged |
| NewOrder.WithQuantity | src/pages/NewOrder.tsx:333-338 | Updating a quantity keeps the cart length |
| NewOrder.WithQuantityOnly | src/pages/NewOrder.tsx:333-338 | Matching lines take the new quantity and keep every other field; other lines are unchanged |
| NewOrder.CartTotalConcat | src/pages/NewOrder.tsx:63 | The total of a concatenation is the sum of the totals |
| NewOrder.CartTotalNonNegative | src/pages/NewOrder.tsx:63 | The total is non-negative for non-negative prices and quantities, and 0 for an empty cart |
| NewOrder.RoleMapping | src/pages/NewOrder.tsx:202-220 | "admin" maps to admin and "vendedor" to seller, both case-insensitively; any other role, a user without a role, no stored user or unparsable stored text maps to client |
| NewOrder.RoleIgnoresCase | src/pages/NewOrder.tsx:208 | The role depends only on the lower-cased role text |
| NewOrder.BuildOrderFacts | src/pages/NewOrder.tsx:344-355 | The seller id is null exactly for a client and is the selected seller otherwise; the order has one detail per cart line carrying its article, variant and quantity |
| NewOrder.Cart.constructor | src/pages/NewOrder.tsx:185-198 | The cart and the quantity map start empty, and the invariant holds |
| NewOrder.Cart.QuantityChange | src/pages/NewOrder.tsx:296-302 | handleQuantityChange replaces the map by the clamped bump of that key, keeps the cart, and keeps every quantity non-negative |
| NewOrder.Cart.AddToCart | src/pages/NewOrder.tsx:305-318 | A zero pending quantity changes nothing; a positive one appends exactly one line (no merging) and resets that key to 0 |
| NewOrder.Cart.RemoveFromCart | src/pages/NewOrder.tsx:321-325 | removeFromCart drops every line with that code and variant and keeps the rest |
| NewOrder.Cart.UpdateCartItemQuantity | src/pages/NewOrder.tsx:327-340 | A quantity <= 0 behaves as removeFromCart; a positive one updates the matching lines in place |
| NewOrder.Cart.ConfirmOrder | src/pages/NewOrder.tsx:342-371 | The order sent is built from the cart and role; the cart is emptied only when the request succeeds; the alert says the order was placed on success and gives the error message otherwise |
| ArticleLines.FindById | src/pages/Billing.tsx:229-230 | The article found has that id and is the first one with it; no result means no article has the id |
| ArticleLines.FindScanned | src/pages/Billing.tsx:102 | The article found is the first whose code or bar code equals the scanned text; no result means none matches |
| ArticleLines.FindLine | src/pages/Billing.tsx:74-78 | The index found is the first line with that article id; no index means no line has it |
| ArticleLines.RemoveLine | src/pages/Billing.tsx:303-305 | The kept lines are exactly those with another article id |
| ArticleLines.QuantityOfAppend | src/pages/Billing.tsx:82-93 | Appending a line adds its quantity to its own article's count only |
| ArticleLines.QuantityOfGrow | src/pages/Billing.tsx:78-81 | Growing one line's quantity grows only that article's count |
| ArticleLines.MergeAddQuantity | src/pages/Billing.tsx:74-93 | After an add, the added article's quantity grows by the added amount and every other article's is unchanged |
| ArticleLines.MergeAddValid | src/pages/Billing.tsx:74-93 | An add preserves the invariant: article ids unique, quantities positive |
| ArticleLines.MergeAddShape | src/pages/NewDocument.tsx:81-99 | An existing article keeps the length and grows that line only; a new one appends exactly one line |
| ArticleLines.RemoveLineQuantity | src/pages/NewDocument.tsx:108-110 | Removal zeroes the removed article's quantity and keeps every other article's |
| ArticleLines.RemoveLineValid | src/pages/NewDocument.tsx:108-110 | Removal preserves the unique-id invariant |
| ArticleLines.RemoveLineAbsent | src/pages/NewDocument.tsx:108-110 | Removing an absent article id changes nothing |
| ArticleLines.AddRemoveRoundTrip | src/pages/NewDocument.tsx:81-110 | Adding a new article and then removing it gives back the original lines |
| ArticleLines.RemoveLineConcat | src/pages/Billing.tsx:303-305 | Removal distributes over concatenation, so the kept lines stay in their order |
| ArticleLines.AddSelectedFacts | src/pages/Billing.tsx:72-97 | Without a selection or with quantity <= 0 nothing changes; otherwise the count grows by the quantity, the selection clears and the quantity resets to 1, with ids staying unique |
| Billing.InvoiceTotalGrow | src/pages/Billing.tsx:355 | Growing a line's quantity by delta grows the total by that line's price times delta |
| Billing.MergeAddTotal | src/pages/Billing.tsx:74-93 | An add grows the total by the charged price times the added quantity |
| Billing.InvoiceTotalNonNegative | src/pages/Billing.tsx:355 | The total of lines with non-negative prices and quantities is non-negative |
| Billing.PickingDataFacts | src/pages/Billing.tsx:127-133 | There is one picking entry per line, with its code and quantity, location "A1", and price and cost equal to the price or 0 |
| Billing.PickingWorthMatches | src/pages/Billing.tsx:127-133 | The picking payload is worth exactly the invoice total |
| Billing.ControlUser | src/pages/Billing.tsx:161 | No value exactly for unparsable stored text (the parse throws); "unknown" exactly for no stored user or a missing, empty or "unknown" name; otherwise the stored name |
| Billing.ScanSelectFacts | src/pages/Billing.tsx:101-114 | A scan never touches the lines; a matching code selects that article with quantity 1; no match changes nothing |
| Billing.ScanAsWrittenMissesScannedArticle | src/pages/Billing.tsx:101-108 | As written, the add inside handleScan sees the previous selection: the scanned article is not added, and a previously selected one is |
| Billing.Invoice.constructor | src/pages/Billing.tsx:42-60 | The page keeps the loaded clients and articles; the default client is the one with id 1, if any; the lines start empty and the quantity at 1 |
| Billing.Invoice.SelectClient | src/pages/Billing.tsx:195-198 | The client is the listed one with the chosen id, or none; every other field is unchanged |
| Billing.Invoice.SelectArticle | src/pages/Billing.tsx:228-231 | The selection is the article with the chosen id, or none; every other field, including the client and the comments the invoice header is built from, is unchanged |
| Billing.Invoice.AddArticle | src/pages/Billing.tsx:72-97 | handleAddArticle is the merge-by-article add, and it preserves the unique-id invariant; the lists, client, comments and page flags are unchanged |
| Billing.Invoice.ScanCode | src/pages/Billing.tsx:101-114 | handleScan selects the scanned article and closes the scanner; it alerts exactly when no article has that code or bar code; the lines, lists, client, comments and other flags are unchanged |
| Billing.Invoice.RemoveItem | src/pages/Billing.tsx:303-305 | The remove button drops the line with that article id; every other field is unchanged |
| Billing.Invoice.CreateInvoice | src/pages/Billing.tsx:117-179 | The picking sent mirrors the lines; the movement is posted exactly when the picking succeeded with a non-zero id and the stored user parses, with the header built from that user; the invoice number and final modal are set only when both succeed; loading ends false; the lines, lists, client, comments, picker and scanner are unchanged |
| NewDocument.DocumentKinds | src/pages/NewDocument.tsx:116-117 | For "remito": movement 'E', receipt number 5, suppliers. For "pedido": movement 'S', receipt number 4, clients |
| NewDocument.ControlUser | src/pages/NewDocument.tsx:119 | No value exactly for unparsable stored text (the parse throws); empty text without a stored user; otherwise the stored username, which may be missing |
| NewDocument.BuildRequestFacts | src/pages/NewDocument.tsx:121-139 | Receipt number equals book id (5 or 4), status 1, the entity's code, the page type, comments and control user; one line per item with its code and quantity, the movement type, and price and cost 0 |
| NewDocument.DocumentDraft.constructor | src/pages/NewDocument.tsx:36-75 | A known type keeps the fetched counterparties and articles; any other type redirects before fetching, leaving both lists empty; the draft starts empty either way |
| NewDocument.DocumentDraft.SelectEntity | src/pages/NewDocument.tsx:175-178 | The counterparty is the listed one with the chosen id, or none; a page of unknown type has none to pick; every other field is unchanged |
| NewDocument.DocumentDraft.SelectArticle | src/pages/NewDocument.tsx:208-211 | The selection is the article with the chosen id, or none; every other field is unchanged |
| NewDocument.DocumentDraft.AddArticle | src/pages/NewDocument.tsx:79-105 | handleAddArticle is the merge-by-article add (no price kept), and it preserves the unique-id invariant; the lists, counterparty, comments and confirmation are unchanged |
| NewDocument.DocumentDraft.RemoveArticle | src/pages/NewDocument.tsx:108-110 | handleRemoveArticle drops the line with that article id; every other field is unchanged |
| NewDocument.DocumentDraft.CreateDocument | src/pages/NewDocument.tsx:113-156 | A request is sent exactly when an entity is selected, the list is non-empty and the stored user parses, and only on a page of known type; it is the built request with that user; the confirmation shows only on success; every other field is unchanged |
| Movement.RemoveAt | src/pages/Movement.tsx:222 | Removing an index in range shortens the list by one; an index out of range changes nothing |
| Movement.RemoveAtSlices | src/pages/Movement.tsx:222 | Removing an index keeps the entries before and after it, in order |
| Movement.AddItemFacts | src/pages/Movement.tsx:65-80 | An add appends exactly one line with the article, location and quantity, and resets the fields to none, "" and 1; an incomplete form changes nothing |
| Movement.AddTwiceTwoLines | src/pages/Movement.tsx:67-75 | Adding the same article at the same location twice gives two equal lines; there is no merging |
| Movement.ScanSelectFacts | src/pages/Movement.tsx:141-152 | A known code selects the article, clears the location and sets quantity 1 without adding a line; an unknown code changes nothing |
| Movement.CallsMadeOrder | src/pages/Movement.tsx:93-130 | The calls run in order picking, movement, status 5, match, and stop right after the first failure |
| Movement.MovementPage.constructor | src/pages/Movement.tsx:34-42 | The page starts with no lines, no selection, an empty location and quantity 1 |
| Movement.MovementPage.AddItemLine | src/pages/Movement.tsx:65-80 | handleAddItem is the append-only add, and it preserves the item invariant; the articles, comparison data, scanner and loading flag are unchanged |
| Movement.MovementPage.RemoveItem | src/pages/Movement.tsx:222 | The delete button removes the entry at that index; every other field is unchanged |
| Movement.MovementPage.ScanCode | src/pages/Movement.tsx:141-152 | handleScan selects the scanned article and closes the scanner; it alerts exactly when no article has that code or bar code; the articles, comparison data and loading flag are unchanged |
| Movement.MovementPage.CreateMovement | src/pages/Movement.tsx:82-138 | Without a type or document id nothing is sent; otherwise the calls stop at the first failure, which alerts, and the comparison data is stored only when all four succeed; the lines, articles, picker and scanner are unchanged |
| Articles.EntriesAreEntries | src/pages/Articles.tsx:199-202 | Splitting at commas and trimming gives at least one entry, each trimmed and comma-free |
| Articles.TrimAllEntries | src/pages/Articles.tsx:199-202 | Trimming comma-free pieces gives entries, one per piece |
| Articles.EntriesLeadingSpace | src/pages/Articles.tsx:205 | A leading blank does not change the entries, so the `", "` separator reads back as a comma |
| Articles.RenderEntries | src/pages/Articles.tsx:205 | Joining entries with `", "` and splitting again gives them back |
| Articles.NewVariantEmpty | src/pages/Articles.tsx:32 | The new variant text is empty exactly when color, fit and size are all empty, which is also when the add button is disabled |
| Articles.AddAppends | src/pages/Articles.tsx:258-264 | After an add, the entries are the old trimmed entries followed by the new variant (just the variant when there was no string); duplicates are not checked |
| Articles.DeleteRemoves | src/pages/Articles.tsx:199-205 | A delete removes every entry equal to the variant and keeps the others in order |
| Articles.AddDeleteRoundTrip | src/pages/Articles.tsx:199-205 | Deleting a just-added variant that was not already present gives back the normalised old list |
| Articles.Search | src/pages/Articles.tsx:141-150 | The search keeps an article exactly when its lower-cased name, description or code contains the lower-cased term |
| Articles.SearchEmpty | src/pages/Articles.tsx:141-150 | An empty term keeps every article |
| Articles.CarouselWraps | src/pages/Articles.tsx:458-473 | With at least one image: previous from 0 goes to the last index and next from the last goes to 0; both stay in range and undo each other |
| Articles.CarouselEmpty | src/pages/Articles.tsx:458-473 | Without images nothing guards the buttons: from index 0 previous gives -1 and next gives 1, and away from -1 and 0 they step by one without wrapping |
| Articles.ReplaceById | src/pages/Articles.tsx:183-187 | The updated list keeps its length |
| Articles.SetVariants | src/pages/Articles.tsx:230-236 | The list with new variants keeps its length |
| Articles.DeleteById | src/pages/Articles.tsx:162-164 | The delete keeps exactly the articles with another id |
| Articles.ReplaceOnlyMatching | src/pages/Articles.tsx:183-187 | Only the article with the matching id takes the edited copy; all others are untouched |
| Articles.SetVariantsOnlyMatching | src/pages/Articles.tsx:284-290 | Only the article with the matching id takes the new variant string |
| Articles.DeleteOne | src/pages/Articles.tsx:162-164 | Deleting a unique id removes that one article and keeps the rest in order |
| Articles.DeleteNone | src/pages/Articles.tsx:162-164 | Deleting an absent id changes nothing |
| Articles.ArticleList.constructor | src/pages/Articles.tsx:23-35 | The page starts with the loaded articles and no selection |
| Articles.ArticleList.OpenArticle | src/pages/Articles.tsx:114-120 | Opening an article selects it, and the effect on the selection clears the three variant pickers |
| Articles.ArticleList.AddVariant | src/pages/Articles.tsx:245-300 | A disabled form or no selection sends nothing; otherwise the extended string is sent and, on success, stored in the article and the selection, with the selectors reset; it alerts exactly when the form is disabled or a request was made |
| Articles.ArticleList.DeleteVariant | src/pages/Articles.tsx:195-242 | Without a selection, variant or variant string nothing is sent; otherwise the pruned string is sent and, on success, stored in the article and the selection, the confirmation closes and the selectors clear; it alerts exactly when the request fails |
| Articles.ArticleList.Delete | src/pages/Articles.tsx:152-169 | A pending non-zero id is removed on success; otherwise nothing changes; it alerts exactly when the request fails |
| Articles.ArticleList.Update | src/pages/Articles.tsx:171-193 | On success the edited copy replaces the article with its id and the selection clears; it alerts exactly when the request fails |
| Stock.RowsOfMembers | src/pages/Stock.tsx:84-88 | A code's group holds exactly the rows with that code |
| Stock.SumQuantitiesConcat | src/pages/Stock.tsx:78-82 | The quantity sum of a concatenation is the sum of the sums |
| Stock.TotalQuantityLast | src/pages/Stock.tsx:78-82 | A code's total grows by a new row's quantity exactly when the row has that code |
| Stock.TotalQuantityAbsent | src/pages/Stock.tsx:78-82 | A code with no rows has no group rows and a total of 0 |
| Stock.RowsOfConcat | src/pages/Stock.tsx:84-88 | Grouping keeps the input order inside each group |
| Stock.KeysFacts | src/pages/Stock.tsx:84-88 | The group keys are exactly the codes that occur |
| Stock.KeysDistinct | src/pages/Stock.tsx:84-88 | Each code is a key once |
| Stock.KeysAbsent | src/pages/Stock.tsx:84-88 | A code that is not a key has no rows |
| Stock.GroupStock | src/pages/Stock.tsx:84-88 | The `reduce` into an accumulator object builds a map whose keys are the codes and whose group for each code is its rows in order |
| Stock.GroupStep | src/pages/Stock.tsx:85-87 | One push step keeps the loop invariant |
| Stock.GroupsPartition | src/pages/Stock.tsx:84-88 | Every row lands in its own code's group and in no other |
| Stock.SumOfTotalsLastRow | src/pages/Stock.tsx:78-88 | Over distinct keys, a new row adds its quantity to the sum of totals exactly when its code is a key |
| Stock.GroupTotalsSum | src/pages/Stock.tsx:78-88 | The per-code totals over all groups add up to the sum of all row quantities |
| Stock.GroupTotalsStep | src/pages/Stock.tsx:78-88 | A new row adds exactly its quantity to the sum of group totals |
| Stock.KeysMatching | src/pages/Stock.tsx:90-94 | The matching keys are exactly those containing the term case-insensitively |
| Stock.FilteredStockFacts | src/pages/Stock.tsx:90-94 | An empty term lists every key; otherwise exactly the matching ones; always a subset of the keys |
| Stock.KeysMatchingShorter | src/pages/Stock.tsx:90-94 | The filter never lengthens the key list |
| Stock.ToggleFacts | src/pages/Stock.tsx:51-57 | A toggle flips membership of that code only, keeps the list duplicate-free, and toggling an absent code twice restores the list |
| Stock.MovementSign | src/pages/Stock.tsx:206 | A movement shows '+' exactly when its type is "E", else '-' |
| Stock.StockView.constructor | src/pages/Stock.tsx:27-33 | Nothing starts expanded |
| Stock.StockView.ToggleExpand | src/pages/Stock.tsx:51-57 | toggleExpand applies the toggle to the expanded list and keeps it duplicate-free; every other field is unchanged |
| Stock.StockView.ToggleLocationExpand | src/pages/Stock.tsx:59-76 | A loaded key is closed without a request; otherwise the fetched list is stored on success, the map is kept on failure, and the loading marker clears; the stock, expanded codes and search term are unchanged |
| Stock.StockView.Listed | src/pages/Stock.tsx:90-94 | The listed codes are the filtered group keys, each code of some row |
| Documents.Capitalize | src/pages/Documents.tsx:55-56 | The first character is upper-cased and the rest lower-cased, with the length kept |
| Documents.CapitalizeIdempotent | src/pages/Documents.tsx:55-56 | Capitalising twice equals capitalising once |
| Documents.ThirdPartyTypeMapping | src/pages/Documents.tsx:58-60 | "Proveedor" exactly when the type is "remito" case-insensitively, else "Cliente" |
| Documents.StatusOrPending | src/pages/Documents.tsx:96 | A non-empty status is kept, and the status shown is never empty |
| Documents.FormatItems | src/pages/Documents.tsx:97-102 | Each detail becomes one item in order, with the same id, code and quantity, and its price or 0 when it has none |
| Documents.DetailsTotalMatchesItems | src/pages/Documents.tsx:97-106 | The total over the details equals the worth of the formatted items |
| Documents.FormatDocumentFacts | src/pages/Documents.tsx:90-107 | A formatted document keeps id, code and date, has the mapped counterparty type, the capitalised type, the status or "Pendiente", one item per detail with the detail's id, code and quantity, and the total of quantity × (price or 0) |
| Documents.IndexOfCode | src/pages/Documents.tsx:112-121 | The position found holds that code; no position means the code is absent |
| Documents.DedupeDistinct | src/pages/Documents.tsx:112-121 | The Map keeps one option per code |
| Documents.DedupeKeepsLast | src/pages/Documents.tsx:112-121 | Each option kept is the last one given for its code |
| Documents.DedupeCovers | src/pages/Documents.tsx:112-121 | Every code of the documents has an option |
| Documents.LabelLeqTotal | src/pages/Documents.tsx:122 | The label order is total |
| Documents.LabelLeqTransitive | src/pages/Documents.tsx:122 | The label order is transitive |
| Documents.InsertByLabel | src/pages/Documents.tsx:122 | An insertion step gives exactly the old options plus the new one, as multisets |
| Documents.InsertSorted | src/pages/Documents.tsx:122 | Inserting into a sorted list keeps it sorted |
| Documents.InsertDistinct | src/pages/Documents.tsx:122 | Inserting a new code keeps the codes distinct |
| Documents.SortByLabel | src/pages/Documents.tsx:122 | The sort is a permutation: the same options with the same multiplicities |
| Documents.SortByLabelFacts | src/pages/Documents.tsx:122 | The sort result is ordered by label and keeps codes distinct |
| Documents.ThirdPartyOptionsFacts | src/pages/Documents.tsx:112-122 | The options hold exactly one entry per counterparty code, from the last document with that code, sorted by label |
| Documents.DefinedMembers | src/pages/Documents.tsx:160-162 | After pruning, the kept pairs are exactly the defined entries |
| Documents.PruneUndefined | src/pages/Documents.tsx:160-162 | The `forEach` deletion leaves exactly the defined entries, in order |
| Documents.FilterKeepsFilled | src/pages/Documents.tsx:150-162 | A field is sent exactly when its input is non-empty, with that input (dates converted); nothing is sent undefined |
| Documents.DefinedShorter | src/pages/Documents.tsx:160-162 | Pruning never adds entries |
| Orders.FormatItems | src/pages/Orders.tsx:43-50 | Items map one-to-one from the cart details |
| Orders.DetailsTotalMatchesItems | src/pages/Orders.tsx:43-54 | The reduce over the details equals the worth of the formatted items |
| Orders.ItemsTotalNonNegative | src/pages/Orders.tsx:51-54 | With non-negative quantities and prices the total is non-negative |
| Orders.FormatOrders | src/pages/Orders.tsx:38-55 | One order per fetched order |
| Orders.FormatOrdersFacts | src/pages/Orders.tsx:38-55 | Each order keeps id, client and date, is "pending" (shown as "Pendiente"), copies code, name, variant, quantity and article price per detail, and totals Σ quantity × price (0 for an empty cart) |
| Orders.StatusLabelTable | src/pages/Orders.tsx:69-77 | Exactly the four statuses have a label, and distinct statuses have distinct labels |
| MasterArticles.ResetFormOmitsBarCode | src/pages/MasterArticles.tsx:32-46 | The reset form equals the initial form except that it lacks `codigoBarra` |
| MasterArticles.Search | src/pages/MasterArticles.tsx:81-90 | The search keeps an article exactly when its lower-cased name, description or code contains the lower-cased term |
| MasterArticles.SearchConcat | src/pages/MasterArticles.tsx:81-90 | The search keeps the list order |
| MasterArticles.SearchEmpty | src/pages/MasterArticles.tsx:81-90 | An empty term keeps every article |
| MasterArticles.DeleteById | src/pages/MasterArticles.tsx:100-102 | The delete keeps exactly the articles with another id |
| MasterArticles.DeleteConcat | src/pages/MasterArticles.tsx:100-102 | The delete keeps the order of the rest |
| MasterArticles.DeleteAbsent | src/pages/MasterArticles.tsx:100-102 | Deleting an absent id changes nothing |
| MasterArticles.DeleteUnique | src/pages/MasterArticles.tsx:100-102 | Deleting a unique id removes that one article and keeps the rest in order |
| MasterArticles.ReplaceById | src/pages/MasterArticles.tsx:119-123 | The update keeps the list length |
| MasterArticles.ReplaceOnlyMatching | src/pages/MasterArticles.tsx:119-123 | Only the article with the matching id takes the edited copy; ids are kept |
| MasterArticles.MasterArticleList.constructor | src/pages/MasterArticles.tsx:24-46 | The page starts with the loaded list, shown in full, and the initial form |
| MasterArticles.MasterArticleList.Delete | src/pages/MasterArticles.tsx:92-107 | A pending non-zero id is removed on success; a failure leaves the list unchanged and alerts |
| MasterArticles.MasterArticleList.Update | src/pages/MasterArticles.tsx:109-128 | On success only the matching article is replaced; a failure leaves the list unchanged and alerts |
| MasterArticles.MasterArticleList.Add | src/pages/MasterArticles.tsx:130-160 | On success the returned article is appended and the form reset; a failure leaves the list unchanged and alerts |
| Locations.SentCode | src/pages/Locations.tsx:48 | The code sent is the typed code upper-cased character by character, with the same length |
| Locations.SentCodeExamples | src/pages/Locations.tsx:39-48 | Blanks around the code are sent, and a blank code is refused |
| Locations.DeleteById | src/pages/Locations.tsx:95-97 | The delete keeps exactly the locations with another id |
| Locations.DeleteAbsent | src/pages/Locations.tsx:95-97 | Deleting an absent id changes nothing |
| Locations.DeleteIdempotent | src/pages/Locations.tsx:95-97 | Deleting twice is deleting once |
| Locations.ReplaceById | src/pages/Locations.tsx:74-78 | The update keeps the list length |
| Locations.ReplaceOnlyMatching | src/pages/Locations.tsx:74-78 | Only the location with the edited id changes; ids are kept |
| Locations.UpdateKeepsTypedCode | src/pages/Locations.tsx:69-78 | The list keeps the code as typed while the server gets it upper-cased |
| Locations.LocationList.constructor | src/pages/Locations.tsx:12-18 | The page starts with the loaded list and empty fields |
| Locations.LocationList.Add | src/pages/Locations.tsx:38-60 | A blank code alerts and sends nothing; otherwise the upper-cased code is sent and, on success, the returned location is appended and the modal closes |
| Locations.LocationList.Update | src/pages/Locations.tsx:62-83 | The upper-cased code is sent; on success the local copy replaces the matching id; it alerts exactly when the request fails |
| Locations.LocationList.Delete | src/pages/Locations.tsx:85-102 | A pending non-zero id is removed on success; failures leave the list unchanged and alert |
| ConferenceSeats.TakeSeat | src/pages/Conferences.tsx:82-88 | The seat decrement keeps the list length |
| ConferenceSeats.TakeSeatOnlyMatching | src/pages/Conferences.tsx:82-88 | Only conferences with the matching id lose exactly one seat; the others are unchanged |
| ConferenceSeats.TakeSeatTotal | src/pages/AdminConferences.tsx:126-132 | The total capacity drops by exactly the number of conferences with that id |
| Conferences.ButtonConditions | src/pages/Conferences.tsx:217-229 | An enabled button passes the blank check; an active-looking button is enabled unless a success message shows; enabled-but-inactive happens exactly for a negative capacity |
| Conferences.ConferencePage.constructor | src/pages/Conferences.tsx:15-22 | The page starts with the loaded list, no selection and empty fields |
| Conferences.ConferencePage.Register | src/pages/Conferences.tsx:42-98 | No selection or a blank field sends nothing and keeps the selection, fields and message; registration follows attendee creation only on success; seat, message and field clearing happen only when both succeed |
| AdminConferences.FindSpeaker | src/pages/AdminConferences.tsx:83 | The speaker found has the conference's speaker id and is the first with it; none means no speaker has it |
| AdminConferences.JoinSpeakersFacts | src/pages/AdminConferences.tsx:82-85 | The join succeeds exactly when every conference has a speaker, and then each conference gets its speaker's name |
| AdminConferences.IntToString | src/pages/AdminConferences.tsx:54 | A number renders as non-empty text of digits and a sign |
| AdminConferences.NatToString | src/pages/AdminConferences.tsx:54 | A non-negative number renders as non-empty digits |
| AdminConferences.NatToStringValue | src/pages/AdminConferences.tsx:54 | The digits of a natural number denote exactly that number, with no leading zero |
| AdminConferences.IntToStringValue | src/pages/AdminConferences.tsx:54 | The text starts with a minus sign exactly for a negative number, and the digits that follow denote its magnitude |
| AdminConferences.CsvLines | src/pages/AdminConferences.tsx:50-55 | One CSV line per attendee |
| AdminConferences.CsvRowsAppend | src/pages/AdminConferences.tsx:51-54 | One more attendee appends exactly its record |
| AdminConferences.CsvGrow | src/pages/AdminConferences.tsx:51-54 | One `+=` step keeps the loop invariant |
| AdminConferences.CsvRowsJoin | src/pages/AdminConferences.tsx:50-55 | The rows are the lines joined by "\n", with a final "\n" |
| AdminConferences.CsvLineNoNewline | src/pages/AdminConferences.tsx:52-53 | A line holds no newline when name and email hold none |
| AdminConferences.CsvRowsSplit | src/pages/AdminConferences.tsx:50-55 | Splitting the rows at "\n" gives back the lines |
| AdminConferences.CsvLineFields | src/pages/AdminConferences.tsx:52-53 | Splitting a line at quotes gives back id, name and email |
| AdminConferences.CsvLineQuoteNotEscaped | src/pages/AdminConferences.tsx:52-53 | An embedded quote is written unescaped, not doubled as section 2 of RFC 4180 requires |
| AdminConferences.ExportAttendees | src/pages/AdminConferences.tsx:39-67 | A file is produced exactly when the request succeeds with attendees; its content is the header plus one line per attendee, and the conference id only names the file |
| AdminConferences.DeleteById | src/pages/AdminConferences.tsx:153 | The delete keeps exactly the conferences with another id |
| AdminConferences.DeleteCount | src/pages/AdminConferences.tsx:153 | The delete removes exactly the conferences with that id |
| AdminConferences.AdminConferencePage.constructor | src/pages/AdminConferences.tsx:69-97 | The conferences are the speaker join when both requests succeed; otherwise the list stays empty with an error |
| AdminConferences.AdminConferencePage.AskDelete | src/pages/AdminConferences.tsx:35-37 | The confirmation opens for that id; the list, error, selection, fields and messages are unchanged |
| AdminConferences.AdminConferencePage.ConfirmDelete | src/pages/AdminConferences.tsx:144-158 | No pending id does nothing; on success the id is removed and the modal closes; a failure alerts and changes nothing; the selection, fields and messages are never touched |
| AdminConferences.AdminConferencePage.Register | src/pages/AdminConferences.tsx:99-142 | A blank field is refused with the required message; a refusal keeps the selection, fields and message; on success the matching conference and the selected copy lose one seat and the fields clear; a failure keeps everything but the form error |
| Register.Validate | src/pages/Register.tsx:20-30 | The e-mail message is given exactly without '@', the mismatch message exactly for a valid e-mail with different passwords, and none otherwise |
| Register.EmailCheckedFirst | src/pages/Register.tsx:20-30 | A form failing both checks reports the e-mail |
| Register.RegisterForm.constructor | src/pages/Register.tsx:7-13 | The form starts empty and not loading |
| Register.RegisterForm.Submit | src/pages/Register.tsx:15-49 | No user is sent when a check fails; otherwise the user is sent and success or failure is shown; loading is false on every exit |

## Left out

- Network I/O: every request is a success flag plus the value it returns. JSON decoding, the thrown error messages, the 2-second waits, and the success-message timers are not modelled.
- Rendering: JSX, styles, and flags used only to show modals.
- Money: prices and totals are integers. JavaScript floating point and `toFixed(2)` are not modelled.
- Dates: the `new Date(...)` conversions and `toISOString`. Date filter values are parameters, and the date sort of stock movements (src/pages/Stock.tsx:197) is not modelled.
- Text.Lower: ASCII case mapping only. The same holds for Text.Upper and Text.Trim's whitespace class; Unicode case mapping and whitespace are not modelled.
- Documents.SortByLabel: orders labels by character code rather than by the locale-dependent `localeCompare`.
- Stock.GroupStock: lists keys in order of first appearance. JavaScript lists integer-like object keys first, and prototype-named keys such as "constructor" behave differently; neither is modelled.
- Orders.StatusLabel: a status naming an `Object.prototype` member, such as "toString", is not modelled; it yields none.
- `Number(...)` conversion of select values: selections are modelled by integer id.
- Billing.Invoice.ScanCode: models the lookup and selection only. The add that handleScan calls sees the previous selection, which Billing.ScanAsWrittenMissesScannedArticle states.
- NewOrder.Cart.UpdateCartItemQuantity: modelled by its own signature. The cart's +/- buttons pass an item id where it expects a code and variant, so the buttons are not modelled.
- AdminConferences.AdminConferencePage.Register: only the handler is modelled. The registration modal is never opened on that page.
- Articles.DeleteRemoves: requires that some entry survives. Joining an empty list gives "" and reads back as one empty entry.
- Articles.AddDeleteRoundTrip: requires that the variant is trimmed, comma-free and not already present, because otherwise the delete also removes the older copies.
- Browser plumbing: camera scanning, `localStorage` access (the stored user is a parameter: none, unparsable text, or a parsed user whose name and role may be missing), and the CSV download (`encodeURI`, link click).
- Alerts: every modelled handler that shows an alert returns whether it did. NewOrder.Cart.ConfirmOrder returns the message itself, because it varies. Console output is not modelled.
- The inline field editor of the selected article (src/pages/Articles.tsx:494): each keystroke makes a new selection, which also clears the variant pickers; only opening an article is modelled.
- Redirects are not modelled as navigation. On the new-document page an unknown type leaves the draft empty, so it cannot send (src/pages/NewDocument.tsx:45-48). On the movement page a missing type or document id sends the user to "/error" (src/pages/Movement.tsx:58-63); the model keeps the page, and Movement.MovementPage.CreateMovement refuses with an alert and sends nothing.
- Login, routing, menus and the form pages that pass input straight to the server are not part of this model.
