# Order panel model

A Dafny model of the client-side logic of the e-commerce order panel: a React
dashboard that keeps the shop's orders in memory, merges CSV uploads into
them, lets staff create, edit, tag, clone and delete orders, filters them by
status tab and search text, and — in its order table — selects orders and
products, pages through them, refreshes return tracking and requests returns.

Every backend call is a parameter: a `Reply` that is `Ok(answer)` or `Failed`
(a rejected promise or an unsuccessful answer). The current time is a `now: nat`
parameter in milliseconds. Each component's state is a class whose methods
are the component's handlers. Each handler is proved against specification
functions on values. The properties the components promise are lemmas about
those functions.

| module | models |
|---|---|
| `JsStrings`, `JsNumbers`, `JsValues` | `trim`, ASCII lower-casing, `includes`, `Number(...)`, truthiness, `\|\|` and `??` |
| `Seqs`, `LinkedMaps` | `filter`, and a JavaScript `Map` (insertion-ordered keys, `set` replaces in place) |
| `Orders` | the order record, `updatedAt \|\| createdAt` recency and the stable "latest first" sort, replacement by `_id` |
| `MainDashboard` | `src/MainDashboard.jsx`: the CSV merge, save/tag/clone/delete, the tab and search filter and its counters |
| `TableSelection`, `TableView`, `TrackingRefresh`, `Returns`, `OrderTable` | `src/Components/OrderTable/OrderTable.jsx`: selections, return quantities, pagination, row de-duplication, tracking refresh, single and bulk return |
| `OrderForm` | `src/Components/OrderForm/OrderForm.jsx`: field and product editing, loading an order to edit, submit validation and the payload |
| `UploadCsv` | `src/Components/UploadCSV/UploadCSV.jsx`: the file-type check and the upload handler |

## Model

| member | source | states |
|---|---|---|
| JsStrings.Trim | src/MainDashboard.jsx:70 | `trim` never lengthens a string, and its result neither starts nor ends with whitespace |
| JsStrings.TrimStartDropsWhitespace | src/MainDashboard.jsx:70 | the start trim returns a suffix of its input, and everything it dropped is whitespace |
| JsStrings.TrimEndDropsWhitespace | src/MainDashboard.jsx:70 | the end trim returns a prefix of its input, and everything it dropped is whitespace |
| JsStrings.TrimPadded | src/MainDashboard.jsx:70 | surrounding whitespace on either side does not change the trimmed string |
| JsStrings.TrimIdempotent | src/Components/OrderForm/OrderForm.jsx:226 | trimming twice is trimming once |
| JsNumbers.DecimalStringRoundTrip | src/MainDashboard.jsx:209 | `Number` of the decimal digits of a non-negative integer is that integer (used to read a clone's timestamp back) |
| LinkedMaps.FromPairsLastWins | src/MainDashboard.jsx:73-90 | after a sequence of `Map.set` calls, a key holds the value of its last `set` |
| LinkedMaps.FromPairsFirstOrder | src/MainDashboard.jsx:92 | `Map.values()` lists the keys in the order in which each was first `set` |
| LinkedMaps.FromPairsDistinct | src/Components/OrderTable/OrderTable.jsx:701 | with distinct keys, the map's keys and values are exactly the pairs set, in their order |
| LinkedMaps.ValueAt | src/MainDashboard.jsx:92 | every value the map yields comes from the last `set` of its key |
| Orders.Recency | src/MainDashboard.jsx:93-95 | an order's sort time is `updatedAt`, else `createdAt`; with neither it sorts as oldest |
| Orders.InsertSorted | src/MainDashboard.jsx:92-97 | inserting an order into a list sorted latest first keeps it sorted |
| Orders.InsertPermutes | src/MainDashboard.jsx:92-97 | inserting adds the order and loses none |
| Orders.SortSorts | src/MainDashboard.jsx:92-97 | the comparator sort yields a list sorted latest first |
| Orders.SortPermutes | src/MainDashboard.jsx:92-97 | the sort is a permutation: every order is kept as often as it occurs |
| Orders.SortSorted | src/MainDashboard.jsx:92-97 | an already sorted list is left exactly as it is (the sort is stable) |
| Orders.SortIdempotent | src/MainDashboard.jsx:92-97 | sorting twice is sorting once |
| Orders.SortMembers | src/MainDashboard.jsx:92-97 | an order is in the sorted list if and only if it is in the input |
| Orders.ReplaceById | src/MainDashboard.jsx:117-120 | the list keeps its length; every order with the `_id` becomes the saved order, every other order stays at its place |
| Orders.EffectiveStatus | src/MainDashboard.jsx:238 | `status \|\| "New"` is never empty and is the order's status when it has one |
| Orders.PermutationKeepsDistinct | src/MainDashboard.jsx:92-97 | reordering a list whose orders have distinct keys keeps the keys distinct |
| MainDashboard.StripHash | src/MainDashboard.jsx:70 | `replace(/^#/, "")` removes one leading `#` or leaves the text as it is |
| MainDashboard.Normalize | src/MainDashboard.jsx:70 | an absent id stays absent; a present one becomes its trim with at most one leading `#` removed, and a result without a removed `#` does not start with `#` |
| MainDashboard.NormalizeIgnoresPadding | src/MainDashboard.jsx:70 | `" 1001 "` and `"1001"` give the same key: surrounding whitespace never matters |
| MainDashboard.NormalizeIgnoresHash | src/MainDashboard.jsx:70 | `"#1001"` and `"1001"` give the same key `"1001"` |
| MainDashboard.NormalizeDropsHash | src/MainDashboard.jsx:70 | a `#` in front of a trimmed number is removed |
| MainDashboard.NormalizeStripsOneHash | src/MainDashboard.jsx:70 | only one `#` goes: `"##" + t` gives `"#" + t` |
| MainDashboard.NormalizeFixedPoint | src/MainDashboard.jsx:70 | a key is its own normalisation if and only if it is trimmed and does not start with `#` |
| MainDashboard.NormalizeNotIdempotent | src/MainDashboard.jsx:70 | normalising `"##1"` gives `"#1"`, and normalising that again gives `"1"` |
| MainDashboard.Stored | src/MainDashboard.jsx:85-89 | an uploaded order is stored whole, under its normalised number, with `updatedAt = now` |
| MainDashboard.MergePairAt | src/MainDashboard.jsx:76-90 | the `n`-th `set` of the merge stores the `n`-th existing order under its normalised number, then the uploaded orders as stored |
| MainDashboard.SetExisting | src/MainDashboard.jsx:76-79 | the first loop leaves the map as the `set` calls for the existing orders define it |
| MainDashboard.SetUploaded | src/MainDashboard.jsx:82-90 | the second loop continues from that map and leaves it as all `set` calls of the merge define it |
| MainDashboard.MergeUploaded | src/MainDashboard.jsx:70-97 | the merge yields the map's values sorted latest first, and the result is sorted |
| MainDashboard.MergeKeepsUntouched | src/MainDashboard.jsx:76-90 | an existing order survives unchanged when no later existing order and no uploaded order has its normalised number |
| MainDashboard.MergeCollapsesExisting | src/MainDashboard.jsx:70-79 | existing orders are keyed like uploaded ones, so of two existing orders with the same normalised number (`"#1001"` and `"1001"`, or two without an order number) only the later survives, even when nothing with that number is uploaded |
| MainDashboard.MergeStoresUpload | src/MainDashboard.jsx:82-90 | the last uploaded order with a number is in the merged list as stored; an earlier duplicate in the same upload is overwritten |
| MainDashboard.MergeLastCall | src/MainDashboard.jsx:73-97 | every order of the merged list is the order of the last `set` made with its number |
| MainDashboard.LastCallSource | src/MainDashboard.jsx:76-90 | the last `set` for a number is an existing order only when no uploaded order has that number |
| MainDashboard.MergeSource | src/MainDashboard.jsx:73-97 | every merged order is an existing order whose number no upload has, or an uploaded order as stored: no field-level merge |
| MainDashboard.MergeDistinctNumbers | src/MainDashboard.jsx:73-97 | when every uploaded number normalises to a key normalisation leaves alone, no two merged orders share a normalised number |
| MainDashboard.MergeNumberCollision | src/MainDashboard.jsx:70-90 | without that condition an existing `"1"` and an uploaded `"##1"` both stay, with the same normalised number |
| MainDashboard.Touched | src/MainDashboard.jsx:119 | the saved order with `updatedAt = now` and nothing else changed |
| MainDashboard.EditReplacesOnlyMatching | src/MainDashboard.jsx:117-128 | after an edit an order is listed if and only if it was listed with another `_id`, or it is the saved order and some order had the edited `_id` |
| MainDashboard.RemoveById | src/MainDashboard.jsx:219 | delete keeps exactly the orders with another `_id`, in their order, and changes nothing when no order has the `_id` |
| MainDashboard.RemoveKeepsOrder | src/MainDashboard.jsx:219 | deleting from a concatenation deletes from each part, so the rest keeps its relative order |
| MainDashboard.ClonePayload | src/MainDashboard.jsx:207-213 | the clone has no `_id`, `updatedAt = now`, the number `(orderId or _id) + "-CLONE-" + now`, and every other field of the source |
| MainDashboard.CloneNumber | src/MainDashboard.jsx:209 | the clone's number differs from the source's, starts with its base and `-CLONE-`, and the timestamp reads back from it |
| MainDashboard.FilterOrders | src/MainDashboard.jsx:231-244 | the shown orders are a subsequence of the list; an order is shown if and only if it matches the search and the tab ("All": any; "AlreadyReturned": tracking status "Returned"; any other: `status \|\| "New"` equals the tab) |
| MainDashboard.AllTabShowsEverything | src/MainDashboard.jsx:231-244 | the "All" tab with an empty search shows the whole list |
| MainDashboard.CountStatus | src/MainDashboard.jsx:250-253 | a status counter never exceeds the number of orders |
| MainDashboard.GetStatusCounts | src/MainDashboard.jsx:246-259 | `All` is the number of orders and every other counter is at most `All` |
| MainDashboard.StatusTabCount | src/MainDashboard.jsx:236-259 | with an empty search, the counter of a named status equals the number of orders its tab shows |
| MainDashboard.NewTabCount | src/MainDashboard.jsx:249 | the `New` counter (missing status or "New") equals what the "New" tab shows |
| MainDashboard.ReturnedTabCount | src/MainDashboard.jsx:254-256 | the `AlreadyReturned` counter equals what its tab shows |
| MainDashboard.CountsMatchTabs | src/MainDashboard.jsx:231-259 | with an empty search, each of the seven counters is the length of its tab's list |
| MainDashboard.Dashboard.constructor | src/MainDashboard.jsx:16-21 | no orders, no form open, empty search, "All" tab |
| MainDashboard.Dashboard.FilteredOrders | src/MainDashboard.jsx:231-244 | the orders handed to the table are a subsequence of the dashboard's list |
| MainDashboard.Dashboard.HandleCsvUploaded | src/MainDashboard.jsx:66-106 | a non-empty upload replaces the list by the merge; an absent or empty one leaves it and asks for a refetch; nothing else changes |
| MainDashboard.Dashboard.HandleEditAction | src/MainDashboard.jsx:178-180 | "Edit" opens the form on the order and leaves the list alone |
| MainDashboard.Dashboard.HandleSaveOrder | src/MainDashboard.jsx:112-145 | an edit replaces the orders with the edited `_id` and re-sorts; a create prepends exactly one order; success closes the form; failure changes nothing |
| MainDashboard.Dashboard.HandleAddTagAction | src/MainDashboard.jsx:185-205 | a non-empty tag sends the tagged order and, on success, replaces the order with that `_id` and re-sorts; an empty or cancelled prompt sends nothing |
| MainDashboard.Dashboard.HandleCloneAction | src/MainDashboard.jsx:206-215 | "Clone" sends the clone payload and, on success, prepends exactly the created order |
| MainDashboard.Dashboard.HandleDeleteAction | src/MainDashboard.jsx:216-221 | a confirmed, successful delete removes exactly the orders with that `_id`; otherwise the list stays |
| TableSelection.PropKey | src/Components/OrderTable/OrderTable.jsx:338 | a present `_id` is its own property name |
| TableSelection.Toggle | src/Components/OrderTable/OrderTable.jsx:78-82 | the toggled id is selected afterwards if and only if it was not before; every other id keeps its state |
| TableSelection.ToggleTwice | src/Components/OrderTable/OrderTable.jsx:78-82 | toggling twice restores the selected ids, and the very same list when the id was absent |
| TableSelection.ToggleKeepsNoDup | src/Components/OrderTable/OrderTable.jsx:78-82 | a selection without duplicates keeps none after a toggle |
| TableSelection.Selected | src/Components/OrderTable/OrderTable.jsx:338 | `prev[key] \|\| []`: the stored positions, or none |
| TableSelection.ToggleProduct | src/Components/OrderTable/OrderTable.jsx:92-102 | the product's position flips, the order's other positions keep their state, and every other order's selection is unchanged |
| TableSelection.ToggleProductTwice | src/Components/OrderTable/OrderTable.jsx:92-102 | ticking and unticking a product restores that order's selection |
| TableSelection.QuantitiesOf | src/Components/OrderTable/OrderTable.jsx:350 | `prev[key] \|\| {}`: the stored quantities, or none |
| TableSelection.StoredQuantity | src/Components/OrderTable/OrderTable.jsx:350 | a quantity is stored exactly when the order and the position have an entry |
| TableSelection.SetReturnQuantity | src/Components/OrderTable/OrderTable.jsx:43-51 | the entry `[order][position]` holds the new quantity and every other order's and position's entry is unchanged |
| TableView.TotalPages | src/Components/OrderTable/OrderTable.jsx:74 | `ceil(n / pageSize)`: the fewest pages that hold all `n` orders |
| TableView.PageStartIsProduct | src/Components/OrderTable/OrderTable.jsx:75 | the first index of page `p` is `(p - 1) * pageSize` |
| TableView.Window | src/Components/OrderTable/OrderTable.jsx:76 | `slice(start, start + size)`: the contiguous run from `start`, of `size` orders or as many as remain |
| TableView.PageSliceContents | src/Components/OrderTable/OrderTable.jsx:73-76 | the page is the contiguous run from `(currentPage - 1) * pageSize`, at most `pageSize` orders, empty past the end |
| TableView.OrderOnItsPage | src/Components/OrderTable/OrderTable.jsx:73-76 | order `i` is shown at position `i % pageSize` of page `i / pageSize + 1`, which is one of the `totalPages` pages |
| TableView.PastLastPageEmpty | src/Components/OrderTable/OrderTable.jsx:73-76 | a page beyond `totalPages` is empty |
| TableView.NumberPairs | src/Components/OrderTable/OrderTable.jsx:701 | the pairs given to `new Map` are each order's number with the order, in page order |
| TableView.RowsDistinctNumbers | src/Components/OrderTable/OrderTable.jsx:701 | no two rows carry the same `orderId` |
| TableView.RowIsLastOccurrence | src/Components/OrderTable/OrderTable.jsx:701 | each row is the last order of the page with its number |
| TableView.EveryNumberHasRow | src/Components/OrderTable/OrderTable.jsx:701 | every number on the page has a row |
| TableView.RowsInFirstOccurrenceOrder | src/Components/OrderTable/OrderTable.jsx:701 | rows come in the order in which their numbers first occur on the page |
| TableView.DistinctPageShownAsIs | src/Components/OrderTable/OrderTable.jsx:701 | a page with distinct numbers is shown exactly as it is |
| TrackingRefresh.NewTracking | src/Components/OrderTable/OrderTable.jsx:136 | the order's tracking from the answer when present, else the answer's `tracking` |
| TrackingRefresh.FindByNumber | src/Components/OrderTable/OrderTable.jsx:109 | `find` yields the first order with the number, and nothing exactly when no order has it |
| TrackingRefresh.SetLoading | src/Components/OrderTable/OrderTable.jsx:116-122 | only `trackingLoading` of the orders with the number changes |
| TrackingRefresh.WithTracking | src/Components/OrderTable/OrderTable.jsx:145-158 | orders with another number are unchanged; the matching ones change only `returnTracking`, `trackingLoading` and `updatedAt`, and keep `status` |
| TrackingRefresh.LoadingThenCleared | src/Components/OrderTable/OrderTable.jsx:185-191 | the failure path ends as if only the loading flag had been cleared |
| TrackingRefresh.LoadingThenUpdated | src/Components/OrderTable/OrderTable.jsx:116-158 | the success update overwrites the loading mark set before the request |
| TrackingRefresh.OrdersWithTracking | src/Components/OrderTable/OrderTable.jsx:197-200 | the orders sent are exactly the selected ones with a tracking id, in list order |
| TrackingRefresh.TrackingIds | src/Components/OrderTable/OrderTable.jsx:209-211 | one tracking id per order sent, in its order |
| TrackingRefresh.LatestEvent | src/Components/OrderTable/OrderTable.jsx:227 | the first event of the shipment history, when it has one |
| TrackingRefresh.BulkEntry | src/Components/OrderTable/OrderTable.jsx:238-244 | the appended entry has the time, the latest event's status or "Updated", its public description or "Bulk tracking update", and its city and hub name (none when no event is reported) |
| TrackingRefresh.BulkRefreshed | src/Components/OrderTable/OrderTable.jsx:229-247 | only `returnTracking` changes: the latest status or the old one, the time, the shipment, and the old history plus one entry |
| TrackingRefresh.BulkApply | src/Components/OrderTable/OrderTable.jsx:219-251 | orders whose tracking id the answer reports are refreshed; all others are unchanged |
| TrackingRefresh.BulkAppendsOne | src/Components/OrderTable/OrderTable.jsx:236-245 | a refreshed order's history grows by exactly one entry and keeps its earlier entries in front |
| TrackingRefresh.BulkTwiceAppendsTwo | src/Components/OrderTable/OrderTable.jsx:236-245 | the append is unconditional: two refreshes with the same answer add two entries |
| Returns.SelectedIndices | src/Components/OrderTable/OrderTable.jsx:346-347 | the positions kept are exactly the selected positions within the product list, ascending |
| Returns.ReturnQuantity | src/Components/OrderTable/OrderTable.jsx:350 | the stored quantity, else the ordered quantity, else 1; never 0 |
| Returns.ReturnItem | src/Components/OrderTable/OrderTable.jsx:348-353 | a returned product keeps its name and image, takes the return quantity, and defaults `smart_checks` to `[]` and `uploadedImageUrl` to `""` |
| Returns.QuantityAt | src/Components/OrderTable/OrderTable.jsx:350 | a quantity is found exactly when the position has an entry |
| Returns.ReturnProductsAsWritten | src/Components/OrderTable/OrderTable.jsx:346-353 | the selected products in order, each looking up its quantity by its position among the selected ones |
| Returns.ReturnProducts | src/Components/OrderTable/OrderTable.jsx:346-353 | the selected products in order, each with the quantity chosen under its own index, else its ordered quantity, else 1 |
| Returns.ReturnProductsHonoursChoice | src/Components/OrderTable/OrderTable.jsx:346-353 | in the corrected construction, a selected product with a non-zero quantity chosen for it (stored under its own index) is returned with exactly that quantity |
| Returns.ReturnQuantityMisread | src/Components/OrderTable/OrderTable.jsx:346-353 | the code as written returns the ordered 5 where 2 was chosen; the corrected lookup returns 2 |
| Returns.AllSelectedReturnsAll | src/Components/OrderTable/OrderTable.jsx:346-347 | with every position selected, every product is returned |
| Returns.NewStatus | src/Components/OrderTable/OrderTable.jsx:406 | `orderStatus` when non-empty, else the backend order's status |
| Returns.ReturnedOrder | src/Components/OrderTable/OrderTable.jsx:419-434 | the backend's order with the new status, not loading, updated now, and nothing else changed |
| Returns.BulkReturnProducts | src/Components/OrderTable/OrderTable.jsx:505-507 | the selected products in order, each with `smart_checks` defaulted to `[]` |
| Returns.BulkReturned | src/Components/OrderTable/OrderTable.jsx:546-550 | the backend's order with `trackingLoading` false and nothing else changed |
| Returns.BulkStep | src/Components/OrderTable/OrderTable.jsx:497-566 | each attempted order adds exactly one to the success or error count; its products are read from the selection captured when the handler was rendered, and with none selected it sends nothing; a success replaces the order and drops its selection; an error changes no order |
| Returns.BulkSharedKeySentTwice | src/Components/OrderTable/OrderTable.jsx:497-499 | two orders to return with the same selection key both send a request: dropping the key after the first success does not reach the captured selection the loop reads |
| Returns.BulkRunCounts | src/Components/OrderTable/OrderTable.jsx:497-566 | after `k` orders the two counts add up to `k`, neither decreases, and at most `k` requests were sent after the earlier ones |
| Returns.OrdersToReturnSelected | src/Components/OrderTable/OrderTable.jsx:493 | the bulk return works through exactly the selected orders, in list order |
| OrderTable.IdsOf | src/Components/OrderTable/OrderTable.jsx:86 | one `_id` per order, in order |
| OrderTable.BulkReturnLoop | src/Components/OrderTable/OrderTable.jsx:497-566 | reading the products from the captured selection, the loop ends in the state the per-order steps define, with success plus error count equal to the number of orders attempted and no more requests than orders |
| OrderTable.Table.constructor | src/Components/OrderTable/OrderTable.jsx:11-17 | page 1 of 100, nothing selected, no quantities |
| OrderTable.Table.ReceiveOrders | src/Components/OrderTable/OrderTable.jsx:20-24 | new orders are copied in and the order and product selections are dropped; quantities and page stay |
| OrderTable.Table.SetPageSize | src/Components/OrderTable/OrderTable.jsx:1041-1042 | a new page size and back to page 1 |
| OrderTable.Table.ToggleSelectOrder | src/Components/OrderTable/OrderTable.jsx:78-82 | the order selection is toggled and nothing else changes |
| OrderTable.Table.ToggleSelectAll | src/Components/OrderTable/OrderTable.jsx:84-90 | ticking selects the ids of the current page, unticking selects none |
| OrderTable.Table.ToggleSelectProduct | src/Components/OrderTable/OrderTable.jsx:92-102 | the product selection is toggled and nothing else changes |
| OrderTable.Table.UpdateReturnQuantity | src/Components/OrderTable/OrderTable.jsx:43-51 | the quantity map takes the new entry and nothing else changes |
| OrderTable.Table.RefreshTracking | src/Components/OrderTable/OrderTable.jsx:104-194 | an unknown number changes nothing; success gives the matching orders the new tracking with status kept; failure only clears their loading flag |
| OrderTable.Table.HandleBulkTrackingRefresh | src/Components/OrderTable/OrderTable.jsx:196-264 | sends the tracking ids of the selected orders; with none nothing changes; success refreshes the reported orders; failure changes no order |
| OrderTable.Table.HandleReturnClick | src/Components/OrderTable/OrderTable.jsx:333-476 | without selected products nothing is sent and nothing changes; otherwise the selected products are sent with their quantities looked up as written (by position among the selected products, see Findings), and a complete answer replaces the order, clears its product selection and asks for a refetch of all orders; the loading mark is cleared on every path |
| OrderTable.Table.HandleBulkReturn | src/Components/OrderTable/OrderTable.jsx:479-591 | with no selected order or no confirmation nothing happens; otherwise every selected order is attempted and counted once, a refetch is asked and the order selection cleared |
| OrderForm.FieldChanged | src/Components/OrderForm/OrderForm.jsx:131-143 | only field `name` changes; the six numeric fields hold `Number(value)`, or `""` for an empty input; others hold the text |
| OrderForm.ProductChanged | src/Components/OrderForm/OrderForm.jsx:146-158 | the named field takes the input (`quantity` and `price` through `Number`, `""` kept); both image URLs keep their values; every other field stays |
| OrderForm.TypedQuantity | src/Components/OrderForm/OrderForm.jsx:150 | typing the digits of `n` as a quantity stores the number `n` |
| OrderForm.ProductsChanged | src/Components/OrderForm/OrderForm.jsx:146-158 | the list keeps its length, product `i` is changed and every other product is unchanged |
| OrderForm.Spliced | src/Components/OrderForm/OrderForm.jsx:174-178 | `splice(i, 1)` drops exactly product `i`, shortens the list by one and keeps the others in order |
| OrderForm.AddThenRemove | src/Components/OrderForm/OrderForm.jsx:160-178 | removing the product just added restores the list |
| OrderForm.LoadedProduct | src/Components/OrderForm/OrderForm.jsx:101-108 | a loaded product keeps its image URLs, name, category and price (with defaults), and its quantity is `Number(q) \|\| 1`, never falsy |
| OrderForm.LoadedProducts | src/Components/OrderForm/OrderForm.jsx:98-115 | the form always has a product: each loaded product in order, or the single default product for a missing or empty list |
| OrderForm.EditDefaults | src/Components/OrderForm/OrderForm.jsx:92-123 | the date is cut to its day (or `""`), the payment mode defaults to "COD" with `??`, the status to "New" with `\|\|` |
| OrderForm.EditBlankNumbers | src/Components/OrderForm/OrderForm.jsx:116-121 | a missing numeric property becomes `""`; a present one is kept |
| OrderForm.EditKeepsOtherProperties | src/Components/OrderForm/OrderForm.jsx:91-93 | every other property comes from the edited order when present and from the initial form otherwise |
| OrderForm.PayloadProduct | src/Components/OrderForm/OrderForm.jsx:243-250 | a saved product keeps name and `Number(quantity)`, keeps a truthy category and image URL and replaces a falsy one by "Home" or `""`, and its price is `Number(price)`, or 0 when that is `NaN`; each `\|\|` default is stated for both a truthy and a falsy input |
| OrderForm.OptionalNumber | src/Components/OrderForm/OrderForm.jsx:251-256 | an empty numeric field is left undefined, otherwise it is `Number` of it |
| OrderForm.BuildPayload | src/Components/OrderForm/OrderForm.jsx:232-268 | every field of the payload is stated: the valid products in order; order number, customer, city, state and pincode carried as they are; empty numeric fields undefined; a truthy payment mode, status, destination name, Shopify id, HSN code, invoice reference and destination field is sent as chosen, a falsy one as "COD", "New", the warehouse name or `""` |
| OrderForm.Submit | src/Components/OrderForm/OrderForm.jsx:213-277 | rejected exactly when a customer detail is missing, or when no product is valid; throws exactly when a product name is not a string; otherwise saves the payload of the valid products |
| OrderForm.SavedProductsValid | src/Components/OrderForm/OrderForm.jsx:224-250 | every saved product has a non-blank name and a positive quantity, and they keep the form's order |
| OrderForm.InitialFormRejected | src/Components/OrderForm/OrderForm.jsx:217-220 | a fresh form cannot be saved: the customer details are empty |
| OrderForm.AddProductKeepsSubmit | src/Components/OrderForm/OrderForm.jsx:160-229 | an added, untouched product changes nothing at submit |
| OrderForm.LoadedProductValid | src/Components/OrderForm/OrderForm.jsx:98-115 | a loaded product with a non-blank name and a non-negative quantity passes the submit filter |
| OrderForm.Form.constructor | src/Components/OrderForm/OrderForm.jsx:49-89 | the initial form with one default product |
| OrderForm.Form.LoadEditData | src/Components/OrderForm/OrderForm.jsx:90-129 | the edited order's fields and products, or the initial form when there is none |
| OrderForm.Form.HandleChange | src/Components/OrderForm/OrderForm.jsx:131-143 | the fields change as `FieldChanged` says and the products stay |
| OrderForm.Form.HandleProductChange | src/Components/OrderForm/OrderForm.jsx:146-158 | the copied list with product `i` changed becomes the product list; the fields stay |
| OrderForm.Form.AddProduct | src/Components/OrderForm/OrderForm.jsx:160-172 | exactly one default product is appended at the end |
| OrderForm.Form.RemoveProduct | src/Components/OrderForm/OrderForm.jsx:174-178 | the copy with product `i` spliced out becomes the product list |
| UploadCsv.ExtensionIgnoresCase | src/Components/UploadCSV/UploadCSV.jsx:28 | the extension test gives the same answer for a name and its lower-case form |
| UploadCsv.UpperCaseExtensionAccepted | src/Components/UploadCSV/UploadCSV.jsx:28 | a name ending in `.XLSX` is accepted whatever its MIME type |
| UploadCsv.InnerExtensionRefused | src/Components/UploadCSV/UploadCSV.jsx:22-31 | a `text/plain` file named `….csv.txt` is refused: the extension must end the name |
| UploadCsv.Uploader.constructor | src/Components/UploadCSV/UploadCSV.jsx:8-9 | no file, not uploading |
| UploadCsv.Uploader.ChooseFile | src/Components/UploadCSV/UploadCSV.jsx:11-14 | the chosen file replaces the previous one |
| UploadCsv.Uploader.StartUpload | src/Components/UploadCSV/UploadCSV.jsx:16-42 | the request goes out if and only if a file is chosen and its MIME type or extension is accepted; only then is `uploading` set |
| UploadCsv.Uploader.FinishUpload | src/Components/UploadCSV/UploadCSV.jsx:48-71 | a failure keeps the file; a success hands over exactly `updatedOrders` when present and clears the file; `uploading` ends false |
| UploadCsv.Uploader.HandleUpload | src/Components/UploadCSV/UploadCSV.jsx:16-73 | the whole handler: nothing is sent or changed without an accepted file; otherwise the answer decides as above and `uploading` ends false |

## Left out

- Network calls are not performed: each is a `Reply` parameter (or a function from the attempt number to a reply in the bulk return). Toasts, console output, `window.confirm` and `prompt` are parameters or omitted.
- Rendering is not modelled: JSX, CSS, the row menu, the status tab bar of `src/Components/StatusTabs/StatusTabs.jsx` and the page-navigation buttons.
- The product image upload handlers of the form and the table are not modelled. They are browser I/O: `FormData` and `URL.createObjectURL`.
- Times are natural numbers of milliseconds. `new Date().toISOString()`, `Date.now()` and the ISO text of an edited order's date are parameters. An invalid date, which would throw, is not modelled.
- OrderForm.BuildPayload keeps a truthy order date as its text. The source sends `new Date(order.orderDate)` (src/Components/OrderForm/OrderForm.jsx:235); date parsing is not modelled.
- Orders.Recency: an order with neither `updatedAt` nor `createdAt` sorts as the oldest. In the source its comparator answers `NaN`, which leaves the engine's order unspecified.
- The search's `JSON.stringify(order)` is an abstract `text` function of the order. The search is a substring test on its lower-cased text.
- JsStrings.ToLowerAscii lower-cases ASCII letters only. The file-name test only needs ASCII; other scripts' case rules are not modelled.
- JsNumbers.StringToNumber reads optionally signed decimal literals with an optional fraction. Exponents, hexadecimal, binary and octal literals, `Infinity` and numeric separators give `NaN` in the model. Numbers are exact reals: floating-point rounding is not modelled.
- The customer, address and dimension fields of a stored order are carried unchanged by every list operation, so they are one `details` map.
- The return request body is modelled only as the order number and the products. The customer, address, dimension and pickup fields are copied from the order unchanged.
- `handleReturnOrderSubmit` (src/MainDashboard.jsx:147-173) is not modelled: the return form that would call it is never opened.
- The `forwardShip` and `reverseShip` actions only show a toast.
- The dashboard's `loading` flag and the table's `menuOpen` state are not modelled.
- `fetchOrders` is a network call: a refetch is a boolean result.
- `refreshTracking` is not reachable from the rendered table. It is modelled because the handler defines the update, and its status-preserving rule is the point.
- React batching is not modelled. In the bulk return, the updaters passed to `setLocalOrders` and `setSelectedProductsPerOrder` take effect in turn, as React applies queued updaters, while the loop itself reads the `localOrders` and `selectedProductsPerOrder` captured when the handler was rendered. Reading `localOrders` right after setting it, as the logging at src/Components/OrderTable/OrderTable.jsx:161 does, is not modelled.
- The merge and the sort run on values. `Array.prototype.sort` sorting in place is an insertion sort on sequences, which is stable as the engine's sort is.
- OrderForm.Form.HandleProductChange requires an index within the product list. The form calls it only for rendered products. For an index past the end the source throws a `TypeError` reading `newProducts[i].imageUrl` (src/Components/OrderForm/OrderForm.jsx:154) before anything is assigned, so the form would stay as it was; that throwing path is not modelled.
- MainDashboard.Normalize: order numbers are strings or absent. `id?.toString()` on a number or another non-string value is not modelled.
- OrderTable.Table.HandleReturnClick: the refetch after a successful return is a boolean result. Its one-second `setTimeout` delay is not modelled.
- OrderForm.Form.RemoveProduct takes a natural index. A negative `splice` index, counting from the end, is never produced by the form.
- UploadCsv.Uploader.FinishUpload assumes `onUploaded` is supplied, as the dashboard does (src/MainDashboard.jsx:279). A body that is not JSON is a `Failed` reply, as the `catch` treats it.
- TrackingRefresh.BulkApply: an answer's entry for a tracking id is refreshed when present. A present but falsy entry such as `null` is not modelled.

## Findings

| source | as written | input that shows it | evidently intended | confidence | as-written member | corrected member |
|---|---|---|---|---|---|---|
| src/Components/OrderTable/OrderTable.jsx:346-353 | the chosen return quantity is stored under the product's index in the order (line 762) but looked up under its position among the selected products | an order with products a and b, b ordered 5 times; only b selected and quantity 2 chosen for it: the request returns 5 | look the quantity up under the product's own index | not executed | Returns.ReturnQuantityMisread | Returns.ReturnProducts |

`OrderTable.Table.HandleReturnClick` sends the request as written, built by `Returns.ReturnProductsAsWritten`. `Returns.ReturnProducts` is the corrected construction; `Returns.ReturnProductsHonoursChoice` proves the intended property about it.
