# Restaurant admin front end: a Dafny model

This project models the logic behind the admin front end of a restaurant
system. The model covers six pieces:

- the order-pricing rules its test suite pins down: cart edits, what a
  confirmed order still owes, and price formatting;
- the table invoice screen (`AdTables`): voucher discounts, merging the
  pending cart into the order, totals, removing lines, validating the sync
  payload and the table status label;
- the invoice list (`TableOrder`): sorting, paging, filtering, the overdue
  rule, and rebuilding a pending order from a reserved (status 1) one;
- the post list (`PostList`): the query it sends, the sort-key parser,
  post normalisation, the response shapes it accepts, the page window and
  the slug truncation;
- the menu screen (`Menu`): the active flag, the filter-source choice,
  sorting, the create payload, the pager and the active toggle;
- the file-manager hook (`useFileManager`): a class with the hook's six
  state fields, its setters, `loadFiles` and `deleteFiles`.

Modules:

- `Js` (`js.dfy`): the JavaScript semantics the code relies on. This covers
  truthiness, `||` defaults, `Number(...)` on strings, `String(...)`,
  `trim`, `includes`, `indexOf`, `replace` and `split`.
- `Seqs` (`seqs.dfy`): filter, sum, slice, subsequence and an insertion
  sort standing for `Array.prototype.sort`.
- `Pagination` (`pagination.dfy`): the previous/next clamps. The three list
  screens share them.
- `OrderCalculations`, `AdTables`, `TableOrder`, `PostList`, `Menu`,
  `FileManager`: one module per core file.

Design choices:

- **Pure and class-based code.** Code that computes values is modelled as
  functions and lemmas.
- **Code that changes state step by step is imperative Dafny:**
  - the `Map` merge in `AdTables` is a method with loops;
  - the mutable `URLSearchParams` and the reassigned `field`/`direction` in
    `PostList` are a class and a method;
  - the hook is a class whose setters change one field each.
- **Dynamic values.** JavaScript values whose type the code does not fix
  (ids, statuses, amounts from the API) are a `Value` datatype:
  number, string, boolean, null or undefined.
- **Unseen implementation.** The implementation of `orderCalculations` is
  not part of this model. Its functions are modelled from what
  `src/utils/__tests__/orderCalculations.test.ts` requires of them. Each
  test case of that file is stated as a lemma on its own fixture, except
  the one at lines 88-89, which contradicts the test at lines 60-69 (see
  "Left out").

## Model

| member | source | states |
|---|---|---|
| OrderCalculations.IndexOfId | src/utils/__tests__/orderCalculations.test.ts:114-124 | the index found holds the id and no earlier line does; none means no line has the id |
| OrderCalculations.FindOrderItem | src/utils/__tests__/orderCalculations.test.ts:114-124 | absent exactly when no line has the id; otherwise the first line with the id |
| OrderCalculations.FindOrderItemExamples | src/utils/__tests__/orderCalculations.test.ts:114-124 | on the two-line fixture, id 1 finds the first line and id 999 finds nothing |
| OrderCalculations.UpdateItemQuantity | src/utils/__tests__/orderCalculations.test.ts:126-147 | the cart never grows |
| OrderCalculations.UpdateItemQuantityEffect | src/utils/__tests__/orderCalculations.test.ts:126-147 | an unknown id leaves the cart unchanged; otherwise the first matching line gets the new quantity, or is removed when that quantity is 0 or less |
| OrderCalculations.UpdateItemQuantityExamples | src/utils/__tests__/orderCalculations.test.ts:126-147 | on the fixture, +1 and -1 on id 1 give quantities 3 and 1, -2 leaves only the line with id 2, and id 999 changes nothing |
| OrderCalculations.AddNewItem | src/utils/__tests__/orderCalculations.test.ts:149-165 | the cart grows by at most one line |
| OrderCalculations.AddNewItemEffect | src/utils/__tests__/orderCalculations.test.ts:149-165 | an unknown id is appended with the given quantity; a known id's first line is raised by it, keeping its name and price |
| OrderCalculations.AddNewItemExamples | src/utils/__tests__/orderCalculations.test.ts:149-165 | on the fixture, id 3 is appended as the third line with quantity 2, and adding id 1 again keeps two lines with the first at quantity 3 |
| OrderCalculations.RemoveItem | src/utils/__tests__/orderCalculations.test.ts:167-178 | no remaining line has the id; every line with another id is kept, every copy of it, and nothing is added |
| OrderCalculations.RemoveItemAbsent | src/utils/__tests__/orderCalculations.test.ts:174-177 | removing an id no line has returns the cart unchanged |
| OrderCalculations.RemoveItemExamples | src/utils/__tests__/orderCalculations.test.ts:167-178 | on the fixture, removing id 1 leaves the line with id 2, and removing id 999 changes nothing |
| OrderCalculations.RemoveItemPresent | src/utils/__tests__/orderCalculations.test.ts:168-172 | with unique ids, removing drops exactly the matching line |
| OrderCalculations.RemoveItemIsOrdered | src/utils/__tests__/orderCalculations.test.ts:167-178 | the lines that remain keep their order |
| OrderCalculations.UpdateKeepsIdsUnique | src/utils/__tests__/orderCalculations.test.ts:126-147 | updating keeps ids unique |
| OrderCalculations.AddKeepsIdsUnique | src/utils/__tests__/orderCalculations.test.ts:149-165 | adding keeps ids unique |
| OrderCalculations.RemoveItemUnique | src/utils/__tests__/orderCalculations.test.ts:167-178 | removing keeps ids unique |
| OrderCalculations.IsOrderConfirmed | src/utils/__tests__/orderCalculations.test.ts:83-104 | an order counts as confirmed when it exists and has status 1 or a positive total payment read with `Number(...) \|\| 0`; its cases are ConfirmationExamples |
| OrderCalculations.ConfirmationExamples | src/utils/__tests__/orderCalculations.test.ts:83-104 | status 1 confirms; a positive payment confirms with status 0; no order, or status 0 with nothing paid, is not confirmed |
| OrderCalculations.UnconfirmedOrderActsAsNone | src/utils/__tests__/orderCalculations.test.ts:37-81 | an existing order gives the same result as no order exactly when it is not confirmed, in both directions |
| OrderCalculations.FindRecorded | src/utils/__tests__/orderCalculations.test.ts:218-252 | the recorded line found has the product id, and none means no recorded line has it |
| OrderCalculations.CalculateOrderTotal | src/utils/__tests__/orderCalculations.test.ts:37-81 | a confirmed order is charged its payment minus its deposit plus the net new items, with the deposit reported; an unconfirmed one is charged the cart total; final total is base plus new items |
| OrderCalculations.NetTotalWithoutRecords | src/utils/__tests__/orderCalculations.test.ts:49-58 | with no recorded lines every cart line is charged whole |
| OrderCalculations.NetTotalIsCartMinusRecorded | src/utils/__tests__/orderCalculations.test.ts:218-252 | when each line is at or above its recorded quantity, the net charge is the cart total minus what was recorded, at cart prices |
| OrderCalculations.UnchangedCartChargesNothing | src/utils/__tests__/orderCalculations.test.ts:181-216 | reopening a confirmed order with exactly the recorded quantities charges nothing new; the total is payment minus deposit |
| OrderCalculations.NetTotalZero | src/utils/__tests__/orderCalculations.test.ts:181-216 | lines matching their records exactly contribute nothing |
| OrderCalculations.NetTotalAppend | src/utils/__tests__/orderCalculations.test.ts:37-81 | the net charge adds up over concatenated carts |
| OrderCalculations.AddingNewProductChargesIt | src/utils/__tests__/orderCalculations.test.ts:149-157 | adding a product neither in the cart nor on the order raises the final total by price times quantity, whatever the order state |
| OrderCalculations.RaisingQuantityChargesTheDifference | src/utils/__tests__/orderCalculations.test.ts:127-131 | raising a line at or above its recorded quantity by delta raises the final total by price times delta |
| OrderCalculations.RaiseLine | src/utils/__tests__/orderCalculations.test.ts:181-216 | raising one line changes the net and cart totals by price times delta |
| OrderCalculations.NetChargeRaise | src/utils/__tests__/orderCalculations.test.ts:181-216 | raising a line changes its own net and gross charge by price times delta |
| OrderCalculations.Pad3 | src/utils/__tests__/orderCalculations.test.ts:106-112 | a group below 1000 is written as exactly three digits |
| OrderCalculations.Grouped | src/utils/__tests__/orderCalculations.test.ts:106-112 | the grouped form starts with a digit, which is 0 only for 0 |
| OrderCalculations.GroupedValueOfDigits | src/utils/__tests__/orderCalculations.test.ts:106-112 | a plain digit string reads back as its decimal value |
| OrderCalculations.GroupedValueStep | src/utils/__tests__/orderCalculations.test.ts:106-112 | appending a comma and a three-digit group multiplies the value by 1000 and adds the group |
| OrderCalculations.GroupedRoundTrip | src/utils/__tests__/orderCalculations.test.ts:106-112 | thousands grouping reads back as the number and has the grouped shape |
| OrderCalculations.FormatPrice | src/utils/__tests__/orderCalculations.test.ts:106-112 | a minus sign for a negative amount, the comma-grouped digits of its magnitude, then "đ"; read back by ParsePrice in FormatPriceRoundTrip |
| OrderCalculations.FormatPriceRoundTrip | src/utils/__tests__/orderCalculations.test.ts:106-112 | parsing the formatted price gives the amount back, negatives included |
| OrderCalculations.FormatPriceExamples | src/utils/__tests__/orderCalculations.test.ts:107-111 | 100000, 1000000 and 0 format as "100,000đ", "1,000,000đ" and "0đ" |
| OrderCalculations.CalculationScenarios | src/utils/__tests__/orderCalculations.test.ts:37-81 | the four calculateOrderTotal cases give the expected result records |
| OrderCalculations.OrderWorkflowScenario | src/utils/__tests__/orderCalculations.test.ts:182-216 | the workflow cart totals 160000, and after the edits the confirmed order owes 300000 |
| OrderCalculations.ApiStringScenario | src/utils/__tests__/orderCalculations.test.ts:218-252 | decimal-string amounts give base 210000, deposit 90000, new items 130000 and final 340000 |
| OrderCalculations.ApiStringScenarioLarge | src/utils/__tests__/orderCalculations.test.ts:254-285 | the status-1 order gives base 300000, new items 500000 and final 800000 |
| OrderCalculations.ApiStringScenariosAsSent | src/utils/__tests__/orderCalculations.test.ts:218-285 | both API-string scenarios with the test's strings "300000.00", "90000.00", "450000.00" and "150000.00" give the expected result records |
| OrderCalculations.ReadAmount300000 | src/utils/__tests__/orderCalculations.test.ts:223 | "300000.00" reads as 300000 |
| OrderCalculations.ReadAmount90000 | src/utils/__tests__/orderCalculations.test.ts:218-252 | "90000.00" reads as 90000 |
| OrderCalculations.ReadAmount450000 | src/utils/__tests__/orderCalculations.test.ts:259 | "450000.00" reads as 450000 |
| OrderCalculations.ReadAmount150000 | src/utils/__tests__/orderCalculations.test.ts:254-285 | "150000.00" reads as 150000 |
| OrderCalculations.MoneyString | src/utils/__tests__/orderCalculations.test.ts:218-252 | the decimal digits of n followed by ".00" read as n |
| AdTables.Round100 | src/components/tables/AdTables.tsx:264 | the result is the nearest integer to x/100, halves rounded up, as Math.round does |
| AdTables.VoucherDiscount | src/components/tables/AdTables.tsx:251-271 | no voucher, a falsy type or a zero value gives 0; a subtotal below a set minimum gives 0; an applicable discount never exceeds the subtotal |
| AdTables.VoucherDiscountByType | src/components/tables/AdTables.tsx:261-270 | type 1 is the rounded percentage capped at the subtotal; type 2 is the value capped at the subtotal; any other type gives min(0, subtotal) |
| AdTables.PercentDiscountInRange | src/components/tables/AdTables.tsx:251-271 | a percentage in [0,100] on a non-negative subtotal gives a discount between 0 and the subtotal |
| AdTables.StringTypedVoucherGivesNothing | src/components/tables/AdTables.tsx:262-267 | a discount type that arrives as a string matches neither strict comparison, so nothing is taken off |
| AdTables.Keys | src/components/tables/AdTables.tsx:334-338 | each line's map key is String(id) |
| AdTables.MergeLines | src/components/tables/AdTables.tsx:330-344 | the values of the map set from the existing lines and then added to from the pending ones; its order and contents are MergeKeys and MergeLineFor |
| AdTables.Merge | src/components/tables/AdTables.tsx:330-344 | the two forEach loops over a Map compute MergeLines |
| AdTables.SetLines | src/components/tables/AdTables.tsx:333-335 | the first loop sets each existing line under its key |
| AdTables.AddLines | src/components/tables/AdTables.tsx:336-343 | the second loop adds a pending quantity under a present key and inserts an absent one |
| AdTables.MapValues | src/components/tables/AdTables.tsx:344 | Array.from(map.values()) lists the entries in key-insertion order |
| AdTables.SetAllStep | src/components/tables/AdTables.tsx:333-335 | one step of the first loop |
| AdTables.AddAllStep | src/components/tables/AdTables.tsx:336-343 | one step of the second loop |
| AdTables.DedupOntoAppend | src/components/tables/AdTables.tsx:330-344 | recording keys over two lists in one pass equals two passes |
| AdTables.DedupOntoShape | src/components/tables/AdTables.tsx:330-344 | map keys keep first-insertion order, never repeat, and cover both lists |
| AdTables.SetAllCoherent | src/components/tables/AdTables.tsx:333-335 | the first loop keeps keys and entries in step |
| AdTables.AddAllCoherent | src/components/tables/AdTables.tsx:336-343 | the second loop keeps keys and entries in step |
| AdTables.ValuesOfIndex | src/components/tables/AdTables.tsx:344 | the values list has one entry per key, in key order |
| AdTables.MergeKeys | src/components/tables/AdTables.tsx:330-344 | the merged keys are unique: existing keys first, in order, then keys only pending has, in order |
| AdTables.LastLine | src/components/tables/AdTables.tsx:333-335 | a line is found exactly when the key occurs, and has that key |
| AdTables.FirstLine | src/components/tables/AdTables.tsx:339-341 | a line is found exactly when the key occurs, and has that key |
| AdTables.SetAllEntry | src/components/tables/AdTables.tsx:333-335 | after the first loop each key holds the last existing line with that key |
| AdTables.AddAllEntry | src/components/tables/AdTables.tsx:336-343 | after the second loop a present key has its quantity raised by the pending total; a new key holds the first pending line with the summed quantity |
| AdTables.MergeLineFor | src/components/tables/AdTables.tsx:330-344 | each merged line is the last existing line with its key plus all pending quantity, or the first pending line carrying the pending total |
| AdTables.DisplayedLines | src/components/tables/AdTables.tsx:330-352 | no pending cart shows the order's lines; a pending cart without an order shows the cart; both show the merge |
| AdTables.Subtotal | src/components/tables/AdTables.tsx:355-358 | the sum of price × quantity over the displayed lines; RemoveLineSubtotal relates it to removal |
| AdTables.Total | src/components/tables/AdTables.tsx:361 | subtotal minus discount minus deposit, clamped at 0 |
| AdTables.ApiFinalTotal | src/components/tables/AdTables.tsx:236 | the total computed from the API's values, where a missing or unreadable value counts as 0 |
| AdTables.TotalAtMostSubtotal | src/components/tables/AdTables.tsx:355-361 | with non-negative discount and deposit the total never exceeds the subtotal |
| AdTables.PercentVoucherTotal | src/components/tables/AdTables.tsx:251-271 | a percentage voucher leaves a total between 0 and the subtotal |
| AdTables.RemoveLine | src/components/tables/AdTables.tsx:376 | no line with the removed id remains; every line with another id stays, every copy of it, and nothing is added |
| AdTables.RemoveLineKeepsOrder | src/components/tables/AdTables.tsx:376 | the remaining lines keep their order |
| AdTables.RemoveLineSubtotal | src/components/tables/AdTables.tsx:376 | the subtotal drops by exactly the amount of the removed lines |
| AdTables.ValidateLines | src/components/tables/AdTables.tsx:711-721 | succeeds exactly when every line has an id and a quantity of at least 1, mapping each line to its numeric id and quantity; otherwise it names the first bad line, the error thrown inside the try |
| AdTables.ValidateSync | src/components/tables/AdTables.tsx:707-722 | an empty list is rejected; otherwise the lines are validated (the error thrown inside the try) |
| AdTables.SyncOutcome | src/components/tables/AdTables.tsx:705-736 | what the caller sees: any validation error becomes "Failed to sync order items"; after validation the reply is returned, or a truthy server message, or else the generic message |
| AdTables.SyncHidesValidation | src/components/tables/AdTables.tsx:729-734 | an empty cart or a bad line always fails with the generic message, whatever the server would have said |
| AdTables.TableStatus | src/components/tables/AdTables.tsx:761-762 | a table with lines is occupied; otherwise its own status, or available when that is falsy |
| AdTables.TableStatusLabel | src/components/tables/AdTables.tsx:756-763 | with lines the label is occupied's; without lines a falsy status is labelled available and a known status (available, occupied, reserved) gets its Vietnamese label; an unknown status is shown as is |
| Pagination.PrevPage | src/components/tables/TableOrder.tsx:352 | the previous-page target is at least 1, at most one step back, and equals the page only on page 1 (PostList.tsx:741 and Menu.tsx:1193 use the same clamp) |
| Pagination.NextPage | src/components/tables/TableOrder.tsx:375 | the next-page target is at most the last page, at most one step on, and equals the page only on the last page (PostList.tsx:777 and Menu.tsx:1253 use the same clamp) |
| Pagination.PageButtonsStayInRange | src/components/tables/TableOrder.tsx:352-375 | both targets stay in range, and previous then next, or next then previous, returns to the page away from the ends |
| TableOrder.SortedOrders | src/components/tables/TableOrder.tsx:98-103 | the sorted list is a permutation of the orders |
| TableOrder.BeforeAsymmetric | src/components/tables/TableOrder.tsx:98-103 | the comparator never puts each of two orders before the other |
| TableOrder.SortedOrdersAdjacent | src/components/tables/TableOrder.tsx:98-103 | neighbours in the sorted list are never out of comparator order |
| TableOrder.SortedNewestFirst | src/components/tables/TableOrder.tsx:98-103 | when every order has a creation time that `Date` can read, the list runs from newest to oldest |
| TableOrder.UnreadableTimeTies | src/components/tables/TableOrder.tsx:98-103 | two dated orders, one with a creation time `Date` cannot read, compare as a tie: the `NaN` difference puts neither first |
| TableOrder.SortedHighestIdFirst | src/components/tables/TableOrder.tsx:98-103 | when no order has a creation time and all ids are numeric, the list runs from highest id to lowest |
| TableOrder.TotalPages | src/components/tables/TableOrder.tsx:104 | the page count is the least number of pages of 10 that holds every order |
| TableOrder.Page | src/components/tables/TableOrder.tsx:105 | a page holds at most 10 orders: the slice for that page, cut at the end |
| TableOrder.PagesPrefix | src/components/tables/TableOrder.tsx:104-105 | the first k pages together are the first 10k orders |
| TableOrder.PagesCoverAll | src/components/tables/TableOrder.tsx:104-105 | the pages together are exactly the sorted list |
| TableOrder.StatusMatch | src/components/tables/TableOrder.tsx:112-113 | an empty status filter admits every order, otherwise `status?.toString()` must equal it |
| TableOrder.SearchMatch | src/components/tables/TableOrder.tsx:116-120 | an empty query admits every order; otherwise the lower-cased name, the phone or the id as text must contain it |
| TableOrder.FilteredOrders | src/components/tables/TableOrder.tsx:107-124 | every order shown passes the status filter and the search |
| TableOrder.FilteredOrdersIsOneFilter | src/components/tables/TableOrder.tsx:107-124 | the two chained filters are one filter by both conditions |
| TableOrder.FilteredOrdersOfPage | src/components/tables/TableOrder.tsx:107-124 | the shown orders keep page order, and every order with an id that passes both filters is shown |
| TableOrder.EmptyFiltersShowPage | src/components/tables/TableOrder.tsx:107-124 | with no status filter and no search the page is shown in order, less the orders without an id; a page whose orders all have ids is shown whole |
| TableOrder.Deadline | src/components/tables/TableOrder.tsx:138-140 | the deadline is the date at the given time, or at 23:59:59 when no time is set |
| TableOrder.Overdue | src/components/tables/TableOrder.tsx:133-143 | a status-1 order with a date whose deadline parses and lies before now |
| TableOrder.CheckOverdue | src/components/tables/TableOrder.tsx:133-148 | only the status can change; it changes, to 4, exactly when the order is overdue |
| TableOrder.CheckOverdueIdempotent | src/components/tables/TableOrder.tsx:133-148 | checking twice is checking once |
| TableOrder.OverdueStaysOverdue | src/components/tables/TableOrder.tsx:133-148 | an order overdue now is still marked overdue at any later time |
| TableOrder.PendingLines | src/components/tables/TableOrder.tsx:513-529 | one pending line per recorded line, in order |
| TableOrder.BuildPendingOrder | src/components/tables/TableOrder.tsx:508-529 | a pending order is stored exactly for a reserved (status 1) order with lines and a table; it carries the order id, the time and one line per item, using the product id or else the line id |
| PostList.SearchParams.constructor | src/components/tables/Post/PostList.tsx:239 | a new parameter list is empty |
| PostList.SearchParams.Append | src/components/tables/Post/PostList.tsx:240-272 | appending adds exactly one pair at the end |
| PostList.Lookup | src/components/tables/Post/PostList.tsx:239-272 | URLSearchParams.get: none exactly when the name is absent; otherwise a value paired with the name |
| PostList.LookupAppend | src/components/tables/Post/PostList.tsx:239-272 | a lookup in a joined list finds the first part's value before the second's |
| PostList.Alias | src/components/tables/Post/PostList.tsx:264-268 | created maps to created_at, seo to seo_score, anything else to itself |
| PostList.ParseSortKey | src/components/tables/Post/PostList.tsx:252-262 | the first `_desc` cut out, else the first `_asc`, else a split on `_`; its outcomes are SortKeyDesc, SortKeyAsc and FallbackIsAscending |
| PostList.SortParameter | src/components/tables/Post/PostList.tsx:264-267 | the aliased field, prefixed with "-" when the direction is desc |
| PostList.SortParam | src/components/tables/Post/PostList.tsx:250-271 | the step-by-step parse of the sort key computes the sort parameter |
| PostList.BuildPostQuery | src/components/tables/Post/PostList.tsx:239-272 | the appended parameters are exactly the modelled query |
| PostList.PostQuery | src/components/tables/Post/PostList.tsx:239-272 | the page pair followed by the title, status and sort parts; its contents are PostQueryParameters and PostQueryKeysDistinct |
| PostList.PostQueryParameters | src/components/tables/Post/PostList.tsx:239-272 | the page comes first; the title filter is sent exactly when there is a query; the status is 1 for published, 0 for other choices, absent for all; the sort is sent exactly when a key is set |
| PostList.PostQueryKeysDistinct | src/components/tables/Post/PostList.tsx:239-272 | no parameter name appears twice |
| PostList.LookupsOfJoin | src/components/tables/Post/PostList.tsx:239-272 | a lookup in the four-part query takes the first part that has the name |
| PostList.InitialQuery | src/components/tables/Post/PostList.tsx:145-150 | with the initial state the query is page 1, sorted newest first |
| PostList.SortKeyDesc | src/components/tables/Post/PostList.tsx:252-271 | a field followed by _desc sorts descending on the aliased field |
| PostList.SortKeyAsc | src/components/tables/Post/PostList.tsx:252-271 | a field followed by _asc sorts ascending on the aliased field |
| PostList.FallbackIsAscending | src/components/tables/Post/PostList.tsx:252-262 | a key without _desc never sorts descending, even when the split finds "desc" after an underscore |
| PostList.CreatedAtDescending | src/components/tables/Post/PostList.tsx:252-271 | the sort key created_at_desc is sent as -created_at |
| PostList.SeoScoreDescending | src/components/tables/Post/PostList.tsx:252-271 | the sort key seo_score_desc is sent as -seo_score |
| PostList.CreatedAliasDescending | src/components/tables/Post/PostList.tsx:252-271 | created_desc gives -created_at |
| PostList.SeoAliasAscending | src/components/tables/Post/PostList.tsx:252-271 | seo_asc gives seo_score |
| PostList.AscendingKeyExample | src/components/tables/Post/PostList.tsx:252-271 | title_asc gives title |
| PostList.NormalizePost | src/components/tables/Post/PostList.tsx:356-365 | id, name and slug are kept; a falsy title falls back to the name; published means status 1, or a truthy non-number; outstanding is the field's truthiness |
| PostList.NormalizeIdempotent | src/components/tables/Post/PostList.tsx:356-365 | normalising a normalised post changes nothing |
| PostList.StatusCoercionExamples | src/components/tables/Post/PostList.tsx:356-365 | the number 2 is truthy yet hidden, while the string "0" counts as published |
| PostList.NormalizePosts | src/components/tables/Post/PostList.tsx:353-373 | one normalised post per raw post, in order |
| PostList.AfterFetch | src/components/tables/Post/PostList.tsx:376-393 | a failed request or a reply without data empties the list and leaves one page |
| PostList.AfterFetchResponse | src/components/tables/Post/PostList.tsx:297-389 | a reply's posts are the normalised extracted ones; with page data the current and last page come from it, else there is one page |
| PostList.Extract | src/components/tables/Post/PostList.tsx:297-352 | the posts and the meta found in each of the six response shapes; the cases are ExtractShapes |
| PostList.ExtractShapes | src/components/tables/Post/PostList.tsx:297-352 | a bare array is taken with the root meta (cases 1 and 5); a wrapped array with its own meta (cases 2 and 3), or else its page fields when last_page is non-zero (case 4), or else with no meta (case 6); wrapped data that is not an array yields nothing |
| PostList.PageSlot | src/components/tables/Post/PostList.tsx:744-758 | a page gets a button exactly when it is first, last or within one of the current page; an ellipsis exactly at the second or second-to-last page otherwise |
| PostList.WindowKeepsAnchors | src/components/tables/Post/PostList.tsx:744-758 | the first, the last and the current page always have buttons |
| PostList.WindowMarksGaps | src/components/tables/Post/PostList.tsx:744-758 | every hidden page lies in a run that starts or ends with an ellipsis |
| PostList.WindowIsSmall | src/components/tables/Post/PostList.tsx:744-758 | only the first two, the last two and the three around the current page are drawn |
| PostList.TruncateSlug | src/components/tables/Post/PostList.tsx:634 | a slug of at most 18 characters is shown whole; a longer one as its first 18 and "..." |
| PostList.TruncatedSlugShape | src/components/tables/Post/PostList.tsx:634 | the shown slug is at most 21 long and starts like the slug |
| PostList.StatusText | src/components/tables/Post/PostList.tsx:175-181 | published posts read "Đã đăng", hidden ones "Ẩn" |
| PostList.StatusColor | src/components/tables/Post/PostList.tsx:175-181 | published posts are success, hidden ones error |
| PostList.BadgeDistinguishesStatus | src/components/tables/Post/PostList.tsx:175-181 | the badge's text and its colour each tell the two statuses apart |
| Menu.IsActiveOf | src/components/tables/Menu.tsx:150-162 | a boolean status is the flag, a numeric one is active when it is 1, anything else inactive; characterised by IsActiveIff |
| Menu.IsActiveIff | src/components/tables/Menu.tsx:150-162 | a product is active exactly when its status is true or the number 1; the string "1" and the number 2 are not |
| Menu.LoadProduct | src/components/tables/Menu.tsx:150-162 | only the active flag is set, from the status |
| Menu.LoadProducts | src/components/tables/Menu.tsx:187-199 | one loaded product per product, in order |
| Menu.LoadProductsIdempotent | src/components/tables/Menu.tsx:236-248 | loading loaded products again changes nothing |
| Menu.FilteredProducts | src/components/tables/Menu.tsx:522-557 | the chosen source list filtered by the predicates the screen re-checks for it; its properties are FilteredFromSource, LocalFilterChecksAll and NoFiltersShowsAll |
| Menu.SourceOf | src/components/tables/Menu.tsx:522-557 | search results when a name is set and results exist; else the status list; else the category list; else the API-sorted list, or the local products when that is empty |
| Menu.FilteredFromSource | src/components/tables/Menu.tsx:522-557 | the shown products keep the chosen source's order, each passes that source's filters, and every source product that passes them is shown |
| Menu.LocalFilterChecksAll | src/components/tables/Menu.tsx:546-556 | from the local list every shown product passes the name, status and category filters |
| Menu.NoFiltersShowsAll | src/components/tables/Menu.tsx:546-556 | with no filters the API-sorted list, or else the local list, is shown whole |
| Menu.SortedProducts | src/components/tables/Menu.tsx:559-575 | every sort is a permutation, and an unknown option leaves the list as it was |
| Menu.PriceSorts | src/components/tables/Menu.tsx:561-566 | with numeric prices, price_asc runs from cheapest to dearest and price_desc the reverse |
| Menu.BestSellersFirst | src/components/tables/Menu.tsx:571-572 | with readable sold counts, sold_desc runs from most sold to least |
| Menu.DisplayedRows | src/components/tables/Menu.tsx:1058-1060 | the rows are a permutation of the sorted products, reordered only for the default option |
| Menu.DefaultRowsNewestFirst | src/components/tables/Menu.tsx:1058-1060 | under the default option, with numeric ids, rows run from highest id to lowest |
| Menu.SubmitPayload | src/components/tables/Menu.tsx:375-400 | rejected exactly when name, price or category is falsy; otherwise status defaults to 1, sold count to 0, user to "1", slug, image, meta description and detail description to null when falsy (kept as sent otherwise), price and status are read with Number and the category with String |
| Menu.NewProductDefaults | src/components/tables/Menu.tsx:377-400 | a new product with name, price and category is accepted with the defaults |
| Menu.PagerAsWritten | src/components/tables/Menu.tsx:1211-1238 | page 1, page 2 near the start, a gap, the current page, a gap, the last page, with the guards as written |
| Menu.PagerDuplicatesPageTwo | src/components/tables/Menu.tsx:1211-1238 | with two pages and the current page 1 or 2, the pager as written draws page 2 twice |
| Menu.Pager | src/components/tables/Menu.tsx:1199-1238 | the corrected pager equals the written one whenever there are not exactly two pages |
| Menu.PagerButtonsIncrease | src/components/tables/Menu.tsx:1199-1238 | the corrected pager's buttons strictly increase and include the first, the current and the last page |
| Menu.PagerHiddenPages | src/components/tables/Menu.tsx:1225-1236 | a page before the current one is hidden only when the current page is past 3; one after it only when the current page is three or more from the end, or the page is second-to-last with the current page two from the end |
| Menu.PagerSkipsWithoutGap | src/components/tables/Menu.tsx:1227-1238 | on page 3 of 5 the pager shows 1, 2, 3, 5 with no gap mark for page 4 |
| Menu.ToggleActive | src/components/tables/Menu.tsx:1343-1347 | every product with the id gets the opposite is_active, the others are kept |
| Menu.ToggleActiveEffect | src/components/tables/Menu.tsx:1343-1347 | the list keeps its length, only matching products flip their flag, and toggling twice restores the list |
| FileManager.NormalizePath | src/hooks/useFileManager.ts:43-48 | "/" is kept, one trailing slash is removed from any other path |
| FileManager.NormalizePathEffect | src/hooks/useFileManager.ts:43-48 | "/" stays; a path gets one trailing slash stripped; otherwise it is unchanged |
| FileManager.NormalizeStripsOnce | src/hooks/useFileManager.ts:43-48 | only one trailing slash is stripped |
| FileManager.WorkingDir | src/hooks/useFileManager.ts:75-80 | the empty path stays empty; any other path gets a leading slash when it lacks one |
| FileManager.WorkingDirEffect | src/hooks/useFileManager.ts:75-80 | an empty path stays empty; any other gets a leading slash, added only when missing; applying it twice is applying it once |
| FileManager.ExtractItems | src/hooks/useFileManager.ts:116-126 | the items array of a JSON object (nothing when it has none), a JSON array whole, nothing for a text reply |
| FileManager.ExtractItemsShapes | src/hooks/useFileManager.ts:116-126 | items come from a JSON array or an object's items field; a text reply or an object without items yields none |
| FileManager.AfterLoad | src/hooks/useFileManager.ts:67-135 | the state after loadFiles from the request outcome; each request's error is skipped (lines 94-105), so when every request throws, or the reply is empty, the `!response` check of lines 107-109 throws and the catch records "All URL formats failed" |
| FileManager.AfterLoadEffect | src/hooks/useFileManager.ts:67-135 | loading ends not loading; the error is cleared exactly when a truthy reply arrives, and then the files are its items; the error afterwards is either none or "All URL formats failed", the latter exactly when every request failed or the reply was empty, and then the files are kept; nothing else changes |
| FileManager.EncodeAll | src/hooks/useFileManager.ts:159 | each name is encoded, in order |
| FileManager.ItemParams | src/hooks/useFileManager.ts:159-160 | one items[] parameter per encoded name |
| FileManager.JoinItems | src/hooks/useFileManager.ts:159-160 | the concatenated item string is the join of the items[] parameters |
| FileManager.JoinSnoc | src/hooks/useFileManager.ts:159-160 | joining with one more element appends the separator and the element |
| FileManager.DeleteQuery | src/hooks/useFileManager.ts:159-160 | the encoded names joined with `&items[]=` after `items[]=`, then `&working_dir=` and the current path |
| FileManager.DeleteQueryParams | src/hooks/useFileManager.ts:159-160 | the query is the items[] parameters and working_dir joined by &; with no names it carries one empty item |
| FileManager.NoFourNo400 | src/hooks/useFileManager.ts:173-188 | a message without the digit 4 never mentions 400 |
| FileManager.AfterDelete | src/hooks/useFileManager.ts:156-189 | the state after deleteFiles from the reply and the reload outcome; both reloads go through AfterLoad, so a reload without a usable reply leaves "All URL formats failed" |
| FileManager.AfterDeleteEffect | src/hooks/useFileManager.ts:156-189 | OK reloads and clears the selection, ending with no error and the reloaded items, or with "All URL formats failed" and the old files when the reload gets no usable reply; a 400 reloads the same way, so its own message is replaced by no error or by "All URL formats failed"; a JSON reply sets "Failed to delete files"; other text becomes the error; the selection is cleared only on OK |
| FileManager.FileManagerHook.constructor | src/hooks/useFileManager.ts:9-16 | the hook starts with the initial state |
| FileManager.FileManagerHook.SetFiles | src/hooks/useFileManager.ts:36-38 | only the files change |
| FileManager.FileManagerHook.SetCurrentPath | src/hooks/useFileManager.ts:40-49 | the path becomes its normalised form and the selection is cleared; nothing else changes |
| FileManager.FileManagerHook.SetSelectedFiles | src/hooks/useFileManager.ts:51-53 | only the selection changes |
| FileManager.FileManagerHook.SetViewMode | src/hooks/useFileManager.ts:55-57 | only the view mode changes |
| FileManager.FileManagerHook.SetLoading | src/hooks/useFileManager.ts:59-61 | only the loading flag changes |
| FileManager.FileManagerHook.SetError | src/hooks/useFileManager.ts:63-65 | only the error changes |
| FileManager.FileManagerHook.LoadFiles | src/hooks/useFileManager.ts:67-135 | the request uses the working directory of the current path, and the new state is AfterLoad of the old one, so a load in which every request failed, or whose reply is empty, is reported as "All URL formats failed" |
| FileManager.FileManagerHook.DeleteFiles | src/hooks/useFileManager.ts:156-189 | the query sent is built from the names and the current path, and the new state is AfterDelete of the old one, whose reload errors are those of AfterLoad |

## Left out

- Network calls, `localStorage`, timers, toasts, modals and all rendering. Replies, times and stored values are parameters of the model.
- The payment QR polling and the other confirmation flows in `AdTables.tsx` are not modelled; they are asynchronous I/O around the arithmetic above.
- The local `data.json` fallback of `AdTables.tsx` (lines 300-327) is not modelled; it only supplies table data.
- The URL fallback loop of `loadFiles` (`useFileManager.ts` lines 85-109) is not modelled. It tries several endpoints in turn; the model sees only the final outcome of the requests: the reply of the first request that did not throw, or `LoadFailed` when every one threw. The requests' own errors are swallowed by the loop, so `LoadFailed` carries no message. A JSON reply of `null`, `false` or `0` is not a `Reply` of the model; the only falsy reply it has is the empty text.
- Upload, create-folder, rename, move, copy and download in `useFileManager.ts` are not modelled; they send requests and reload, as `loadFiles` already shows.
- Floating point is not modelled: amounts are integers, `Number` on a string of the form `digits.digits` drops the fraction, and NaN is an absent number.
- Js.ParseNumber: only `[-]digits[.digits]` is read as a number. A leading `+`, an empty integer part (`.5`), exponents (`1e3`), hexadecimal, binary and octal literals (`0x10`) and `Infinity` read as NaN, where JavaScript gives a number. So do strings padded with U+2028, U+2029 or the Zs spaces that `trim` strips, which `IsSpace` does not list. The amounts, prices and counts the screens read arrive as plain decimals, and every `Number(...)` of the model (`NumberOf`, `NumberOrZero`, the price and status of `Menu.SubmitPayload`, the Menu price sorts) shares this reader.
- `toLocaleString`, `Intl`, `localeCompare`, `toLowerCase`, `encodeURIComponent` and date parsing are parameters (functions passed in), because their behaviour depends on the runtime's locale tables.
- The serialisation of `URLSearchParams` to text is not modelled; the query is its list of name/value pairs.
- `formatDate` of `PostList.tsx` and the rich text editor are not modelled; they are display only.
- The implementation of `orderCalculations` is not part of this model; its functions are modelled from the test file. The tests at `orderCalculations.test.ts` lines 194-215, 218-251 and 254-285 charge a recorded line only for the quantity above what was recorded, and the model follows them.
- OrderCalculations.CalculateOrderTotal: its contract leaves a cart line below its recorded quantity netted by the model's rule. The tests do not cover that case, so no lemma claims anything about it.
- OrderCalculations.ConfirmationExamples: the test at lines 88-89 is not encoded. It expects the status-0, unpaid fixture to count as confirmed, while the test at lines 60-69 expects that same fixture to be treated as a new order. The model follows lines 60-69, which agree with the other cases at lines 84-104.
- TableOrder.SortedOrders: the full order is proved only for comparators the data makes consistent (all orders with readable times, or none with times and numeric ids). Mixed lists, and lists where a creation time cannot be read (a `NaN` difference, a tie by `UnreadableTimeTies`), are sorted by a comparator that is not a total order, and only a permutation and the adjacent order are claimed.
- Menu.SortedProducts: the name sorts use `localeCompare`, a parameter, and are proved only to be permutations.
- Menu.FilteredFromSource: for the search, status and category lists the model trusts that the API already applied that filter, and checks only the remaining ones, as the screen does.
- Notification state in the hook is not modelled; it does not affect the files or the error.
- Menu.Pager: the corrected bar removes only the duplicated page 2. When the current page is two below the last (page 3 of 5, say), the bar as written skips page total−1 without a gap mark, and the corrected bar keeps that behaviour; PagerHiddenPages and PagerSkipsWithoutGap state it.

## Findings

| source | as written | input that shows it | evidently intended | confidence | as-written member | corrected member |
|---|---|---|---|---|---|---|
| src/components/tables/Menu.tsx:1211-1238 | page 2 is drawn once as the second button and again as the last page | totalPages = 2 with the current page 1 or 2 | each page is drawn once | not executed | Menu.PagerDuplicatesPageTwo | Menu.PagerButtonsIncrease |

The corrected pager fixes only the duplicated page 2. The page total−1 that the bar as written leaves out without a gap mark, when the current page is total−2, is kept as written (see `Menu.Pager` under "Left out").
