# Storefront and admin panel: decision and aggregation logic

This project models the logic inside the pages of a small shop: a storefront with a catalog, a product page, a cart and checkout, and an admin panel for products, customers, orders, reports and settings. The pages are React components that talk to a hosted database. What is modelled is the part they decide or compute themselves:

- **Reports** (`Reports`): the sales report built from the rows the database returns:
  - the total revenue and order count;
  - revenue and order counts grouped by month, in two `forEach` loops over a dictionary;
  - revenue and quantity grouped by product name;
  - the ten best sellers by revenue.

  The dictionaries are lists of entries in insertion order. Each loop is a method with its invariant. Each method is proved equal to a fold, and the fold's properties are proved as lemmas.
- **Search filters** (`AdminOrders`, `AdminProducts`, `AdminCustomers`, `Catalog`): order-preserving filters built from case-insensitive substring matching, plus the catalog's de-duplicated category list.
- **Form round trips** (`AdminProducts`, `AdminCustomers`): tags are written as `join(', ')` and read back with `split(',')`, `trim` and dropping empty pieces. Optional barcode and email fields are converted between empty string and null.
- **Checkout** (`Checkout`):
  - the order record and order lines;
  - the stock each product is set to;
  - `handleSubmit` as a class method. It issues the remote writes one at a time, stops at the first rejected write, and clears the cart only after every checked write went through.
- **Quantity guards** (`CartPage`, `ProductDetail`):
  - the cart's rule that a quantity of zero or less removes the line;
  - the product page's quantity selector, a class whose field is changed by a guarded method;
  - the enable rules of the buttons.
- **Access and labels** (`ProtectedRoute`, `Settings`, `AdminOrders`):
  - the admin route guard and the header's Admin link;
  - the label tables with their fallbacks;
  - which activity logs a role may see.

Shared modules:
- `Seqs` holds sequence operations and their lemmas: filter, subsequence, de-duplication in first-occurrence order, and prefix.
- `Text` models the JavaScript string operations the pages use: `toLowerCase`, `includes`, `trim`, `split` and `join`.
- `Entities` holds the database records of `src/lib/supabase.ts` and the commands the pages send to the cart store.

The database, the clock and the locale are not modelled. Query results are inputs. A write's success is given by a function `accepts(k)` over the write's position. The order id the database assigns is a parameter. The month of a date is an uninterpreted function `monthOf`.

## Model

| member | source | states |
|---|---|---|
| Entities.ParseRole | src/lib/supabase.ts:67 | a role string names a role exactly when it is the stored name of that role, and no other string names one |
| Text.LowerChar | src/pages/admin/Orders.tsx:79 | the result is never an upper-case letter; a character changes exactly when it is one of A-Z; letters stay letters, A-Z moving to the same alphabet position in a-z |
| Text.Lower | src/pages/admin/Orders.tsx:79 | lower-casing keeps the length and maps every character on its own |
| Text.LowerIdempotent | src/pages/admin/Orders.tsx:79 | lower-casing twice is lower-casing once |
| Text.ContainsIff | src/pages/admin/Orders.tsx:80 | `includes` holds exactly when the needle occurs at some position of the haystack |
| Text.ContainsEmpty | src/pages/admin/Orders.tsx:80 | every string includes the empty string |
| Text.CaseOfEitherSideIrrelevant | src/pages/admin/Orders.tsx:79 | case-insensitive matching gives the same answer whatever the case of the haystack or of the term |
| Text.TrimStart | src/pages/admin/Products.tsx:113 | the result is a suffix that does not start with whitespace, and everything dropped is whitespace |
| Text.TrimEnd | src/pages/admin/Products.tsx:113 | the result is a prefix that does not end with whitespace, and everything dropped is whitespace |
| Text.TrimOffset | src/pages/admin/Products.tsx:113 | where trim's result starts lies within the input |
| Text.TrimSpec | src/pages/admin/Products.tsx:113 | trim's result starts and ends with no whitespace and is a contiguous slice of its input |
| Text.TrimIsSlice | src/pages/admin/Products.tsx:113 | trim's result is the slice of the input at TrimOffset |
| Text.TrimIsTrimmed | src/pages/admin/Products.tsx:113 | trim's result neither starts nor ends with whitespace |
| Text.TrimKeepsOnlyOwnChars | src/pages/admin/Products.tsx:113 | trimming never introduces a character that was not in the input |
| Text.TrimLeadingSpace | src/pages/admin/Products.tsx:113 | a trimmed string after any run of whitespace trims back to itself |
| Text.Split | src/pages/admin/Products.tsx:113 | `split` on one character gives at least one piece, and no piece contains the separator |
| Text.JoinSplit | src/pages/admin/Products.tsx:113 | joining the pieces of a split with the separator gives back the string |
| Text.SplitJoin | src/pages/admin/Products.tsx:113 | splitting a join of separator-free pieces gives back the pieces |
| Seqs.Filter | src/pages/admin/Orders.tsx:78 | the filtered sequence is no longer than its input, and every element kept satisfies the predicate |
| Seqs.FilterMembers | src/pages/admin/Orders.tsx:78 | an element is kept exactly when it is in the input and satisfies the predicate |
| Seqs.FilterIsSubseq | src/pages/admin/Orders.tsx:78 | a filter keeps the relative order of its input |
| Seqs.FilterFilter | src/pages/admin/Orders.tsx:85-91 | two successive filters equal one filter by the conjunction of their predicates |
| Seqs.Dedup | src/pages/Catalog.tsx:36 | de-duplication never lengthens its input |
| Seqs.DedupMembers | src/pages/Catalog.tsx:36 | de-duplication keeps exactly the elements of its input |
| Seqs.DedupDistinct | src/pages/Catalog.tsx:36 | the de-duplicated sequence has no repeated element |
| Seqs.DedupFirstOccurrenceOrder | src/pages/Catalog.tsx:36 | de-duplicated elements appear in the order of their first occurrence in the input |
| Seqs.Take | src/pages/admin/Reports.tsx:137 | `slice(0, n)` gives the first min(n, length) elements |
| Seqs.TakeIsSubseq | src/pages/admin/Reports.tsx:137 | a prefix is a subsequence of its sequence |
| AdminOrders.FilterOrdersSpec | src/pages/admin/Orders.tsx:74-93 | the three successive filters, each applied only when its criterion is set, equal one filter keeping the orders that meet every active criterion |
| AdminOrders.FilterOrdersMembers | src/pages/admin/Orders.tsx:74-93 | the filtered orders are a subsequence of the orders; an order is shown exactly when it meets the search (name and id ignoring case, phone as typed), the status and the payment criterion that are set; with nothing set every order is shown |
| AdminOrders.StatusBadgeSpec | src/pages/admin/Orders.tsx:172-188 | a status in the table shows its own entry; a status outside it falls back to the `pending` badge; two different statuses in a table never share a label |
| AdminOrders.EveryDeclaredStatusHasBadge | src/pages/admin/Orders.tsx:173-185 | every order status and payment status of the schema has its own badge entry |
| AdminOrders.PaymentMethodTextSpec | src/pages/admin/Orders.tsx:197-205 | a payment method is relabelled exactly when it is dp, cod, cash or transfer; anything else is returned unchanged |
| AdminOrders.EveryPaymentMethodHasLabel | src/pages/admin/Orders.tsx:198-203 | every payment method of the schema has a label different from its stored name |
| AdminProducts.FilterProductsSpec | src/pages/admin/Products.tsx:54-66 | the filtered products are a subsequence; a product is shown exactly when it matches by name, category or barcode ignoring case; an empty term shows all; a product without a barcode matches only by name or category |
| AdminProducts.ParseTagsSpec | src/pages/admin/Products.tsx:113 | every parsed tag is non-empty, trimmed and comma-free, and an empty field gives no tags |
| AdminProducts.TagsRoundTrip | src/pages/admin/Products.tsx:93 | parsing `join(', ')` of clean tags gives the same tags back |
| AdminProducts.TrimPadded | src/pages/admin/Products.tsx:113 | trimming the pieces read back from `join(', ')` removes exactly the spaces the join added |
| AdminProducts.TrimOfTrimmed | src/pages/admin/Products.tsx:113 | a trimmed tag trims to itself, with or without one space before it |
| AdminProducts.Padded | src/pages/admin/Products.tsx:93 | the pieces of `join(', ')` read back by `split(',')`: the first tag as it is, and every later tag with one leading space |
| AdminProducts.JoinWithSpace | src/pages/admin/Products.tsx:93 | joining with ", " equals joining the padded pieces with ","; no padded piece contains a comma |
| AdminProducts.BarcodeRoundTrip | src/pages/admin/Products.tsx:96 | an edited and re-saved barcode is unchanged, except that an empty one becomes null; a saved field shows again as typed; a missing barcode is edited as '' |
| AdminProducts.EditThenSaveUnchanged | src/pages/admin/Products.tsx:84-117 | opening a product with clean tags and a non-empty barcode and saving it unchanged writes back exactly its own fields |
| AdminProducts.EmptyFormSavesNothingOptional | src/pages/admin/Products.tsx:113-116 | the empty form saves no tags and a null barcode |
| AdminProducts.StockLevelSpec | src/pages/admin/Products.tsx:289-291 | the stock colour is green exactly above 10, yellow exactly from 1 to 10 and red exactly at 0 or below |
| AdminCustomers.FilterCustomersSpec | src/pages/admin/Customers.tsx:48-60 | the filtered customers are a subsequence; a customer is shown exactly when they match by name or email ignoring case or by phone as typed; an empty term shows all; a customer without an email matches only by name or phone |
| AdminCustomers.EditThenSaveUnchanged | src/pages/admin/Customers.tsx:72-93 | a missing email is edited as '' and saved as null; a non-empty email passes through unchanged; so saving an unchanged form writes back the customer's fields |
| AdminCustomers.SaveThenEdit | src/pages/admin/Customers.tsx:91 | a saved email field shows again exactly as typed |
| Catalog.UniqueCategoriesSpec | src/pages/Catalog.tsx:36 | the category list has no duplicates, holds exactly the non-empty categories of the products, and lists them in the order they first appear, as a subsequence of the products' categories |
| Catalog.FilterCatalogSpec | src/pages/Catalog.tsx:45-61 | the shown products are exactly, and in order, those matching the search (name, description or a tag, ignoring case) and the selected category; with neither set all are shown; with a category set every product shown has it |
| Catalog.AddToCartSpec | src/pages/Catalog.tsx:71-73 | the buy button adds exactly one unit of the product, which a non-negative stock covers whenever the button is enabled |
| CartPage.QuantityChangeSpec | src/pages/Cart.tsx:17-23 | a quantity of zero or less is always a removal and never an update; a positive one is an update to exactly that quantity |
| CartPage.MinusSpec | src/pages/Cart.tsx:102 | minus removes a line holding one unit or fewer, and lowers a larger line by exactly one |
| CartPage.PlusWithinStock | src/pages/Cart.tsx:109-110 | an enabled plus raises the quantity by one and never asks for more than the stock |
| CartPage.ControlsKeepWithinStock | src/pages/Cart.tsx:102-110 | one press of an enabled plus or of minus on a line within [1, stock] that leads to an update requests a quantity within [1, stock] |
| CartPage.LineTotal | src/pages/Cart.tsx:124 | the line total is 0 for no units, the price for one unit, and never negative for non-negative price and quantity |
| CartPage.LineTotalStep | src/pages/Cart.tsx:158 | one unit more or fewer changes the line total by exactly the unit price |
| ProductDetail.AcceptedQuantity | src/pages/ProductDetail.tsx:66-70 | the quantity after a request is either the requested one, taken only when it lies in [1, stock], or the current one |
| ProductDetail.AcceptedQuantitySpec | src/pages/ProductDetail.tsx:67 | a request is taken exactly when it lies in [1, stock]; the quantity never drops below 1 once it is there and never leaves [1, stock] once inside it; with no stock nothing is taken |
| ProductDetail.ProductDetailPage.constructor | src/pages/ProductDetail.tsx:10-12 | the page starts with no product and a quantity of 1, in a valid state |
| ProductDetail.ProductDetailPage.HandleQuantityChange | src/pages/ProductDetail.tsx:66-70 | the product is unchanged, the new quantity is AcceptedQuantity of the old one, and the page stays valid |
| ProductDetail.ProductDetailPage.HandleAddToCart | src/pages/ProductDetail.tsx:60-64 | nothing is added without a product; otherwise the product at the selected quantity, which lies in [1, stock] on a valid page with the button enabled |
| ProductDetail.ProductDetailPage.LoadProductAsWritten | src/pages/ProductDetail.tsx:16-31 | loading a product replaces it and keeps the selected quantity |
| ProductDetail.ProductDetailPage.LoadProduct | src/pages/ProductDetail.tsx:16-31 | the corrected load replaces the product, starts the quantity at 1 and leaves the page valid |
| ProductDetail.NoProductRefusesEveryChange | src/pages/ProductDetail.tsx:67 | with no product loaded every quantity request is refused |
| ProductDetail.ControlsStepByOne | src/pages/ProductDetail.tsx:179-188 | plus, enabled below the stock, moves the quantity up by one; minus, enabled above 1, moves a quantity up to the stock down by one |
| ProductDetail.StaleQuantityAsWritten | src/pages/ProductDetail.tsx:16-31 | five units selected, then a related product with stock 2 opened: the add button asks for 5 units, and minus cannot bring the quantity back into range |
| ProductDetail.StaleQuantityCorrected | src/pages/ProductDetail.tsx:16-31 | the same steps with the corrected load ask for 1 unit, which the stock covers |
| ProtectedRoute.GuardSpec | src/components/ProtectedRoute.tsx:8-22 | while loading the spinner shows whoever is signed in; with no user the guard redirects to login; a user without a staff role is redirected home |
| ProtectedRoute.OutletIff | src/components/ProtectedRoute.tsx:8-24 | the admin pages render exactly when loading is over, a user is signed in and the role is admin, manager or employee |
| ProtectedRoute.GuardAgreesWithHeader | src/components/Header.tsx:43 | once loading is over, the guard admits exactly the visitors the header shows the Admin link to |
| Settings.ActionTextSpec | src/pages/admin/Settings.tsx:120-134 | a known action shows its label, which differs from the action string; an unknown one is shown unchanged |
| Settings.EveryLoggedActionHasLabel | src/pages/admin/Settings.tsx:121-132 | every action string the pages write to the activity log has a label |
| Settings.RoleLabelsSpec | src/pages/admin/Settings.tsx:136-152 | the three roles have distinct labels and distinct colours; any other string keeps its text and gets the gray colour |
| Settings.VisibleLogsSpec | src/pages/admin/Settings.tsx:61-67 | at most 50 logs are shown, in the database's order; an employee sees only their own logs, min(50, their own count) of them, and all of them when they have 50 or fewer; other roles see the first logs unfiltered |
| Checkout.CreatedBy | src/pages/Checkout.tsx:60 | an empty id is never recorded; what is recorded is the signed-in user's id; nothing is recorded only for a guest or an empty id |
| Checkout.OrderDraftSpec | src/pages/Checkout.tsx:47-61 | subtotal and total are the cart total, with no discount and no shipping; both statuses start pending; the customer fields are taken from the form; the creator is missing exactly for a guest or an empty id |
| Checkout.OrderItemsSpec | src/pages/Checkout.tsx:72-79 | one order line per cart item, in cart order, with the item's product, name, quantity and price and a total equal to the cart's line total; the lines add up to the cart's line totals |
| Checkout.StockUpdateSpec | src/pages/Checkout.tsx:91 | the new stock is the cart's snapshot of the stock less the quantity: it is non-negative exactly when the snapshot covered the quantity |
| Checkout.StockWrites | src/pages/Checkout.tsx:88-95 | one stock write per cart item, in cart order, each setting that item's new stock |
| Checkout.IssuedAfterAcceptedPrefix | src/pages/Checkout.tsx:63-95 | after an accepted prefix of writes, the issued writes are that prefix followed by what is issued from there on |
| Checkout.IssuedIsPrefix | src/pages/Checkout.tsx:63-95 | the writes issued are always a prefix of the planned writes |
| Checkout.IssuedSpec | src/pages/Checkout.tsx:63-95 | with every checked write accepted the whole plan is issued; when write r is the first rejected one, exactly the writes up to and including r are issued |
| Checkout.IssuedTail | src/pages/Checkout.tsx:98-108 | past the checked writes everything planned is issued |
| Checkout.CheckoutPage.constructor | src/pages/Checkout.tsx:36-43 | the page starts idle with no writes, no cart commands, no notices and no navigation |
| Checkout.CheckoutPage.HandleSubmit | src/pages/Checkout.tsx:36-119 | an empty cart only adds the empty-cart error; otherwise the writes issued are exactly SubmitWrites; the cart is cleared, success is shown and the customer sent home exactly when every checked write was accepted; the busy flag is down at the end |
| Checkout.IssueCheckedWrites | src/pages/Checkout.tsx:63-95 | the order, its lines and the stock writes are issued in plan order; either all are accepted and the checked part of the plan was issued, or the first rejected write is the last one issued |
| Checkout.IssueStockWrites | src/pages/Checkout.tsx:88-95 | the stock loop issues one write per item in cart order and stops right after the first rejected one |
| Checkout.PlanHead | src/pages/Checkout.tsx:63-85 | the plan opens with the order insert, then the lines insert |
| Checkout.PlanPrefix | src/pages/Checkout.tsx:88-95 | the first j stock writes follow the order and its lines in the plan |
| Checkout.SubmitSucceeded | src/pages/Checkout.tsx:98-112 | with every checked write accepted the submission succeeds and issues the checked writes then the activity entry |
| Checkout.SubmitFailed | src/pages/Checkout.tsx:113-115 | when write r is the first rejected one the submission fails, having issued exactly the writes up to r |
| Checkout.PlanShape | src/pages/Checkout.tsx:63-108 | the plan is the order, the lines, one stock write per item in order, then the activity entry exactly for a signed-in user |
| Checkout.SubmitOutcome | src/pages/Checkout.tsx:69 | a fully accepted submission issues the whole plan; a failed one issues no more than the checked writes and no activity entry; a refused order issues nothing after it |
| Checkout.FirstRejected | src/pages/Checkout.tsx:69 | when some checked write is rejected, there is a first one, with every earlier write accepted |
| Reports.AddStep | src/pages/admin/Reports.tsx:88-91 | one loop body creates the entry when the key is new and adds the amounts, as AddOne states |
| Reports.AddAll | src/pages/admin/Reports.tsx:83-103 | a `forEach` over the contributions leaves the dictionary Fold describes |
| Reports.TotalsUpdate | src/pages/admin/Reports.tsx:91 | replacing one entry changes the totals by the difference |
| Reports.TotalsAppend | src/pages/admin/Reports.tsx:105-109 | the totals of a concatenation are the sums of the totals |
| Reports.SumsAppend | src/pages/admin/Reports.tsx:83-103 | a key's sums over a concatenation are the sums of its sums over each part |
| Reports.SumsAbsent | src/pages/admin/Reports.tsx:88-90 | a key no contribution names receives nothing |
| Reports.AddOneNew | src/pages/admin/Reports.tsx:88-91 | a new key is appended carrying the contribution's amounts |
| Reports.AddOneExisting | src/pages/admin/Reports.tsx:91 | an existing key's entry grows by the contribution's amounts, and nothing else changes |
| Reports.AddOneTotals | src/pages/admin/Reports.tsx:88-91 | one step grows the totals by exactly the contribution's amounts |
| Reports.AddOneSpec | src/pages/admin/Reports.tsx:88-91 | on distinct keys one step appends a new key with its amounts, or adds the amounts to the existing key's entry, and leaves every other entry unchanged |
| Reports.AddOneKeys | src/pages/admin/Reports.tsx:88-91 | one step keeps the keys, appending the contribution's key when it is not there yet |
| Reports.AddOneEntries | src/pages/admin/Reports.tsx:91 | on distinct keys one step adds the contribution's amounts to the entry of its key and to no other |
| Reports.FoldKeys | src/pages/admin/Reports.tsx:125-132 | the dictionary has one entry per distinct key, in the order the keys first appear |
| Reports.StepKeepsSums | src/pages/admin/Reports.tsx:126-132 | entries holding their key's sums so far still do after one step |
| Reports.SumsSnoc | src/pages/admin/Reports.tsx:88-91 | one more contribution adds its amounts to its own key's sums only |
| Reports.FoldSums | src/pages/admin/Reports.tsx:126-132 | every entry holds the sums of the amounts given to its key |
| Reports.FoldTotals | src/pages/admin/Reports.tsx:83-103 | the entries' totals are the totals of all contributions |
| Reports.FoldAppend | src/pages/admin/Reports.tsx:83-103 | two loops over one dictionary add the concatenation of their contributions |
| Reports.RevenueContributionsKeys | src/pages/admin/Reports.tsx:83-92 | the revenue loop visits the months of the revenue rows in order |
| Reports.OrderContributionsKeys | src/pages/admin/Reports.tsx:94-103 | the orders loop visits the months of the order rows in order |
| Reports.RevenueContributionsSums | src/pages/admin/Reports.tsx:83-92 | the revenue loop adds to a month exactly that month's paid revenue, and no orders |
| Reports.RevenueContributionsTotals | src/pages/admin/Reports.tsx:83-92 | the revenue loop adds the whole revenue and no orders |
| Reports.OrderContributionsSums | src/pages/admin/Reports.tsx:94-103 | the orders loop adds to a month exactly that month's order count, and no revenue |
| Reports.OrderContributionsTotals | src/pages/admin/Reports.tsx:94-103 | the orders loop adds one per order and no revenue |
| Reports.GroupByMonth | src/pages/admin/Reports.tsx:81-109 | the two loops and `Object.entries` give the monthly list MonthlyRevenue describes |
| Reports.MonthEntriesTotals | src/pages/admin/Reports.tsx:105-109 | the monthly list carries the dictionary's totals |
| Reports.MonthlyRevenueMonths | src/pages/admin/Reports.tsx:81-109 | each month appears once, in the order the loops first meet it, and every month of a row appears |
| Reports.MonthFigures | src/pages/admin/Reports.tsx:91-102 | an entry holding both loops' sums for its key holds that month's revenue and order count |
| Reports.MonthlyRevenueFigures | src/pages/admin/Reports.tsx:83-109 | each month's revenue is the total of its paid orders, and its count is its number of orders |
| Reports.MonthlyRevenueTotals | src/pages/admin/Reports.tsx:77-103 | the monthly revenues add up to the total revenue, and the monthly counts to the order count |
| Reports.ItemContributionsKeys | src/pages/admin/Reports.tsx:126-132 | the product loop visits the product names of the lines in order |
| Reports.GroupByProduct | src/pages/admin/Reports.tsx:125-135 | the product loop and `Object.entries` give the list ProductStats describes |
| Reports.ItemContributionsSums | src/pages/admin/Reports.tsx:130-131 | the loop adds to a product exactly its lines' quantities and totals |
| Reports.ProductStatsNames | src/pages/admin/Reports.tsx:125-135 | each product name appears once, in the order the loop first meets it, and every sold product appears |
| Reports.ProductStatsFigures | src/pages/admin/Reports.tsx:125-132 | a product's quantity and revenue are the sums of quantity and total over its order lines |
| Reports.InsertMembers | src/pages/admin/Reports.tsx:136 | inserting into the ranking adds the entry and nothing else |
| Reports.InsertPermutes | src/pages/admin/Reports.tsx:136 | inserting adds exactly one occurrence of the entry |
| Reports.HeadEarnsMost | src/pages/admin/Reports.tsx:136 | the head of a ranking earns at least as much as any other entry |
| Reports.InsertSorted | src/pages/admin/Reports.tsx:136 | inserting into a ranking keeps it ordered by non-increasing revenue |
| Reports.InsertKeepsNamesDistinct | src/pages/admin/Reports.tsx:136 | inserting an entry with a new name keeps the names distinct |
| Reports.SortPermutes | src/pages/admin/Reports.tsx:136 | the sorted entries are a permutation of the entries |
| Reports.SortSorted | src/pages/admin/Reports.tsx:136 | the sorted entries are ordered by non-increasing revenue |
| Reports.SortKeepsNamesDistinct | src/pages/admin/Reports.tsx:136 | sorting keeps distinct names distinct |
| Reports.TopProductsSorted | src/pages/admin/Reports.tsx:134-137 | there are at most ten best sellers, highest revenue first |
| Reports.TopProductsCutoff | src/pages/admin/Reports.tsx:136-137 | every best seller is one of the entries, and an entry left out earned no more than any entry kept |
| Reports.TopProductsNamesDistinct | src/pages/admin/Reports.tsx:125-137 | no product name appears twice among the best sellers |
| Reports.FetchReportData | src/pages/admin/Reports.tsx:76-147 | the report set once the queries have answered is ReportOf of their results |
| Reports.SumRevenueRows | src/pages/admin/Reports.tsx:77 | the `reduce` over the revenue rows is the sum of their totals |
| Reports.ReportSpec | src/pages/admin/Reports.tsx:139-147 | the monthly revenues add up to the total revenue and the monthly counts to the order count; there are at most ten best sellers; with no data every figure is 0 and every list empty |

## Left out

- Database access: every select, insert, update and delete, the counts, and the server-side date range, ordering and limits. Query results are inputs, and a write's success is the `accepts` parameter. The recent-orders query's own order and limit of 10 are not modelled; its rows are passed through.
- The cart store and the authentication store are not part of this model:
  - cart operations are recorded as commands and never applied;
  - the cart total, the signed-in user and the role are parameters.
- Month keys come from `toLocaleDateString`. They are the parameter `monthOf`, so the model does not say which dates share a month.
- Price and date formatting, the spreadsheet export, `Promise.all`, loading spinners, modals, toasts and rendering are left out.
- The dashboard, home, login and footer pages, and the rest of the header, hold no logic of their own to model.
- Amounts are whole numbers, where the source uses floating-point numbers. The `parseFloat`/`parseInt` of form fields is left out, and the forms hold numbers.
- Text.LowerChar: `toLowerCase` is modelled for ASCII letters only; other letters keep their case.
- Dictionary keys and lookup tables are modelled as plain maps:
  - JavaScript objects also answer to inherited keys such as `constructor` or `toString`, which the model does not;
  - `Object.entries` lists integer-like keys first, which the model does not (month keys and product names are not integer-like in practice).
- Error paths that only log: the report's `catch`, and the product page's failed fetch and its toast. The report keeps its previous value there.
- The product page's related-products query and list.
- The activity-log inserts of the admin pages; only their action strings are modelled. Their results are never checked by the pages.
- Reports.SortByRevenue: the ranking is a stable insertion sort by descending revenue, like the engine's `sort` with that comparator. Stability itself is not stated as a lemma; permutation and ordering are proved.
- Checkout.CheckoutPage.HandleSubmit: a thrown exception from the activity insert itself (a network failure rather than an error result) is not modelled; the source does not check that write's result.

## Findings

| source | as written | input that shows it | evidently intended | confidence | as-written member | corrected member |
|---|---|---|---|---|---|---|
| src/pages/ProductDetail.tsx:16-31 | loading another product on the same page (a related-product link changes only the route id) replaces the product but keeps the selected quantity | select 5 units of a product with stock 10, then open a related product with stock 2: add-to-cart asks for 5 units, and minus to 4 is refused because 4 > 2 | the selector starts at 1 for each product, so the quantity stays within [1, stock] | not executed | ProductDetail.StaleQuantityAsWritten | ProductDetail.StaleQuantityCorrected |
