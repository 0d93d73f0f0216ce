# Retail billing core, modelled in Dafny

This project models the core of a desktop retail billing application. A shop assistant
fills in a bill of sale: product rows with quantity and unit price, an optional buyer,
and a discount percent. The form keeps a subtotal, the discount amount and a grand total
up to date. Saving writes the bill to an SQLite database in one transaction, as a Buyers
row, a Bills row and one BillItems row per item. Stored bills can be listed with optional
filters or loaded back by id. A bill can be printed on A4 or rendered as a PDF.

The modules follow the program's structure:

- `Model` (model.dfy): the mutable `Buyer`, `BillItem` and `Bill` objects. A `BillItem`'s
  total is bound to quantity × unit price, and every setter keeps that binding.
- `Store` (store.dfy): the three tables and their AUTOINCREMENT counters. A `Database`
  holds what is committed. A `Connection` holds its own view, the uncommitted writes, and
  its auto-commit flag.
- `Sql` (sql.dfy): the engine behaviour the queries rely on. That is SQL `LIKE` with `%`
  and `_` under ASCII case folding, and `ORDER BY … DESC`.
- `BuyerDAO` and `BillDAO` (buyer_dao.dfy, bill_dao.dfy): the data access layer.
  - Each statement is a function from tables to tables and a result. The methods run
    those statements on a connection.
  - Failures the engine or the driver can raise are inputs (`InsertFault`, `BatchFault`,
    `CommitFault`, and `SwitchFault` for setAutoCommit(false)).
- `CreateBillController` (create_bill_controller.dfy): the bill form.
  - Its state is a `Form` class: the rows, the text fields, the computed labels and the
    selection.
  - `Double.parseDouble` and the two-decimal label formatting are function-valued
    parameters.
- `NativePrinter` and `PdfGenerator` (native_printer.dfy, pdf_generator.dfy): the layout
  arithmetic of the two printouts. This covers columns, pagination, page breaks and
  shortened names. Drawing is not modelled.
- `Strings` and `Wrappers`: blank and trim tests, ASCII lower-casing, lexicographic order,
  name shortening, and `Option`/`Result`.

Java `null` is `None` or a `null` reference. Java `double` is `real`. Java's `int` cast and
`int` division truncate toward zero, and the model writes them out (`JavaIntCast`,
`JavaDiv`). The save time stamp is an input string, and dates compare as strings.

## Model

| member | source | states |
|---|---|---|
| Model.Buyer.constructor | src/model/Buyer.java:8 | a new buyer has id 0, no name and no phone |
| Model.Buyer.WithContact | src/model/Buyer.java:10-13 | the buyer holds the given name and phone; id 0 |
| Model.Buyer.WithId | src/model/Buyer.java:15-19 | the buyer holds the given id, name and phone |
| Model.Buyer.SetId | src/model/Buyer.java:22 | only the id changes, to the given value |
| Model.Buyer.SetName | src/model/Buyer.java:25 | only the name changes, to the given value |
| Model.Buyer.SetPhone | src/model/Buyer.java:28 | only the phone changes, to the given value |
| Model.BillItem.constructor | src/model/BillItem.java:13-22 | a new row is ("", 1.0, 0.0), its total is 0, and the binding total = quantity × price holds |
| Model.BillItem.Of | src/model/BillItem.java:25-30 | the row holds the given name, quantity and price, and its total is their product |
| Model.BillItem.SetProductName | src/model/BillItem.java:38-40 | only the name changes |
| Model.BillItem.SetQuantity | src/model/BillItem.java:50-52 | the quantity changes and the bound total follows it; the name and price are unchanged |
| Model.BillItem.SetUnitPrice | src/model/BillItem.java:62-64 | the price changes and the bound total follows it; the name and quantity are unchanged |
| Model.SumOfBoundTotals | src/model/BillItem.java:19-22 | while every binding holds, Σ itemTotal over a list equals Σ quantity × price |
| Model.Bill.constructor | src/model/Bill.java:7-16 | a new bill has no items, no buyer, no date, and zero id and amounts |
| Model.Bill.SetId | src/model/Bill.java:20 | only the id changes |
| Model.Bill.SetBillDate | src/model/Bill.java:23 | only the date changes |
| Model.Bill.SetSubtotal | src/model/Bill.java:26 | only the subtotal changes |
| Model.Bill.SetDiscountPercent | src/model/Bill.java:29 | only the discount percent changes |
| Model.Bill.SetDiscountAmount | src/model/Bill.java:32 | only the discount amount changes |
| Model.Bill.SetGrandTotal | src/model/Bill.java:35 | only the grand total changes |
| Model.Bill.SetBuyer | src/model/Bill.java:38 | only the buyer reference changes |
| Model.Bill.SetItems | src/model/Bill.java:41 | the item list becomes exactly the given list; nothing else changes |
| Model.Bill.AddItem | src/model/Bill.java:43 | the item is appended at the end and earlier items keep their places |
| Store.InsertBuyerKeepsWellFormed | src/application/DBConnection.java:59-64 | a buyer insert takes the key above every existing key, and the store stays well formed |
| Store.InsertBillKeepsWellFormed | src/application/DBConnection.java:66-73 | a bill insert that refers to an existing buyer, or to none, keeps the store well formed under a fresh, larger key |
| Store.InsertItemKeepsWellFormed | src/application/DBConnection.java:75-83 | an item insert keyed to an existing bill keeps the store well formed |
| Store.Connection.Open | src/dao/BillDAO.java:27 | a new connection is in auto-commit mode and sees the committed tables |
| Store.Connection.SetAutoCommit | src/dao/BillDAO.java:87-93 | sets the flag; switching it on inside a transaction commits the pending writes, otherwise the committed tables are unchanged |
| Store.Connection.Commit | src/dao/BillDAO.java:78 | the connection's writes become the committed tables |
| Store.Connection.Rollback | src/dao/BillDAO.java:80-86 | the connection's writes are discarded and it sees the committed tables again |
| Store.Connection.Apply | src/dao/BillDAO.java:54 | a statement changes the connection's view; the change is committed at once only in auto-commit mode |
| BuyerDAO.InsertBuyerStep | src/dao/BuyerDAO.java:17-34 | success exactly when the insert yields a key, which is the next counter value; each error case has its own message; a missing key still leaves the row inserted |
| BuyerDAO.InsertBuyerAddsOneRow | src/dao/BuyerDAO.java:18-28 | a successful insert adds exactly one Buyers row with the buyer's name and phone under the returned key |
| BuyerDAO.InsertBuyerKeepsStore | src/dao/BuyerDAO.java:17-34 | whatever the outcome, the tables stay well formed |
| BuyerDAO.InsertBuyer | src/dao/BuyerDAO.java:17-34 | runs the insert on the caller's connection; the result and the new view are those of InsertBuyerStep; it never commits or changes auto-commit itself |
| BuyerDAO.InsertBuyerOwnConnection | src/dao/BuyerDAO.java:39-43 | on a fresh auto-commit connection the insert's effect is committed at once |
| BuyerDAO.FindBuyer | src/dao/BuyerDAO.java:49-55 | yields a row with the id exactly when one exists |
| BuyerDAO.GetBuyerById | src/dao/BuyerDAO.java:48-66 | null when no buyer has the id; otherwise a new Buyer holding that row's id, name and phone |
| BillDAO.ItemSnapshotsAt | src/dao/BillDAO.java:68-72 | element i of what saveBill reads is item i's name, quantity and price |
| BillDAO.BuyerStep | src/dao/BillDAO.java:31-38 | inserts a buyer exactly when the buyer is non-null with a non-blank name or phone; otherwise the buyer id is NULL and the tables are unchanged |
| BillDAO.HeaderStep | src/dao/BillDAO.java:44-64 | the bill row holds the stamp, the grand total and the buyer id, under the next key; the no-rows and no-key cases fail with their messages |
| BillDAO.ItemRowsAt | src/dao/BillDAO.java:66-76 | batch row i is item i, keyed firstId + i and tied to the bill |
| BillDAO.ItemsStep | src/dao/BillDAO.java:66-76 | the batch succeeds exactly when every row is insertable; it then appends one row per item in order; on failure the error is the NOT NULL error or the engine's error |
| BillDAO.ItemsStepKeepsWellFormed | src/dao/BillDAO.java:66-76 | item rows keyed to the new bill keep the store well formed |
| BillDAO.ItemsStepPrefixFailure | src/dao/BillDAO.java:73-75 | once a prefix of the batch fails, the whole batch fails with the same error |
| BillDAO.AttemptSave | src/dao/BillDAO.java:29-79 | the save succeeds exactly when switching auto-commit off and every statement go through; a failing switch is the error, before any statement runs |
| BillDAO.AttemptTransaction | src/dao/BillDAO.java:31-79 | once auto-commit is off, the transaction succeeds exactly when no statement fails |
| BillDAO.AfterBuyer | src/dao/BillDAO.java:44-79 | past the buyer step, the save succeeds exactly when the bill insert returns a key, every batch row is insertable and the commit goes through |
| BillDAO.SaveKeepsWellFormed | src/dao/BillDAO.java:32-79 | a successful save leaves the store well formed |
| BillDAO.SaveAddsBill | src/dao/BillDAO.java:42-65 | a successful save appends exactly one Bills row; its fresh key is returned and it holds the stamp, the grand total and the buyer id |
| BillDAO.SaveAddsBuyer | src/dao/BillDAO.java:32-53 | a Buyers row is written exactly when the buyer is stored, and the bill row points at it; otherwise buyer_id is NULL |
| BillDAO.SaveAddsItems | src/dao/BillDAO.java:66-76 | one BillItems row per item, in list order, keyed to the new bill |
| BillDAO.SaveFailureIsFirstFault | src/dao/BillDAO.java:30-86 | the exception rethrown is the one of the first failing call: setAutoCommit(false), then the buyer insert, the bill insert, the item batch (the NOT NULL error or the engine's) and the commit, each with its message |
| BillDAO.SaveBuyer | src/dao/BillDAO.java:31-38 | runs BuyerStep inside the transaction; nothing is committed |
| BillDAO.InsertHeader | src/dao/BillDAO.java:44-64 | runs HeaderStep inside the transaction; nothing is committed |
| BillDAO.AddBatch | src/dao/BillDAO.java:68-74 | the batch holds each item's name, quantity and price, in list order |
| BillDAO.ExecuteBatch | src/dao/BillDAO.java:75 | inserts the batch rows in turn; the result and the new view are those of ItemsStep, stopping at the first failing row; nothing is committed |
| BillDAO.ExecuteItemBatch | src/dao/BillDAO.java:66-76 | the batch of the items as they were on entry, run as ItemsStep; the count of rows on success; nothing is committed |
| BillDAO.SaveTransaction | src/dao/BillDAO.java:31-79 | commits AttemptTransaction's tables on success; on failure leaves the committed tables as before; stamps the bill date exactly when the buyer step passes, and changes nothing else in the bill |
| BillDAO.SaveAfterBuyer | src/dao/BillDAO.java:44-79 | runs AfterBuyer on the connection: on success the view and the committed tables are its tables and the bill id is returned; on failure nothing is committed |
| BillDAO.SaveOn | src/dao/BillDAO.java:28-93 | AttemptSave's outcome: on failure, also when setAutoCommit(false) throws, nothing is committed and the view is reset; the auto-commit flag is restored afterwards on both paths; the bill is stamped exactly when the switch and the buyer step pass |
| BillDAO.SaveBill | src/dao/BillDAO.java:22-95 | on any store, the committed tables become AttemptSave's tables on success and stay unchanged on failure; a well-formed store stays well formed; the bill's date is stamped exactly when the switch and the buyer step pass |
| BillDAO.FindBill | src/dao/BillDAO.java:170-176 | yields a row with the id exactly when one exists |
| BillDAO.ItemsOfSelects | src/dao/BillDAO.java:209 | the item query returns exactly the rows of the bill |
| BillDAO.ItemsOfAscending | src/dao/BillDAO.java:209 | rows stored in ascending item_id order come back in ascending item_id order |
| BillDAO.InsertByIdPermutes | src/dao/BillDAO.java:209 | inserting a row into the ordered list adds exactly that row |
| BillDAO.InsertByIdSorted | src/dao/BillDAO.java:209 | inserting a row keeps the list in item_id order |
| BillDAO.SortByIdCorrect | src/dao/BillDAO.java:209 | `ORDER BY item_id ASC` gives a list in item_id order that is a permutation of the selected rows |
| BillDAO.SortByIdOfAscending | src/dao/BillDAO.java:209 | rows already strictly ascending in item_id are returned unchanged |
| BillDAO.ItemQueryOnWellFormed | src/dao/BillDAO.java:209 | on a well-formed store the ordered query is the bill's rows in storage order, strictly ascending in item_id |
| BillDAO.RowsTotalOfItemRows | src/dao/BillDAO.java:192 | Σ quantity × price over the saved rows equals that sum over the bill's items |
| BillDAO.SaveThenFindBill | src/dao/BillDAO.java:169-180 | after a successful save, looking up the returned id finds a row with the save stamp and the bill's grand total |
| BillDAO.SaveStoresItemRows | src/dao/BillDAO.java:66-76 | after a successful save, the Bills-items selection for the new bill, in storage order, is one row per saved item in list order |
| BillDAO.SaveThenLoadItems | src/dao/BillDAO.java:208-223 | after a successful save, the item query for the new bill returns the saved items in list order |
| BillDAO.DeriveDiscount | src/dao/BillDAO.java:192-198 | the amount is max(0, subtotal − grand total); percent × subtotal = amount × 100 for a positive subtotal, else percent 0 |
| BillDAO.DerivedPercentInRange | src/dao/BillDAO.java:194-198 | a non-negative grand total gives a percent in [0, 100] |
| BillDAO.LoadItems | src/dao/BillDAO.java:216-223 | one new BillItem per result row, in result order, holding the row's name, quantity and price with a bound total |
| BillDAO.GetBillItems | src/dao/BillDAO.java:208-226 | one new BillItem per row of the ordered item query, in its (item_id) order, with the row's values and a bound total |
| BillDAO.ItemTotalsMatchRows | src/dao/BillDAO.java:192 | the loaded items' totals sum to the rows' Σ quantity × price |
| BillDAO.AttachItems | src/dao/BillDAO.java:188-198 | attaches the loaded items and sets the subtotal to their sum and the discount to DeriveDiscount of it |
| BillDAO.GetBillById | src/dao/BillDAO.java:169-203 | null when no bill has the id; otherwise the row's id, date and total, its buyer read by id, its items in item_id order and derived amounts |
| BillDAO.ConditionsPresent | src/dao/BillDAO.java:107-128 | each condition is present exactly when its filter is (a null or blank name adds none), in the source's order |
| BillDAO.ParamsAlign | src/dao/BillDAO.java:107-128 | parameter i is the value of condition i |
| BillDAO.ClausePlaceholders | src/dao/BillDAO.java:107-128 | the appended conditions hold exactly one `?` each |
| BillDAO.AppendIfPresent | src/dao/BillDAO.java:107-110 | one optional append keeps the text and the parameter list in step |
| BillDAO.BuildBillsQuery | src/dao/BillDAO.java:101-130 | the built text and parameters are the query and the parameters of the filter's conditions |
| BillDAO.BindingsAt | src/dao/BillDAO.java:135-142 | placeholder k (1-based) is bound exactly for k in 1..n, to parameter k − 1 |
| BillDAO.BindParameters | src/dao/BillDAO.java:135-142 | the binding loop binds placeholder i + 1 to parameter i and nothing else |
| BillDAO.Joined | src/dao/BillDAO.java:102-103 | the LEFT JOIN gives one row per bill, carrying its buyer's name or NULL |
| BillDAO.SelectMembers | src/dao/BillDAO.java:103-128 | the WHERE clause keeps exactly the rows it holds for |
| BillDAO.HoldsMeansFilter | src/dao/BillDAO.java:112-127 | each condition with its bound value tests what its filter means: id equality, case-insensitive substring, date ≥ from + "T00:00:00", date ≤ to + "T23:59:59.999999999" |
| BillDAO.WhereTestsEachCondition | src/dao/BillDAO.java:135-142 | the WHERE clause holds exactly when each condition holds with its own parameter |
| BillDAO.WhereIsFilter | src/dao/BillDAO.java:107-128 | the built WHERE clause holds for a row exactly when the row matches every present filter |
| BillDAO.FilterMatchesEach | src/dao/BillDAO.java:107-128 | a row matching the filter matches each present condition |
| BillDAO.AllConditionsMatch | src/dao/BillDAO.java:107-128 | a row matching each present condition matches the filter |
| BillDAO.ListingIsFilter | src/dao/BillDAO.java:100-130 | the listing is newest first, loses no selected row and adds none, and holds exactly the joined rows that match the filter |
| BillDAO.BillFromRow | src/dao/BillDAO.java:146-159 | a new Bill with the row's id, date and total and no items; it has a buyer (id and name) exactly when buyer_id is not NULL |
| BillDAO.GetBills | src/dao/BillDAO.java:100-164 | one new Bill per listed row, in listing order |
| Sql.LikeContains | src/dao/BillDAO.java:112-115 | `s LIKE '%' ‖ lit ‖ '%'` is a case-insensitive substring test when lit has no wildcard |
| Sql.LoweredLikeIsSubstring | src/dao/BillDAO.java:113-114 | `LOWER(name) LIKE '%' ‖ lower(needle) ‖ '%'` holds exactly when needle occurs in name, ignoring case |
| Sql.SortDescCorrect | src/dao/BillDAO.java:130 | the ORDER BY … DESC result is non-increasing in the key and a permutation of its input |
| Strings.TrimIdempotent | src/controller/CreateBillController.java:143 | trimming twice is trimming once |
| Strings.TrimEmptyIff | src/controller/CreateBillController.java:143-144 | `trim()` gives "" exactly when every character is at or below U+0020 |
| Strings.AsciiLower | src/dao/BillDAO.java:114 | same length, each character lower-cased |
| Strings.LexLeTotal | src/dao/BillDAO.java:130 | any two dates are ordered one way or the other |
| Strings.LexLeTransitive | src/dao/BillDAO.java:130 | the date order is transitive |
| Strings.LexLeAntisymmetric | src/dao/BillDAO.java:130 | dates ordered both ways are equal |
| Strings.Abbreviate | src/util/NativePrinter.java:229-232 | null gives ""; a name of at most n characters is unchanged; a longer one becomes its first n − 3 characters and "...", exactly n long (the same rule as PDFGenerator.truncate) |
| Strings.AbbreviateIdempotent | src/util/PDFGenerator.java:236-240 | shortening an already shortened name changes nothing |
| CreateBillController.ParseDoubleSafe | src/controller/CreateBillController.java:137-149 | null gives the fallback; a Number gives its value; text trimming to "" or failing to parse gives the fallback; other text gives its parsed value |
| CreateBillController.ParseIgnoresSurroundingBlanks | src/controller/CreateBillController.java:143 | surrounding blanks never change the parsed value |
| CreateBillController.ClampPercent | src/controller/CreateBillController.java:121-123 | result in [0, 100]; an in-range value is kept; NaN and negatives give 0; values above 100 give 100 |
| CreateBillController.ClampEdit | src/controller/CreateBillController.java:63 | negatives become 0; non-negatives and NaN are kept |
| CreateBillController.EditValue | src/controller/CreateBillController.java:62-63 | the stored quantity or price is never negative: the value if non-negative, 0 if negative, the fallback for an empty cell |
| CreateBillController.TotalsInRange | src/controller/CreateBillController.java:125-126 | discount + grand total = subtotal, and both lie in [0, subtotal] |
| CreateBillController.SaveReloadDiscount | src/controller/CreateBillController.java:125-126 | for a positive subtotal and a percent in [0, 100], the reload derived from the saved subtotal and grand total gives the form's discount amount and percent (float rounding aside); a zero subtotal reloads amount 0 and percent 0, whatever the form's percent |
| CreateBillController.SubtotalNonNegative | src/controller/CreateBillController.java:120 | with non-negative rows the subtotal is non-negative |
| CreateBillController.RemoveFirst | src/controller/CreateBillController.java:165 | removing an absent row changes nothing |
| CreateBillController.RemoveFirstAt | src/controller/CreateBillController.java:165 | only the first occurrence goes; the rows before and after it keep their order |
| CreateBillController.RemoveFirstMultiset | src/controller/CreateBillController.java:165 | the list loses exactly one copy of the row |
| CreateBillController.AppendKeepsNonNegative | src/controller/CreateBillController.java:155 | appending a non-negative bound row keeps all rows so |
| CreateBillController.RemoveKeepsNonNegative | src/controller/CreateBillController.java:165 | removing a row keeps all rows non-negative and bound |
| CreateBillController.Form.Initialize | src/controller/CreateBillController.java:44-110 | empty fields, one fresh row ("", 1.0, 0.0), nothing selected, and the labels show its totals |
| CreateBillController.Form.RecalcTotals | src/controller/CreateBillController.java:119-131 | only the three labels change; they show the totals of the current rows and discount field, and a valid form stays valid |
| CreateBillController.Form.DisplayedTotalsInRange | src/controller/CreateBillController.java:119-126 | for a valid form the percent lies in [0, 100], the subtotal is non-negative, and both the discount and the grand total lie in [0, subtotal] |
| CreateBillController.Form.EditDiscount | src/controller/CreateBillController.java:106 | only the discount text changes, and the labels follow |
| CreateBillController.Form.CommitProductName | src/controller/CreateBillController.java:52-55 | a null name is stored as ""; the rest of the row is unchanged |
| CreateBillController.Form.CommitQuantity | src/controller/CreateBillController.java:60-67 | the quantity becomes EditValue with fallback 1.0, the row stays bound, nothing else changes, the form stays valid and the labels follow |
| CreateBillController.Form.CommitUnitPrice | src/controller/CreateBillController.java:72-79 | the price becomes EditValue with fallback 0.0, the row stays bound, nothing else changes, the form stays valid and the labels follow |
| CreateBillController.Form.HandleAddRow | src/controller/CreateBillController.java:154-159 | a fresh row ("", 1.0, 0.0) is appended and selected; earlier rows and the fields are unchanged; the labels follow |
| CreateBillController.Form.HandleRemoveSelected | src/controller/CreateBillController.java:162-171 | alerts exactly when nothing is selected; otherwise the first occurrence of the selected row is removed; the form stays valid; the labels show the new totals when a row was removed and are unchanged otherwise |
| CreateBillController.Form.NewBillFromForm | src/controller/CreateBillController.java:192-204 | a new bill with no rows, the parsed label values and discount percent, and a new buyer with the form's name and phone exactly when one of them is non-blank |
| CreateBillController.AddRows | src/controller/CreateBillController.java:206-209 | the rows are appended to the bill's list in order; nothing else in the bill changes |
| CreateBillController.Form.BuildBill | src/controller/CreateBillController.java:192-209 | a new bill with the parsed labels and the rows in table order; what saveBill reads from it is the form's snapshot (buyer exactly when the name or phone is non-blank) |
| CreateBillController.Form.HandleSave | src/controller/CreateBillController.java:183-226 | with no rows nothing is saved and the store is unchanged; otherwise the outcome and the committed tables are those of saving the form's bill, and a well-formed store stays well formed |
| CreateBillController.ItemEditKeepsValid | src/controller/CreateBillController.java:60-79 | editing one row to non-negative bound values keeps every row so |
| CreateBillController.BuyerAttachedIffNonBlank | src/controller/CreateBillController.java:199-204 | the buyer handleSave attaches is stored by saveBill exactly when the name or phone is non-blank |
| NativePrinter.JavaIntCast | src/util/NativePrinter.java:104-107 | `(int)` truncates toward zero: within one unit of the value, on the zero side |
| NativePrinter.JavaDiv | src/util/NativePrinter.java:154 | int division truncates toward zero: for a ≥ 0 the quotient r satisfies 0 ≤ r and r·b ≤ a < r·b + b; for a < 0, r ≤ 0 and r·b − b < a ≤ r·b |
| NativePrinter.ColumnWidths | src/util/NativePrinter.java:137-143 | the five column widths sum to the table width |
| NativePrinter.ColumnsFit | src/util/NativePrinter.java:139-143 | on a non-negative table width no column is negative, and the total column gets at least its 19 % |
| NativePrinter.ColumnPositions | src/util/NativePrinter.java:145-150 | each column starts where the previous one ends |
| NativePrinter.TableSpansWidth | src/util/NativePrinter.java:145-150 | xEnd = xSno + tableW |
| NativePrinter.Pagination | src/util/NativePrinter.java:156-159 | no page exactly when pageIndex × rowsPerPage ≥ size |
| NativePrinter.BuyerLineCostsOneRow | src/util/NativePrinter.java:125-154 | a shown buyer line takes exactly one row from page 0 |
| NativePrinter.UniformPagesCoverEachRowOnce | src/util/NativePrinter.java:153-159 | with equal page sizes every row is on exactly one page, page i / rowsPerPage |
| NativePrinter.AsWrittenSkipsRow | src/util/NativePrinter.java:125-159 | with a buyer line, row rowsPerPage(page 0) + 1 is on no page |
| NativePrinter.AsWrittenDropsTotal | src/util/NativePrinter.java:156-208 | with one item more than page 0 holds and a buyer line, no page reaches the last item, so the grand total is never drawn |
| NativePrinter.A4SkipsItem29 | src/util/NativePrinter.java:45-48 | on the forced A4 format page 0 holds 28 rows with a buyer line and 29 without; item 29 of 30 is never printed, and a 29-item bill never shows its grand total |
| NativePrinter.CorrectedCoversEachRowOnce | src/util/NativePrinter.java:153-159 | with page 1 starting where page 0 ends, every row is on exactly one page, and the last row's page reaches the end of the list |
| NativePrinter.PageRows | src/util/NativePrinter.java:179-197 | one printed row per item of the slot |
| NativePrinter.PageRowsAt | src/util/NativePrinter.java:179-197 | row j of a page is item start + j, numbered start + j + 1, with its name shortened to 32 characters, one row height below the previous one |
| NativePrinter.RowsStayOnPage | src/util/NativePrinter.java:153-196 | a drawn row's bottom is at most one row height into the footer band |
| NativePrinter.BillPrintable.constructor | src/util/NativePrinter.java:90-94 | takes the bill's item list; a null shop name becomes "Light House" |
| NativePrinter.BillPrintable.DrawRows | src/util/NativePrinter.java:174-197 | the drawn rows are PageRows of the slot: item i numbered i + 1, one row height apart below the table header |
| NativePrinter.BillPrintable.Print | src/util/NativePrinter.java:98-217 | NO_SUCH_PAGE exactly when the page's first row is past the list; otherwise the slot's rows in order, the buyer line only on page 0 for a non-blank name, and the grand total exactly when the slot ends at the list's end |
| NativePrinter.PrintJob.constructor | src/util/NativePrinter.java:35-53 | the job holds the service, the page format and the printable |
| NativePrinter.PrintBillToService | src/util/NativePrinter.java:24-58 | a null bill is rejected with "Bill or items cannot be null" before any job exists; otherwise an A4 job for the bill; it prints unless a requested dialog is cancelled |
| NativePrinter.PrintBillToServiceWithDialog | src/util/NativePrinter.java:61-64 | a null bill is rejected; otherwise an A4 job for the given service and bill, with "Light World" and the dialog always shown |
| PdfGenerator.PdfRows | src/util/PDFGenerator.java:152-189 | one row per item |
| PdfGenerator.PdfRowsAt | src/util/PDFGenerator.java:152-189 | row i is item i with its name shortened to 40 characters, drawn at the cursor after i rows once the page-break test is past |
| PdfGenerator.CursorStaysOnPage | src/util/PDFGenerator.java:154-160 | every row top is at least MARGIN + 100 and at most Y_START − 20; the running y never falls below MARGIN + 80 |
| PdfGenerator.TotalsBreakNeverFires | src/util/PDFGenerator.java:192-198 | the totals page break can never fire, and the three totals lines stay above the bottom margin |
| PdfGenerator.RowsInReadingOrder | src/util/PDFGenerator.java:154-188 | a later row is on a later page, or lower on the same page |
| PdfGenerator.TableTopBounds | src/util/PDFGenerator.java:29 | the first row's top, Y_START less the header, the buyer gap and the table header row, lies strictly between 696 and 697 points |
| PdfGenerator.FirstPageRun | src/util/PDFGenerator.java:154-188 | while no break fires, the cursor after k ≤ 28 rows is on page 0, k row heights below the first row's top |
| PdfGenerator.FirstPageRow | src/util/PDFGenerator.java:154-160 | rows 0 to 27 pass the page-break test on page 0 |
| PdfGenerator.SecondPageOpens | src/util/PDFGenerator.java:154-160 | after 28 rows the break fires and the next row is drawn on page 1 at Y_START − 20 |
| PdfGenerator.FirstPageHolds28Rows | src/util/PDFGenerator.java:146-160 | the first page holds exactly 28 rows, and row 28 (0-based) opens page 1 at Y_START − 20 |
| PdfGenerator.DrawItems | src/util/PDFGenerator.java:149-189 | the loop produces exactly PdfRows of the items and leaves the cursor CursorAfter(n) |
| PdfGenerator.GenerateBillPdf | src/util/PDFGenerator.java:50-221 | a null bill is rejected with "bill is null"; null shop name, date, buyer, name and phone show as ""; one row per item; the totals block shows the bill's three amounts after its page-break test |

## Left out

- Floating point. Money, quantities and layout coordinates are exact `real`s. Rounding of
  `double` and `float` arithmetic is not modelled. Neither are the `float` column shares
  0.06f, 0.44f, 0.12f and 0.19f, or the float value of A4's height.
- CreateBillController.AsReal: a non-finite parsed value (NaN or infinity) stored into a
  `Bill` field is taken as 0.0. The three labels are finite in practice. The discount
  percent is parsed from the typed discount field (CreateBillController.java:194-195), where
  "NaN" and "Infinity" are ordinary input; for those the model stores 0.0 where the source
  stores the non-finite double.
- CreateBillController.Form.CommitQuantity: a committed cell value is a finite number or
  empty (`Option<real>`). A NaN or infinite typed quantity is not modelled.
- CreateBillController.Form.CommitUnitPrice: the same holds for the price column; a NaN or
  infinite typed price is not modelled.
- CreateBillController.Form.HandleRemoveSelected: the selection after removal is left as
  it was. JavaFX's selection model picks a new one.
- `formatNumber` (`String.format("%.2f")`) and `Double.parseDouble` are opaque parameters.
  A saved label is not re-parsed to the exact shown value.
- The printed amounts are not modelled: `fmt` and `CURRENCY.format` in
  src/util/NativePrinter.java:184-190 and 207, and `formatNumber`/`formatCurrency` in
  src/util/PDFGenerator.java:170-180 and 206-218. A printed row records only its number or
  page, its shortened name and its position. The native page records whether the grand
  total is shown, not its amount. The PDF totals block keeps its three amounts as reals.
- BillDAO.WhereIsFilter: the equivalence with "case-insensitive substring" needs the
  searched name to contain no `%` or `_`. In the source those act as LIKE wildcards. The
  LIKE semantics themselves are modelled for every name. The same holds for
  BillDAO.ListingIsFilter and BillDAO.HoldsMeansFilter.
- BillDAO.ClausePlaceholders: the count of `?` is proved for the appended conditions, not
  for the fixed SELECT prefix, which contains none.
- Sql.SortDescCorrect: `ORDER BY … DESC` is modelled as one admissible order, a stable
  insertion sort. SQLite leaves the order of equal dates unspecified.
- Case folding is ASCII only, for `LOWER`, `LIKE` and `toLowerCase`. String lengths count
  `char`s, not UTF-16 code units.
- JDBC plumbing, connection pooling and the SQLite file are not modelled. Neither are the
  PRAGMA, the best-effort `ALTER TABLE` and storage-engine locking. Foreign keys are not
  enforced by the engine. The model keeps its well-formedness as proved lemmas instead.
- A non-SQLException inside the transaction, such as a NullPointerException for a null
  element of the item list (BillDAO.java:68-70), skips the rollback at BillDAO.java:80-86;
  the `finally` then switches auto-commit back on (BillDAO.java:89), which commits the
  buyer and bill rows already written. The model cannot express this path: items are a
  `seq` of non-null references, and handleSave never passes such a list.
- The `rollback` at BillDAO.java:82 and the restoring `setAutoCommit(previousAutoCommit)`
  at BillDAO.java:89 only log a failure. The model lets them succeed. After a failed
  `setAutoCommit(false)` (BillDAO.java:30) the connection is still in auto-commit mode,
  so its `rollback` throws and is logged; the model skips it, and nothing was written.
  That failure itself is modelled (`SaveFaults.autoCommitOff`).
- `int` overflow of ids and of Java `int` arithmetic in the printer is not modelled.
  Neither is the saturation of `(int)` for huge doubles.
- NativePrinter.PrintBillToService: a bill whose item list is null cannot occur, because
  items are a `seq`. This model has no `PrintService` lookup, no job name and no real
  `PrinterJob`, and the dialog's answer is an input. `listPrintServices` is not part of
  this model.
- PdfGenerator.GenerateBillPdf: only the null-bill failure is modelled. The method
  promises a document for every other bill, while the source also throws when a shop,
  buyer or product name holds a character the Helvetica WinAnsi encoding cannot show
  (PDFGenerator.java:77, 107, 114, 165), and when `doc.save` fails with an IO error. A null
  item list cannot occur, because items are a `seq`.
- Model.Bill.items is a `seq` value. In the source `setItems`, `getItems` and `addItem`
  share one `ArrayList` (Bill.java:40-43), and `BillPrintable` keeps a reference to it
  (NativePrinter.java:92). That sharing is not modelled; no modelled operation changes the
  list through a second reference.
- The Graphics2D and PDFBox drawing calls are not modelled. Neither are fonts, colours,
  text widths, the logo image, `doc.save` and the footer text. The bill id's text
  rendering is kept as the id.
- src/util/DBBackupUtil.java (file copying) and the background backup task are not part of
  this model. Neither are the other controllers, the scene manager, `Main`, alerts, table
  cell factories and the UI locking after a save.

## Findings

| source | as written | input that shows it | evidently intended | confidence | as-written member | corrected member |
|---|---|---|---|---|---|---|
| src/util/NativePrinter.java:153-159 | rowsPerPage is recomputed on every page. Page 0 loses a row to the buyer line, but page k starts at k × rowsPerPage of the longer pages (the buyer line is drawn only on page 0). | An A4 bill with a named buyer: page 0 holds items 1-28, page 1 starts at item 30, so item 29 is printed on no page. With exactly 29 items, page 1 does not exist and the grand total is never printed. | Page 1 starts where page 0 ended, so every item is printed once and the grand total appears | not executed | NativePrinter.AsWrittenSkipsRow | NativePrinter.CorrectedCoversEachRowOnce |

`NativePrinter.BillPrintable.Print` models the code as written (`AsWrittenSlot`).
`NativePrinter.CorrectedSlot` is the intended pagination, with `CorrectedCoversEachRowOnce`
proved about it.
