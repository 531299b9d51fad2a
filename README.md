# Farm marketplace: order lifecycle, upload check and demand forecaster

A Dafny model of the logic inside a small farmer/consumer marketplace web
application (`app.py`). Three parts are modelled:

- **Upload extension check** (`upload.dfy`, module `Upload`): a product image
  may be saved when its file name has a dot and the text after the last dot,
  lower-cased, is one of `png`, `jpg`, `jpeg`, `gif`.
- **Demand forecaster** (`forecast.dfy`, module `DemandForecaster`): from the
  historical sales table, the forecast for a product name is "No Historical
  Data" for an empty table, "New Product" when no row's name matches ignoring
  case, otherwise a comparison of the current month's mean quantity sold
  against the product's overall mean (high above 1.1 times, otherwise low
  below 0.9 times, otherwise stable), or "Stable (No seasonal data)" with the
  overall averages when no row falls in the current month. The average
  quantity is truncated toward zero.
- **Order lifecycle and inventory** (`marketplace.dfy`, module `Marketplace`):
  a `Store` class holding the product, order and activity-log tables.
  `PlaceOrder` stores a Pending order when the product exists and
  `0 < quantity <= stock`, without touching stock. `ManageOrder` lets only the
  order's farmer act: "accept" re-checks stock, then marks the order Accepted
  and takes its quantity out of stock; "reject" marks it Rejected; any other
  action changes nothing. Each successful step appends one log entry for the
  acting user. The admin overview totals (kilograms sold over accepted orders,
  stock over all products) are functions with lemmas saying how each step
  moves them.

`wrappers.dfy` holds an `Option` type and `text.dfy` the ASCII lower-casing
used for both case-insensitive comparisons.

`manage_order` never looks at the order's status (app.py:346-365), so an
accepted order can be accepted again, which takes its quantity out of stock a
second time, and an accepted order can later be rejected without its stock
coming back. `ManageOrder` has no Pending guard. `AcceptTwice` and
`AcceptThenReject` show both behaviours on concrete stores.

Inputs that come from outside the code are parameters. The acting user is the
`actor` id. The current month is `currentMonth`. The historical table is a
`History` value. Product and order ids are the route's non-negative integers.
The order form's quantity field is an `Option<int>`, already parsed.

## Model

| member | source | states |
|---|---|---|
| `Text.LowerChar` | app.py:33 | upper-case ASCII letters map to their lower-case letter, everything else is unchanged |
| `Text.Lower` | app.py:33 | lower-casing keeps the length and lower-cases every character in place |
| `Upload.LastDot` | app.py:33 | gives the position of a '.' with no '.' after it, and gives nothing exactly when the name has no '.' |
| `Upload.Extension` | app.py:33 | the part after splitting once from the right at '.' has no '.', and stem + "." + extension rebuilds the name |
| `Upload.AllowedFileCharacterized` | app.py:32-33 | a name is accepted iff it is stem + "." + ext with no '.' in ext and ext lower-cased in {png, jpg, jpeg, gif} (app.py:18) |
| `Upload.SplitAtLastDot` | app.py:33 | any split around a '.' with no '.' after it is the split the check uses |
| `Upload.UpperCaseExtensionAccepted` | app.py:33 | "x.PNG" is accepted |
| `Upload.DoubleExtensionRejected` | app.py:33 | "a.png.exe" is rejected |
| `Upload.NoDotRejected` | app.py:33 | "png" is rejected |
| `DemandForecaster.ProductRows` | app.py:90 | a row is among the product's rows iff it is a table row whose name matches ignoring case |
| `DemandForecaster.ProductRowsKeepDuplicates` | app.py:90 | every matching row occurs in the product's rows as often as in the table (duplicates kept), every other row not at all |
| `DemandForecaster.RowsInMonth` | app.py:95 | a row is among the seasonal rows iff it is one of the product's rows dated in the given month |
| `DemandForecaster.RowsInMonthKeepDuplicates` | app.py:95 | every row of the month occurs in the seasonal rows as often as among the product's rows (duplicates kept), every other row not at all |
| `DemandForecaster.TruncatedMean` | app.py:109 | the integer average is the real mean truncated toward zero, also for a negative total |
| `DemandForecaster.DivisionIsTruncation` | app.py:109 | for a non-negative total, integer division lies within 1 below the real mean |
| `DemandForecaster.CompareMeans` | app.py:102-103 | comparing one mean with p/10 times another is the same as the cross-multiplied integer comparison |
| `DemandForecaster.Classify` | app.py:101-104 | high iff seasonal mean > 1.1 × overall mean; low iff not high and < 0.9 × overall mean; stable otherwise |
| `DemandForecaster.NoRowsIffNoMatch` | app.py:90-91 | the product has no rows iff no row's name matches ignoring case |
| `DemandForecaster.Analyze` | app.py:88-109 | empty table gives ("No Historical Data", 0, 0); on a non-empty table the result is "New Product" iff no row matches, and then the averages are 0 |
| `DemandForecaster.AnalyzeInSeason` | app.py:94-104 | with current-month rows: the trend is the 1.1×/0.9× classification of their mean quantity against the overall mean, the price is their mean, the quantity their truncated mean |
| `DemandForecaster.AnalyzeOutOfSeason` | app.py:94-108 | "Stable (No seasonal data)" iff the product has rows but none in the current month or the table has no date column; then price and quantity are the overall means, the quantity truncated |
| `DemandForecaster.TomatoInMarch` | app.py:88-109 | 150 kg in March and 50 kg in May, asked in March with a differently-cased name, give high demand, price 20.0 and 150 kg, shown as the label "High Demand (Seasonal Peak) 📈" |
| `DemandForecaster.MeanQuantityTruncated` | app.py:109 | a mean of 149.9 gives 149, and -149.9 gives -149 |
| `Marketplace.TotalSalesUpdate` | app.py:268 | replacing one order moves kilograms sold by the difference of what the two orders count as accepted |
| `Marketplace.TotalSalesAppend` | app.py:268 | appending an order adds what it counts as accepted to kilograms sold |
| `Marketplace.TotalInventoryUpdate` | app.py:270 | changing one product's stock moves total inventory by exactly that difference |
| `Marketplace.Store.constructor` | app.py:43-72 | an initial product table with no orders and an empty log satisfies the store invariant |
| `Marketplace.Store.PlaceOrder` | app.py:320-342 | an order is placed iff the product exists and 0 < quantity <= stock (quantity 1 when absent); then exactly one Pending order for the actor, with the product's farmer and that quantity, and one log entry are appended; otherwise nothing changes; stock never changes |
| `Marketplace.Store.ManageOrder` | app.py:344-365 | Unauthorized iff the order is missing or not the actor's, then nothing changes; accept with enough stock sets Accepted, takes exactly the order quantity out of stock and logs once; accept without enough stock, or an unknown action, changes nothing; reject sets Rejected whatever the status or stock, keeps stock and logs once; stock never becomes negative if it was not |
| `Marketplace.AcceptTwice` | app.py:350-355 | accepting the same 3 kg order twice from 10 kg leaves 4 kg, while kilograms sold count it once |
| `Marketplace.AcceptThenReject` | app.py:350-362 | accepting then rejecting a 3 kg order from 10 kg leaves 7 kg and nothing counted as sold |
| `Marketplace.AcceptAfterStockTaken` | app.py:326-358 | two 3 kg orders both pass placement against 5 kg; after the first is accepted the second gets "not enough stock" and stays Pending with 2 kg left |

## Left out

- User registration, password and OTP login, logout and the admin account created at start-up: session and database lookups, the random OTP and the SMS service. The log entries these write are not modelled.
- Adding a product (`add_product`), including saving the image under a timestamped, sanitised name: the store starts from a given product table.
- Text translation and language switching, page rendering, redirects and flash messages: the flash message of each step is its outcome value.
- Consumer search and the farmer's and admin's dashboard listings: these are database queries. Only the admin's two integer totals are modelled.
- Total revenue on the admin overview: it multiplies quantities by floating-point prices.
- Loading and date-parsing of the historical table: the table is a `History` value with each row's month already extracted. If dates fail to parse, the source keeps the text column, and the forecaster would then fail on it. That case is not modelled.
- DemandForecaster.Sample: historical quantities are whole kilograms, and every price and quantity cell is present. The source reads them from a CSV, where a quantity such as 12.5 kg is valid, and pandas' mean skips empty cells, dividing by the number of filled cells rather than by the number of rows.
- `DemandForecaster.Analyze`: the average price is the exact real mean, not rounded to 2 decimals. The mean quantity and the 1.1/0.9 comparisons are exact, not floating point.
- Text.Lower: lower-cases ASCII letters only. No other character lower-cases to one of the letters in png, jpg, jpeg or gif, so the upload check is unaffected. The product-name comparison is unaffected too, except for names with non-ASCII capitals.
- Log entries keep what was done and by whom, not their timestamps or the rendered sentence. Order dates are not modelled.
- Concurrency: each request runs to completion before the next. The check-then-decrement race between two concurrent accepts is not modelled.
- Parsing of the request's quantity field: a non-numeric value makes the source fail before any change.
