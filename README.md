# ShoppingTracker purchase ledger, modelled in Dafny

ShoppingTracker is a one-screen SwiftUI app. You record purchases (name, item
count, price, category), and each one is dated when it is saved. The app
shows a total, the month with the most purchases, and charts. This project models the part of the app that has
meaning apart from the UI:

- the `Category` enumeration and the immutable `PurchaseItem` record;
- the "Add Purchase" form's state and save rule;
- the main screen's `products` list, which starts with five seed records and
  only grows by `append`;
- the queries over that list: `getTotalPurchaseAmount`,
  `getMonthWithMostNumberOfPurchases` with its `max(by:)`, and the per-record
  values of the "Purchases by Category" chart.

Modules:

- `Wrappers` (wrappers.dfy): `Option`, standing in for Swift's `Optional`.
- `Calendar` (calendar.dfy): a date as year, month 1..12 and day. It also has
  the fixed English month-name table that stands in for a `DateFormatter`
  with the "LLLL" pattern.
- `FormView` (form_view.dfy): `Category` with its raw values, title and id;
  `PurchaseItem`; and the class `FormState`. That class holds the form's
  `@State` fields. It has one method per widget and `TapSave` for the Save
  button.
- `ContentView` (content_view.dfy): the seed list; the total, written as
  `map` followed by a left-fold `reduce`; Swift's `max(by:)` loop, where the
  running maximum is replaced only by a strictly greater element; the month
  query; the chart projection; and the class `Ledger`, which holds the
  `products` state.

Prices are exact `real` numbers, not IEEE doubles. Dates are plain values. The
clock readings the app takes (`Date()` when the form opens and when Save is
tapped, and "one day ago" for the first seed record) are method parameters.

What the code checks, and what it does not:

- The code never rejects a record. No error path exists for a negative price,
  and `append` cannot fail. The only rule is that the Save button is disabled
  while the name is empty. The item count cannot leave 1...20 because the
  stepper is clamped to that range.
- The date is stamped by the form at the moment Save is tapped, not by the
  list. The form's own `dateOfPurchase` state is set when the form opens and
  is never read.
- The code hands the category chart one value per record, together with that
  record's category title. It does not add the values up per category.

## Model

| member | source | states |
|---|---|---|
| `Calendar.MonthName` | ShoppingTracker-SwiftCharts/ShoppingTracker-SwiftCharts/ContentView.swift:42-47 | the month's full name is non-empty and never the sentinel "None" |
| `FormView.Category.RawValue` | ShoppingTracker-SwiftCharts/ShoppingTracker-SwiftCharts/FormView.swift:11-18 | each case's raw value is its position in declaration order (food 0 … other 4) |
| `FormView.CategoryFromRawValue` | ShoppingTracker-SwiftCharts/ShoppingTracker-SwiftCharts/FormView.swift:11-18 | `Category(rawValue:)` succeeds exactly for 0..4, and the case it yields has that raw value |
| `FormView.RawValueRoundTrip` | ShoppingTracker-SwiftCharts/ShoppingTracker-SwiftCharts/FormView.swift:11-18 | building a case from its own raw value gives back that case |
| `FormView.AllCasesEnumeratesCategory` | ShoppingTracker-SwiftCharts/ShoppingTracker-SwiftCharts/FormView.swift:11-18 | `allCases` (the constant `FormView.AllCases`, the cases in declaration order) has exactly five distinct entries, holds every case, and entry i has raw value i |
| `FormView.TitleTable` | ShoppingTracker-SwiftCharts/ShoppingTracker-SwiftCharts/FormView.swift:20-28 | the five titles are "Food", "Electronics", "Appliance", "Clothing", "Other", and no two cases share a title |
| `FormView.IdsAreDistinct` | ShoppingTracker-SwiftCharts/ShoppingTracker-SwiftCharts/FormView.swift:12-28 | a case's id is its title, and distinct cases have distinct ids |
| `FormView.Category.Title` | ShoppingTracker-SwiftCharts/ShoppingTracker-SwiftCharts/FormView.swift:20-28 | the `title` switch: the display label of each case |
| `FormView.Category.Id` | ShoppingTracker-SwiftCharts/ShoppingTracker-SwiftCharts/FormView.swift:12 | the `Identifiable` id, which is the case's title |
| `FormView.IsSaveable` | ShoppingTracker-SwiftCharts/ShoppingTracker-SwiftCharts/FormView.swift:54-86 | the rules every record the form can save obeys: a non-empty name and an item count in 1...20 |
| `FormView.FormState.Valid` | ShoppingTracker-SwiftCharts/ShoppingTracker-SwiftCharts/FormView.swift:54 | the stepper's range: the form's item count lies in 1...20; the constructor establishes it, every widget method keeps it, and `TapSave` relies on it |
| `FormView.FormState.SaveEnabled` | ShoppingTracker-SwiftCharts/ShoppingTracker-SwiftCharts/FormView.swift:86 | the Save button is enabled exactly when the name is non-empty |
| `FormView.FormState.constructor` | ShoppingTracker-SwiftCharts/ShoppingTracker-SwiftCharts/FormView.swift:32-36 | the form opens with name "", count 1, category other and price 0, and Save is disabled |
| `FormView.FormState.SetProductName` | ShoppingTracker-SwiftCharts/ShoppingTracker-SwiftCharts/FormView.swift:52 | the text field sets only the name; Save becomes enabled exactly when the new name is non-empty |
| `FormView.FormState.IncrementItems` | ShoppingTracker-SwiftCharts/ShoppingTracker-SwiftCharts/FormView.swift:54 | the stepper's "+" adds one item unless the count is already 20; the count stays inside 1...20 |
| `FormView.FormState.DecrementItems` | ShoppingTracker-SwiftCharts/ShoppingTracker-SwiftCharts/FormView.swift:54 | the stepper's "-" removes one item unless the count is already 1; the count stays inside 1...20 |
| `FormView.FormState.SetCategory` | ShoppingTracker-SwiftCharts/ShoppingTracker-SwiftCharts/FormView.swift:56-61 | the picker sets only the category |
| `FormView.FormState.SetPrice` | ShoppingTracker-SwiftCharts/ShoppingTracker-SwiftCharts/FormView.swift:64-65 | the price field sets only the price, with no sign check |
| `FormView.FormState.TapSave` | ShoppingTracker-SwiftCharts/ShoppingTracker-SwiftCharts/FormView.swift:73-86 | a record is sent exactly when the name is non-empty; it copies name, count, price and category from the form, is dated at the tap, and has a non-empty name and a count in 1...20 |
| `ContentView.Seed` | ShoppingTracker-SwiftCharts/ShoppingTracker-SwiftCharts/ContentView.swift:20-26 | the five seed records, in order, with the first one dated one day before launch |
| `ContentView.Prices` | ShoppingTracker-SwiftCharts/ShoppingTracker-SwiftCharts/ContentView.swift:29 | `map { $0.price }` yields one price per record, in list order |
| `ContentView.Reduce` | ShoppingTracker-SwiftCharts/ShoppingTracker-SwiftCharts/ContentView.swift:30 | `reduce(_, +)`: a left fold that adds each element to the accumulator, first element first |
| `ContentView.ReducePrices` | ShoppingTracker-SwiftCharts/ShoppingTracker-SwiftCharts/ContentView.swift:29-30 | folding `+` over the mapped prices from a start value gives that value plus the sum of all prices |
| `ContentView.TotalPurchaseAmount` | ShoppingTracker-SwiftCharts/ShoppingTracker-SwiftCharts/ContentView.swift:28-33 | the total is the sum of every record's price, and 0 for an empty list |
| `ContentView.TotalAfterAppend` | ShoppingTracker-SwiftCharts/ShoppingTracker-SwiftCharts/ContentView.swift:28-33 | appending a record raises the total by exactly that record's price |
| `ContentView.TotalIsOrderIndependent` | ShoppingTracker-SwiftCharts/ShoppingTracker-SwiftCharts/ContentView.swift:28-33 | two lists holding the same records in any order have the same total |
| `ContentView.AreInIncreasingOrder` | ShoppingTracker-SwiftCharts/ShoppingTracker-SwiftCharts/ContentView.swift:37-39 | the closure given to `max(by:)`: true when the first record has strictly fewer items than the second |
| `ContentView.MaxByFold` | ShoppingTracker-SwiftCharts/ShoppingTracker-SwiftCharts/ContentView.swift:37-40 | the loop of `max(by:)`: the running result is replaced by the next record only when the closure says that record is strictly greater |
| `ContentView.MaxByFoldFindsFirstMax` | ShoppingTracker-SwiftCharts/ShoppingTracker-SwiftCharts/ContentView.swift:37-40 | the `max(by:)` loop keeps, as its running result, the first record with the largest count seen so far, and ends on the first maximal record of the whole list |
| `ContentView.Highest` | ShoppingTracker-SwiftCharts/ShoppingTracker-SwiftCharts/ContentView.swift:37-40 | `max(by:)` returns nothing exactly for an empty list; otherwise it returns a record whose count is at least every record's count and strictly above every earlier record's count |
| `ContentView.FirstMaxIsUnique` | ShoppingTracker-SwiftCharts/ShoppingTracker-SwiftCharts/ContentView.swift:37-40 | only one position in a list can be the first maximal record |
| `ContentView.HighestIsTheFirstMax` | ShoppingTracker-SwiftCharts/ShoppingTracker-SwiftCharts/ContentView.swift:37-40 | whenever record i is the first maximal one, `max(by:)` returns record i |
| `ContentView.TieGoesToFirst` | ShoppingTracker-SwiftCharts/ShoppingTracker-SwiftCharts/ContentView.swift:37-40 | when two records tie on the largest count, the record returned is at or before the earlier of the two |
| `ContentView.MonthWithMostPurchases` | ShoppingTracker-SwiftCharts/ShoppingTracker-SwiftCharts/ContentView.swift:35-53 | the answer is "None" exactly when the list is empty; otherwise it is the month name of the first record with the largest count |
| `ContentView.MonthOfSingleRecord` | ShoppingTracker-SwiftCharts/ShoppingTracker-SwiftCharts/ContentView.swift:35-53 | for a one-record list, the answer is that record's month |
| `ContentView.TieExample` | ShoppingTracker-SwiftCharts/ShoppingTracker-SwiftCharts/ContentView.swift:35-53 | of an April record and a later January record with equal counts, the answer is "April" |
| `ContentView.SeedQueries` | ShoppingTracker-SwiftCharts/ShoppingTracker-SwiftCharts/ContentView.swift:20-53 | on the seed list, "Burger" (3 items, April) is the unique maximum, the answer is "April", and the prices add up to 123500 |
| `ContentView.MetricValue` | ShoppingTracker-SwiftCharts/ShoppingTracker-SwiftCharts/ContentView.swift:132 | the ternary: a record's item count as a real when the picker's tag is 1, its price otherwise |
| `ContentView.CategoryChartValues` | ShoppingTracker-SwiftCharts/ShoppingTracker-SwiftCharts/ContentView.swift:130-133 | the chart gets one value per record, in list order: the item count when tag 1 is selected, the price otherwise |
| `ContentView.PriceChartAddsUpToTotal` | ShoppingTracker-SwiftCharts/ShoppingTracker-SwiftCharts/ContentView.swift:130-133 | with the Price tag selected, the bar values are the mapped prices, and they add up to the displayed total |
| `ContentView.ItemCountChartIsBounded` | ShoppingTracker-SwiftCharts/ShoppingTracker-SwiftCharts/ContentView.swift:132 | with the Item Count tag selected, the bar of a record saved by the form lies between 1 and 20 |
| `ContentView.Ledger.constructor` | ShoppingTracker-SwiftCharts/ShoppingTracker-SwiftCharts/ContentView.swift:20-26 | the list starts as the five seed records, all with a name and a count in 1...20 |
| `ContentView.Ledger.Append` | ShoppingTracker-SwiftCharts/ShoppingTracker-SwiftCharts/ContentView.swift:158 | the earlier records keep their places and order, the new record goes last, the length grows by one, and the total grows by its price |
| `ContentView.Ledger.SaveFromForm` | ShoppingTracker-SwiftCharts/ShoppingTracker-SwiftCharts/ContentView.swift:156-160 | a Save tap appends the form's record exactly when the name is non-empty and otherwise leaves the list unchanged; a list whose records all obey the form's rules keeps obeying them |

A `PurchaseItem` is a Dafny datatype value, so it cannot change once it is
built. This matches the record's `let` fields (FormView.swift:103-110).

## Left out

- SwiftUI layout, navigation, the sheet, the toolbar and the previews: these are presentation only.
- Swift Charts rendering, including the per-month bucketing of the "Purchases on each month" chart (ContentView.swift:99-103). The Charts framework does that grouping through `unit: .month`; no code of the app does it.
- `DateFormatter` locale handling and time zones: the month name comes from a fixed English table.
- `Calendar` date construction in `date(year:month:day:)` (ContentView.swift:12-14), including its fallback to `Date()`: seed dates are written directly as values.
- IEEE `Double` rounding, the `"%.2f"` display format and `NumberFormatter` currency parsing: prices are exact reals, and the price field is modelled as storing the parsed amount. `TotalIsOrderIndependent` is therefore a property of the exact-price model only: a `Double` sum can change when the records are reordered.
- `PurchaseItem.id` (a `UUID()`): it is random, and nothing in the modelled core reads it.
- Clock readings (`Date()` and `Date(timeIntervalSinceNow: -86400)`): they are parameters.
- The `isFormViewShown = false` dismissal after a save: it is presentation state.
