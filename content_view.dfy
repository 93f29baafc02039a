/**
 * The main screen's purchase ledger and the queries its charts and headlines
 * read (ContentView.swift).
 */
module ContentView {
  import opened Wrappers
  import opened Calendar
  import opened FormView

  /**
   * The five purchases the screen starts with. The first is dated one day
   * before launch, so that date is a parameter.
   */
  function Seed(yesterday: Date): seq<PurchaseItem>
  {
    [
      PurchaseItem("Apple Watch", 1, 18000.0, Electronics, yesterday),
      PurchaseItem("Uniqlo Pants", 2, 1500.0, Clothing, Date(2022, 1, 15)),
      PurchaseItem("Burger", 3, 18000.0, Food, Date(2022, 4, 10)),
      PurchaseItem("Apple M1 MacBook Pro", 1, 72000.0, Electronics, Date(2022, 4, 1)),
      PurchaseItem("Samsung TV", 1, 14000.0, Appliance, Date(2022, 2, 21))
    ]
  }

  // ---------------------------------------------------------------------------
  // Total purchase amount: `products.map { $0.price }.reduce(.zero, +)`
  // ---------------------------------------------------------------------------

  /** The mathematical sum of the prices, first record first: the reference for the total. */
  function SumOfPrices(s: seq<PurchaseItem>): real
  {
    if s == [] then 0.0 else s[0].price + SumOfPrices(s[1..])
  }

  /** `map { $0.price }`: one price per record, in list order. */
  function Prices(s: seq<PurchaseItem>): (r: seq<real>)
    ensures |r| == |s|
    ensures forall i :: 0 <= i < |s| ==> r[i] == s[i].price
  {
    if s == [] then [] else [s[0].price] + Prices(s[1..])
  }

  /** `reduce(acc, +)`: Swift's left fold, adding each element to the accumulator in turn. */
  function Reduce(acc: real, xs: seq<real>): real
    decreases |xs|
  {
    if xs == [] then acc else Reduce(acc + xs[0], xs[1..])
  }

  lemma {:induction false} ReducePrices(acc: real, s: seq<PurchaseItem>)
    ensures Reduce(acc, Prices(s)) == acc + SumOfPrices(s)
    decreases |s|
  {
    if s != [] {
      assert Prices(s)[1..] == Prices(s[1..]);
      ReducePrices(acc + s[0].price, s[1..]);
    }
  }

  /** `getTotalPurchaseAmount`: the sum of every record's price; 0 for an empty list. */
  function TotalPurchaseAmount(s: seq<PurchaseItem>): (total: real)
    ensures total == SumOfPrices(s)
    ensures s == [] ==> total == 0.0
  {
    ReducePrices(0.0, s);
    Reduce(0.0, Prices(s))
  }

  lemma {:induction false} SumOfPricesConcat(a: seq<PurchaseItem>, b: seq<PurchaseItem>)
    ensures SumOfPrices(a + b) == SumOfPrices(a) + SumOfPrices(b)
    decreases |a|
  {
    if a == [] {
      assert a + b == b;
    } else {
      assert (a + b)[1..] == a[1..] + b;
      SumOfPricesConcat(a[1..], b);
    }
  }

  /** Appending a record adds exactly its price to the total. */
  lemma TotalAfterAppend(s: seq<PurchaseItem>, p: PurchaseItem)
    ensures TotalPurchaseAmount(s + [p]) == TotalPurchaseAmount(s) + p.price
  {
    SumOfPricesConcat(s, [p]);
    assert SumOfPrices([p]) == p.price + SumOfPrices([]);
  }

  lemma SumOfPricesWithout(t: seq<PurchaseItem>, j: nat)
    requires j < |t|
    ensures SumOfPrices(t) == t[j].price + SumOfPrices(t[..j] + t[j + 1..])
  {
    assert t == t[..j] + ([t[j]] + t[j + 1..]);
    SumOfPricesConcat(t[..j], [t[j]] + t[j + 1..]);
    assert ([t[j]] + t[j + 1..])[1..] == t[j + 1..];
    SumOfPricesConcat(t[..j], t[j + 1..]);
  }

  lemma MultisetWithout(s: seq<PurchaseItem>, t: seq<PurchaseItem>, j: nat)
    requires s != [] && j < |t| && t[j] == s[0] && multiset(s) == multiset(t)
    ensures multiset(s[1..]) == multiset(t[..j] + t[j + 1..])
  {
    var rest := t[..j] + t[j + 1..];
    assert s == [s[0]] + s[1..];
    assert t == t[..j] + [t[j]] + t[j + 1..];
    assert multiset(t) == multiset(rest) + multiset{t[j]};
    assert multiset(s) == multiset(s[1..]) + multiset{s[0]};
    assert multiset(s[1..]) == multiset(s) - multiset{s[0]};
    assert multiset(rest) == multiset(t) - multiset{t[j]};
  }

  lemma {:induction false} SumOfPricesIsOrderIndependent(s: seq<PurchaseItem>, t: seq<PurchaseItem>)
    requires multiset(s) == multiset(t)
    ensures SumOfPrices(s) == SumOfPrices(t)
    decreases |s|
  {
    if s == [] {
      assert |t| == |multiset(t)| == 0;
    } else {
      assert s[0] in multiset(s);
      var j :| 0 <= j < |t| && t[j] == s[0];
      MultisetWithout(s, t, j);
      SumOfPricesIsOrderIndependent(s[1..], t[..j] + t[j + 1..]);
      SumOfPricesWithout(t, j);
    }
  }

  /** The total does not depend on the order in which the records were added. */
  lemma TotalIsOrderIndependent(s: seq<PurchaseItem>, t: seq<PurchaseItem>)
    requires multiset(s) == multiset(t)
    ensures TotalPurchaseAmount(s) == TotalPurchaseAmount(t)
  {
    SumOfPricesIsOrderIndependent(s, t);
  }

  // ---------------------------------------------------------------------------
  // The record with the most items: `products.max(by: { $0.numberOfItems < $1.numberOfItems })`
  // ---------------------------------------------------------------------------

  /** The comparison handed to `max(by:)`. */
  predicate AreInIncreasingOrder(a: PurchaseItem, b: PurchaseItem)
  {
    a.numberOfItems < b.numberOfItems
  }

  /**
   * The loop of `max(by:)`: the running maximum is replaced by the next
   * element only when the comparison says it is strictly greater.
   */
  function MaxByFold(result: PurchaseItem, rest: seq<PurchaseItem>): PurchaseItem
    decreases |rest|
  {
    if rest == [] then result
    else MaxByFold(if AreInIncreasingOrder(result, rest[0]) then rest[0] else result, rest[1..])
  }

  /**
   * Among the first `n` records, record `i` has the largest item count and
   * every earlier record has strictly fewer: it is the first maximal one.
   */
  ghost predicate IsFirstMaxAmong(s: seq<PurchaseItem>, n: nat, i: nat)
  {
    && i < n <= |s|
    && (forall j :: 0 <= j < n ==> s[j].numberOfItems <= s[i].numberOfItems)
    && (forall j :: 0 <= j < i ==> s[j].numberOfItems < s[i].numberOfItems)
  }

  /** Record `i` is the first record with the largest item count in the whole list. */
  ghost predicate IsFirstMax(s: seq<PurchaseItem>, i: nat)
  {
    IsFirstMaxAmong(s, |s|, i)
  }

  lemma {:induction false} MaxByFoldFindsFirstMax(s: seq<PurchaseItem>, m: nat, k: nat)
    requires 0 < m <= |s| && IsFirstMaxAmong(s, m, k)
    ensures exists i: nat :: IsFirstMax(s, i) && s[i] == MaxByFold(s[k], s[m..])
    decreases |s| - m
  {
    if m == |s| {
      assert s[m..] == [];
      assert IsFirstMax(s, k) && s[k] == MaxByFold(s[k], s[m..]);
    } else {
      var k' := if AreInIncreasingOrder(s[k], s[m]) then m else k;
      assert s[k'] == if AreInIncreasingOrder(s[k], s[m]) then s[m] else s[k];
      assert IsFirstMaxAmong(s, m + 1, k');
      assert s[m..][0] == s[m] && s[m..][1..] == s[m + 1..];
      assert MaxByFold(s[k], s[m..]) == MaxByFold(s[k'], s[m + 1..]);
      MaxByFoldFindsFirstMax(s, m + 1, k');
    }
  }

  /** `max(by:)`: nothing for an empty list, otherwise the first record with the largest item count. */
  function Highest(s: seq<PurchaseItem>): (r: Option<PurchaseItem>)
    ensures r.None? <==> s == []
    ensures r.Some? ==> exists i: nat :: IsFirstMax(s, i) && s[i] == r.value
  {
    if s == [] then None
    else
      assert IsFirstMaxAmong(s, 1, 0);
      MaxByFoldFindsFirstMax(s, 1, 0);
      Some(MaxByFold(s[0], s[1..]))
  }

  /** There is only one first maximal record. */
  lemma FirstMaxIsUnique(s: seq<PurchaseItem>, i: nat, j: nat)
    requires IsFirstMax(s, i) && IsFirstMax(s, j)
    ensures i == j
  {
    assert s[i].numberOfItems == s[j].numberOfItems;
  }

  /** The converse: whenever record `i` is the first maximal one, `max(by:)` returns it. */
  lemma HighestIsTheFirstMax(s: seq<PurchaseItem>, i: nat)
    requires IsFirstMax(s, i)
    ensures Highest(s) == Some(s[i])
  {
    var i': nat :| IsFirstMax(s, i') && s[i'] == Highest(s).value;
    FirstMaxIsUnique(s, i, i');
  }

  /** Ties go to the earlier record: of two equal maximal counts, the later record is never chosen over the first. */
  lemma TieGoesToFirst(s: seq<PurchaseItem>, i: nat, j: nat)
    requires i < j < |s| && s[i].numberOfItems == s[j].numberOfItems
    requires forall k :: 0 <= k < |s| ==> s[k].numberOfItems <= s[i].numberOfItems
    ensures exists k: nat :: k <= i && IsFirstMax(s, k) && Highest(s) == Some(s[k])
  {
    var r := Highest(s);
    var k: nat :| IsFirstMax(s, k) && s[k] == r.value;
    assert s[i].numberOfItems <= s[k].numberOfItems;
    assert k <= i;
    assert IsFirstMax(s, k) && r == Some(s[k]);
  }

  // ---------------------------------------------------------------------------
  // The month with the most purchases
  // ---------------------------------------------------------------------------

  /**
   * `getMonthWithMostNumberOfPurchases`: "None" for an empty list, otherwise
   * the month name of the first record with the largest item count.
   */
  function MonthWithMostPurchases(s: seq<PurchaseItem>): (r: string)
    ensures r == "None" <==> s == []
    ensures s != [] ==> exists i: nat :: IsFirstMax(s, i) && r == MonthName(s[i].dateOfPurchase.month)
  {
    match Highest(s)
    case None => "None"
    case Some(item) => MonthName(item.dateOfPurchase.month)
  }

  /** With a single record, the answer is that record's month. */
  lemma MonthOfSingleRecord(p: PurchaseItem)
    ensures MonthWithMostPurchases([p]) == MonthName(p.dateOfPurchase.month)
  {
    assert IsFirstMax([p], 0);
  }

  /** Two records tied on the largest count: the first-inserted one's month is reported. */
  lemma TieExample()
    ensures MonthWithMostPurchases([
      PurchaseItem("Burger", 3, 180.0, Food, Date(2022, 4, 10)),
      PurchaseItem("Uniqlo Pants", 3, 15.0, Clothing, Date(2022, 1, 15))
    ]) == "April"
  {
    var s := [
      PurchaseItem("Burger", 3, 180.0, Food, Date(2022, 4, 10)),
      PurchaseItem("Uniqlo Pants", 3, 15.0, Clothing, Date(2022, 1, 15))
    ];
    HighestIsTheFirstMax(s, 0);
  }

  /** On the seed list the unique maximum is "Burger" (3 items, April), and the prices sum to 123500. */
  lemma SeedQueries(yesterday: Date)
    ensures IsFirstMax(Seed(yesterday), 2) && Seed(yesterday)[2].name == "Burger"
    ensures forall k :: 0 <= k < 5 && k != 2 ==> Seed(yesterday)[k].numberOfItems < 3
    ensures MonthWithMostPurchases(Seed(yesterday)) == "April"
    ensures TotalPurchaseAmount(Seed(yesterday)) == 123500.0
  {
    var s := Seed(yesterday);
    assert IsFirstMax(s, 2);
    HighestIsTheFirstMax(s, 2);
    assert s[1..][1..][1..][1..][1..] == [];
    assert SumOfPrices(s) == 18000.0 + SumOfPrices(s[1..]);
    assert SumOfPrices(s[1..]) == 1500.0 + SumOfPrices(s[1..][1..]);
    assert SumOfPrices(s[1..][1..]) == 18000.0 + SumOfPrices(s[1..][1..][1..]);
    assert SumOfPrices(s[1..][1..][1..]) == 72000.0 + SumOfPrices(s[1..][1..][1..][1..]);
    assert SumOfPrices(s[1..][1..][1..][1..]) == 14000.0;
  }

  // ---------------------------------------------------------------------------
  // The "Purchases by Category" chart: one bar value per record
  // ---------------------------------------------------------------------------

  /** The bar value of one record: its item count when the picker shows tag 1, its price otherwise. */
  function MetricValue(p: PurchaseItem, selection: int): real
  {
    if selection == 1 then p.numberOfItems as real else p.price
  }

  /** The category chart's values: one per record, in list order, not summed per category. */
  function CategoryChartValues(s: seq<PurchaseItem>, selection: int): (r: seq<real>)
    ensures |r| == |s|
    ensures forall i :: 0 <= i < |s| ==> r[i] == MetricValue(s[i], selection)
  {
    if s == [] then [] else [MetricValue(s[0], selection)] + CategoryChartValues(s[1..], selection)
  }

  /** With the Price tag selected, the bars are the prices, and together they add up to the total. */
  lemma PriceChartAddsUpToTotal(s: seq<PurchaseItem>, selection: int)
    requires selection != 1
    ensures CategoryChartValues(s, selection) == Prices(s)
    ensures Reduce(0.0, CategoryChartValues(s, selection)) == TotalPurchaseAmount(s)
  {
    ReducePrices(0.0, s);
  }

  /** With the Item Count tag selected, every saveable record's bar lies between 1 and 20. */
  lemma ItemCountChartIsBounded(s: seq<PurchaseItem>, i: nat)
    requires i < |s| && IsSaveable(s[i])
    ensures 1.0 <= CategoryChartValues(s, 1)[i] <= 20.0
  {
  }

  // ---------------------------------------------------------------------------
  // The screen's `products` state
  // ---------------------------------------------------------------------------

  /** Every record in the list obeys the form's rules. */
  predicate AllSaveable(s: seq<PurchaseItem>)
  {
    forall i :: 0 <= i < |s| ==> IsSaveable(s[i])
  }

  /** The screen's `@State products` list, which only ever grows at the end. */
  class Ledger {
    var products: seq<PurchaseItem>

    /** The list at launch: the seed records, all of which obey the form's rules. */
    constructor (yesterday: Date)
      ensures products == Seed(yesterday)
      ensures AllSaveable(products)
    {
      products := Seed(yesterday);
    }

    /** `products.append(product)`: the earlier records stay as they were, the new one goes last. */
    method Append(p: PurchaseItem)
      modifies this
      ensures products == old(products) + [p]
      ensures |products| == |old(products)| + 1 && products[|products| - 1] == p
      ensures forall i :: 0 <= i < |old(products)| ==> products[i] == old(products)[i]
      ensures TotalPurchaseAmount(products) == TotalPurchaseAmount(old(products)) + p.price
      ensures AllSaveable(products) <==> AllSaveable(old(products)) && IsSaveable(p)
    {
      TotalAfterAppend(products, p);
      products := products + [p];
    }

    /**
     * A tap on the form's Save button: when it is enabled the record built
     * from the form is handed to the `onTapSave` closure, which appends it.
     */
    method SaveFromForm(form: FormState, now: Date) returns (saved: Option<PurchaseItem>)
      requires form.Valid()
      modifies this
      ensures saved.Some? <==> form.SaveEnabled()
      ensures saved.Some? ==> saved.value == PurchaseItem(form.productName, form.numberOfItems, form.price, form.category, now)
      ensures products == old(products) + if saved.Some? then [saved.value] else []
      ensures AllSaveable(old(products)) ==> AllSaveable(products)
    {
      saved := form.TapSave(now);
      if saved.Some? {
        Append(saved.value);
      }
    }
  }
}
