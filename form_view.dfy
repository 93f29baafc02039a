/**
 * The purchase record, its category, and the "Add Purchase" form that builds
 * new records (FormView.swift).
 */
module FormView {
  import opened Wrappers
  import opened Calendar

  /** The five purchase categories, in declaration order; position i has raw value i. */
  datatype Category = Food | Electronics | Appliance | Clothing | Other
  {
    /** The `Int` raw value the declaration fixes for this case. */
    function RawValue(): (r: int)
      ensures 0 <= r < |AllCases| && AllCases[r] == this
    {
      match this
      case Food => 0
      case Electronics => 1
      case Appliance => 2
      case Clothing => 3
      case Other => 4
    }

    /** The label shown in the picker and in chart legends. */
    function Title(): string
    {
      match this
      case Clothing => "Clothing"
      case Appliance => "Appliance"
      case Electronics => "Electronics"
      case Food => "Food"
      case Other => "Other"
    }

    /** The `Identifiable` id, which is the title. */
    function Id(): string
    {
      Title()
    }
  }

  /** `Category.allCases`: every case once, in declaration order. */
  const AllCases: seq<Category> := [Food, Electronics, Appliance, Clothing, Other]

  /** The failable initialiser `Category(rawValue:)` that an `Int` raw type provides. */
  function CategoryFromRawValue(n: int): (r: Option<Category>)
    ensures r.Some? <==> 0 <= n < |AllCases|
    ensures r.Some? ==> r.value.RawValue() == n
  {
    if 0 <= n < |AllCases| then Some(AllCases[n]) else None
  }

  lemma RawValueRoundTrip(c: Category)
    ensures CategoryFromRawValue(c.RawValue()) == Some(c)
  {
  }

  /** `allCases` lists exactly the five cases, each once, with raw values 0 to 4 in order. */
  lemma AllCasesEnumeratesCategory()
    ensures |AllCases| == 5
    ensures forall c: Category :: c in AllCases
    ensures forall i, j :: 0 <= i < j < |AllCases| ==> AllCases[i] != AllCases[j]
    ensures forall i :: 0 <= i < |AllCases| ==> AllCases[i].RawValue() == i
  {
    forall c: Category ensures c in AllCases {
      assert AllCases[c.RawValue()] == c;
    }
  }

  /** The five titles, and no two cases share one. */
  lemma TitleTable()
    ensures Food.Title() == "Food" && Electronics.Title() == "Electronics"
    ensures Appliance.Title() == "Appliance" && Clothing.Title() == "Clothing"
    ensures Other.Title() == "Other"
    ensures forall a: Category, b: Category :: a.Title() == b.Title() ==> a == b
  {
  }

  /** Ids are titles, so they are pairwise distinct across the cases. */
  lemma IdsAreDistinct(a: Category, b: Category)
    ensures a.Id() == a.Title()
    ensures a != b ==> a.Id() != b.Id()
  {
    TitleTable();
  }

  /**
   * A purchase record. A datatype value never changes once built, as the
   * record's `let` fields promise. Its UUID `id` is not modelled.
   */
  datatype PurchaseItem = PurchaseItem(
    name: string,
    numberOfItems: int,
    price: real,
    category: Category,
    dateOfPurchase: Date
  )

  /** The bounds of the item-count stepper. */
  const MinItems: int := 1
  const MaxItems: int := 20

  /** What every record the form can save satisfies: a name, and a count inside the stepper's range. */
  predicate IsSaveable(p: PurchaseItem)
  {
    p.name != [] && MinItems <= p.numberOfItems <= MaxItems
  }

  /**
   * The form's state. Each widget changes one field; the stepper keeps the
   * item count inside MinItems..MaxItems.
   */
  class FormState {
    var productName: string
    var numberOfItems: int
    var dateOfPurchase: Date
    var category: Category
    var price: real

    /** The stepper's range invariant. */
    predicate Valid()
      reads this
    {
      MinItems <= numberOfItems <= MaxItems
    }

    /** The Save button is enabled exactly when a name has been typed. */
    predicate SaveEnabled()
      reads this
    {
      productName != []
    }

    /** The freshly opened form; `openedAt` is the clock's reading when it opens. */
    constructor (openedAt: Date)
      ensures Valid()
      ensures productName == "" && numberOfItems == 1 && category == Other && price == 0.0
      ensures dateOfPurchase == openedAt
      ensures !SaveEnabled()
    {
      productName := "";
      numberOfItems := 1;
      dateOfPurchase := openedAt;
      category := Other;
      price := 0.0;
    }

    /** The name text field replaces the name with whatever was typed. */
    method SetProductName(text: string)
      requires Valid()
      modifies this
      ensures Valid()
      ensures productName == text && SaveEnabled() == (text != [])
      ensures numberOfItems == old(numberOfItems) && category == old(category)
      ensures price == old(price) && dateOfPurchase == old(dateOfPurchase)
    {
      productName := text;
    }

    /** The stepper's "+" button: one more item, never above MaxItems. */
    method IncrementItems()
      requires Valid()
      modifies this
      ensures Valid()
      ensures numberOfItems == if old(numberOfItems) < MaxItems then old(numberOfItems) + 1 else MaxItems
      ensures productName == old(productName) && category == old(category)
      ensures price == old(price) && dateOfPurchase == old(dateOfPurchase)
    {
      if numberOfItems < MaxItems {
        numberOfItems := numberOfItems + 1;
      }
    }

    /** The stepper's "-" button: one item fewer, never below MinItems. */
    method DecrementItems()
      requires Valid()
      modifies this
      ensures Valid()
      ensures numberOfItems == if old(numberOfItems) > MinItems then old(numberOfItems) - 1 else MinItems
      ensures productName == old(productName) && category == old(category)
      ensures price == old(price) && dateOfPurchase == old(dateOfPurchase)
    {
      if numberOfItems > MinItems {
        numberOfItems := numberOfItems - 1;
      }
    }

    /** The category picker selects any case. */
    method SetCategory(c: Category)
      requires Valid()
      modifies this
      ensures Valid()
      ensures category == c
      ensures productName == old(productName) && numberOfItems == old(numberOfItems)
      ensures price == old(price) && dateOfPurchase == old(dateOfPurchase)
    {
      category := c;
    }

    /** The price text field stores the parsed amount; no sign check is made. */
    method SetPrice(amount: real)
      requires Valid()
      modifies this
      ensures Valid()
      ensures price == amount
      ensures productName == old(productName) && numberOfItems == old(numberOfItems)
      ensures category == old(category) && dateOfPurchase == old(dateOfPurchase)
    {
      price := amount;
    }

    /**
     * A tap on Save. While the name is empty the button is disabled and
     * nothing is sent (None). Otherwise the record handed to `onTapSave`
     * copies the form fields and is stamped with `now`, the clock at the tap.
     */
    method TapSave(now: Date) returns (sent: Option<PurchaseItem>)
      requires Valid()
      ensures sent.Some? <==> productName != []
      ensures sent.Some? ==> sent.value.name == productName && sent.value.numberOfItems == numberOfItems
      ensures sent.Some? ==> sent.value.price == price && sent.value.category == category
      ensures sent.Some? ==> sent.value.dateOfPurchase == now
      ensures sent.Some? ==> IsSaveable(sent.value)
    {
      if SaveEnabled() {
        sent := Some(PurchaseItem(productName, numberOfItems, price, category, now));
      } else {
        sent := None;
      }
    }
  }
}
