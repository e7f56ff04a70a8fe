/**
 * The category catalogue of `app/data/categories.js`: eleven income and
 * twenty expense categories, and the id-to-colour map folded from it.
 */
module Categories {
  import opened Wrappers

  datatype CategoryType = IncomeCategory | ExpenseCategory

  datatype Category = Category(
    id: string, name: string, categoryType: CategoryType, color: string, icon: string,
    subcategories: Option<seq<string>>)

  /** `defaultCategories`, in table order. */
  function DefaultCategories(): (r: seq<Category>)
    ensures |r| == 31
  {
    [
      Category("salary", "Salary", IncomeCategory, "#22c55e", "Wallet", None),
      Category("freelance", "Freelance", IncomeCategory, "#06b6d4", "Laptop", None),
      Category("investments", "Investments", IncomeCategory, "#6366f1", "TrendingUp", None),
      Category("business", "Business", IncomeCategory, "#ec4899", "Building", None),
      Category("rental", "Rental", IncomeCategory, "#f59e0b", "Home", None),
      Category("other-income", "Other Income", IncomeCategory, "#64748b", "Plus", None),
      Category("royalties", "Royalties", IncomeCategory, "#10b981", "Gem", None),
      Category("dividends", "Dividends", IncomeCategory, "#0ea5e9", "DollarSign", None),
      Category("grants", "Grants", IncomeCategory, "#c084fc", "BookOpen", None),
      Category("refunds", "Refunds", IncomeCategory, "#facc15", "Undo", None),
      Category("bonus", "Bonus", IncomeCategory, "#f43f5e", "Star", None),
      Category("housing", "Housing", ExpenseCategory, "#ef4444", "Home", Some(["Rent", "Mortgage", "Property Tax", "Maintenance"])),
      Category("transportation", "Transportation", ExpenseCategory, "#f97316", "Car", Some(["Fuel", "Public Transport", "Maintenance", "Parking"])),
      Category("groceries", "Groceries", ExpenseCategory, "#84cc16", "Shopping", None),
      Category("utilities", "Utilities", ExpenseCategory, "#06b6d4", "Zap", Some(["Electricity", "Water", "Gas", "Internet", "Phone"])),
      Category("entertainment", "Entertainment", ExpenseCategory, "#8b5cf6", "Film", Some(["Movies", "Games", "Streaming Services"])),
      Category("food", "Food", ExpenseCategory, "#f43f5e", "UtensilsCrossed", None),
      Category("shopping", "Shopping", ExpenseCategory, "#ec4899", "ShoppingBag", Some(["Clothing", "Electronics", "Home Goods"])),
      Category("healthcare", "Healthcare", ExpenseCategory, "#14b8a6", "HeartPulse", Some(["Medical", "Dental", "Pharmacy", "Insurance"])),
      Category("education", "Education", ExpenseCategory, "#6366f1", "GraduationCap", Some(["Tuition", "Books", "Courses"])),
      Category("personal", "Personal Care", ExpenseCategory, "#d946ef", "Smile", Some(["Haircut", "Gym", "Beauty"])),
      Category("travel", "Travel", ExpenseCategory, "#0ea5e9", "Plane", None),
      Category("insurance", "Insurance", ExpenseCategory, "#64748b", "Shield", Some(["Life", "Home", "Vehicle"])),
      Category("gifts", "Gifts & Donations", ExpenseCategory, "#f472b6", "Gift", None),
      Category("bills", "Bills & Fees", ExpenseCategory, "#fb7185", "Receipt", Some(["Bank Fees", "Late Fees", "Service Charges"])),
      Category("subscriptions", "Subscriptions", ExpenseCategory, "#22d3ee", "Repeat", Some(["Netflix", "Spotify", "Cloud Storage"])),
      Category("pets", "Pets", ExpenseCategory, "#fbbf24", "Dog", Some(["Food", "Vet", "Toys"])),
      Category("taxes", "Taxes", ExpenseCategory, "#f87171", "FileText", Some(["Income Tax", "GST", "Other Taxes"])),
      Category("events", "Events", ExpenseCategory, "#a855f7", "Calendar", Some(["Weddings", "Parties", "Ceremonies"])),
      Category("tools", "Tools & Software", ExpenseCategory, "#0f766e", "Wrench", Some(["SaaS", "Dev Tools", "Licenses"])),
      Category("other-expense", "Other Expenses", ExpenseCategory, "#94a3b8", "MoreHorizontal", None)
    ]
  }

  // ---------------------------------------------------------------------
  // categoryColors

  /** The `reduce` that builds `categoryColors`: each entry writes its colour under its id. */
  function ColorsOf(table: seq<Category>): map<string, string>
    decreases |table|
  {
    if table == [] then map[]
    else
      var last := table[|table| - 1];
      ColorsOf(table[..|table| - 1])[last.id := last.color]
  }

  /** The fold, step by step over the table. */
  method BuildCategoryColors(table: seq<Category>) returns (colors: map<string, string>)
    ensures colors == ColorsOf(table)
  {
    colors := map[];
    var i := 0;
    while i < |table|
      invariant 0 <= i <= |table|
      invariant colors == ColorsOf(table[..i])
    {
      assert table[..i + 1][..i] == table[..i];
      colors := colors[table[i].id := table[i].color];
      i := i + 1;
    }
    assert table[..i] == table;
  }

  /**
   * The keys of the fold are exactly the ids, and each id maps to the
   * colour of the LAST entry carrying it.
   */
  lemma {:induction false} ColorsOfLookup(table: seq<Category>, id: string)
    ensures id in ColorsOf(table) <==> exists i :: 0 <= i < |table| && table[i].id == id
    ensures id in ColorsOf(table) ==>
      exists i :: 0 <= i < |table| && table[i].id == id && ColorsOf(table)[id] == table[i].color &&
        forall j :: i < j < |table| ==> table[j].id != id
    decreases |table|
  {
    if table != [] {
      var n := |table| - 1;
      var init := table[..n];
      ColorsOfLookup(init, id);
      if table[n].id == id {
      } else if id in ColorsOf(init) {
        var i :| 0 <= i < |init| && init[i].id == id && ColorsOf(init)[id] == init[i].color &&
          forall j :: i < j < |init| ==> init[j].id != id;
        assert table[i] == init[i];
        assert forall j :: i < j < |table| ==> table[j].id != id by {
          forall j | i < j < |table|
            ensures table[j].id != id
          {
            if j < n {
              assert table[j] == init[j];
            }
          }
        }
      } else {
        forall i | 0 <= i < |table|
          ensures table[i].id != id
        {
          if i < n {
            assert table[i] == init[i];
          }
        }
      }
    }
  }

  predicate DistinctIds(table: seq<Category>) {
    forall i, j :: 0 <= i < j < |table| ==> table[i].id != table[j].id
  }

  /** With distinct ids, every entry's own colour is what the map gives for its id. */
  lemma ColorsOfDistinct(table: seq<Category>, i: nat)
    requires DistinctIds(table) && i < |table|
    ensures table[i].id in ColorsOf(table) && ColorsOf(table)[table[i].id] == table[i].color
  {
    ColorsOfLookup(table, table[i].id);
    var k :| 0 <= k < |table| && table[k].id == table[i].id && ColorsOf(table)[table[i].id] == table[k].color &&
      forall j :: k < j < |table| ==> table[j].id != table[i].id;
    assert k == i;
  }

  /** A repeated id takes the colour of its later entry. */
  lemma LaterEntryWins(a: Category, b: Category)
    requires a.id == b.id
    ensures ColorsOf([a, b]) == map[a.id := b.color]
  {
    assert [a, b][..1] == [a];
    assert [a][..0] == [];
    assert ColorsOf([a]) == map[a.id := a.color];
  }

  // ---------------------------------------------------------------------
  // Properties of the default table

  function Ids(table: seq<Category>): (r: seq<string>)
    ensures |r| == |table|
    ensures forall i :: 0 <= i < |table| ==> r[i] == table[i].id
  {
    seq(|table|, i requires 0 <= i < |table| => table[i].id)
  }

  /** The ids of the default table, income first. */
  const DefaultIdList: seq<string> := [
    "salary", "freelance", "investments", "business", "rental", "other-income", "royalties",
    "dividends", "grants", "refunds", "bonus",
    "housing", "transportation", "groceries", "utilities", "entertainment", "food", "shopping",
    "healthcare", "education", "personal", "travel", "insurance", "gifts", "bills",
    "subscriptions", "pets", "taxes", "events", "tools", "other-expense"]

  lemma DefaultIds()
    ensures Ids(DefaultCategories()) == DefaultIdList
  {
  }

  /**
   * A number that tells the default ids apart: their length with their
   * first two characters. It is only a proof device for `DefaultIdsDistinct`
   * and has no counterpart in the category table.
   */
  function IdKey(id: string): int
    requires |id| >= 2
  {
    |id| * 1000000 + id[0] as int * 1000 + id[1] as int
  }

  /** The keys of the default ids, in table order. */
  function DefaultIdKeys(): seq<int> {
    [6115097, 9102114, 11105110, 8098117, 6114101, 12111116, 9114111, 9100105, 6103114, 7114101,
     5098111, 7104111, 14116114, 9103114, 9117116, 13101110, 4102111, 8115104, 10104101, 9101100,
     8112101, 6116114, 9105110, 5103105, 5098105, 13115117, 4112101, 5116097, 6101118, 5116111,
     13111116]
  }

  lemma IncomeIdKeys()
    ensures forall i :: 0 <= i < 11 ==> |DefaultIdList[i]| >= 2 && IdKey(DefaultIdList[i]) == DefaultIdKeys()[i]
  {
  }

  lemma ExpenseIdKeys()
    ensures forall i :: 11 <= i < 21 ==> |DefaultIdList[i]| >= 2 && IdKey(DefaultIdList[i]) == DefaultIdKeys()[i]
  {
  }

  lemma MoreExpenseIdKeys()
    ensures forall i :: 21 <= i < 31 ==> |DefaultIdList[i]| >= 2 && IdKey(DefaultIdList[i]) == DefaultIdKeys()[i]
  {
  }

  lemma DefaultIdKeysMatch()
    ensures forall i :: 0 <= i < 31 ==>
      |DefaultCategories()[i].id| >= 2 && IdKey(DefaultCategories()[i].id) == DefaultIdKeys()[i]
  {
    DefaultIds();
    IncomeIdKeys();
    ExpenseIdKeys();
    MoreExpenseIdKeys();
    var ids := Ids(DefaultCategories());
    assert forall i :: 0 <= i < 31 ==> DefaultCategories()[i].id == DefaultIdList[i];
  }

  /** Entries whose keys differ have different ids. */
  lemma DistinctByKeys(table: seq<Category>, keys: seq<int>)
    requires |keys| == |table|
    requires forall i :: 0 <= i < |table| ==> |table[i].id| >= 2 && IdKey(table[i].id) == keys[i]
    requires forall i, j :: 0 <= i < j < |keys| ==> keys[i] != keys[j]
    ensures DistinctIds(table)
  {
    forall i, j | 0 <= i < j < |table|
      ensures table[i].id != table[j].id
    {
      assert IdKey(table[i].id) != IdKey(table[j].id);
    }
  }

  lemma EarlyIdKeysDistinct()
    ensures forall i, j :: 0 <= i < 16 && i < j < 31 ==> DefaultIdKeys()[i] != DefaultIdKeys()[j]
  {
  }

  lemma LateIdKeysDistinct()
    ensures forall i, j :: 16 <= i < j < 31 ==> DefaultIdKeys()[i] != DefaultIdKeys()[j]
  {
  }

  lemma DefaultIdKeysDistinct()
    ensures forall i, j :: 0 <= i < j < |DefaultIdKeys()| ==> DefaultIdKeys()[i] != DefaultIdKeys()[j]
  {
    EarlyIdKeysDistinct();
    LateIdKeysDistinct();
  }

  /** No id occurs twice in the default table. */
  lemma DefaultIdsDistinct()
    ensures DistinctIds(DefaultCategories())
  {
    DefaultIdKeysMatch();
    DefaultIdKeysDistinct();
    DistinctByKeys(DefaultCategories(), DefaultIdKeys());
  }

  /** The first eleven entries are INCOME and the other twenty EXPENSE. */
  lemma IncomeThenExpense()
    ensures forall i :: 0 <= i < 11 ==> DefaultCategories()[i].categoryType == IncomeCategory
    ensures forall i :: 11 <= i < 31 ==> DefaultCategories()[i].categoryType == ExpenseCategory
  {
  }

  /** Only expense entries carry subcategories. */
  lemma SubcategoriesOnlyOnExpense()
    ensures forall i :: 0 <= i < 31 && DefaultCategories()[i].subcategories.Some? ==>
      DefaultCategories()[i].categoryType == ExpenseCategory
  {
  }

  /** `categoryColors`: every category's own colour under its id, and no other key. */
  lemma DefaultColors()
    ensures forall i :: 0 <= i < 31 ==>
      DefaultCategories()[i].id in ColorsOf(DefaultCategories()) &&
      ColorsOf(DefaultCategories())[DefaultCategories()[i].id] == DefaultCategories()[i].color
    ensures forall id :: id in ColorsOf(DefaultCategories()) ==> id in Ids(DefaultCategories())
  {
    DefaultIdsDistinct();
    forall i | 0 <= i < 31
      ensures DefaultCategories()[i].id in ColorsOf(DefaultCategories()) &&
        ColorsOf(DefaultCategories())[DefaultCategories()[i].id] == DefaultCategories()[i].color
    {
      ColorsOfDistinct(DefaultCategories(), i);
    }
    forall id | id in ColorsOf(DefaultCategories())
      ensures id in Ids(DefaultCategories())
    {
      ColorsOfLookup(DefaultCategories(), id);
    }
  }

  /** Whether `id` names an expense category of the table. */
  predicate IsExpenseId(table: seq<Category>, id: string) {
    exists i :: 0 <= i < |table| && table[i].id == id && table[i].categoryType == ExpenseCategory
  }
}
