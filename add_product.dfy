/** The add-product page (app/admin/products/add/page.tsx): the category
    list it keeps sorted and duplicate-free as categories are added, the
    add-category mode, and the defaults every new product row gets. */
module AddProduct {
  import opened Wrappers
  import JsString
  import StringSort

  /** The PostgreSQL SQLSTATE for unique_violation: the category exists already. */
  const UniqueViolation := "23505"
  const NewCategoryOption := "NEW"
  const PlaceholderImage := "/placeholder.svg"
  const DefaultStock := 100

  /** A row of the categories query, which selects only `name`. */
  datatype CategoryRow = CategoryRow(name: string)

  /** The gateway's answer to the category insert. */
  datatype CategoryInsertAnswer = Inserted | InsertFailed(code: string, message: string)

  /** The row the product form inserts. */
  datatype NewProduct = NewProduct(name: string, price: real, category: string, description: string,
                                   stock: int, image: string, popular: bool)

  /** Every string occurs at most once. */
  ghost predicate NoDuplicates(s: seq<string>)
  {
    forall c :: multiset(s)[c] <= 1
  }

  /** `prev.filter(c => c !== name)`: every occurrence of `name` removed,
      every other entry kept as often as it was. */
  function Without(prev: seq<string>, name: string): (r: seq<string>)
    ensures name !in r
    ensures forall c :: c != name ==> multiset(r)[c] == multiset(prev)[c]
  {
    if prev == [] then []
    else
      assert prev == [prev[0]] + prev[1..];
      if prev[0] == name then Without(prev[1..], name)
      else [prev[0]] + Without(prev[1..], name)
  }

  /** `[...prev.filter(c => c !== name), name].sort()`: a sorted list that
      holds `name` exactly once and every other previous entry as often as
      before, so a duplicate-free list stays duplicate-free. */
  function WithCategory(prev: seq<string>, name: string): (r: seq<string>)
    ensures StringSort.Sorted(r)
    ensures multiset(r)[name] == 1
    ensures forall c :: c != name ==> multiset(r)[c] == multiset(prev)[c]
    ensures NoDuplicates(prev) ==> NoDuplicates(r)
  {
    var w := Without(prev, name);
    assert multiset(w)[name] == 0;
    StringSort.Sort(w + [name])
  }

  /** Whatever algorithm the engine sorts with, its output is this one. */
  lemma AnySortAgrees(prev: seq<string>, name: string, sorted: seq<string>)
    requires StringSort.Sorted(sorted)
    requires multiset(sorted) == multiset(Without(prev, name) + [name])
    ensures sorted == WithCategory(prev, name)
  {
    StringSort.SortedUnique(sorted, WithCategory(prev, name));
  }

  /** Adding the same name twice gives the same list as adding it once. */
  lemma WithCategoryIdempotent(prev: seq<string>, name: string)
    ensures WithCategory(WithCategory(prev, name), name) == WithCategory(prev, name)
  {
    var once := WithCategory(prev, name);
    var twice := WithCategory(once, name);
    assert multiset(twice) == multiset(once) by {
      forall c ensures multiset(twice)[c] == multiset(once)[c] {
      }
    }
    StringSort.SortedUnique(twice, once);
  }

  /** `data.map(c => c.name)`: the names in the order returned. */
  function Names(rows: seq<CategoryRow>): (r: seq<string>)
    ensures |r| == |rows|
    ensures forall i :: 0 <= i < |rows| ==> r[i] == rows[i].name
  {
    if rows == [] then [] else [rows[0].name] + Names(rows[1..])
  }

  /** The row `handleSubmit` inserts: the form's four values, with stock
      100, the placeholder image and `popular` false whatever was entered. */
  function BuildNewProduct(name: string, price: real, category: string, description: string): (r: NewProduct)
    ensures r.name == name && r.price == price && r.category == category && r.description == description
    ensures r.stock == DefaultStock && r.image == PlaceholderImage && !r.popular
  {
    NewProduct(name, price, category, description, DefaultStock, PlaceholderImage, false)
  }

  /** An insert answer the page treats as success: no error, or the
      unique-violation error of a category that exists already. */
  predicate Tolerated(answer: CategoryInsertAnswer): (b: bool)
    ensures answer.Inserted? ==> b
    ensures answer.InsertFailed? ==> (b <==> answer.code == UniqueViolation)
  {
    answer.Inserted? || answer.code == UniqueViolation
  }

  class AddProductPage {
    var categories: seq<string>
    var newCategory: string
    var isAddingCategory: bool
    /** The value of the category `<select>`. */
    var selectValue: string

    constructor ()
      ensures categories == [] && newCategory == "" && !isAddingCategory && selectValue == ""
    {
      categories, newCategory, isAddingCategory, selectValue := [], "", false, "";
    }

    /** `fetchCategories`: the names in the order returned, or none when
        the query gives no data. */
    method FetchCategories(data: Option<seq<CategoryRow>>)
      modifies this`categories
      ensures categories == (if data.Some? then Names(data.value) else [])
    {
      if data.Some? {
        categories := Names(data.value);
      } else {
        categories := [];
      }
    }

    /** Typing in the new-category input. */
    method TypeNewCategory(value: string)
      modifies this`newCategory
      ensures newCategory == value
    {
      newCategory := value;
    }

    /** The select's change handler: choosing "+ Add New Category" enters
        add-category mode and resets the select to the empty choice. */
    method SelectCategory(value: string)
      modifies this`isAddingCategory, this`selectValue
      ensures value == NewCategoryOption ==> isAddingCategory && selectValue == ""
      ensures value != NewCategoryOption ==> isAddingCategory == old(isAddingCategory) && selectValue == value
    {
      selectValue := value;
      if value == NewCategoryOption {
        isAddingCategory := true;
        selectValue := "";
      }
    }

    /** The Cancel button of add-category mode. */
    method CancelAddCategory()
      modifies this`isAddingCategory
      ensures !isAddingCategory
    {
      isAddingCategory := false;
    }

    /** `handleAddCategory`. A name that is blank once trimmed does nothing
        and inserts nothing. Otherwise the trimmed name is inserted; when the
        answer is tolerated the list gains the name (sorted, once), the mode
        ends and the input is cleared; any other error leaves list, mode and
        input as they were and alerts with its message. */
    method HandleAddCategory(answer: CategoryInsertAnswer) returns (inserted: Option<string>, alert: Option<string>)
      modifies this`categories, this`isAddingCategory, this`newCategory
      ensures JsString.IsBlank(old(newCategory)) ==>
        && inserted == None && alert == None
        && categories == old(categories) && isAddingCategory == old(isAddingCategory)
        && newCategory == old(newCategory)
      ensures !JsString.IsBlank(old(newCategory)) ==> inserted == Some(JsString.Trim(old(newCategory)))
      ensures !JsString.IsBlank(old(newCategory)) && Tolerated(answer) ==>
        && categories == WithCategory(old(categories), JsString.Trim(old(newCategory)))
        && !isAddingCategory && newCategory == "" && alert == None
      ensures !JsString.IsBlank(old(newCategory)) && !Tolerated(answer) ==>
        && categories == old(categories) && isAddingCategory == old(isAddingCategory)
        && newCategory == old(newCategory)
        && alert == Some("Error adding category: " + answer.message)
    {
      inserted, alert := None, None;
      if JsString.IsBlank(newCategory) {
        return;
      }
      var name := JsString.Trim(newCategory);
      inserted := Some(name);
      if !Tolerated(answer) {
        alert := Some("Error adding category: " + answer.message);
        return;
      }
      categories := WithCategory(categories, name);
      isAddingCategory := false;
      newCategory := "";
    }
  }
}
