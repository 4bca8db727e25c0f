/** The shop page (app/shop/page.tsx): the admin bounce, the loading gate,
    the product and category fetch handlers, and the category filter with
    its result count. */
module Shop {
  import opened Wrappers
  import opened Auth

  /** A product row, reduced to what the page reads. */
  datatype Product = Product(id: string, name: string, category: string, price: real)

  datatype CategoryRow = CategoryRow(id: string, name: string)

  /** The gateway's answer to the products query. */
  datatype ProductsAnswer = ProductsOk(data: Option<seq<Product>>) | ProductsFailed

  /** The categories query: its data (the error is not read), or a throw. */
  datatype CategoriesAnswer = CategoriesOk(data: Option<seq<CategoryRow>>) | CategoriesThrown

  /** What the page renders. */
  datatype ShopView =
    | LoadingView
    | Listing(title: string, shown: seq<Product>, resultCount: int, emptyMessage: bool)

  /** The page's auth effect: an admin, once auth has loaded, is sent to `/admin`. */
  function AdminRedirect(loading: bool, profile: Option<Profile>): (r: Option<string>)
    ensures r.Some? <==> !loading && profile.Some? && profile.value.role == "admin"
    ensures r.Some? ==> r.value == "/admin"
  {
    if !loading && profile.Some? && profile.value.role == "admin" then Some("/admin") else None
  }

  /** `a` is `b` with some elements left out, the rest in their order. */
  predicate IsSubsequence(a: seq<Product>, b: seq<Product>)
  {
    if a == [] then true
    else if b == [] then false
    else if a[0] == b[0] then IsSubsequence(a[1..], b[1..])
    else IsSubsequence(a, b[1..])
  }

  /** `products.filter(p => p.category === category)`: the products of that
      category, each as often as in the input, in their original order. */
  function OfCategory(products: seq<Product>, category: string): (r: seq<Product>)
    ensures forall p :: p in r ==> p.category == category
    ensures forall p: Product :: p.category == category ==> multiset(r)[p] == multiset(products)[p]
    ensures IsSubsequence(r, products)
  {
    if products == [] then []
    else
      assert products == [products[0]] + products[1..];
      var rest := OfCategory(products[1..], category);
      if products[0].category == category then
        [products[0]] + rest
      else
        assert rest != [] ==> rest[0] in rest && rest[0] != products[0];
        rest
  }

  /** `filteredProducts`: all products while no category (or the empty
      name) is selected, otherwise exactly those of the selected category. */
  function Filter(products: seq<Product>, selected: Option<string>): (r: seq<Product>)
    ensures selected.None? || selected.value == "" ==> r == products
    ensures selected.Some? && selected.value != "" ==>
      && (forall p :: p in r ==> p.category == selected.value)
      && (forall p: Product :: p.category == selected.value ==> multiset(r)[p] == multiset(products)[p])
      && IsSubsequence(r, products)
  {
    if selected.Some? && selected.value != "" then OfCategory(products, selected.value) else products
  }

  /** The page's render: the loading view while auth or products are
      loading; otherwise the filtered products under the selected category
      (or "All Products"), a count equal to their number, and the empty
      message exactly when that count is zero. */
  function ViewOf(authLoading: bool, loadingProducts: bool, products: seq<Product>,
                  selected: Option<string>): (v: ShopView)
    ensures v.LoadingView? <==> authLoading || loadingProducts
    ensures v.Listing? ==>
      && v.shown == Filter(products, selected)
      && v.resultCount == |v.shown|
      && (v.emptyMessage <==> v.resultCount == 0)
      && v.title == (if selected.Some? && selected.value != "" then selected.value else "All Products")
  {
    if authLoading || loadingProducts then LoadingView
    else
      var shown := Filter(products, selected);
      Listing(if selected.Some? && selected.value != "" then selected.value else "All Products",
              shown, |shown|, |shown| == 0)
  }

  class ShopPage {
    var products: seq<Product>
    var categories: seq<CategoryRow>
    var loadingProducts: bool
    var selectedCategory: Option<string>

    constructor ()
      ensures products == [] && categories == [] && loadingProducts && selectedCategory == None
    {
      products, categories, loadingProducts, selectedCategory := [], [], true, None;
    }

    /** `fetchProducts`: the returned rows (none when there is no data); a
        failed query leaves the products as they were. Loading ends either way. */
    method FetchProducts(answer: ProductsAnswer)
      modifies this`products, this`loadingProducts
      ensures !loadingProducts
      ensures products == (if answer.ProductsOk? then answer.data.GetOr([]) else old(products))
    {
      if answer.ProductsOk? {
        products := answer.data.GetOr([]);
      }
      loadingProducts := false;
    }

    /** `fetchCategories`: the returned rows when there is at least one,
        otherwise none; a throw leaves the categories as they were. */
    method FetchCategories(answer: CategoriesAnswer)
      modifies this`categories
      ensures answer.CategoriesOk? && answer.data.Some? && |answer.data.value| > 0 ==>
        categories == answer.data.value
      ensures answer.CategoriesOk? && (answer.data.None? || |answer.data.value| == 0) ==> categories == []
      ensures answer.CategoriesThrown? ==> categories == old(categories)
    {
      if answer.CategoriesOk? {
        if answer.data.Some? && |answer.data.value| > 0 {
          categories := answer.data.value;
        } else {
          categories := [];
        }
      }
    }

    /** A category button, or "All Products" with `None`. */
    method SelectCategory(category: Option<string>)
      modifies this`selectedCategory
      ensures selectedCategory == category
    {
      selectedCategory := category;
    }

    function View(authLoading: bool): ShopView
      reads this
    {
      ViewOf(authLoading, loadingProducts, products, selectedCategory)
    }
  }
}
