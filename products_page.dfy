/** The catalogue page `src/pages/products/index.js`: the normalisation of
    the two response shapes the listing endpoint has used, the page and
    category handlers (the page never drops below 1) and which of the
    loading, error, empty and grid views is shown. */
module ProductsPage {
  import opened Common
  import opened Text

  /** A product of the grid, passed through untouched. */
  datatype ListedProduct = ListedProduct(id: string, name: string)

  /** The listing body: the older bare array, or the paged object whose
      `products` and `total` may be missing; `totalPages` is 0 when missing
      (falsy either way). */
  datatype ListingBody =
    | ArrayBody(items: seq<ListedProduct>)
    | ObjectBody(products: Option<seq<ListedProduct>>, total: Option<int>, totalPages: int)

  /** What the request produced; `message` is `err.message`. */
  datatype Fetch = Received(body: ListingBody) | FetchFailed(message: string)

  /** `products`, `total` and `totalPages` after a successful load. */
  datatype Listing = Listing(products: seq<ListedProduct>, total: int, totalPages: int)

  datatype ProductCall =
    | GetAllProducts(page: int, limit: int)
    | GetProductsByCategory(category: string, page: int, limit: int)

  const PageSize := 12
  const LoadError := "Erro inesperado ao carregar produtos"

  /** The response normalisation inside `loadProducts`. */
  function NormalizeListing(body: ListingBody): (r: Listing)
    ensures body.ArrayBody? ==> r == Listing(body.items, |body.items|, 1)
    ensures body.ObjectBody? ==> r.products == body.products.GetOr([])
    ensures body.ObjectBody? && body.total.Some? ==> r.total == body.total.value
    ensures body.ObjectBody? && body.total.None? ==> r.total == |r.products|
    ensures body.ObjectBody? ==> r.totalPages == (if body.totalPages != 0 then body.totalPages else 1)
    ensures r.totalPages != 0
  {
    match body
    case ArrayBody(items) => Listing(items, |items|, 1)
    case ObjectBody(products, total, totalPages) =>
      var ps := products.GetOr([]);
      Listing(ps, if total.Some? then total.value else |ps|, if totalPages != 0 then totalPages else 1)
  }

  /** The old array shape reads exactly as the object shape with only its
      `products` field present. */
  lemma ArrayIsObjectWithDefaults(items: seq<ListedProduct>)
    ensures NormalizeListing(ArrayBody(items)) == NormalizeListing(ObjectBody(Some(items), None, 0))
  {
  }

  /** An object without products lists nothing, whatever its other fields. */
  lemma MissingProductsListNothing(total: Option<int>, totalPages: int)
    ensures NormalizeListing(ObjectBody(None, total, totalPages)).products == []
    ensures total.None? ==> NormalizeListing(ObjectBody(None, total, totalPages)).total == 0
  {
  }

  /** The request `loadProducts` makes for a page and a category (`null`
      and the empty id both mean all categories). */
  function LoadCall(page: int, category: Option<string>): (c: ProductCall)
    ensures category.Some? && category.value != "" ==> c == GetProductsByCategory(category.value, page, PageSize)
    ensures category.None? || category.value == "" ==> c == GetAllProducts(page, PageSize)
  {
    if category.Some? && category.value != "" then GetProductsByCategory(category.value, page, PageSize)
    else GetAllProducts(page, PageSize)
  }

  /** Which block of the page is rendered. */
  datatype View = Loading | ErrorView(message: string) | EmptyView | Grid(products: seq<ListedProduct>)

  /** The page's state cells. */
  class CatalogPage {
    var products: seq<ListedProduct>
    var selectedCategory: Option<string>
    var loading: bool
    var error: Option<string>
    var page: int
    var total: int
    var totalPages: int

    ghost predicate Valid()
      reads this
    {
      page >= 1
    }

    constructor ()
      ensures Valid() && products == [] && selectedCategory == None && loading && error == None
      ensures page == 1 && total == 0 && totalPages == 1
    {
      products, selectedCategory, loading, error := [], None, true, None;
      page, total, totalPages := 1, 0, 1;
    }

    /** `loadProducts(page, selectedCategory)`, as the effect runs it
        whenever the page or the category changes. On failure the previous
        listing stays and the error message is shown. */
    method LoadProducts(outcome: Fetch) returns (call: ProductCall)
      requires Valid()
      modifies this
      ensures Valid() && !loading
      ensures call == LoadCall(page, selectedCategory)
      ensures outcome.Received? ==> error == None
      ensures outcome.Received? ==> Listing(products, total, totalPages) == NormalizeListing(outcome.body)
      ensures outcome.FetchFailed? ==> error == Some(OrElse(outcome.message, LoadError))
      ensures outcome.FetchFailed? ==> products == old(products) && total == old(total) && totalPages == old(totalPages)
      ensures page == old(page) && selectedCategory == old(selectedCategory)
    {
      loading := true;
      error := None;
      if selectedCategory.Some? && selectedCategory.value != "" {
        call := GetProductsByCategory(selectedCategory.value, page, PageSize);
      } else {
        call := GetAllProducts(page, PageSize);
      }
      match outcome {
        case Received(body) =>
          match body {
            case ArrayBody(items) =>
              products := items;
              total := |items|;
              totalPages := 1;
            case ObjectBody(ps, t, tp) =>
              products := ps.GetOr([]);
              total := if t.Some? then t.value else (if ps.Some? then |ps.value| else 0);
              totalPages := if tp != 0 then tp else 1;
          }
        case FetchFailed(message) =>
          error := Some(OrElse(message, LoadError));
      }
      loading := false;
    }

    /** `handleSelectCategory`. */
    method HandleSelectCategory(categoryId: string)
      requires Valid()
      modifies this
      ensures Valid() && page == 1 && selectedCategory == Some(categoryId)
      ensures products == old(products) && loading == old(loading) && error == old(error)
      ensures total == old(total) && totalPages == old(totalPages)
    {
      page := 1;
      selectedCategory := Some(categoryId);
    }

    /** `handleClearCategory`. */
    method HandleClearCategory()
      requires Valid()
      modifies this
      ensures Valid() && page == 1 && selectedCategory == None
      ensures products == old(products) && loading == old(loading) && error == old(error)
      ensures total == old(total) && totalPages == old(totalPages)
    {
      page := 1;
      selectedCategory := None;
    }

    /** The "Próxima" button is enabled. */
    predicate NextEnabled()
      reads this
    {
      !loading && page < totalPages
    }

    /** The "Anterior" button is enabled. */
    predicate PrevEnabled()
      reads this
    {
      page != 1 && !loading
    }

    /** `handleNextPage`. Reached through an enabled button, it stays within
        the known pages. */
    method HandleNextPage()
      requires Valid()
      modifies this
      ensures Valid() && page == old(page) + 1
      ensures old(NextEnabled()) ==> page <= totalPages
      ensures products == old(products) && selectedCategory == old(selectedCategory) && loading == old(loading)
      ensures error == old(error) && total == old(total) && totalPages == old(totalPages)
    {
      page := page + 1;
    }

    /** `handlePrevPage`: `Math.max(1, p - 1)`. */
    method HandlePrevPage()
      requires Valid()
      modifies this
      ensures Valid() && page == (if old(page) - 1 >= 1 then old(page) - 1 else 1)
      ensures old(page) == 1 ==> page == 1
      ensures products == old(products) && selectedCategory == old(selectedCategory) && loading == old(loading)
      ensures error == old(error) && total == old(total) && totalPages == old(totalPages)
    {
      page := if 1 >= page - 1 then 1 else page - 1;
    }

    /** The block the page renders: loading first, then the error, then the
        empty notice or the grid. */
    function CurrentView(): (v: View)
      reads this
      ensures loading <==> v == Loading
      ensures v.ErrorView? <==> !loading && error.Some? && error.value != ""
      ensures v.Grid? ==> v.products == products && products != []
      ensures v.EmptyView? ==> products == [] && !loading
    {
      if loading then Loading
      else if error.Some? && error.value != "" then ErrorView(error.value)
      else if products == [] then EmptyView
      else Grid(products)
    }
  }
}
