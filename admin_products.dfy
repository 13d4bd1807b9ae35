/** The in-memory product table of the admin page
    `src/pages/admin/Products/index.js`: the search-and-category filter,
    toggling a product's `active` flag, deleting, and the form submission
    that either rewrites the product being edited or appends a new one with
    a fresh id. Ids stay unique throughout. */
module AdminProducts {
  import opened Common
  import opened Text

  /** A product row. Prices are integer cents. */
  datatype AdminProduct = AdminProduct(
    id: int,
    name: string,
    description: string,
    price: int,
    category: string,
    stock: int,
    image: string,
    active: bool)

  /** The form's field values as typed (price and stock are text). */
  datatype ProductForm = ProductForm(
    name: string,
    description: string,
    price: string,
    category: string,
    stock: string,
    image: string,
    active: bool)

  const PlaceholderImage := "https://via.placeholder.com/100x100"

  /** No two rows share an id. */
  predicate UniqueIds(ps: seq<AdminProduct>) {
    forall i, j :: 0 <= i < |ps| && 0 <= j < |ps| && ps[i].id == ps[j].id ==> i == j
  }

  predicate HasId(ps: seq<AdminProduct>, id: int) {
    exists i :: 0 <= i < |ps| && ps[i].id == id
  }

  // ------------------------------------------------------------ filter

  /** One row passes when its name or description contains the search term,
      ignoring case, and no category is selected or the row is in it. */
  predicate ProductMatches(p: AdminProduct, searchTerm: string, selectedCategory: string) {
    var term := ToLower(searchTerm);
    (Contains(ToLower(p.name), term) || Contains(ToLower(p.description), term))
    && (selectedCategory == "" || p.category == selectedCategory)
  }

  /** The callback of `products.filter(...)` in `filteredProducts`. */
  function Matching(searchTerm: string, selectedCategory: string): AdminProduct -> bool {
    (p: AdminProduct) => ProductMatches(p, searchTerm, selectedCategory)
  }

  /** `filteredProducts`: the matching rows, in order, each as often as it
      occurs in the table. */
  function FilterProducts(ps: seq<AdminProduct>, searchTerm: string, selectedCategory: string): (r: seq<AdminProduct>)
    ensures IsSubsequence(r, ps)
    ensures |r| == Count(Matching(searchTerm, selectedCategory), ps)
    ensures forall i :: 0 <= i < |r| ==> ProductMatches(r[i], searchTerm, selectedCategory)
    ensures forall i :: 0 <= i < |ps| && ProductMatches(ps[i], searchTerm, selectedCategory) ==> ps[i] in r
    ensures forall i :: 0 <= i < |r| ==> r[i] in ps
  {
    FilterLengthIsCount(Matching(searchTerm, selectedCategory), ps);
    Filter(Matching(searchTerm, selectedCategory), ps)
  }

  /** An empty search with no category selected shows every row. */
  lemma EmptyFilterShowsAll(ps: seq<AdminProduct>)
    ensures FilterProducts(ps, "", "") == ps
  {
    forall i | 0 <= i < |ps| ensures ProductMatches(ps[i], "", "") {
      ContainsEmpty(ToLower(ps[i].name));
    }
    FilterAll(Matching("", ""), ps);
  }

  // ------------------------------------------------------ toggle, delete

  /** `handleToggleActive`'s map. */
  function ToggleActive(ps: seq<AdminProduct>, id: int): (r: seq<AdminProduct>)
    ensures |r| == |ps|
    ensures forall i :: 0 <= i < |ps| && ps[i].id == id ==> r[i] == ps[i].(active := !ps[i].active)
    ensures forall i :: 0 <= i < |ps| && ps[i].id != id ==> r[i] == ps[i]
  {
    seq(|ps|, i requires 0 <= i < |ps| => if ps[i].id == id then ps[i].(active := !ps[i].active) else ps[i])
  }

  /** Toggling keeps every id, so it keeps them unique. */
  lemma ToggleKeepsIds(ps: seq<AdminProduct>, id: int)
    requires UniqueIds(ps)
    ensures UniqueIds(ToggleActive(ps, id))
    ensures forall i :: 0 <= i < |ps| ==> ToggleActive(ps, id)[i].id == ps[i].id
  {
  }

  /** Toggling twice restores the table. */
  lemma ToggleTwice(ps: seq<AdminProduct>, id: int)
    ensures ToggleActive(ToggleActive(ps, id), id) == ps
  {
  }

  /** The callback `p => p.id !== productId` of `handleDelete`. */
  function IdIsNot(id: int): AdminProduct -> bool {
    (p: AdminProduct) => p.id != id
  }

  /** `handleDelete`'s filter (after the user confirmed): every other row,
      in order, each as often as it occurs in the table. */
  function RemoveById(ps: seq<AdminProduct>, id: int): (r: seq<AdminProduct>)
    ensures IsSubsequence(r, ps)
    ensures |r| == Count(IdIsNot(id), ps)
    ensures !HasId(r, id)
    ensures forall i :: 0 <= i < |ps| && ps[i].id != id ==> ps[i] in r
    ensures forall i :: 0 <= i < |r| ==> r[i] in ps
  {
    FilterLengthIsCount(IdIsNot(id), ps);
    Filter(IdIsNot(id), ps)
  }

  /** A subsequence of a table with unique ids has unique ids. */
  lemma {:induction false} SubsequenceKeepsUniqueIds(a: seq<AdminProduct>, b: seq<AdminProduct>)
    requires IsSubsequence(a, b) && UniqueIds(b)
    ensures UniqueIds(a)
    decreases |b|
  {
    if a != [] && b != [] {
      assert UniqueIds(b[1..]) by {
        forall i, j | 0 <= i < |b[1..]| && 0 <= j < |b[1..]| && b[1..][i].id == b[1..][j].id ensures i == j {
          assert b[i + 1].id == b[j + 1].id;
        }
      }
      if a[0] == b[0] && IsSubsequence(a[1..], b[1..]) {
        SubsequenceKeepsUniqueIds(a[1..], b[1..]);
        SubsequenceElements(a[1..], b[1..]);
        forall m | 0 <= m < |a[1..]| ensures a[1..][m].id != a[0].id {
          var k :| 0 <= k < |b[1..]| && b[1..][k] == a[1..][m];
          assert b[k + 1].id == a[1..][m].id;
        }
        forall i, j | 0 <= i < |a| && 0 <= j < |a| && a[i].id == a[j].id ensures i == j {
          if i != 0 && j != 0 {
            assert a[1..][i - 1].id == a[1..][j - 1].id;
          }
        }
      } else {
        SubsequenceKeepsUniqueIds(a, b[1..]);
      }
    }
  }

  lemma {:induction false} SubsequenceElements<T>(a: seq<T>, b: seq<T>)
    requires IsSubsequence(a, b)
    ensures forall i :: 0 <= i < |a| ==> exists k :: 0 <= k < |b| && b[k] == a[i]
    decreases |b|
  {
    if a != [] {
      if a[0] == b[0] && IsSubsequence(a[1..], b[1..]) {
        SubsequenceElements(a[1..], b[1..]);
        forall i | 0 <= i < |a| ensures exists k :: 0 <= k < |b| && b[k] == a[i] {
          if i == 0 {
            assert b[0] == a[0];
          } else {
            var k :| 0 <= k < |b[1..]| && b[1..][k] == a[1..][i - 1];
            assert b[k + 1] == a[i];
          }
        }
      } else {
        SubsequenceElements(a, b[1..]);
        forall i | 0 <= i < |a| ensures exists k :: 0 <= k < |b| && b[k] == a[i] {
          var k :| 0 <= k < |b[1..]| && b[1..][k] == a[i];
          assert b[k + 1] == a[i];
        }
      }
    }
  }

  /** Deleting keeps ids unique. */
  lemma RemoveKeepsUniqueIds(ps: seq<AdminProduct>, id: int)
    requires UniqueIds(ps)
    ensures UniqueIds(RemoveById(ps, id))
  {
    SubsequenceKeepsUniqueIds(RemoveById(ps, id), ps);
  }

  // --------------------------------------------------------- submission

  /** The largest id of a non-empty table (`Math.max(...ids)`). */
  function MaxId(ps: seq<AdminProduct>): (m: int)
    requires ps != []
    ensures forall i :: 0 <= i < |ps| ==> ps[i].id <= m
    ensures exists i :: 0 <= i < |ps| && ps[i].id == m
  {
    if |ps| == 1 then ps[0].id
    else
      var rest := MaxId(ps[1..]);
      if ps[0].id >= rest then ps[0].id else rest
  }

  /** `nextId`: one more than the largest id, or 1 for an empty table. */
  function NextId(ps: seq<AdminProduct>): (n: int)
    ensures !HasId(ps, n)
    ensures forall i :: 0 <= i < |ps| ==> ps[i].id < n
    ensures ps == [] ==> n == 1
  {
    (if |ps| > 0 then MaxId(ps) else 0) + 1
  }

  /** JavaScript `parseInt(s, 10)`: leading white space, an optional sign and
      the longest run of decimal digits; `None` for NaN (no digit). */
  function ParseInt(s: string): (r: Option<int>)
    ensures r.None? <==> DigitPrefix(Unsigned(TrimStart(s))) == ""
  {
    ParseSigned(TrimStart(s))
  }

  /** `parseInt` once the leading white space is skipped. */
  function ParseSigned(t: string): (r: Option<int>)
    ensures r.None? <==> DigitPrefix(Unsigned(t)) == ""
  {
    var digits := DigitPrefix(Unsigned(t));
    if digits == "" then None
    else
      var v: int := DecimalValue(digits);
      if t != "" && t[0] == '-' then Some(-v) else Some(v)
  }

  /** The text after an optional leading sign. */
  function Unsigned(t: string): string {
    if t != "" && (t[0] == '-' || t[0] == '+') then t[1..] else t
  }

  /** The longest prefix of digits. */
  function DigitPrefix(s: string): (d: string)
    ensures |d| <= |s| && d == s[..|d|]
    ensures forall i :: 0 <= i < |d| ==> IsDigit(d[i])
    ensures |d| < |s| ==> !IsDigit(s[|d|])
  {
    if s != "" && IsDigit(s[0]) then [s[0]] + DigitPrefix(s[1..]) else ""
  }

  /** A run of digits is its own digit prefix. */
  lemma {:induction false} DigitPrefixOfDigits(ds: string)
    requires forall i :: 0 <= i < |ds| ==> IsDigit(ds[i])
    ensures DigitPrefix(ds) == ds
  {
    if ds != "" {
      DigitPrefixOfDigits(ds[1..]);
      assert [ds[0]] + ds[1..] == ds;
    }
  }

  /** Text that starts with a digit parses to the value of its leading digits. */
  lemma ParseIntOfDigitStart(s: string)
    requires s != "" && IsDigit(s[0])
    ensures DigitPrefix(s) != "" && ParseInt(s) == Some(DecimalValue(DigitPrefix(s)) as int)
  {
    TrimStartKeepsLeading(s);
    assert Unsigned(s) == s;
  }

  /** A run of digits parses to its value. */
  lemma ParseIntOfDigits(ds: string)
    requires ds != "" && forall i :: 0 <= i < |ds| ==> IsDigit(ds[i])
    ensures ParseInt(ds) == Some(DecimalValue(ds) as int)
  {
    ParseIntOfDigitStart(ds);
    DigitPrefixOfDigits(ds);
  }

  /** A minus sign followed by a run of digits parses to the negated value. */
  lemma ParseIntOfNegatedDigits(s: string)
    requires |s| >= 2 && s[0] == '-'
    requires forall i :: 1 <= i < |s| ==> IsDigit(s[i])
    ensures ParseInt(s) == Some(-(DecimalValue(s[1..]) as int))
  {
    TrimStartKeepsLeading(s);
    DigitPrefixOfDigits(s[1..]);
  }

  /** A sign followed by a digit parses to the value after the sign,
      negated for a minus: `"-7kg"` reads as minus `"7kg"`, `"+7"` as `"7"`. */
  lemma ParseIntOfSignedDigitStart(s: string)
    requires |s| >= 2 && (s[0] == '-' || s[0] == '+') && IsDigit(s[1])
    ensures ParseInt(s[1..]).Some?
    ensures ParseInt(s) == Some(if s[0] == '-' then -ParseInt(s[1..]).value else ParseInt(s[1..]).value)
  {
    var u := s[1..];
    TrimStartKeepsLeading(s);
    TrimStartKeepsLeading(u);
    assert ParseInt(s) == ParseSigned(s);
    assert ParseInt(u) == ParseSigned(u);
    assert Unsigned(s) == u && Unsigned(u) == u;
    assert DigitPrefix(u) != "";
  }

  /** Leading white space is skipped: it never changes the value. */
  lemma ParseIntSkipsSpace(s: string)
    ensures ParseInt(s) == ParseInt(TrimStart(s))
  {
    TrimStartIdempotent(s);
  }

  lemma TrimStartIdempotent(s: string)
    ensures TrimStart(TrimStart(s)) == TrimStart(s)
  {
    var t := TrimStart(s);
    if t != "" {
      assert !IsSpace(t[0]);
    }
  }

  /** Text that starts with a digit or a sign has no white space to skip. */
  lemma TrimStartKeepsLeading(s: string)
    requires s != "" && (IsDigit(s[0]) || s[0] == '-' || s[0] == '+')
    ensures TrimStart(s) == s
  {
    assert !IsSpace(s[0]);
  }

  /** `parseInt` reads back what `String` printed, for every integer: the
      edit form's `String(stock)` followed by the submit's `parseInt`. */
  lemma ParseIntRoundTrip(n: int)
    ensures ParseInt(if n < 0 then "-" + NatToString(-n) else NatToString(n)) == Some(n)
  {
    var m: nat := if n < 0 then -n else n;
    NatToStringRoundTrip(m);
    if n < 0 {
      var s := "-" + NatToString(m);
      assert s[1..] == NatToString(m);
      ParseIntOfNegatedDigits(s);
    } else {
      ParseIntOfDigits(NatToString(m));
    }
  }

  /** `text === '' ? 0 : parsed`, then `isNaN(v) ? 0 : v`. */
  function NumericField(text: string, parsed: Option<int>): (v: int)
    ensures text == "" ==> v == 0
    ensures parsed.None? ==> v == 0
    ensures text != "" && parsed.Some? ==> v == parsed.value
  {
    if text == "" then 0 else parsed.GetOr(0)
  }

  /** The edited row after submission: every field from the form, the id
      kept. `parsedPrice` is what `parseFloat` made of the price text (in
      cents; `None` for NaN). */
  function ApplyForm(p: AdminProduct, form: ProductForm, parsedPrice: Option<int>): (r: AdminProduct)
    ensures r.id == p.id
    ensures r.name == form.name && r.description == form.description && r.category == form.category
    ensures r.price == NumericField(form.price, parsedPrice) && r.stock == NumericField(form.stock, ParseInt(form.stock))
    ensures r.image == form.image && r.active == form.active
  {
    p.(name := form.name, description := form.description,
       price := NumericField(form.price, parsedPrice), category := form.category,
       stock := NumericField(form.stock, ParseInt(form.stock)), image := form.image, active := form.active)
  }

  /** The update branch of `handleFormSubmit`. */
  function UpdateById(ps: seq<AdminProduct>, id: int, form: ProductForm, parsedPrice: Option<int>): (r: seq<AdminProduct>)
    ensures |r| == |ps|
    ensures forall i :: 0 <= i < |ps| ==> r[i].id == ps[i].id
    ensures forall i :: 0 <= i < |ps| && ps[i].id == id ==> r[i] == ApplyForm(ps[i], form, parsedPrice)
    ensures forall i :: 0 <= i < |ps| && ps[i].id != id ==> r[i] == ps[i]
  {
    seq(|ps|, i requires 0 <= i < |ps| => if ps[i].id == id then ApplyForm(ps[i], form, parsedPrice) else ps[i])
  }

  /** The row the create branch appends. */
  function NewProduct(ps: seq<AdminProduct>, form: ProductForm, parsedPrice: Option<int>): (p: AdminProduct)
    ensures p.id == NextId(ps)
    ensures p.image == OrElse(form.image, PlaceholderImage) && p.image != ""
    ensures p.name == form.name && p.description == form.description && p.category == form.category
    ensures p.price == NumericField(form.price, parsedPrice) && p.stock == NumericField(form.stock, ParseInt(form.stock))
    ensures p.active == form.active
  {
    AdminProduct(NextId(ps), form.name, form.description, NumericField(form.price, parsedPrice), form.category,
                 NumericField(form.stock, ParseInt(form.stock)), OrElse(form.image, PlaceholderImage), form.active)
  }

  /** Appending the new row keeps ids unique. */
  lemma CreateKeepsUniqueIds(ps: seq<AdminProduct>, form: ProductForm, parsedPrice: Option<int>)
    requires UniqueIds(ps)
    ensures UniqueIds(ps + [NewProduct(ps, form, parsedPrice)])
  {
    var p := NewProduct(ps, form, parsedPrice);
    assert forall k :: 0 <= k < |ps| ==> ps[k].id != p.id;
    AppendFreshIdKeepsUniqueIds(ps, p);
  }

  /** A row whose id no other row has can be appended without a clash. */
  lemma AppendFreshIdKeepsUniqueIds(ps: seq<AdminProduct>, p: AdminProduct)
    requires UniqueIds(ps)
    requires forall k :: 0 <= k < |ps| ==> ps[k].id != p.id
    ensures UniqueIds(ps + [p])
  {
    var qs := ps + [p];
    assert forall k :: 0 <= k < |ps| ==> qs[k] == ps[k];
    assert qs[|ps|] == p;
  }

  /** Editing rewrites rows in place and keeps every id, so ids stay unique. */
  lemma UpdateKeepsUniqueIds(ps: seq<AdminProduct>, id: int, form: ProductForm, parsedPrice: Option<int>)
    requires UniqueIds(ps)
    ensures UniqueIds(UpdateById(ps, id, form, parsedPrice))
  {
  }

  // -------------------------------------------------------------- state

  /** The page's `products`, `editingProduct` and `isFormOpen` state. */
  class ProductTable {
    var products: seq<AdminProduct>
    var editingId: Option<int>
    var isFormOpen: bool

    ghost predicate Valid()
      reads this
    {
      UniqueIds(products)
    }

    constructor (initial: seq<AdminProduct>)
      requires UniqueIds(initial)
      ensures Valid() && products == initial && editingId == None && !isFormOpen
    {
      products, editingId, isFormOpen := initial, None, false;
    }

    /** `handleToggleActive`. */
    method HandleToggleActive(productId: int)
      requires Valid()
      modifies this
      ensures Valid()
      ensures products == ToggleActive(old(products), productId)
      ensures editingId == old(editingId) && isFormOpen == old(isFormOpen)
    {
      ToggleKeepsIds(products, productId);
      products := ToggleActive(products, productId);
    }

    /** `handleDelete`; `confirmed` is the user's answer to the prompt. */
    method HandleDelete(productId: int, confirmed: bool)
      requires Valid()
      modifies this
      ensures Valid()
      ensures products == (if confirmed then RemoveById(old(products), productId) else old(products))
      ensures editingId == old(editingId) && isFormOpen == old(isFormOpen)
    {
      if confirmed {
        RemoveKeepsUniqueIds(products, productId);
        products := RemoveById(products, productId);
      }
    }

    /** `openCreateForm`. */
    method OpenCreateForm()
      requires Valid()
      modifies this
      ensures Valid() && products == old(products) && editingId == None && isFormOpen
    {
      editingId := None;
      isFormOpen := true;
    }

    /** `openEditForm` for a row of the table. */
    method OpenEditForm(product: AdminProduct)
      requires Valid()
      modifies this
      ensures Valid() && products == old(products) && editingId == Some(product.id) && isFormOpen
    {
      editingId := Some(product.id);
      isFormOpen := true;
    }

    /** `handleFormSubmit`: update the edited row, or append a new one. */
    method HandleFormSubmit(form: ProductForm, parsedPrice: Option<int>)
      requires Valid()
      modifies this
      ensures Valid()
      ensures old(editingId).Some? ==> products == UpdateById(old(products), old(editingId).value, form, parsedPrice)
      ensures old(editingId).None? ==> products == old(products) + [NewProduct(old(products), form, parsedPrice)]
      ensures editingId == old(editingId) && !isFormOpen
    {
      var price := if form.price == "" then 0 else parsedPrice.GetOr(0);
      var stock := if form.stock == "" then 0 else ParseInt(form.stock).GetOr(0);
      if editingId.Some? {
        UpdateKeepsUniqueIds(products, editingId.value, form, parsedPrice);
        products := UpdateById(products, editingId.value, form, parsedPrice);
      } else {
        var nextId := (if |products| > 0 then MaxId(products) else 0) + 1;
        CreateKeepsUniqueIds(products, form, parsedPrice);
        products := products + [AdminProduct(nextId, form.name, form.description, price, form.category, stock,
                                             OrElse(form.image, PlaceholderImage), form.active)];
      }
      isFormOpen := false;
    }
  }
}
