/** The shopping-cart state of `src/contexts/CartContext.js`: a reducer over
    `{items, loading, error, lastUpdated}`, the normalisation of the
    backend's cart payloads into `{productId, quantity, product}` lines, the
    follow-up fetch of product snapshots the payload left out, the derived
    totals, and the store whose operations call the remote cart gateway and
    re-read the cart after every write.

    Gateway and network results are parameters. `Date.now()` is an opaque
    stamp passed in. Money is in integer cents. */
module CartContext {
  import opened Common
  import opened Text

  // ---------------------------------------------------------------- data

  /** A product snapshot as the backend embeds it. An empty `id` stands for a
      missing `_id`; a missing `price` is `None`. */
  datatype ProductDoc = ProductDoc(id: string, name: string, price: Option<int>)

  /** The `_id` field of a payload entry: absent or null, a product id
      string, or an embedded product document. */
  datatype EntryRef = NoRef | IdRef(id: string) | DocRef(doc: ProductDoc)

  /** One element of the payload's products array. An empty `id` stands for
      a missing `id`; `quantity` or `qty` 0 stands for a missing field (both
      are falsy for `||`). */
  datatype PayloadEntry = PayloadEntry(
    product: Option<ProductDoc>,
    ref: EntryRef,
    id: string,
    quantity: int,
    qty: int)

  /** A cart body from the gateway: `products` at the top level, or under
      `cart.products` (`None` when `cart` or its `products` is missing). */
  datatype CartPayload = CartPayload(
    products: Option<seq<PayloadEntry>>,
    cartProducts: Option<seq<PayloadEntry>>)

  /** A normalised cart line. */
  datatype CartLine = CartLine(productId: string, quantity: int, product: Option<ProductDoc>)

  datatype CartState = CartState(
    items: seq<CartLine>,
    loading: bool,
    error: Option<string>,
    lastUpdated: Option<nat>)

  const InitialCart: CartState := CartState([], false, None, None)

  /** The reducer's actions; `Unrecognised` is any other action type. */
  datatype CartAction =
    | SetLoading(on: bool)
    | SetError(message: string)
    | SetCart(lines: seq<CartLine>, stamp: nat)
    | Clear
    | Unrecognised(kind: string)

  /** The calls the store makes to the cart, product and order gateways. */
  datatype GatewayCall =
    | GetCart
    | AddToCart(productId: string, quantity: int)
    | RemoveFromCart(productId: string)
    | UpdateCartQuantity(productId: string, quantity: int)
    | GetProductById(id: string)
    | CreateOrderFromCart(paymentMethod: Option<string>, notes: Option<string>)

  /** What `getCart` resolves to (the body, possibly null) or the message it
      rejects with. */
  datatype CartFetch = CartReceived(data: Option<CartPayload>) | CartFetchFailed(message: string)

  /** Everything one `refreshCart` run depends on: whether the session is
      authenticated, the `getCart` outcome, what the per-product fetches
      resolved to (`None` for one that failed) and the clock stamp. */
  datatype RefreshInput = RefreshInput(
    authenticated: bool,
    cart: CartFetch,
    fetched: seq<Option<ProductDoc>>,
    stamp: nat)

  /** Outcome of a remove or update call: HTTP 204 (the cart resource was
      deleted because it became empty), an updated cart, or a rejection. */
  datatype MutationOutcome = Deleted | Updated | Failed(message: string)

  /** Outcome of an add call; its body is discarded either way. */
  datatype AddOutcome = Added | AddFailed(message: string)

  datatype OrderSummary = OrderSummary(id: string)

  /** Outcome of creating an order from the server-side cart. */
  datatype OrderOutcome = OrderCreated(order: OrderSummary) | OrderFailed(message: string)

  /** `confirmOrder`'s `{success, order}` / `{success: false, error}`. */
  datatype ConfirmResult = Confirmed(order: OrderSummary) | NotConfirmed(error: string)

  const LoadCartError := "Erro ao carregar carrinho"
  const AddItemError := "Erro ao adicionar item"
  const RemoveItemError := "Erro ao remover item"
  const UpdateQuantityError := "Erro ao atualizar quantidade"
  const ConfirmOrderError := "Erro ao confirmar pedido"

  // ------------------------------------------------------------- reducer

  /** `cartReducer`. */
  function CartReduce(s: CartState, a: CartAction): (r: CartState)
    ensures a.SetLoading? ==> r.items == s.items && r.loading == a.on && r.error == s.error && r.lastUpdated == s.lastUpdated
    ensures a.SetError? ==> r.items == s.items && !r.loading && r.error == Some(a.message) && r.lastUpdated == s.lastUpdated
    ensures a.SetCart? ==> r.items == a.lines && !r.loading && r.error == None && r.lastUpdated == Some(a.stamp)
    ensures a.Clear? ==> r == InitialCart
    ensures a.Unrecognised? ==> r == s
  {
    match a
    case SetLoading(on) => s.(loading := on)
    case SetError(m) => s.(error := Some(m), loading := false)
    case SetCart(lines, stamp) => s.(items := lines, loading := false, error := None, lastUpdated := Some(stamp))
    case Clear => InitialCart
    case Unrecognised(_) => s
  }

  /** After `SET_CART` the state no longer depends on what came before it:
      the cart is whatever the last authoritative read said. */
  lemma SetCartForgetsHistory(s1: CartState, s2: CartState, lines: seq<CartLine>, stamp: nat)
    ensures CartReduce(s1, SetCart(lines, stamp)) == CartReduce(s2, SetCart(lines, stamp))
  {
  }

  /** Every action but `SET_LOADING true` leaves the state not loading, given
      it was not loading or the action ends the load. */
  lemma {:induction false} ActionsEndLoading(s: CartState, acts: seq<CartAction>)
    requires !s.loading
    requires forall i :: 0 <= i < |acts| ==> acts[i] != SetLoading(true)
    ensures !CartReduceAll(s, acts).loading
    decreases |acts|
  {
    if acts != [] {
      ActionsEndLoading(CartReduce(s, acts[0]), acts[1..]);
    }
  }

  /** The reducer applied to a sequence of dispatched actions, in order. */
  function CartReduceAll(s: CartState, acts: seq<CartAction>): CartState
    decreases |acts|
  {
    if acts == [] then s else CartReduceAll(CartReduce(s, acts[0]), acts[1..])
  }

  // ------------------------------------------------------- normalisation

  /** A line is well formed when it names a product and its quantity is not 0. */
  predicate WellFormedLine(l: CartLine) {
    l.productId != "" && l.quantity != 0
  }

  predicate LinesWellFormed(lines: seq<CartLine>) {
    forall i :: 0 <= i < |lines| ==> WellFormedLine(lines[i])
  }

  predicate Identified(l: CartLine) {
    l.productId != ""
  }

  /** `data.products || data.cart?.products || []` (an array is truthy even
      when empty). */
  function PayloadEntries(d: CartPayload): (ps: seq<PayloadEntry>)
    ensures d.products.Some? ==> ps == d.products.value
    ensures d.products.None? && d.cartProducts.Some? ==> ps == d.cartProducts.value
    ensures d.products.None? && d.cartProducts.None? ==> ps == []
  {
    if d.products.Some? then d.products.value
    else if d.cartProducts.Some? then d.cartProducts.value
    else []
  }

  /** The mapping step of `normalizeCartData` for one entry. */
  function NormalizeEntry(p: PayloadEntry): (l: CartLine)
    ensures l.quantity != 0
    ensures p.quantity >= 0 && p.qty >= 0 ==> l.quantity >= 1
    ensures p.quantity != 0 ==> l.quantity == p.quantity
    ensures p.quantity == 0 && p.qty != 0 ==> l.quantity == p.qty
    ensures l.product.Some? <==> p.product.Some? || p.ref.DocRef?
    ensures p.product.Some? ==> l.product == p.product
    ensures l.product.Some? && l.product.value.id != "" ==> l.productId == l.product.value.id
    ensures l.product.Some? && l.product.value.id == "" ==> l.productId == (if p.ref.IdRef? then p.ref.id else p.id)
    ensures l.product.None? && p.ref.IdRef? ==> l.productId == p.ref.id
    ensures l.product.None? && !p.ref.IdRef? ==> l.productId == p.id
  {
    var doc :=
      if p.product.Some? then p.product
      else if p.ref.DocRef? then Some(p.ref.doc)
      else None;
    var pid :=
      if doc.Some? && doc.value.id != "" then doc.value.id
      else if p.ref.IdRef? then p.ref.id
      else p.id;
    var qty :=
      if p.quantity != 0 then p.quantity
      else if p.qty != 0 then p.qty
      else 1;
    CartLine(pid, qty, doc)
  }

  function NormalizeEntries(ps: seq<PayloadEntry>): (ls: seq<CartLine>)
    ensures |ls| == |ps|
    ensures forall i :: 0 <= i < |ps| ==> ls[i] == NormalizeEntry(ps[i])
  {
    seq(|ps|, i requires 0 <= i < |ps| => NormalizeEntry(ps[i]))
  }

  /** `normalizeCartData`: null gives no lines; otherwise the entries are
      mapped in order and those without a product id are dropped. */
  function Normalize(data: Option<CartPayload>): (r: seq<CartLine>)
    ensures data.None? ==> r == []
    ensures LinesWellFormed(r)
    ensures data.Some? ==> IsSubsequence(r, NormalizeEntries(PayloadEntries(data.value)))
    ensures data.Some? ==> |r| == Count(Identified, NormalizeEntries(PayloadEntries(data.value)))
    ensures data.Some? ==>
      var ps := PayloadEntries(data.value);
      forall i :: 0 <= i < |ps| && NormalizeEntry(ps[i]).productId != "" ==> NormalizeEntry(ps[i]) in r
    ensures data.Some? ==>
      var ps := PayloadEntries(data.value);
      forall l :: l in r ==> exists i :: 0 <= i < |ps| && NormalizeEntry(ps[i]) == l
  {
    if data.None? then []
    else
      var mapped := NormalizeEntries(PayloadEntries(data.value));
      var r := Filter(Identified, mapped);
      assert forall l :: l in r ==> l in mapped;
      FilterLengthIsCount(Identified, mapped);
      r
  }

  /** An entry whose quantity fields are non-negative never yields a line
      with quantity below one. */
  lemma NormalizedQuantitiesPositive(data: CartPayload)
    requires forall p :: p in PayloadEntries(data) ==> p.quantity >= 0 && p.qty >= 0
    ensures forall l :: l in Normalize(Some(data)) ==> l.quantity >= 1
  {
    var ps := PayloadEntries(data);
    forall l | l in Normalize(Some(data)) ensures l.quantity >= 1 {
      var i :| 0 <= i < |ps| && NormalizeEntry(ps[i]) == l;
      assert ps[i] in ps;
    }
  }

  // -------------------------------------------- missing-snapshot merge

  predicate LacksProduct(l: CartLine) {
    l.product.None?
  }

  function LineProductId(l: CartLine): string {
    l.productId
  }

  /** `items.filter(i => !i.product).map(i => i.productId)`. */
  function MissingIds(lines: seq<CartLine>): (ids: seq<string>)
    ensures |ids| <= |lines|
    ensures |ids| == |Filter(LacksProduct, lines)| == Count(LacksProduct, lines)
    ensures forall j :: 0 <= j < |ids| ==> ids[j] == Filter(LacksProduct, lines)[j].productId
    ensures forall j :: 0 <= j < |ids| ==> exists i :: 0 <= i < |lines| && lines[i].product.None? && lines[i].productId == ids[j]
    ensures forall i :: 0 <= i < |lines| && lines[i].product.None? ==> lines[i].productId in ids
    ensures ids == [] ==> forall i :: 0 <= i < |lines| ==> lines[i].product.Some?
  {
    var missing := Filter(LacksProduct, lines);
    var ids := seq(|missing|, i requires 0 <= i < |missing| => missing[i].productId);
    FilterLengthIsCount(LacksProduct, lines);
    assert forall j :: 0 <= j < |ids| ==> exists i :: 0 <= i < |lines| && lines[i].product.None? && lines[i].productId == ids[j] by {
      forall j | 0 <= j < |ids|
        ensures exists i :: 0 <= i < |lines| && lines[i].product.None? && lines[i].productId == ids[j]
      {
        assert missing[j] in lines && LacksProduct(missing[j]);
        var i :| 0 <= i < |lines| && lines[i] == missing[j];
      }
    }
    assert forall i :: 0 <= i < |lines| && lines[i].product.None? ==> lines[i].productId in ids by {
      forall i | 0 <= i < |lines| && lines[i].product.None?
        ensures lines[i].productId in ids
      {
        assert LacksProduct(lines[i]);
        var j :| 0 <= j < |missing| && missing[j] == lines[i];
        assert ids[j] == lines[i].productId;
      }
    }
    ids
  }

  /** `fetched.find(f => f && f._id === id)`. */
  function FindFetched(fetched: seq<Option<ProductDoc>>, id: string): (r: Option<ProductDoc>)
    ensures r.Some? ==> r.value.id == id && Some(r.value) in fetched
    ensures r.None? ==> forall k :: 0 <= k < |fetched| && fetched[k].Some? ==> fetched[k].value.id != id
  {
    if fetched == [] then None
    else if fetched[0].Some? && fetched[0].value.id == id then fetched[0]
    else FindFetched(fetched[1..], id)
  }

  /** The fetched slot `k` holds a product carrying `id`. */
  predicate MatchesId(fetched: seq<Option<ProductDoc>>, k: int, id: string)
    requires 0 <= k < |fetched|
  {
    fetched[k].Some? && fetched[k].value.id == id
  }

  /** `find` returns the first match: when slot `k` is the earliest one
      carrying `id`, that is the product found. */
  lemma {:induction false} FindFetchedIsFirst(fetched: seq<Option<ProductDoc>>, id: string, k: nat)
    requires k < |fetched| && MatchesId(fetched, k, id)
    requires forall j :: 0 <= j < k ==> !MatchesId(fetched, j, id)
    ensures FindFetched(fetched, id) == fetched[k]
  {
    if k > 0 {
      assert !MatchesId(fetched, 0, id);
      forall j | 0 <= j < k - 1 ensures !MatchesId(fetched[1..], j, id) {
        assert !MatchesId(fetched, j + 1, id);
      }
      FindFetchedIsFirst(fetched[1..], id, k - 1);
    }
  }

  /** One line of the merge: a line without a snapshot takes the fetched
      product carrying its id, if any. */
  function FillSnapshot(l: CartLine, fetched: seq<Option<ProductDoc>>): (r: CartLine)
    ensures r.productId == l.productId && r.quantity == l.quantity
    ensures l.product.Some? ==> r == l
    ensures l.product.None? && r.product.Some? ==> r.product.value.id == l.productId && r.product in fetched
    ensures l.product.None? && r.product.None? ==>
      forall k :: 0 <= k < |fetched| && fetched[k].Some? ==> fetched[k].value.id != l.productId
  {
    if l.product.None? then
      match FindFetched(fetched, l.productId)
      case Some(d) => l.(product := Some(d))
      case None => l
    else l
  }

  /** The `items.map(...)` step of `refreshCart` that fills missing snapshots. */
  function MergeMissing(lines: seq<CartLine>, fetched: seq<Option<ProductDoc>>): (r: seq<CartLine>)
    ensures |r| == |lines|
    ensures forall i :: 0 <= i < |lines| ==>
      r[i].productId == lines[i].productId && r[i].quantity == lines[i].quantity
    ensures forall i :: 0 <= i < |lines| && lines[i].product.Some? ==> r[i] == lines[i]
    ensures forall i :: 0 <= i < |lines| && lines[i].product.None? && r[i].product.Some? ==>
      r[i].product.value.id == lines[i].productId && r[i].product in fetched
    ensures forall i, k :: (0 <= i < |lines| && 0 <= k < |fetched| && lines[i].product.None?
      && fetched[k].Some? && fetched[k].value.id == lines[i].productId) ==> r[i].product.Some?
    ensures LinesWellFormed(lines) ==> LinesWellFormed(r)
  {
    seq(|lines|, i requires 0 <= i < |lines| => FillSnapshot(lines[i], fetched))
  }

  /** When no line lacks a snapshot the merge changes nothing, so skipping it
      (as `refreshCart` does) is the same as running it. */
  lemma MergeWithoutMissing(lines: seq<CartLine>, fetched: seq<Option<ProductDoc>>)
    requires MissingIds(lines) == []
    ensures MergeMissing(lines, fetched) == lines
  {
  }

  /** The lines `refreshCart` stores after a successful read. */
  function RefreshedLines(data: Option<CartPayload>, fetched: seq<Option<ProductDoc>>): (r: seq<CartLine>)
    ensures LinesWellFormed(r)
    ensures |r| == |Normalize(data)|
    ensures data.None? ==> r == []
  {
    MergeMissing(Normalize(data), fetched)
  }

  function ProductFetches(ids: seq<string>): (cs: seq<GatewayCall>)
    ensures |cs| == |ids|
    ensures forall i :: 0 <= i < |ids| ==> cs[i] == GetProductById(ids[i])
  {
    seq(|ids|, i requires 0 <= i < |ids| => GetProductById(ids[i]))
  }

  // ---------------------------------------------------------- totals

  function LineQuantity(l: CartLine): int {
    l.quantity
  }

  /** `(i.product?.price || 0) * i.quantity`. */
  function LineSubtotal(l: CartLine): int {
    (if l.product.Some? then l.product.value.price.GetOr(0) else 0) * l.quantity
  }

  /** `items.reduce((sum, i) => sum + i.quantity, 0)`. */
  function TotalItems(items: seq<CartLine>): (n: int)
    ensures n == SumOf(LineQuantity, items)
  {
    FoldSumIsSum(LineQuantity, 0, items);
    FoldSum(LineQuantity, 0, items)
  }

  /** `items.reduce((sum, i) => sum + (i.product?.price || 0) * i.quantity, 0)`. */
  function TotalPrice(items: seq<CartLine>): (n: int)
    ensures n == SumOf(LineSubtotal, items)
  {
    FoldSumIsSum(LineSubtotal, 0, items);
    FoldSum(LineSubtotal, 0, items)
  }

  lemma EmptyCartTotals()
    ensures TotalItems([]) == 0 && TotalPrice([]) == 0
  {
  }

  /** Both totals add up over concatenated carts. */
  lemma TotalsAppend(a: seq<CartLine>, b: seq<CartLine>)
    ensures TotalItems(a + b) == TotalItems(a) + TotalItems(b)
    ensures TotalPrice(a + b) == TotalPrice(a) + TotalPrice(b)
  {
    SumOfAppend(LineQuantity, a, b);
    SumOfAppend(LineSubtotal, a, b);
  }

  /** With every quantity at least one, the item count is at least the number
      of lines (in particular it is 0 only for an empty cart). */
  lemma TotalItemsAtLeastLines(items: seq<CartLine>)
    requires forall i :: 0 <= i < |items| ==> items[i].quantity >= 1
    ensures TotalItems(items) >= |items|
  {
    SumOfAtLeastLength(LineQuantity, items);
  }

  // ------------------------------------------------- operation effects

  /** The state `refreshCart` leaves behind. */
  function RefreshEffect(s: CartState, input: RefreshInput): (r: CartState)
    ensures !input.authenticated ==> r == InitialCart
    ensures input.authenticated && input.cart.CartFetchFailed? ==>
      r.items == s.items && !r.loading && r.lastUpdated == s.lastUpdated
      && r.error == Some(OrElse(input.cart.message, LoadCartError))
    ensures input.authenticated && input.cart.CartReceived? ==>
      r.items == RefreshedLines(input.cart.data, input.fetched) && !r.loading
      && r.error == None && r.lastUpdated == Some(input.stamp)
    ensures input.authenticated && input.cart == CartReceived(None) ==> r.items == []
    ensures LinesWellFormed(s.items) ==> LinesWellFormed(r.items)
  {
    if !input.authenticated then CartReduce(s, Clear)
    else
      var loading := CartReduce(s, SetLoading(true));
      match input.cart
      case CartFetchFailed(m) => CartReduce(loading, SetError(OrElse(m, LoadCartError)))
      case CartReceived(data) => CartReduce(loading, SetCart(RefreshedLines(data, input.fetched), input.stamp))
  }

  /** The gateway calls `refreshCart` makes. */
  function RefreshCalls(input: RefreshInput): (cs: seq<GatewayCall>)
    ensures !input.authenticated ==> cs == []
    ensures input.authenticated ==> |cs| >= 1 && cs[0] == GetCart
    ensures input.authenticated && input.cart.CartFetchFailed? ==> cs == [GetCart]
    ensures input.authenticated && input.cart.CartReceived? ==>
      |cs| == 1 + Count(LacksProduct, Normalize(input.cart.data))
      && cs[1..] == ProductFetches(MissingIds(Normalize(input.cart.data)))
  {
    if !input.authenticated then []
    else match input.cart
      case CartFetchFailed(_) => [GetCart]
      case CartReceived(data) =>
        var cs := [GetCart] + ProductFetches(MissingIds(Normalize(data)));
        assert cs[1..] == ProductFetches(MissingIds(Normalize(data)));
        cs
  }

  /** A read whose lines all carry their snapshot fetches no product. */
  lemma RefreshWithoutMissingFetchesNothing(input: RefreshInput)
    requires input.authenticated && input.cart.CartReceived?
    requires forall i :: 0 <= i < |Normalize(input.cart.data)| ==> Normalize(input.cart.data)[i].product.Some?
    ensures RefreshCalls(input) == [GetCart]
  {
    assert MissingIds(Normalize(input.cart.data)) == [];
  }

  /** Overlapping reads are not sequenced: whichever successful read is
      applied last decides the whole state, whatever the earlier one said. */
  lemma LastRefreshWins(s: CartState, first: RefreshInput, last: RefreshInput)
    requires last.authenticated && last.cart.CartReceived?
    ensures RefreshEffect(RefreshEffect(s, first), last) == RefreshEffect(s, last)
  {
  }

  /** The shared shape of `removeItem` and `updateQuantity`. */
  function MutationEffect(s: CartState, outcome: MutationOutcome, refresh: RefreshInput, fallback: string): (r: CartState)
    ensures outcome.Deleted? ==> r == InitialCart
    ensures outcome.Failed? ==>
      r.items == s.items && !r.loading && r.lastUpdated == s.lastUpdated
      && r.error == Some(OrElse(outcome.message, fallback))
    ensures outcome.Updated? ==> r == RefreshEffect(s.(loading := true), refresh)
    ensures LinesWellFormed(s.items) ==> LinesWellFormed(r.items)
  {
    var loading := CartReduce(s, SetLoading(true));
    match outcome
    case Failed(m) => CartReduce(loading, SetError(OrElse(m, fallback)))
    case Deleted => CartReduce(loading, Clear)
    case Updated => RefreshEffect(loading, refresh)
  }

  /** The mutation call, then a full re-read only when the gateway returned
      an updated cart. */
  function MutationCalls(call: GatewayCall, outcome: MutationOutcome, refresh: RefreshInput): (cs: seq<GatewayCall>)
    ensures |cs| >= 1 && cs[0] == call
    ensures !outcome.Updated? ==> cs == [call]
    ensures outcome.Updated? ==> cs == [call] + RefreshCalls(refresh)
  {
    [call] + (if outcome.Updated? then RefreshCalls(refresh) else [])
  }

  function RemoveItemEffect(s: CartState, outcome: MutationOutcome, refresh: RefreshInput): CartState {
    MutationEffect(s, outcome, refresh, RemoveItemError)
  }

  function RemoveItemCalls(productId: string, outcome: MutationOutcome, refresh: RefreshInput): seq<GatewayCall> {
    MutationCalls(RemoveFromCart(productId), outcome, refresh)
  }

  function UpdateQuantityEffect(s: CartState, outcome: MutationOutcome, refresh: RefreshInput): CartState {
    MutationEffect(s, outcome, refresh, UpdateQuantityError)
  }

  function UpdateQuantityCalls(productId: string, quantity: int, outcome: MutationOutcome, refresh: RefreshInput): seq<GatewayCall> {
    MutationCalls(if quantity == 0 then RemoveFromCart(productId) else UpdateCartQuantity(productId, quantity), outcome, refresh)
  }

  /** `updateQuantity(id, 0)` makes the same calls as `removeItem(id)` and,
      unless the gateway fails with an empty message, ends in the same state. */
  lemma UpdateToZeroIsRemove(s: CartState, productId: string, outcome: MutationOutcome, refresh: RefreshInput)
    ensures UpdateQuantityCalls(productId, 0, outcome, refresh) == RemoveItemCalls(productId, outcome, refresh)
    ensures !(outcome.Failed? && outcome.message == "") ==>
      UpdateQuantityEffect(s, outcome, refresh) == RemoveItemEffect(s, outcome, refresh)
  {
  }

  /** The one difference: the two operations carry different fallback
      messages for a rejection without a message. */
  lemma UpdateToZeroFallbackDiffers(s: CartState, refresh: RefreshInput)
    ensures UpdateQuantityEffect(s, Failed(""), refresh).error == Some(UpdateQuantityError)
    ensures RemoveItemEffect(s, Failed(""), refresh).error == Some(RemoveItemError)
  {
  }

  /** The "cart deleted" answer empties the cart without a further read. */
  lemma DeletedClearsWithoutRefetch(s: CartState, productId: string, refresh: RefreshInput)
    ensures RemoveItemEffect(s, Deleted, refresh) == InitialCart
    ensures RemoveItemCalls(productId, Deleted, refresh) == [RemoveFromCart(productId)]
  {
  }

  /** `addItem`: the add response is ignored and the cart is re-read. */
  function AddItemEffect(s: CartState, outcome: AddOutcome, refresh: RefreshInput): (r: CartState)
    ensures outcome.AddFailed? ==>
      r.items == s.items && !r.loading && r.lastUpdated == s.lastUpdated
      && r.error == Some(OrElse(outcome.message, AddItemError))
    ensures outcome.Added? ==> r == RefreshEffect(s.(loading := true), refresh)
    ensures LinesWellFormed(s.items) ==> LinesWellFormed(r.items)
  {
    var loading := CartReduce(s, SetLoading(true));
    match outcome
    case AddFailed(m) => CartReduce(loading, SetError(OrElse(m, AddItemError)))
    case Added => RefreshEffect(loading, refresh)
  }

  function AddItemCalls(productId: string, quantity: int, outcome: AddOutcome, refresh: RefreshInput): (cs: seq<GatewayCall>)
    ensures |cs| >= 1 && cs[0] == AddToCart(productId, quantity)
    ensures outcome.AddFailed? ==> cs == [AddToCart(productId, quantity)]
    ensures outcome.Added? ==> cs == [AddToCart(productId, quantity)] + RefreshCalls(refresh)
  {
    [AddToCart(productId, quantity)] + (if outcome.Added? then RefreshCalls(refresh) else [])
  }

  /** `confirmOrder`'s state change. */
  function ConfirmEffect(s: CartState, outcome: OrderOutcome): (r: CartState)
    ensures outcome.OrderCreated? ==> r == InitialCart && TotalItems(r.items) == 0
    ensures outcome.OrderFailed? ==>
      r.items == s.items && !r.loading && r.lastUpdated == s.lastUpdated
      && r.error == Some(OrElse(outcome.message, ConfirmOrderError))
  {
    var loading := CartReduce(s, SetLoading(true));
    match outcome
    case OrderCreated(_) => CartReduce(loading, Clear)
    case OrderFailed(m) => CartReduce(loading, SetError(OrElse(m, ConfirmOrderError)))
  }

  /** `confirmOrder`'s result object; on failure the error equals the stored one. */
  function ConfirmResultOf(outcome: OrderOutcome): (res: ConfirmResult)
    ensures res.Confirmed? <==> outcome.OrderCreated?
    ensures outcome.OrderCreated? ==> res.order == outcome.order
    ensures outcome.OrderFailed? ==> res.error == OrElse(outcome.message, ConfirmOrderError) && res.error != ""
  {
    match outcome
    case OrderCreated(o) => Confirmed(o)
    case OrderFailed(m) => NotConfirmed(OrElse(m, ConfirmOrderError))
  }

  // ------------------------------------------------------------- store

  /** The `CartProvider`'s state cell and its operations. */
  class CartStore {
    var items: seq<CartLine>
    var loading: bool
    var error: Option<string>
    var lastUpdated: Option<nat>

    function State(): CartState
      reads this
    {
      CartState(items, loading, error, lastUpdated)
    }

    /** Every stored line names a product and has a non-zero quantity. */
    ghost predicate Valid()
      reads this
    {
      LinesWellFormed(items)
    }

    constructor ()
      ensures Valid() && State() == InitialCart
    {
      items, loading, error, lastUpdated := [], false, None, None;
    }

    /** `dispatch`; the provider only ever stores normalised lines. */
    method Dispatch(a: CartAction)
      requires Valid()
      requires a.SetCart? ==> LinesWellFormed(a.lines)
      modifies this
      ensures Valid()
      ensures State() == CartReduce(old(State()), a)
    {
      var r := CartReduce(State(), a);
      items, loading, error, lastUpdated := r.items, r.loading, r.error, r.lastUpdated;
    }

    /** `refreshCart`. */
    method RefreshCart(input: RefreshInput) returns (calls: seq<GatewayCall>)
      requires Valid()
      modifies this
      ensures Valid()
      ensures State() == RefreshEffect(old(State()), input)
      ensures calls == RefreshCalls(input)
    {
      if !input.authenticated {
        Dispatch(Clear);
        return [];
      }
      Dispatch(SetLoading(true));
      calls := [GetCart];
      match input.cart {
        case CartFetchFailed(m) =>
          Dispatch(SetError(OrElse(m, LoadCartError)));
        case CartReceived(data) =>
          var lines := Normalize(data);
          var missing := MissingIds(lines);
          if |missing| > 0 {
            calls := calls + ProductFetches(missing);
            lines := MergeMissing(lines, input.fetched);
          } else {
            MergeWithoutMissing(lines, input.fetched);
          }
          Dispatch(SetCart(lines, input.stamp));
      }
    }

    /** `addItem(productId, quantity = 1)`. */
    method AddItem(productId: string, outcome: AddOutcome, refresh: RefreshInput, quantity: int := 1)
      returns (calls: seq<GatewayCall>)
      requires Valid()
      modifies this
      ensures Valid()
      ensures State() == AddItemEffect(old(State()), outcome, refresh)
      ensures calls == AddItemCalls(productId, quantity, outcome, refresh)
    {
      Dispatch(SetLoading(true));
      calls := [AddToCart(productId, quantity)];
      match outcome {
        case AddFailed(m) =>
          Dispatch(SetError(OrElse(m, AddItemError)));
        case Added =>
          var more := RefreshCart(refresh);
          calls := calls + more;
      }
    }

    /** `removeItem`. */
    method RemoveItem(productId: string, outcome: MutationOutcome, refresh: RefreshInput)
      returns (calls: seq<GatewayCall>)
      requires Valid()
      modifies this
      ensures Valid()
      ensures State() == RemoveItemEffect(old(State()), outcome, refresh)
      ensures calls == RemoveItemCalls(productId, outcome, refresh)
    {
      Dispatch(SetLoading(true));
      calls := [RemoveFromCart(productId)];
      match outcome {
        case Failed(m) =>
          Dispatch(SetError(OrElse(m, RemoveItemError)));
        case Deleted =>
          Dispatch(Clear);
        case Updated =>
          var more := RefreshCart(refresh);
          calls := calls + more;
      }
    }

    /** `updateQuantity`: quantity 0 goes to the remove endpoint. */
    method UpdateQuantity(productId: string, quantity: int, outcome: MutationOutcome, refresh: RefreshInput)
      returns (calls: seq<GatewayCall>)
      requires Valid()
      modifies this
      ensures Valid()
      ensures State() == UpdateQuantityEffect(old(State()), outcome, refresh)
      ensures calls == UpdateQuantityCalls(productId, quantity, outcome, refresh)
    {
      Dispatch(SetLoading(true));
      if quantity == 0 {
        calls := [RemoveFromCart(productId)];
      } else {
        calls := [UpdateCartQuantity(productId, quantity)];
      }
      match outcome {
        case Failed(m) =>
          Dispatch(SetError(OrElse(m, UpdateQuantityError)));
        case Deleted =>
          Dispatch(Clear);
        case Updated =>
          var more := RefreshCart(refresh);
          calls := calls + more;
      }
    }

    /** `confirmOrder({paymentMethod, notes})`. */
    method ConfirmOrder(paymentMethod: Option<string>, notes: Option<string>, outcome: OrderOutcome)
      returns (result: ConfirmResult, calls: seq<GatewayCall>)
      requires Valid()
      modifies this
      ensures Valid()
      ensures State() == ConfirmEffect(old(State()), outcome)
      ensures result == ConfirmResultOf(outcome)
      ensures result.NotConfirmed? ==> error == Some(result.error)
      ensures calls == [CreateOrderFromCart(paymentMethod, notes)]
    {
      Dispatch(SetLoading(true));
      calls := [CreateOrderFromCart(paymentMethod, notes)];
      match outcome {
        case OrderCreated(o) =>
          Dispatch(Clear);
          result := Confirmed(o);
        case OrderFailed(m) =>
          var message := OrElse(m, ConfirmOrderError);
          Dispatch(SetError(message));
          result := NotConfirmed(message);
      }
    }

    /** `clear`. */
    method ClearCart()
      requires Valid()
      modifies this
      ensures Valid() && State() == InitialCart
    {
      Dispatch(Clear);
    }

    /** The provider's effect on an authentication change: re-read the cart
        when authenticated, clear it otherwise. */
    method OnAuthChange(input: RefreshInput) returns (calls: seq<GatewayCall>)
      requires Valid()
      modifies this
      ensures Valid()
      ensures State() == RefreshEffect(old(State()), input)
      ensures !input.authenticated ==> items == [] && TotalItems(items) == 0 && calls == []
    {
      if input.authenticated {
        calls := RefreshCart(input);
      } else {
        ClearCart();
        calls := [];
      }
    }
  }
}
