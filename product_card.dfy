/** The catalogue card `src/components/ProductCard/index.js`: the
    five-star rating row, the stock badges and label, the add button's
    enabled state and `handleAddToCart`. */
module ProductCard {
  import opened Common
  import opened Text
  import CartContext

  datatype Star = Filled | Outline

  predicate IsFilled(s: Star) { s.Filled? }

  const StarCount := 5

  /** The row `renderStars(rating)` builds: star `i` (1 to 5) filled when
      `i <= rating`. */
  function StarRow(rating: int): (r: seq<Star>)
    ensures |r| == StarCount
    ensures forall k :: 0 <= k < StarCount ==> (r[k] == Filled <==> k + 1 <= rating)
  {
    seq(StarCount, k requires 0 <= k < StarCount => if k + 1 <= rating then Filled else Outline)
  }

  /** `rating` clamped to `0..5`. */
  function Clamp(rating: int): (n: nat)
    ensures n <= StarCount
    ensures 0 <= rating <= StarCount ==> n == rating
  {
    if rating < 0 then 0 else if rating > StarCount then StarCount else rating
  }

  /** `renderStars`. */
  method RenderStars(rating: int) returns (stars: seq<Star>)
    ensures stars == StarRow(rating)
  {
    stars := [];
    var i := 1;
    while i <= StarCount
      invariant 1 <= i <= StarCount + 1
      invariant |stars| == i - 1
      invariant forall k :: 0 <= k < i - 1 ==> stars[k] == StarRow(rating)[k]
    {
      if i <= rating {
        stars := stars + [Filled];
      } else {
        stars := stars + [Outline];
      }
      i := i + 1;
    }
  }

  /** A row whose first `m` stars are the filled ones has `m` filled stars. */
  lemma {:induction false} FilledPrefixCount(s: seq<Star>, m: nat)
    requires m <= |s|
    requires forall k :: 0 <= k < |s| ==> (s[k].Filled? <==> k < m)
    ensures Count(IsFilled, s) == m
  {
    if s != [] {
      var m' := if m > 0 then m - 1 else 0;
      assert forall k :: 0 <= k < |s[1..]| ==> (s[1..][k].Filled? <==> k < m') by {
        forall k | 0 <= k < |s[1..]| ensures s[1..][k].Filled? <==> k < m' {
          assert s[1..][k] == s[k + 1];
        }
      }
      FilledPrefixCount(s[1..], m');
    }
  }

  /** The number of filled stars is the rating clamped to `0..5`. */
  lemma FilledStars(rating: int)
    ensures Count(IsFilled, StarRow(rating)) == Clamp(rating)
  {
    FilledPrefixCount(StarRow(rating), Clamp(rating));
  }

  const SoldOutBadge := "Esgotado"
  const LastUnitsBadge := "Últimas unidades"
  const LowStockLimit := 5

  /** The badges over the image, in render order. */
  function Badges(stock: int): (r: seq<string>)
    ensures SoldOutBadge in r <==> stock == 0
    ensures LastUnitsBadge in r <==> 0 < stock < LowStockLimit
    ensures |r| <= 1
  {
    (if stock == 0 then [SoldOutBadge] else []) + (if stock > 0 && stock < LowStockLimit then [LastUnitsBadge] else [])
  }

  const UnavailableLabel := "Indisponível"
  const InStockSuffix := " em estoque"

  /** The stock line under the price. */
  function StockLabel(stock: int): (r: string)
    ensures stock > 0 ==> r == NatToString(stock) + InStockSuffix
    ensures stock <= 0 ==> r == UnavailableLabel
  {
    if stock > 0 then NatToString(stock) + InStockSuffix else UnavailableLabel
  }

  /** The label of a stocked product starts with the stock count itself. */
  lemma StockLabelShowsCount(stock: int)
    requires stock > 0
    ensures var digits := StockLabel(stock)[..|StockLabel(stock)| - |InStockSuffix|];
            (forall i :: 0 <= i < |digits| ==> IsDigit(digits[i])) && DecimalValue(digits) == stock
  {
    var digits := NatToString(stock);
    assert StockLabel(stock)[..|StockLabel(stock)| - |InStockSuffix|] == digits;
    NatToStringRoundTrip(stock);
  }

  /** The add button's `disabled`. */
  predicate AddDisabled(loading: bool, stock: int) {
    loading || stock == 0
  }

  /** The button, the badge and the stock line agree: a sold-out product
      has a disabled button, the "Esgotado" badge and the unavailable
      label, and an idle card with stock left has an enabled button. */
  lemma SoldOutAgrees(loading: bool, stock: int)
    ensures stock == 0 ==> AddDisabled(loading, stock) && Badges(stock) == [SoldOutBadge] && StockLabel(stock) == UnavailableLabel
    ensures !loading && stock > 0 ==> !AddDisabled(loading, stock) && SoldOutBadge !in Badges(stock)
  {
  }

  const LoginRequiredMessage := "Você precisa estar logado para adicionar produtos ao carrinho"
  const AddedMessage := "Produto adicionado ao carrinho!"
  const AddError := "Erro ao adicionar produto"

  /** What `cartService.addToCart` did; `message` is `error.message`. */
  datatype AddResult = AddOk | AddRejected(message: string)

  /** The card's own state cells. */
  class Card {
    var loading: bool
    var message: string

    constructor ()
      ensures !loading && message == ""
    {
      loading, message := false, "";
    }

    /** `handleAddToCart` for the product with id `productId`; `notified` is
        whether `onAddToCart` was called (it is called when supplied and the
        item was added). */
    method HandleAddToCart(isAuthenticated: bool, productId: string, outcome: AddResult, hasCallback: bool)
      returns (calls: seq<CartContext.GatewayCall>, notified: bool)
      modifies this
      ensures !isAuthenticated ==> calls == [] && !notified && message == LoginRequiredMessage && loading == old(loading)
      ensures isAuthenticated ==> calls == [CartContext.AddToCart(productId, 1)] && !loading
      ensures isAuthenticated && outcome.AddOk? ==> message == AddedMessage && notified == hasCallback
      ensures isAuthenticated && outcome.AddRejected? ==> message == OrElse(outcome.message, AddError) && !notified
    {
      calls, notified := [], false;
      if !isAuthenticated {
        message := LoginRequiredMessage;
        return;
      }
      loading := true;
      message := "";
      calls := [CartContext.AddToCart(productId, 1)];
      match outcome {
        case AddOk =>
          message := AddedMessage;
          if hasCallback {
            notified := true;
          }
        case AddRejected(m) =>
          message := OrElse(m, AddError);
      }
      loading := false;
    }
  }
}
