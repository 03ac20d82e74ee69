/** The shopping cart page (src/pages/Cart.tsx): a list of line items, the
    promo text being typed, and at most one applied promo. The click handlers
    replace that state; the totals are derived from it on every render. */
module Cart {
  import opened Wrappers
  import opened Seqs
  import Text

  datatype Seller = Seller(name: string, rating: int, id: string)

  /** One cart line; money is exact (`real`), never rounded. */
  datatype CartLine = CartLine(
    id: string,
    title: string,
    price: real,
    originalPrice: real,
    category: string,
    condition: string,
    image: string,
    seller: Seller,
    quantity: int,
    shippingCost: real,
    isLiked: bool)

  /** An applied promo: the code as the user typed it and its percentage. */
  datatype Promo = Promo(code: string, discount: int)

  /** The cart the page starts with. */
  const SeedItems: seq<CartLine> := [
    CartLine("1", "Vintage Leather Jacket - Excellent Condition", 89.0, 120.0, "clothing", "excellent",
      "https://images.unsplash.com/photo-1520975954732-35dd22299614?w=300&h=300&fit=crop",
      Seller("Sarah M.", 5, "seller1"), 1, 8.0, true),
    CartLine("2", "MacBook Pro 2019 - Barely Used", 1200.0, 1800.0, "electronics", "excellent",
      "https://images.unsplash.com/photo-1496181133206-80ce9b88a853?w=300&h=300&fit=crop",
      Seller("Mike R.", 5, "seller2"), 1, 15.0, false),
    CartLine("3", "Scandinavian Dining Table Set", 450.0, 700.0, "home", "good",
      "https://images.unsplash.com/photo-1586023492125-27b2c045efd7?w=300&h=300&fit=crop",
      Seller("Emma K.", 4, "seller3"), 1, 25.0, true)
  ]

  // ---------------------------------------------------------------------------
  // Line-list updates

  function HasOtherId(id: string): CartLine -> bool
  {
    (line: CartLine) => line.id != id
  }

  /** `removeItem`: `items.filter(item => item.id !== id)`. */
  function RemoveLine(items: seq<CartLine>, id: string): (r: seq<CartLine>)
    ensures forall line :: line in r <==> line in items && line.id != id
    ensures forall line :: multiset(r)[line] == if line.id == id then 0 else multiset(items)[line]
    ensures IsSubsequence(r, items)
  {
    FilterIsSubsequence(items, HasOtherId(id));
    forall line ensures multiset(Filter(items, HasOtherId(id)))[line] == if line.id == id then 0 else multiset(items)[line] {
      FilterMultiset(items, HasOtherId(id), line);
    }
    Filter(items, HasOtherId(id))
  }

  function QuantitySetter(id: string, n: int): CartLine -> CartLine
  {
    (line: CartLine) => if line.id == id then line.(quantity := n) else line
  }

  /** The non-zero branch of `updateQuantity`: every line whose id matches gets
      quantity `n`; nothing else changes. */
  function WithQuantity(items: seq<CartLine>, id: string, n: int): (r: seq<CartLine>)
    ensures |r| == |items|
    ensures forall i :: 0 <= i < |items| ==>
      r[i].(quantity := items[i].quantity) == items[i] &&
      r[i].quantity == (if items[i].id == id then n else items[i].quantity)
  {
    Map(items, QuantitySetter(id, n))
  }

  function LikeFlipper(id: string): CartLine -> CartLine
  {
    (line: CartLine) => if line.id == id then line.(isLiked := !line.isLiked) else line
  }

  /** `toggleLike`: flips `isLiked` on every line whose id matches; nothing else changes. */
  function WithLikeToggled(items: seq<CartLine>, id: string): (r: seq<CartLine>)
    ensures |r| == |items|
    ensures forall i :: 0 <= i < |items| ==>
      r[i].(isLiked := items[i].isLiked) == items[i] &&
      r[i].isLiked == (if items[i].id == id then !items[i].isLiked else items[i].isLiked)
  {
    Map(items, LikeFlipper(id))
  }

  /** `updateQuantity`: quantity 0 removes the line, anything else overwrites the quantity. */
  function UpdatedQuantity(items: seq<CartLine>, id: string, n: int): (r: seq<CartLine>)
    ensures n == 0 ==> forall line :: line in r <==> line in items && line.id != id
    ensures n != 0 ==> |r| == |items| && forall i :: 0 <= i < |r| ==> r[i].id == items[i].id
    ensures forall line :: line in r && line.id == id ==> line.quantity == n
  {
    if n == 0 then RemoveLine(items, id) else WithQuantity(items, id, n)
  }

  // ---------------------------------------------------------------------------
  // Derived totals

  function LineAmount(line: CartLine): real
  {
    line.price * line.quantity as real
  }

  function LineShipping(line: CartLine): real
  {
    line.shippingCost
  }

  /** `subtotal`: the sum of price times quantity. */
  function Subtotal(items: seq<CartLine>): (r: real)
    ensures items == [] ==> r == 0.0
    ensures (forall line :: line in items ==> line.price >= 0.0 && line.quantity >= 0) ==> r >= 0.0
  {
    SumNonNegative(items, LineAmount);
    Sum(items, LineAmount)
  }

  /** `shippingTotal`: one shipping cost per line, whatever its quantity. */
  function ShippingTotal(items: seq<CartLine>): (r: real)
    ensures items == [] ==> r == 0.0
    ensures (forall line :: line in items ==> line.shippingCost >= 0.0) ==> r >= 0.0
  {
    SumNonNegative(items, LineShipping);
    Sum(items, LineShipping)
  }

  /** The percentage of the applied promo, 0 without one. */
  function PercentOf(promo: Option<Promo>): int
  {
    match promo
    case None => 0
    case Some(p) => p.discount
  }

  /** `promoDiscount`. */
  function PromoDiscount(items: seq<CartLine>, promo: Option<Promo>): (r: real)
    ensures promo == None ==> r == 0.0
    ensures 0 <= PercentOf(promo) <= 100 && Subtotal(items) >= 0.0 ==> 0.0 <= r <= Subtotal(items)
  {
    ShareBounds(Subtotal(items), PercentOf(promo));
    if promo.Some? then Share(Subtotal(items), promo.value.discount) else 0.0
  }

  /** `percent` percent of `amount`. */
  function Share(amount: real, percent: int): real
  {
    amount * percent as real / 100.0
  }

  /** Taking a percentage between 0 and 100 of a non-negative amount stays
      between 0 and that amount. */
  lemma ShareBounds(amount: real, percent: int)
    ensures 0 <= percent <= 100 && amount >= 0.0 ==> 0.0 <= Share(amount, percent) <= amount
  {
    if 0 <= percent <= 100 && amount >= 0.0 {
      var share := percent as real / 100.0;
      assert 0.0 <= share <= 1.0;
      assert Share(amount, percent) == amount * share;
      assert amount * share >= 0.0;
      assert amount - amount * share == amount * (1.0 - share);
      assert amount * (1.0 - share) >= 0.0;
    }
  }

  /** What a percentage leaves of an amount is the complementary percentage. */
  lemma ShareComplement(amount: real, percent: int)
    ensures amount - Share(amount, percent) == Share(amount, 100 - percent)
  {
    assert amount * percent as real + amount * (100 - percent) as real == amount * 100.0;
  }

  /** `total`: subtotal plus shipping less the discount, which is shipping plus
      the part of the subtotal the promo does not take off. */
  function Total(items: seq<CartLine>, promo: Option<Promo>): (r: real)
    ensures r == ShippingTotal(items) + Share(Subtotal(items), 100 - PercentOf(promo))
    ensures promo == None ==> r == Subtotal(items) + ShippingTotal(items)
  {
    ShareComplement(Subtotal(items), PercentOf(promo));
    Subtotal(items) + ShippingTotal(items) - PromoDiscount(items, promo)
  }

  /** The page shows its empty-cart view instead of the summary. */
  predicate ShowsEmptyCart(items: seq<CartLine>): (b: bool)
    ensures b ==> forall promo :: Total(items, promo) == 0.0
  {
    |items| == 0
  }

  /** The Apply button is enabled. */
  predicate CanApply(promoCode: string): (b: bool)
    ensures !b ==> MatchPromo(promoCode) == None
  {
    promoCode != ""
  }

  // ---------------------------------------------------------------------------
  // Promo codes

  /** The promo the typed text names, compared ignoring case; `None` for any other text. */
  function MatchPromo(text: string): (r: Option<Promo>)
    ensures r.Some? ==> r.value.code == text
    ensures r == Some(Promo(text, 10)) <==> Text.Lower(text) == "eco10"
    ensures r == Some(Promo(text, 20)) <==> Text.Lower(text) == "save20"
    ensures r == None <==> Text.Lower(text) != "eco10" && Text.Lower(text) != "save20"
  {
    if Text.Lower(text) == "eco10" then Some(Promo(text, 10))
    else if Text.Lower(text) == "save20" then Some(Promo(text, 20))
    else None
  }

  /** The promo kept after `applyPromoCode`: a recognised code replaces the
      applied one, anything else leaves it as it was. */
  function PromoAfterApply(text: string, applied: Option<Promo>): (r: Option<Promo>)
    ensures r == applied || r == MatchPromo(text)
    ensures MatchPromo(text) == None ==> r == applied
    ensures r.Some? && r != applied ==> r.value.code == text
    ensures MatchPromo(text).Some? ==> r == MatchPromo(text)
  {
    match MatchPromo(text)
    case Some(p) => Some(p)
    case None => applied
  }

  /** Only the two known percentages can be applied. */
  predicate KnownDiscount(promo: Option<Promo>)
  {
    promo.Some? ==> promo.value.discount == 10 || promo.value.discount == 20
  }

  /** No two lines share an id (the seeded cart has ids 1, 2 and 3). */
  predicate UniqueIds(items: seq<CartLine>)
  {
    Pairwise(items, (a: CartLine, b: CartLine) => a.id != b.id)
  }

  predicate PositiveQuantities(items: seq<CartLine>)
  {
    forall line :: line in items ==> line.quantity >= 1
  }

  // ---------------------------------------------------------------------------
  // Facts about the derivations

  /** Toggling the liked flag leaves every total alone. */
  lemma ToggleLikeKeepsTotals(items: seq<CartLine>, id: string, promo: Option<Promo>)
    ensures Subtotal(WithLikeToggled(items, id)) == Subtotal(items)
    ensures ShippingTotal(WithLikeToggled(items, id)) == ShippingTotal(items)
    ensures Total(WithLikeToggled(items, id), promo) == Total(items, promo)
  {
    SumMapUnchanged(items, LikeFlipper(id), LineAmount);
    SumMapUnchanged(items, LikeFlipper(id), LineShipping);
  }

  /** Changing a quantity never changes the shipping total. */
  lemma ShippingIgnoresQuantity(items: seq<CartLine>, id: string, n: int)
    ensures ShippingTotal(WithQuantity(items, id, n)) == ShippingTotal(items)
  {
    SumMapUnchanged(items, QuantitySetter(id, n), LineShipping);
  }

  lemma UniqueIdsTail(items: seq<CartLine>)
    requires UniqueIds(items) && items != []
    ensures UniqueIds(items[1..])
    ensures forall i :: 1 <= i < |items| ==> items[i].id != items[0].id
  {
    forall i, j | 0 <= i < j < |items[1..]|
      ensures items[1..][i].id != items[1..][j].id
    {
      assert items[1..][i] == items[i + 1] && items[1..][j] == items[j + 1];
    }
  }

  /** With unique ids, setting line k's quantity to n moves the subtotal by
      (n - old quantity) times its price. */
  lemma SubtotalAfterQuantityChange(items: seq<CartLine>, k: int, n: int)
    requires UniqueIds(items) && 0 <= k < |items|
    ensures Subtotal(WithQuantity(items, items[k].id, n))
         == Subtotal(items) + (n - items[k].quantity) as real * items[k].price
  {
    AmountAfterQuantityChange(items, k, n);
  }

  lemma AmountAfterQuantity(line: CartLine, n: int)
    ensures LineAmount(line.(quantity := n)) == LineAmount(line) + (n - line.quantity) as real * line.price
  {
    var p, q := line.price, line.quantity as real;
    assert p * n as real == p * q + (n as real - q) * p;
  }

  lemma {:induction false} AmountAfterQuantityChange(items: seq<CartLine>, k: int, n: int)
    requires UniqueIds(items) && 0 <= k < |items|
    ensures Sum(WithQuantity(items, items[k].id, n), LineAmount)
         == Sum(items, LineAmount) + (n - items[k].quantity) as real * items[k].price
  {
    var id := items[k].id;
    var r := WithQuantity(items, id, n);
    UniqueIdsTail(items);
    assert r == [QuantitySetter(id, n)(items[0])] + WithQuantity(items[1..], id, n);
    assert Sum(r, LineAmount) == LineAmount(r[0]) + Sum(WithQuantity(items[1..], id, n), LineAmount);
    assert Sum(items, LineAmount) == LineAmount(items[0]) + Sum(items[1..], LineAmount);
    if k == 0 {
      QuantityUntouched(items[1..], id, n);
      AmountAfterQuantity(items[0], n);
    } else {
      assert items[1..][k - 1] == items[k];
      AmountAfterQuantityChange(items[1..], k - 1, n);
    }
  }

  /** Lines whose ids all differ from `id` are left as they are. */
  lemma QuantityUntouched(items: seq<CartLine>, id: string, n: int)
    requires forall i :: 0 <= i < |items| ==> items[i].id != id
    ensures WithQuantity(items, id, n) == items
  {
    var r := WithQuantity(items, id, n);
    forall i | 0 <= i < |items| ensures r[i] == items[i] {
      assert r[i] == QuantitySetter(id, n)(items[i]);
    }
  }

  /** With unique ids, removing line k takes exactly its amount off the subtotal
      and its shipping cost off the shipping total. */
  lemma {:induction false} TotalsAfterRemove(items: seq<CartLine>, k: int)
    requires UniqueIds(items) && 0 <= k < |items|
    ensures Subtotal(RemoveLine(items, items[k].id)) == Subtotal(items) - LineAmount(items[k])
    ensures ShippingTotal(RemoveLine(items, items[k].id)) == ShippingTotal(items) - items[k].shippingCost
  {
    var id := items[k].id;
    UniqueIdsTail(items);
    assert items == [items[0]] + items[1..];
    FilterConcat([items[0]], items[1..], HasOtherId(id));
    if k == 0 {
      FilterKeepsAll(items[1..], HasOtherId(id));
      assert RemoveLine(items, id) == items[1..];
    } else {
      TotalsAfterRemove(items[1..], k - 1);
      assert RemoveLine(items, id) == [items[0]] + RemoveLine(items[1..], id);
    }
  }

  /** Removing a line keeps the ids unique. */
  lemma RemoveKeepsUniqueIds(items: seq<CartLine>, id: string)
    requires UniqueIds(items)
    ensures UniqueIds(RemoveLine(items, id))
  {
    FilterPairwise(items, HasOtherId(id), (a: CartLine, b: CartLine) => a.id != b.id);
  }

  /** With non-negative prices and quantities and a promo of at most 100%, the
      total never drops below the shipping total. */
  lemma TotalAtLeastShipping(items: seq<CartLine>, promo: Option<Promo>)
    requires forall line :: line in items ==> line.price >= 0.0 && line.quantity >= 0
    requires 0 <= PercentOf(promo) <= 100
    ensures Subtotal(items) >= 0.0
    ensures Total(items, promo) >= ShippingTotal(items)
  {
    ShareBounds(Subtotal(items), 100 - PercentOf(promo));
  }

  /** The seeded cart: 1739 subtotal, 48 shipping, 1787 total; with SAVE20
      the discount is 347.8 and the total 1439.2. */
  lemma SeededTotals()
    ensures Subtotal(SeedItems) == 1739.0
    ensures ShippingTotal(SeedItems) == 48.0
    ensures Total(SeedItems, None) == 1787.0
    ensures MatchPromo("SAVE20") == Some(Promo("SAVE20", 20))
    ensures PromoDiscount(SeedItems, Some(Promo("SAVE20", 20))) == 347.8
    ensures Total(SeedItems, Some(Promo("SAVE20", 20))) == 1439.2
  {
    assert Text.Lower("SAVE20") == "save20";
  }

  /** The seeded cart shows its summary; removing the last remaining line
      brings up the empty-cart view. */
  lemma EmptyCartView(line: CartLine)
    ensures !ShowsEmptyCart(SeedItems)
    ensures ShowsEmptyCart(RemoveLine([line], line.id))
  {
    assert line !in RemoveLine([line], line.id);
  }

  /** Case does not matter, spacing does. */
  lemma PromoExamples()
    ensures MatchPromo("ECO10") == Some(Promo("ECO10", 10))
    ensures MatchPromo("Save20") == Some(Promo("Save20", 20))
    ensures MatchPromo("eco 10") == None
    ensures MatchPromo("") == None
  {
    assert Text.Lower("ECO10") == "eco10";
    assert Text.Lower("Save20") == "save20";
    assert |Text.Lower("eco 10")| == 6 && Text.Lower("eco 10")[3] == ' ';
  }

  // ---------------------------------------------------------------------------
  // The page state

  class CartPage {
    var items: seq<CartLine>
    var promoCode: string
    var appliedPromo: Option<Promo>

    ghost predicate Valid()
      reads this
    {
      UniqueIds(items) && KnownDiscount(appliedPromo)
    }

    /** The page mounts with the seeded cart, no typed code and no promo. */
    constructor ()
      ensures Valid()
      ensures items == SeedItems && promoCode == "" && appliedPromo == None
    {
      items := SeedItems;
      promoCode := "";
      appliedPromo := None;
    }

    /** `removeItem(id)`. */
    method RemoveItem(id: string)
      requires Valid()
      modifies this
      ensures Valid()
      ensures items == RemoveLine(old(items), id)
      ensures promoCode == old(promoCode) && appliedPromo == old(appliedPromo)
    {
      RemoveKeepsUniqueIds(items, id);
      items := RemoveLine(items, id);
    }

    /** `updateQuantity(id, newQuantity)`. */
    method UpdateQuantity(id: string, newQuantity: int)
      requires Valid()
      modifies this
      ensures Valid()
      ensures items == UpdatedQuantity(old(items), id, newQuantity)
      ensures promoCode == old(promoCode) && appliedPromo == old(appliedPromo)
    {
      if newQuantity == 0 {
        RemoveItem(id);
      } else {
        items := WithQuantity(items, id, newQuantity);
      }
    }

    /** The minus button of line k: `updateQuantity(item.id, item.quantity - 1)`;
        a line at quantity 1 disappears, so quantities stay positive. */
    method Decrement(k: int)
      requires Valid() && 0 <= k < |items|
      modifies this
      ensures Valid()
      ensures items == UpdatedQuantity(old(items), old(items)[k].id, old(items)[k].quantity - 1)
      ensures PositiveQuantities(old(items)) ==> PositiveQuantities(items)
      ensures promoCode == old(promoCode) && appliedPromo == old(appliedPromo)
    {
      UpdateQuantity(items[k].id, items[k].quantity - 1);
    }

    /** The plus button of line k: `updateQuantity(item.id, item.quantity + 1)`. */
    method Increment(k: int)
      requires Valid() && 0 <= k < |items|
      modifies this
      ensures Valid()
      ensures items == UpdatedQuantity(old(items), old(items)[k].id, old(items)[k].quantity + 1)
      ensures PositiveQuantities(old(items)) ==> PositiveQuantities(items)
      ensures promoCode == old(promoCode) && appliedPromo == old(appliedPromo)
    {
      UpdateQuantity(items[k].id, items[k].quantity + 1);
    }

    /** `toggleLike(id)`. */
    method ToggleLike(id: string)
      requires Valid()
      modifies this
      ensures Valid()
      ensures items == WithLikeToggled(old(items), id)
      ensures promoCode == old(promoCode) && appliedPromo == old(appliedPromo)
    {
      items := WithLikeToggled(items, id);
    }

    /** Typing in the promo field. */
    method EditPromoCode(text: string)
      requires Valid()
      modifies this
      ensures Valid()
      ensures promoCode == text
      ensures items == old(items) && appliedPromo == old(appliedPromo)
    {
      promoCode := text;
    }

    /** `applyPromoCode`, reachable only through the Apply button, which is
        disabled while the field is empty. */
    method ApplyPromoCode()
      requires Valid() && CanApply(promoCode)
      modifies this
      ensures Valid()
      ensures appliedPromo == PromoAfterApply(old(promoCode), old(appliedPromo))
      ensures promoCode == ""
      ensures items == old(items)
    {
      var matched := MatchPromo(promoCode);
      if matched.Some? {
        appliedPromo := matched;
      }
      promoCode := "";
    }
  }
}
