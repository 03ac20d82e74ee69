/** The order history page (src/pages/Purchases.tsx). The order array is never
    changed here; the page filters it by a search text and a status tab,
    counts it, and decides per order which actions and dates to show. */
module Purchases {
  import opened Wrappers
  import opened Seqs
  import opened Text

  datatype ItemSeller = ItemSeller(name: string, id: string)

  datatype PurchasedItem = PurchasedItem(
    id: string,
    title: string,
    price: real,
    quantity: int,
    image: string,
    seller: ItemSeller,
    category: string,
    condition: string)

  /** An order. The status is free text; the page knows "processing",
      "in-transit" and "delivered". */
  datatype Order = Order(
    id: string,
    orderNumber: string,
    date: string,
    status: string,
    total: real,
    items: seq<PurchasedItem>,
    shipping: real,
    deliveryDate: Option<string>,
    estimatedDelivery: Option<string>,
    trackingNumber: Option<string>,
    reviewed: bool)

  const SeedOrders: seq<Order> := [
    Order("order-1", "ECO-2024-001", "2024-01-20", "delivered", 89.0,
      [PurchasedItem("item-1", "Vintage Leather Jacket - Excellent Condition", 81.0, 1,
        "https://images.unsplash.com/photo-1520975954732-35dd22299614?w=300&h=300&fit=crop",
        ItemSeller("Sarah M.", "seller1"), "clothing", "excellent")],
      8.0, Some("2024-01-22"), None, Some("1Z999AA1234567890"), true),
    Order("order-2", "ECO-2024-002", "2024-01-15", "in-transit", 1215.0,
      [PurchasedItem("item-2", "MacBook Pro 2019 - Barely Used", 1200.0, 1,
        "https://images.unsplash.com/photo-1496181133206-80ce9b88a853?w=300&h=300&fit=crop",
        ItemSeller("Mike R.", "seller2"), "electronics", "excellent")],
      15.0, None, Some("2024-01-25"), Some("1Z999BB7654321098"), false),
    Order("order-3", "ECO-2024-003", "2024-01-10", "processing", 475.0,
      [PurchasedItem("item-3", "Scandinavian Dining Table Set", 450.0, 1,
        "https://images.unsplash.com/photo-1586023492125-27b2c045efd7?w=300&h=300&fit=crop",
        ItemSeller("Emma K.", "seller3"), "home", "good")],
      25.0, None, Some("2024-01-28"), None, false)
  ]

  // ---------------------------------------------------------------------------
  // Search and tab filter

  /** The test inside `items.some(...)`: the item's title or the order's
      number contains the query, all lower-cased. */
  predicate ItemMatches(o: Order, item: PurchasedItem, query: string)
  {
    Includes(Lower(item.title), Lower(query)) || Includes(Lower(o.orderNumber), Lower(query))
  }

  function ItemTest(o: Order, query: string): PurchasedItem -> bool
  {
    (item: PurchasedItem) => ItemMatches(o, item, query)
  }

  /** `matchesSearch`. */
  predicate MatchesSearch(o: Order, query: string): (b: bool)
    ensures b ==> |o.items| > 0
    ensures b ==> exists item :: item in o.items && ItemMatches(o, item, query)
  {
    Any(o.items, ItemTest(o, query))
  }

  /** `matchesTab`. */
  predicate MatchesTab(o: Order, tab: string): (b: bool)
    ensures tab == o.status ==> b
    ensures b && tab != "all" ==> o.status == tab
  {
    tab == "all" || o.status == tab
  }

  function Shown(query: string, tab: string): Order -> bool
  {
    (o: Order) => MatchesSearch(o, query) && MatchesTab(o, tab)
  }

  /** `filteredPurchases`: the orders passing both tests, in their original
      order; each is in the selected tab. */
  function FilterPurchases(orders: seq<Order>, query: string, tab: string): (r: seq<Order>)
    ensures IsSubsequence(r, orders)
    ensures forall o :: o in r <==> o in orders && MatchesSearch(o, query) && MatchesTab(o, tab)
    ensures forall o :: o in r ==> tab == "all" || o.status == tab
    ensures forall o :: multiset(r)[o] == (if Shown(query, tab)(o) then multiset(orders)[o] else 0)
  {
    FilterIsSubsequence(orders, Shown(query, tab));
    forall o ensures multiset(Filter(orders, Shown(query, tab)))[o] ==
      if Shown(query, tab)(o) then multiset(orders)[o] else 0
    {
      FilterMultiset(orders, Shown(query, tab), o);
    }
    Filter(orders, Shown(query, tab))
  }

  /** Because the order-number test sits inside `some`, an order matches when
      it has at least one item and either its number or some item's title
      contains the query (ignoring case). */
  lemma SearchIff(o: Order, query: string)
    ensures MatchesSearch(o, query) <==>
      |o.items| > 0 &&
      (Includes(Lower(o.orderNumber), Lower(query)) ||
       exists i :: 0 <= i < |o.items| && Includes(Lower(o.items[i].title), Lower(query)))
  {
    if |o.items| > 0 {
      assert ItemTest(o, query)(o.items[0]) == ItemMatches(o, o.items[0], query);
    }
  }

  /** An order without items is never shown, whatever the query and tab. */
  lemma NoItemsNeverShown(orders: seq<Order>, o: Order, query: string, tab: string)
    requires o.items == []
    ensures o !in FilterPurchases(orders, query, tab)
  {
  }

  /** The empty query matches exactly the orders that have items. */
  lemma EmptyQuery(o: Order)
    ensures MatchesSearch(o, "") <==> |o.items| > 0
  {
    if |o.items| > 0 {
      assert Lower("") == "";
      assert ItemTest(o, "")(o.items[0]);
    }
  }

  /** The query's case makes no difference. */
  lemma QueryCaseIrrelevant(o: Order, query: string)
    ensures MatchesSearch(o, Lower(query)) == MatchesSearch(o, query)
  {
    LowerIdempotent(query);
    assert forall item :: ItemTest(o, Lower(query))(item) == ItemTest(o, query)(item);
  }

  /** An order whose number and item titles lack the letter m in either case
      does not match "MacBook". */
  lemma NoLetterM(o: Order)
    requires |o.items| == 1
    requires LacksM(o.items[0].title) && LacksM(o.orderNumber)
    ensures !MatchesSearch(o, "MacBook")
  {
    var q := Lower("MacBook");
    assert q[0] == 'm';
    assert 'm' !in o.items[0].title && 'M' !in o.items[0].title;
    assert 'm' !in o.orderNumber && 'M' !in o.orderNumber;
    LowerMissing(o.items[0].title, 'm');
    LowerMissing(o.orderNumber, 'm');
    MissingFirstChar(Lower(o.items[0].title), q);
    MissingFirstChar(Lower(o.orderNumber), q);
    SearchIff(o, "MacBook");
  }

  /** The letter m, in either case, is absent from a text. */
  predicate LacksM(s: string)
  {
    forall i :: 0 <= i < |s| ==> s[i] != 'm' && s[i] != 'M'
  }

  lemma SeededLetters()
    ensures LacksM("Vintage Leather Jacket - Excellent Condition")
    ensures LacksM("Scandinavian Dining Table Set")
    ensures LacksM("ECO-2024-001") && LacksM("ECO-2024-003")
  {
  }

  lemma SeededMisses()
    ensures !MatchesSearch(SeedOrders[0], "MacBook")
    ensures !MatchesSearch(SeedOrders[2], "MacBook")
  {
    SeededLetters();
    assert SeedOrders[0].items[0].title == "Vintage Leather Jacket - Excellent Condition";
    assert SeedOrders[0].orderNumber == "ECO-2024-001";
    NoLetterM(SeedOrders[0]);
    assert SeedOrders[2].items[0].title == "Scandinavian Dining Table Set";
    assert SeedOrders[2].orderNumber == "ECO-2024-003";
    NoLetterM(SeedOrders[2]);
  }

  lemma MacBookPrefix()
    ensures "MacBook Pro 2019 - Barely Used"[..7] == "MacBook"
    ensures Lower("MacBook") == "macbook"
  {
  }

  lemma SeededMacBook()
    ensures MatchesSearch(SeedOrders[1], "MacBook")
  {
    var o := SeedOrders[1];
    var title := o.items[0].title;
    MacBookPrefix();
    assert title == "MacBook Pro 2019 - Barely Used";
    LowerPrefix(title, 7);
    assert Lower(title)[..7] == "macbook";
    assert ItemTest(o, "MacBook")(o.items[0]);
  }

  /** Of three orders, a test that only the middle one passes keeps the middle one. */
  lemma {:induction false} FilterPicksMiddle(a: Order, b: Order, c: Order, p: Order -> bool)
    requires !p(a) && p(b) && !p(c)
    ensures Filter([a, b, c], p) == [b]
  {
    assert [a, b, c][1..] == [b, c];
    assert [b, c][1..] == [c];
    assert [c][1..] == [];
    assert Filter([c], p) == [];
    assert Filter([b, c], p) == [b];
  }

  /** Of three orders, a test that only the first one passes keeps the first one. */
  lemma {:induction false} FilterPicksFirst(a: Order, b: Order, c: Order, p: Order -> bool)
    requires p(a) && !p(b) && !p(c)
    ensures Filter([a, b, c], p) == [a]
  {
    assert [a, b, c][1..] == [b, c];
    assert [b, c][1..] == [c];
    assert [c][1..] == [];
    assert Filter([c], p) == [];
    assert Filter([b, c], p) == [];
  }

  /** The facts about the three seeded orders that the sample searches need.
      The list is passed in and pinned by `requires` (here and in
      `SeededSearches`) so that the proofs reason about its three elements
      instead of unfolding the whole constant at every step. */
  lemma SeededFacts(orders: seq<Order>)
    requires orders == SeedOrders
    ensures orders == [orders[0], orders[1], orders[2]]
    ensures !MatchesSearch(orders[0], "MacBook") && MatchesSearch(orders[1], "MacBook")
    ensures !MatchesSearch(orders[2], "MacBook")
    ensures |orders[0].items| > 0
    ensures orders[0].status == "delivered" && orders[1].status != "delivered"
    ensures orders[2].status != "delivered"
  {
    SeededMisses();
    SeededMacBook();
  }

  /** On the seeded orders, "MacBook" finds exactly the order holding the
      MacBook, and the empty query under the delivered tab finds exactly the
      delivered order. `orders` is `SeedOrders`, passed in for the reason
      given at `SeededFacts`. */
  lemma SeededSearches(orders: seq<Order>)
    requires orders == SeedOrders
    ensures FilterPurchases(orders, "MacBook", "all") == [orders[1]]
    ensures FilterPurchases(orders, "", "delivered") == [orders[0]]
  {
    SeededFacts(orders);
    var o0, o1, o2 := orders[0], orders[1], orders[2];
    EmptyQuery(o0);
    FilterPicksMiddle(o0, o1, o2, Shown("MacBook", "all"));
    FilterPicksFirst(o0, o1, o2, Shown("", "delivered"));
  }

  // ---------------------------------------------------------------------------
  // Counters

  function HasStatus(status: string): Order -> bool
  {
    (o: Order) => o.status == status
  }

  function OrderTotal(o: Order): real
  {
    o.total
  }

  datatype PurchaseStats = PurchaseStats(
    total: nat,
    delivered: nat,
    inTransit: nat,
    processing: nat,
    totalSpent: real)

  /** `stats`, over the whole order list: it takes no query and no tab. */
  function ComputeStats(orders: seq<Order>): (r: PurchaseStats)
    ensures r.total == |orders|
    ensures r.delivered + r.inTransit + r.processing <= r.total
    ensures (forall o :: o in orders ==> o.total >= 0.0) ==> r.totalSpent >= 0.0
  {
    CountsBounded(orders);
    SumNonNegative(orders, OrderTotal);
    PurchaseStats(
      |orders|,
      |Filter(orders, HasStatus("delivered"))|,
      |Filter(orders, HasStatus("in-transit"))|,
      |Filter(orders, HasStatus("processing"))|,
      Sum(orders, OrderTotal))
  }

  lemma {:induction false} CountsBounded(orders: seq<Order>)
    ensures |Filter(orders, HasStatus("delivered"))| + |Filter(orders, HasStatus("in-transit"))|
          + |Filter(orders, HasStatus("processing"))| <= |orders|
  {
    if orders != [] {
      assert orders == [orders[0]] + orders[1..];
      CountsBounded(orders[1..]);
      FilterConcat([orders[0]], orders[1..], HasStatus("delivered"));
      FilterConcat([orders[0]], orders[1..], HasStatus("in-transit"));
      FilterConcat([orders[0]], orders[1..], HasStatus("processing"));
    }
  }

  /** When every order has items, each counter is the size of its tab under
      the empty query, and the total is the size of the "all" tab. */
  lemma StatsMatchTabs(orders: seq<Order>)
    requires forall o :: o in orders ==> |o.items| > 0
    ensures ComputeStats(orders).total == |FilterPurchases(orders, "", "all")|
    ensures ComputeStats(orders).delivered == |FilterPurchases(orders, "", "delivered")|
    ensures ComputeStats(orders).inTransit == |FilterPurchases(orders, "", "in-transit")|
    ensures ComputeStats(orders).processing == |FilterPurchases(orders, "", "processing")|
  {
    forall o | o in orders ensures Shown("", "all")(o) {
      EmptyQuery(o);
    }
    FilterKeepsAll(orders, Shown("", "all"));
    TabMatchesStatus(orders, "delivered");
    TabMatchesStatus(orders, "in-transit");
    TabMatchesStatus(orders, "processing");
  }

  lemma TabMatchesStatus(orders: seq<Order>, status: string)
    requires forall o :: o in orders ==> |o.items| > 0
    requires status != "all"
    ensures Filter(orders, HasStatus(status)) == FilterPurchases(orders, "", status)
  {
    forall o | o in orders ensures HasStatus(status)(o) == Shown("", status)(o) {
      EmptyQuery(o);
    }
    FilterSameTest(orders, HasStatus(status), Shown("", status));
  }

  predicate KnownStatus(o: Order)
  {
    o.status == "delivered" || o.status == "in-transit" || o.status == "processing"
  }

  function Spent(orders: seq<Order>, status: string): real
  {
    Sum(Filter(orders, HasStatus(status)), OrderTotal)
  }

  /** When every order has one of the three statuses, the amount spent is the
      sum of what the delivered, in-transit and processing tabs hold. */
  lemma {:induction false} SpentSplitsByStatus(orders: seq<Order>)
    requires forall o :: o in orders ==> KnownStatus(o)
    ensures ComputeStats(orders).totalSpent ==
      Spent(orders, "delivered") + Spent(orders, "in-transit") + Spent(orders, "processing")
  {
    if orders != [] {
      SpentSplitsByStatus(orders[1..]);
      assert orders[0] in orders;
      SpentStep(orders, "delivered");
      SpentStep(orders, "in-transit");
      SpentStep(orders, "processing");
    }
  }

  lemma SpentStep(orders: seq<Order>, status: string)
    requires orders != []
    ensures Spent(orders, status) ==
      (if orders[0].status == status then orders[0].total else 0.0) + Spent(orders[1..], status)
  {
    var rest := Filter(orders[1..], HasStatus(status));
    if orders[0].status == status {
      assert Filter(orders, HasStatus(status)) == [orders[0]] + rest;
      assert ([orders[0]] + rest)[1..] == rest;
    } else {
      assert Filter(orders, HasStatus(status)) == rest;
    }
  }

  // ---------------------------------------------------------------------------
  // Per-order actions and dates

  datatype OrderAction = WriteReview | TrackPackage | ContactSeller | ReturnExchange | Receipt

  /** The buttons under an order, left to right. */
  function Actions(o: Order): (r: seq<OrderAction>)
    ensures WriteReview in r <==> o.status == "delivered" && !o.reviewed
    ensures TrackPackage in r <==> o.status != "processing"
    ensures ReturnExchange in r <==> o.status == "delivered"
    ensures ContactSeller in r && Receipt in r
    ensures r[|r| - 1] == Receipt
  {
    (if o.status == "delivered" && !o.reviewed then [WriteReview] else [])
      + (if o.status != "processing" then [TrackPackage] else [])
      + [ContactSeller]
      + (if o.status == "delivered" then [ReturnExchange] else [])
      + [Receipt]
  }

  /** JavaScript truthiness of an optional text: present and not empty. */
  predicate Truthy(s: Option<string>)
  {
    s.Some? && s.value != ""
  }

  datatype DeliveryNote = DeliveredOn(date: string) | ExpectedBy(date: string)

  /** The date part of the line under an order: the delivery date for a
      delivered order, the expected date for any other, when present. */
  function DeliveryNoteOf(o: Order): (r: Option<DeliveryNote>)
    ensures r.Some? && r.value.DeliveredOn? ==>
      o.status == "delivered" && o.deliveryDate == Some(r.value.date)
    ensures r.Some? && r.value.ExpectedBy? ==>
      o.status != "delivered" && o.estimatedDelivery == Some(r.value.date)
    ensures r.None? <==>
      (o.status == "delivered" && !Truthy(o.deliveryDate)) ||
      (o.status != "delivered" && !Truthy(o.estimatedDelivery))
  {
    if o.status == "delivered" && Truthy(o.deliveryDate) then Some(DeliveredOn(o.deliveryDate.value))
    else if o.status != "delivered" && Truthy(o.estimatedDelivery) then Some(ExpectedBy(o.estimatedDelivery.value))
    else None
  }

  /** The tracking part of that line, shown whenever the number is present. */
  function TrackingNote(o: Order): (r: Option<string>)
    ensures r.Some? <==> Truthy(o.trackingNumber)
    ensures r.Some? ==> o.trackingNumber == r
  {
    if Truthy(o.trackingNumber) then o.trackingNumber else None
  }
}
