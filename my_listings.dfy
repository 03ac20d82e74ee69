/** The seller's listing page (src/pages/MyListings.tsx). The listing array is
    never changed on this page; what it computes is the list shown under the
    selected status tab, a row of counters over the whole list, and per-listing
    menu and date choices. */
module MyListings {
  import opened Wrappers
  import opened Seqs

  /** A listing. The status is free text; the page knows "active", "sold",
      "paused" and "draft". `soldDate` is present on sold listings only. */
  datatype Listing = Listing(
    id: string,
    title: string,
    price: real,
    category: string,
    condition: string,
    status: string,
    views: nat,
    likes: nat,
    image: string,
    createdAt: string,
    updatedAt: string,
    soldDate: Option<string>)

  const SeedListings: seq<Listing> := [
    Listing("1", "Vintage Leather Jacket - Excellent Condition", 89.0, "clothing", "excellent", "active", 45, 12,
      "https://images.unsplash.com/photo-1520975954732-35dd22299614?w=300&h=300&fit=crop",
      "2024-01-15", "2024-01-15", None),
    Listing("2", "MacBook Pro 2019 - Barely Used", 1200.0, "electronics", "excellent", "sold", 123, 28,
      "https://images.unsplash.com/photo-1496181133206-80ce9b88a853?w=300&h=300&fit=crop",
      "2024-01-10", "2024-01-20", Some("2024-01-20")),
    Listing("3", "Scandinavian Dining Table Set", 450.0, "home", "good", "paused", 67, 15,
      "https://images.unsplash.com/photo-1586023492125-27b2c045efd7?w=300&h=300&fit=crop",
      "2024-01-05", "2024-01-18", None),
    Listing("4", "Designer Handbag - Authentic", 150.0, "clothing", "good", "draft", 0, 0,
      "https://images.unsplash.com/photo-1553062407-98eeb64c6a62?w=300&h=300&fit=crop",
      "2024-01-22", "2024-01-22", None)
  ]

  /** The page's own example: four listings, one each active, sold, paused and
      draft, with 45 + 123 + 67 + 0 = 235 views and the sold MacBook's 1200 as
      earnings. The list is passed in and pinned by `requires`, so the proof
      reasons about its four elements rather than unfolding the whole constant. */
  lemma SeededStats(listings: seq<Listing>)
    requires listings == SeedListings
    ensures ComputeStats(listings) == ListingStats(4, 1, 1, 1, 235.0, 1200.0)
  {
    SeededShape(listings);
    StatsOfFour(listings[0], listings[1], listings[2], listings[3]);
  }

  lemma SeededShape(listings: seq<Listing>)
    requires listings == SeedListings
    ensures listings == [listings[0], listings[1], listings[2], listings[3]]
    ensures listings[0].status == "active" && listings[0].views == 45
    ensures listings[1].status == "sold" && listings[1].views == 123 && listings[1].price == 1200.0
    ensures listings[2].status == "paused" && listings[2].views == 67
    ensures listings[3].status == "draft" && listings[3].views == 0
  {
  }

  /** Four listings, one in each status, give one of each counter, their
      summed views, and the sold one's price as earnings. */
  lemma StatsOfFour(a: Listing, b: Listing, c: Listing, d: Listing)
    requires a.status == "active" && b.status == "sold" && c.status == "paused" && d.status == "draft"
    ensures ComputeStats([a, b, c, d]) ==
      ListingStats(4, 1, 1, 1, a.views as real + b.views as real + c.views as real + d.views as real, b.price)
  {
    CountsOfFour(a, b, c, d);
    SumFour(a, b, c, d, Views);
    SumFour(a, b, c, d, Earned);
    StatsSums([a, b, c, d]);
  }

  lemma CountsOfFour(a: Listing, b: Listing, c: Listing, d: Listing)
    requires a.status == "active" && b.status == "sold" && c.status == "paused" && d.status == "draft"
    ensures CountStatus([a, b, c, d], "active") == 1
    ensures CountStatus([a, b, c, d], "sold") == 1
    ensures CountStatus([a, b, c, d], "draft") == 1
  {
    assert HasStatus("active")(a) && !HasStatus("active")(b) && !HasStatus("active")(c) && !HasStatus("active")(d);
    assert !HasStatus("sold")(a) && HasStatus("sold")(b) && !HasStatus("sold")(c) && !HasStatus("sold")(d);
    assert !HasStatus("draft")(a) && !HasStatus("draft")(b) && !HasStatus("draft")(c) && HasStatus("draft")(d);
    CountFour(a, b, c, d, HasStatus("active"));
    CountFour(a, b, c, d, HasStatus("sold"));
    CountFour(a, b, c, d, HasStatus("draft"));
  }

  lemma {:induction false} CountFour(a: Listing, b: Listing, c: Listing, d: Listing, p: Listing -> bool)
    ensures |Filter([a, b, c, d], p)| ==
      (if p(a) then 1 else 0) + (if p(b) then 1 else 0) + (if p(c) then 1 else 0) + (if p(d) then 1 else 0)
  {
    assert [a, b, c, d][1..] == [b, c, d];
    assert [b, c, d][1..] == [c, d];
    assert [c, d][1..] == [d];
    assert [d][1..] == [];
    assert |Filter([d], p)| == if p(d) then 1 else 0;
    assert |Filter([c, d], p)| == (if p(c) then 1 else 0) + |Filter([d], p)|;
    assert |Filter([b, c, d], p)| == (if p(b) then 1 else 0) + |Filter([c, d], p)|;
  }

  lemma {:induction false} SumFour(a: Listing, b: Listing, c: Listing, d: Listing, f: Listing -> real)
    ensures Sum([a, b, c, d], f) == f(a) + f(b) + f(c) + f(d)
  {
    assert [a, b, c, d][1..] == [b, c, d];
    assert [b, c, d][1..] == [c, d];
    assert [c, d][1..] == [d];
    assert [d][1..] == [];
    assert Sum([d], f) == f(d);
    assert Sum([c, d], f) == f(c) + Sum([d], f);
    assert Sum([b, c, d], f) == f(b) + Sum([c, d], f);
  }

  /** The status values the tabs offer, besides "all". */
  predicate KnownStatus(status: string)
  {
    status == "active" || status == "sold" || status == "paused" || status == "draft"
  }

  function InTab(tab: string): Listing -> bool
  {
    (l: Listing) => tab == "all" || l.status == tab
  }

  function HasStatus(status: string): Listing -> bool
  {
    (l: Listing) => l.status == status
  }

  /** `filteredListings`: tab "all" shows everything; any other tab shows the
      listings with exactly that status, in their original order. */
  function FilterByTab(listings: seq<Listing>, tab: string): (r: seq<Listing>)
    ensures tab == "all" ==> r == listings
    ensures tab != "all" ==> forall l :: multiset(r)[l] == if l.status == tab then multiset(listings)[l] else 0
    ensures IsSubsequence(r, listings)
  {
    var r := Filter(listings, InTab(tab));
    FilterIsSubsequence(listings, InTab(tab));
    if tab == "all" then
      FilterKeepsAll(listings, InTab(tab));
      r
    else
      assert forall l :: multiset(r)[l] == if l.status == tab then multiset(listings)[l] else 0 by {
        forall l ensures multiset(r)[l] == if l.status == tab then multiset(listings)[l] else 0 {
          FilterMultiset(listings, InTab(tab), l);
        }
      }
      r
  }

  /** How many listings have the given status. */
  function CountStatus(listings: seq<Listing>, status: string): nat
  {
    |Filter(listings, HasStatus(status))|
  }

  function Views(l: Listing): real
  {
    l.views as real
  }

  function Price(l: Listing): real
  {
    l.price
  }

  datatype ListingStats = ListingStats(
    total: nat,
    active: nat,
    sold: nat,
    drafts: nat,
    totalViews: real,
    totalEarnings: real)

  /** `stats`, taken over the whole list: it has no tab argument, so the
      selected tab cannot change it. The three counters are the sizes of the
      lists the matching tabs show. */
  function ComputeStats(listings: seq<Listing>): (r: ListingStats)
    ensures r.total == |FilterByTab(listings, "all")|
    ensures r.active == |FilterByTab(listings, "active")|
    ensures r.sold == |FilterByTab(listings, "sold")|
    ensures r.drafts == |FilterByTab(listings, "draft")|
  {
    FilterSameTest(listings, HasStatus("active"), InTab("active"));
    FilterSameTest(listings, HasStatus("sold"), InTab("sold"));
    FilterSameTest(listings, HasStatus("draft"), InTab("draft"));
    ListingStats(
      |listings|,
      CountStatus(listings, "active"),
      CountStatus(listings, "sold"),
      CountStatus(listings, "draft"),
      Sum(listings, Views),
      Sum(Filter(listings, HasStatus("sold")), Price))
  }

  /** A listing's contribution to the earnings: its price once sold, else nothing. */
  function Earned(l: Listing): real
  {
    if l.status == "sold" then l.price else 0.0
  }

  /** Total views add up every listing's views; earnings add up the prices of
      sold listings only, and with non-negative prices never exceed the
      listed value of everything. */
  lemma StatsSums(listings: seq<Listing>)
    ensures ComputeStats(listings).totalViews == Sum(listings, Views)
    ensures ComputeStats(listings).totalEarnings == Sum(listings, Earned)
    ensures (forall l :: l in listings ==> l.price >= 0.0) ==>
      ComputeStats(listings).totalEarnings <= Sum(listings, Price)
  {
    SumFilter(listings, HasStatus("sold"), Price, Earned);
    if forall l :: l in listings ==> l.price >= 0.0 {
      SumMonotone(listings, Earned, Price);
    }
  }

  /** When every status is one of the four known ones, the four status tabs
      split the list: their sizes add up to the total. */
  lemma {:induction false} TabsPartition(listings: seq<Listing>)
    requires forall l :: l in listings ==> KnownStatus(l.status)
    ensures |FilterByTab(listings, "active")| + |FilterByTab(listings, "sold")|
          + |FilterByTab(listings, "paused")| + |FilterByTab(listings, "draft")|
         == ComputeStats(listings).total
  {
    if listings != [] {
      assert listings[0] in listings;
      assert listings == [listings[0]] + listings[1..];
      TabsPartition(listings[1..]);
      FilterConcat([listings[0]], listings[1..], InTab("active"));
      FilterConcat([listings[0]], listings[1..], InTab("sold"));
      FilterConcat([listings[0]], listings[1..], InTab("paused"));
      FilterConcat([listings[0]], listings[1..], InTab("draft"));
    }
  }

  /** The entries of a listing's menu. */
  datatype MenuAction = ViewDetails | EditListing | PauseListing | ActivateListing | DeleteListing

  /** The menu: view, edit, then "Pause" for an active listing or "Activate"
      for a paused one, then delete. */
  function MenuActions(l: Listing): (r: seq<MenuAction>)
    ensures PauseListing in r <==> l.status == "active"
    ensures ActivateListing in r <==> l.status == "paused"
    ensures ViewDetails in r && EditListing in r && DeleteListing in r
    ensures r[0] == ViewDetails && r[|r| - 1] == DeleteListing
    ensures |r| == if l.status == "active" || l.status == "paused" then 4 else 3
  {
    [ViewDetails, EditListing]
      + (if l.status == "active" then [PauseListing] else [])
      + (if l.status == "paused" then [ActivateListing] else [])
      + [DeleteListing]
  }

  /** The last cell of a listing row: its heading and the date it shows. */
  datatype DateCell = DateCell(heading: string, date: Option<string>)

  /** A sold listing shows "Sold" and its sale date (absent if the data lacks
      one); any other listing shows "Updated" and its update date. */
  function DateColumn(l: Listing): (r: DateCell)
    ensures r.heading == "Sold" <==> l.status == "sold"
    ensures l.status == "sold" ==> r.date == l.soldDate
    ensures l.status != "sold" ==> r == DateCell("Updated", Some(l.updatedAt))
  {
    if l.status == "sold" then DateCell("Sold", l.soldDate) else DateCell("Updated", Some(l.updatedAt))
  }
}
