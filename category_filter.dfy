/** The category side panel of the browse page (src/components/filters/CategoryFilter.tsx).
    The component holds no state of its own: each click computes a new selection
    list and hands it to the page. */
module CategoryFilter {
  import opened Seqs

  type CategoryId = string

  datatype Category = Category(id: CategoryId, name: string, count: nat)

  /** The fixed category list the panel offers. */
  const Categories: seq<Category> := [
    Category("clothing", "Clothing", 234),
    Category("electronics", "Electronics", 156),
    Category("home", "Home & Garden", 189),
    Category("baby", "Baby & Kids", 87),
    Category("sports", "Sports & Games", 143),
    Category("cameras", "Photography", 65),
    Category("books", "Books & Media", 201),
    Category("automotive", "Automotive", 76)
  ]

  function IsNot(categoryId: CategoryId): CategoryId -> bool
  {
    id => id != categoryId
  }

  /** `selected.filter(id => id !== categoryId)`: drops every occurrence of
      `categoryId` and keeps every other entry, in order. */
  function Without(selected: seq<CategoryId>, categoryId: CategoryId): (r: seq<CategoryId>)
    ensures categoryId !in r
    ensures forall id :: id != categoryId ==> (id in r <==> id in selected)
    ensures multiset(r) == multiset(selected)[categoryId := 0]
    ensures IsSubsequence(r, selected)
  {
    var r := Filter(selected, IsNot(categoryId));
    FilterIsSubsequence(selected, IsNot(categoryId));
    forall id ensures multiset(r)[id] == multiset(selected)[categoryId := 0][id] {
      FilterMultiset(selected, IsNot(categoryId), id);
    }
    r
  }

  /** `handleCategoryToggle`: a selected id is removed, any other id is appended. */
  function Toggle(selected: seq<CategoryId>, categoryId: CategoryId): (r: seq<CategoryId>)
    ensures categoryId in r <==> categoryId !in selected
    ensures forall id :: id != categoryId ==> (id in r <==> id in selected)
    ensures categoryId !in selected ==>
      |r| == |selected| + 1 && r[..|selected|] == selected && r[|selected|] == categoryId
    ensures categoryId in selected ==>
      multiset(r) == multiset(selected)[categoryId := 0] && IsSubsequence(r, selected)
  {
    if categoryId in selected then Without(selected, categoryId)
    else selected + [categoryId]
  }

  /** `clearAllCategories`: the selection handed back is empty. */
  function ClearAll(): (r: seq<CategoryId>)
    ensures forall id :: id !in r
  {
    []
  }

  /** Removing an id that is not selected changes nothing. */
  lemma {:induction false} WithoutAbsent(selected: seq<CategoryId>, categoryId: CategoryId)
    requires categoryId !in selected
    ensures Without(selected, categoryId) == selected
  {
    FilterKeepsAll(selected, IsNot(categoryId));
  }

  /** Toggling an unselected id twice restores the original selection. */
  lemma ToggleTwiceRestores(selected: seq<CategoryId>, categoryId: CategoryId)
    requires categoryId !in selected
    ensures Toggle(Toggle(selected, categoryId), categoryId) == selected
  {
    FilterConcat(selected, [categoryId], IsNot(categoryId));
    WithoutAbsent(selected, categoryId);
    assert Filter([categoryId], IsNot(categoryId)) == [];
  }

  /** Toggling a selected id twice moves it to the end of the selection. */
  lemma ToggleTwiceMovesToEnd(selected: seq<CategoryId>, categoryId: CategoryId)
    requires categoryId in selected
    ensures Toggle(Toggle(selected, categoryId), categoryId) == Without(selected, categoryId) + [categoryId]
  {
  }

  /** A selection without repeats stays without repeats under toggling. */
  lemma ToggleKeepsNoDuplicates(selected: seq<CategoryId>, categoryId: CategoryId)
    requires NoDuplicates(selected)
    ensures NoDuplicates(Toggle(selected, categoryId))
  {
    if categoryId in selected {
      FilterNoDuplicates(selected, IsNot(categoryId));
    } else {
      var r := selected + [categoryId];
      forall i, j | 0 <= i < j < |r| ensures r[i] != r[j] {
        if j == |selected| {
          assert r[i] == selected[i];
        }
      }
    }
  }

  predicate IsKnown(id: CategoryId)
  {
    exists k :: 0 <= k < |Categories| && Categories[k].id == id
  }

  /** The panel's chip row: one chip per selected id that names a known
      category, in selection order; unknown ids show no chip. */
  function Chips(selected: seq<CategoryId>): (r: seq<CategoryId>)
    ensures forall id :: id in r <==> id in selected && IsKnown(id)
    ensures IsSubsequence(r, selected)
    ensures forall id :: multiset(r)[id] == if IsKnown(id) then multiset(selected)[id] else 0
  {
    FilterIsSubsequence(selected, IsKnown);
    forall id ensures multiset(Filter(selected, IsKnown))[id] == if IsKnown(id) then multiset(selected)[id] else 0 {
      FilterMultiset(selected, IsKnown, id);
    }
    Filter(selected, IsKnown)
  }
}
