/** The gallery tabs: a tab shows the items of its category, and the "all" tab shows every item. */
module Gallery {

  /** Whether an item of `itemCategory` is displayed under the tab `category`. */
  predicate Shows(category: string, itemCategory: string) {
    category == "all" || itemCategory == category
  }

  /** A tab click: the display flag of every gallery item, in page order. */
  method ApplyFilter(category: string, itemCategories: seq<string>) returns (display: seq<bool>)
    ensures |display| == |itemCategories|
    ensures forall k :: 0 <= k < |display| ==> (display[k] <==> Shows(category, itemCategories[k]))
  {
    display := [];
    var i := 0;
    while i < |itemCategories|
      invariant 0 <= i <= |itemCategories|
      invariant |display| == i
      invariant forall k :: 0 <= k < i ==> (display[k] <==> Shows(category, itemCategories[k]))
    {
      display := display + [category == "all" || itemCategories[i] == category];
      i := i + 1;
    }
  }

  /** The "all" tab shows everything; any other tab shows exactly its own items, so every item shows under two tabs at most. */
  lemma TabsPartition(category: string, itemCategory: string)
    ensures Shows("all", itemCategory)
    ensures category != "all" ==> (Shows(category, itemCategory) <==> itemCategory == category)
    ensures Shows(itemCategory, itemCategory)
  {
  }
}
