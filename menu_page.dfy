/** The menu page (src/modules/menu/MenuPage.tsx): a three-way filter over
    the menu items, the category drop-down built from the items, the first
    fifteen matches as rows and the two switches of each row. */
module MenuPage {
  import opened Types
  import opened Seqs
  import opened Text

  /** Only the item name is searched, lower-cased. */
  predicate MatchesSearch(item: MenuItem, query: string)
  {
    Includes(ToLower(item.name), ToLower(query))
  }

  predicate MatchesPartner(item: MenuItem, partnerFilter: string)
  {
    partnerFilter == "all" || item.partnerId == partnerFilter
  }

  predicate MatchesCategory(item: MenuItem, categoryFilter: string)
  {
    categoryFilter == "all" || item.category == categoryFilter
  }

  /** The filter callback. */
  function ItemMatches(query: string, partnerFilter: string, categoryFilter: string): MenuItem -> bool
  {
    item => MatchesSearch(item, query) && MatchesPartner(item, partnerFilter) && MatchesCategory(item, categoryFilter)
  }

  /** filteredItems: an item is kept iff all three conditions hold. */
  function FilterItems(items: seq<MenuItem>, query: string, partnerFilter: string, categoryFilter: string): (r: seq<MenuItem>)
    ensures forall item :: item in r <==>
      item in items && MatchesSearch(item, query) && MatchesPartner(item, partnerFilter) && MatchesCategory(item, categoryFilter)
    ensures |r| <= |items|
  {
    Filter(items, ItemMatches(query, partnerFilter, categoryFilter))
  }

  /** The matches keep the order of the item list. */
  lemma FilterItemsIsSubsequence(items: seq<MenuItem>, query: string, partnerFilter: string, categoryFilter: string)
    ensures IsSubsequence(FilterItems(items, query, partnerFilter, categoryFilter), items)
  {
    FilterIsSubsequence(items, ItemMatches(query, partnerFilter, categoryFilter));
  }

  /** With an empty search and both drop-downs on "all", every item is listed. */
  lemma NoFilterListsEveryItem(items: seq<MenuItem>)
    ensures FilterItems(items, "", "all", "all") == items
  {
    forall i | 0 <= i < |items|
      ensures ItemMatches("", "all", "all")(items[i])
    {
      IncludesEmpty(ToLower(items[i].name));
    }
    FilterKeepsAll(items, ItemMatches("", "all", "all"));
  }

  /** Picking a partner keeps exactly that partner's matching items. */
  lemma PartnerFilterIsExact(items: seq<MenuItem>, query: string, partnerId: string, categoryFilter: string, item: MenuItem)
    requires partnerId != "all"
    ensures item in FilterItems(items, query, partnerId, categoryFilter) <==>
      item in items && item.partnerId == partnerId && MatchesSearch(item, query) && MatchesCategory(item, categoryFilter)
  {
  }

  /** Picking a category keeps exactly the matching items of that category. */
  lemma CategoryFilterIsExact(items: seq<MenuItem>, query: string, partnerFilter: string, category: string, item: MenuItem)
    requires category != "all"
    ensures item in FilterItems(items, query, partnerFilter, category) <==>
      item in items && item.category == category && MatchesSearch(item, query) && MatchesPartner(item, partnerFilter)
  {
  }

  /** The category of every item, in item order. */
  function CategoryColumn(items: seq<MenuItem>): (cs: seq<string>)
    ensures |cs| == |items|
    ensures forall i :: 0 <= i < |items| ==> cs[i] == items[i].category
  {
    seq(|items|, i requires 0 <= i < |items| => items[i].category)
  }

  /** categories: the distinct item categories, in order of first occurrence. */
  function Categories(items: seq<MenuItem>): (cats: seq<string>)
    ensures NoDuplicates(cats)
    ensures forall c :: c in cats <==> exists i :: 0 <= i < |items| && items[i].category == c
  {
    Distinct(CategoryColumn(items))
  }

  /** The drop-down lists the categories in the order the items first use them. */
  lemma CategoriesInFirstOccurrenceOrder(items: seq<MenuItem>)
    ensures InFirstOccurrenceOrder(Categories(items), CategoryColumn(items))
    ensures IsSubsequence(Categories(items), CategoryColumn(items))
  {
    DistinctFromFirstOccurrenceOrder(CategoryColumn(items), {});
    DistinctFromIsSubsequence(CategoryColumn(items), {});
  }

  /** Every category the drop-down offers selects at least one item when
      nothing else is filtered. */
  lemma OfferedCategorySelectsAnItem(items: seq<MenuItem>, c: string)
    requires c in Categories(items)
    ensures FilterItems(items, "", "all", c) != []
  {
    var i :| 0 <= i < |items| && items[i].category == c;
    IncludesEmpty(ToLower(items[i].name));
    assert items[i] in FilterItems(items, "", "all", c);
  }

  /** The rendered rows: the first fifteen matches. */
  function RenderedItems(items: seq<MenuItem>, query: string, partnerFilter: string, categoryFilter: string): (r: seq<MenuItem>)
    ensures |r| <= 15 && |r| <= |FilterItems(items, query, partnerFilter, categoryFilter)|
    ensures r == FilterItems(items, query, partnerFilter, categoryFilter)[..|r|]
    ensures |FilterItems(items, query, partnerFilter, categoryFilter)| <= 15 ==>
      r == FilterItems(items, query, partnerFilter, categoryFilter)
    ensures |FilterItems(items, query, partnerFilter, categoryFilter)| >= 15 ==> |r| == 15
  {
    Take(FilterItems(items, query, partnerFilter, categoryFilter), 15)
  }

  /** The "In Stock" switch is on iff the item is not out of stock. */
  function InStockSwitchOn(item: MenuItem): (on: bool)
    ensures on <==> !item.isOutOfStock
  {
    !item.isOutOfStock
  }

  /** The message handleToggleAvailability reports for the current state;
      no item is changed. */
  function AvailabilityToast(currentState: bool): (msg: string)
    ensures msg == "Item disabled" <==> currentState
    ensures msg == "Item enabled" <==> !currentState
  {
    "Item " + (if currentState then "disabled" else "enabled")
  }

  /** The message handleToggleStock reports for the current out-of-stock
      flag; no item is changed. */
  function StockToast(currentState: bool): (msg: string)
    ensures msg == "Item marked as in stock" <==> currentState
    ensures msg == "Item marked as out of stock" <==> !currentState
  {
    "Item marked as " + (if currentState then "in stock" else "out of stock")
  }

  /** Each switch's message names the state the switch is flipped to: an
      available item is reported disabled, and an item whose stock switch
      is off is reported back in stock. */
  lemma ToastsNameTheFlippedState(item: MenuItem)
    ensures AvailabilityToast(item.isAvailable) == "Item enabled" <==> !item.isAvailable
    ensures StockToast(item.isOutOfStock) == "Item marked as in stock" <==> !InStockSwitchOn(item)
    ensures StockToast(item.isOutOfStock) == "Item marked as out of stock" <==> InStockSwitchOn(item)
  {
  }
}
