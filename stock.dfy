/** The stock page: rows grouped by article code, per-code totals, the code
    search, the list of expanded articles and the per-location movement
    lists that are fetched on first expansion. */
module Stock {
  import opened Common
  import opened Text

  datatype StockItem = StockItem(id: int, articleCode: string, name: string, locationCode: string, quantity: int)

  datatype MovementRow = MovementRow(id: int, articleCode: string, locationCode: string, quantity: int, movementType: string)

  // ---------------------------------------------------------------------------
  // Totals and grouping

  /** `stock.filter(item => item.articleCode === code)`. */
  function RowsOf(stock: seq<StockItem>, code: string): seq<StockItem>
  {
    if stock == [] then []
    else
      var last := stock[|stock| - 1];
      RowsOf(stock[..|stock| - 1], code) + (if last.articleCode == code then [last] else [])
  }

  /** The filter keeps exactly the rows with that code. */
  lemma {:induction false} RowsOfMembers(stock: seq<StockItem>, code: string)
    ensures |RowsOf(stock, code)| <= |stock|
    ensures forall row :: row in RowsOf(stock, code) <==> row in stock && row.articleCode == code
  {
    if stock != [] {
      assert stock == stock[..|stock| - 1] + [stock[|stock| - 1]];
      RowsOfMembers(stock[..|stock| - 1], code);
    }
  }

  /** `rows.reduce((total, item) => total + item.quantity, 0)`. */
  function SumQuantities(rows: seq<StockItem>): int
  {
    if rows == [] then 0 else SumQuantities(rows[..|rows| - 1]) + rows[|rows| - 1].quantity
  }

  /** getTotalQuantity. */
  function TotalQuantity(stock: seq<StockItem>, code: string): int
  {
    SumQuantities(RowsOf(stock, code))
  }

  lemma {:induction false} SumQuantitiesConcat(a: seq<StockItem>, b: seq<StockItem>)
    ensures SumQuantities(a + b) == SumQuantities(a) + SumQuantities(b)
  {
    if b == [] {
      assert a + b == a;
    } else {
      assert (a + b)[..|a + b| - 1] == a + b[..|b| - 1];
      assert (a + b)[|a + b| - 1] == b[|b| - 1];
      SumQuantitiesConcat(a, b[..|b| - 1]);
    }
  }

  /** The last row adds its quantity to its own code's total only. */
  lemma TotalQuantityLast(stock: seq<StockItem>, code: string)
    requires stock != []
    ensures var last := stock[|stock| - 1];
      TotalQuantity(stock, code)
      == TotalQuantity(stock[..|stock| - 1], code) + (if last.articleCode == code then last.quantity else 0)
  {
    var last := stock[|stock| - 1];
    SumQuantitiesConcat(RowsOf(stock[..|stock| - 1], code), if last.articleCode == code then [last] else []);
    assert SumQuantities([last]) == SumQuantities([]) + last.quantity;
  }

  /** A code no row has totals 0. */
  lemma {:induction false} TotalQuantityAbsent(stock: seq<StockItem>, code: string)
    requires forall row :: row in stock ==> row.articleCode != code
    ensures RowsOf(stock, code) == []
    ensures TotalQuantity(stock, code) == 0
  {
    if stock != [] {
      assert forall row :: row in stock[..|stock| - 1] ==> row in stock;
      assert stock[|stock| - 1] in stock;
      TotalQuantityAbsent(stock[..|stock| - 1], code);
    }
  }

  /** The filter keeps the rows' order: it distributes over concatenation. */
  lemma {:induction false} RowsOfConcat(a: seq<StockItem>, b: seq<StockItem>, code: string)
    ensures RowsOf(a + b, code) == RowsOf(a, code) + RowsOf(b, code)
  {
    if b == [] {
      assert a + b == a;
    } else {
      assert (a + b)[..|a + b| - 1] == a + b[..|b| - 1];
      assert (a + b)[|a + b| - 1] == b[|b| - 1];
      RowsOfConcat(a, b[..|b| - 1], code);
    }
  }

  /** The group keys, `Object.keys(groupedStock)`: each code once, in order of first appearance. */
  function Keys(stock: seq<StockItem>): seq<string>
  {
    if stock == [] then []
    else
      var prev := Keys(stock[..|stock| - 1]);
      if stock[|stock| - 1].articleCode in prev then prev else prev + [stock[|stock| - 1].articleCode]
  }

  /** The keys are exactly the codes of the rows. */
  lemma {:induction false} KeysFacts(stock: seq<StockItem>)
    ensures forall k :: k in Keys(stock) <==> exists row :: row in stock && row.articleCode == k
  {
    if stock != [] {
      var init := stock[..|stock| - 1];
      var last := stock[|stock| - 1];
      assert stock == init + [last];
      KeysFacts(init);
    }
  }

  /** No code is listed twice. */
  lemma {:induction false} KeysDistinct(stock: seq<StockItem>)
    ensures Distinct(Keys(stock))
  {
    if stock != [] {
      KeysDistinct(stock[..|stock| - 1]);
    }
  }

  /** A code that is not a key has no rows. */
  lemma {:induction false} KeysAbsent(stock: seq<StockItem>, code: string)
    requires code !in Keys(stock)
    ensures RowsOf(stock, code) == []
  {
    if stock != [] {
      KeysAbsent(stock[..|stock| - 1], code);
    }
  }

  /** groupedStock: every code of the rows gets its group, the rows with that
      code in their input order. Each row lands in exactly its own code's
      group. */
  method GroupStock(stock: seq<StockItem>) returns (keys: seq<string>, groups: map<string, seq<StockItem>>)
    ensures keys == Keys(stock)
    ensures forall k :: k in groups <==> k in keys
    ensures forall k :: k in groups ==> groups[k] == RowsOf(stock, k)
  {
    keys := [];
    groups := map[];
    var i := 0;
    while i < |stock|
      invariant 0 <= i <= |stock|
      invariant keys == Keys(stock[..i])
      invariant forall k :: k in groups <==> k in keys
      invariant forall k :: k in groups ==> groups[k] == RowsOf(stock[..i], k)
    {
      var item := stock[i];
      assert stock[..i + 1] == stock[..i] + [item];
      GroupStep(stock[..i], item, keys, groups);
      if item.articleCode !in groups {
        groups := groups[item.articleCode := []];
        keys := keys + [item.articleCode];
      }
      groups := groups[item.articleCode := groups[item.articleCode] + [item]];
      i := i + 1;
    }
    assert stock[..i] == stock;
  }

  /** One step of the grouping loop keeps the groups equal to the filters of the rows seen. */
  lemma GroupStep(before: seq<StockItem>, item: StockItem, keys: seq<string>, groups: map<string, seq<StockItem>>)
    requires keys == Keys(before)
    requires forall k :: k in groups <==> k in keys
    requires forall k :: k in groups ==> groups[k] == RowsOf(before, k)
    ensures var code := item.articleCode;
      var keys' := if code in groups then keys else keys + [code];
      var g := if code in groups then groups else groups[code := []];
      var groups' := g[code := g[code] + [item]];
      && keys' == Keys(before + [item])
      && (forall k :: k in groups' <==> k in keys')
      && forall k :: k in groups' ==> groups'[k] == RowsOf(before + [item], k)
  {
    var code := item.articleCode;
    assert (before + [item])[..|before|] == before;
    if code !in groups {
      KeysAbsent(before, code);
    }
  }

  /** Every row is in its own code's group and in no other. */
  lemma GroupsPartition(stock: seq<StockItem>, row: StockItem, k: string)
    requires row in stock
    ensures row in RowsOf(stock, row.articleCode)
    ensures row.articleCode in Keys(stock)
    ensures k != row.articleCode ==> row !in RowsOf(stock, k)
  {
    KeysFacts(stock);
    RowsOfMembers(stock, row.articleCode);
    RowsOfMembers(stock, k);
  }

  /** The sum of the totals of the codes in `keys`. */
  function SumOfTotals(stock: seq<StockItem>, keys: seq<string>): int
  {
    if keys == [] then 0 else SumOfTotals(stock, keys[..|keys| - 1]) + TotalQuantity(stock, keys[|keys| - 1])
  }

  lemma {:induction false} SumOfTotalsLastRow(stock: seq<StockItem>, keys: seq<string>)
    requires stock != []
    requires Distinct(keys)
    ensures var last := stock[|stock| - 1];
      SumOfTotals(stock, keys)
      == SumOfTotals(stock[..|stock| - 1], keys) + (if last.articleCode in keys then last.quantity else 0)
  {
    if keys != [] {
      var init := keys[..|keys| - 1];
      var last := keys[|keys| - 1];
      assert keys == init + [last];
      assert Distinct(init);
      assert last !in init;
      SumOfTotalsLastRow(stock, init);
      TotalQuantityLast(stock, last);
    }
  }

  /** Grouping loses and duplicates nothing: the totals of all groups add up to
      the total quantity of all rows. */
  lemma {:induction false} GroupTotalsSum(stock: seq<StockItem>)
    ensures SumOfTotals(stock, Keys(stock)) == SumQuantities(stock)
  {
    if stock != [] {
      GroupTotalsSum(stock[..|stock| - 1]);
      GroupTotalsStep(stock);
    }
  }

  /** A new row adds its quantity to the sum of the group totals. */
  lemma GroupTotalsStep(stock: seq<StockItem>)
    requires stock != []
    ensures SumOfTotals(stock, Keys(stock))
            == SumOfTotals(stock[..|stock| - 1], Keys(stock[..|stock| - 1])) + stock[|stock| - 1].quantity
  {
    var init := stock[..|stock| - 1];
    var last := stock[|stock| - 1];
    var keys := Keys(init);
    KeysDistinct(init);
    SumOfTotalsLastRow(stock, keys);
    if last.articleCode !in keys {
      KeysAbsent(init, last.articleCode);
      TotalQuantityLast(stock, last.articleCode);
      assert (keys + [last.articleCode])[..|keys|] == keys;
    }
  }

  // ---------------------------------------------------------------------------
  // Search

  /** The keys whose lower-cased text contains the lower-cased term. */
  function KeysMatching(keys: seq<string>, term: string): (r: seq<string>)
    ensures forall k :: k in r <==> k in keys && Contains(Lower(k), Lower(term))
  {
    if keys == [] then []
    else (if Contains(Lower(keys[0]), Lower(term)) then [keys[0]] else []) + KeysMatching(keys[1..], term)
  }

  /** filteredStock: every key for an empty term, otherwise the matching keys. */
  function FilteredStock(keys: seq<string>, term: string): seq<string>
  {
    if term == "" then keys else KeysMatching(keys, term)
  }

  /** The filter only ever drops keys, drops none for an empty term, and keeps a
      key exactly when it contains the term ignoring case. */
  lemma FilteredStockFacts(keys: seq<string>, term: string)
    ensures forall k :: k in FilteredStock(keys, term) ==> k in keys
    ensures term == "" ==> FilteredStock(keys, term) == keys
    ensures term != "" ==> forall k :: k in FilteredStock(keys, term) <==> k in keys && Contains(Lower(k), Lower(term))
    ensures |FilteredStock(keys, term)| <= |keys|
  {
    KeysMatchingShorter(keys, term);
  }

  lemma {:induction false} KeysMatchingShorter(keys: seq<string>, term: string)
    ensures |KeysMatching(keys, term)| <= |keys|
  {
    if keys != [] {
      KeysMatchingShorter(keys[1..], term);
    }
  }

  // ---------------------------------------------------------------------------
  // Expansion

  /** toggleExpand's update of the expanded list. */
  function Toggle(expanded: seq<string>, code: string): seq<string>
  {
    if code in expanded then RemoveAll(expanded, code) else expanded + [code]
  }

  /** A toggle flips membership, keeps the list free of duplicates and leaves the
      other codes in order; toggling an absent code twice restores the list. */
  lemma ToggleFacts(expanded: seq<string>, code: string)
    ensures code in Toggle(expanded, code) <==> code !in expanded
    ensures forall c :: c != code ==> (c in Toggle(expanded, code) <==> c in expanded)
    ensures Distinct(expanded) ==> Distinct(Toggle(expanded, code))
    ensures code !in expanded ==> Toggle(Toggle(expanded, code), code) == expanded
  {
    if Distinct(expanded) {
      if code in expanded {
        RemoveAllDistinct(expanded, code);
      } else {
        assert forall i :: 0 <= i < |expanded| ==> (expanded + [code])[i] == expanded[i];
      }
    }
    if code !in expanded {
      RemoveAllConcat(expanded, [code], code);
      RemoveAllAbsent(expanded, code);
      assert RemoveAll([code], code) == [];
    }
  }

  /** The map key of an article at a location, `${articleCode}-${locationCode}`. */
  function LocationKey(articleCode: string, locationCode: string): string
  {
    articleCode + "-" + locationCode
  }

  /** The sign shown before a movement's quantity. */
  function MovementSign(movementType: string): (r: char)
    ensures r == '+' <==> movementType == "E"
    ensures r == '+' || r == '-'
  {
    if movementType == "E" then '+' else '-'
  }

  class StockView {
    var stock: seq<StockItem>
    var expandedItems: seq<string>
    /** Missing key: never opened; `None`: collapsed (`null`); `Some`: the loaded movements. */
    var expandedLocations: map<string, Option<seq<MovementRow>>>
    var loadingMovements: Option<string>
    var searchTerm: string

    ghost predicate Valid()
      reads this
    {
      Distinct(expandedItems)
    }

    constructor (stock: seq<StockItem>)
      ensures Valid()
      ensures this.stock == stock && expandedItems == [] && expandedLocations == map[]
      ensures loadingMovements == None && searchTerm == ""
    {
      this.stock := stock;
      expandedItems := [];
      expandedLocations := map[];
      loadingMovements := None;
      searchTerm := "";
    }

    /** toggleExpand. */
    method ToggleExpand(articleCode: string)
      requires Valid()
      modifies this
      ensures Valid()
      ensures expandedItems == Toggle(old(expandedItems), articleCode)
      ensures expandedLocations == old(expandedLocations) && stock == old(stock)
      ensures loadingMovements == old(loadingMovements) && searchTerm == old(searchTerm)
    {
      ToggleFacts(expandedItems, articleCode);
      if articleCode in expandedItems {
        expandedItems := RemoveAll(expandedItems, articleCode);
      } else {
        expandedItems := expandedItems + [articleCode];
      }
    }

    /** toggleLocationExpand. A loaded list collapses without a request;
        otherwise the movements are requested (`fetched` is `None` when the
        request fails), stored on success, and the loading marker is cleared
        either way. */
    method ToggleLocationExpand(articleCode: string, locationCode: string, fetched: Option<seq<MovementRow>>)
      returns (requested: bool, alerted: bool)
      requires Valid()
      modifies this
      ensures Valid()
      ensures var key := LocationKey(articleCode, locationCode);
        var open := key in old(expandedLocations) && old(expandedLocations)[key].Some?;
        && requested == !open
        && (open ==> expandedLocations == old(expandedLocations)[key := None] && loadingMovements == old(loadingMovements))
        && (!open && fetched.Some? ==> expandedLocations == old(expandedLocations)[key := fetched])
        && (!open && fetched.None? ==> expandedLocations == old(expandedLocations))
        && (!open ==> loadingMovements == None)
        && alerted == (!open && fetched.None?)
      ensures expandedItems == old(expandedItems) && stock == old(stock)
      ensures searchTerm == old(searchTerm)
    {
      var key := LocationKey(articleCode, locationCode);
      alerted := false;
      if key in expandedLocations && expandedLocations[key].Some? {
        expandedLocations := expandedLocations[key := None];
        requested := false;
      } else {
        loadingMovements := Some(key);
        requested := true;
        if fetched.Some? {
          expandedLocations := expandedLocations[key := fetched];
        } else {
          alerted := true;
        }
        loadingMovements := None;
      }
    }

    /** The codes listed on the page for the current search term. */
    method Listed() returns (codes: seq<string>)
      ensures codes == FilteredStock(Keys(stock), searchTerm)
      ensures forall k :: k in codes ==> exists row :: row in stock && row.articleCode == k
    {
      var keys, groups := GroupStock(stock);
      KeysFacts(stock);
      FilteredStockFacts(keys, searchTerm);
      codes := FilteredStock(keys, searchTerm);
    }
  }
}
