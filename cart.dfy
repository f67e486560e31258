/**
 * The shopping cart of the frontend: the pure reducer over the list of cart
 * lines, and the provider whose commands dispatch actions to it, `add`
 * guarded by the cart-wide limit.
 */
module Cart {
  import opened Common
  import opened Catalog

  const MaxQuantityPerItem := 999
  const MaxTotalItems := 1000

  /** A cart entry: the product's fields spread out, plus `qty`. */
  datatype Line = Line(item: Product, qty: int)

  /** The actions the reducer understands; `Unknown` is any other `type`. */
  datatype Action =
    | Add(item: Product, qty: int)
    | Remove(id: int)
    | UpdateQty(id: int, qty: int)
    | Clear
    | LoadCart(items: Option<seq<Line>>)
    | Unknown

  /** `s.map(f)`. */
  function MapLines(s: seq<Line>, f: Line -> Line): (r: seq<Line>)
    ensures |r| == |s|
    ensures forall k :: 0 <= k < |s| ==> r[k] == f(s[k])
  {
    if s == [] then [] else [f(s[0])] + MapLines(s[1..], f)
  }

  /** `s.filter(keep)`. */
  function FilterLines(s: seq<Line>, keep: Line -> bool): (r: seq<Line>)
    ensures |r| <= |s|
    ensures forall l :: l in r <==> l in s && keep(l)
  {
    if s == [] then [] else (if keep(s[0]) then [s[0]] else []) + FilterLines(s[1..], keep)
  }

  /** Filtering works piece by piece, so the lines it keeps stay in their relative order. */
  lemma {:induction false} FilterAppend(a: seq<Line>, b: seq<Line>, keep: Line -> bool)
    ensures FilterLines(a + b, keep) == FilterLines(a, keep) + FilterLines(b, keep)
  {
    if a != [] {
      assert (a + b)[1..] == a[1..] + b;
      FilterAppend(a[1..], b, keep);
    } else {
      assert a + b == b;
    }
  }

  /** The sum of the quantities: `itemCount` (frontend/src/CartContext.js:122). */
  function SumQty(s: seq<Line>): int
  {
    if s == [] then 0 else s[0].qty + SumQty(s[1..])
  }

  /** The count of an empty cart is 0; with non-negative quantities, no line's quantity exceeds the count. */
  lemma {:induction false} SumQtyBoundsLines(s: seq<Line>)
    ensures s == [] ==> SumQty(s) == 0
    ensures (forall k :: 0 <= k < |s| ==> 0 <= s[k].qty) ==>
      0 <= SumQty(s) && forall k :: 0 <= k < |s| ==> s[k].qty <= SumQty(s)
  {
    if s != [] {
      SumQtyBoundsLines(s[1..]);
      if forall k :: 0 <= k < |s| ==> 0 <= s[k].qty {
        assert forall k :: 0 <= k < |s[1..]| ==> 0 <= s[1..][k].qty;
        forall k | 1 <= k < |s| ensures s[k].qty <= SumQty(s) {
          assert s[k] == s[1..][k - 1];
        }
      }
    }
  }

  lemma {:induction false} SumQtyAppend(a: seq<Line>, b: seq<Line>)
    ensures SumQty(a + b) == SumQty(a) + SumQty(b)
  {
    if a != [] {
      assert (a + b)[1..] == a[1..] + b;
      SumQtyAppend(a[1..], b);
    } else {
      assert a + b == b;
    }
  }

  /** Some line carries `id` (what `items.find(i => i.id === id)` tests). */
  predicate HasId(s: seq<Line>, id: int)
  {
    exists k :: 0 <= k < |s| && s[k].item.id == id
  }

  /** No two lines share an id. */
  predicate DistinctIds(s: seq<Line>)
  {
    forall i, j :: 0 <= i < j < |s| ==> s[i].item.id != s[j].item.id
  }

  /** The invariant the commands keep: ids are distinct, no quantity exceeds the per-item cap. */
  predicate CartInvariant(s: seq<Line>)
  {
    DistinctIds(s) && forall k :: 0 <= k < |s| ==> s[k].qty <= MaxQuantityPerItem
  }

  /** The test `i => i.id !== id` of the `REMOVE` and `UPDATE_QTY` filters. */
  function OtherThan(id: int): Line -> bool
  {
    (l: Line) => l.item.id != id
  }

  /** Filtering out an id leaves no line that carries it. */
  lemma FilterOutId(items: seq<Line>, id: int)
    ensures !HasId(FilterLines(items, OtherThan(id)), id)
  {
    var r := FilterLines(items, OtherThan(id));
    forall k | 0 <= k < |r| ensures r[k].item.id != id {
      assert r[k] in r;
    }
  }

  /** `cartReducer` (frontend/src/CartContext.js:10-62), on the `items` of the state. */
  function Reduce(items: seq<Line>, action: Action): (r: seq<Line>)
    ensures action.Add? ==> |r| == |items| + (if HasId(items, action.item.id) then 0 else 1)
    ensures action.Add? ==> HasId(r, action.item.id)
    ensures action.Remove? ==> !HasId(r, action.id) && |r| <= |items|
    ensures action.UpdateQty? && action.qty <= 0 ==> !HasId(r, action.id) && |r| <= |items|
    ensures action.UpdateQty? && action.qty > 0 ==> |r| == |items|
    ensures action.Unknown? ==> r == items
  {
    match action
    case Add(item, qty) =>
      if HasId(items, item.id) then
        var k :| 0 <= k < |items| && items[k].item.id == item.id;
        var r := MapLines(items, (l: Line) => if l.item.id == item.id then l.(qty := Min(l.qty + qty, MaxQuantityPerItem)) else l);
        assert r[k].item.id == item.id;
        r
      else
        var r := items + [Line(item, Min(qty, MaxQuantityPerItem))];
        assert r[|items|].item.id == item.id;
        r
    case Remove(id) =>
      FilterOutId(items, id);
      FilterLines(items, OtherThan(id))
    case UpdateQty(id, qty) =>
      if qty <= 0 then
        FilterOutId(items, id);
        FilterLines(items, OtherThan(id))
      else MapLines(items, (l: Line) => if l.item.id == id then l.(qty := Min(qty, MaxQuantityPerItem)) else l)
    case Clear => []
    case LoadCart(loaded) => if loaded.Some? then loaded.value else []
    case Unknown => items
  }

  /** `ADD` of an id already in the cart raises that line's quantity, capped, and changes nothing else. */
  lemma AddExistingMerges(items: seq<Line>, item: Product, qty: int)
    requires HasId(items, item.id)
    ensures var r := Reduce(items, Add(item, qty));
      && |r| == |items|
      && forall k :: 0 <= k < |items| ==>
           r[k] == if items[k].item.id == item.id
                   then items[k].(qty := Min(items[k].qty + qty, MaxQuantityPerItem))
                   else items[k]
  {
  }

  /** `ADD` of a new id appends one line at the end, its quantity capped. */
  lemma AddNewAppends(items: seq<Line>, item: Product, qty: int)
    requires !HasId(items, item.id)
    ensures Reduce(items, Add(item, qty)) == items + [Line(item, Min(qty, MaxQuantityPerItem))]
  {
  }

  /** `REMOVE` deletes exactly the lines with that id, and leaves a cart without one unchanged. */
  lemma RemoveDeletesExactly(items: seq<Line>, id: int)
    ensures forall l :: l in Reduce(items, Remove(id)) <==> l in items && l.item.id != id
    ensures !HasId(items, id) ==> Reduce(items, Remove(id)) == items
  {
    if !HasId(items, id) {
      KeepAll(items, OtherThan(id));
    }
  }

  /**
   * In a cart with distinct ids, `REMOVE` takes out the one line with that
   * id at its position; the lines before and after it keep their order.
   */
  lemma RemoveTakesOutOneLine(items: seq<Line>, id: int, k: int)
    requires DistinctIds(items)
    requires 0 <= k < |items| && items[k].item.id == id
    ensures Reduce(items, Remove(id)) == items[..k] + items[k + 1..]
  {
    FilterOutOneLine(items, id, k);
  }

  /** `RemoveTakesOutOneLine` on the filter itself. */
  lemma FilterOutOneLine(items: seq<Line>, id: int, k: int)
    requires DistinctIds(items)
    requires 0 <= k < |items| && items[k].item.id == id
    ensures FilterLines(items, OtherThan(id)) == items[..k] + items[k + 1..]
  {
    var keep := OtherThan(id);
    var before, after := items[..k], items[k + 1..];
    assert items == before + ([items[k]] + after);
    forall j | 0 <= j < |before| ensures keep(before[j]) {
      assert before[j] == items[j];
    }
    forall j | 0 <= j < |after| ensures keep(after[j]) {
      assert after[j] == items[k + 1 + j];
    }
    FilterSkipsOne(before, items[k], after, keep);
  }

  /** A filter that keeps everything around one rejected line returns the rest. */
  lemma FilterSkipsOne(before: seq<Line>, x: Line, after: seq<Line>, keep: Line -> bool)
    requires forall j :: 0 <= j < |before| ==> keep(before[j])
    requires forall j :: 0 <= j < |after| ==> keep(after[j])
    requires !keep(x)
    ensures FilterLines(before + ([x] + after), keep) == before + after
  {
    var rest := [x] + after;
    assert FilterLines(rest, keep) == after by {
      assert rest[1..] == after;
      KeepAll(after, keep);
    }
    FilterAppend(before, rest, keep);
    KeepAll(before, keep);
  }

  /** A filter that keeps every line of `s` returns `s`. */
  lemma {:induction false} KeepAll(s: seq<Line>, keep: Line -> bool)
    requires forall k :: 0 <= k < |s| ==> keep(s[k])
    ensures FilterLines(s, keep) == s
  {
    if s != [] {
      KeepAll(s[1..], keep);
    }
  }

  /** `UPDATE_QTY` to zero or below is a `REMOVE`; otherwise it sets the capped quantity of the matching line only. */
  lemma UpdateQtySetsOrRemoves(items: seq<Line>, id: int, qty: int)
    ensures qty <= 0 ==> Reduce(items, UpdateQty(id, qty)) == Reduce(items, Remove(id))
    ensures qty > 0 ==>
      var r := Reduce(items, UpdateQty(id, qty));
      && |r| == |items|
      && forall k :: 0 <= k < |items| ==>
           r[k] == if items[k].item.id == id then items[k].(qty := Min(qty, MaxQuantityPerItem)) else items[k]
  {
  }

  /** `CLEAR` empties the cart, `LOAD_CART` installs the loaded list (or none), an unknown action changes nothing. */
  lemma ClearLoadUnknown(items: seq<Line>, loaded: Option<seq<Line>>)
    ensures Reduce(items, Clear) == []
    ensures Reduce(items, LoadCart(loaded)) == (if loaded.Some? then loaded.value else [])
    ensures Reduce(items, Unknown) == items
  {
  }

  /** Removing lines keeps ids distinct and quantities capped. */
  lemma {:induction false} FilterKeepsInvariant(s: seq<Line>, keep: Line -> bool)
    requires CartInvariant(s)
    ensures CartInvariant(FilterLines(s, keep))
  {
    if s != [] {
      FilterKeepsInvariant(s[1..], keep);
      var rest := FilterLines(s[1..], keep);
      forall l | l in rest ensures l.item.id != s[0].item.id {
        var j :| 0 <= j < |s[1..]| && s[1..][j] == l;
        assert s[1 + j] == l;
      }
    }
  }

  /**
   * Every action but `LOAD_CART` keeps the cart invariant; `LOAD_CART`
   * keeps it when the loaded list has it.
   */
  lemma ReduceKeepsInvariant(items: seq<Line>, action: Action)
    requires CartInvariant(items)
    requires action.LoadCart? && action.items.Some? ==> CartInvariant(action.items.value)
    ensures CartInvariant(Reduce(items, action))
  {
    match action
    case Add(item, qty) =>
      AddKeepsInvariant(items, item, qty);
    case Remove(id) =>
      FilterKeepsInvariant(items, OtherThan(id));
    case UpdateQty(id, qty) =>
      if qty <= 0 {
        FilterKeepsInvariant(items, OtherThan(id));
      }
    case Clear =>
    case LoadCart(_) =>
    case Unknown =>
  }

  /** `ADD` keeps the invariant: it merges into the line of the id or appends a capped line. */
  lemma AddKeepsInvariant(items: seq<Line>, item: Product, qty: int)
    requires CartInvariant(items)
    ensures CartInvariant(Reduce(items, Add(item, qty)))
  {
    var r := Reduce(items, Add(item, qty));
    if !HasId(items, item.id) {
      assert r == items + [Line(item, Min(qty, MaxQuantityPerItem))];
      assert forall i :: 0 <= i < |items| ==> r[i] == items[i];
    } else {
      AddExistingMerges(items, item, qty);
      assert forall i :: 0 <= i < |items| ==> r[i].item == items[i].item;
    }
  }

  /** Raising the line of `id`, where only one line may carry it, grows the sum by at most `qty`. */
  lemma {:induction false} MergeGrowsSumByAtMost(items: seq<Line>, id: int, qty: int)
    requires DistinctIds(items)
    ensures var f := (l: Line) => if l.item.id == id then l.(qty := Min(l.qty + qty, MaxQuantityPerItem)) else l;
      && (HasId(items, id) ==> SumQty(MapLines(items, f)) <= SumQty(items) + qty)
      && (!HasId(items, id) ==> SumQty(MapLines(items, f)) == SumQty(items))
  {
    var f := (l: Line) => if l.item.id == id then l.(qty := Min(l.qty + qty, MaxQuantityPerItem)) else l;
    if items != [] {
      var rest := items[1..];
      assert DistinctIds(rest) by {
        forall i, j | 0 <= i < j < |rest| ensures rest[i].item.id != rest[j].item.id {
          assert rest[i] == items[i + 1] && rest[j] == items[j + 1];
        }
      }
      MergeGrowsSumByAtMost(rest, id, qty);
      assert MapLines(items, f) == [f(items[0])] + MapLines(rest, f);
      if items[0].item.id == id {
        assert !HasId(rest, id) by {
          forall j | 0 <= j < |rest| ensures rest[j].item.id != id {
            assert rest[j] == items[j + 1];
          }
        }
      } else {
        assert HasId(items, id) ==> HasId(rest, id) by {
          if HasId(items, id) {
            var k :| 0 <= k < |items| && items[k].item.id == id;
            assert rest[k - 1] == items[k];
          }
        }
        assert HasId(rest, id) ==> HasId(items, id) by {
          if HasId(rest, id) {
            var k :| 0 <= k < |rest| && rest[k].item.id == id;
            assert items[k + 1] == rest[k];
          }
        }
      }
    }
  }

  /** With distinct ids, `ADD` grows the item count by at most the requested quantity: the per-item cap can only shrink it. */
  lemma AddGrowsCountByAtMost(items: seq<Line>, item: Product, qty: int)
    requires DistinctIds(items)
    ensures SumQty(Reduce(items, Add(item, qty))) <= SumQty(items) + qty
  {
    if HasId(items, item.id) {
      MergeGrowsSumByAtMost(items, item.id, qty);
    } else {
      SumQtyAppend(items, [Line(item, Min(qty, MaxQuantityPerItem))]);
    }
  }

  /** Whether `add(item, qty)` dispatches: an item with a truthy id, and room for `qty` more in the cart. */
  predicate AddAllowed(items: seq<Line>, item: Option<Product>, qty: int)
  {
    item.Some? && item.value.id != 0 && SumQty(items) + qty <= MaxTotalItems
  }

  /** The cart after the `add` command (frontend/src/CartContext.js:85-104). */
  function AddCommand(items: seq<Line>, item: Option<Product>, qty: int): (r: seq<Line>)
    ensures !AddAllowed(items, item, qty) ==> r == items
    ensures AddAllowed(items, item, qty) ==> r == Reduce(items, Add(item.value, qty))
    ensures CartInvariant(items) ==> CartInvariant(r)
    ensures DistinctIds(items) && AddAllowed(items, item, qty) ==> SumQty(r) <= MaxTotalItems
    ensures DistinctIds(items) && SumQty(items) <= MaxTotalItems ==> SumQty(r) <= MaxTotalItems
  {
    if AddAllowed(items, item, qty) then
      assert DistinctIds(items) ==> SumQty(Reduce(items, Add(item.value, qty))) <= SumQty(items) + qty by {
        if DistinctIds(items) {
          AddGrowsCountByAtMost(items, item.value, qty);
        }
      }
      assert CartInvariant(items) ==> CartInvariant(Reduce(items, Add(item.value, qty))) by {
        if CartInvariant(items) {
          ReduceKeepsInvariant(items, Add(item.value, qty));
        }
      }
      Reduce(items, Add(item.value, qty))
    else items
  }

  /**
   * The cart-wide limit is enforced by `add` only: `updateQuantity` can take
   * a cart that holds exactly the limit well past it.
   */
  lemma UpdateQuantityIgnoresTotalLimit(a: Product, b: Product)
    requires a.id != b.id
    ensures var items := [Line(a, 999), Line(b, 1)];
      && CartInvariant(items) && SumQty(items) == MaxTotalItems
      && SumQty(Reduce(items, UpdateQty(b.id, 999))) == 1998
  {
    var items := [Line(a, 999), Line(b, 1)];
    assert SumQty(items[1..]) == 1 by {
      assert items[1..] == [Line(b, 1)];
      assert items[1..][1..] == [];
    }
    var r := Reduce(items, UpdateQty(b.id, 999));
    assert r == [Line(a, 999), Line(b, 999)];
    assert SumQty(r[1..]) == 999 by {
      assert r[1..] == [Line(b, 999)];
      assert r[1..][1..] == [];
    }
  }

  /** The cart provider's state: the `items` the reducer manages. */
  class CartProvider {
    var items: seq<Line>

    ghost predicate Valid()
      reads this
    {
      CartInvariant(items)
    }

    constructor ()
      ensures Valid() && items == []
    {
      items := [];
    }

    /** `itemCount`: the number of items in the cart, which no line's quantity exceeds. */
    function ItemCount(): (n: int)
      reads this
      ensures items == [] ==> n == 0
      ensures (forall k :: 0 <= k < |items| ==> 0 <= items[k].qty) ==>
        0 <= n && forall k :: 0 <= k < |items| ==> items[k].qty <= n
    {
      SumQtyBoundsLines(items);
      SumQty(items)
    }

    /** `add(item, qty)`. */
    method Add(item: Option<Product>, qty: int)
      requires Valid()
      modifies this
      ensures Valid()
      ensures items == AddCommand(old(items), item, qty)
      ensures old(ItemCount()) <= MaxTotalItems ==> ItemCount() <= MaxTotalItems
    {
      if item.None? || item.value.id == 0 {
        return;
      }
      var currentTotalItems := SumQty(items);
      if currentTotalItems + qty > MaxTotalItems {
        return;
      }
      items := Reduce(items, Action.Add(item.value, qty));
    }

    /** `remove(id)`. */
    method Remove(id: int)
      requires Valid()
      modifies this
      ensures Valid()
      ensures items == Reduce(old(items), Action.Remove(id))
    {
      ReduceKeepsInvariant(items, Action.Remove(id));
      items := Reduce(items, Action.Remove(id));
    }

    /** `updateQuantity(id, qty)`. */
    method UpdateQuantity(id: int, qty: int)
      requires Valid()
      modifies this
      ensures Valid()
      ensures items == Reduce(old(items), UpdateQty(id, qty))
    {
      ReduceKeepsInvariant(items, UpdateQty(id, qty));
      items := Reduce(items, UpdateQty(id, qty));
    }

    /** `clear()`. */
    method Clear()
      requires Valid()
      modifies this
      ensures Valid()
      ensures items == Reduce(old(items), Action.Clear)
    {
      items := Reduce(items, Action.Clear);
    }
  }
}
