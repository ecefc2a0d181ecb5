/**
 * The cart store's operations as functions on the list of lines: the add,
 * remove and update-quantity handlers and the badge count.  The class that
 * holds the list and applies these is `App.Storefront`.
 */
module CartStore {
  import opened Basics
  import opened Cart

  /** A catalogue product as the cart sees it (the image is presentational). */
  datatype Product = Product(id: int, name: string, category: string, priceCents: nat)

  /** A line is addressed by its product id together with its size. */
  predicate Matches(item: CartItem, id: int, size: string)
  {
    item.id == id && item.size == size
  }

  /** At most one line per (id, size) pair. */
  predicate Unique(items: seq<CartItem>)
  {
    forall i, j :: 0 <= i < j < |items| ==> !Matches(items[j], items[i].id, items[i].size)
  }

  /** Every line's quantity lies in the steppers' range 1..10. */
  predicate InRange(items: seq<CartItem>)
  {
    forall k :: 0 <= k < |items| ==> MinQuantity <= items[k].quantity <= MaxQuantity
  }

  /** `findIndex`: the first line addressed by (id, size), or -1 when there is none. */
  function FindIndex(items: seq<CartItem>, id: int, size: string): (r: int)
    ensures -1 <= r < |items|
    ensures r == -1 <==> forall k :: 0 <= k < |items| ==> !Matches(items[k], id, size)
    ensures r >= 0 ==> Matches(items[r], id, size) && forall k :: 0 <= k < r ==> !Matches(items[k], id, size)
  {
    if items == [] then -1
    else if Matches(items[0], id, size) then 0
    else
      var r := FindIndex(items[1..], id, size);
      if r == -1 then -1 else r + 1
  }

  /** The line that adding a product not yet in the cart appends. */
  function NewLine(product: Product, size: string, quantity: int): (line: CartItem)
    ensures Matches(line, product.id, size)
    ensures line.name == product.name && line.priceCents == product.priceCents
    ensures line.quantity == quantity
  {
    CartItem(product.id, product.name, product.priceCents, size, quantity)
  }

  /** The cart after `handleAddToCart`: merge into the existing line, or append a new one. */
  function Added(items: seq<CartItem>, product: Product, size: string, quantity: int): (r: seq<CartItem>)
    ensures |r| == (if FindIndex(items, product.id, size) == -1 then |items| + 1 else |items|)
    ensures forall k :: 0 <= k < |items| && !Matches(items[k], product.id, size) ==> r[k] == items[k]
    ensures FindIndex(r, product.id, size) != -1
  {
    var i := FindIndex(items, product.id, size);
    if i > -1 then
      var r := items[i := items[i].(quantity := items[i].quantity + quantity)];
      assert Matches(r[i], product.id, size);
      r
    else
      var r := items + [NewLine(product, size, quantity)];
      assert Matches(r[|items|], product.id, size);
      r
  }

  /** The cart after `handleRemoveItem`: a filter that drops every line addressed by (id, size). */
  function Removed(items: seq<CartItem>, id: int, size: string): (r: seq<CartItem>)
    ensures forall x :: x in r <==> x in items && !Matches(x, id, size)
    ensures IsSubsequence(r, items)
    ensures (forall k :: 0 <= k < |items| ==> !Matches(items[k], id, size)) ==> r == items
  {
    if items == [] then []
    else if Matches(items[0], id, size) then Removed(items[1..], id, size)
    else
      var rest := Removed(items[1..], id, size);
      assert ([items[0]] + rest)[1..] == rest;
      [items[0]] + rest
  }

  /** Remove keeps every non-matching line exactly as often as it occurs, and no matching line. */
  lemma {:induction false} RemoveKeepsMultiplicity(items: seq<CartItem>, id: int, size: string)
    ensures forall x :: multiset(Removed(items, id, size))[x] ==
                        if Matches(x, id, size) then 0 else multiset(items)[x]
  {
    if items != [] {
      RemoveKeepsMultiplicity(items[1..], id, size);
      assert items == [items[0]] + items[1..];
      if !Matches(items[0], id, size) {
        var rest := Removed(items[1..], id, size);
        assert Removed(items, id, size) == [items[0]] + rest;
      }
    }
  }

  /** The cart after `handleUpdateQuantity`: a map that rewrites the quantity of the addressed line. */
  function Updated(items: seq<CartItem>, id: int, size: string, quantity: int): (r: seq<CartItem>)
    ensures |r| == |items|
    ensures forall k :: 0 <= k < |items| && Matches(items[k], id, size) ==> r[k] == items[k].(quantity := quantity)
    ensures forall k :: 0 <= k < |items| && !Matches(items[k], id, size) ==> r[k] == items[k]
  {
    if items == [] then []
    else
      var head := if Matches(items[0], id, size) then items[0].(quantity := quantity) else items[0];
      [head] + Updated(items[1..], id, size, quantity)
  }

  /** The badge count: `cartItems.reduce((sum, item) => sum + item.quantity, 0)`. */
  function ItemCount(items: seq<CartItem>): (r: int)
    ensures r == SumOf(items, Quantity)
    ensures items == [] ==> r == 0
  {
    ReduceIsSum(0, items, Quantity);
    Reduce(0, items, Quantity)
  }

  // ---- Add ----

  /** Adding a pair already in the cart raises that line's quantity by exactly the amount added; nothing else changes. */
  lemma AddMerges(items: seq<CartItem>, product: Product, size: string, quantity: int, i: nat)
    requires Unique(items)
    requires i < |items| && Matches(items[i], product.id, size)
    ensures |Added(items, product, size, quantity)| == |items|
    ensures Added(items, product, size, quantity)[i] == items[i].(quantity := items[i].quantity + quantity)
    ensures forall k :: 0 <= k < |items| && k != i ==> Added(items, product, size, quantity)[k] == items[k]
  {
  }

  /** Adding a pair not in the cart appends exactly one line carrying the product's id, name and price. */
  lemma AddAppends(items: seq<CartItem>, product: Product, size: string, quantity: int)
    requires forall k :: 0 <= k < |items| ==> !Matches(items[k], product.id, size)
    ensures Added(items, product, size, quantity) == items + [CartItem(product.id, product.name, product.priceCents, size, quantity)]
  {
  }

  /** Add keeps at most one line per (id, size). */
  lemma AddPreservesUnique(items: seq<CartItem>, product: Product, size: string, quantity: int)
    requires Unique(items)
    ensures Unique(Added(items, product, size, quantity))
  {
    var r := Added(items, product, size, quantity);
    var i := FindIndex(items, product.id, size);
    if i > -1 {
      forall a, b | 0 <= a < b < |r|
        ensures !Matches(r[b], r[a].id, r[a].size)
      {
        assert r[a].id == items[a].id && r[a].size == items[a].size;
        assert r[b].id == items[b].id && r[b].size == items[b].size;
      }
    } else {
      forall a, b | 0 <= a < b < |r|
        ensures !Matches(r[b], r[a].id, r[a].size)
      {
        if b == |items| {
          assert r[a] == items[a];
        } else {
          assert r[a] == items[a] && r[b] == items[b];
        }
      }
    }
  }

  /** Add raises the badge count by the quantity added and the total by unit price times that quantity. */
  lemma AddCounts(items: seq<CartItem>, product: Product, size: string, quantity: int)
    ensures ItemCount(Added(items, product, size, quantity)) == ItemCount(items) + quantity
    ensures FindIndex(items, product.id, size) == -1 ==>
      Total(Added(items, product, size, quantity)) == Total(items) + product.priceCents * quantity
    ensures FindIndex(items, product.id, size) >= 0 ==>
      Total(Added(items, product, size, quantity)) == Total(items) + items[FindIndex(items, product.id, size)].priceCents * quantity
  {
    var i := FindIndex(items, product.id, size);
    if i > -1 {
      var line := items[i].(quantity := items[i].quantity + quantity);
      SumUpdate(items, i, line, Quantity);
      SumUpdate(items, i, line, LineTotal);
      assert LineTotal(line) == items[i].priceCents * items[i].quantity + items[i].priceCents * quantity;
    } else {
      var line := NewLine(product, size, quantity);
      SumAppend(items, [line], Quantity);
      SumAppend(items, [line], LineTotal);
    }
  }

  /** The bound 1..10 is not kept by add: merging into a full line goes past it. */
  lemma AddCanExceedMaximum()
    ensures var tank := Product(1, "Shadow Tank Pro", "mens", 3499);
            var full := [CartItem(1, "Shadow Tank Pro", 3499, "M", 10)];
            InRange(full) && !InRange(Added(full, tank, "M", 1))
  {
    var tank := Product(1, "Shadow Tank Pro", "mens", 3499);
    var full := [CartItem(1, "Shadow Tank Pro", 3499, "M", 10)];
    assert FindIndex(full, 1, "M") == 0;
    assert Added(full, tank, "M", 1)[0].quantity == 11;
  }

  // ---- Remove ----

  /** The lines after the first of a cart with unique lines are unique too. */
  lemma UniqueTail(items: seq<CartItem>)
    requires Unique(items) && items != []
    ensures Unique(items[1..])
  {
    var tail := items[1..];
    forall a, b | 0 <= a < b < |tail|
      ensures !Matches(tail[b], tail[a].id, tail[a].size)
    {
      assert tail[a] == items[a + 1] && tail[b] == items[b + 1];
    }
  }

  /** In a cart with unique lines, no later line shares the first line's pair. */
  lemma UniqueHead(items: seq<CartItem>)
    requires Unique(items) && items != []
    ensures forall x :: x in items[1..] ==> !Matches(x, items[0].id, items[0].size)
  {
    forall x | x in items[1..]
      ensures !Matches(x, items[0].id, items[0].size)
    {
      var k :| 0 <= k < |items[1..]| && items[1..][k] == x;
      assert items[k + 1] == x;
    }
  }

  /** Deleting position `i > 0` is keeping the head and deleting position `i - 1` of the tail. */
  lemma DeleteInTail(items: seq<CartItem>, i: nat)
    requires 0 < i < |items|
    ensures items[..i] + items[i + 1..] == [items[0]] + (items[1..][..i - 1] + items[1..][i..])
  {
  }

  /** In a cart with unique lines, removing the pair of line `i` deletes exactly that line. */
  lemma {:induction false} RemoveDeletesLine(items: seq<CartItem>, i: nat)
    requires Unique(items) && i < |items|
    ensures Removed(items, items[i].id, items[i].size) == items[..i] + items[i + 1..]
  {
    var id, size := items[i].id, items[i].size;
    var tail := items[1..];
    UniqueTail(items);
    if i == 0 {
      UniqueHead(items);
      assert Removed(tail, id, size) == tail;
    } else {
      assert !Matches(items[i], items[0].id, items[0].size);
      assert tail[i - 1] == items[i];
      RemoveDeletesLine(tail, i - 1);
      DeleteInTail(items, i);
    }
  }

  /** Remove keeps at most one line per (id, size). */
  lemma {:induction false} RemovePreservesUnique(items: seq<CartItem>, id: int, size: string)
    requires Unique(items)
    ensures Unique(Removed(items, id, size))
  {
    if items != [] {
      var tail := items[1..];
      UniqueTail(items);
      RemovePreservesUnique(tail, id, size);
      if !Matches(items[0], id, size) {
        var rest := Removed(tail, id, size);
        UniqueHead(items);
        assert forall x :: x in rest ==> !Matches(x, items[0].id, items[0].size);
        UniqueCons(items[0], rest);
      }
    }
  }

  /** Putting a line in front of unique lines that do not share its pair keeps them unique. */
  lemma UniqueCons(head: CartItem, rest: seq<CartItem>)
    requires Unique(rest)
    requires forall x :: x in rest ==> !Matches(x, head.id, head.size)
    ensures Unique([head] + rest)
  {
    var r := [head] + rest;
    forall a, b | 0 <= a < b < |r|
      ensures !Matches(r[b], r[a].id, r[a].size)
    {
      assert r[b] == rest[b - 1];
      if a > 0 {
        assert r[a] == rest[a - 1];
      }
    }
  }

  /** The trash button on line `i` lowers the count by that line's quantity and the total by its line total. */
  lemma RemoveCounts(items: seq<CartItem>, i: nat)
    requires Unique(items) && i < |items|
    ensures ItemCount(Removed(items, items[i].id, items[i].size)) == ItemCount(items) - items[i].quantity
    ensures Total(Removed(items, items[i].id, items[i].size)) == Total(items) - LineTotal(items[i])
  {
    RemoveDeletesLine(items, i);
    SumRemoveAt(items, i, Quantity);
    SumRemoveAt(items, i, LineTotal);
  }

  // ---- Update quantity ----

  /** In a cart with unique lines, updating the pair of line `i` rewrites that line's quantity only, unclamped. */
  lemma UpdateRewritesLine(items: seq<CartItem>, i: nat, quantity: int)
    requires Unique(items) && i < |items|
    ensures Updated(items, items[i].id, items[i].size, quantity) == items[i := items[i].(quantity := quantity)]
  {
    var r := Updated(items, items[i].id, items[i].size, quantity);
    forall k | 0 <= k < |items| && k != i
      ensures r[k] == items[k]
    {
      if k < i {
        assert !Matches(items[i], items[k].id, items[k].size);
      } else {
        assert !Matches(items[k], items[i].id, items[i].size);
      }
    }
  }

  /** Update keeps at most one line per (id, size): it never changes an id or a size. */
  lemma UpdatePreservesUnique(items: seq<CartItem>, id: int, size: string, quantity: int)
    requires Unique(items)
    ensures Unique(Updated(items, id, size, quantity))
  {
    var r := Updated(items, id, size, quantity);
    forall a, b | 0 <= a < b < |r|
      ensures !Matches(r[b], r[a].id, r[a].size)
    {
      assert r[a].id == items[a].id && r[a].size == items[a].size;
      assert r[b].id == items[b].id && r[b].size == items[b].size;
    }
  }

  /** Updating line `i` to `quantity` moves the badge count by the difference of the two quantities. */
  lemma UpdateCounts(items: seq<CartItem>, i: nat, quantity: int)
    requires Unique(items) && i < |items|
    ensures ItemCount(Updated(items, items[i].id, items[i].size, quantity)) == ItemCount(items) - items[i].quantity + quantity
  {
    UpdateRewritesLine(items, i, quantity);
    SumUpdate(items, i, items[i].(quantity := quantity), Quantity);
  }

  /** The steppers' requests keep every quantity in 1..10 when the cart already was. */
  lemma SteppersKeepRange(items: seq<CartItem>, i: nat)
    requires InRange(items) && i < |items|
    ensures InRange(Updated(items, items[i].id, items[i].size, DecrementRequest(items[i].quantity)))
    ensures InRange(Updated(items, items[i].id, items[i].size, IncrementRequest(items[i].quantity)))
  {
    var dec := Updated(items, items[i].id, items[i].size, DecrementRequest(items[i].quantity));
    var inc := Updated(items, items[i].id, items[i].size, IncrementRequest(items[i].quantity));
    forall k | 0 <= k < |items|
      ensures MinQuantity <= dec[k].quantity <= MaxQuantity && MinQuantity <= inc[k].quantity <= MaxQuantity
    {
    }
  }

  /** Adding product 1 in size M once and then twice more leaves one line of three, totalling $104.97. */
  lemma RepeatedAddScenario()
    ensures var tank := Product(1, "Shadow Tank Pro", "mens", 3499);
            var cart := Added(Added([], tank, "M", 1), tank, "M", 2);
            cart == [CartItem(1, "Shadow Tank Pro", 3499, "M", 3)] && Total(cart) == 10497
  {
    var tank := Product(1, "Shadow Tank Pro", "mens", 3499);
    var once := Added([], tank, "M", 1);
    assert once == [CartItem(1, "Shadow Tank Pro", 3499, "M", 1)];
    assert FindIndex(once, 1, "M") == 0;
  }

  /** Two sizes of one product make two lines and a badge count of 2. */
  lemma TwoSizesScenario()
    ensures var tank := Product(1, "Shadow Tank Pro", "mens", 3499);
            var cart := Added(Added([], tank, "M", 1), tank, "L", 1);
            |cart| == 2 && ItemCount(cart) == 2
  {
    var tank := Product(1, "Shadow Tank Pro", "mens", 3499);
    var once := Added([], tank, "M", 1);
    assert once == [CartItem(1, "Shadow Tank Pro", 3499, "M", 1)];
    assert FindIndex(once, 1, "L") == -1;
    AddCounts(once, tank, "L", 1);
    AddCounts([], tank, "M", 1);
  }
}
