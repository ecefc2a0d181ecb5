/**
 * The cart sheet: the cart line type, the order total, and the -/+ steppers.
 * Unit prices are whole cents, so the total is exact.
 */
module Cart {

  /** One cart line: a product in one size, with its name and unit price copied at add time. */
  datatype CartItem = CartItem(id: int, name: string, priceCents: nat, size: string, quantity: int)

  /** Quantity bounds that the steppers enforce. */
  const MinQuantity := 1
  const MaxQuantity := 10

  /** Unit price times quantity. */
  function LineTotal(item: CartItem): int
  {
    item.priceCents * item.quantity
  }

  function Quantity(item: CartItem): int
  {
    item.quantity
  }

  /** Reference definition of a sum over the lines, taken from the front. */
  function SumOf(items: seq<CartItem>, f: CartItem -> int): int
  {
    if items == [] then 0 else f(items[0]) + SumOf(items[1..], f)
  }

  /** `items.reduce((acc, item) => acc + f(item), acc)`: a fold from the left. */
  function Reduce(acc: int, items: seq<CartItem>, f: CartItem -> int): int
    decreases |items|
  {
    if items == [] then acc else Reduce(acc + f(items[0]), items[1..], f)
  }

  /** The left fold computes the reference sum, offset by its start value. */
  lemma {:induction false} ReduceIsSum(acc: int, items: seq<CartItem>, f: CartItem -> int)
    ensures Reduce(acc, items, f) == acc + SumOf(items, f)
    decreases |items|
  {
    if items != [] {
      ReduceIsSum(acc + f(items[0]), items[1..], f);
    }
  }

  /** The order total shown under the cart lines (and in the checkout summary). */
  function Total(items: seq<CartItem>): (r: int)
    ensures r == SumOf(items, LineTotal)
    ensures items == [] ==> r == 0
  {
    ReduceIsSum(0, items, LineTotal);
    Reduce(0, items, LineTotal)
  }

  lemma {:induction false} SumAppend(a: seq<CartItem>, b: seq<CartItem>, f: CartItem -> int)
    ensures SumOf(a + b, f) == SumOf(a, f) + SumOf(b, f)
  {
    if a == [] {
      assert a + b == b;
    } else {
      assert (a + b)[1..] == a[1..] + b;
      SumAppend(a[1..], b, f);
    }
  }

  /** Replacing one line changes the sum by exactly the difference of that line's terms. */
  lemma {:induction false} SumUpdate(items: seq<CartItem>, i: nat, x: CartItem, f: CartItem -> int)
    requires i < |items|
    ensures SumOf(items[i := x], f) == SumOf(items, f) - f(items[i]) + f(x)
  {
    if i == 0 {
      assert items[i := x][1..] == items[1..];
    } else {
      assert items[i := x][1..] == items[1..][i - 1 := x];
      SumUpdate(items[1..], i - 1, x, f);
    }
  }

  /** Deleting one line takes exactly that line's term out of the sum. */
  lemma {:induction false} SumRemoveAt(items: seq<CartItem>, i: nat, f: CartItem -> int)
    requires i < |items|
    ensures SumOf(items[..i] + items[i + 1..], f) == SumOf(items, f) - f(items[i])
  {
    if i == 0 {
      assert items[..i] + items[i + 1..] == items[1..];
    } else {
      var tail := items[1..];
      SumRemoveAt(tail, i - 1, f);
      var shorter := items[..i] + items[i + 1..];
      assert shorter[0] == items[0];
      assert shorter[1..] == tail[..i - 1] + tail[i..];
    }
  }

  /** Deleting position `j` removes one occurrence of that element from the multiset. */
  lemma MultisetRemoveAt(s: seq<CartItem>, j: nat)
    requires j < |s|
    ensures multiset(s[..j] + s[j + 1..]) == multiset(s) - multiset{s[j]}
  {
    assert s == s[..j] + [s[j]] + s[j + 1..];
  }

  /** An element of the multiset of `b` sits at some position of `b`. */
  lemma IndexOf(b: seq<CartItem>, x: CartItem) returns (j: nat)
    requires x in multiset(b)
    ensures j < |b| && b[j] == x
  {
    assert x in b;
    j :| 0 <= j < |b| && b[j] == x;
  }

  /** Dropping the first element removes one occurrence of it from the multiset. */
  lemma MultisetTail(a: seq<CartItem>)
    requires a != []
    ensures multiset(a[1..]) == multiset(a) - multiset{a[0]}
  {
    assert a == [a[0]] + a[1..];
  }

  /** The first element of `a` sits somewhere in its permutation `b`; both remainders are permutations again. */
  lemma MatchFirst(a: seq<CartItem>, b: seq<CartItem>) returns (j: nat)
    requires a != [] && multiset(a) == multiset(b)
    ensures j < |b| && b[j] == a[0]
    ensures multiset(a[1..]) == multiset(b[..j] + b[j + 1..])
  {
    j := IndexOf(b, a[0]);
    calc {
      multiset(a[1..]);
      { MultisetTail(a); }
      multiset(a) - multiset{a[0]};
      multiset(b) - multiset{b[j]};
      { MultisetRemoveAt(b, j); }
      multiset(b[..j] + b[j + 1..]);
    }
  }

  /** A sum over the lines depends only on which lines there are, not on their order. */
  lemma {:induction false} SumPermutation(a: seq<CartItem>, b: seq<CartItem>, f: CartItem -> int)
    requires multiset(a) == multiset(b)
    ensures SumOf(a, f) == SumOf(b, f)
    decreases |a|
  {
    if a == [] {
      assert |b| == |multiset(b)| == 0;
    } else {
      var j := MatchFirst(a, b);
      SumPermutation(a[1..], b[..j] + b[j + 1..], f);
      SumRemoveAt(b, j, f);
    }
  }

  /** Two carts holding the same lines in any order have the same total. */
  lemma TotalIgnoresOrder(a: seq<CartItem>, b: seq<CartItem>)
    requires multiset(a) == multiset(b)
    ensures Total(a) == Total(b)
  {
    SumPermutation(a, b, LineTotal);
  }

  /** The "-" stepper's request: `Math.max(1, quantity - 1)`. */
  function DecrementRequest(q: int): (r: int)
    ensures r >= MinQuantity
    ensures q >= 2 ==> r == q - 1
    ensures q <= 1 ==> r == 1
    ensures MinQuantity <= q <= MaxQuantity ==> MinQuantity <= r <= MaxQuantity
  {
    if q - 1 < 1 then 1 else q - 1
  }

  /** The "+" stepper's request: `Math.min(10, quantity + 1)`. */
  function IncrementRequest(q: int): (r: int)
    ensures r <= MaxQuantity
    ensures q <= 9 ==> r == q + 1
    ensures q >= 10 ==> r == 10
    ensures MinQuantity <= q <= MaxQuantity ==> MinQuantity <= r <= MaxQuantity
  {
    if q + 1 > 10 then 10 else q + 1
  }

  /** What the sheet shows: the empty-cart message, or the lines with their total and the checkout button. */
  datatype SheetView = EmptyCart | Lines(total: int, offersCheckout: bool)

  function Render(items: seq<CartItem>): (v: SheetView)
    ensures v.EmptyCart? <==> items == []
    ensures v.Lines? ==> v.offersCheckout && v.total == SumOf(items, LineTotal)
  {
    if |items| == 0 then EmptyCart else Lines(Total(items), true)
  }
}
