// The client-side cart: the reducer behind the cart context (ADD, QTY, RM,
// CLEAR and the fall-through), the item count and the subtotal. Prices are
// integer cents.

module CartContext {
  import opened Common

  /** A line's size: absent, a number, or a text label. */
  datatype Size = NoSize | NumSize(n: int) | TextSize(text: string)

  datatype CartItem = CartItem(id: string, name: string, price: int, image: Option<string>, size: Size, quantity: int)

  /** The reducer's actions; `Other` stands for any unrecognised action. */
  datatype Action =
    | Add(payload: CartItem)
    | Qty(id: string, size: Size, quantity: int)
    | Rm(id: string, size: Size)
    | Clear
    | Other

  /** `${size ?? ""}`. */
  function SizeText(s: Size): string {
    match s
    case NoSize => ""
    case NumSize(n) => IntToString(n)
    case TextSize(t) => t
  }

  /** The key ADD merges lines by: the id and the size text. */
  function Key(i: CartItem): string {
    i.id + "__" + SizeText(i.size)
  }

  /** The strict-equality test QTY and RM use. */
  predicate SameLine(i: CartItem, id: string, size: Size) {
    i.id == id && i.size == size
  }

  /** ADD merges a numeric size with the same size written as text, while
      QTY and RM tell them apart. */
  lemma NumericAndTextSizesMerge(i: CartItem)
    ensures Key(i.(size := NumSize(40))) == Key(i.(size := TextSize("40")))
    ensures !SameLine(i.(size := NumSize(40)), i.id, TextSize("40"))
  {
    assert NatToString(40) == NatToString(4) + [DigitChar(0)];
  }

  predicate HasKey(items: seq<CartItem>, key: string) {
    exists k :: 0 <= k < |items| && Key(items[k]) == key
  }

  /** No two lines share a key: the shape ADD keeps. */
  predicate KeysUnique(items: seq<CartItem>) {
    forall i, j :: 0 <= i < j < |items| ==> Key(items[i]) != Key(items[j])
  }

  // ---------------------------------------------------------------------------
  // The reducer
  // ---------------------------------------------------------------------------

  /** Every line with the given key gets `q` more; nothing else changes. */
  function Bump(items: seq<CartItem>, key: string, q: int): (r: seq<CartItem>)
    ensures |r| == |items|
    ensures forall k :: 0 <= k < |r| ==> Key(r[k]) == Key(items[k])
  {
    if |items| == 0 then []
    else
      var head := if Key(items[0]) == key then items[0].(quantity := items[0].quantity + q) else items[0];
      [head] + Bump(items[1..], key, q)
  }

  /** ADD: grows the line with the payload's key, or appends the payload. */
  function AddLine(items: seq<CartItem>, p: CartItem): (r: seq<CartItem>)
    ensures HasKey(items, Key(p)) ==> |r| == |items|
    ensures !HasKey(items, Key(p)) ==> r == items + [p]
    ensures HasKey(r, Key(p))
  {
    if HasKey(items, Key(p)) then
      var r := Bump(items, Key(p), p.quantity);
      var k :| 0 <= k < |items| && Key(items[k]) == Key(p);
      assert Key(r[k]) == Key(p);
      r
    else
      var r := items + [p];
      assert Key(r[|items|]) == Key(p);
      r
  }

  /** The first half of QTY: lines equal in id and size get quantity `q`. */
  function SetQuantity(items: seq<CartItem>, id: string, size: Size, q: int): (r: seq<CartItem>)
    ensures |r| == |items|
    ensures forall k :: 0 <= k < |r| ==> Key(r[k]) == Key(items[k])
  {
    if |items| == 0 then []
    else
      var head := if SameLine(items[0], id, size) then items[0].(quantity := q) else items[0];
      [head] + SetQuantity(items[1..], id, size, q)
  }

  /** The second half of QTY: the lines with a positive quantity, in order. */
  function Positive(items: seq<CartItem>): seq<CartItem> {
    if |items| == 0 then []
    else (if items[0].quantity > 0 then [items[0]] else []) + Positive(items[1..])
  }

  /** The filter keeps each line with a positive quantity as often as it
      occurs, and no other line. */
  lemma {:induction false} PositiveLines(items: seq<CartItem>)
    ensures forall x :: multiset(Positive(items))[x] == if x.quantity > 0 then multiset(items)[x] else 0
  {
    if |items| > 0 {
      assert items == [items[0]] + items[1..];
      PositiveLines(items[1..]);
    }
  }

  /** RM: the lines not equal in id and size, in order. */
  function WithoutLine(items: seq<CartItem>, id: string, size: Size): seq<CartItem> {
    if |items| == 0 then []
    else (if SameLine(items[0], id, size) then [] else [items[0]]) + WithoutLine(items[1..], id, size)
  }

  /** RM keeps each line not equal in id and size as often as it occurs, and
      no other line. */
  lemma {:induction false} WithoutLineLines(items: seq<CartItem>, id: string, size: Size)
    ensures forall x :: multiset(WithoutLine(items, id, size))[x] == if SameLine(x, id, size) then 0 else multiset(items)[x]
  {
    if |items| > 0 {
      assert items == [items[0]] + items[1..];
      WithoutLineLines(items[1..], id, size);
    }
  }

  /** The cart reducer. */
  function Reduce(items: seq<CartItem>, action: Action): (r: seq<CartItem>)
    ensures action.Clear? ==> r == []
    ensures action.Other? ==> r == items
    ensures action.Qty? ==> forall k :: 0 <= k < |r| ==> r[k].quantity > 0
    ensures action.Rm? ==> forall k :: 0 <= k < |r| ==> !SameLine(r[k], action.id, action.size)
  {
    match action
    case Add(p) => AddLine(items, p)
    case Qty(id, size, q) =>
      var r := Positive(SetQuantity(items, id, size, q));
      PositiveLines(SetQuantity(items, id, size, q));
      assert forall k :: 0 <= k < |r| ==> r[k] in multiset(r);
      r
    case Rm(id, size) =>
      var r := WithoutLine(items, id, size);
      WithoutLineLines(items, id, size);
      assert forall k :: 0 <= k < |r| ==> r[k] in multiset(r);
      r
    case Clear => []
    case Other => items
  }

  // ---------------------------------------------------------------------------
  // Count and subtotal
  // ---------------------------------------------------------------------------

  /** `count`: the sum of the quantities. */
  function Count(items: seq<CartItem>): int {
    if |items| == 0 then 0 else items[0].quantity + Count(items[1..])
  }

  /** `subtotal`: the sum of price × quantity, in cents. */
  function Subtotal(items: seq<CartItem>): int {
    if |items| == 0 then 0 else items[0].price * items[0].quantity + Subtotal(items[1..])
  }

  lemma {:induction false} CountAppend(a: seq<CartItem>, b: seq<CartItem>)
    ensures Count(a + b) == Count(a) + Count(b)
    ensures Subtotal(a + b) == Subtotal(a) + Subtotal(b)
  {
    if |a| > 0 {
      assert (a + b)[1..] == a[1..] + b;
      CountAppend(a[1..], b);
    } else {
      assert a + b == b;
    }
  }

  /** How many lines carry the key. */
  function KeyCount(items: seq<CartItem>, key: string): nat {
    if |items| == 0 then 0 else (if Key(items[0]) == key then 1 else 0) + KeyCount(items[1..], key)
  }

  /** With unique keys, a key that is present is carried by exactly one
      line. */
  lemma {:induction false} KeyCountUnique(items: seq<CartItem>, key: string)
    requires KeysUnique(items)
    ensures KeyCount(items, key) == if HasKey(items, key) then 1 else 0
  {
    if |items| > 0 {
      var tail := items[1..];
      KeysUniqueTail(items);
      KeyCountUnique(tail, key);
      if Key(items[0]) != key {
        if HasKey(items, key) {
          var k :| 0 <= k < |items| && Key(items[k]) == key;
          assert Key(tail[k - 1]) == key;
        }
        if HasKey(tail, key) {
          var k :| 0 <= k < |tail| && Key(tail[k]) == key;
          assert Key(items[k + 1]) == key;
        }
      }
    }
  }

  /** Bumping a key adds `q` to the count once per line carrying it. */
  lemma {:induction false} BumpCount(items: seq<CartItem>, key: string, q: int)
    ensures Count(Bump(items, key, q)) == Count(items) + q * KeyCount(items, key)
  {
    if |items| > 0 {
      BumpCount(items[1..], key, q);
      assert Bump(items, key, q)[1..] == Bump(items[1..], key, q);
    }
  }

  /** Bumping a key adds `q` to the subtotal at the price of each line
      carrying it. */
  lemma {:induction false} BumpSubtotal(items: seq<CartItem>, key: string, q: int)
    ensures Subtotal(Bump(items, key, q)) == Subtotal(items) + q * PriceOfKey(items, key)
  {
    if |items| > 0 {
      BumpSubtotal(items[1..], key, q);
      var r := Bump(items, key, q);
      assert r[1..] == Bump(items[1..], key, q);
      var i := items[0];
      if Key(i) == key {
        assert r[0] == i.(quantity := i.quantity + q);
        GrowLine(i.price, i.quantity, q, PriceOfKey(items[1..], key));
      } else {
        assert r[0] == i;
      }
    }
  }

  lemma GrowLine(price: int, quantity: int, q: int, rest: int)
    ensures price * (quantity + q) == price * quantity + q * price
    ensures q * (price + rest) == q * price + q * rest
  {
  }

  /** The sum of the prices of the lines carrying the key. */
  function PriceOfKey(items: seq<CartItem>, key: string): int {
    if |items| == 0 then 0 else (if Key(items[0]) == key then items[0].price else 0) + PriceOfKey(items[1..], key)
  }

  /** With unique keys the price of a present key is the price of its line. */
  lemma {:induction false} PriceOfUniqueKey(items: seq<CartItem>, k: nat)
    requires KeysUnique(items) && k < |items|
    ensures PriceOfKey(items, Key(items[k])) == items[k].price
  {
    var tail := items[1..];
    assert KeysUnique(tail) by {
      forall i, j | 0 <= i < j < |tail| ensures Key(tail[i]) != Key(tail[j]) {
        assert tail[i] == items[i + 1] && tail[j] == items[j + 1];
      }
    }
    if k == 0 {
      AbsentKeyPrice(tail, Key(items[0]));
    } else {
      assert tail[k - 1] == items[k];
      PriceOfUniqueKey(tail, k - 1);
    }
  }

  lemma {:induction false} AbsentKeyPrice(items: seq<CartItem>, key: string)
    requires forall k :: 0 <= k < |items| ==> Key(items[k]) != key
    ensures PriceOfKey(items, key) == 0
  {
    if |items| > 0 {
      assert forall k :: 0 <= k < |items| - 1 ==> items[1..][k] == items[k + 1];
      AbsentKeyPrice(items[1..], key);
    }
  }

  /** ADD on a cart with unique keys raises the count by exactly the payload
      quantity. */
  lemma AddCount(items: seq<CartItem>, p: CartItem)
    requires KeysUnique(items)
    ensures Count(Reduce(items, Add(p))) == Count(items) + p.quantity
  {
    if HasKey(items, Key(p)) {
      KeyCountUnique(items, Key(p));
      BumpCount(items, Key(p), p.quantity);
    } else {
      CountAppend(items, [p]);
      assert Count([p]) == p.quantity + Count([p][1..]);
    }
  }

  /** ADD of a new key adds the payload's price × quantity to the
      subtotal. */
  lemma AddSubtotalNew(items: seq<CartItem>, p: CartItem)
    requires !HasKey(items, Key(p))
    ensures Subtotal(Reduce(items, Add(p))) == Subtotal(items) + p.price * p.quantity
  {
    CountAppend(items, [p]);
    assert Subtotal([p]) == p.price * p.quantity + Subtotal([p][1..]);
  }

  /** ADD of a key already in a cart with unique keys keeps that line's own
      price, so the subtotal grows by that price × the payload quantity. */
  lemma AddSubtotalMerged(items: seq<CartItem>, p: CartItem, k: nat)
    requires KeysUnique(items) && k < |items| && Key(items[k]) == Key(p)
    ensures Subtotal(Reduce(items, Add(p))) == Subtotal(items) + items[k].price * p.quantity
  {
    assert HasKey(items, Key(p));
    var r := Bump(items, Key(p), p.quantity);
    assert Reduce(items, Add(p)) == r;
    BumpSubtotal(items, Key(p), p.quantity);
    PriceOfUniqueKey(items, k);
    var price := PriceOfKey(items, Key(p));
    assert Subtotal(r) == Subtotal(items) + p.quantity * price;
    assert price == items[k].price;
  }

  /** ADD on an existing key: that line's quantity grows by the payload
      quantity, every other line and every other field stay. */
  lemma {:induction false} AddExisting(items: seq<CartItem>, p: CartItem, k: nat)
    requires k < |items|
    ensures var r := Bump(items, Key(p), p.quantity);
      && r[k].id == items[k].id && r[k].name == items[k].name && r[k].price == items[k].price
      && r[k].image == items[k].image && r[k].size == items[k].size
      && r[k].quantity == if Key(items[k]) == Key(p) then items[k].quantity + p.quantity else items[k].quantity
  {
    if k > 0 {
      AddExisting(items[1..], p, k - 1);
      assert Bump(items, Key(p), p.quantity)[k] == Bump(items[1..], Key(p), p.quantity)[k - 1];
      assert items[1..][k - 1] == items[k];
    }
  }

  // ---------------------------------------------------------------------------
  // The shape the reducer keeps
  // ---------------------------------------------------------------------------

  lemma KeysUniqueTail(items: seq<CartItem>)
    requires |items| > 0 && KeysUnique(items)
    ensures KeysUnique(items[1..])
    ensures forall k :: 0 <= k < |items| - 1 ==> Key(items[1..][k]) != Key(items[0])
  {
    assert forall k :: 0 <= k < |items| - 1 ==> items[1..][k] == items[k + 1];
  }

  lemma KeysUniqueCons(x: CartItem, tail: seq<CartItem>)
    requires KeysUnique(tail) && forall k :: 0 <= k < |tail| ==> Key(tail[k]) != Key(x)
    ensures KeysUnique([x] + tail)
  {
    var s := [x] + tail;
    forall i, j | 0 <= i < j < |s| ensures Key(s[i]) != Key(s[j]) {
      assert s[j] == tail[j - 1];
      if i > 0 {
        assert s[i] == tail[i - 1];
      }
    }
  }

  lemma {:induction false} PositiveUnique(items: seq<CartItem>)
    requires KeysUnique(items)
    ensures KeysUnique(Positive(items))
  {
    if |items| > 0 {
      KeysUniqueTail(items);
      var tail := Positive(items[1..]);
      PositiveUnique(items[1..]);
      PositiveLines(items[1..]);
      forall k | 0 <= k < |tail| ensures Key(tail[k]) != Key(items[0]) {
        assert tail[k] in multiset(tail);
        assert tail[k] in multiset(items[1..]);
        var m :| 0 <= m < |items[1..]| && items[1..][m] == tail[k];
      }
      if items[0].quantity > 0 {
        KeysUniqueCons(items[0], tail);
      } else {
        assert Positive(items) == tail;
      }
    }
  }

  lemma {:induction false} WithoutLineUnique(items: seq<CartItem>, id: string, size: Size)
    requires KeysUnique(items)
    ensures KeysUnique(WithoutLine(items, id, size))
  {
    if |items| > 0 {
      KeysUniqueTail(items);
      var tail := WithoutLine(items[1..], id, size);
      WithoutLineUnique(items[1..], id, size);
      WithoutLineLines(items[1..], id, size);
      forall k | 0 <= k < |tail| ensures Key(tail[k]) != Key(items[0]) {
        assert tail[k] in multiset(tail);
        assert tail[k] in multiset(items[1..]);
        var m :| 0 <= m < |items[1..]| && items[1..][m] == tail[k];
      }
      if !SameLine(items[0], id, size) {
        KeysUniqueCons(items[0], tail);
      } else {
        assert WithoutLine(items, id, size) == tail;
      }
    }
  }

  lemma KeysUniqueSameKeys(a: seq<CartItem>, b: seq<CartItem>)
    requires KeysUnique(a) && |b| == |a| && forall k :: 0 <= k < |a| ==> Key(b[k]) == Key(a[k])
    ensures KeysUnique(b)
  {
  }

  /** Every action keeps the keys of the cart unique. */
  lemma ReduceKeepsKeysUnique(items: seq<CartItem>, action: Action)
    requires KeysUnique(items)
    ensures KeysUnique(Reduce(items, action))
  {
    match action
    case Add(p) =>
      if HasKey(items, Key(p)) {
        KeysUniqueSameKeys(items, Bump(items, Key(p), p.quantity));
      } else {
        var r := items + [p];
        forall i, j | 0 <= i < j < |r| ensures Key(r[i]) != Key(r[j]) {
          if j == |items| {
            assert Key(items[i]) != Key(p);
          }
        }
      }
    case Qty(id, size, q) =>
      KeysUniqueSameKeys(items, SetQuantity(items, id, size, q));
      PositiveUnique(SetQuantity(items, id, size, q));
    case Rm(id, size) =>
      WithoutLineUnique(items, id, size);
    case Clear =>
    case Other =>
  }

  /** QTY: a line equal in id and size is kept with the new quantity when it
      is positive and dropped otherwise; any other line is kept exactly when
      its quantity is positive. */
  lemma {:induction false} QtyLines(items: seq<CartItem>, id: string, size: Size, q: int, x: CartItem)
    ensures var r := Reduce(items, Qty(id, size, q));
      && (SameLine(x, id, size) && x.quantity != q ==> x !in r)
      && (!SameLine(x, id, size) ==> (x in r <==> x in items && x.quantity > 0))
      && (x in items && SameLine(x, id, size) && q > 0 ==> x.(quantity := q) in r)
  {
    var s := SetQuantity(items, id, size, q);
    var r := Positive(s);
    SetQuantityLines(items, id, size, q, x);
    PositiveLines(s);
    assert x in r <==> x in multiset(r);
    assert x in s <==> x in multiset(s);
    if x in items && SameLine(x, id, size) && q > 0 {
      var y := x.(quantity := q);
      SetQuantityLines(items, id, size, q, y);
      assert y in s;
      assert y in multiset(s);
      assert y in multiset(r);
    }
  }

  lemma {:induction false} SetQuantityLines(items: seq<CartItem>, id: string, size: Size, q: int, x: CartItem)
    ensures var s := SetQuantity(items, id, size, q);
      && (SameLine(x, id, size) && x.quantity != q ==> x !in s)
      && (!SameLine(x, id, size) ==> (x in s <==> x in items))
      && (SameLine(x, id, size) && x in items ==> x.(quantity := q) in s)
  {
    if |items| > 0 {
      SetQuantityLines(items[1..], id, size, q, x);
      var s := SetQuantity(items, id, size, q);
      assert s == [s[0]] + SetQuantity(items[1..], id, size, q);
      assert items == [items[0]] + items[1..];
    }
  }

  /** RM keeps the order of the remaining lines: it distributes over
      concatenation. */
  lemma {:induction false} WithoutLineAppend(a: seq<CartItem>, b: seq<CartItem>, id: string, size: Size)
    ensures WithoutLine(a + b, id, size) == WithoutLine(a, id, size) + WithoutLine(b, id, size)
  {
    if |a| > 0 {
      assert (a + b)[0] == a[0] && (a + b)[1..] == a[1..] + b;
      WithoutLineAppend(a[1..], b, id, size);
    } else {
      assert a + b == b;
    }
  }

  /** QTY's filter keeps the order of the remaining lines likewise. */
  lemma {:induction false} PositiveAppend(a: seq<CartItem>, b: seq<CartItem>)
    ensures Positive(a + b) == Positive(a) + Positive(b)
  {
    if |a| > 0 {
      assert (a + b)[0] == a[0] && (a + b)[1..] == a[1..] + b;
      PositiveAppend(a[1..], b);
    } else {
      assert a + b == b;
    }
  }
}
