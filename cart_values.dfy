/** Value-level view of the shopping cart: the food, cart-line and cart values,
    the lookups and folds the cart service performs over its item list
    (`find`, `filter`, `reduce`), and the facts about them that the service's
    operations rely on. Prices are whole numbers (for example cents). */
module CartValues {

  datatype Option<T> = None | Some(value: T)

  /** A catalogue product, reduced to what the cart reads: its id and unit price. */
  datatype Food = Food(id: string, price: int)

  /** The value of one cart line: its food, its quantity and its stored line price. */
  datatype ItemState = ItemState(food: Food, quantity: int, price: int)

  /** The value of a whole cart: its lines in insertion order and the two stored totals. */
  datatype CartState = CartState(items: seq<ItemState>, totalPrice: int, totalCount: int)

  /** The two per-line quantities the cart adds up. */
  datatype Measure = Price | Quantity {
    function Of(x: ItemState): (r: int)
      ensures r == x.price || r == x.quantity
    {
      match this
      case Price => x.price
      case Quantity => x.quantity
    }
  }

  /** At most one line per food id. */
  predicate UniqueIds(s: seq<ItemState>) {
    forall i, j :: 0 <= i < j < |s| ==> s[i].food.id != s[j].food.id
  }

  /** No line of `s` is for food `id`. */
  predicate Absent(s: seq<ItemState>, id: string) {
    forall j :: 0 <= j < |s| ==> s[j].food.id != id
  }

  /** The stored totals are the sums over the lines. */
  predicate TotalsMatch(c: CartState) {
    c.totalPrice == Sum(c.items, Price) && c.totalCount == Sum(c.items, Quantity)
  }

  /** Index of the first line whose food id is `id` (the `find` lookup). */
  function IndexOf(s: seq<ItemState>, id: string): (r: Option<nat>)
    ensures r.None? <==> Absent(s, id)
    ensures r.Some? ==> r.value < |s| && s[r.value].food.id == id
    ensures r.Some? ==> Absent(s[..r.value], id)
  {
    if |s| == 0 then None
    else if s[0].food.id == id then Some(0)
    else
      match IndexOf(s[1..], id)
      case None => None
      case Some(k) =>
        assert s[..k + 1] == [s[0]] + s[1..][..k];
        Some(k + 1)
  }

  /** The lines of `s` whose food id is not `id`, in their original order (the `filter`). */
  function Without(s: seq<ItemState>, id: string): (r: seq<ItemState>)
    ensures Absent(r, id)
    ensures forall x :: x in r ==> x in s
    ensures forall i :: 0 <= i < |s| && s[i].food.id != id ==> s[i] in r
    ensures Absent(s, id) ==> r == s
    ensures |r| <= |s|
  {
    if |s| == 0 then []
    else if s[0].food.id != id then [s[0]] + Without(s[1..], id)
    else Without(s[1..], id)
  }

  /** The lines after setting the quantity of the first line for `id` to `q`
      and its line price to `q` times its food's unit price; unchanged when
      there is no such line. */
  function WithQuantity(s: seq<ItemState>, id: string, q: int): (r: seq<ItemState>)
    ensures |r| == |s|
    ensures Absent(s, id) ==> r == s
    ensures forall k :: IndexOf(s, id) == Some(k) ==>
      r[k] == ItemState(s[k].food, q, q * s[k].food.price) &&
      forall i :: 0 <= i < |s| && i != k ==> r[i] == s[i]
  {
    match IndexOf(s, id)
    case None => s
    case Some(k) => s[k := ItemState(s[k].food, q, q * s[k].food.price)]
  }

  /** Left fold of `m` over the lines, starting from 0 (the `reduce`). */
  /** Every line's amount of measure `m` is at least zero. */
  predicate NonNegative(s: seq<ItemState>, m: Measure) {
    forall i :: 0 <= i < |s| ==> m.Of(s[i]) >= 0
  }

  function Sum(s: seq<ItemState>, m: Measure): (r: int)
    ensures NonNegative(s, m) ==> r >= 0
  {
    if |s| == 0 then 0 else Sum(s[..|s| - 1], m) + m.Of(s[|s| - 1])
  }

  /** The fold splits over concatenation. */
  lemma {:induction false} SumConcat(a: seq<ItemState>, b: seq<ItemState>, m: Measure)
    ensures Sum(a + b, m) == Sum(a, m) + Sum(b, m)
  {
    if |b| == 0 {
      assert a + b == a;
    } else {
      var b' := b[..|b| - 1];
      assert (a + b)[..|a + b| - 1] == a + b';
      SumConcat(a, b', m);
    }
  }

  /** Replacing one line changes the sum by exactly the difference of that line. */
  lemma SumUpdate(s: seq<ItemState>, k: nat, x: ItemState, m: Measure)
    requires k < |s|
    ensures Sum(s[k := x], m) == Sum(s, m) - m.Of(s[k]) + m.Of(x)
  {
    assert s == s[..k] + [s[k]] + s[k + 1..];
    assert s[k := x] == s[..k] + [x] + s[k + 1..];
    SumConcat(s[..k] + [s[k]], s[k + 1..], m);
    SumConcat(s[..k] + [x], s[k + 1..], m);
    SumConcat(s[..k], [s[k]], m);
    SumConcat(s[..k], [x], m);
  }

  /** Filtering distributes over concatenation: every kept line keeps its place
      relative to the other kept lines. */
  lemma {:induction false} WithoutConcat(a: seq<ItemState>, b: seq<ItemState>, id: string)
    ensures Without(a + b, id) == Without(a, id) + Without(b, id)
  {
    if |a| == 0 {
      assert a + b == b;
    } else {
      assert (a + b)[1..] == a[1..] + b;
      WithoutConcat(a[1..], b, id);
    }
  }

  /** In a cart with unique ids, removing a present id deletes exactly its one line. */
  lemma {:induction false} WithoutUnique(s: seq<ItemState>, id: string, k: nat)
    requires UniqueIds(s)
    requires IndexOf(s, id) == Some(k)
    ensures Without(s, id) == s[..k] + s[k + 1..]
  {
    var tail := s[k + 1..];
    assert Absent(tail, id) by {
      forall j | 0 <= j < |tail| ensures tail[j].food.id != id {
        assert tail[j] == s[k + 1 + j];
      }
    }
    assert s == s[..k] + [s[k]] + tail;
    WithoutSplice(s[..k], s[k], tail, id);
  }

  /** Filtering out the id of the one line between two id-free parts drops exactly that line. */
  lemma WithoutSplice(head: seq<ItemState>, x: ItemState, tail: seq<ItemState>, id: string)
    requires Absent(head, id) && Absent(tail, id) && x.food.id == id
    ensures Without(head + [x] + tail, id) == head + tail
  {
    assert Without([x], id) == [];
    WithoutConcat(head, [x], id);
    WithoutConcat(head + [x], tail, id);
  }

  /** Filtering keeps ids unique. */
  lemma {:induction false} WithoutKeepsUnique(s: seq<ItemState>, id: string)
    requires UniqueIds(s)
    ensures UniqueIds(Without(s, id))
  {
    if |s| > 0 {
      var tail := s[1..];
      assert UniqueIds(tail) by {
        forall i, j | 0 <= i < j < |tail| ensures tail[i].food.id != tail[j].food.id {
          assert tail[i] == s[i + 1] && tail[j] == s[j + 1];
        }
      }
      WithoutKeepsUnique(tail, id);
      if s[0].food.id != id {
        var rest := Without(tail, id);
        assert Absent(tail, s[0].food.id);
        assert Absent(rest, s[0].food.id) by {
          forall j | 0 <= j < |rest| ensures rest[j].food.id != s[0].food.id {
            assert rest[j] in tail;
          }
        }
        AppendFrontKeepsUnique(s[0], rest);
      }
    }
  }

  /** Putting a line whose id is absent in front keeps ids unique. */
  lemma AppendFrontKeepsUnique(x: ItemState, s: seq<ItemState>)
    requires UniqueIds(s) && Absent(s, x.food.id)
    ensures UniqueIds([x] + s)
  {
    var r := [x] + s;
    forall i, j | 0 <= i < j < |r| ensures r[i].food.id != r[j].food.id {
      assert r[j] == s[j - 1];
      if i > 0 {
        assert r[i] == s[i - 1];
      }
    }
  }

  /** Removing a present id from a cart with unique ids lowers each total by that line's share. */
  lemma SumWithout(s: seq<ItemState>, id: string, k: nat, m: Measure)
    requires UniqueIds(s)
    requires IndexOf(s, id) == Some(k)
    ensures Sum(Without(s, id), m) == Sum(s, m) - m.Of(s[k])
  {
    WithoutUnique(s, id, k);
    assert s == s[..k] + [s[k]] + s[k + 1..];
    SumConcat(s[..k] + [s[k]], s[k + 1..], m);
    SumConcat(s[..k], [s[k]], m);
    SumConcat(s[..k], s[k + 1..], m);
  }

  /** Appending a line whose id is absent keeps ids unique. */
  lemma AppendKeepsUnique(s: seq<ItemState>, x: ItemState)
    requires UniqueIds(s) && Absent(s, x.food.id)
    ensures UniqueIds(s + [x])
  {
  }

  /** Changing a quantity keeps ids unique: the changed line keeps its food. */
  lemma WithQuantityKeepsUnique(s: seq<ItemState>, id: string, q: int)
    requires UniqueIds(s)
    ensures UniqueIds(WithQuantity(s, id, q))
  {
  }

  /** Changing the quantity of the line for `id` moves each total by exactly
      that line's change: the count by the quantity difference, the price by
      the line price difference. */
  lemma SumWithQuantity(s: seq<ItemState>, id: string, q: int, k: nat, m: Measure)
    requires IndexOf(s, id) == Some(k)
    ensures Sum(WithQuantity(s, id, q), m) == Sum(s, m) - m.Of(s[k]) + m.Of(ItemState(s[k].food, q, q * s[k].food.price))
  {
    SumUpdate(s, k, ItemState(s[k].food, q, q * s[k].food.price), m);
  }
}
