/** The cart service: one cart of items, updated in place by four operations,
    each of which ends by recomputing the totals, writing the cart to the
    browser's key-value storage and broadcasting it to subscribers. */
module CartServices {
  import opened CartValues

  /** One cart line. Its quantity and line price are changed in place. */
  class CartItem {
    const food: Food
    var quantity: int
    var price: int

    /** Only the food is fixed here: the class's own defaults for quantity
        and price are not part of this model. */
    constructor (food: Food)
      ensures this.food == food
    {
      this.food := food;
    }

    function State(): (r: ItemState)
      reads this
    {
      ItemState(food, quantity, price)
    }
  }

  /** The cart: its lines and two stored totals, all overwritten in place. */
  class Cart {
    var items: seq<CartItem>
    var totalPrice: int
    var totalCount: int

    /** A fresh cart has no lines; its initial totals are left open. */
    constructor ()
      ensures items == []
    {
      items := [];
    }
  }

  /** The values of the lines, in order. */
  function Snapshot(items: seq<CartItem>): (r: seq<ItemState>)
    reads items
    ensures |r| == |items|
  {
    if |items| == 0 then [] else [items[0].State()] + Snapshot(items[1..])
  }

  /** Each line value is the current value of the line object at the same place. */
  lemma {:induction false} SnapshotAt(items: seq<CartItem>)
    ensures forall i :: 0 <= i < |items| ==> Snapshot(items)[i] == items[i].State()
  {
    if |items| > 0 {
      SnapshotAt(items[1..]);
    }
  }

  lemma SnapshotAppend(items: seq<CartItem>, item: CartItem)
    ensures Snapshot(items + [item]) == Snapshot(items) + [item.State()]
  {
    SnapshotAt(items);
    SnapshotAt(items + [item]);
  }

  /** After one line object changes, the values differ from `before` at that line only. */
  lemma SnapshotUpdate(items: seq<CartItem>, k: nat, before: seq<ItemState>)
    requires k < |items| == |before| && DistinctObjects(items)
    requires forall i :: 0 <= i < |items| && i != k ==> before[i] == items[i].State()
    ensures Snapshot(items) == before[k := items[k].State()]
  {
    SnapshotAt(items);
  }

  /** No line object appears twice, so changing one line leaves the others alone. */
  predicate DistinctObjects(items: seq<CartItem>) {
    forall i, j :: 0 <= i < j < |items| ==> items[i] != items[j]
  }

  /** The line objects whose food id is not `foodId`, in order (the `filter` on objects). */
  function Filter(items: seq<CartItem>, foodId: string): (r: seq<CartItem>)
    reads items
    ensures forall x :: x in r ==> x in items
    ensures DistinctObjects(items) ==> DistinctObjects(r)
  {
    if |items| == 0 then []
    else
      var rest := Filter(items[1..], foodId);
      if items[0].food.id != foodId then
        assert DistinctObjects(items) ==> items[0] !in items[1..];
        [items[0]] + rest
      else rest
  }

  /** Filtering the objects filters their values. */
  lemma {:induction false} FilterSnapshot(items: seq<CartItem>, foodId: string)
    ensures Snapshot(Filter(items, foodId)) == Without(Snapshot(items), foodId)
  {
    if |items| > 0 {
      FilterSnapshot(items[1..], foodId);
      assert Snapshot(items) == [items[0].State()] + Snapshot(items[1..]);
      if items[0].food.id != foodId {
        var rest := Filter(items[1..], foodId);
        assert Snapshot([items[0]] + rest) == [items[0].State()] + Snapshot(rest);
      }
    }
  }

  class CartService {
    var cart: Cart
    /** The entry stored under the key "Cart" (its JSON encoding is not modelled). */
    var stored: Option<CartState>
    /** Every value broadcast to subscribers so far; the last one is replayed to a new subscriber. */
    var emitted: seq<CartState>

    /** The current value of the cart. */
    function View(): (r: CartState)
      reads this, cart, cart.items
    {
      CartState(Snapshot(cart.items), cart.totalPrice, cart.totalCount)
    }

    ghost predicate Valid()
      reads this, cart, cart.items
    {
      DistinctObjects(cart.items) && |emitted| > 0 && emitted[|emitted| - 1] == View()
    }

    /** What every operation that reaches the persisting step guarantees: the
        totals are the sums over the lines, the cart is stored, and exactly one
        more value, the current one, has been broadcast. */
    ghost predicate Persisted(before: seq<CartState>)
      reads this, cart, cart.items
    {
      TotalsMatch(View()) && stored == Some(View()) && emitted == before + [View()]
    }

    /** Starts from the cart stored under "Cart", or an empty cart when there is none,
        and broadcasts it as the channel's initial value. */
    constructor (entry: Option<CartState>)
      ensures Valid() && fresh(cart)
      ensures forall j :: 0 <= j < |cart.items| ==> fresh(cart.items[j])
      ensures entry.None? ==> View().items == []
      ensures entry.Some? ==> View() == entry.value
      ensures stored == entry && emitted == [View()]
    {
      var c := GetCartFromLocalStorage(entry);
      cart := c;
      stored := entry;
      emitted := [CartState(Snapshot(c.items), c.totalPrice, c.totalCount)];
    }

    /** Rebuilds the stored cart as it was written, with no validation; an absent entry gives a new cart. */
    static method GetCartFromLocalStorage(entry: Option<CartState>) returns (c: Cart)
      ensures fresh(c) && DistinctObjects(c.items)
      ensures forall j :: 0 <= j < |c.items| ==> fresh(c.items[j])
      ensures entry.None? ==> c.items == []
      ensures entry.Some? ==> CartState(Snapshot(c.items), c.totalPrice, c.totalCount) == entry.value
    {
      c := new Cart();
      if entry.Some? {
        var items := Revive(entry.value.items);
        c.items := items;
        c.totalPrice := entry.value.totalPrice;
        c.totalCount := entry.value.totalCount;
      }
    }

    /** One new line object per stored line value, in order. */
    static method Revive(lines: seq<ItemState>) returns (items: seq<CartItem>)
      ensures DistinctObjects(items) && Snapshot(items) == lines
      ensures forall j :: 0 <= j < |items| ==> fresh(items[j])
    {
      items := [];
      var i := 0;
      while i < |lines|
        invariant 0 <= i <= |lines| && |items| == i
        invariant DistinctObjects(items)
        invariant forall j :: 0 <= j < i ==> fresh(items[j])
        invariant Snapshot(items) == lines[..i]
      {
        var item := ReviveLine(lines[i]);
        assert lines[..i + 1] == lines[..i] + [lines[i]];
        SnapshotAppend(items, item);
        items := items + [item];
        i := i + 1;
      }
      assert lines[..i] == lines;
    }

    /** A new line object holding a stored line value. */
    static method ReviveLine(line: ItemState) returns (item: CartItem)
      ensures fresh(item) && item.State() == line
    {
      item := new CartItem(line.food);
      item.quantity := line.quantity;
      item.price := line.price;
    }

    /** Adds a line for `food` unless one with its id is already there. */
    method AddToCart(food: Food)
      requires Valid()
      modifies this, cart
      ensures Valid() && cart == old(cart)
      ensures !old(Absent(View().items, food.id)) ==>
        View() == old(View()) && stored == old(stored) && emitted == old(emitted)
      ensures old(Absent(View().items, food.id)) ==>
        |View().items| == old(|View().items|) + 1 &&
        View().items[..old(|View().items|)] == old(View().items) &&
        View().items[old(|View().items|)].food == food &&
        Persisted(old(emitted))
      ensures old(UniqueIds(View().items)) ==> UniqueIds(View().items)
    {
      var found := IndexOf(Snapshot(cart.items), food.id);
      if found.Some? {
        return;
      }
      ghost var before := Snapshot(cart.items);
      var item := new CartItem(food);
      cart.items := cart.items + [item];
      SnapshotAppend(old(cart.items), item);
      if UniqueIds(before) {
        AppendKeepsUnique(before, item.State());
      }
      SetCartToLocalStorage();
    }

    /** Drops every line for `foodId`; persists and broadcasts even when there was none. */
    method RemoveFromCart(foodId: string)
      requires Valid()
      modifies this, cart
      ensures Valid() && cart == old(cart)
      ensures View().items == Without(old(View().items), foodId)
      ensures Persisted(old(emitted))
      ensures old(UniqueIds(View().items)) ==> UniqueIds(View().items)
    {
      ghost var before := Snapshot(cart.items);
      FilterSnapshot(cart.items, foodId);
      cart.items := Filter(cart.items, foodId);
      SetCartToLocalStorage();
      if UniqueIds(before) {
        WithoutKeepsUnique(before, foodId);
      }
    }

    /** Sets the quantity of the first line for `foodId` and recomputes its
        line price; does nothing when there is no such line. */
    method ChangeQuantity(foodId: string, quantity: int)
      requires Valid()
      modifies this, cart, cart.items
      ensures Valid() && cart == old(cart) && cart.items == old(cart.items)
      ensures View().items == WithQuantity(old(View().items), foodId, quantity)
      ensures old(Absent(View().items, foodId)) ==>
        View() == old(View()) && stored == old(stored) && emitted == old(emitted)
      ensures !old(Absent(View().items, foodId)) ==> Persisted(old(emitted))
      ensures old(UniqueIds(View().items)) ==> UniqueIds(View().items)
    {
      var before := Snapshot(cart.items);
      var found := IndexOf(before, foodId);
      if found.None? {
        return;
      }
      var k := found.value;
      var item := cart.items[k];
      SnapshotAt(cart.items);
      item.quantity := quantity;
      item.price := quantity * item.food.price;
      SnapshotUpdate(cart.items, k, before);
      if UniqueIds(before) {
        WithQuantityKeepsUnique(before, foodId, quantity);
      }
      SetCartToLocalStorage();
    }

    /** Replaces the cart with a new, empty one. */
    method ClearCart()
      requires Valid()
      modifies this
      ensures Valid() && fresh(cart)
      ensures View() == CartState([], 0, 0)
      ensures Persisted(old(emitted))
    {
      cart := new Cart();
      SetCartToLocalStorage();
    }

    /** The value a new subscriber receives at once: the latest one broadcast,
        which is always the current cart. */
    method GetCartObservable() returns (latest: CartState)
      requires Valid()
      ensures latest == emitted[|emitted| - 1]
      ensures latest == View()
    {
      latest := View();
    }

    /** Recomputes both totals as sums over the lines, stores the cart and broadcasts it. */
    method SetCartToLocalStorage()
      requires DistinctObjects(cart.items)
      modifies this, cart
      ensures cart == old(cart) && cart.items == old(cart.items)
      ensures Snapshot(cart.items) == old(Snapshot(cart.items))
      ensures Valid() && Persisted(old(emitted))
    {
      var items := Snapshot(cart.items);
      cart.totalPrice := Sum(items, Price);
      cart.totalCount := Sum(items, Quantity);
      stored := Some(View());
      emitted := emitted + [View()];
    }
  }

  /** What a caller can rely on: adding the same food twice leaves exactly one line for it. */
  method AddTwice(service: CartService, food: Food)
    requires service.Valid() && UniqueIds(service.View().items)
    modifies service, service.cart
    ensures service.Valid()
    ensures UniqueIds(service.View().items) && !Absent(service.View().items, food.id)
  {
    service.AddToCart(food);
    service.AddToCart(food);
  }
}
