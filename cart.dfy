/** The cart store: an ordered list of menu items with quantities, scoped to
    one restaurant at a time, with derived item and price totals. */
module Cart {

  /** A menu item as the menu hands it to the cart. Prices are integer cents;
      "" stands for a missing (falsy) id or restaurant id. */
  datatype MenuItem = MenuItem(id: string, restaurantId: string, name: string, price: int)

  /** A cart line: the menu item's fields spread together with a quantity. */
  datatype CartItem = CartItem(item: MenuItem, quantity: int)

  /** The browser alert, if any, that adding an item raises. */
  datatype AddNotice = NoNotice | MissingRestaurant | CartReplaced

  /** The three invariants every reachable cart keeps: one restaurant (and a
      present one), unique item ids, and every quantity at least 1. */
  ghost predicate CartInvariant(items: seq<CartItem>)
  {
    && (forall i :: 0 <= i < |items| ==> items[i].item.restaurantId == items[0].item.restaurantId)
    && (forall i :: 0 <= i < |items| ==> items[i].item.restaurantId != "")
    && (forall i, j :: 0 <= i < j < |items| ==> items[i].item.id != items[j].item.id)
    && (forall i :: 0 <= i < |items| ==> items[i].quantity >= 1)
  }

  /** `findIndex(line => line.id === id)`: the first line carrying `id`, or -1. */
  function FindIndex(items: seq<CartItem>, id: string): (k: int)
    ensures -1 <= k < |items|
    ensures k >= 0 ==> items[k].item.id == id
    ensures k >= 0 ==> forall j :: 0 <= j < k ==> items[j].item.id != id
    ensures k == -1 <==> forall j :: 0 <= j < |items| ==> items[j].item.id != id
  {
    if items == [] then -1
    else if items[0].item.id == id then 0
    else
      var k := FindIndex(items[1..], id);
      if k == -1 then -1 else k + 1
  }

  /** The quantity of item `id` in the cart, 0 when it has no line. */
  function QuantityOf(items: seq<CartItem>, id: string): int
  {
    var k := FindIndex(items, id);
    if k == -1 then 0 else items[k].quantity
  }

  /** The cart after `addItemToCart(item)`: unchanged without a restaurant id,
      replaced by the item alone when it comes from another restaurant, else the
      existing line incremented or a new line appended. */
  function Added(items: seq<CartItem>, item: MenuItem): seq<CartItem>
  {
    if item.restaurantId == "" then items
    else if |items| > 0 && items[0].item.restaurantId != item.restaurantId then [CartItem(item, 1)]
    else
      var k := FindIndex(items, item.id);
      if k >= 0 then items[k := items[k].(quantity := items[k].quantity + 1)]
      else items + [CartItem(item, 1)]
  }

  /** The alert that `addItemToCart(item)` raises on `items`. */
  function NoticeFor(items: seq<CartItem>, item: MenuItem): AddNotice
  {
    if item.restaurantId == "" then MissingRestaurant
    else if |items| > 0 && items[0].item.restaurantId != item.restaurantId then CartReplaced
    else NoNotice
  }

  /** The cart after `removeItemFromCart(id)`: unchanged when absent, the line
      decremented when its quantity exceeds 1, else the line spliced out. */
  function Removed(items: seq<CartItem>, id: string): seq<CartItem>
  {
    var k := FindIndex(items, id);
    if k == -1 then items
    else if items[k].quantity > 1 then items[k := items[k].(quantity := items[k].quantity - 1)]
    else items[..k] + items[k + 1..]
  }

  /** The sum of the quantities, accumulated front to back as the totals effect does. */
  function TotalQuantity(items: seq<CartItem>): int
  {
    if items == [] then 0
    else TotalQuantity(items[..|items| - 1]) + items[|items| - 1].quantity
  }

  /** The sum of quantity × price over the lines, in cents. */
  function TotalPrice(items: seq<CartItem>): int
  {
    if items == [] then 0
    else TotalPrice(items[..|items| - 1]) + items[|items| - 1].quantity * items[|items| - 1].item.price
  }

  // ---------------------------------------------------------------------------
  // What adding and removing do to the cart

  /** Adding an item without a restaurant id leaves the cart as it was and alerts. */
  lemma AddWithoutRestaurant(items: seq<CartItem>, item: MenuItem)
    requires item.restaurantId == ""
    ensures Added(items, item) == items && NoticeFor(items, item) == MissingRestaurant
  {
  }

  /** Adding from another restaurant than the first line's replaces the whole
      cart by that item at quantity 1. */
  lemma AddFromOtherRestaurant(items: seq<CartItem>, item: MenuItem)
    requires item.restaurantId != "" && |items| > 0
    requires items[0].item.restaurantId != item.restaurantId
    ensures Added(items, item) == [CartItem(item, 1)]
    ensures NoticeFor(items, item) == CartReplaced
  {
  }

  /** Adding an item that already has a line increments that line only: the
      other lines, the order and the line's own fields stay as they were. */
  lemma {:induction false} AddExisting(items: seq<CartItem>, item: MenuItem, k: nat)
    requires item.restaurantId != "" && (|items| == 0 || items[0].item.restaurantId == item.restaurantId)
    requires k < |items| && items[k].item.id == item.id
    requires CartInvariant(items)
    ensures |Added(items, item)| == |items|
    ensures Added(items, item)[k] == items[k].(quantity := items[k].quantity + 1)
    ensures forall j :: 0 <= j < |items| && j != k ==> Added(items, item)[j] == items[j]
  {
    FindUnique(items, item.id, k);
  }

  /** Adding a new item from the cart's restaurant appends it at quantity 1. */
  lemma AddNew(items: seq<CartItem>, item: MenuItem)
    requires item.restaurantId != "" && (|items| == 0 || items[0].item.restaurantId == item.restaurantId)
    requires forall j :: 0 <= j < |items| ==> items[j].item.id != item.id
    ensures Added(items, item) == items + [CartItem(item, 1)]
  {
  }

  /** Removing an id that has no line leaves the cart as it was. */
  lemma RemoveAbsent(items: seq<CartItem>, id: string)
    requires forall j :: 0 <= j < |items| ==> items[j].item.id != id
    ensures Removed(items, id) == items
  {
  }

  /** Removing decrements a line whose quantity exceeds 1, and deletes a line of
      quantity 1 keeping the other lines in order. */
  lemma {:induction false} RemovePresent(items: seq<CartItem>, id: string, k: nat)
    requires CartInvariant(items)
    requires k < |items| && items[k].item.id == id
    ensures items[k].quantity > 1 ==> Removed(items, id) == items[k := items[k].(quantity := items[k].quantity - 1)]
    ensures items[k].quantity == 1 ==> Removed(items, id) == items[..k] + items[k + 1..]
  {
    FindUnique(items, id, k);
  }

  /** With unique ids, the line carrying an id is the one FindIndex returns. */
  lemma FindUnique(items: seq<CartItem>, id: string, k: nat)
    requires forall i, j :: 0 <= i < j < |items| ==> items[i].item.id != items[j].item.id
    requires k < |items| && items[k].item.id == id
    ensures FindIndex(items, id) == k
  {
  }

  /** Adding keeps the cart invariants. */
  lemma {:induction false} AddKeepsInvariant(items: seq<CartItem>, item: MenuItem)
    requires CartInvariant(items)
    ensures CartInvariant(Added(items, item))
  {
    var r := Added(items, item);
    if item.restaurantId != "" && !(|items| > 0 && items[0].item.restaurantId != item.restaurantId) {
      var k := FindIndex(items, item.id);
      if k >= 0 {
        assert forall j :: 0 <= j < |r| ==> r[j].item == items[j].item;
      } else {
        assert forall j :: 0 <= j < |items| ==> r[j] == items[j];
      }
    }
  }

  /** Removing keeps the cart invariants. */
  lemma {:induction false} RemoveKeepsInvariant(items: seq<CartItem>, id: string)
    requires CartInvariant(items)
    ensures CartInvariant(Removed(items, id))
  {
    var k := FindIndex(items, id);
    var r := Removed(items, id);
    if k >= 0 && items[k].quantity > 1 {
      assert forall j :: 0 <= j < |r| ==> r[j].item == items[j].item;
    } else if k >= 0 {
      assert forall j :: 0 <= j < |r| ==> r[j] == items[if j < k then j else j + 1];
      if |r| > 0 {
        assert r[0].item.restaurantId == items[0].item.restaurantId;
      }
    }
  }

  /** Adding an item and then removing it restores the cart, whenever the add
      did not replace the cart (it was empty or from the same restaurant). */
  lemma {:induction false} AddThenRemove(items: seq<CartItem>, item: MenuItem)
    requires CartInvariant(items)
    requires item.restaurantId != ""
    requires |items| == 0 || items[0].item.restaurantId == item.restaurantId
    ensures Removed(Added(items, item), item.id) == items
  {
    var a := Added(items, item);
    var k := FindIndex(items, item.id);
    if k >= 0 {
      AddKeepsInvariant(items, item);
      FindUnique(a, item.id, k);
      assert a[k].quantity > 1;
      assert Removed(a, item.id) == a[k := a[k].(quantity := a[k].quantity - 1)];
      assert a[k := a[k].(quantity := a[k].quantity - 1)] == items;
    } else {
      assert a == items + [CartItem(item, 1)];
      assert FindIndex(a, item.id) == |items| by {
        AddKeepsInvariant(items, item);
        FindUnique(a, item.id, |items|);
      }
      assert a[..|items|] + a[|items| + 1..] == items;
    }
  }

  // ---------------------------------------------------------------------------
  // The cart seen as a map from item id to quantity

  /** Adding to a same-restaurant cart raises the added item's quantity by one
      and leaves every other item's quantity as it was. */
  lemma {:induction false} AddCounts(items: seq<CartItem>, item: MenuItem, other: string)
    requires CartInvariant(items)
    requires item.restaurantId != ""
    requires |items| == 0 || items[0].item.restaurantId == item.restaurantId
    ensures QuantityOf(Added(items, item), item.id) == QuantityOf(items, item.id) + 1
    ensures other != item.id ==> QuantityOf(Added(items, item), other) == QuantityOf(items, other)
  {
    var a := Added(items, item);
    AddKeepsInvariant(items, item);
    var k := FindIndex(items, item.id);
    if k >= 0 {
      FindUnique(a, item.id, k);
      var m := FindIndex(items, other);
      if other != item.id && m >= 0 {
        FindUnique(a, other, m);
      }
    } else {
      FindUnique(a, item.id, |items|);
      var m := FindIndex(items, other);
      if other != item.id && m >= 0 {
        FindUnique(a, other, m);
      }
    }
  }

  /** Removing lowers the removed item's quantity by one (not below zero) and
      leaves every other item's quantity as it was. */
  lemma {:induction false} RemoveCounts(items: seq<CartItem>, id: string, other: string)
    requires CartInvariant(items)
    ensures QuantityOf(Removed(items, id), id) == if QuantityOf(items, id) > 0 then QuantityOf(items, id) - 1 else 0
    ensures other != id ==> QuantityOf(Removed(items, id), other) == QuantityOf(items, other)
  {
    var r := Removed(items, id);
    RemoveKeepsInvariant(items, id);
    var k := FindIndex(items, id);
    var m := FindIndex(items, other);
    if k >= 0 && items[k].quantity > 1 {
      FindUnique(r, id, k);
      if other != id && m >= 0 {
        FindUnique(r, other, m);
      }
    } else if k >= 0 {
      SpliceCounts(items, k, other);
    }
  }

  /** Deleting line `k` takes its id out of the cart and keeps every other
      item's quantity. */
  lemma {:induction false} SpliceCounts(items: seq<CartItem>, k: nat, other: string)
    requires CartInvariant(items) && k < |items|
    ensures QuantityOf(items[..k] + items[k + 1..], items[k].item.id) == 0
    ensures other != items[k].item.id ==> QuantityOf(items[..k] + items[k + 1..], other) == QuantityOf(items, other)
  {
    var r := items[..k] + items[k + 1..];
    var id := items[k].item.id;
    SpliceShifts(items, k);
    forall j | 0 <= j < |r| ensures r[j].item.id != id {
      if j >= k { assert r[j] == items[j + 1]; }
    }
    if other != id {
      var m := FindIndex(items, other);
      var m' := if m < 0 then |r| else if m < k then m else m - 1;
      forall j | 0 <= j < m' ensures r[j].item.id != other {
        if j >= k { assert r[j] == items[j + 1]; }
      }
      if m >= 0 {
        assert r[m'] == items[m];
        FirstMatch(r, other, m');
      }
    }
  }

  /** The first line carrying `id` is the one FindIndex returns. */
  lemma FirstMatch(items: seq<CartItem>, id: string, k: nat)
    requires k < |items| && items[k].item.id == id
    requires forall j :: 0 <= j < k ==> items[j].item.id != id
    ensures FindIndex(items, id) == k
  {
  }

  /** The lines after a deleted one move up by one place. */
  lemma SpliceShifts(items: seq<CartItem>, k: nat)
    requires k < |items|
    ensures |items[..k] + items[k + 1..]| == |items| - 1
    ensures forall j :: 0 <= j < k ==> (items[..k] + items[k + 1..])[j] == items[j]
    ensures forall j :: k < j < |items| ==> (items[..k] + items[k + 1..])[j - 1] == items[j]
  {
  }

  // ---------------------------------------------------------------------------
  // Totals

  lemma {:induction false} TotalsAppend(a: seq<CartItem>, b: seq<CartItem>)
    ensures TotalQuantity(a + b) == TotalQuantity(a) + TotalQuantity(b)
    ensures TotalPrice(a + b) == TotalPrice(a) + TotalPrice(b)
  {
    if b != [] {
      var b' := b[..|b| - 1];
      assert (a + b)[..|a + b| - 1] == a + b';
      TotalsAppend(a, b');
    } else {
      assert a + b == a;
    }
  }

  lemma TotalsSingle(x: CartItem)
    ensures TotalQuantity([x]) == x.quantity
    ensures TotalPrice([x]) == x.quantity * x.item.price
  {
    assert [x][..0] == [];
  }

  /** Replacing one line changes the totals by that line's difference. */
  lemma {:induction false} TotalsUpdate(items: seq<CartItem>, k: nat, x: CartItem)
    requires k < |items|
    ensures TotalQuantity(items[k := x]) == TotalQuantity(items) - items[k].quantity + x.quantity
    ensures TotalPrice(items[k := x])
      == TotalPrice(items) - items[k].quantity * items[k].item.price + x.quantity * x.item.price
  {
    assert items == items[..k] + [items[k]] + items[k + 1..];
    assert items[k := x] == items[..k] + [x] + items[k + 1..];
    TotalsAppend(items[..k] + [items[k]], items[k + 1..]);
    TotalsAppend(items[..k] + [x], items[k + 1..]);
    TotalsAppend(items[..k], [items[k]]);
    TotalsAppend(items[..k], [x]);
    TotalsSingle(items[k]);
    TotalsSingle(x);
  }

  /** Adding to a same-restaurant cart adds one item and one unit price to the
      totals; the unit price is the existing line's when the item has one. */
  lemma {:induction false} AddTotals(items: seq<CartItem>, item: MenuItem)
    requires item.restaurantId != ""
    requires |items| == 0 || items[0].item.restaurantId == item.restaurantId
    ensures TotalQuantity(Added(items, item)) == TotalQuantity(items) + 1
    ensures TotalPrice(Added(items, item))
      == TotalPrice(items) + (var k := FindIndex(items, item.id); if k >= 0 then items[k].item.price else item.price)
  {
    var k := FindIndex(items, item.id);
    if k >= 0 {
      var x := items[k].(quantity := items[k].quantity + 1);
      TotalsUpdate(items, k, x);
      UnitStep(items[k].quantity, items[k].item.price);
    } else {
      TotalsAppend(items, [CartItem(item, 1)]);
      TotalsSingle(CartItem(item, 1));
    }
  }

  /** Splicing one line out takes that line's quantity and price off the totals. */
  lemma {:induction false} TotalsSplice(items: seq<CartItem>, k: nat)
    requires k < |items|
    ensures TotalQuantity(items[..k] + items[k + 1..]) == TotalQuantity(items) - items[k].quantity
    ensures TotalPrice(items[..k] + items[k + 1..]) == TotalPrice(items) - items[k].quantity * items[k].item.price
  {
    assert items == items[..k] + [items[k]] + items[k + 1..];
    TotalsAppend(items[..k] + [items[k]], items[k + 1..]);
    TotalsAppend(items[..k], [items[k]]);
    TotalsAppend(items[..k], items[k + 1..]);
    TotalsSingle(items[k]);
  }

  /** Removing a present item takes one item and one unit price off the totals;
      removing an absent one changes nothing. */
  lemma {:induction false} RemoveTotals(items: seq<CartItem>, id: string)
    requires forall i :: 0 <= i < |items| ==> items[i].quantity >= 1
    ensures TotalQuantity(Removed(items, id))
      == TotalQuantity(items) - (if FindIndex(items, id) >= 0 then 1 else 0)
    ensures TotalPrice(Removed(items, id))
      == TotalPrice(items) - (var k := FindIndex(items, id); if k >= 0 then items[k].item.price else 0)
  {
    var k := FindIndex(items, id);
    if k >= 0 {
      var q, p := items[k].quantity, items[k].item.price;
      if q > 1 {
        var x := items[k].(quantity := q - 1);
        assert Removed(items, id) == items[k := x];
        TotalsUpdate(items, k, x);
        UnitStep(q - 1, p);
      } else {
        assert q == 1;
        assert Removed(items, id) == items[..k] + items[k + 1..];
        TotalsSplice(items, k);
        UnitStep(0, p);
      }
    }
  }

  lemma UnitStep(q: int, p: int)
    ensures (q + 1) * p == q * p + p
  {
  }

  // ---------------------------------------------------------------------------
  // The loops of the store

  /** `findIndex` as a scan from the front. */
  method FindItemIndex(items: seq<CartItem>, id: string) returns (k: int)
    ensures k == FindIndex(items, id)
  {
    k := 0;
    while k < |items|
      invariant 0 <= k <= |items|
      invariant forall j :: 0 <= j < k ==> items[j].item.id != id
    {
      if items[k].item.id == id {
        return;
      }
      k := k + 1;
    }
    k := -1;
  }

  /** The totals effect: one `forEach` pass accumulating the item count and the
      price sum. */
  method ComputeTotals(items: seq<CartItem>) returns (itemsCount: int, priceSum: int)
    ensures itemsCount == TotalQuantity(items)
    ensures priceSum == TotalPrice(items)
  {
    itemsCount, priceSum := 0, 0;
    for i := 0 to |items|
      invariant itemsCount == TotalQuantity(items[..i])
      invariant priceSum == TotalPrice(items[..i])
    {
      assert items[..i + 1][..i] == items[..i];
      itemsCount := itemsCount + items[i].quantity;
      priceSum := priceSum + items[i].quantity * items[i].item.price;
    }
    assert items[..|items|] == items;
  }

  /** The cart provider's state. */
  class CartStore {
    var cartItems: seq<CartItem>
    var totalItems: int
    var totalPrice: int
    var isCartOpen: bool

    /** The lines keep the cart invariants and the totals agree with them. */
    ghost predicate Valid()
      reads this
    {
      && CartInvariant(cartItems)
      && totalItems == TotalQuantity(cartItems)
      && totalPrice == TotalPrice(cartItems)
    }

    constructor ()
      ensures Valid()
      ensures cartItems == [] && totalItems == 0 && totalPrice == 0 && !isCartOpen
    {
      cartItems, totalItems, totalPrice, isCartOpen := [], 0, 0, false;
    }

    /** Runs the totals effect after the lines changed. */
    method RefreshTotals()
      modifies this
      ensures cartItems == old(cartItems) && isCartOpen == old(isCartOpen)
      ensures totalItems == TotalQuantity(cartItems) && totalPrice == TotalPrice(cartItems)
    {
      totalItems, totalPrice := ComputeTotals(cartItems);
    }

    /** `addItemToCart(item)`, followed by the totals effect. */
    method AddItemToCart(item: MenuItem) returns (notice: AddNotice)
      requires Valid()
      modifies this
      ensures Valid()
      ensures cartItems == Added(old(cartItems), item)
      ensures notice == NoticeFor(old(cartItems), item)
      ensures isCartOpen == old(isCartOpen)
    {
      if item.restaurantId == "" {
        return MissingRestaurant;
      }
      var prevItems := cartItems;
      ghost var next := Added(prevItems, item);
      AddKeepsInvariant(prevItems, item);
      if |prevItems| > 0 && prevItems[0].item.restaurantId != item.restaurantId {
        cartItems := [CartItem(item, 1)];
        notice := CartReplaced;
      } else {
        var k := FindItemIndex(prevItems, item.id);
        if k > -1 {
          cartItems := prevItems[k := prevItems[k].(quantity := prevItems[k].quantity + 1)];
        } else {
          cartItems := prevItems + [CartItem(item, 1)];
        }
        notice := NoNotice;
      }
      assert cartItems == next;
      RefreshTotals();
    }

    /** `removeItemFromCart(id)`, followed by the totals effect. */
    method RemoveItemFromCart(id: string)
      requires Valid()
      modifies this
      ensures Valid()
      ensures cartItems == Removed(old(cartItems), id)
      ensures isCartOpen == old(isCartOpen)
    {
      RemoveKeepsInvariant(cartItems, id);
      var prevItems := cartItems;
      var k := FindItemIndex(prevItems, id);
      if k == -1 {
        return;
      }
      if prevItems[k].quantity > 1 {
        cartItems := prevItems[k := prevItems[k].(quantity := prevItems[k].quantity - 1)];
      } else {
        cartItems := prevItems[..k] + prevItems[k + 1..];
      }
      RefreshTotals();
    }

    /** `clearCart()`: the cart empties and both totals drop to 0. */
    method ClearCart()
      requires Valid()
      modifies this
      ensures Valid()
      ensures cartItems == [] && totalItems == 0 && totalPrice == 0
      ensures isCartOpen == old(isCartOpen)
    {
      cartItems := [];
      RefreshTotals();
    }

    /** `setIsCartOpen(open)`: only the panel flag changes. */
    method SetIsCartOpen(open: bool)
      requires Valid()
      modifies this
      ensures Valid()
      ensures isCartOpen == open
      ensures cartItems == old(cartItems) && totalItems == old(totalItems) && totalPrice == old(totalPrice)
    {
      isCartOpen := open;
    }
  }
}
