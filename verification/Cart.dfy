/**
 * The shopping cart store: a `CartState` object whose `items` list is changed by `add`,
 * `remove`, `updateQuantity` and `clear`, and whose `total` and `count` are sums over it.
 * Prices are integers (for example cents), so sums are exact.
 */
module Cart {
  import opened Lists

  datatype Product = Product(id: int, name: string, price: int)
  datatype CartItem = CartItem(id: int, name: string, price: int, quantity: int)

  function ItemId(i: CartItem): int { i.id }
  function Quantity(i: CartItem): int { i.quantity }
  function Subtotal(i: CartItem): int { i.price * i.quantity }

  /** Item ids are unique and every quantity is at least 1. */
  ghost predicate ItemsValid(items: seq<CartItem>) {
    UniqueKeys(items, ItemId) && forall i :: 0 <= i < |items| ==> items[i].quantity >= 1
  }

  /**
   * Removing an id from a valid cart lowers the total by exactly that item's subtotal, and the
   * count by its quantity; an absent id changes neither.
   */
  lemma RemoveSums(items: seq<CartItem>, id: int)
    requires ItemsValid(items)
    ensures var i := FirstIndex(items, ItemId, id);
      var rest := Filter(items, (x: CartItem) => x.id != id);
      Sum(rest, Subtotal) == Sum(items, Subtotal) - (if i == -1 then 0 else Subtotal(items[i])) &&
      Sum(rest, Quantity) == Sum(items, Quantity) - (if i == -1 then 0 else items[i].quantity)
  {
    SumFilterOut(items, ItemId, id, (x: CartItem) => x.id != id, Subtotal);
    SumFilterOut(items, ItemId, id, (x: CartItem) => x.id != id, Quantity);
  }

  /** Removing an id keeps a cart valid, and the id is gone afterwards. */
  lemma RemoveValid(items: seq<CartItem>, id: int)
    requires ItemsValid(items)
    ensures var rest := Filter(items, (x: CartItem) => x.id != id);
      ItemsValid(rest) && forall j :: 0 <= j < |rest| ==> rest[j].id != id
  {
    var rest := Filter(items, (x: CartItem) => x.id != id);
    FilterUnique(items, (x: CartItem) => x.id != id, ItemId);
    forall j | 0 <= j < |rest| ensures rest[j].quantity >= 1 && rest[j].id != id {
      assert rest[j] in items;
    }
  }

  /**
   * Raising the quantity of the item at `i` by one keeps a cart valid, adds one to the count and
   * adds that item's price to the total.
   */
  lemma BumpSums(items: seq<CartItem>, i: int)
    requires ItemsValid(items) && 0 <= i < |items|
    ensures var after := items[i := items[i].(quantity := items[i].quantity + 1)];
      ItemsValid(after) &&
      Sum(after, Quantity) == Sum(items, Quantity) + 1 &&
      Sum(after, Subtotal) == Sum(items, Subtotal) + items[i].price
  {
    var bumped := items[i].(quantity := items[i].quantity + 1);
    SumUpdate(items, i, bumped, Quantity);
    SumUpdate(items, i, bumped, Subtotal);
    SubtotalBump(items[i]);
    BumpValid(items, i);
  }

  /** One more unit of an item adds its price to the item's subtotal. */
  lemma SubtotalBump(x: CartItem)
    ensures Subtotal(x.(quantity := x.quantity + 1)) == Subtotal(x) + x.price
  {
  }

  /** Raising one quantity keeps every id in place and every quantity at least 1. */
  lemma BumpValid(items: seq<CartItem>, i: int)
    requires ItemsValid(items) && 0 <= i < |items|
    ensures ItemsValid(items[i := items[i].(quantity := items[i].quantity + 1)])
  {
    var after := items[i := items[i].(quantity := items[i].quantity + 1)];
    assert forall j :: 0 <= j < |items| ==> ItemId(after[j]) == ItemId(items[j]);
  }

  /**
   * Appending a product with an id not yet in the cart, at quantity 1, keeps the cart valid, adds
   * one to the count and the product's price to the total.
   */
  lemma AppendSums(items: seq<CartItem>, p: Product)
    requires ItemsValid(items) && FirstIndex(items, ItemId, p.id) == -1
    ensures var after := items + [CartItem(p.id, p.name, p.price, 1)];
      ItemsValid(after) &&
      Sum(after, Quantity) == Sum(items, Quantity) + 1 &&
      Sum(after, Subtotal) == Sum(items, Subtotal) + p.price
  {
    var item := CartItem(p.id, p.name, p.price, 1);
    SumAppend(items, item, Quantity);
    SumAppend(items, item, Subtotal);
    var after := items + [item];
    forall a, b | 0 <= a < b < |after| ensures ItemId(after[a]) != ItemId(after[b]) {
      assert after[a] == items[a];
      if b < |items| { assert after[b] == items[b]; }
    }
  }

  class CartState {
    var items: seq<CartItem>

    ghost predicate Valid()
      reads this
    {
      ItemsValid(items)
    }

    constructor ()
      ensures Valid() && items == []
    {
      items := [];
    }

    /** `total`: the sum of `price * quantity` over the items. */
    function Total(): (r: int)
      reads this
      ensures (forall j :: 0 <= j < |items| ==> items[j].price >= 0 && items[j].quantity >= 0) ==> r >= 0
    {
      assert forall j :: 0 <= j < |items| && items[j].price >= 0 && items[j].quantity >= 0 ==>
        Subtotal(items[j]) >= 0;
      Sum(items, Subtotal)
    }

    /** `count`: the sum of the quantities. */
    function Count(): (r: int)
      reads this
      ensures (forall x :: x in items ==> x.quantity >= 1) ==> r >= |items|
    {
      assert (forall x :: x in items ==> x.quantity >= 1) ==> Sum(items, Quantity) >= |items| by {
        if forall x :: x in items ==> x.quantity >= 1 {
          SumAtLeastLength(items, Quantity);
        }
      }
      Sum(items, Quantity)
    }

    /**
     * `add`: a product already in the cart gets its quantity raised by one; a new one is appended
     * with quantity 1. Either way the count grows by exactly one.
     */
    method Add(product: Product)
      requires Valid()
      modifies this
      ensures Valid()
      ensures var i := FirstIndex(old(items), ItemId, product.id);
        if i >= 0 then
          items == old(items)[i := old(items)[i].(quantity := old(items)[i].quantity + 1)]
        else
          items == old(items) + [CartItem(product.id, product.name, product.price, 1)]
      ensures Count() == old(Count()) + 1
      ensures var i := FirstIndex(old(items), ItemId, product.id);
        Total() == old(Total()) + (if i >= 0 then old(items)[i].price else product.price)
    {
      var i := FirstIndex(items, ItemId, product.id);
      if i >= 0 {
        BumpSums(items, i);
        items := items[i := items[i].(quantity := items[i].quantity + 1)];
      } else {
        AppendSums(items, product);
        items := items + [CartItem(product.id, product.name, product.price, 1)];
      }
    }

    /** `remove`: keeps exactly the items with another id, in order. */
    method Remove(id: int)
      requires Valid()
      modifies this
      ensures Valid()
      ensures items == Filter(old(items), (x: CartItem) => x.id != id)
      ensures forall j :: 0 <= j < |items| ==> items[j].id != id
      ensures var i := FirstIndex(old(items), ItemId, id);
        Total() == old(Total()) - (if i == -1 then 0 else Subtotal(old(items)[i])) &&
        Count() == old(Count()) - (if i == -1 then 0 else old(items)[i].quantity)
    {
      RemoveSums(items, id);
      RemoveValid(items, id);
      items := Filter(items, (x: CartItem) => x.id != id);
    }

    /**
     * `updateQuantity`: for an id in the cart, a quantity of 0 or less removes the item and a
     * positive one replaces its quantity; an absent id changes nothing.
     */
    method UpdateQuantity(id: int, qty: int)
      requires Valid()
      modifies this
      ensures Valid()
      ensures var i := FirstIndex(old(items), ItemId, id);
        if i == -1 then items == old(items)
        else if qty <= 0 then items == Filter(old(items), (x: CartItem) => x.id != id)
        else items == old(items)[i := old(items)[i].(quantity := qty)]
    {
      var i := FirstIndex(items, ItemId, id);
      if i != -1 {
        if qty <= 0 {
          Remove(id);
        } else {
          items := items[i := items[i].(quantity := qty)];
        }
      }
    }

    /** `clear`: empties the cart, so the count and the total are 0. */
    method Clear()
      requires Valid()
      modifies this
      ensures Valid()
      ensures items == [] && Count() == 0 && Total() == 0
    {
      items := [];
    }
  }
}
