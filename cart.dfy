/** The shopping-cart store of the storefront: the `cartReducer` over a list
    of rows `{id, item, quantity}`, the `total` and `itemCount` folds, and
    the provider that holds the rows and dispatches actions. */
module Cart {
  import Seqs

  /** A catalogue product as the cart sees it. Prices are integer paise. */
  datatype Product = Product(id: string, name: string, price: int)

  /** One cart row. The reducer matches rows on `item.id`; `id` is a copy
      made when the row is first added. */
  datatype LineItem = LineItem(id: string, item: Product, quantity: int)

  datatype CartAction =
    | AddItem(item: Product, quantity: int)
    | RemoveItem(itemId: string)
    | UpdateQuantity(itemId: string, quantity: int)
    | ClearCart
    | LoadCart(items: seq<LineItem>)

  /** `state.find(row => row.item.id === id)` finds something. */
  predicate HasItem(state: seq<LineItem>, id: string)
  {
    exists i | 0 <= i < |state| :: state[i].item.id == id
  }

  /** No two rows share a product id. */
  ghost predicate DistinctIds(state: seq<LineItem>)
  {
    forall i, j :: 0 <= i < j < |state| ==> state[i].item.id != state[j].item.id
  }

  /** Row `k` is the one row whose product id is `id`. */
  ghost predicate OnlyRowWith(state: seq<LineItem>, k: int, id: string)
  {
    && 0 <= k < |state|
    && state[k].item.id == id
    && forall i :: 0 <= i < |state| && i != k ==> state[i].item.id != id
  }

  lemma DistinctIdsOnlyRow(state: seq<LineItem>, k: int)
    requires DistinctIds(state)
    requires 0 <= k < |state|
    ensures OnlyRowWith(state, k, state[k].item.id)
  {
  }

  function Ids(state: seq<LineItem>): seq<string>
  {
    seq(|state|, i requires 0 <= i < |state| => state[i].item.id)
  }

  /** The `map` of ADD_ITEM on an id already present. */
  function AddQuantity(state: seq<LineItem>, id: string, quantity: int): seq<LineItem>
  {
    seq(|state|, i requires 0 <= i < |state| =>
      if state[i].item.id == id then state[i].(quantity := state[i].quantity + quantity) else state[i])
  }

  /** The `map` of UPDATE_QUANTITY with a positive quantity. */
  function ReplaceQuantity(state: seq<LineItem>, id: string, quantity: int): seq<LineItem>
  {
    seq(|state|, i requires 0 <= i < |state| =>
      if state[i].item.id == id then state[i].(quantity := quantity) else state[i])
  }

  /** The `filter` of REMOVE_ITEM. */
  function Without(state: seq<LineItem>, id: string): seq<LineItem>
  {
    Seqs.Filter(state, OtherThan(id))
  }

  function OtherThan(id: string): LineItem -> bool
  {
    (row: LineItem) => row.item.id != id
  }

  /** `cartReducer`. ADD_ITEM does not look at the sign of the quantity and
      LOAD_CART installs whatever it is given. */
  function Reduce(state: seq<LineItem>, action: CartAction): (r: seq<LineItem>)
    ensures !action.AddItem? && !action.LoadCart? ==> |r| <= |state|
  {
    match action
    case AddItem(item, quantity) =>
      if HasItem(state, item.id) then AddQuantity(state, item.id, quantity)
      else state + [LineItem(item.id, item, quantity)]
    case RemoveItem(id) => Without(state, id)
    case UpdateQuantity(id, quantity) =>
      if quantity <= 0 then Without(state, id) else ReplaceQuantity(state, id, quantity)
    case ClearCart => []
    case LoadCart(items) => items
  }

  /** `total`: `items.reduce((sum, row) => sum + row.item.price * row.quantity, 0)`.
      No row with a negative price or quantity means no negative total. */
  function TotalOf(items: seq<LineItem>): (r: int)
    ensures (forall i :: 0 <= i < |items| ==> items[i].item.price >= 0 && items[i].quantity >= 0) ==> r >= 0
  {
    if items == [] then 0
    else TotalOf(items[..|items| - 1]) + items[|items| - 1].item.price * items[|items| - 1].quantity
  }

  /** `itemCount`: `items.reduce((sum, row) => sum + row.quantity, 0)`.
      When every row holds at least one unit, there are at least as many
      units as rows; when none is negative, the count is not negative. */
  function ItemCountOf(items: seq<LineItem>): (r: int)
    ensures (forall i :: 0 <= i < |items| ==> items[i].quantity >= 1) ==> r >= |items|
    ensures (forall i :: 0 <= i < |items| ==> items[i].quantity >= 0) ==> r >= 0
  {
    if items == [] then 0
    else ItemCountOf(items[..|items| - 1]) + items[|items| - 1].quantity
  }

  // ---------------------------------------------------------------------
  // ADD_ITEM

  lemma AddItemExisting(state: seq<LineItem>, item: Product, quantity: int)
    requires HasItem(state, item.id)
    ensures var r := Reduce(state, AddItem(item, quantity));
      && |r| == |state|
      && Ids(r) == Ids(state)
      && (forall i :: 0 <= i < |state| && state[i].item.id == item.id ==>
            r[i].quantity == state[i].quantity + quantity && r[i].item == state[i].item && r[i].id == state[i].id)
      && (forall i :: 0 <= i < |state| && state[i].item.id != item.id ==> r[i] == state[i])
  {
  }

  lemma AddItemNew(state: seq<LineItem>, item: Product, quantity: int)
    requires !HasItem(state, item.id)
    ensures Reduce(state, AddItem(item, quantity)) == state + [LineItem(item.id, item, quantity)]
  {
  }

  /** Two additions of one product merge into one addition of the sum. */
  lemma AddItemTwice(state: seq<LineItem>, item: Product, q1: int, q2: int)
    ensures Reduce(Reduce(state, AddItem(item, q1)), AddItem(item, q2)) == Reduce(state, AddItem(item, q1 + q2))
  {
    var once := Reduce(state, AddItem(item, q1));
    if HasItem(state, item.id) {
      var i :| 0 <= i < |state| && state[i].item.id == item.id;
      assert once[i].item.id == item.id;
    } else {
      var last := |state|;
      assert once[last].item.id == item.id;
      assert HasItem(once, item.id);
      var twice := Reduce(once, AddItem(item, q2));
      var expected := state + [LineItem(item.id, item, q1 + q2)];
      assert |twice| == |expected|;
      forall k | 0 <= k < |twice|
        ensures twice[k] == expected[k]
      {
        if k < last {
          assert once[k] == state[k];
          assert state[k].item.id != item.id;
        }
      }
    }
  }

  // ---------------------------------------------------------------------
  // Unique ids

  lemma {:induction false} WithoutKeepsDistinct(state: seq<LineItem>, id: string)
    requires DistinctIds(state)
    ensures DistinctIds(Without(state, id))
  {
    if state != [] {
      var keep := OtherThan(id);
      assert state == [state[0]] + state[1..];
      WithoutKeepsDistinct(state[1..], id);
      var rest := Without(state[1..], id);
      Seqs.FilterCons(state[0], state[1..], keep);
      if keep(state[0]) {
        forall k | 0 <= k < |rest|
          ensures rest[k].item.id != state[0].item.id
        {
          assert rest[k] in state[1..];
        }
      }
    }
  }

  /** Every action except LOAD_CART keeps product ids unique. */
  lemma ReducePreservesDistinctIds(state: seq<LineItem>, action: CartAction)
    requires DistinctIds(state)
    requires !action.LoadCart?
    ensures DistinctIds(Reduce(state, action))
  {
    match action
    case AddItem(item, quantity) =>
    case RemoveItem(id) => WithoutKeepsDistinct(state, id);
    case UpdateQuantity(id, quantity) =>
      if quantity <= 0 { WithoutKeepsDistinct(state, id); }
    case ClearCart =>
  }

  /** LOAD_CART installs its rows verbatim, duplicates included. */
  lemma LoadCartInstallsVerbatim(state: seq<LineItem>, row: LineItem)
    ensures Reduce(state, LoadCart([row, row])) == [row, row]
    ensures !DistinctIds(Reduce(state, LoadCart([row, row])))
  {
    var r := Reduce(state, LoadCart([row, row]));
    assert r[0].item.id == r[1].item.id;
  }

  // ---------------------------------------------------------------------
  // REMOVE_ITEM and UPDATE_QUANTITY

  lemma RemoveItemDropsId(state: seq<LineItem>, id: string)
    ensures var r := Reduce(state, RemoveItem(id));
      && !HasItem(r, id)
      && (forall row :: row in r <==> row in state && row.item.id != id)
      && (!HasItem(state, id) ==> r == state)
  {
    var r := Reduce(state, RemoveItem(id));
    forall i | 0 <= i < |r|
      ensures r[i].item.id != id
    {
      assert r[i] in r;
    }
    if !HasItem(state, id) {
      forall row | row in state
        ensures row.item.id != id
      {
        var i :| 0 <= i < |state| && state[i] == row;
      }
      Seqs.FilterAll(state, OtherThan(id));
    }
  }

  /** When row `k` is the only row of its product (as it is when ids are
      unique), removing that product leaves exactly the other rows, in their
      order. */
  lemma RemoveItemKeepsOrder(state: seq<LineItem>, k: int)
    requires 0 <= k < |state| && OnlyRowWith(state, k, state[k].item.id)
    ensures Reduce(state, RemoveItem(state[k].item.id)) == state[..k] + state[k + 1..]
  {
    var id := state[k].item.id;
    assert state == state[..k] + [state[k]] + state[k + 1..];
    forall row | row in state[..k] + state[k + 1..]
      ensures OtherThan(id)(row)
    {
      var j :| 0 <= j < |state| - 1 && (state[..k] + state[k + 1..])[j] == row;
      if j < k { assert state[j] == row; } else { assert state[j + 1] == row; }
    }
    Seqs.FilterDropsOne(state[..k], state[k], state[k + 1..], OtherThan(id));
  }

  lemma UpdateNonPositiveIsRemove(state: seq<LineItem>, id: string, quantity: int)
    requires quantity <= 0
    ensures Reduce(state, UpdateQuantity(id, quantity)) == Reduce(state, RemoveItem(id))
  {
  }

  lemma UpdatePositiveReplaces(state: seq<LineItem>, id: string, quantity: int)
    requires quantity > 0
    ensures var r := Reduce(state, UpdateQuantity(id, quantity));
      && |r| == |state|
      && Ids(r) == Ids(state)
      && (forall i :: 0 <= i < |state| && state[i].item.id == id ==>
            r[i].quantity == quantity && r[i].item == state[i].item && r[i].id == state[i].id)
      && (forall i :: 0 <= i < |state| && state[i].item.id != id ==> r[i] == state[i])
      && (!HasItem(state, id) ==> r == state)
  {
  }

  // ---------------------------------------------------------------------
  // total and itemCount

  lemma {:induction false} TotalsAppend(s: seq<LineItem>, t: seq<LineItem>)
    ensures TotalOf(s + t) == TotalOf(s) + TotalOf(t)
    ensures ItemCountOf(s + t) == ItemCountOf(s) + ItemCountOf(t)
  {
    if t == [] {
      assert s + t == s;
    } else {
      var t' := t[..|t| - 1];
      assert (s + t)[..|s + t| - 1] == s + t';
      TotalsAppend(s, t');
    }
  }

  lemma TotalsOfOne(row: LineItem)
    ensures TotalOf([row]) == row.item.price * row.quantity
    ensures ItemCountOf([row]) == row.quantity
  {
    assert [row][..0] == [];
  }

  lemma ClearCartEmpties(state: seq<LineItem>)
    ensures Reduce(state, ClearCart) == []
    ensures TotalOf(Reduce(state, ClearCart)) == 0 && ItemCountOf(Reduce(state, ClearCart)) == 0
  {
  }

  lemma TotalsAfterAddNew(state: seq<LineItem>, item: Product, quantity: int)
    requires !HasItem(state, item.id)
    ensures TotalOf(Reduce(state, AddItem(item, quantity))) == TotalOf(state) + item.price * quantity
    ensures ItemCountOf(Reduce(state, AddItem(item, quantity))) == ItemCountOf(state) + quantity
  {
    TotalsAppend(state, [LineItem(item.id, item, quantity)]);
    TotalsOfOne(LineItem(item.id, item, quantity));
  }

  /** Adding to a row already present adds `quantity` units at the price the
      row already carries (the price in the action is ignored). */
  lemma TotalsAfterAddExisting(state: seq<LineItem>, k: int, item: Product, quantity: int)
    requires OnlyRowWith(state, k, item.id)
    ensures TotalOf(Reduce(state, AddItem(item, quantity))) == TotalOf(state) + state[k].item.price * quantity
    ensures ItemCountOf(Reduce(state, AddItem(item, quantity))) == ItemCountOf(state) + quantity
  {
    AddItemSplits(state, k, item, quantity);
    assert state == state[..k] + [state[k]] + state[k + 1..];
    TotalsAfterBump(state[..k], state[k], state[k + 1..], quantity);
  }

  lemma TotalsAfterBump(a: seq<LineItem>, row: LineItem, b: seq<LineItem>, quantity: int)
    ensures TotalOf(a + [row.(quantity := row.quantity + quantity)] + b) == TotalOf(a + [row] + b) + row.item.price * quantity
    ensures ItemCountOf(a + [row.(quantity := row.quantity + quantity)] + b) == ItemCountOf(a + [row] + b) + quantity
  {
    TotalsOfSplit(a, row.(quantity := row.quantity + quantity), b);
    TotalsOfSplit(a, row, b);
    Distribute(row.item.price, row.quantity, quantity);
  }

  lemma Distribute(p: int, x: int, y: int)
    ensures p * (x + y) == p * x + p * y
  {
  }

  lemma TotalsOfSplit(a: seq<LineItem>, row: LineItem, b: seq<LineItem>)
    ensures TotalOf(a + [row] + b) == TotalOf(a) + row.item.price * row.quantity + TotalOf(b)
    ensures ItemCountOf(a + [row] + b) == ItemCountOf(a) + row.quantity + ItemCountOf(b)
  {
    TotalsAppend(a + [row], b);
    TotalsAppend(a, [row]);
    TotalsOfOne(row);
  }

  lemma AddItemSplits(state: seq<LineItem>, k: int, item: Product, quantity: int)
    requires OnlyRowWith(state, k, item.id)
    ensures Reduce(state, AddItem(item, quantity))
      == state[..k] + [state[k].(quantity := state[k].quantity + quantity)] + state[k + 1..]
  {
    assert HasItem(state, item.id);
    var r := Reduce(state, AddItem(item, quantity));
    var expected := state[..k] + [state[k].(quantity := state[k].quantity + quantity)] + state[k + 1..];
    assert |r| == |expected|;
    forall i | 0 <= i < |r|
      ensures r[i] == expected[i]
    {
      if i != k {
        assert state[i].item.id != item.id;
      }
    }
  }

  /** add(P1, 2), add(P2, 1), add(P1, 3), then updateQuantity(P2, 0). */
  lemma CheckoutScenario(p1: Product, p2: Product)
    requires p1.id != p2.id
    ensures var s := Reduce(Reduce(Reduce([], AddItem(p1, 2)), AddItem(p2, 1)), AddItem(p1, 3));
      && s == [LineItem(p1.id, p1, 5), LineItem(p2.id, p2, 1)]
      && ItemCountOf(s) == 6
      && TotalOf(s) == p1.price * 5 + p2.price
      && Reduce(s, UpdateQuantity(p2.id, 0)) == [LineItem(p1.id, p1, 5)]
      && ItemCountOf(Reduce(s, UpdateQuantity(p2.id, 0))) == 5
  {
    var s1 := Reduce([], AddItem(p1, 2));
    assert s1 == [LineItem(p1.id, p1, 2)];
    var s2 := Reduce(s1, AddItem(p2, 1));
    assert !HasItem(s1, p2.id);
    assert s2 == [LineItem(p1.id, p1, 2), LineItem(p2.id, p2, 1)];
    assert HasItem(s2, p1.id) by { assert s2[0].item.id == p1.id; }
    var s := Reduce(s2, AddItem(p1, 3));
    assert s == [LineItem(p1.id, p1, 5), LineItem(p2.id, p2, 1)];
    TotalsAppend([LineItem(p1.id, p1, 5)], [LineItem(p2.id, p2, 1)]);
    assert s == [LineItem(p1.id, p1, 5)] + [LineItem(p2.id, p2, 1)];
    TotalsOfOne(LineItem(p1.id, p1, 5));
    TotalsOfOne(LineItem(p2.id, p2, 1));
    RemoveItemKeepsOrder(s, 1);
    assert s[..1] + s[2..] == [LineItem(p1.id, p1, 5)];
  }

  // ---------------------------------------------------------------------
  // The provider

  /** `CartProvider`: the rows held by `useReducer` and the callbacks it
      exposes. Persistence to local storage is not part of this model. */
  class CartProvider {
    var items: seq<LineItem>

    constructor ()
      ensures items == []
    {
      items := [];
    }

    method Dispatch(action: CartAction)
      modifies this
      ensures items == Reduce(old(items), action)
    {
      items := Reduce(items, action);
    }

    /** `addItem(item, quantity = 1)`. */
    method AddItem(item: Product, quantity: int := 1)
      modifies this
      ensures items == Reduce(old(items), CartAction.AddItem(item, quantity))
    {
      Dispatch(CartAction.AddItem(item, quantity));
    }

    method RemoveItem(itemId: string)
      modifies this
      ensures items == Reduce(old(items), CartAction.RemoveItem(itemId))
    {
      Dispatch(CartAction.RemoveItem(itemId));
    }

    method UpdateQuantity(itemId: string, quantity: int)
      modifies this
      ensures items == Reduce(old(items), CartAction.UpdateQuantity(itemId, quantity))
    {
      Dispatch(CartAction.UpdateQuantity(itemId, quantity));
    }

    method ClearCart()
      modifies this
      ensures items == []
    {
      Dispatch(CartAction.ClearCart);
    }
  }
}
