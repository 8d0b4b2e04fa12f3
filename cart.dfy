/** The cart slice of the store: a list of cart lines with running totals,
    updated in place by the local reducers and replaced wholesale by the
    results of the server-side cart operations. */
module CartSlice {
  import opened Common

  datatype Variant = Variant(id: int, name: string)

  /** One cart line. Lines added locally carry the product `id` and the chosen
      `variant`; lines returned by the server also carry `productId` and
      `variantId`. A `quantity` of 0 in an added payload stands for a missing
      one (both are falsy). */
  datatype CartItem = CartItem(
    id: int,
    variant: Option<Variant>,
    price: real,
    quantity: int,
    imgUrl: Option<string>,
    productId: Option<int>,
    variantId: Option<int>)

  /** The identity of a line: product id plus variant id, or the 'default'
      sentinel when there is no variant. */
  datatype VariantKey = DefaultVariant | VariantId(id: int)
  datatype LineKey = LineKey(product: int, variant: VariantKey)

  function KeyOf(item: CartItem): LineKey {
    LineKey(item.id, if item.variant.Some? then VariantId(item.variant.value.id) else DefaultVariant)
  }

  /** The key a delete/increment/decrement payload names: `variantId || 'default'`,
      so a missing variant id and a variant id of 0 both mean 'default'. */
  function ActionKey(productId: int, variantId: Option<int>): (k: LineKey)
    ensures k.product == productId
    ensures k.variant == DefaultVariant <==> variantId.None? || variantId.value == 0
  {
    LineKey(productId, if variantId.Some? && variantId.value != 0 then VariantId(variantId.value) else DefaultVariant)
  }

  /** `findIndex` by identity: the first matching position, or -1. */
  function FindIndex(items: seq<CartItem>, key: LineKey): (r: int)
    ensures -1 <= r < |items|
    ensures r == -1 <==> forall i :: 0 <= i < |items| ==> KeyOf(items[i]) != key
    ensures 0 <= r ==> KeyOf(items[r]) == key && forall i :: 0 <= i < r ==> KeyOf(items[i]) != key
    decreases |items|
  {
    if |items| == 0 then -1
    else if KeyOf(items[0]) == key then 0
    else
      var rest := FindIndex(items[1..], key);
      if rest == -1 then -1 else rest + 1
  }

  /** `newItem.quantity || 1` */
  function AddQuantity(q: int): (r: int)
    ensures r != 0
    ensures q != 0 ==> r == q
  {
    if q == 0 then 1 else q
  }

  /** The image fix applied to a payload: a relative image URL is made absolute
      against the development API host. */
  function FixImgUrl(u: Option<string>): (r: Option<string>)
    ensures Truthy(u) && !StartsWith(u.value, "http") ==> r == Some("http://localhost:5000" + u.value)
    ensures !(Truthy(u) && !StartsWith(u.value, "http")) ==> r == u
  {
    if Truthy(u) && !StartsWith(u.value, "http") then Some("http://localhost:5000" + u.value) else u
  }

  /** The sum of the line quantities: nothing for no lines, the quantity of
      a single line. */
  function TotalQuantity(items: seq<CartItem>): (r: int)
    ensures |items| == 0 ==> r == 0
    ensures |items| == 1 ==> r == items[0].quantity
    decreases |items|
  {
    if |items| == 0 then 0 else TotalQuantity(items[..|items| - 1]) + items[|items| - 1].quantity
  }

  function LineAmount(item: CartItem): real {
    item.price * item.quantity as real
  }

  /** The sum of price times quantity over the lines: nothing for no lines,
      the line amount of a single line. */
  function TotalAmount(items: seq<CartItem>): (r: real)
    ensures |items| == 0 ==> r == 0.0
    ensures |items| == 1 ==> r == items[0].price * items[0].quantity as real
    decreases |items|
  {
    if |items| == 0 then 0.0 else TotalAmount(items[..|items| - 1]) + LineAmount(items[|items| - 1])
  }

  /** A cart whose every line holds a unit holds at least one unit per
      line, and a cart without negative prices or quantities has an amount
      that is not negative. */
  lemma {:induction false} TotalsLowerBounds(items: seq<CartItem>)
    ensures (forall i | 0 <= i < |items| :: items[i].quantity >= 1) ==> TotalQuantity(items) >= |items|
    ensures (forall i | 0 <= i < |items| :: items[i].price >= 0.0 && items[i].quantity >= 0) ==>
      TotalAmount(items) >= 0.0
    decreases |items|
  {
    if |items| > 0 {
      TotalsLowerBounds(items[..|items| - 1]);
    }
  }

  /** Totals of a concatenation are the sums of the parts' totals. */
  lemma {:induction false} TotalsOfConcat(a: seq<CartItem>, b: seq<CartItem>)
    ensures TotalQuantity(a + b) == TotalQuantity(a) + TotalQuantity(b)
    ensures TotalAmount(a + b) == TotalAmount(a) + TotalAmount(b)
    decreases |b|
  {
    if |b| == 0 {
      assert a + b == a;
    } else {
      var b' := b[..|b| - 1];
      assert (a + b)[..|a + b| - 1] == a + b';
      assert (a + b)[|a + b| - 1] == b[|b| - 1];
      TotalsOfConcat(a, b');
    }
  }

  /** The totals split around any one line. */
  lemma TotalsAround(items: seq<CartItem>, idx: nat)
    requires idx < |items|
    ensures TotalQuantity(items) == TotalQuantity(items[..idx]) + items[idx].quantity + TotalQuantity(items[idx + 1..])
    ensures TotalAmount(items) == TotalAmount(items[..idx]) + LineAmount(items[idx]) + TotalAmount(items[idx + 1..])
  {
    var before, line, after := items[..idx], [items[idx]], items[idx + 1..];
    assert items == (before + line) + after;
    TotalsOfConcat(before + line, after);
    TotalsOfConcat(before, line);
    assert TotalQuantity(line) == items[idx].quantity && TotalAmount(line) == LineAmount(items[idx]);
  }

  /** The `reduce` that recomputes both totals from the lines. */
  method ComputeTotals(items: seq<CartItem>) returns (quantity: int, amount: real)
    ensures quantity == TotalQuantity(items)
    ensures amount == TotalAmount(items)
  {
    quantity, amount := 0, 0.0;
    for i := 0 to |items|
      invariant quantity == TotalQuantity(items[..i])
      invariant amount == TotalAmount(items[..i])
    {
      assert items[..i + 1][..i] == items[..i];
      quantity := quantity + items[i].quantity;
      amount := amount + LineAmount(items[i]);
    }
    assert items[..|items|] == items;
  }

  /** No two lines share an identity. */
  ghost predicate UniqueKeys(items: seq<CartItem>) {
    forall i, j :: 0 <= i < j < |items| ==> KeyOf(items[i]) != KeyOf(items[j])
  }

  /** The lines after `addItem(newItem)`. */
  function AddLine(items: seq<CartItem>, newItem: CartItem): seq<CartItem> {
    var idx := FindIndex(items, KeyOf(newItem));
    if idx >= 0 then
      items[idx := items[idx].(quantity := items[idx].quantity + AddQuantity(newItem.quantity))]
    else
      items + [newItem.(imgUrl := FixImgUrl(newItem.imgUrl), quantity := AddQuantity(newItem.quantity))]
  }

  /** Adding an identity already in the cart raises that line's quantity by the
      payload quantity (or 1) and appends nothing. */
  lemma AddLineExisting(items: seq<CartItem>, newItem: CartItem)
    requires FindIndex(items, KeyOf(newItem)) >= 0
    ensures var idx := FindIndex(items, KeyOf(newItem));
      && |AddLine(items, newItem)| == |items|
      && AddLine(items, newItem)[idx].quantity == items[idx].quantity + AddQuantity(newItem.quantity)
      && AddLine(items, newItem)[idx] == items[idx].(quantity := AddLine(items, newItem)[idx].quantity)
      && forall i :: 0 <= i < |items| && i != idx ==> AddLine(items, newItem)[i] == items[i]
  {
  }

  /** Adding a new identity appends exactly one line, at the end, with the
      quantity defaulted to 1; the other lines are unchanged. */
  lemma AddLineNew(items: seq<CartItem>, newItem: CartItem)
    requires FindIndex(items, KeyOf(newItem)) == -1
    ensures |AddLine(items, newItem)| == |items| + 1
    ensures AddLine(items, newItem)[..|items|] == items
    ensures var last := AddLine(items, newItem)[|items|];
      && KeyOf(last) == KeyOf(newItem)
      && last.quantity == AddQuantity(newItem.quantity)
      && last.price == newItem.price
  {
  }

  /** Adding keeps line identities unique. */
  lemma AddLineKeepsUnique(items: seq<CartItem>, newItem: CartItem)
    requires UniqueKeys(items)
    ensures UniqueKeys(AddLine(items, newItem))
  {
    var r := AddLine(items, newItem);
    var idx := FindIndex(items, KeyOf(newItem));
    forall i, j | 0 <= i < j < |r| ensures KeyOf(r[i]) != KeyOf(r[j]) {
      if idx >= 0 {
        assert KeyOf(r[i]) == KeyOf(items[i]) && KeyOf(r[j]) == KeyOf(items[j]);
      } else if j == |items| {
        assert KeyOf(r[j]) == KeyOf(newItem) && r[i] == items[i];
      } else {
        assert r[i] == items[i] && r[j] == items[j];
      }
    }
  }

  /** Every identity present before an add is present after it, at the same place. */
  lemma AddLineKeepsPositions(items: seq<CartItem>, newItem: CartItem, key: LineKey)
    requires FindIndex(items, key) >= 0
    ensures FindIndex(AddLine(items, newItem), key) == FindIndex(items, key)
  {
    var r := AddLine(items, newItem);
    var k := FindIndex(items, key);
    assert forall i :: 0 <= i < |items| ==> KeyOf(r[i]) == KeyOf(items[i]);
  }

  /** Lines after a sequence of adds. */
  function AddAll(items: seq<CartItem>, adds: seq<CartItem>): seq<CartItem>
    decreases |adds|
  {
    if |adds| == 0 then items else AddLine(AddAll(items, adds[..|adds| - 1]), adds[|adds| - 1])
  }

  function SumAddQuantities(adds: seq<CartItem>): int
    decreases |adds|
  {
    if |adds| == 0 then 0 else SumAddQuantities(adds[..|adds| - 1]) + AddQuantity(adds[|adds| - 1].quantity)
  }

  /** Adding the same product and variant repeatedly to a cart that lacks it
      yields exactly one line for it, whose quantity is the sum of the added
      quantities. */
  lemma {:induction false} RepeatedAddsMerge(items: seq<CartItem>, adds: seq<CartItem>, key: LineKey)
    requires |adds| > 0
    requires forall i :: 0 <= i < |adds| ==> KeyOf(adds[i]) == key
    requires FindIndex(items, key) == -1
    ensures |AddAll(items, adds)| == |items| + 1
    ensures FindIndex(AddAll(items, adds), key) == |items|
    ensures AddAll(items, adds)[|items|].quantity == SumAddQuantities(adds)
    ensures AddAll(items, adds)[..|items|] == items
    decreases |adds|
  {
    var init := adds[..|adds| - 1];
    var a := adds[|adds| - 1];
    if |init| == 0 {
      assert AddAll(items, init) == items;
      AddLineNew(items, a);
      var r := AddLine(items, a);
      assert forall i :: 0 <= i < |items| ==> KeyOf(r[i]) == KeyOf(items[i]);
    } else {
      RepeatedAddsMerge(items, init, key);
      var before := AddAll(items, init);
      AddLineExisting(before, a);
      var r := AddLine(before, a);
      assert forall i :: 0 <= i < |before| ==> KeyOf(r[i]) == KeyOf(before[i]);
      assert r[..|items|] == before[..|items|];
    }
  }

  /** `splice(idx, 1)` */
  function RemoveAt(items: seq<CartItem>, idx: nat): (r: seq<CartItem>)
    requires idx < |items|
    ensures |r| == |items| - 1
    ensures forall i :: 0 <= i < idx ==> r[i] == items[i]
    ensures forall i :: idx <= i < |r| ==> r[i] == items[i + 1]
  {
    items[..idx] + items[idx + 1..]
  }

  /** Removing a line takes exactly its quantity and amount off the totals. */
  lemma TotalsAfterRemove(items: seq<CartItem>, idx: nat)
    requires idx < |items|
    ensures TotalQuantity(RemoveAt(items, idx)) == TotalQuantity(items) - items[idx].quantity
    ensures TotalAmount(RemoveAt(items, idx)) == TotalAmount(items) - LineAmount(items[idx])
  {
    TotalsAround(items, idx);
    TotalsOfConcat(items[..idx], items[idx + 1..]);
  }

  /** Changing one line's quantity by `delta` moves the totals by `delta` units
      and `delta` times that line's price. */
  lemma TotalsAfterQuantityChange(items: seq<CartItem>, idx: nat, delta: int)
    requires idx < |items|
    ensures var r := items[idx := items[idx].(quantity := items[idx].quantity + delta)];
      && TotalQuantity(r) == TotalQuantity(items) + delta
      && TotalAmount(r) == TotalAmount(items) + items[idx].price * delta as real
  {
    var r := items[idx := items[idx].(quantity := items[idx].quantity + delta)];
    TotalsAround(items, idx);
    TotalsAround(r, idx);
    assert r[..idx] == items[..idx] && r[idx + 1..] == items[idx + 1..];
    LineAmountShift(items[idx], delta);
  }

  lemma LineAmountShift(item: CartItem, delta: int)
    ensures LineAmount(item.(quantity := item.quantity + delta)) == LineAmount(item) + item.price * delta as real
  {
    var p, q := item.price, item.quantity as real;
    assert p * (q + delta as real) == p * q + p * delta as real;
  }

  /** Removing a line from a cart with unique identities leaves no line with
      that identity, keeps the others in order, and keeps identities unique. */
  lemma RemoveKeepsUnique(items: seq<CartItem>, idx: nat)
    requires idx < |items| && UniqueKeys(items)
    ensures UniqueKeys(RemoveAt(items, idx))
    ensures FindIndex(RemoveAt(items, idx), KeyOf(items[idx])) == -1
  {
    var r := RemoveAt(items, idx);
    forall i, j | 0 <= i < j < |r| ensures KeyOf(r[i]) != KeyOf(r[j]) {
      var i' := if i < idx then i else i + 1;
      var j' := if j < idx then j else j + 1;
      assert r[i] == items[i'] && r[j] == items[j'];
    }
    forall i | 0 <= i < |r| ensures KeyOf(r[i]) != KeyOf(items[idx]) {
      var i' := if i < idx then i else i + 1;
      assert r[i] == items[i'];
    }
  }

  /** What a deletion keeps: consistent totals stay consistent, unique
      identities stay unique. */
  lemma RemoveStep(items: seq<CartItem>, idx: nat, quantity: int, amount: real)
    requires idx < |items|
    ensures quantity == TotalQuantity(items) && amount == TotalAmount(items) ==>
      && quantity - items[idx].quantity == TotalQuantity(RemoveAt(items, idx))
      && amount - LineAmount(items[idx]) == TotalAmount(RemoveAt(items, idx))
    ensures UniqueKeys(items) ==> UniqueKeys(RemoveAt(items, idx))
  {
    TotalsAfterRemove(items, idx);
    if UniqueKeys(items) { RemoveKeepsUnique(items, idx); }
  }

  /** Which server-side cart operation a pending/rejected action belongs to. */
  datatype CartThunk = FetchCart | SyncCartAfterLogin | AddItemToCart | UpdateCartItemQuantity | RemoveCartItem | ClearCart

  function DefaultError(t: CartThunk): string {
    match t
    case FetchCart => "Failed to fetch cart"
    case SyncCartAfterLogin => "Failed to sync cart"
    case AddItemToCart => "Failed to add item"
    case UpdateCartItemQuantity => "Failed to update item quantity"
    case RemoveCartItem => "Failed to remove item"
    case ClearCart => "Failed to clear cart"
  }

  /** `action.payload?.message || <default>` */
  function RejectionMessage(t: CartThunk, message: Option<string>): (r: string)
    ensures Truthy(message) ==> r == message.value
    ensures !Truthy(message) ==> r == DefaultError(t)
    ensures r != ""
  {
    if Truthy(message) then message.value else DefaultError(t)
  }

  /** The server's cart representation. */
  datatype ServerCart = ServerCart(items: seq<CartItem>, totalAmount: real, totalQuantity: int, id: Option<int>)

  /** The cart returned after login sync, whose fields may be missing. */
  datatype SyncedCart = SyncedCart(items: Option<seq<CartItem>>, totalQuantity: Option<int>, totalAmount: Option<real>)

  class CartStore {
    var cartItems: seq<CartItem>
    var totalAmount: real
    var totalQuantity: int
    var loading: bool
    var error: Option<string>
    var cartId: Option<int>

    /** The totals agree with a recomputation over the lines. */
    predicate Consistent()
      reads this
    {
      totalQuantity == TotalQuantity(cartItems) && totalAmount == TotalAmount(cartItems)
    }

    constructor ()
      ensures cartItems == [] && totalAmount == 0.0 && totalQuantity == 0
      ensures !loading && error == None && cartId == None
      ensures Consistent()
    {
      cartItems, totalAmount, totalQuantity := [], 0.0, 0;
      loading, error, cartId := false, None, None;
    }

    /** `addItem`: merge into the line with the same identity or append a new
        line, then recompute both totals over all lines. */
    method AddItem(newItem: CartItem)
      modifies this
      ensures cartItems == AddLine(old(cartItems), newItem)
      ensures Consistent()
      ensures old(UniqueKeys(cartItems)) ==> UniqueKeys(cartItems)
      ensures loading == old(loading) && error == old(error) && cartId == old(cartId)
    {
      if UniqueKeys(cartItems) { AddLineKeepsUnique(cartItems, newItem); }
      var item := newItem.(imgUrl := FixImgUrl(newItem.imgUrl));
      var idx := FindIndex(cartItems, KeyOf(item));
      if idx >= 0 {
        var line := cartItems[idx];
        cartItems := cartItems[idx := line.(quantity := line.quantity + AddQuantity(item.quantity))];
      } else {
        item := item.(quantity := AddQuantity(item.quantity));
        cartItems := cartItems + [item];
      }
      totalQuantity, totalAmount := ComputeTotals(cartItems);
    }

    /** `deleteCartItem`: remove the line with the payload's identity, if any,
        and take its quantity and amount off the totals. */
    method DeleteCartItem(productId: int, variantId: Option<int>)
      modifies this
      ensures var idx := FindIndex(old(cartItems), ActionKey(productId, variantId));
        if idx == -1 then
          cartItems == old(cartItems) && totalQuantity == old(totalQuantity) && totalAmount == old(totalAmount)
        else
          && cartItems == RemoveAt(old(cartItems), idx)
          && totalQuantity == old(totalQuantity) - old(cartItems)[idx].quantity
          && totalAmount == old(totalAmount) - LineAmount(old(cartItems)[idx])
      ensures old(Consistent()) ==> Consistent()
      ensures old(UniqueKeys(cartItems)) ==> UniqueKeys(cartItems)
      ensures loading == old(loading) && error == old(error) && cartId == old(cartId)
    {
      var idx := FindIndex(cartItems, ActionKey(productId, variantId));
      if idx >= 0 {
        var doomed := cartItems[idx];
        RemoveStep(cartItems, idx, totalQuantity, totalAmount);
        totalQuantity := totalQuantity - doomed.quantity;
        totalAmount := totalAmount - doomed.price * doomed.quantity as real;
        cartItems := RemoveAt(cartItems, idx);
      }
    }

    /** `incrementItemQuantity`: one more of the matching line. */
    method IncrementItemQuantity(productId: int, variantId: Option<int>)
      modifies this
      ensures var idx := FindIndex(old(cartItems), ActionKey(productId, variantId));
        if idx == -1 then
          cartItems == old(cartItems) && totalQuantity == old(totalQuantity) && totalAmount == old(totalAmount)
        else
          && cartItems == old(cartItems)[idx := old(cartItems)[idx].(quantity := old(cartItems)[idx].quantity + 1)]
          && totalQuantity == old(totalQuantity) + 1
          && totalAmount == old(totalAmount) + old(cartItems)[idx].price
      ensures old(Consistent()) ==> Consistent()
      ensures old(UniqueKeys(cartItems)) ==> UniqueKeys(cartItems)
      ensures loading == old(loading) && error == old(error) && cartId == old(cartId)
    {
      var idx := FindIndex(cartItems, ActionKey(productId, variantId));
      if idx >= 0 {
        var line := cartItems[idx];
        TotalsAfterQuantityChange(cartItems, idx, 1);
        cartItems := cartItems[idx := line.(quantity := line.quantity + 1)];
        totalQuantity := totalQuantity + 1;
        totalAmount := totalAmount + line.price;
      }
    }

    /** `decrementItemQuantity`: one fewer of the matching line, but only while
        it holds more than one; a line is never removed this way. */
    method DecrementItemQuantity(productId: int, variantId: Option<int>)
      modifies this
      ensures var idx := FindIndex(old(cartItems), ActionKey(productId, variantId));
        if idx == -1 || old(cartItems)[idx].quantity <= 1 then
          cartItems == old(cartItems) && totalQuantity == old(totalQuantity) && totalAmount == old(totalAmount)
        else
          && cartItems == old(cartItems)[idx := old(cartItems)[idx].(quantity := old(cartItems)[idx].quantity - 1)]
          && cartItems[idx].quantity >= 1
          && totalQuantity == old(totalQuantity) - 1
          && totalAmount == old(totalAmount) - old(cartItems)[idx].price
      ensures |cartItems| == |old(cartItems)|
      ensures old(Consistent()) ==> Consistent()
      ensures old(UniqueKeys(cartItems)) ==> UniqueKeys(cartItems)
      ensures loading == old(loading) && error == old(error) && cartId == old(cartId)
    {
      var idx := FindIndex(cartItems, ActionKey(productId, variantId));
      if idx >= 0 && cartItems[idx].quantity > 1 {
        var line := cartItems[idx];
        TotalsAfterQuantityChange(cartItems, idx, -1);
        cartItems := cartItems[idx := line.(quantity := line.quantity - 1)];
        totalQuantity := totalQuantity - 1;
        totalAmount := totalAmount - line.price;
      }
    }

    /** `clearCartLocal` */
    method ClearCartLocal()
      modifies this
      ensures cartItems == [] && totalAmount == 0.0 && totalQuantity == 0
      ensures Consistent()
      ensures loading == old(loading) && error == old(error) && cartId == old(cartId)
    {
      cartItems := [];
      totalAmount := 0.0;
      totalQuantity := 0;
    }

    /** Any `pending` case: loading, with the previous error cleared. */
    method Pending()
      modifies this
      ensures loading && error == None
      ensures cartItems == old(cartItems) && totalAmount == old(totalAmount)
      ensures totalQuantity == old(totalQuantity) && cartId == old(cartId)
    {
      loading := true;
      error := None;
    }

    /** Any `rejected` case, including a failed login sync: the error is
        recorded and the lines and totals are kept as they were. */
    method Rejected(thunk: CartThunk, message: Option<string>)
      modifies this
      ensures !loading && error == Some(RejectionMessage(thunk, message))
      ensures cartItems == old(cartItems) && totalAmount == old(totalAmount)
      ensures totalQuantity == old(totalQuantity) && cartId == old(cartId)
    {
      loading := false;
      error := Some(if Truthy(message) then message.value else DefaultError(thunk));
    }

    /** `fetchCart.fulfilled` and `addItemToCart.fulfilled`: the server's cart
        replaces the local one, including its id. */
    method ServerCartLoaded(payload: ServerCart)
      modifies this
      ensures !loading && error == old(error)
      ensures cartItems == payload.items && totalAmount == payload.totalAmount
      ensures totalQuantity == payload.totalQuantity && cartId == payload.id
    {
      loading := false;
      cartItems := payload.items;
      totalAmount := payload.totalAmount;
      totalQuantity := payload.totalQuantity;
      cartId := payload.id;
    }

    /** `updateCartItemQuantity.fulfilled` and `removeCartItem.fulfilled`: the
        lines and totals are replaced; the cart id is kept. */
    method ServerCartUpdated(payload: ServerCart)
      modifies this
      ensures !loading && error == old(error)
      ensures cartItems == payload.items && totalAmount == payload.totalAmount
      ensures totalQuantity == payload.totalQuantity && cartId == old(cartId)
    {
      loading := false;
      cartItems := payload.items;
      totalAmount := payload.totalAmount;
      totalQuantity := payload.totalQuantity;
    }

    /** `syncCartAfterLogin.fulfilled`: a returned cart replaces the local one,
        with missing fields read as empty; no cart leaves the state alone. */
    method SyncFulfilled(payload: Option<SyncedCart>)
      modifies this
      ensures !loading && error == old(error) && cartId == old(cartId)
      ensures payload.None? ==>
        cartItems == old(cartItems) && totalAmount == old(totalAmount) && totalQuantity == old(totalQuantity)
      ensures payload.Some? ==>
        && cartItems == payload.value.items.GetOr([])
        && totalQuantity == payload.value.totalQuantity.GetOr(0)
        && totalAmount == payload.value.totalAmount.GetOr(0.0)
    {
      loading := false;
      if payload.Some? {
        cartItems := payload.value.items.GetOr([]);
        totalQuantity := payload.value.totalQuantity.GetOr(0);
        totalAmount := payload.value.totalAmount.GetOr(0.0);
      }
    }

    /** `clearCart.fulfilled`: empty lines and zero totals. */
    method ClearCartFulfilled()
      modifies this
      ensures !loading && error == old(error) && cartId == old(cartId)
      ensures cartItems == [] && totalAmount == 0.0 && totalQuantity == 0
      ensures Consistent()
    {
      loading := false;
      cartItems := [];
      totalAmount := 0.0;
      totalQuantity := 0;
    }
  }
}
