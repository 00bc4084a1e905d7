/**
 * The product grid's configuration modal: which product is open, the
 * chosen size, the chosen extra names and the quantity counter, the live
 * price shown in the modal, the badge on the floating cart button, and the
 * hand-off to the cart store.
 */
module Menu {
  import opened Common
  import opened Types
  import CartSlice

  /** `getModalTotalPrice`: nothing open costs 0; otherwise one configured unit times the counter. */
  function ModalTotalPrice(selected: Option<MenuItem>, size: Option<SizeOption>, extras: seq<string>, quantity: int): (r: real)
    ensures selected.None? ==> r == 0.0
    ensures selected.Some? ==> r == CartSlice.Scale(CartSlice.UnitPrice(selected.value, size, extras), quantity)
  {
    if selected.None? then 0.0
    else
      var item := selected.value;
      var extrasPrice := CartSlice.ExtrasPrice(CartSlice.ResolvedExtras(item.extras, extras));
      CartSlice.Scale(item.basePrice + CartSlice.SizePrice(size) + extrasPrice, quantity)
  }

  /** The price the modal shows is the total of the line a first-time add creates. */
  lemma ModalPriceIsNewLineTotal(item: MenuItem, size: Option<SizeOption>, extras: seq<string>, quantity: int)
    ensures ModalTotalPrice(Some(item), size, extras, quantity) == CartSlice.NewLine(item, size, extras, quantity).totalPrice
  {
  }

  /** `totalCartCount`: the sum of the quantities of all cart lines. */
  function TotalQuantity(items: seq<CartLine>): (t: int)
    ensures (forall i :: 0 <= i < |items| ==> items[i].quantity >= 0) ==> t >= 0
  {
    if items == [] then 0 else items[0].quantity + TotalQuantity(items[1..])
  }

  lemma {:induction false} TotalQuantityAppend(a: seq<CartLine>, b: seq<CartLine>)
    ensures TotalQuantity(a + b) == TotalQuantity(a) + TotalQuantity(b)
  {
    if a == [] {
      assert a + b == b;
    } else {
      assert (a + b)[1..] == a[1..] + b;
      TotalQuantityAppend(a[1..], b);
    }
  }

  lemma {:induction false} TotalQuantityReplace(items: seq<CartLine>, i: nat, l: CartLine)
    requires i < |items|
    ensures TotalQuantity(items[i := l]) == TotalQuantity(items) - items[i].quantity + l.quantity
  {
    if i > 0 {
      assert items[i := l][1..] == items[1..][i - 1 := l];
      TotalQuantityReplace(items[1..], i - 1, l);
    }
  }

  /** With every quantity at least one, the badge is at least the number of lines. */
  lemma {:induction false} TotalQuantityAtLeastLines(items: seq<CartLine>)
    requires CartSlice.PositiveQuantities(items)
    ensures TotalQuantity(items) >= |items|
  {
    if items != [] {
      TotalQuantityAtLeastLines(items[1..]);
    }
  }

  /** An add of `quantity` units raises the badge by exactly `quantity`, whether it merges or appends. */
  lemma TotalQuantityAfterAdd(items: seq<CartLine>, item: MenuItem, size: Option<SizeOption>, names: seq<string>, quantity: int)
    ensures TotalQuantity(CartSlice.AddLine(items, item, size, names, quantity)) == TotalQuantity(items) + quantity
  {
    var r := CartSlice.AddLine(items, item, size, names, quantity);
    match CartSlice.FindLine(items, CartSlice.CartId(item.id, size, names))
    case Some(i) =>
      var l := CartSlice.WithQuantity(items[i], items[i].quantity + quantity);
      assert r == items[i := l];
      TotalQuantityReplace(items, i, l);
    case None =>
      var l := CartSlice.NewLine(item, size, names, quantity);
      assert r == items + [l];
      TotalQuantityAppend(items, [l]);
  }

  /** The index of the first size whose lower-cased name is "small". */
  function FindSmall(sizes: seq<SizeOption>): (r: Option<nat>)
    ensures r.Some? ==> r.value < |sizes| && Lower(sizes[r.value].name) == "small"
    ensures r.Some? ==> forall j :: 0 <= j < r.value ==> Lower(sizes[j].name) != "small"
    ensures r.None? <==> forall j :: 0 <= j < |sizes| ==> Lower(sizes[j].name) != "small"
  {
    if sizes == [] then None
    else if Lower(sizes[0].name) == "small" then Some(0)
    else match FindSmall(sizes[1..])
      case None => None
      case Some(k) => Some(k + 1)
  }

  /**
   * The size chosen when a product is opened: the first size named "small"
   * in any letter case, else the first size; a product without sizes
   * leaves the current choice as it is.
   */
  function SizeOnOpen(item: MenuItem, current: Option<SizeOption>): (r: Option<SizeOption>)
    ensures item.sizes == [] ==> r == current
    ensures item.sizes != [] ==> r.Some? && r.value in item.sizes
    ensures item.sizes != [] && FindSmall(item.sizes).Some? ==> Lower(r.value.name) == "small"
    ensures item.sizes != [] && FindSmall(item.sizes).Some? ==>
      r == Some(item.sizes[FindSmall(item.sizes).value])
    ensures item.sizes != [] && FindSmall(item.sizes).None? ==> r == Some(item.sizes[0])
  {
    if item.sizes == [] then current
    else match FindSmall(item.sizes)
      case Some(k) => Some(item.sizes[k])
      case None => Some(item.sizes[0])
  }

  /** Clicking an extra: its name is removed when selected, appended when not. */
  function ToggleExtra(selected: seq<string>, name: string): (r: seq<string>)
    ensures name in r <==> name !in selected
    ensures forall n :: n != name ==> (n in r <==> n in selected)
  {
    if name in selected then
      var kept := Filter(selected, (n: string) => n != name);
      assert forall n :: n != name && n in selected ==> n in kept by {
        forall n | n != name && n in selected ensures n in kept {
          var k :| 0 <= k < |selected| && selected[k] == n;
        }
      }
      kept
    else selected + [name]
  }

  /** Two clicks on the same extra restore the selected set. */
  lemma ToggleExtraTwiceSameSet(selected: seq<string>, name: string)
    ensures forall n :: n in ToggleExtra(ToggleExtra(selected, name), name) <==> n in selected
  {
  }

  /** When the extra was not selected, two clicks restore the very same list. */
  lemma ToggleExtraTwiceAbsent(selected: seq<string>, name: string)
    requires name !in selected
    ensures ToggleExtra(ToggleExtra(selected, name), name) == selected
  {
    var once := selected + [name];
    assert forall i :: 0 <= i < |selected| ==> once[i] == selected[i];
    FilterAll(selected, (n: string) => n != name);
    FilterAppend(selected, [name], (n: string) => n != name);
    assert Filter([name], (n: string) => n != name) == [];
  }

  /** The modal's state; the counter never drops below one. */
  class MenuModal {
    var selectedItem: Option<MenuItem>
    var selectedSize: Option<SizeOption>
    var selectedExtras: seq<string>
    var quantity: int

    ghost predicate Valid()
      reads this
    {
      quantity >= 1
    }

    constructor ()
      ensures Valid()
      ensures selectedItem.None? && selectedSize.None? && selectedExtras == [] && quantity == 1
    {
      selectedItem := None;
      selectedSize := None;
      selectedExtras := [];
      quantity := 1;
    }

    /** `closeModal`: everything back to the initial state. */
    method Close()
      modifies this
      ensures Valid()
      ensures selectedItem.None? && selectedSize.None? && selectedExtras == [] && quantity == 1
    {
      selectedItem := None;
      selectedSize := None;
      selectedExtras := [];
      quantity := 1;
    }

    /** Opening a product, followed by the effect that picks its default size. */
    method Open(item: MenuItem)
      requires Valid()
      modifies this
      ensures Valid()
      ensures selectedItem == Some(item)
      ensures selectedSize == SizeOnOpen(item, old(selectedSize))
      ensures selectedExtras == old(selectedExtras) && quantity == old(quantity)
    {
      selectedItem := Some(item);
      if |item.sizes| > 0 {
        var k := FindSmall(item.sizes);
        selectedSize := if k.Some? then Some(item.sizes[k.value]) else Some(item.sizes[0]);
      }
    }

    method SelectSize(size: SizeOption)
      requires Valid()
      modifies this
      ensures Valid()
      ensures selectedSize == Some(size)
      ensures selectedItem == old(selectedItem) && selectedExtras == old(selectedExtras) && quantity == old(quantity)
    {
      selectedSize := Some(size);
    }

    method ClickExtra(name: string)
      requires Valid()
      modifies this
      ensures Valid()
      ensures selectedExtras == ToggleExtra(old(selectedExtras), name)
      ensures selectedItem == old(selectedItem) && selectedSize == old(selectedSize) && quantity == old(quantity)
    {
      selectedExtras := ToggleExtra(selectedExtras, name);
    }

    /** The "+" button. */
    method Increment()
      requires Valid()
      modifies this
      ensures Valid()
      ensures quantity == old(quantity) + 1
      ensures selectedItem == old(selectedItem) && selectedSize == old(selectedSize) && selectedExtras == old(selectedExtras)
    {
      quantity := quantity + 1;
    }

    /** The "-" button: `max(1, q - 1)`. */
    method Decrement()
      requires Valid()
      modifies this
      ensures Valid()
      ensures quantity == if old(quantity) > 1 then old(quantity) - 1 else 1
      ensures selectedItem == old(selectedItem) && selectedSize == old(selectedSize) && selectedExtras == old(selectedExtras)
    {
      quantity := if quantity - 1 > 1 then quantity - 1 else 1;
    }

    /**
     * `handleAddToCart`: with no product open nothing happens; otherwise
     * exactly one add of the current configuration reaches the cart, and
     * the modal is reset.
     */
    method HandleAddToCart(cart: CartSlice.CartStore)
      requires Valid() && cart.Valid()
      modifies this, cart
      ensures Valid() && cart.Valid()
      ensures old(selectedItem).None? ==>
        && cart.items == old(cart.items)
        && selectedItem == old(selectedItem) && selectedSize == old(selectedSize)
        && selectedExtras == old(selectedExtras) && quantity == old(quantity)
      ensures old(selectedItem).Some? ==>
        && cart.items == CartSlice.AddLine(old(cart.items), old(selectedItem).value, old(selectedSize), old(selectedExtras), old(quantity))
        && selectedItem.None? && selectedSize.None? && selectedExtras == [] && quantity == 1
      ensures cart.isCheckoutOpen == old(cart.isCheckoutOpen)
      ensures CartSlice.PositiveQuantities(old(cart.items)) ==> CartSlice.PositiveQuantities(cart.items)
    {
      if selectedItem.None? {
        return;
      }
      cart.AddToCart(selectedItem.value, selectedSize, selectedExtras, quantity);
      Close();
    }
  }
}
