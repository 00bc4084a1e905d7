/**
 * The cart engine: the ordered list of cart lines and the checkout-panel
 * flag, with the five reducers that change them. A line's identity is the
 * string `productId-sizeId-sortedExtraNames`; adding a configuration whose
 * identity is already present merges into that line.
 */
module CartSlice {
  import opened Common
  import opened Types
  import StringOrder

  /* ---------------------------------------------------------------------
     Pricing
     --------------------------------------------------------------------- */

  /**
   * `price * count`. It is written as repeated addition so that reasoning
   * about line totals stays within linear arithmetic; `ScaleIsProduct`
   * shows that it is the product.
   */
  function Scale(price: real, count: int): real
    decreases if count < 0 then -count else count
  {
    if count == 0 then 0.0
    else if count > 0 then Scale(price, count - 1) + price
    else Scale(price, count + 1) - price
  }

  lemma {:induction false} ScaleIsProduct(price: real, count: int)
    ensures Scale(price, count) == price * count as real
    decreases if count < 0 then -count else count
  {
    if count > 0 {
      ScaleIsProduct(price, count - 1);
    } else if count < 0 {
      ScaleIsProduct(price, count + 1);
    }
  }

  /** Scaling distributes over a sum of counts. */
  lemma {:induction false} ScaleAdd(price: real, a: int, b: int)
    ensures Scale(price, a + b) == Scale(price, a) + Scale(price, b)
    decreases if b < 0 then -b else b
  {
    if b > 0 {
      ScaleAdd(price, a, b - 1);
    } else if b < 0 {
      ScaleAdd(price, a, b + 1);
    }
  }

  /** Sum of the prices of a list of extras; extras that cost nothing or more never lower a price. */
  function ExtrasPrice(extras: seq<ExtraOption>): (p: real)
    ensures (forall i :: 0 <= i < |extras| ==> extras[i].price >= 0.0) ==> p >= 0.0
  {
    if extras == [] then 0.0 else extras[0].price + ExtrasPrice(extras[1..])
  }

  /** `size?.price || 0`: no size adds nothing, a chosen size adds its own price. */
  function SizePrice(size: Option<SizeOption>): (p: real)
    ensures size.None? ==> p == 0.0
    ensures size.Some? ==> p == size.value.price
  {
    if size.Some? then size.value.price else 0.0
  }

  /** The extras of the product whose names were selected, in the product's own order. */
  function ResolvedExtras(extras: seq<ExtraOption>, names: seq<string>): (r: seq<ExtraOption>)
    ensures forall i :: 0 <= i < |r| ==> r[i] in extras && r[i].name in names
    ensures forall i :: 0 <= i < |extras| && extras[i].name in names ==> extras[i] in r
  {
    Filter(extras, (e: ExtraOption) => e.name in names)
  }

  /** Price of one unit of a configured product: base + size + selected extras. */
  function UnitPrice(item: MenuItem, size: Option<SizeOption>, names: seq<string>): real {
    item.basePrice + SizePrice(size) + ExtrasPrice(ResolvedExtras(item.extras, names))
  }

  /** When sizes and extras carry no negative price, no selection goes below the base price. */
  lemma UnitPriceAtLeastBase(item: MenuItem, size: Option<SizeOption>, names: seq<string>)
    requires size.Some? ==> size.value.price >= 0.0
    requires forall i :: 0 <= i < |item.extras| ==> item.extras[i].price >= 0.0
    ensures UnitPrice(item, size, names) >= item.basePrice
  {
    var r := ResolvedExtras(item.extras, names);
    forall i | 0 <= i < |r| ensures r[i].price >= 0.0 {
      var j :| 0 <= j < |item.extras| && item.extras[j] == r[i];
    }
  }

  /**
   * Only which of the product's extras are named matters: the order of the
   * names, repetitions, and names the product does not offer change nothing.
   */
  lemma UnitPriceDependsOnlyOnOfferedNames(item: MenuItem, size: Option<SizeOption>, a: seq<string>, b: seq<string>)
    requires forall e :: e in item.extras ==> (e.name in a <==> e.name in b)
    ensures ResolvedExtras(item.extras, a) == ResolvedExtras(item.extras, b)
    ensures UnitPrice(item, size, a) == UnitPrice(item, size, b)
  {
    FilterCongruent(item.extras, (e: ExtraOption) => e.name in a, (e: ExtraOption) => e.name in b);
  }

  /** With no selected extras, the unit price is base plus size price. */
  lemma UnitPriceWithoutExtras(item: MenuItem, size: Option<SizeOption>)
    ensures UnitPrice(item, size, []) == item.basePrice + SizePrice(size)
  {
    FilterCongruent(item.extras, (e: ExtraOption) => e.name in [], (e: ExtraOption) => false);
    FilterNone(item.extras);
  }

  lemma {:induction false} FilterNone(s: seq<ExtraOption>)
    ensures Filter(s, (e: ExtraOption) => false) == []
  {
    if s != [] {
      FilterNone(s[1..]);
    }
  }

  /* ---------------------------------------------------------------------
     Identity
     --------------------------------------------------------------------- */

  /** `size?.id || "std"`: no size, or a size whose id is the empty string, reads "std". */
  function SizeKey(size: Option<SizeOption>): (k: string)
    ensures k != ""
    ensures k == "std" <==> size.None? || size.value.id == "" || size.value.id == "std"
    ensures size.Some? && size.value.id != "" ==> k == size.value.id
  {
    if size.Some? && size.value.id != "" then size.value.id else "std"
  }

  /** The identity string of a configured product: the product id, a dash, the size key, a dash, then the extras. */
  function CartId(itemId: string, size: Option<SizeOption>, names: seq<string>): (id: string)
    ensures |id| >= |itemId| + |SizeKey(size)| + 2
    ensures id[..|itemId| + 1] == itemId + "-"
    ensures id[|itemId| + 1..|itemId| + 1 + |SizeKey(size)|] == SizeKey(size)
    ensures id[|itemId| + 1 + |SizeKey(size)|] == '-'
  {
    itemId + "-" + SizeKey(size) + "-" + Join(StringOrder.Sort(names), "-")
  }

  /** Selecting the same extras in any order gives the same identity. */
  lemma CartIdPermutationInvariant(itemId: string, size: Option<SizeOption>, a: seq<string>, b: seq<string>)
    requires multiset(a) == multiset(b)
    ensures CartId(itemId, size, a) == CartId(itemId, size, b)
  {
    StringOrder.SortPermutationInvariant(a, b);
  }

  /**
   * The identity is not injective: one extra named "x-y" and the two extras
   * "x" and "y" produce the same string, so their lines would merge.
   */
  lemma CartIdCollidesOnDashedNames(itemId: string)
    ensures CartId(itemId, None, ["x-y"]) == CartId(itemId, None, ["x", "y"])
    ensures multiset(["x-y"]) != multiset(["x", "y"])
  {
    assert StringOrder.LessEq("x", "y");
    assert StringOrder.Sort(["y"]) == ["y"];
    assert StringOrder.Sort(["x", "y"]) == ["x", "y"];
    assert "x" + "-" + "y" == "x-y";
    assert "x-y" in multiset(["x-y"]);
  }

  /** A size whose id is empty is keyed like no size at all, whatever its price. */
  lemma CartIdCollidesOnEmptySizeId(itemId: string, size: SizeOption, names: seq<string>)
    requires size.id == ""
    ensures CartId(itemId, Some(size), names) == CartId(itemId, None, names)
  {
  }

  /* ---------------------------------------------------------------------
     Lines and the invariants the reducers keep
     --------------------------------------------------------------------- */

  /** `state.items.find(i => i.cartId === cartId)`, as the index of the first match. */
  function FindLine(items: seq<CartLine>, id: string): (r: Option<nat>)
    ensures r.Some? ==> r.value < |items| && items[r.value].cartId == id
    ensures r.Some? ==> forall j :: 0 <= j < r.value ==> items[j].cartId != id
    ensures r.None? <==> forall j :: 0 <= j < |items| ==> items[j].cartId != id
  {
    if items == [] then None
    else if items[0].cartId == id then Some(0)
    else match FindLine(items[1..], id)
      case None => None
      case Some(k) => Some(k + 1)
  }

  /** Every line's total is its unit price times its quantity. */
  ghost predicate TotalsConsistent(items: seq<CartLine>) {
    forall i :: 0 <= i < |items| ==> items[i].totalPrice == Scale(items[i].unitPrice, items[i].quantity)
  }

  /** No two lines share an identity. */
  ghost predicate UniqueIds(items: seq<CartLine>) {
    forall i, j :: 0 <= i < j < |items| ==> items[i].cartId != items[j].cartId
  }

  ghost predicate PositiveQuantities(items: seq<CartLine>) {
    forall i :: 0 <= i < |items| ==> items[i].quantity >= 1
  }

  /** The line a first-time add appends. */
  function NewLine(item: MenuItem, size: Option<SizeOption>, names: seq<string>, quantity: int): (l: CartLine)
    ensures l.totalPrice == Scale(l.unitPrice, quantity)
    ensures l.unitPrice == UnitPrice(item, size, names)
    ensures l.cartId == CartId(item.id, size, names)
  {
    var unit := UnitPrice(item, size, names);
    CartLine(CartId(item.id, size, names), item.id, item.name, item.image, size,
             ResolvedExtras(item.extras, names), quantity, unit, Scale(unit, quantity))
  }

  /** A line whose quantity is set to `q`, with its total recomputed. */
  function WithQuantity(line: CartLine, q: int): (l: CartLine)
    ensures l.totalPrice == Scale(l.unitPrice, q)
    ensures l == line.(quantity := q, totalPrice := l.totalPrice)
  {
    line.(quantity := q, totalPrice := Scale(line.unitPrice, q))
  }

  /**
   * The item list after `addToCart`: the line with the same identity grows
   * by `quantity`, or a new line is appended at the end.
   */
  function AddLine(items: seq<CartLine>, item: MenuItem, size: Option<SizeOption>, names: seq<string>, quantity: int): (r: seq<CartLine>)
    ensures FindLine(items, CartId(item.id, size, names)).Some? ==>
      var i := FindLine(items, CartId(item.id, size, names)).value;
      && |r| == |items|
      && r[i] == WithQuantity(items[i], items[i].quantity + quantity)
      && forall j :: 0 <= j < |items| && j != i ==> r[j] == items[j]
    ensures FindLine(items, CartId(item.id, size, names)).None? ==>
      && |r| == |items| + 1
      && r[..|items|] == items
      && r[|items|] == NewLine(item, size, names, quantity)
  {
    match FindLine(items, CartId(item.id, size, names))
    case Some(i) => items[i := WithQuantity(items[i], items[i].quantity + quantity)]
    case None => items + [NewLine(item, size, names, quantity)]
  }

  /** `addToCart` keeps identities unique and every total consistent. */
  lemma AddLinePreserves(items: seq<CartLine>, item: MenuItem, size: Option<SizeOption>, names: seq<string>, quantity: int)
    requires UniqueIds(items) && TotalsConsistent(items)
    ensures UniqueIds(AddLine(items, item, size, names, quantity))
    ensures TotalsConsistent(AddLine(items, item, size, names, quantity))
    ensures PositiveQuantities(items) && quantity >= 1 ==> PositiveQuantities(AddLine(items, item, size, names, quantity))
  {
    var id := CartId(item.id, size, names);
    match FindLine(items, id)
    case Some(i) =>
      assert AddLine(items, item, size, names, quantity) == items[i := WithQuantity(items[i], items[i].quantity + quantity)];
      ReplaceLinePreserves(items, i, WithQuantity(items[i], items[i].quantity + quantity));
    case None =>
      assert AddLine(items, item, size, names, quantity) == items + [NewLine(item, size, names, quantity)];
      AppendLinePreserves(items, NewLine(item, size, names, quantity));
  }

  lemma ReplaceLinePreserves(items: seq<CartLine>, i: nat, l: CartLine)
    requires i < |items| && l.cartId == items[i].cartId
    requires l.totalPrice == Scale(l.unitPrice, l.quantity)
    requires UniqueIds(items) && TotalsConsistent(items)
    ensures UniqueIds(items[i := l]) && TotalsConsistent(items[i := l])
    ensures PositiveQuantities(items) && l.quantity >= 1 ==> PositiveQuantities(items[i := l])
  {
  }

  lemma AppendLinePreserves(items: seq<CartLine>, l: CartLine)
    requires FindLine(items, l.cartId).None?
    requires l.totalPrice == Scale(l.unitPrice, l.quantity)
    requires UniqueIds(items) && TotalsConsistent(items)
    ensures UniqueIds(items + [l]) && TotalsConsistent(items + [l])
    ensures PositiveQuantities(items) && l.quantity >= 1 ==> PositiveQuantities(items + [l])
  {
  }

  /** The item list after `removeFromCart`: every line with that identity is dropped, the rest keep their order. */
  function RemoveLines(items: seq<CartLine>, id: string): (r: seq<CartLine>)
    ensures forall i :: 0 <= i < |r| ==> r[i].cartId != id && r[i] in items
    ensures forall i :: 0 <= i < |items| && items[i].cartId != id ==> items[i] in r
  {
    Filter(items, (l: CartLine) => l.cartId != id)
  }

  /** Removing from a concatenation removes from each part, in order. */
  lemma RemoveLinesAppend(a: seq<CartLine>, b: seq<CartLine>, id: string)
    ensures RemoveLines(a + b, id) == RemoveLines(a, id) + RemoveLines(b, id)
  {
    FilterAppend(a, b, (l: CartLine) => l.cartId != id);
  }

  /** Removing an identity that is not in the cart changes nothing. */
  lemma RemoveAbsentIsNoOp(items: seq<CartLine>, id: string)
    requires FindLine(items, id).None?
    ensures RemoveLines(items, id) == items
  {
    FilterAll(items, (l: CartLine) => l.cartId != id);
  }

  /** Removing keeps the cart's invariants. */
  lemma RemoveLinesPreserves(items: seq<CartLine>, id: string)
    requires UniqueIds(items) && TotalsConsistent(items)
    ensures UniqueIds(RemoveLines(items, id)) && TotalsConsistent(RemoveLines(items, id))
    ensures PositiveQuantities(items) ==> PositiveQuantities(RemoveLines(items, id))
  {
    RemoveLinesUnique(items, id);
  }

  lemma {:induction false} RemoveLinesUnique(items: seq<CartLine>, id: string)
    requires UniqueIds(items)
    ensures UniqueIds(RemoveLines(items, id))
  {
    if items != [] {
      var rest := RemoveLines(items[1..], id);
      RemoveLinesUnique(items[1..], id);
      assert UniqueIds(items[1..]);
      assert RemoveLines(items, id) == (if items[0].cartId != id then [items[0]] else []) + rest;
      assert forall j :: 0 <= j < |rest| ==> rest[j] in items[1..];
      assert forall j :: 0 <= j < |rest| ==> rest[j].cartId != items[0].cartId;
    }
  }

  /**
   * The item list after `updateQuantity`: the first line with that identity
   * takes quantity + delta when that is positive; otherwise, or when no line
   * has that identity, nothing changes.
   */
  function UpdateLines(items: seq<CartLine>, id: string, delta: int): (r: seq<CartLine>)
    ensures |r| == |items|
    ensures FindLine(items, id).None? ==> r == items
    ensures FindLine(items, id).Some? ==>
      var i := FindLine(items, id).value;
      && (items[i].quantity + delta > 0 ==> r == items[i := WithQuantity(items[i], items[i].quantity + delta)])
      && (items[i].quantity + delta <= 0 ==> r == items)
  {
    match FindLine(items, id)
    case None => items
    case Some(i) =>
      if items[i].quantity + delta > 0 then items[i := WithQuantity(items[i], items[i].quantity + delta)] else items
  }

  /** Updating a quantity keeps the cart's invariants; quantities never drop below one. */
  lemma UpdateLinesPreserves(items: seq<CartLine>, id: string, delta: int)
    requires UniqueIds(items) && TotalsConsistent(items)
    ensures UniqueIds(UpdateLines(items, id, delta)) && TotalsConsistent(UpdateLines(items, id, delta))
    ensures PositiveQuantities(items) ==> PositiveQuantities(UpdateLines(items, id, delta))
  {
    var f := FindLine(items, id);
    if f.Some? && items[f.value].quantity + delta > 0 {
      var i := f.value;
      ReplaceLinePreserves(items, i, WithQuantity(items[i], items[i].quantity + delta));
    }
  }

  /* ---------------------------------------------------------------------
     Subtotal (a derived read, never stored)
     --------------------------------------------------------------------- */

  /** `items.reduce((acc, i) => acc + i.totalPrice, 0)`. */
  function Subtotal(items: seq<CartLine>): real {
    if items == [] then 0.0 else items[0].totalPrice + Subtotal(items[1..])
  }

  /** With no negative line total the subtotal is not negative. */
  lemma {:induction false} SubtotalNonNegative(items: seq<CartLine>)
    requires forall i :: 0 <= i < |items| ==> items[i].totalPrice >= 0.0
    ensures Subtotal(items) >= 0.0
  {
    if items != [] {
      SubtotalNonNegative(items[1..]);
    }
  }

  lemma {:induction false} SubtotalAppend(a: seq<CartLine>, b: seq<CartLine>)
    ensures Subtotal(a + b) == Subtotal(a) + Subtotal(b)
  {
    if a == [] {
      assert a + b == b;
    } else {
      assert (a + b)[0] == a[0];
      assert (a + b)[1..] == a[1..] + b;
      SubtotalAppend(a[1..], b);
    }
  }

  /** Replacing one line changes the subtotal by the difference of the two totals. */
  lemma {:induction false} SubtotalReplace(items: seq<CartLine>, i: nat, l: CartLine)
    requires i < |items|
    ensures Subtotal(items[i := l]) == Subtotal(items) - items[i].totalPrice + l.totalPrice
  {
    if i > 0 {
      assert items[i := l][1..] == items[1..][i - 1 := l];
      SubtotalReplace(items[1..], i - 1, l);
    }
  }

  /**
   * Adding `quantity` units of a configuration already in the cart raises
   * the subtotal by `quantity` times the unit price frozen in that line,
   * whatever the product costs now.
   */
  lemma SubtotalAfterMerge(items: seq<CartLine>, item: MenuItem, size: Option<SizeOption>, names: seq<string>, quantity: int, i: nat)
    requires TotalsConsistent(items)
    requires FindLine(items, CartId(item.id, size, names)) == Some(i)
    ensures Subtotal(AddLine(items, item, size, names, quantity)) == Subtotal(items) + Scale(items[i].unitPrice, quantity)
  {
    var r := AddLine(items, item, size, names, quantity);
    var l := WithQuantity(items[i], items[i].quantity + quantity);
    assert |r| == |items| && r[i] == l;
    assert forall j :: 0 <= j < |items| && j != i ==> r[j] == items[j];
    assert r == items[i := l];
    SubtotalGrowLine(items, i, quantity);
  }

  /** Growing one line by `quantity` units adds that many unit prices to the subtotal. */
  lemma SubtotalGrowLine(items: seq<CartLine>, i: nat, quantity: int)
    requires TotalsConsistent(items) && i < |items|
    ensures Subtotal(items[i := WithQuantity(items[i], items[i].quantity + quantity)])
         == Subtotal(items) + Scale(items[i].unitPrice, quantity)
  {
    var u, q0 := items[i].unitPrice, items[i].quantity;
    var l := WithQuantity(items[i], q0 + quantity);
    assert l.unitPrice == u;
    assert items[i].totalPrice == Scale(u, q0);
    SubtotalReplace(items, i, l);
    ScaleAdd(u, q0, quantity);
  }

  /** A first-time add raises the subtotal by `quantity` times the configuration's unit price. */
  lemma SubtotalAfterAppend(items: seq<CartLine>, item: MenuItem, size: Option<SizeOption>, names: seq<string>, quantity: int)
    requires FindLine(items, CartId(item.id, size, names)).None?
    ensures Subtotal(AddLine(items, item, size, names, quantity)) == Subtotal(items) + Scale(UnitPrice(item, size, names), quantity)
  {
    var l := NewLine(item, size, names, quantity);
    assert AddLine(items, item, size, names, quantity) == items + [l];
    SubtotalAppend(items, [l]);
    assert Subtotal([l]) == l.totalPrice;
  }

  /**
   * Two adds of the same product and size whose extra names are permutations
   * of each other, into a cart that held no such line, leave exactly one
   * line for that configuration, holding the sum of the two quantities.
   */
  lemma AddTwiceMerges(items: seq<CartLine>, item: MenuItem, size: Option<SizeOption>, a: seq<string>, b: seq<string>, q1: int, q2: int)
    requires multiset(a) == multiset(b)
    requires FindLine(items, CartId(item.id, size, a)).None?
    ensures var r := AddLine(AddLine(items, item, size, a, q1), item, size, b, q2);
      && |r| == |items| + 1
      && r[..|items|] == items
      && r[|items|].cartId == CartId(item.id, size, a)
      && r[|items|].quantity == q1 + q2
      && r[|items|].totalPrice == Scale(r[|items|].unitPrice, q1 + q2)
      && r[|items|].unitPrice == UnitPrice(item, size, a)
  {
    var id := CartId(item.id, size, a);
    CartIdPermutationInvariant(item.id, size, a, b);
    var once := AddLine(items, item, size, a, q1);
    assert once == items + [NewLine(item, size, a, q1)];
    assert once[|items|].cartId == id;
    assert FindLine(once, id) == Some(|items|);
    var r := AddLine(once, item, size, b, q2);
    assert r == once[|items| := WithQuantity(once[|items|], q1 + q2)];
  }

  /**
   * Adding the same product in two configurations with different identities
   * gives two lines, each with the unit price of its own configuration.
   */
  lemma AddDifferentSplits(items: seq<CartLine>, item: MenuItem, s1: Option<SizeOption>, a: seq<string>, s2: Option<SizeOption>, b: seq<string>, q1: int, q2: int)
    requires CartId(item.id, s1, a) != CartId(item.id, s2, b)
    requires FindLine(items, CartId(item.id, s1, a)).None?
    requires FindLine(items, CartId(item.id, s2, b)).None?
    ensures var r := AddLine(AddLine(items, item, s1, a, q1), item, s2, b, q2);
      && |r| == |items| + 2
      && r[|items|] == NewLine(item, s1, a, q1)
      && r[|items| + 1] == NewLine(item, s2, b, q2)
  {
    var once := AddLine(items, item, s1, a, q1);
    assert FindLine(once, CartId(item.id, s2, b)).None?;
  }

  /* ---------------------------------------------------------------------
     The store
     --------------------------------------------------------------------- */

  class CartStore {
    var items: seq<CartLine>
    var isCheckoutOpen: bool

    /** Identities are unique and every total equals unit price times quantity. */
    ghost predicate Valid()
      reads this
    {
      UniqueIds(items) && TotalsConsistent(items)
    }

    /** The initial state: an empty cart with the checkout panel closed. */
    constructor ()
      ensures Valid()
      ensures items == [] && !isCheckoutOpen
    {
      items := [];
      isCheckoutOpen := false;
    }

    /** `addToCart`: merge into the line with the same identity, or append a new line. */
    method AddToCart(item: MenuItem, size: Option<SizeOption>, names: seq<string>, quantity: int)
      requires Valid()
      modifies this
      ensures Valid()
      ensures items == AddLine(old(items), item, size, names, quantity)
      ensures isCheckoutOpen == old(isCheckoutOpen)
      ensures PositiveQuantities(old(items)) && quantity >= 1 ==> PositiveQuantities(items)
    {
      AddLinePreserves(items, item, size, names, quantity);
      var cartId := CartId(item.id, size, names);
      var existing := FindLine(items, cartId);
      if existing.Some? {
        var i := existing.value;
        var line := items[i];
        line := line.(quantity := line.quantity + quantity);
        line := line.(totalPrice := Scale(line.unitPrice, line.quantity));
        assert line == WithQuantity(items[i], items[i].quantity + quantity);
        items := items[i := line];
      } else {
        var unitPrice := UnitPrice(item, size, names);
        var line := CartLine(cartId, item.id, item.name, item.image, size,
                             ResolvedExtras(item.extras, names), quantity,
                             unitPrice, Scale(unitPrice, quantity));
        assert line == NewLine(item, size, names, quantity);
        items := items + [line];
      }
    }

    /** `removeFromCart`: drop every line with this identity. */
    method RemoveFromCart(id: string)
      requires Valid()
      modifies this
      ensures Valid()
      ensures items == RemoveLines(old(items), id)
      ensures isCheckoutOpen == old(isCheckoutOpen)
      ensures PositiveQuantities(old(items)) ==> PositiveQuantities(items)
    {
      RemoveLinesPreserves(items, id);
      items := Filter(items, (l: CartLine) => l.cartId != id);
    }

    /** `updateQuantity`: apply the delta unless the quantity would drop to zero or below. */
    method UpdateQuantity(id: string, delta: int)
      requires Valid()
      modifies this
      ensures Valid()
      ensures items == UpdateLines(old(items), id, delta)
      ensures isCheckoutOpen == old(isCheckoutOpen)
      ensures PositiveQuantities(old(items)) ==> PositiveQuantities(items)
    {
      UpdateLinesPreserves(items, id, delta);
      var found := FindLine(items, id);
      if found.Some? {
        var i := found.value;
        var newQuantity := items[i].quantity + delta;
        if newQuantity > 0 {
          var line := items[i].(quantity := newQuantity);
          line := line.(totalPrice := Scale(line.unitPrice, line.quantity));
          assert line == WithQuantity(items[i], newQuantity);
          items := items[i := line];
        }
      }
    }

    /** `clearCart`: empty the list; the panel flag is untouched. */
    method ClearCart()
      modifies this
      ensures Valid()
      ensures items == [] && isCheckoutOpen == old(isCheckoutOpen)
    {
      items := [];
    }

    /** `toggleCheckout(open)`: set the panel flag; the lines are untouched. */
    method ToggleCheckout(open: bool)
      modifies this
      ensures isCheckoutOpen == open && items == old(items)
    {
      isCheckoutOpen := open;
    }
  }
}
