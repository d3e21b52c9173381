/**
 * The shopping cart of the coffee-shop page: an ordered list of
 * `{name, price, quantity}` entries that add-to-cart merges by name,
 * `removeFromCart` splices by position, `updateCart` totals, and checkout
 * turns into an order message.
 */
module Cart {
  import opened Wrappers
  import Decimal

  /** One cart entry. Prices are whole rupiah read from the button's data attribute. */
  datatype Item = Item(name: string, price: nat, quantity: nat)

  /** `item.price * item.quantity`, the amount shown for one entry. */
  function LineTotal(item: Item): nat {
    item.price * item.quantity
  }

  /** The cart invariant: every quantity is at least 1 and no two entries share a name. */
  predicate WellFormed(items: seq<Item>) {
    && (forall i :: 0 <= i < |items| ==> items[i].quantity >= 1)
    && (forall i, j :: 0 <= i < j < |items| ==> items[i].name != items[j].name)
  }

  /** The position of the first entry named `name`, as `cart.find` locates it. */
  function IndexOf(items: seq<Item>, name: string): (r: Option<nat>)
    ensures r.Some? ==> r.value < |items| && items[r.value].name == name
    ensures r.Some? ==> forall k :: 0 <= k < r.value ==> items[k].name != name
    ensures r.None? <==> forall k :: 0 <= k < |items| ==> items[k].name != name
  {
    if items == [] then None
    else if items[0].name == name then Some(0)
    else match IndexOf(items[1..], name)
      case None => None
      case Some(k) => Some(k + 1)
  }

  /** The linear search behind `cart.find(cartItem => cartItem.name === item)`. */
  method Find(items: seq<Item>, name: string) returns (found: Option<nat>)
    ensures found == IndexOf(items, name)
  {
    var i := 0;
    while i < |items|
      invariant 0 <= i <= |items|
      invariant forall k :: 0 <= k < i ==> items[k].name != name
    {
      if items[i].name == name {
        return Some(i);
      }
      i := i + 1;
    }
    return None;
  }

  /** The cart after one add-to-cart click: bump the entry with that name, or append a fresh one. */
  function Added(items: seq<Item>, name: string, price: nat): seq<Item> {
    match IndexOf(items, name)
    case Some(k) => items[k := items[k].(quantity := items[k].quantity + 1)]
    case None => items + [Item(name, price, 1)]
  }

  /** The cart after `cart.splice(index, 1)`; an index past the end changes nothing. */
  function Removed(items: seq<Item>, index: nat): seq<Item> {
    if index < |items| then items[..index] + items[index + 1..] else items
  }

  /** The sum of price × quantity over the cart, accumulated front to back as `updateCart` does. */
  function Sum(items: seq<Item>): nat {
    if items == [] then 0 else Sum(items[..|items| - 1]) + LineTotal(items[|items| - 1])
  }

  lemma {:induction false} SumAppend(a: seq<Item>, b: seq<Item>)
    ensures Sum(a + b) == Sum(a) + Sum(b)
  {
    if b == [] {
      assert a + b == a;
    } else {
      var b' := b[..|b| - 1];
      assert (a + b)[..|a + b| - 1] == a + b';
      SumAppend(a, b');
    }
  }

  /** Replacing one entry changes the total by the difference of the two line totals. */
  lemma SumReplace(items: seq<Item>, k: nat, x: Item)
    requires k < |items|
    ensures Sum(items[k := x]) + LineTotal(items[k]) == Sum(items) + LineTotal(x)
  {
    var pre, post := items[..k], items[k + 1..];
    assert items == pre + [items[k]] + post;
    assert items[k := x] == pre + [x] + post;
    SumAppend(pre + [items[k]], post);
    SumAppend(pre + [x], post);
    SumAppend(pre, [items[k]]);
    SumAppend(pre, [x]);
  }

  /** With unique names, the entry found by name is the only one bearing it. */
  lemma IndexOfUnique(items: seq<Item>, name: string, k: nat)
    requires WellFormed(items)
    requires k < |items| && items[k].name == name
    ensures IndexOf(items, name) == Some(k)
  {
    var r := IndexOf(items, name);
    if r.Some? {
      var i := r.value;
      assert items[i].name == items[k].name;
    }
  }

  /** Adding a name already in the cart raises that entry's quantity by exactly one and leaves every other entry and the order alone; the total rises by the entry's own price, not by the price passed in. */
  lemma AddExisting(items: seq<Item>, name: string, price: nat, k: nat)
    requires WellFormed(items)
    requires k < |items| && items[k].name == name
    ensures |Added(items, name, price)| == |items|
    ensures Added(items, name, price)[k] == Item(name, items[k].price, items[k].quantity + 1)
    ensures forall j :: 0 <= j < |items| && j != k ==> Added(items, name, price)[j] == items[j]
    ensures Sum(Added(items, name, price)) == Sum(items) + items[k].price
  {
    AddedBumps(items, name, price, k);
    SumBump(items, k);
  }

  /** One more of entry k raises the total by that entry's price. */
  lemma SumBump(items: seq<Item>, k: nat)
    requires k < |items|
    ensures Sum(items[k := items[k].(quantity := items[k].quantity + 1)]) == Sum(items) + items[k].price
  {
    LineTotalBump(items[k]);
    SumReplace(items, k, items[k].(quantity := items[k].quantity + 1));
  }

  /** With unique names, adding a present name replaces its entry by the bumped one. */
  lemma AddedBumps(items: seq<Item>, name: string, price: nat, k: nat)
    requires WellFormed(items)
    requires k < |items| && items[k].name == name
    ensures Added(items, name, price) == items[k := items[k].(quantity := items[k].quantity + 1)]
  {
    IndexOfUnique(items, name, k);
  }

  /** One more of an entry adds its price once to its line total. */
  lemma LineTotalBump(item: Item)
    ensures LineTotal(item.(quantity := item.quantity + 1)) == LineTotal(item) + item.price
  {
    var p, q := item.price, item.quantity;
    assert p * (q + 1) == p * q + p;
  }

  /** Adding a name not yet in the cart appends `{name, price, quantity: 1}` after the existing entries. */
  lemma AddNew(items: seq<Item>, name: string, price: nat)
    requires forall k :: 0 <= k < |items| ==> items[k].name != name
    ensures Added(items, name, price) == items + [Item(name, price, 1)]
    ensures Sum(Added(items, name, price)) == Sum(items) + price
  {
    SumAppend(items, [Item(name, price, 1)]);
    assert Sum([Item(name, price, 1)]) == price by {
      assert [Item(name, price, 1)][..0] == [];
    }
  }

  /** Add-to-cart keeps names unique and quantities at least 1. */
  lemma AddedWellFormed(items: seq<Item>, name: string, price: nat)
    requires WellFormed(items)
    ensures WellFormed(Added(items, name, price))
  {
  }

  /** Removing a valid position takes out exactly that entry and keeps the rest in their order; the total drops by its line total. */
  lemma RemoveAt(items: seq<Item>, index: nat)
    requires index < |items|
    ensures |Removed(items, index)| == |items| - 1
    ensures forall j :: 0 <= j < index ==> Removed(items, index)[j] == items[j]
    ensures forall j :: index <= j < |items| - 1 ==> Removed(items, index)[j] == items[j + 1]
    ensures multiset(Removed(items, index)) + multiset{items[index]} == multiset(items)
    ensures Sum(Removed(items, index)) + LineTotal(items[index]) == Sum(items)
  {
    var pre, post := items[..index], items[index + 1..];
    assert items == pre + [items[index]] + post;
    SumRemove(pre, items[index], post);
  }

  /** Taking one entry out of the middle lowers the total by its line total. */
  lemma SumRemove(pre: seq<Item>, x: Item, post: seq<Item>)
    ensures Sum(pre + post) + LineTotal(x) == Sum(pre + [x] + post)
  {
    SumAppend(pre + [x], post);
    SumAppend(pre, [x]);
    SumAppend(pre, post);
    assert Sum([x]) == LineTotal(x) by {
      assert [x][..0] == [];
    }
  }

  /** Removing keeps names unique and quantities at least 1. */
  lemma RemovedWellFormed(items: seq<Item>, index: nat)
    requires WellFormed(items)
    ensures WellFormed(Removed(items, index))
  {
    if index < |items| {
      RemoveAt(items, index);
      var r := Removed(items, index);
      forall i, j | 0 <= i < j < |r| ensures r[i].name != r[j].name {
        var i' := if i < index then i else i + 1;
        var j' := if j < index then j else j + 1;
        assert r[i] == items[i'] && r[j] == items[j'];
      }
    }
  }

  /** The total of an empty cart is 0, the same name added twice makes one entry of quantity 2, and removing the only entry empties the cart. */
  lemma {:induction false} LatteTwice()
    ensures Sum([]) == 0
    ensures Removed([Item("Latte", 25000, 2)], 0) == []
    ensures Added(Added([], "Latte", 25000), "Latte", 25000) == [Item("Latte", 25000, 2)]
    ensures Sum([Item("Latte", 25000, 2), Item("Espresso", 18000, 1)]) == 68000
  {
    AddNew([], "Latte", 25000);
    AddExisting([Item("Latte", 25000, 1)], "Latte", 25000, 0);
    var two := [Item("Latte", 25000, 2), Item("Espresso", 18000, 1)];
    assert two[..1] == [Item("Latte", 25000, 2)];
    assert two[..1][..0] == [];
  }

  /** One line of the order message: name, quantity and price × quantity. */
  datatype OrderLine = OrderLine(name: string, quantity: nat, amount: nat)

  /** What checkout hands over: one line per cart entry, and the grand total. */
  datatype OrderSummary = OrderSummary(lines: seq<OrderLine>, total: nat)

  /** Checkout's one refusal: the cart is empty. */
  datatype CheckoutError = EmptyCart

  function LineOf(item: Item): OrderLine {
    OrderLine(item.name, item.quantity, LineTotal(item))
  }

  /** The order lines of a cart, in cart order. */
  function Lines(items: seq<Item>): seq<OrderLine> {
    seq(|items|, k requires 0 <= k < |items| => LineOf(items[k]))
  }

  /** The sum of the amounts printed on the order lines. */
  function AmountSum(lines: seq<OrderLine>): nat {
    if lines == [] then 0 else AmountSum(lines[..|lines| - 1]) + lines[|lines| - 1].amount
  }

  /** The amounts on the order lines add up to the cart total. */
  lemma {:induction false} AmountSumOfLines(items: seq<Item>)
    ensures AmountSum(Lines(items)) == Sum(items)
  {
    var ls := Lines(items);
    if items != [] {
      var front := items[..|items| - 1];
      AmountSumOfLines(front);
      assert ls[..|ls| - 1] == Lines(front);
    }
  }

  /** `${item.name} x${item.quantity} = Rp ${amount}`, with the currency formatting passed in as `fmt`. */
  function LineText(line: OrderLine, fmt: nat -> string): string {
    line.name + " x" + Decimal.ToDecimal(line.quantity) + " = Rp " + fmt(line.amount)
  }

  /** The order lines joined with newlines, as `.map(...).join('\n')` does. */
  function JoinLines(lines: seq<OrderLine>, fmt: nat -> string): string {
    if lines == [] then ""
    else if |lines| == 1 then LineText(lines[0], fmt)
    else LineText(lines[0], fmt) + "\n" + JoinLines(lines[1..], fmt)
  }

  /** A further entry adds its line after the others, separated by one newline: the message keeps cart order. */
  lemma {:induction false} JoinLinesAppend(lines: seq<OrderLine>, line: OrderLine, fmt: nat -> string)
    requires lines != []
    ensures JoinLines(lines + [line], fmt) == JoinLines(lines, fmt) + "\n" + LineText(line, fmt)
  {
    if |lines| > 1 {
      assert (lines + [line])[1..] == lines[1..] + [line];
      JoinLinesAppend(lines[1..], line, fmt);
    } else {
      assert (lines + [line])[1..] == [line];
    }
  }

  /** The order message handed to the messaging link. */
  function Message(order: OrderSummary, fmt: nat -> string): string {
    "Order Details:\n" + JoinLines(order.lines, fmt) + "\n\nTotal: Rp " + fmt(order.total)
  }

  /** The single-line order of two lattes, whatever the currency formatting. */
  lemma LatteMessage(fmt: nat -> string)
    ensures var cart := [Item("Latte", 25000, 2)];
      Message(OrderSummary(Lines(cart), Sum(cart)), fmt)
         == "Order Details:\nLatte x2 = Rp " + fmt(50000) + "\n\nTotal: Rp " + fmt(50000)
  {
    var line := OrderLine("Latte", 2, 50000);
    LatteOrder();
    assert JoinLines([line], fmt) == LineText(line, fmt);
    assert Decimal.ToDecimal(2) == "2";
  }

  /** Two lattes make one order line of 50000 and a total of 50000. */
  lemma LatteOrder()
    ensures Lines([Item("Latte", 25000, 2)]) == [OrderLine("Latte", 2, 50000)]
    ensures Sum([Item("Latte", 25000, 2)]) == 50000
  {
    var cart := [Item("Latte", 25000, 2)];
    assert cart[..0] == [];
  }

  /** The cart state of `initCart`: the `cart` array and `cartTotal`. */
  class ShoppingCart {
    var items: seq<Item>
    var total: nat

    /** Names unique, quantities at least 1, and `cartTotal` in step with the entries. */
    ghost predicate Valid()
      reads this
    {
      WellFormed(items) && total == Sum(items)
    }

    constructor ()
      ensures Valid() && items == [] && total == 0
    {
      items := [];
      total := 0;
    }

    /** `updateCart`: recompute the total from zero over the entries. */
    method UpdateCart()
      modifies this
      ensures items == old(items)
      ensures total == Sum(items)
    {
      total := 0;
      var i := 0;
      while i < |items|
        invariant items == old(items)
        invariant 0 <= i <= |items|
        invariant total == Sum(items[..i])
      {
        assert items[..i + 1][..i] == items[..i];
        total := total + LineTotal(items[i]);
        i := i + 1;
      }
      assert items[..i] == items;
    }

    /** An add-to-cart click for the product `name` priced `price`. */
    method AddToCart(name: string, price: nat)
      requires Valid()
      modifies this
      ensures Valid()
      ensures items == Added(old(items), name, price)
    {
      AddedWellFormed(items, name, price);
      var existing := Find(items, name);
      match existing {
        case Some(k) =>
          items := items[k := items[k].(quantity := items[k].quantity + 1)];
        case None =>
          items := items + [Item(name, price, 1)];
      }
      UpdateCart();
    }

    /** `removeFromCart(index)`. */
    method RemoveFromCart(index: nat)
      requires Valid()
      modifies this
      ensures Valid()
      ensures items == Removed(old(items), index)
    {
      RemovedWellFormed(items, index);
      if index < |items| {
        items := items[..index] + items[index + 1..];
      }
      UpdateCart();
    }

    /** The checkout click: refuse an empty cart, otherwise list every entry in cart order with the grand total. */
    method Checkout() returns (r: Result<OrderSummary, CheckoutError>)
      requires Valid()
      ensures r.Failure? <==> items == []
      ensures r.Success? ==> |r.value.lines| == |items|
      ensures r.Success? ==> forall k :: 0 <= k < |items| ==>
                r.value.lines[k] == OrderLine(items[k].name, items[k].quantity, items[k].price * items[k].quantity)
      ensures r.Success? ==> r.value.total == Sum(items) && AmountSum(r.value.lines) == r.value.total
    {
      if |items| == 0 {
        return Failure(EmptyCart);
      }
      AmountSumOfLines(items);
      return Success(OrderSummary(Lines(items), total));
    }
  }

  /** A session at the counter, using only the cart's contracts. */
  method CounterSession() {
    var cart := new ShoppingCart();
    cart.AddToCart("Latte", 25000);
    LatteTwice();
    cart.AddToCart("Latte", 25000);
    assert cart.items == [Item("Latte", 25000, 2)];
    cart.RemoveFromCart(3);
    cart.RemoveFromCart(0);
    assert cart.items == [];
    var receipt := cart.Checkout();
    assert receipt.Failure?;
  }
}
