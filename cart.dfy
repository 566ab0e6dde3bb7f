/** The cart screen: a list of lines whose quantities the user steps up and down, lines the
    user removes, and the price summary derived from the list. Prices are integer paise. */
module Cart {
  import opened Wrappers
  import Seqs
  import Quantity

  /** One cart line; `price` is in paise. */
  datatype CartItem = CartItem(id: string, name: string, price: nat, quantity: int, seller: Option<string>)

  /** The delivery fee, in paise: a constant 0 on this screen. */
  const DeliveryFee: nat := 0

  /** The two lines the screen starts with: 24.68 x 2 and 40.88 x 1. */
  function InitialItems(): seq<CartItem> {
    [ CartItem("1", "Limcee Chewable Natural Vitamin C Tablets", 2468, 2, Some("pharmacy")),
      CartItem("2", "Neurobion Forte - Strip of 30 Tablets", 4088, 1, Some("pharmacy")) ]
  }

  /** Every line's quantity is at least 1. */
  ghost predicate QuantitiesPositive(items: seq<CartItem>) {
    forall i :: 0 <= i < |items| ==> items[i].quantity >= 1
  }

  /** One line after `updateQuantity(id, change)`. */
  function ChangeLine(item: CartItem, id: string, change: int): CartItem {
    if item.id == id then item.(quantity := Quantity.Step(item.quantity, change)) else item
  }

  /** The list after `updateQuantity(id, change)`: `items.map(ChangeLine)`. */
  function WithQuantityChange(items: seq<CartItem>, id: string, change: int): seq<CartItem> {
    if items == [] then [] else [ChangeLine(items[0], id, change)] + WithQuantityChange(items[1..], id, change)
  }

  /** `updateQuantity` keeps the length and the order; a line with the id gets
      `max(1, quantity + change)` and keeps every other field; any other line is untouched. */
  lemma {:induction false} QuantityChangeAt(items: seq<CartItem>, id: string, change: int, i: nat)
    requires i < |items|
    ensures |WithQuantityChange(items, id, change)| == |items|
    ensures var r := WithQuantityChange(items, id, change)[i];
      if items[i].id == id then
        r == items[i].(quantity := Quantity.Step(items[i].quantity, change)) && r.quantity >= 1
      else r == items[i]
  {
    QuantityChangeLength(items, id, change);
    if i > 0 {
      QuantityChangeAt(items[1..], id, change, i - 1);
    }
  }

  lemma {:induction false} QuantityChangeLength(items: seq<CartItem>, id: string, change: int)
    ensures |WithQuantityChange(items, id, change)| == |items|
  {
    if items != [] {
      QuantityChangeLength(items[1..], id, change);
    }
  }

  /** `updateQuantity` with an id no line has leaves the list as it was. */
  lemma {:induction false} QuantityChangeUnknownId(items: seq<CartItem>, id: string, change: int)
    requires forall i :: 0 <= i < |items| ==> items[i].id != id
    ensures WithQuantityChange(items, id, change) == items
  {
    if items != [] {
      QuantityChangeUnknownId(items[1..], id, change);
      assert [items[0]] + items[1..] == items;
    }
  }

  /** `updateQuantity` keeps every quantity at least 1. */
  lemma QuantityChangeKeepsPositive(items: seq<CartItem>, id: string, change: int)
    requires QuantitiesPositive(items)
    ensures QuantitiesPositive(WithQuantityChange(items, id, change))
  {
    QuantityChangeLength(items, id, change);
    forall i | 0 <= i < |items|
      ensures WithQuantityChange(items, id, change)[i].quantity >= 1
    {
      QuantityChangeAt(items, id, change, i);
    }
  }

  /** The list after `removeItem(id)`: `items.filter(item => item.id !== id)`. */
  function WithoutItem(items: seq<CartItem>, id: string): seq<CartItem> {
    Seqs.Filter(items, (item: CartItem) => item.id != id)
  }

  /** `removeItem` keeps exactly the lines whose id differs, in their original order. */
  lemma RemoveKeepsOthers(items: seq<CartItem>, id: string)
    ensures var r := WithoutItem(items, id);
      && (forall i :: 0 <= i < |r| ==> r[i].id != id && r[i] in items)
      && (forall i :: 0 <= i < |items| && items[i].id != id ==> items[i] in r)
      && Seqs.IsSubsequence(r, items)
  {
    Seqs.FilterIsSubsequence(items, (item: CartItem) => item.id != id);
  }

  /** Removing the same id twice is removing it once. */
  lemma RemoveIdempotent(items: seq<CartItem>, id: string)
    ensures WithoutItem(WithoutItem(items, id), id) == WithoutItem(items, id)
  {
    Seqs.FilterIdempotent(items, (item: CartItem) => item.id != id);
  }

  /** Removing an id no line has leaves the list as it was. */
  lemma RemoveUnknownId(items: seq<CartItem>, id: string)
    requires forall i :: 0 <= i < |items| ==> items[i].id != id
    ensures WithoutItem(items, id) == items
  {
    Seqs.FilterAllKept(items, (item: CartItem) => item.id != id);
  }

  /** `removeItem` keeps every quantity at least 1. */
  lemma RemoveKeepsPositive(items: seq<CartItem>, id: string)
    requires QuantitiesPositive(items)
    ensures QuantitiesPositive(WithoutItem(items, id))
  {
    var r := WithoutItem(items, id);
    forall i | 0 <= i < |r| ensures r[i].quantity >= 1 {
      var j :| 0 <= j < |items| && items[j] == r[i];
    }
  }

  /** The `reduce` behind the subtotal: a left fold from the running sum `acc`. */
  function SubtotalFrom(acc: int, items: seq<CartItem>): int
    decreases |items|
  {
    if items == [] then acc else SubtotalFrom(acc + items[0].price * items[0].quantity, items[1..])
  }

  /** `cartItems.reduce((sum, item) => sum + item.price * item.quantity, 0)`, in paise. */
  function Subtotal(items: seq<CartItem>): int {
    SubtotalFrom(0, items)
  }

  /** The total shown under the subtotal. */
  function Total(items: seq<CartItem>): int {
    Subtotal(items) + DeliveryFee
  }

  /** The sum of price x quantity over the lines, written as a recursion from the front. */
  ghost function LineSum(items: seq<CartItem>): int {
    if items == [] then 0 else items[0].price * items[0].quantity + LineSum(items[1..])
  }

  lemma {:induction false} SubtotalFromIsLineSum(acc: int, items: seq<CartItem>)
    ensures SubtotalFrom(acc, items) == acc + LineSum(items)
    decreases |items|
  {
    if items != [] {
      SubtotalFromIsLineSum(acc + items[0].price * items[0].quantity, items[1..]);
    }
  }

  /** The subtotal is the sum of price x quantity over the lines; the empty cart gives 0. */
  lemma SubtotalIsLineSum(items: seq<CartItem>)
    ensures Subtotal(items) == LineSum(items)
    ensures items == [] ==> Subtotal(items) == 0
  {
    SubtotalFromIsLineSum(0, items);
  }

  lemma {:induction false} LineSumAppend(a: seq<CartItem>, b: seq<CartItem>)
    ensures LineSum(a + b) == LineSum(a) + LineSum(b)
  {
    if a == [] {
      assert a + b == b;
    } else {
      assert (a + b)[1..] == a[1..] + b;
      LineSumAppend(a[1..], b);
    }
  }

  /** The subtotal of a list split in two is the sum of the parts' subtotals. */
  lemma SubtotalAppend(a: seq<CartItem>, b: seq<CartItem>)
    ensures Subtotal(a + b) == Subtotal(a) + Subtotal(b)
  {
    SubtotalIsLineSum(a + b);
    SubtotalIsLineSum(a);
    SubtotalIsLineSum(b);
    LineSumAppend(a, b);
  }

  /** With positive quantities the subtotal is never negative. */
  lemma {:induction false} SubtotalNonNegative(items: seq<CartItem>)
    requires QuantitiesPositive(items)
    ensures Subtotal(items) >= 0
  {
    SubtotalIsLineSum(items);
    LineSumNonNegative(items);
  }

  lemma {:induction false} LineSumNonNegative(items: seq<CartItem>)
    requires QuantitiesPositive(items)
    ensures LineSum(items) >= 0
  {
    if items != [] {
      assert QuantitiesPositive(items[1..]) by {
        forall i | 0 <= i < |items| - 1 ensures items[1..][i].quantity >= 1 {
          assert items[1..][i] == items[i + 1];
        }
      }
      LineSumNonNegative(items[1..]);
    }
  }

  /** What the Delivery Fee row shows. */
  datatype FeeDisplay = Free | Amount(paise: nat)

  function FeeLabel(fee: nat): (d: FeeDisplay)
    ensures d == Free <==> fee == 0
    ensures fee != 0 ==> d == Amount(fee)
  {
    if fee == 0 then Free else Amount(fee)
  }

  /** The total is the subtotal plus the fee; with the fee 0 they are equal and the fee reads FREE. */
  lemma TotalIsSubtotal(items: seq<CartItem>)
    ensures Total(items) == Subtotal(items) + DeliveryFee
    ensures Total(items) == Subtotal(items) && FeeLabel(DeliveryFee) == Free
  {
  }

  /** The sample cart: 24.68 x 2 + 40.88 x 1 = 90.24, and the total is the same. */
  lemma InitialTotals()
    ensures Subtotal(InitialItems()) == 9024 && Total(InitialItems()) == 9024
  {
    var items := InitialItems();
    assert items[1..][1..] == [];
    assert SubtotalFrom(0, items) == SubtotalFrom(4936, items[1..]) == SubtotalFrom(9024, []);
  }

  /** A user action on the cart: a stepper press or the trash button. */
  datatype CartAction = ChangeQuantity(id: string, change: int) | RemoveLine(id: string)

  function Apply(items: seq<CartItem>, a: CartAction): seq<CartItem> {
    match a
    case ChangeQuantity(id, change) => WithQuantityChange(items, id, change)
    case RemoveLine(id) => WithoutItem(items, id)
  }

  function ApplyAll(items: seq<CartItem>, actions: seq<CartAction>): seq<CartItem>
    decreases |actions|
  {
    if actions == [] then items else ApplyAll(Apply(items, actions[0]), actions[1..])
  }

  /** Starting from quantities at least 1, any sequence of updates and removals keeps them so. */
  lemma {:induction false} ActionsKeepPositive(items: seq<CartItem>, actions: seq<CartAction>)
    requires QuantitiesPositive(items)
    ensures QuantitiesPositive(ApplyAll(items, actions))
    decreases |actions|
  {
    if actions != [] {
      match actions[0] {
        case ChangeQuantity(id, change) => QuantityChangeKeepsPositive(items, id, change);
        case RemoveLine(id) => RemoveKeepsPositive(items, id);
      }
      ActionsKeepPositive(Apply(items, actions[0]), actions[1..]);
    }
  }

  /** The screen's state: the `cartItems` list, replaced by each handler. */
  class CartScreen {
    var items: seq<CartItem>

    ghost predicate Valid()
      reads this
    {
      QuantitiesPositive(items)
    }

    constructor ()
      ensures items == InitialItems() && Valid()
    {
      items := InitialItems();
    }

    /** The minus (`change` = -1) and plus (`change` = 1) buttons of one line. */
    method UpdateQuantity(id: string, change: int)
      modifies this
      ensures items == WithQuantityChange(old(items), id, change)
      ensures old(Valid()) ==> Valid()
    {
      if Valid() {
        QuantityChangeKeepsPositive(items, id, change);
      }
      items := WithQuantityChange(items, id, change);
    }

    /** The trash button of one line. */
    method RemoveItem(id: string)
      modifies this
      ensures items == WithoutItem(old(items), id)
      ensures old(Valid()) ==> Valid()
    {
      if Valid() {
        RemoveKeepsPositive(items, id);
      }
      items := WithoutItem(items, id);
    }

    /** The screen shows "Your cart is empty" instead of the lines and the summary. */
    function ShowsEmptyCart(): (b: bool)
      reads this
      ensures b ==> Subtotal(items) == 0 && Total(items) == 0
      ensures b <==> |items| == 0
    {
      |items| == 0
    }
  }
}
