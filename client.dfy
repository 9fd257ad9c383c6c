/**
  The browser cart of the storefront page.  The page keeps one `Map` from
  product id to cart line, changes it only through the quantity update and
  the clear action, writes the stored quantities back onto the product
  cards, totals the cart for the cart panel and turns it into a WhatsApp
  order link.
*/
module Client {
  import opened Common
  import opened Lines
  import opened Text

  function Max0(n: int): nat {
    if n > 0 then n else 0
  }

  /** What the page keeps true of its cart: a map (distinct ids) with no line at zero or below. */
  predicate ValidCart(s: seq<CartLine>) {
    DistinctIds(s) && forall k :: 0 <= k < |s| ==> s[k].qty >= 1
  }

  /** `getQty`: the stored quantity, 0 for an absent id. */
  function QtyOf(s: seq<CartLine>, id: string): (q: int)
    ensures !Has(s, id) ==> q == 0
    ensures ValidCart(s) ==> q >= 0 && (q == 0 <==> !Has(s, id))
  {
    match Lookup(s, id)
    case Some(l) => l.qty
    case None => 0
  }

  /**
    The cart after `updateCart(id, name, price, delta)`: the stored line
    (or a fresh line built from the given name and price, at quantity 0)
    moves to `max(0, qty + delta)`; a line that reaches 0 is deleted.
  */
  function Updated(s: seq<CartLine>, id: string, name: string, price: nat, delta: int): seq<CartLine> {
    match IndexOf(s, id)
    case Some(k) =>
      var q := Max0(s[k].qty + delta);
      if q == 0 then RemoveAt(s, k) else s[k := s[k].(qty := q)]
    case None =>
      var q := Max0(delta);
      if q == 0 then s else s + [CartLine(id, name, price, q, None)]
  }

  /** The quantity each product card shows: its id's quantity in the cart. */
  function GridView(cardIds: seq<string>, s: seq<CartLine>): (r: seq<int>)
    ensures |r| == |cardIds|
    ensures forall i :: 0 <= i < |cardIds| ==> r[i] == QtyOf(s, cardIds[i])
  {
    seq(|cardIds|, i requires 0 <= i < |cardIds| => QtyOf(s, cardIds[i]))
  }

  /** `- name | price x qty = subtotal`, with `formatBRL` for both amounts. */
  function ClientItemLine(l: CartLine, formatBRL: int -> string): string {
    "- " + l.name + " | " + formatBRL(l.price) + " x " + IntToString(l.qty) + " = " + formatBRL(Subtotal(l))
  }

  function ClientLineFormat(formatBRL: int -> string): CartLine -> string {
    l => ClientItemLine(l, formatBRL)
  }

  function ClientTotalLine(total: int, formatBRL: int -> string): string {
    "*Total do pedido: " + formatBRL(total) + "*"
  }

  /** The lines `finalizeOrder` joins: greeting, one line per cart line in map order, blank, total. */
  function ClientOrderLines(s: seq<CartLine>, formatBRL: int -> string): (r: seq<string>)
    ensures |r| == |s| + 3 && r[0] == Greeting && r[|s| + 1] == ""
    ensures forall k :: 0 <= k < |s| ==> r[k + 1] == ClientItemLine(s[k], formatBRL)
    ensures r[|s| + 2] == ClientTotalLine(SumAmount(s), formatBRL)
  {
    OrderLines(s, ClientLineFormat(formatBRL), ClientTotalLine(SumAmount(s), formatBRL))
  }

  // ---------------------------------------------------------------------
  // Properties of the quantity update

  /** The update keeps the cart a map with every quantity at least one. */
  lemma UpdatedKeepsValid(s: seq<CartLine>, id: string, name: string, price: nat, delta: int)
    requires ValidCart(s)
    ensures ValidCart(Updated(s, id, name, price, delta))
  {
    match IndexOf(s, id)
    case Some(k) =>
      if Max0(s[k].qty + delta) == 0 {
        DistinctRemoveAt(s, k);
        var r := RemoveAt(s, k);
        forall j | 0 <= j < |r| ensures r[j].qty >= 1 {
          assert r[j] == (if j < k then s[j] else s[j + 1]);
        }
      } else {
        DistinctSetAt(s, k, s[k].(qty := Max0(s[k].qty + delta)));
      }
    case None =>
      if Max0(delta) != 0 {
        DistinctAppend(s, CartLine(id, name, price, Max0(delta), None));
      }
  }

  /** After the update, `getQty(id)` is `max(0, old quantity + delta)`. */
  lemma UpdatedQty(s: seq<CartLine>, id: string, name: string, price: nat, delta: int)
    requires ValidCart(s)
    ensures QtyOf(Updated(s, id, name, price, delta), id) == Max0(QtyOf(s, id) + delta)
  {
    match IndexOf(s, id)
    case Some(k) =>
      var q := Max0(s[k].qty + delta);
      if q == 0 {
        DistinctRemoveAt(s, k);
      } else {
        DistinctSetAt(s, k, s[k].(qty := q));
      }
    case None =>
      if Max0(delta) != 0 {
        DistinctAppend(s, CartLine(id, name, price, Max0(delta), None));
      }
  }

  /** The update touches only the line under `id`: every other line, and their order, stay. */
  lemma UpdatedOnlyTouchesId(s: seq<CartLine>, id: string, name: string, price: nat, delta: int)
    requires ValidCart(s)
    ensures Without(Updated(s, id, name, price, delta), id) == Without(s, id)
    ensures forall other :: other != id ==> Lookup(Updated(s, id, name, price, delta), other) == Lookup(s, other)
  {
    var t := Updated(s, id, name, price, delta);
    match IndexOf(s, id) {
    case Some(k) =>
      var q := Max0(s[k].qty + delta);
      if q == 0 {
        WithoutRemoveAt(s, k);
      } else {
        WithoutSetAt(s, k, s[k].(qty := q));
      }
    case None =>
      if Max0(delta) != 0 {
        WithoutAppend(s, CartLine(id, name, price, Max0(delta), None));
      }
    }
    forall other | other != id
      ensures Lookup(t, other) == Lookup(s, other)
    {
      LookupWithout(t, id, other);
      LookupWithout(s, id, other);
    }
  }

  /**
    A stored line keeps its name, price and position; only its quantity
    changes, and the name and price passed in are ignored.
  */
  lemma UpdatedExistingLine(s: seq<CartLine>, id: string, name: string, price: nat, delta: int)
    requires ValidCart(s) && Has(s, id)
    requires Lookup(s, id).value.qty + delta > 0
    ensures var e := Lookup(s, id).value;
      Lookup(Updated(s, id, name, price, delta), id) == Some(e.(qty := e.qty + delta))
    ensures IndexOf(Updated(s, id, name, price, delta), id) == IndexOf(s, id)
  {
    var k := IndexOf(s, id).value;
    DistinctSetAt(s, k, s[k].(qty := s[k].qty + delta));
  }

  /** An absent id with a positive delta gets a new line, built from the given name and price, at the end. */
  lemma UpdatedNewLine(s: seq<CartLine>, id: string, name: string, price: nat, delta: int)
    requires !Has(s, id) && delta > 0
    ensures Updated(s, id, name, price, delta) == s + [CartLine(id, name, price, delta, None)]
  {
  }

  /** An absent id with a delta of zero or less leaves the cart as it was. */
  lemma UpdatedAbsentNoChange(s: seq<CartLine>, id: string, name: string, price: nat, delta: int)
    requires !Has(s, id) && delta <= 0
    ensures Updated(s, id, name, price, delta) == s
  {
  }

  /** A line that drops to zero is deleted from the cart. */
  lemma UpdatedToZeroDeletes(s: seq<CartLine>, id: string, name: string, price: nat, delta: int)
    requires ValidCart(s) && QtyOf(s, id) + delta <= 0
    ensures !Has(Updated(s, id, name, price, delta), id)
    ensures Updated(s, id, name, price, delta) == Without(s, id)
  {
    match IndexOf(s, id)
    case Some(k) =>
      DistinctRemoveAt(s, k);
      WithoutAt(s, k);
    case None =>
      WithoutAbsent(s, id);
  }

  /**
    A line deleted and then added again goes to the end of the map, with
    the name and price read at the second add, not the frozen ones.
  */
  lemma ReaddedLineMovesToEnd(s: seq<CartLine>, id: string, name: string, price: nat, delta: int)
    requires ValidCart(s) && Has(s, id) && delta > 0
    ensures var e := Lookup(s, id).value;
      var t := Updated(Updated(s, id, e.name, e.price, -e.qty), id, name, price, delta);
      t == Without(s, id) + [CartLine(id, name, price, delta, None)] &&
      IndexOf(t, id) == Some(|s| - 1)
  {
    var e := Lookup(s, id).value;
    var k := IndexOf(s, id).value;
    assert QtyOf(s, id) == e.qty;
    var u := Updated(s, id, e.name, e.price, -e.qty);
    UpdatedToZeroDeletes(s, id, e.name, e.price, -e.qty);
    UpdatedKeepsValid(s, id, e.name, e.price, -e.qty);
    WithoutAt(s, k);
    assert |u| == |s| - 1;
    var l := CartLine(id, name, price, delta, None);
    UpdatedNewLine(u, id, name, price, delta);
    assert Updated(u, id, name, price, delta) == u + [l];
    DistinctAppend(u, l);
  }

  /** How the update moves the two totals the cart panel shows. */
  lemma UpdatedTotals(s: seq<CartLine>, id: string, name: string, price: nat, delta: int)
    requires ValidCart(s)
    ensures var q := QtyOf(s, id);
      var p := if Has(s, id) then Lookup(s, id).value.price else price;
      SumQty(Updated(s, id, name, price, delta)) == SumQty(s) - q + Max0(q + delta) &&
      SumAmount(Updated(s, id, name, price, delta)) == SumAmount(s) + p * (Max0(q + delta) - q)
  {
    match IndexOf(s, id) {
      case Some(k) =>
        var e := s[k];
        assert QtyOf(s, id) == e.qty && Lookup(s, id) == Some(e);
        var q := Max0(e.qty + delta);
        var t := Updated(s, id, name, price, delta);
        if q == 0 {
          assert t == RemoveAt(s, k);
          SumRemoveAt(s, k, Qty);
          SumRemoveAt(s, k, Subtotal);
        } else {
          assert t == s[k := e.(qty := q)];
          SumSetAt(s, k, e.(qty := q), Qty);
          SumSetAt(s, k, e.(qty := q), Subtotal);
        }
        MulSub(e.price, q, e.qty);
      case None =>
        var q := Max0(delta);
        var l := CartLine(id, name, price, q, None);
        if q != 0 {
          SumConcat(s, [l], Qty);
          SumConcat(s, [l], Subtotal);
        }
        MulSub(price, q, 0);
    }
  }

  lemma MulSub(p: int, a: int, b: int)
    ensures p * a - p * b == p * (a - b)
  {
  }

  /** Checkout is enabled (some unit in the cart) exactly when the cart has a line. */
  lemma CheckoutEnabledIffNonEmpty(s: seq<CartLine>)
    requires ValidCart(s)
    ensures SumQty(s) > 0 <==> |s| > 0
  {
    SumQtyAtLeastSize(s);
    if |s| == 0 {
      assert SumQty(s) == 0;
    }
  }

  /** After the cart is cleared every product card shows 0. */
  lemma GridViewOfEmptyCart(cardIds: seq<string>)
    ensures forall i :: 0 <= i < |cardIds| ==> GridView(cardIds, [])[i] == 0
  {
  }

  /** Two "+" on "A" at R$ 20,00, then one on "B" at R$ 5,50. */
  lemma AddTwoAOneB()
    ensures var s1 := Updated(Updated(Updated([], "A", "A", 2000, 1), "A", "A", 2000, 1), "B", "B", 550, 1);
      ValidCart(s1) && SumQty(s1) == 3 && SumAmount(s1) == 4550 &&
      Has(s1, "A") && Lookup(s1, "A").value.price == 2000 && QtyOf(s1, "A") == 2 && QtyOf(s1, "B") == 1
  {
    var s0 := Updated([], "A", "A", 2000, 1);
    UpdatedTotals([], "A", "A", 2000, 1);
    UpdatedKeepsValid([], "A", "A", 2000, 1);
    var s1a := Updated(s0, "A", "A", 2000, 1);
    UpdatedQty(s0, "A", "A", 2000, 1);
    UpdatedTotals(s0, "A", "A", 2000, 1);
    UpdatedKeepsValid(s0, "A", "A", 2000, 1);
    UpdatedExistingLine(s0, "A", "A", 2000, 1);
    UpdatedQty(s1a, "B", "B", 550, 1);
    UpdatedTotals(s1a, "B", "B", 550, 1);
    UpdatedKeepsValid(s1a, "B", "B", 550, 1);
    UpdatedOnlyTouchesId(s1a, "B", "B", 550, 1);
  }

  /** Two "-" on a cart holding 2 × "A" at R$ 20,00 and 1 × "B", worth R$ 45,50 in all. */
  lemma TakeADownTwice(s1: seq<CartLine>)
    requires ValidCart(s1) && SumQty(s1) == 3 && SumAmount(s1) == 4550
    requires Has(s1, "A") && Lookup(s1, "A").value.price == 2000 && QtyOf(s1, "A") == 2 && QtyOf(s1, "B") == 1
    ensures var s2 := Updated(Updated(s1, "A", "A", 2000, -1), "A", "A", 2000, -1);
      !Has(s2, "A") && QtyOf(s2, "B") == 1 && SumQty(s2) == 1 && SumAmount(s2) == 550
  {
    var t := Updated(s1, "A", "A", 2000, -1);
    UpdatedQty(s1, "A", "A", 2000, -1);
    UpdatedTotals(s1, "A", "A", 2000, -1);
    UpdatedKeepsValid(s1, "A", "A", 2000, -1);
    UpdatedOnlyTouchesId(s1, "A", "A", 2000, -1);
    UpdatedExistingLine(s1, "A", "A", 2000, -1);
    UpdatedQty(t, "A", "A", 2000, -1);
    UpdatedTotals(t, "A", "A", 2000, -1);
    UpdatedOnlyTouchesId(t, "A", "A", 2000, -1);
  }

  // ---------------------------------------------------------------------
  // The page state

  class Storefront {
    /** The cart `Map`, in insertion order. */
    var cart: seq<CartLine>
    /** The `data-id` of each product card, in page order. */
    const cardIds: seq<string>
    /** The quantity each product card displays. */
    const shown: array<int>

    ghost predicate Valid()
      reads this
    {
      ValidCart(cart) && shown.Length == |cardIds|
    }

    /** The page at load: an empty cart, and every card at the 0 its markup shows. */
    constructor (cardIds: seq<string>)
      ensures Valid() && cart == [] && this.cardIds == cardIds && fresh(shown)
      ensures shown[..] == GridView(cardIds, [])
    {
      this.cardIds := cardIds;
      cart := [];
      shown := new int[|cardIds|](_ => 0);
    }

    /** `updateCart`: apply a delta to one line, clamped at 0; a line at 0 is deleted. */
    method UpdateCart(id: string, name: string, price: nat, delta: int)
      requires Valid()
      modifies this
      ensures Valid() && cart == Updated(old(cart), id, name, price, delta)
      ensures QtyOf(cart, id) == Max0(QtyOf(old(cart), id) + delta)
    {
      UpdatedKeepsValid(cart, id, name, price, delta);
      UpdatedQty(cart, id, name, price, delta);
      var k := IndexOf(cart, id);
      var current := if k.Some? then cart[k.value] else CartLine(id, name, price, 0, None);
      current := current.(qty := Max0(current.qty + delta));
      if current.qty == 0 {
        if k.Some? {
          cart := RemoveAt(cart, k.value);
        }
      } else if k.Some? {
        cart := cart[k.value := current];
      } else {
        cart := cart + [current];
      }
    }

    /** `syncGrid`: write each card's cart quantity onto the card. */
    method SyncGrid()
      requires Valid()
      modifies shown
      ensures shown[..] == GridView(cardIds, cart)
    {
      for i := 0 to shown.Length
        invariant forall j :: 0 <= j < i ==> shown[j] == QtyOf(cart, cardIds[j])
      {
        shown[i] := QtyOf(cart, cardIds[i]);
      }
    }

    /** The totals and the checkout switch `renderCart` computes. */
    method RenderTotals() returns (totalItems: int, totalAmount: int, checkoutEnabled: bool)
      requires Valid()
      ensures totalItems == SumQty(cart) && totalAmount == SumAmount(cart)
      ensures checkoutEnabled <==> totalItems > 0
      ensures checkoutEnabled <==> |cart| > 0
    {
      totalItems, totalAmount := 0, 0;
      for i := 0 to |cart|
        invariant totalItems == Sum(cart[..i], Qty)
        invariant totalAmount == Sum(cart[..i], Subtotal)
      {
        SumSnoc(cart, i, Qty);
        SumSnoc(cart, i, Subtotal);
        totalItems := totalItems + cart[i].qty;
        totalAmount := totalAmount + cart[i].price * cart[i].qty;
      }
      assert cart[..|cart|] == cart;
      checkoutEnabled := totalItems > 0;
      CheckoutEnabledIffNonEmpty(cart);
    }

    /** The "+" button on a cart panel row. */
    method IncLine(e: CartLine)
      requires Valid() && e in cart
      modifies this, shown
      ensures Valid() && cart == Updated(old(cart), e.id, e.name, e.price, 1)
      ensures QtyOf(cart, e.id) == e.qty + 1
      ensures shown[..] == GridView(cardIds, cart)
    {
      LookupMember(cart, e);
      UpdateCart(e.id, e.name, e.price, 1);
      SyncGrid();
    }

    /** The "-" button on a cart panel row; a line at 1 goes away. */
    method DecLine(e: CartLine)
      requires Valid() && e in cart
      modifies this, shown
      ensures Valid() && cart == Updated(old(cart), e.id, e.name, e.price, -1)
      ensures QtyOf(cart, e.id) == e.qty - 1
      ensures e.qty == 1 ==> !Has(cart, e.id)
      ensures shown[..] == GridView(cardIds, cart)
    {
      LookupMember(cart, e);
      UpdateCart(e.id, e.name, e.price, -1);
      SyncGrid();
    }

    /** The "Remover" button on a cart panel row: a delta of minus the quantity. */
    method RemoveLine(e: CartLine)
      requires Valid() && e in cart
      modifies this, shown
      ensures Valid() && cart == Updated(old(cart), e.id, e.name, e.price, -e.qty)
      ensures !Has(cart, e.id) && cart == Without(old(cart), e.id)
      ensures shown[..] == GridView(cardIds, cart)
    {
      LookupMember(cart, e);
      UpdatedToZeroDeletes(cart, e.id, e.name, e.price, -e.qty);
      UpdateCart(e.id, e.name, e.price, -e.qty);
      SyncGrid();
    }

    /** `clearCart`: empty the map and put every card back to 0. */
    method ClearCart()
      requires Valid()
      modifies this, shown
      ensures Valid() && cart == []
      ensures forall i :: 0 <= i < shown.Length ==> shown[i] == 0
    {
      cart := [];
      SyncGrid();
      GridViewOfEmptyCart(cardIds);
    }

    /**
      `finalizeOrder`: on an empty cart, nothing; otherwise the link the
      page opens.  The cart is only read.
    */
    method FinalizeOrder(formatBRL: int -> string, encodeURIComponent: string -> string)
      returns (link: Option<string>)
      ensures |cart| == 0 <==> link == None
      ensures |cart| > 0 ==>
        link == Some(WhatsAppLink(encodeURIComponent(Join(ClientOrderLines(cart, formatBRL), "\n"))))
    {
      if |cart| == 0 {
        return None;
      }
      var lines := [Greeting];
      var total := 0;
      for i := 0 to |cart|
        invariant lines == [Greeting] + ItemLines(cart[..i], ClientLineFormat(formatBRL))
        invariant total == Sum(cart[..i], Subtotal)
      {
        SumSnoc(cart, i, Subtotal);
        ItemLinesSnoc([Greeting], cart, i, ClientLineFormat(formatBRL));
        var entry := cart[i];
        assert ClientLineFormat(formatBRL)(entry) == ClientItemLine(entry, formatBRL);
        var subtotal := entry.price * entry.qty;
        total := total + subtotal;
        lines := lines + [ClientItemLine(entry, formatBRL)];
      }
      assert cart[..|cart|] == cart;
      lines := lines + ["", ClientTotalLine(total, formatBRL)];
      var message := encodeURIComponent(Join(lines, "\n"));
      link := Some(WhatsAppLink(message));
    }
  }
}
