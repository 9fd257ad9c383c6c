/**
  The order service: a catalogue lookup, an in-memory cart kept in a
  `dict` from product id to cart item, and an order endpoint that builds the
  WhatsApp link from the items it is sent.  Handlers either return a value
  or raise an HTTP error; both are modelled as a `Result`.
*/
module Server {
  import opened Common
  import opened Lines
  import opened Text

  datatype HttpError = HttpError(status: int, detail: string)

  datatype Result<T> = Ok(value: T) | Err(error: HttpError)

  const ItemNotFound: HttpError := HttpError(404, "Item não encontrado")
  const CartItemNotFound: HttpError := HttpError(404, "Item não encontrado no carrinho")
  const EmptyOrder: HttpError := HttpError(400, "Carrinho vazio")

  /** A catalogue record; prices are integer cents. */
  datatype Item = Item(id: string, name: string, price: nat, details: string, image: string, category: string)

  predicate DistinctItemIds(db: seq<Item>) {
    forall i, j :: 0 <= i < j < |db| ==> db[i].id != db[j].id
  }

  /** Representative records of the catalogue; two different ids share a name. */
  const ItemsDb: seq<Item> := [
    Item("0", "QUEIJO PALITO", 3190, "450g - queijo em palito artesanal",
         "assets/imagens/tradicionais/foto1.png", "Queijos Tradicionais"),
    Item("1", "QUEIJO TRANÇA", 3190, "450g - pura, defumada, alho ou temperada",
         "assets/imagens/tradicionais/foto2.png", "Queijos Tradicionais"),
    Item("2", "QUEIJO NOZINHO", 3190, "450g - tradicional artesanal",
         "assets/imagens/tradicionais/foto3.png", "Queijos Tradicionais"),
    Item("3", "KIT TRANÇA", 2900, "450g - kit com tranças variadas",
         "assets/imagens/tradicionais/foto4.png", "Queijos Tradicionais"),
    Item("4", "QUEIJO TIPO REINO", 4000, "450g - queijo tipo reino tradicional",
         "assets/imagens/tradicionais/foto5.png", "Queijos Tradicionais"),
    Item("6", "QUEIJO TRANÇA", 3190, "450g - queijo trança artesanal",
         "assets/imagens/tradicionais/foto7.png", "Queijos Tradicionais"),
    Item("67", "LOMBO NOBRE DEFUMADO", 2490, "200g - Clássico e saboroso, defumado artesanalmente",
         "assets/imagens/salaminhos/foto8.png", "Salaminhos")
  ]

  /** The catalogue's ids are pairwise distinct, so a lookup by id has one answer. */
  lemma ItemsDbIdsDistinct()
    ensures DistinctItemIds(ItemsDb)
  {
  }

  /**
    `get_item`: the first catalogue record with the id, or 404.  Over a
    catalogue with distinct ids the record found is the only one.
  */
  method GetItem(db: seq<Item>, itemId: string) returns (r: Result<Item>)
    ensures r.Err? <==> forall k :: 0 <= k < |db| ==> db[k].id != itemId
    ensures r.Err? ==> r.error == ItemNotFound
    ensures r.Ok? ==>
      exists k :: 0 <= k < |db| && db[k] == r.value && db[k].id == itemId && (forall j :: 0 <= j < k ==> db[j].id != itemId)
    ensures r.Ok? && DistinctItemIds(db) ==> forall k :: 0 <= k < |db| && db[k].id == itemId ==> db[k] == r.value
  {
    for i := 0 to |db|
      invariant forall j :: 0 <= j < i ==> db[j].id != itemId
    {
      if db[i].id == itemId {
        return Ok(db[i]);
      }
    }
    return Err(ItemNotFound);
  }

  /**
    Looking up id "6" in the catalogue finds the record with that id, not the
    record with id "1" that carries the same name.
  */
  method GetItemBySharedName() returns (r: Result<Item>)
    ensures r == Ok(ItemsDb[5]) && r.value.id == "6"
    ensures r.value.name == ItemsDb[1].name && r.value != ItemsDb[1]
  {
    ItemsDbIdsDistinct();
    r := GetItem(ItemsDb, "6");
    assert ItemsDb[5].id == "6";
  }

  /** The dict after `cart[item.id] = item`: a present key keeps its place, a new key goes last. */
  function Upserted(s: seq<CartLine>, item: CartLine): seq<CartLine> {
    match IndexOf(s, item.id)
    case Some(k) => s[k := item]
    case None => s + [item]
  }

  /**
    The posted item is stored as it is, replacing any previous line whole
    (its quantity is not checked, so zero or negative lines are kept); a
    present id keeps its position, a new id goes last, and no other line
    moves or changes.
  */
  lemma UpsertedStores(s: seq<CartLine>, item: CartLine)
    requires DistinctIds(s)
    ensures DistinctIds(Upserted(s, item))
    ensures Lookup(Upserted(s, item), item.id) == Some(item)
    ensures Has(s, item.id) ==> IndexOf(Upserted(s, item), item.id) == IndexOf(s, item.id)
    ensures !Has(s, item.id) ==> Upserted(s, item) == s + [item]
    ensures Without(Upserted(s, item), item.id) == Without(s, item.id)
  {
    match IndexOf(s, item.id)
    case Some(k) =>
      DistinctSetAt(s, k, item);
      WithoutSetAt(s, k, item);
    case None =>
      DistinctAppend(s, item);
      WithoutAppend(s, item);
  }

  /** The server cart: the dict's values in first-insertion order. */
  class ServerCart {
    var items: seq<CartLine>

    ghost predicate Valid()
      reads this
    {
      DistinctIds(items)
    }

    constructor ()
      ensures Valid() && items == []
    {
      items := [];
    }

    /** `add_to_cart`: upsert the posted item and return the cart's values. */
    method AddToCart(item: CartLine) returns (values: seq<CartLine>)
      requires Valid()
      modifies this
      ensures Valid() && items == Upserted(old(items), item) && values == items
      ensures Lookup(items, item.id) == Some(item)
    {
      UpsertedStores(items, item);
      var k := IndexOf(items, item.id);
      if k.Some? {
        items := items[k.value := item];
      } else {
        items := items + [item];
      }
      values := items;
    }

    /** `remove_from_cart`: delete a present id and return the values left, or 404 and no change. */
    method RemoveFromCart(itemId: string) returns (r: Result<seq<CartLine>>)
      requires Valid()
      modifies this
      ensures Valid()
      ensures old(Has(items, itemId)) ==> items == Without(old(items), itemId) && r == Ok(items)
      ensures old(Has(items, itemId)) ==> !Has(items, itemId) && |items| == |old(items)| - 1
      ensures !old(Has(items, itemId)) ==> items == old(items) && r == Err(CartItemNotFound)
    {
      var k := IndexOf(items, itemId);
      if k.Some? {
        DistinctRemoveAt(items, k.value);
        WithoutAt(items, k.value);
        items := RemoveAt(items, k.value);
        return Ok(items);
      }
      return Err(CartItemNotFound);
    }

    /** `get_cart`: the values, in first-insertion order. */
    method GetCart() returns (values: seq<CartLine>)
      ensures values == items
    {
      values := items;
    }

    /** `clear_cart`. */
    method ClearCart()
      modifies this
      ensures Valid() && items == []
    {
      items := [];
    }
  }

  /** `- name | R$ price x qty = R$ subtotal`, with `fixed2` standing for the `:.2f` format. */
  function ServerItemLine(l: CartLine, fixed2: int -> string): string {
    "- " + l.name + " | R$ " + fixed2(l.price) + " x " + IntToString(l.qty) + " = R$ " + fixed2(Subtotal(l))
  }

  function ServerLineFormat(fixed2: int -> string): CartLine -> string {
    l => ServerItemLine(l, fixed2)
  }

  function ServerTotalLine(total: int, fixed2: int -> string): string {
    "*Total do pedido: R$ " + fixed2(total) + "*"
  }

  /** The lines `create_order` joins: greeting, one line per item in request order, blank, total. */
  function ServerOrderLines(items: seq<CartLine>, fixed2: int -> string): (r: seq<string>)
    ensures |r| == |items| + 3 && r[0] == Greeting && r[|items| + 1] == ""
    ensures forall k :: 0 <= k < |items| ==> r[k + 1] == ServerItemLine(items[k], fixed2)
    ensures r[|items| + 2] == ServerTotalLine(SumAmount(items), fixed2)
  {
    OrderLines(items, ServerLineFormat(fixed2), ServerTotalLine(SumAmount(items), fixed2))
  }

  /**
    `create_order`: 400 on an empty order, otherwise the WhatsApp link of
    the order message.  It is given the items and touches no server cart.
  */
  method CreateOrder(items: seq<CartLine>, fixed2: int -> string, quote: string -> string)
    returns (r: Result<string>)
    ensures |items| == 0 <==> r == Err(EmptyOrder)
    ensures |items| > 0 ==> r == Ok(WhatsAppLink(quote(Join(ServerOrderLines(items, fixed2), "\n"))))
  {
    if |items| == 0 {
      return Err(EmptyOrder);
    }
    var lines := [Greeting];
    var total := 0;
    for i := 0 to |items|
      invariant lines == [Greeting] + ItemLines(items[..i], ServerLineFormat(fixed2))
      invariant total == Sum(items[..i], Subtotal)
    {
      SumSnoc(items, i, Subtotal);
      ItemLinesSnoc([Greeting], items, i, ServerLineFormat(fixed2));
      var item := items[i];
      assert ServerLineFormat(fixed2)(item) == ServerItemLine(item, fixed2);
      var subtotal := item.price * item.qty;
      total := total + subtotal;
      lines := lines + [ServerItemLine(item, fixed2)];
    }
    assert items[..|items|] == items;
    lines := lines + [""];
    lines := lines + [ServerTotalLine(total, fixed2)];
    OrderLinesPushed(items, ServerLineFormat(fixed2), ServerTotalLine(total, fixed2));
    var message := quote(Join(lines, "\n"));
    return Ok(WhatsAppLink(message));
  }
}
