# Cheese-shop cart, modelled in Dafny

The storefront sells cheeses and cured meats. A shopper changes quantities
on the product cards. A cart panel shows the totals. Checkout sends the order
as a pre-filled WhatsApp message. Two small pieces of code hold the cart:

- `script.js` runs in the browser. It keeps a `Map` from product id to a cart
  line `{id, name, price, qty}`. It changes that map only through `updateCart`
  and `clearCart`. It writes quantities back onto the product cards
  (`syncGrid`), totals the cart (`renderCart`) and builds the order link
  (`finalizeOrder`). It also parses the catalogue's price text (`parseBRL`).
- `main.py` is an HTTP service. It has a catalogue lookup (`get_item`) and an
  in-memory `dict` cart with upsert, remove, get and clear. Its `create_order`
  builds the same kind of WhatsApp link from the items it is sent.

Both carts are insertion-ordered maps. Each is modelled as the sequence of its
lines in insertion order, with pairwise distinct ids. Prices are integer cents.
Currency formatting (`toLocaleString`, Python's `:.2f`), URL encoding
(`encodeURIComponent`, `urllib.parse.quote`) and `Number` are library
behaviour. They are function parameters of the members that use them, so the
proofs are about the structure of the message and about the sums.

Files:

- `common.dfy`: `Option`.
- `lines.dfy` (module `Lines`): the cart line, lookup in an ordered store,
  "every line but this id" (`Without`), sums, and the lemmas about them.
- `text.dfy` (module `Text`): the greeting, `Join`, integer text, the shape
  of the order message and the `wa.me` link.
- `brl.dfy` (module `Brl`): the `parseBRL` text normalisation.
- `client.dfy` (module `Client`): the browser cart. It has the function
  `Updated`, which specifies `updateCart`, and its lemmas. The class
  `Storefront` holds the cart `Map` and the product cards' displayed
  quantities (an array).
- `server.dfy` (module `Server`): `GetItem`, the class `ServerCart` and
  `CreateOrder`.

Two behaviours of the code worth stating:

- `finalizeOrder` does not clear the cart. It opens the link and closes the
  panel, and the cart stays as it was. `FinalizeOrder` has no `modifies`
  clause, so the model cannot clear it either.
- `create_order` does not read the server cart. It builds the message from the
  items in the request.

A behaviour of `parseBRL` worth knowing: the regular expression `/\s|R\$/g`
makes one left-to-right pass. So "R $5" loses its space but keeps the "R$"
(`Brl.StripIsSinglePass`), and such a price then parses to 0. The catalogue
writes "R$ 31,90", which normalises as intended (`Brl.NormaliseCatalogPrice`).

## Model

| member | source | states |
|---|---|---|
| `Client.QtyOf` | script.js:104 | `getQty`: 0 for an absent id; in a valid cart the quantity is at least 1 exactly when the id is present |
| `Client.Storefront.constructor` | script.js:26 | the cart starts as an empty map; every card showing 0 at load is taken from the page markup, which the script does not write |
| `Client.Storefront.UpdateCart` | script.js:97-101 | the new cart is `Updated(old cart, …)`, the cart stays valid, and `getQty(id)` becomes `max(0, old + delta)` |
| `Client.UpdatedKeepsValid` | script.js:97-101 | after any update, ids are still distinct and no stored line has qty ≤ 0 |
| `Client.UpdatedQty` | script.js:97-101 | the quantity under `id` afterwards is `max(0, old + delta)`, counting an absent id as 0 |
| `Client.UpdatedOnlyTouchesId` | script.js:100 | every other line stays, and so does their order; a lookup of any other id finds the same line |
| `Client.UpdatedExistingLine` | script.js:98-100 | a present line keeps its stored name, price and position, only qty changes; the passed name and price are ignored |
| `Client.UpdatedNewLine` | script.js:98-100 | an absent id with a positive delta is appended at the end, built from the passed name and price |
| `Client.UpdatedAbsentNoChange` | script.js:98-100 | an absent id with delta ≤ 0 leaves the cart unchanged |
| `Client.UpdatedToZeroDeletes` | script.js:99-100 | a line whose quantity reaches 0 is deleted, and the cart is the old one without that id |
| `Client.ReaddedLineMovesToEnd` | script.js:97-101 | a line deleted and added again goes to the end of the map, with the newly passed name and price |
| `Client.UpdatedTotals` | script.js:97-101 | an update changes the unit total by new qty − old qty, and the amount total by price × (new qty − old qty), using the stored price |
| `Client.AddTwoAOneB` | script.js:97-101 | two "+" on A at 20,00 and one on B at 5,50 leave a valid cart with 2 × A at the stored price 20,00, 1 × B, 3 units and 45,50 |
| `Client.TakeADownTwice` | script.js:97-101 | from any valid cart with 2 × A at 20,00 and 1 × B worth 45,50 in all, two "-" on A delete A and leave 1 unit and 5,50 |
| `Client.Storefront.SyncGrid` | script.js:111-115 | afterwards every card shows `getQty` of its id; the result depends only on the cart, so a second call changes nothing |
| `Client.Storefront.RenderTotals` | script.js:122-137 | `totalItems` is the sum of quantities, `totalAmount` the sum of price × qty, and checkout is enabled iff `totalItems > 0`, which in a valid cart holds iff the cart is non-empty |
| `Client.CheckoutEnabledIffNonEmpty` | script.js:135-137 | in a valid cart the unit total is positive exactly when the cart has a line, the same test as `cart.size === 0` in `finalizeOrder` |
| `Client.Storefront.IncLine` | script.js:172-175 | the row "+" raises that line's quantity by exactly 1 and resyncs the cards |
| `Client.Storefront.DecLine` | script.js:176-179 | the row "-" lowers it by exactly 1, a qty-1 line is deleted, and the cards are resynced |
| `Client.Storefront.RemoveLine` | script.js:180-183 | "Remover" passes `-qty`, so the line is deleted, the rest of the cart keeps its order, and the cards are resynced |
| `Client.Storefront.ClearCart` | script.js:201-205 | the map is empty and every card shows 0 |
| `Client.GridViewOfEmptyCart` | script.js:201-205 | on an empty cart every card's quantity is 0 |
| `Client.ClientOrderLines` | script.js:213-224 | the message lines: greeting, one `- name \| price x qty = subtotal` line per cart line in map order, a blank line, then `*Total do pedido: total*` with total = Σ price × qty |
| `Client.Storefront.FinalizeOrder` | script.js:211-229 | an empty cart gives no link; otherwise the link is `https://wa.me/5537991243408?text=` plus the encoded, newline-joined order lines; the cart is not changed |
| `Text.OrderLines` | script.js:213-224 | the shared message shape: greeting first, item lines in store order, then `""`, then the total line: three lines more than there are items |
| `Text.MessageFraming` | script.js:224-227 | the joined message starts with the greeting and a newline and ends with the total line |
| `Brl.ParseBRL` | script.js:6-14 | the number of the normalised text, or 0 when it is not a finite number |
| `Brl.NormaliseShape` | script.js:7-11 | the normalised text has no whitespace and at most one "."; it has a "." iff the stripped text had a ",", and it keeps all other commas |
| `Brl.RemoveDotsCounts` | script.js:9 | removing the dots leaves no ".", keeps every ",", and adds no whitespace |
| `Brl.ReplaceFirstCommaCounts` | script.js:10 | with no comma the text is unchanged; otherwise exactly one "," becomes ".", it is the first ",", and every other character stays in place |
| `Brl.ReplaceFirstCommaAt` | script.js:10 | the replaced comma sits at an index before which the text has no comma, and the result is the text with only that character turned into "." |
| `Brl.TrimNoSpace` | script.js:11 | `trim` leaves a whitespace-free text as it is |
| `Brl.NormaliseCatalogPrice` | script.js:6-11 | "R$", any whitespace separator (a space or U+00A0), digits with thousands dots, "," and cents normalise to the digits without dots, ".", and the cents |
| `Brl.StripIsSinglePass` | script.js:8 | the strip is a single regular-expression pass: "R $5" becomes "R$5", so a split symbol survives |
| `Server.ItemsDbIdsDistinct` | main.py:40-545 | the catalogue records have pairwise distinct ids |
| `Server.GetItem` | main.py:556-561 | 404 iff no record has the id; otherwise the first record with that id, which is the only one when ids are distinct |
| `Server.GetItemBySharedName` | main.py:556-561 | looking up id "6" in the catalogue returns the id-"6" record, not the id-"1" record that has the same name |
| `Server.UpsertedStores` | main.py:564-567 | the posted item is stored as is, with no quantity check; a present id keeps its position, a new id goes last, other lines are unchanged, and ids stay distinct |
| `Server.ServerCart.constructor` | main.py:548 | the cart starts empty |
| `Server.ServerCart.AddToCart` | main.py:564-567 | the cart becomes the upsert of the item, the item is what a lookup of its id finds, and the values are returned in insertion order |
| `Server.ServerCart.RemoveFromCart` | main.py:570-575 | a present id is deleted and the remaining values are returned in order; an absent id gives 404 and the cart is unchanged |
| `Server.ServerCart.GetCart` | main.py:578-580 | returns the values in first-insertion order |
| `Server.ServerCart.ClearCart` | main.py:583-586 | the cart is empty, so a following `get_cart` returns `[]` |
| `Server.ServerOrderLines` | main.py:594-603 | greeting, one `- name \| R$ price x qty = R$ subtotal` line per item in request order, `""`, then the total line with total = Σ price × qty |
| `Server.CreateOrder` | main.py:589-609 | 400 iff the order has no items; otherwise the `wa.me` link with the quoted, newline-joined order lines; it reads no server cart |

## Left out

- DOM work: element lookups, `textContent`/`innerHTML` writes, CSS classes,
  event-listener wiring, `openCart`, `closeCart` and the cart panel's row
  markup (script.js:38-75, 140-169, 185, 193-200). The cards are modelled only
  as the quantity each one shows.
- `handleQtyChange` and `readItemInfo` (script.js:80-94): the card buttons call
  `updateCart` with the card's name and parsed price and then write one card.
  That is `UpdateCart` followed by one card write, and the write is not
  modelled separately.
- `window.open` (script.js:229): a browser side effect. `FinalizeOrder` returns
  the link it would open.
- Floating-point prices. Prices are integer cents, so `price * qty` and the
  totals are exact. Float rounding in the source is not captured.
- `Brl.ParseBRL`: `Number` and `Number.isFinite` are a parameter that gives the
  value in cents or nothing. Parsing of the numeral itself is not modelled.
- `formatBRL`, Python's `:.2f`, `encodeURIComponent` and `quote` are
  parameters. Their output is not modelled.
- FastAPI routing, CORS, pydantic validation, async handlers, `get_items`
  (which returns the catalogue unchanged) and `health_check` (main.py:1-16,
  550-553, 611-614). The `"message"` text in the upsert and remove responses
  is also left out.
- The product cards' starting value of 0 comes from the page markup, which is
  not part of this model. `Client.Storefront.constructor` takes it as given.
- The catalogue literal is cut to seven representative records
  (main.py:40-545). `GetItem` is proved for any catalogue.
- Persistence in local storage, a browser cart backed by the server API, and
  the races between overlapping requests are not part of this model. Neither
  file contains them.
