# Product and cart store of a small Express server

This project models the core of `server.js`, an HTTP service for products and one
shopping cart. Each resource lives in one JSON document on disk. Each handler that changes
a document reads it, changes it in memory and writes it back. The read-only handlers
only read it, and cart creation only writes. Every handler answers with a result or a
404 reply that carries a message. The model keeps each document as the state of a class:

- `Products.ProductStore` holds the product document, a sequence of JSON objects that
  each carry an `id`. Its methods are the five product routes: list, get, create,
  update and delete.
- `Carts.CartStore` holds the cart document: one cart with a string id and a sequence
  of line items `(product, quantity)`. Its methods are the three cart routes: create,
  get and add product.

A reply is `Ok(value)` or `NotFound(message)`, with the messages the server sends
("Producto no encontrado", "Carrito no encontrado"). "Not written back" is modelled as
"the state is unchanged". The pure steps of the handlers are functions with lemmas about
them: `find`, `findIndex`, `filter`, the object spread, the id generator and the cart's
line update. The methods are proved against those functions.

Module layout:

- `wrappers.dfy`: `Option` and the reply type `Outcome`.
- `json.dfy`: JSON values, and JavaScript's `x + 1` on a stored id.
- `products.dfy`: the product document.
- `carts.dfy`: the cart document.

Invariants proved:

- Product ids stay strictly increasing under create and delete, and under update when
  the body has no `id`.
- The cart holds at most one line per product reference, and every quantity is at
  least 1.
- Adding a product raises the cart's total by exactly one unit.

Two behaviours of the code worth knowing:

- Ids are the last record's id plus one, not the largest id plus one. While ids increase, the
  last id is the largest and the new id is above every id (`Products.NextId`). The two can differ
  only after the id order is broken, and they differ exactly when the last id is not
  the largest: after an update that wrote a smaller id at the end, after one that wrote
  a larger id earlier, or in an unsorted document whose last id is not its largest. Then the new
  id can duplicate an existing one (`Products.LastIdNotMaximumGivesDuplicate`).
  Deleting the last product also makes its id available again
  (`Products.DeletedLastIdIsReused`).
- Delete filters out every record carrying the id, not just the first one
  (`Products.RemoveId`).

## Model

| member | source | states |
|---|---|---|
| `Json.PlusOne` | server.js:177 | `id + 1` gives a number exactly when the id is a number, `null` or a boolean, and `n + 1` for a number `n`. It gives `null` exactly when the id is missing: `NaN` is stored as `null`. For a string, an array or an object it gives a string ending in "1". |
| `Products.FindIndex` | server.js:71 | -1 exactly when no record has the id; otherwise the first index whose record has it |
| `Products.Find` | server.js:31 | a record exactly when some record has the id, and then the record at the first such index |
| `Products.NextId` | server.js:172-181 | when ids increase, the generated id is a number above every id in the sequence |
| `Products.GenerateProductId` | server.js:172-181 | the generated id is `NextId` of the sequence, and 1 for the empty sequence |
| `Products.Merge` | server.js:74 | the merged record has the fields of both; body fields win; fields absent from the body keep their old values |
| `Products.RemoveId` | server.js:94 | no survivor has the id; survivors come from the input; every record without the id survives; the length is unchanged exactly when no record had the id |
| `Products.RemoveIdAppend` | server.js:94 | filtering distributes over concatenation, so survivors keep their relative order |
| `Products.RemoveIdKeepsIncreasing` | server.js:94-98 | filtering an increasing-id sequence leaves it increasing |
| `Products.CreateKeepsIncreasing` | server.js:48-56 | appending a record under the generated id keeps ids increasing |
| `Products.UpdateKeepsIncreasing` | server.js:71-77 | merging a body without `id` onto one record keeps ids increasing |
| `Products.UpdateWithIdCanBreakIncreasing` | server.js:74 | a body with an `id` can break the increasing order (ids 1, 2 become 5, 2) |
| `Products.DeletedLastIdIsReused` | server.js:172-181 | after deleting the last of ids 1, 2, the next generated id is 2 again |
| `Products.LastIdNotMaximumGivesDuplicate` | server.js:172-181 | for ids 1, 0 the generated id is 1, which a record already has |
| `Products.ProductStore.List` | server.js:11-21 | the result is a prefix of the document: all of it without a limit, otherwise `min(limit, length)` records |
| `Products.ProductStore.Get` | server.js:24-38 | found exactly when some record has the id, and then the first such record; otherwise "Producto no encontrado"; the document is not changed |
| `Products.ProductStore.Create` | server.js:41-59 | the body with `id` set to the generated id (overriding any caller id) is appended and returned; earlier records unchanged; ids stay increasing |
| `Products.ProductStore.Update` | server.js:62-83 | on a found id, only the first matching record changes, to the merge, which is returned; otherwise "Producto no encontrado" and no change; ids stay increasing when the body has no `id` |
| `Products.ProductStore.Delete` | server.js:86-104 | succeeds exactly when some record had the id, and the document becomes the filtered sequence with no record of that id; otherwise "Producto no encontrado" and no change; ids stay increasing |
| `Carts.FindLine` | server.js:148 | -1 exactly when no line names the reference; otherwise the first line naming it |
| `Carts.AddLine` | server.js:147-156 | the length grows by one exactly when no line named the reference; the first line naming it gains one unit and every other line is unchanged; every line names the reference or was there before |
| `Carts.TotalAppend` | server.js:155 | appending a line adds its quantity to the total |
| `Carts.TotalBump` | server.js:152 | incrementing one line's quantity adds one to the total |
| `Carts.AddLineTotal` | server.js:150-156 | adding a product raises the total quantity by exactly 1 |
| `Carts.AddLineWellFormed` | server.js:147-156 | adding a product keeps references unique and quantities at least 1 |
| `Carts.AddLineQuantity` | server.js:147-156 | adding `pid` gives `pid` one more unit and leaves every other reference's count unchanged |
| `Carts.AddSameTwiceThenOther` | server.js:146-161 | adding `p` twice to an empty cart gives one line `(p, 2)`; adding a different `q` then appends `(q, 1)` |
| `Carts.CartStore.Create` | server.js:110-120 | the cart becomes the given id with no lines, replacing the old one, and is returned |
| `Carts.CartStore.Get` | server.js:123-135 | the line items exactly when the requested id equals the stored id; otherwise "Carrito no encontrado" |
| `Carts.CartStore.AddProduct` | server.js:138-165 | on an id mismatch, "Carrito no encontrado" and no change. Otherwise the lines become `AddLine` of the old lines and are returned, the total grows by 1, and unique references and positive quantities are kept. |

## Left out

- Express routing, `req`/`res`, status codes and `app.listen` (server.js:1-8, 167-169, 189-193): framework plumbing. Replies are `Ok` / `NotFound`.
- File reads and writes, `JSON.parse` and `JSON.stringify`: the documents are the classes' state. A handler that does not write leaves the state unchanged. Malformed or missing files are faults, not behaviour, so they are not modelled. This includes a record that is not an object and a cart whose id is not a string.
- `generateCartId` (server.js:184-187): it uses `Math.random` and a base-36 float conversion. The cart id is a parameter of `Carts.CartStore.Create`.
- Races between concurrent requests on the same file: the model is sequential.
- Parsing of route parameters and the query: `parseInt` is modelled by its result, `Option<int>`, where `None` is `NaN`, which matches no record. `limit` is `Option<nat>`; a negative limit or a non-numeric string passed to `slice` is not modelled.
- Json.PlusOne: fractional ids, precision loss beyond 2^53 and JavaScript's exponent notation for very large numbers are not modelled.
- Fractional numbers: `Json.Value` has only integer numbers, so a fractional value in any field (such as `price: 49.99`) cannot be represented. The handlers copy every field except `id` unchanged, so no handler's behaviour depends on those values.
- Json.PlusOne: an object id that carries its own `toString` key (such as `{"toString": 1}`), or an array id holding such an object, makes `+` throw a TypeError in JavaScript. The model treats every object as rendering `[object Object]` and returns a string instead of a fault.
- Carts.AddLine: quantities are unbounded integers. JavaScript's `quantity++` stops adding one past 2^53, so `Carts.AddLineTotal`, `Carts.AddLineQuantity` and `Carts.CartStore.AddProduct` ("the total grows by exactly 1") hold for the source only below that size. A quantity stored as a non-number in the file is not modelled either.
- The order of keys inside a JSON object (maps are unordered), and request bodies that are not objects.
- The mutation of the found line object through an alias (`existingProduct.quantity++`): the model replaces the line at the index `find` would return. That line is the same one.
