/** The cart document: one cart, an id and its line items, and the three handlers of the
    cart routes working on it. */
module Carts {
  import opened Wrappers

  /** One line of the cart: a product reference, as it came in the route, and how many. */
  datatype LineItem = LineItem(product: string, quantity: int)

  /** The single cart the document holds. */
  datatype Cart = Cart(id: string, products: seq<LineItem>)

  const CartNotFound: string := "Carrito no encontrado"

  /** At most one line per product reference. */
  predicate UniqueRefs(lines: seq<LineItem>)
  {
    forall i, j :: 0 <= i < j < |lines| ==> lines[i].product != lines[j].product
  }

  /** Every line holds at least one unit. */
  predicate QuantitiesPositive(lines: seq<LineItem>)
  {
    forall i :: 0 <= i < |lines| ==> lines[i].quantity >= 1
  }

  /** The invariant the handlers build: unique references, positive quantities. */
  predicate WellFormed(lines: seq<LineItem>)
  {
    UniqueRefs(lines) && QuantitiesPositive(lines)
  }

  /** `cart.products.find(p => p.product === productId)`, as the index of the line found. */
  function FindLine(lines: seq<LineItem>, pid: string): (r: int)
    ensures -1 <= r < |lines|
    ensures r == -1 <==> forall i :: 0 <= i < |lines| ==> lines[i].product != pid
    ensures r != -1 ==> lines[r].product == pid && forall j :: 0 <= j < r ==> lines[j].product != pid
    decreases |lines|
  {
    if |lines| == 0 then -1
    else if lines[0].product == pid then 0
    else
      var k := FindLine(lines[1..], pid);
      assert forall i :: 0 < i < |lines| ==> lines[i] == lines[1..][i - 1];
      if k == -1 then -1 else k + 1
  }

  /** The number of units in the cart. */
  function Total(lines: seq<LineItem>): int
    decreases |lines|
  {
    if |lines| == 0 then 0 else lines[0].quantity + Total(lines[1..])
  }

  /** The units of one product reference: those of the first line naming it, 0 without one. */
  function QuantityOf(lines: seq<LineItem>, pid: string): int
  {
    var k := FindLine(lines, pid);
    if k == -1 then 0 else lines[k].quantity
  }

  /** The line items after adding `pid`: the first line naming it gains one unit, or a line
      `(pid, 1)` is appended when none names it. */
  function AddLine(lines: seq<LineItem>, pid: string): (r: seq<LineItem>)
    ensures |lines| <= |r| <= |lines| + 1
    ensures |r| == |lines| <==> exists i :: 0 <= i < |lines| && lines[i].product == pid
    ensures forall i :: 0 <= i < |lines| && lines[i].product != pid ==> r[i] == lines[i]
    ensures forall i :: 0 <= i < |lines| && i != FindLine(lines, pid) ==> r[i] == lines[i]
    ensures FindLine(lines, pid) != -1 ==>
              r[FindLine(lines, pid)] == LineItem(pid, lines[FindLine(lines, pid)].quantity + 1)
    ensures forall i :: 0 <= i < |r| ==> r[i].product == pid || r[i] in lines
  {
    var k := FindLine(lines, pid);
    if k == -1 then lines + [LineItem(pid, 1)]
    else lines[k := lines[k].(quantity := lines[k].quantity + 1)]
  }

  lemma {:induction false} TotalAppend(lines: seq<LineItem>, x: LineItem)
    ensures Total(lines + [x]) == Total(lines) + x.quantity
    decreases |lines|
  {
    if lines != [] {
      assert (lines + [x])[1..] == lines[1..] + [x];
      TotalAppend(lines[1..], x);
    }
  }

  lemma {:induction false} TotalBump(lines: seq<LineItem>, k: int)
    requires 0 <= k < |lines|
    ensures Total(lines[k := lines[k].(quantity := lines[k].quantity + 1)]) == Total(lines) + 1
    decreases |lines|
  {
    var bumped := lines[k := lines[k].(quantity := lines[k].quantity + 1)];
    if k > 0 {
      assert bumped[1..] == lines[1..][k - 1 := lines[k].(quantity := lines[k].quantity + 1)];
      TotalBump(lines[1..], k - 1);
    } else {
      assert bumped[1..] == lines[1..];
    }
  }

  /** Adding a product always adds exactly one unit to the cart. */
  lemma AddLineTotal(lines: seq<LineItem>, pid: string)
    ensures Total(AddLine(lines, pid)) == Total(lines) + 1
  {
    var k := FindLine(lines, pid);
    if k == -1 {
      TotalAppend(lines, LineItem(pid, 1));
    } else {
      TotalBump(lines, k);
    }
  }

  /** Adding a product keeps one line per reference and every quantity at least 1. */
  lemma AddLineWellFormed(lines: seq<LineItem>, pid: string)
    requires WellFormed(lines)
    ensures WellFormed(AddLine(lines, pid))
  {
  }

  /** Adding `pid` gives it one more unit and leaves every other reference's count alone. */
  lemma AddLineQuantity(lines: seq<LineItem>, pid: string, q: string)
    ensures QuantityOf(AddLine(lines, pid), q) == QuantityOf(lines, q) + (if q == pid then 1 else 0)
  {
    var k := FindLine(lines, pid);
    var r := AddLine(lines, pid);
    assert forall i :: 0 <= i < |lines| ==> r[i].product == lines[i].product;
    var kq := FindLine(lines, q);
    var rq := FindLine(r, q);
    if kq != -1 {
      assert rq == kq;
    } else if q == pid {
      assert r == lines + [LineItem(pid, 1)];
      assert r[|lines|].product == q;
      assert rq == |lines|;
    } else {
      assert rq == -1;
    }
  }

  /** The cart document, read from and written back to disk by every handler that uses it. */
  class CartStore {
    var cart: Cart

    constructor (initial: Cart)
      ensures cart == initial
    {
      cart := initial;
    }

    /** POST / : a new, empty cart under the given id replaces whatever cart there was. */
    method Create(id: string) returns (created: Cart)
      modifies this
      ensures cart == Cart(id, []) && created == cart
      ensures WellFormed(cart.products) && Total(cart.products) == 0
    {
      created := Cart(id, []);
      cart := created;
    }

    /** GET /:cid : the line items of the stored cart when its id is the one asked for. */
    method Get(cid: string) returns (r: Outcome<seq<LineItem>>)
      ensures r.Ok? <==> cid == cart.id
      ensures r.Ok? ==> r.value == cart.products
      ensures r.NotFound? ==> r.message == CartNotFound
    {
      if cart.id == cid {
        r := Ok(cart.products);
      } else {
        r := NotFound(CartNotFound);
      }
    }

    /** POST /:cid/product/:pid : one more unit of `pid`, in its existing line or a new one. */
    method AddProduct(cid: string, pid: string) returns (r: Outcome<seq<LineItem>>)
      modifies this
      ensures old(cart.id) != cid ==> r == NotFound(CartNotFound) && cart == old(cart)
      ensures old(cart.id) == cid ==>
                && cart == Cart(old(cart.id), AddLine(old(cart.products), pid))
                && r == Ok(cart.products)
                && Total(cart.products) == old(Total(cart.products)) + 1
      ensures old(WellFormed(cart.products)) ==> WellFormed(cart.products)
    {
      if cart.id == cid {
        ghost var before := cart.products;
        var existing := FindLine(cart.products, pid);
        if existing != -1 {
          var line := cart.products[existing];
          cart := cart.(products := cart.products[existing := line.(quantity := line.quantity + 1)]);
        } else {
          cart := cart.(products := cart.products + [LineItem(pid, 1)]);
        }
        AddLineTotal(before, pid);
        if WellFormed(before) {
          AddLineWellFormed(before, pid);
        }
        r := Ok(cart.products);
      } else {
        r := NotFound(CartNotFound);
      }
    }
  }

  /** A new cart that gets `p` twice holds one line `(p, 2)`; a different `q` then gets a
      second line. */
  lemma AddSameTwiceThenOther(p: string, q: string)
    requires p != q
    ensures AddLine(AddLine([], p), p) == [LineItem(p, 2)]
    ensures AddLine([LineItem(p, 2)], q) == [LineItem(p, 2), LineItem(q, 1)]
  {
  }
}
