/** The product document: an ordered sequence of JSON objects, each carrying an `id`,
    and the five handlers of the product routes working on it. */
module Products {
  import opened Wrappers
  import opened Json

  /** A product record: its `id` plus whatever fields the caller supplied. */
  type Product = Object

  const ProductNotFound: string := "Producto no encontrado"
  const ProductDeleted: string := "Producto eliminado exitosamente"

  /** The record's id, when it is a number. */
  function IdOf(p: Product): Option<int>
  {
    if "id" in p && p["id"].Num? then Some(p["id"].n) else None
  }

  /** `p.id === productId`, where `productId` comes from `parseInt` and is `None` for `NaN`,
      which is equal to nothing. */
  predicate HasId(p: Product, pid: Option<int>)
  {
    pid.Some? && IdOf(p) == pid
  }

  /** Every record has a numeric id and the ids grow strictly along the sequence. */
  predicate IdsIncreasing(ps: seq<Product>)
  {
    && (forall i :: 0 <= i < |ps| ==> IdOf(ps[i]).Some?)
    && (forall i, j :: 0 <= i < j < |ps| ==> IdOf(ps[i]).value < IdOf(ps[j]).value)
  }

  /** `i` is the first index whose record has id `pid`. */
  predicate FirstMatch(ps: seq<Product>, pid: Option<int>, i: int)
  {
    && 0 <= i < |ps|
    && HasId(ps[i], pid)
    && forall j :: 0 <= j < i ==> !HasId(ps[j], pid)
  }

  /** `products.findIndex(p => p.id === productId)`. */
  function FindIndex(ps: seq<Product>, pid: Option<int>): (r: int)
    ensures -1 <= r < |ps|
    ensures r == -1 <==> forall i :: 0 <= i < |ps| ==> !HasId(ps[i], pid)
    ensures r != -1 ==> FirstMatch(ps, pid, r)
    decreases |ps|
  {
    if |ps| == 0 then -1
    else if HasId(ps[0], pid) then 0
    else
      var k := FindIndex(ps[1..], pid);
      assert forall i :: 0 < i < |ps| ==> ps[i] == ps[1..][i - 1];
      if k == -1 then -1 else k + 1
  }

  /** `products.find(p => p.id === productId)`. */
  function Find(ps: seq<Product>, pid: Option<int>): (r: Option<Product>)
    ensures r.Some? <==> exists i :: 0 <= i < |ps| && HasId(ps[i], pid)
    ensures r.Some? ==> exists i :: FirstMatch(ps, pid, i) && r.value == ps[i]
  {
    var k := FindIndex(ps, pid);
    if k == -1 then None else Some(ps[k])
  }

  /** The id `generateProductId` assigns: the last record's id plus one, or 1 for an empty
      sequence. When the ids increase, it is a number above every id present. */
  function NextId(ps: seq<Product>): (r: Value)
    ensures IdsIncreasing(ps) ==> r.Num? && forall i :: 0 <= i < |ps| ==> IdOf(ps[i]).value < r.n
  {
    if |ps| == 0 then Num(1) else PlusOne(Field(ps[|ps| - 1], "id"))
  }

  /** `generateProductId`, with its local `newId`. */
  method GenerateProductId(ps: seq<Product>) returns (newId: Value)
    ensures newId == NextId(ps)
    ensures |ps| == 0 ==> newId == Num(1)
  {
    newId := Num(1);
    if |ps| > 0 {
      var lastProduct := ps[|ps| - 1];
      newId := PlusOne(Field(lastProduct, "id"));
    }
  }

  /** The spread `{ ...p, ...body }`: every field of `body` wins, every other field of `p` stays. */
  function Merge(p: Product, body: Object): (r: Product)
    ensures r.Keys == p.Keys + body.Keys
    ensures forall k :: k in body ==> r[k] == body[k]
    ensures forall k :: k in p && k !in body ==> r[k] == p[k]
  {
    p + body
  }

  /** `products.filter(p => p.id !== productId)`. */
  function RemoveId(ps: seq<Product>, pid: Option<int>): (r: seq<Product>)
    ensures |r| <= |ps|
    ensures |r| == |ps| <==> forall i :: 0 <= i < |ps| ==> !HasId(ps[i], pid)
    ensures forall i :: 0 <= i < |r| ==> !HasId(r[i], pid) && r[i] in ps
    ensures forall i :: 0 <= i < |ps| && !HasId(ps[i], pid) ==> ps[i] in r
    decreases |ps|
  {
    if |ps| == 0 then []
    else
      var rest := RemoveId(ps[1..], pid);
      assert forall i :: 0 < i < |ps| ==> ps[i] == ps[1..][i - 1];
      if HasId(ps[0], pid) then rest else [ps[0]] + rest
  }

  /** Filtering distributes over concatenation: the survivors keep their relative order. */
  lemma {:induction false} RemoveIdAppend(a: seq<Product>, b: seq<Product>, pid: Option<int>)
    ensures RemoveId(a + b, pid) == RemoveId(a, pid) + RemoveId(b, pid)
    decreases |a|
  {
    if a == [] {
      assert a + b == b;
    } else {
      assert (a + b)[1..] == a[1..] + b;
      RemoveIdAppend(a[1..], b, pid);
    }
  }

  /** Deleting only removes records, so increasing ids stay increasing. */
  lemma {:induction false} RemoveIdKeepsIncreasing(ps: seq<Product>, pid: Option<int>)
    requires IdsIncreasing(ps)
    ensures IdsIncreasing(RemoveId(ps, pid))
    decreases |ps|
  {
    if |ps| > 0 {
      var tail := ps[1..];
      assert IdsIncreasing(tail) by {
        assert forall i :: 0 <= i < |tail| ==> tail[i] == ps[i + 1];
      }
      RemoveIdKeepsIncreasing(tail, pid);
      var rest := RemoveId(tail, pid);
      if !HasId(ps[0], pid) {
        var first := IdOf(ps[0]).value;
        forall j | 0 <= j < |rest|
          ensures first < IdOf(rest[j]).value
        {
          AboveFirst(ps, rest[j]);
        }
        ConsKeepsIncreasing(ps[0], rest);
        assert RemoveId(ps, pid) == [ps[0]] + rest;
      }
    }
  }

  /** A record whose id is below every id of an increasing sequence can be put in front of it. */
  lemma ConsKeepsIncreasing(p: Product, ps: seq<Product>)
    requires IdsIncreasing(ps) && IdOf(p).Some?
    requires forall j :: 0 <= j < |ps| ==> IdOf(p).value < IdOf(ps[j]).value
    ensures IdsIncreasing([p] + ps)
  {
  }

  /** A record of the tail of an increasing sequence has an id above the first one's. */
  lemma AboveFirst(ps: seq<Product>, q: Product)
    requires IdsIncreasing(ps) && |ps| > 0 && q in ps[1..]
    ensures IdOf(ps[0]).value < IdOf(q).value
  {
  }

  /** Appending a record under the generated id keeps the ids increasing. */
  lemma CreateKeepsIncreasing(ps: seq<Product>, body: Object)
    requires IdsIncreasing(ps)
    ensures IdsIncreasing(ps + [body["id" := NextId(ps)]])
  {
  }

  /** A merge whose body has no `id` keeps the record's id, so the ids stay increasing. */
  lemma UpdateKeepsIncreasing(ps: seq<Product>, i: int, body: Object)
    requires IdsIncreasing(ps) && 0 <= i < |ps| && "id" !in body
    ensures IdsIncreasing(ps[i := Merge(ps[i], body)])
  {
  }

  /** A merge whose body carries an `id` can break the order: updating record 1 of
      `[{id: 1}, {id: 2}]` with `{id: 5}` leaves ids 5, 2. */
  lemma UpdateWithIdCanBreakIncreasing()
    ensures var ps := [map["id" := Num(1)], map["id" := Num(2)]];
            IdsIncreasing(ps) && !IdsIncreasing(ps[0 := Merge(ps[0], map["id" := Num(5)])])
  {
    var ps := [map["id" := Num(1)], map["id" := Num(2)]];
    var q := ps[0 := Merge(ps[0], map["id" := Num(5)])];
    assert IdOf(q[0]) == Some(5) && IdOf(q[1]) == Some(2);
  }

  /** Deleting the last product of `[{id: 1}, {id: 2}]` and creating another hands out
      id 2 again. */
  lemma DeletedLastIdIsReused()
    ensures var ps := [map["id" := Num(1)], map["id" := Num(2)]];
            NextId(RemoveId(ps, Some(2))) == Num(2)
  {
  }

  /** Ids come from the last record, not from the largest one: when the last id is not the
      largest, as in `[{id: 1}, {id: 0}]`, the generated id 1 duplicates an existing one. */
  lemma LastIdNotMaximumGivesDuplicate()
    ensures var ps := [map["id" := Num(1)], map["id" := Num(0)]];
            NextId(ps) == Num(1) && HasId(ps[0], Some(NextId(ps).n))
  {
  }

  /** The product document, read from and written back to disk by every handler. */
  class ProductStore {
    var products: seq<Product>

    constructor (initial: seq<Product>)
      ensures products == initial
    {
      products := initial;
    }

    /** GET / : the first `limit` records in order, or all of them without a limit. */
    method List(limit: Option<nat>) returns (r: seq<Product>)
      ensures r <= products
      ensures limit.None? ==> r == products
      ensures limit.Some? ==> |r| == if limit.value < |products| then limit.value else |products|
    {
      var n := if limit.Some? then limit.value else |products|;
      r := if n < |products| then products[..n] else products;
    }

    /** GET /:pid : the first record with the id, or the "not found" reply. */
    method Get(pid: Option<int>) returns (r: Outcome<Product>)
      ensures r.Ok? <==> exists i :: 0 <= i < |products| && HasId(products[i], pid)
      ensures r.Ok? ==> exists i :: FirstMatch(products, pid, i) && r.value == products[i]
      ensures r.NotFound? ==> r.message == ProductNotFound
    {
      var product := Find(products, pid);
      if product.Some? {
        r := Ok(product.value);
      } else {
        r := NotFound(ProductNotFound);
      }
    }

    /** POST / : the body, given the generated id whatever id it carried, is appended. */
    method Create(body: Object) returns (created: Product)
      modifies this
      ensures created == body["id" := NextId(old(products))]
      ensures products == old(products) + [created]
      ensures old(IdsIncreasing(products)) ==> IdsIncreasing(products)
    {
      ghost var before := products;
      var newId := GenerateProductId(products);
      created := body["id" := newId];
      products := products + [created];
      if IdsIncreasing(before) {
        CreateKeepsIncreasing(before, body);
      }
    }

    /** PUT /:pid : the body is merged onto the first record with the id; nothing else changes. */
    method Update(pid: Option<int>, body: Object) returns (r: Outcome<Product>)
      modifies this
      ensures var i := FindIndex(old(products), pid);
              if i == -1 then r == NotFound(ProductNotFound) && products == old(products)
              else products == old(products)[i := Merge(old(products)[i], body)] && r == Ok(products[i])
      ensures old(IdsIncreasing(products)) && "id" !in body ==> IdsIncreasing(products)
    {
      var productIndex := FindIndex(products, pid);
      if productIndex != -1 {
        ghost var before := products;
        products := products[productIndex := Merge(products[productIndex], body)];
        if IdsIncreasing(before) && "id" !in body {
          UpdateKeepsIncreasing(before, productIndex, body);
        }
        r := Ok(products[productIndex]);
      } else {
        r := NotFound(ProductNotFound);
      }
    }

    /** DELETE /:pid : every record with the id is dropped; when none was, "not found" and no write. */
    method Delete(pid: Option<int>) returns (r: Outcome<string>)
      modifies this
      ensures var kept := RemoveId(old(products), pid);
              if |kept| == |old(products)| then r == NotFound(ProductNotFound) && products == old(products)
              else r == Ok(ProductDeleted) && products == kept
      ensures r.Ok? <==> exists i :: 0 <= i < |old(products)| && HasId(old(products)[i], pid)
      ensures forall i :: 0 <= i < |products| ==> !HasId(products[i], pid)
      ensures old(IdsIncreasing(products)) ==> IdsIncreasing(products)
    {
      var updatedProducts := RemoveId(products, pid);
      if |updatedProducts| != |products| {
        if IdsIncreasing(products) {
          RemoveIdKeepsIncreasing(products, pid);
        }
        products := updatedProducts;
        r := Ok(ProductDeleted);
      } else {
        r := NotFound(ProductNotFound);
      }
    }
  }
}
