/** The file-backed cart store (`CartManager`). The JSON file holding the
    array of carts is the `carts` field of a `CartManager` object; every
    operation loads it, changes it and writes it back whole. */
module FileCarts {
  import opened Js

  /** One cart line: a numeric product id and a quantity. The store does not
      validate lines, so the quantity may be anything. */
  datatype Line = Line(product: int, quantity: int)

  /** A stored cart: numeric id, owner (`null` when none was given), lines. */
  datatype Cart = Cart(id: int, userId: Value, products: seq<Line>)

  /** No two carts share an id. */
  ghost predicate DistinctIds(carts: seq<Cart>) {
    forall i, j :: 0 <= i < j < |carts| ==> carts[i].id != carts[j].id
  }

  /** Every line has quantity at least 1 and no product has two lines. */
  ghost predicate WellFormedLines(lines: seq<Line>) {
    && (forall i :: 0 <= i < |lines| ==> lines[i].quantity >= 1)
    && (forall i, j :: 0 <= i < j < |lines| ==> lines[i].product != lines[j].product)
  }

  /** Index of the first cart whose id is `cid` (`carts.find`). */
  function FindCart(carts: seq<Cart>, cid: int): (r: Option<nat>)
    ensures r.None? <==> forall i :: 0 <= i < |carts| ==> carts[i].id != cid
    ensures r.Some? ==> r.value < |carts| && carts[r.value].id == cid
    ensures r.Some? ==> forall j :: 0 <= j < r.value ==> carts[j].id != cid
  {
    if |carts| == 0 then None
    else if carts[0].id == cid then Some(0)
    else match FindCart(carts[1..], cid)
      case None => None
      case Some(k) => Some(k + 1)
  }

  /** Index of the first line for product `product` (`cart.products.find`). */
  function FindLine(lines: seq<Line>, product: int): (r: Option<nat>)
    ensures r.None? <==> forall i :: 0 <= i < |lines| ==> lines[i].product != product
    ensures r.Some? ==> r.value < |lines| && lines[r.value].product == product
    ensures r.Some? ==> forall j :: 0 <= j < r.value ==> lines[j].product != product
  {
    if |lines| == 0 then None
    else if lines[0].product == product then Some(0)
    else match FindLine(lines[1..], product)
      case None => None
      case Some(k) => Some(k + 1)
  }

  /** `carts.reduce((max, c) => (c.id > max ? c.id : max), acc)`. */
  function MaxId(carts: seq<Cart>, acc: int): (m: int)
    ensures m >= acc
    ensures forall i :: 0 <= i < |carts| ==> carts[i].id <= m
    ensures m == acc || exists i :: 0 <= i < |carts| && carts[i].id == m
  {
    if |carts| == 0 then acc
    else
      var acc' := if carts[0].id > acc then carts[0].id else acc;
      var m := MaxId(carts[1..], acc');
      assert m != acc' ==> exists i :: 0 <= i < |carts[1..]| && carts[1..][i].id == m;
      assert m == acc' && acc' != acc ==> carts[0].id == m;
      m
  }

  /** The id `createCart` gives a new cart: one more than the largest id, or 1. */
  function NextId(carts: seq<Cart>): int {
    MaxId(carts, 0) + 1
  }

  /** The lines after adding `quantity` of `product`: the first line for that
      product has its quantity increased, or a new line goes at the end. */
  function AddLine(lines: seq<Line>, product: int, quantity: int): (r: seq<Line>)
    ensures |r| == |lines| + (if FindLine(lines, product).None? then 1 else 0)
    ensures exists k :: 0 <= k < |r| && r[k].product == product
    ensures forall k :: 0 <= k < |lines| ==> r[k].product == lines[k].product
  {
    match FindLine(lines, product)
    case Some(k) =>
      var r := lines[k := lines[k].(quantity := lines[k].quantity + quantity)];
      assert r[k].product == product;
      r
    case None =>
      var r := lines + [Line(product, quantity)];
      assert r[|lines|].product == product;
      r
  }

  /** The carts that `carts.filter(c => c.id !== cid)` keeps. */
  function WithoutId(carts: seq<Cart>, cid: int): (r: seq<Cart>)
    ensures |r| <= |carts|
    ensures forall i :: 0 <= i < |r| ==> r[i].id != cid
  {
    if |carts| == 0 then []
    else if carts[0].id == cid then WithoutId(carts[1..], cid)
    else [carts[0]] + WithoutId(carts[1..], cid)
  }

  /** A new cart's id is above every existing id and at least 1, so appending
      it keeps ids distinct. */
  lemma NextIdFresh(carts: seq<Cart>, c: Cart)
    requires c.id == NextId(carts)
    ensures c.id >= 1
    ensures forall i :: 0 <= i < |carts| ==> carts[i].id < c.id
    ensures DistinctIds(carts) ==> DistinctIds(carts + [c])
  {
  }

  /** Adding to a product that already has a line changes only that line's
      quantity; the number and order of lines stay the same. */
  lemma AddLineMerges(lines: seq<Line>, product: int, quantity: int, k: nat)
    requires k < |lines| && lines[k].product == product
    requires forall j :: 0 <= j < k ==> lines[j].product != product
    ensures |AddLine(lines, product, quantity)| == |lines|
    ensures AddLine(lines, product, quantity)[k] == Line(product, lines[k].quantity + quantity)
    ensures forall j :: 0 <= j < |lines| && j != k ==> AddLine(lines, product, quantity)[j] == lines[j]
  {
    var r := FindLine(lines, product);
    assert r == Some(k);
  }

  /** Adding to a product without a line appends exactly `(product, quantity)`. */
  lemma AddLineAppends(lines: seq<Line>, product: int, quantity: int)
    requires forall j :: 0 <= j < |lines| ==> lines[j].product != product
    ensures AddLine(lines, product, quantity) == lines + [Line(product, quantity)]
  {
  }

  /** Adding a positive quantity keeps lines well formed. */
  lemma AddLineKeepsWellFormed(lines: seq<Line>, product: int, quantity: int)
    requires WellFormedLines(lines) && quantity >= 1
    ensures WellFormedLines(AddLine(lines, product, quantity))
  {
    var r := AddLine(lines, product, quantity);
    match FindLine(lines, product)
    case Some(k) =>
      forall i, j | 0 <= i < j < |r| ensures r[i].product != r[j].product {
        assert r[i].product == lines[i].product && r[j].product == lines[j].product;
      }
    case None =>
      forall i, j | 0 <= i < j < |r| ensures r[i].product != r[j].product {
        if j == |lines| {
          assert r[j].product == product;
        }
      }
  }

  /** The filter keeps exactly the carts whose id differs from `cid`. */
  lemma {:induction false} WithoutIdMembers(carts: seq<Cart>, cid: int)
    ensures forall c :: c in WithoutId(carts, cid) <==> c in carts && c.id != cid
  {
    if |carts| > 0 {
      WithoutIdMembers(carts[1..], cid);
      assert carts == [carts[0]] + carts[1..];
    }
  }

  /** The filter keeps the order of the carts it keeps: filtering a
      concatenation filters each part in turn. */
  lemma {:induction false} WithoutIdConcat(s: seq<Cart>, t: seq<Cart>, cid: int)
    ensures WithoutId(s + t, cid) == WithoutId(s, cid) + WithoutId(t, cid)
  {
    if |s| > 0 {
      assert (s + t)[1..] == s[1..] + t;
      WithoutIdConcat(s[1..], t, cid);
    } else {
      assert s + t == t;
    }
  }

  /** The filter shortens the list exactly when some cart has the id, and
      leaves it as it was otherwise. */
  lemma {:induction false} WithoutIdLength(carts: seq<Cart>, cid: int)
    ensures |WithoutId(carts, cid)| <= |carts|
    ensures |WithoutId(carts, cid)| == |carts| <==> forall i :: 0 <= i < |carts| ==> carts[i].id != cid
    ensures (forall i :: 0 <= i < |carts| ==> carts[i].id != cid) ==> WithoutId(carts, cid) == carts
  {
    if |carts| > 0 {
      WithoutIdLength(carts[1..], cid);
      assert carts == [carts[0]] + carts[1..];
      if carts[0].id != cid && forall i :: 0 <= i < |carts[1..]| ==> carts[1..][i].id != cid {
        assert forall i :: 0 <= i < |carts| ==> carts[i].id != cid by {
          forall i | 0 <= i < |carts| ensures carts[i].id != cid {
            if i > 0 { assert carts[i] == carts[1..][i - 1]; }
          }
        }
      }
    }
  }

  class CartManager {
    /** The parsed content of the carts file. */
    var carts: seq<Cart>
    /** How many times the file has been written. */
    var writes: nat

    /** Loading the file: its parsed content, or an empty list when it cannot
        be read or parsed (`getCarts`). */
    constructor (stored: Option<seq<Cart>>)
      ensures carts == (if stored.Some? then stored.value else [])
      ensures writes == 0
    {
      carts := if stored.Some? then stored.value else [];
      writes := 0;
    }

    /** The first cart with id `cid`, or nothing when none has it. */
    method GetCartById(cid: int) returns (r: Option<Cart>)
      ensures r.None? <==> forall i :: 0 <= i < |carts| ==> carts[i].id != cid
      ensures r.Some? ==> r.value.id == cid
      ensures r.Some? ==> exists i :: 0 <= i < |carts| && carts[i] == r.value
                                        && forall j :: 0 <= j < i ==> carts[j].id != cid
    {
      var k := FindCart(carts, cid);
      if k.None? {
        r := None;
      } else {
        r := Some(carts[k.value]);
      }
    }

    /** Appends a cart with the next id, owner `userId ?? null`, and the
        given items when they form an array, else no lines. The store checks
        nothing about the items; here they are numeric lines. */
    method CreateCart(userId: Value, items: Option<seq<Line>>) returns (c: Cart)
      modifies this
      ensures c.id == NextId(old(carts))
      ensures c.userId == (if Nullish(userId) then Null else userId)
      ensures c.products == (if items.Some? then items.value else [])
      ensures carts == old(carts) + [c]
      ensures writes == old(writes) + 1
      ensures forall i :: 0 <= i < |old(carts)| ==> old(carts)[i].id < c.id
      ensures DistinctIds(old(carts)) ==> DistinctIds(carts)
    {
      var maxId := MaxId(carts, 0);
      c := Cart(maxId + 1,
                if Nullish(userId) then Null else userId,
                if items.Some? then items.value else []);
      NextIdFresh(carts, c);
      carts := carts + [c];
      writes := writes + 1;
    }

    /** Adds `quantity` (1 when absent) of `productId` to cart `cid`: nothing
        happens and nothing is written when no cart has that id; otherwise
        only that cart's lines change, as `AddLine` says. */
    method AddProductToCart(cid: int, productId: int, quantity: Option<int>) returns (r: Option<Cart>)
      modifies this
      ensures r.None? <==> forall i :: 0 <= i < |old(carts)| ==> old(carts)[i].id != cid
      ensures r.None? ==> carts == old(carts) && writes == old(writes)
      ensures r.Some? ==> writes == old(writes) + 1
      ensures r.Some? ==>
        exists i :: && 0 <= i < |old(carts)| && old(carts)[i].id == cid
                    && (forall j :: 0 <= j < i ==> old(carts)[j].id != cid)
                    && r.value == old(carts)[i].(products := AddLine(old(carts)[i].products, productId,
                                                                     if quantity.Some? then quantity.value else 1))
                    && carts == old(carts)[i := r.value]
    {
      var q := if quantity.Some? then quantity.value else 1;
      var k := FindCart(carts, cid);
      if k.None? {
        return None;
      }
      var i := k.value;
      var cart := carts[i];
      cart := cart.(products := AddLine(cart.products, productId, q));
      carts := carts[i := cart];
      writes := writes + 1;
      r := Some(cart);
    }

    /** Removes every cart with id `cid`, keeping the others in order, and
        answers true; answers false without writing when none has it. */
    method DeleteCart(cid: int) returns (deleted: bool)
      modifies this
      ensures deleted <==> exists i :: 0 <= i < |old(carts)| && old(carts)[i].id == cid
      ensures carts == WithoutId(old(carts), cid)
      ensures forall c :: c in carts <==> c in old(carts) && c.id != cid
      ensures writes == old(writes) + (if deleted then 1 else 0)
    {
      var filtered := WithoutId(carts, cid);
      WithoutIdLength(carts, cid);
      WithoutIdMembers(carts, cid);
      if |filtered| == |carts| {
        return false;
      }
      carts := filtered;
      writes := writes + 1;
      return true;
    }
  }
}
