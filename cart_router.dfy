/** The ObjectId-based cart router. Each handler first runs its checks (a
    `Guard`): a rejection carries the status of the error it throws, a pass
    carries the arguments of the manager call it then makes. Whatever the
    manager returns is sent as JSON, and whatever it throws goes to the error
    handler (`Http.Answer`, composed with each guard in the `Route`
    functions). Several of the manager methods this router calls
    are not defined by the cart manager; their outcomes stay parameters.
    `isValid` is the ObjectId library's validity test, taken as given. */
module CartRouter {
  import opened Js
  import opened Http
  import FileCarts

  /** The arguments of a manager call that names a cart and a product. */
  datatype LineArgs = LineArgs(cid: string, pid: string, quantity: int)

  /** DELETE `/:cid/products/:pid`: the cart id, then the product id. */
  function CartProductGuard(cid: string, pid: string, isValid: Value -> bool): (g: Guard<(string, string)>)
    ensures g.Call? <==> ValidObjectId(Str(cid), isValid) && ValidObjectId(Str(pid), isValid)
    ensures g.Call? ==> g.args == (cid, pid)
    ensures g.Reject? ==> g.status == BAD_REQUEST
  {
    if !ValidObjectId(Str(cid), isValid) then Reject(BAD_REQUEST)
    else if !ValidObjectId(Str(pid), isValid) then Reject(BAD_REQUEST)
    else Call((cid, pid))
  }

  /** `const { quantity = 1 } = req.body`: the default replaces `undefined`
      only, so an explicit `null` stays `null`. */
  function DefaultQuantity(body: map<string, Value>): (q: Value)
    ensures "quantity" !in body ==> q == Num(1)
    ensures "quantity" in body && !body["quantity"].Undefined? ==> q == body["quantity"]
  {
    var q := Field(body, "quantity");
    if q.Undefined? then Num(1) else q
  }

  /** `typeof quantity !== 'number' || quantity < 1`. */
  predicate BadQuantity(quantity: Value) {
    !IsNumber(quantity) || quantity.n < 1
  }

  /** POST `/:cid/products/:pid`: cart id, then product id, then the quantity
      (1 when absent); a non-number or a quantity below 1 is 400 and the
      manager is not called. */
  function AddProductGuard(cid: string, pid: string, body: map<string, Value>, isValid: Value -> bool)
    : (g: Guard<LineArgs>)
    ensures g.Call? <==> && ValidObjectId(Str(cid), isValid) && ValidObjectId(Str(pid), isValid)
                         && !BadQuantity(DefaultQuantity(body))
    ensures g.Call? ==> g.args.cid == cid && g.args.pid == pid && g.args.quantity >= 1
    ensures g.Call? && Field(body, "quantity").Undefined? ==> g.args.quantity == 1
    ensures g.Call? && !Field(body, "quantity").Undefined? ==> body["quantity"] == Num(g.args.quantity)
    ensures g.Reject? ==> g.status == BAD_REQUEST
  {
    var quantity := DefaultQuantity(body);
    if !ValidObjectId(Str(cid), isValid) then Reject(BAD_REQUEST)
    else if !ValidObjectId(Str(pid), isValid) then Reject(BAD_REQUEST)
    else if BadQuantity(quantity) then Reject(BAD_REQUEST)
    else Call(LineArgs(cid, pid, quantity.n))
  }

  /** PUT `/:cid/products/:pid`: as for adding, but with no default, so an
      absent quantity is 400 too. */
  function UpdateQuantityGuard(cid: string, pid: string, body: map<string, Value>, isValid: Value -> bool)
    : (g: Guard<LineArgs>)
    ensures g.Call? <==> && ValidObjectId(Str(cid), isValid) && ValidObjectId(Str(pid), isValid)
                         && "quantity" in body && body["quantity"].Num? && body["quantity"].n >= 1
    ensures g.Call? ==> g.args == LineArgs(cid, pid, body["quantity"].n)
    ensures g.Reject? ==> g.status == BAD_REQUEST
  {
    var quantity := Field(body, "quantity");
    if !ValidObjectId(Str(cid), isValid) then Reject(BAD_REQUEST)
    else if !ValidObjectId(Str(pid), isValid) then Reject(BAD_REQUEST)
    else if BadQuantity(quantity) then Reject(BAD_REQUEST)
    else Call(LineArgs(cid, pid, quantity.n))
  }

  /** The test `products.every` applies to one item: a truthy, valid
      `item.product` and a numeric `item.quantity` of at least 1. `None` when
      reading `item.product` throws, because the item is null. */
  function ItemValid(item: Value, isValid: Value -> bool): (r: Option<bool>)
    ensures r.None? <==> Nullish(item)
  {
    match Prop(item, "product")
    case None => None
    case Some(product) =>
      var quantity := if item.Obj? then Field(item.fields, "quantity") else Undefined;
      Some(Truthy(product) && isValid(product) && IsNumber(quantity) && quantity.n >= 1)
  }

  /** A well-formed line item: an object whose `product` passes the ObjectId
      test and whose `quantity` is a number of at least 1. */
  predicate GoodItem(item: Value, isValid: Value -> bool) {
    && item.Obj?
    && ValidObjectId(Field(item.fields, "product"), isValid)
    && Field(item.fields, "quantity").Num?
    && Field(item.fields, "quantity").n >= 1
  }

  /** `items.every(…)`, left to right and stopping at the first failing item:
      `Some(verdict)`, or `None` when it reaches a null item and throws. */
  function EveryItemValid(items: seq<Value>, isValid: Value -> bool): (r: Option<bool>)
    ensures r == Some(true) ==> forall i :: 0 <= i < |items| ==> ItemValid(items[i], isValid) == Some(true)
    ensures r.None? ==> exists i :: 0 <= i < |items| && Nullish(items[i])
  {
    if |items| == 0 then Some(true)
    else
      match ItemValid(items[0], isValid)
      case None => None
      case Some(false) => Some(false)
      case Some(true) => EveryItemValid(items[1..], isValid)
  }

  /** `every` accepts exactly the arrays whose items are all well formed, and
      throws exactly when a null item comes before any failing one. */
  lemma {:induction false} EveryItemValidMeaning(items: seq<Value>, isValid: Value -> bool)
    ensures EveryItemValid(items, isValid) == Some(true)
            <==> forall i :: 0 <= i < |items| ==> GoodItem(items[i], isValid)
    ensures EveryItemValid(items, isValid).None?
            <==> exists i :: && 0 <= i < |items| && Nullish(items[i])
                             && forall j :: 0 <= j < i ==> GoodItem(items[j], isValid)
  {
    if |items| > 0 {
      EveryItemValidMeaning(items[1..], isValid);
      assert forall i :: 1 <= i < |items| ==> items[i] == items[1..][i - 1];
      var head := items[0];
      assert ItemValid(head, isValid) == Some(true) <==> GoodItem(head, isValid);
      if ItemValid(head, isValid) == Some(true) {
        if exists i :: && 0 <= i < |items[1..]| && Nullish(items[1..][i])
                       && forall j :: 0 <= j < i ==> GoodItem(items[1..][j], isValid) {
          var i :| && 0 <= i < |items[1..]| && Nullish(items[1..][i])
                   && forall j :: 0 <= j < i ==> GoodItem(items[1..][j], isValid);
          assert forall j :: 0 <= j < i + 1 ==> GoodItem(items[j], isValid);
        }
        if exists i :: && 0 <= i < |items| && Nullish(items[i])
                       && forall j :: 0 <= j < i ==> GoodItem(items[j], isValid) {
          var i :| && 0 <= i < |items| && Nullish(items[i])
                   && forall j :: 0 <= j < i ==> GoodItem(items[j], isValid);
          assert i > 0;
          assert Nullish(items[1..][i - 1]);
        }
      } else if ItemValid(head, isValid) == None {
        assert Nullish(items[0]);
      } else {
        assert !Nullish(items[0]);
      }
    }
  }

  /** PUT `/:cid`: 400 unless `products` is an array of well-formed items (an
      empty array passes); a null item reached before any bad one makes the
      check throw a TypeError, answered 500. */
  function ReplaceProductsGuard(cid: string, body: map<string, Value>, isValid: Value -> bool)
    : (g: Guard<(string, seq<Value>)>)
    ensures g.Call? ==> ValidObjectId(Str(cid), isValid)
    ensures g.Reject? ==> g.status == BAD_REQUEST || g.status == SERVER_ERROR
    ensures ValidObjectId(Str(cid), isValid) && !Field(body, "products").Arr? ==> g == Reject(BAD_REQUEST)
    ensures ValidObjectId(Str(cid), isValid) && Field(body, "products").Arr? ==>
              (g == Reject(SERVER_ERROR) <==> EveryItemValid(Field(body, "products").items, isValid).None?)
  {
    var products := Field(body, "products");
    if !ValidObjectId(Str(cid), isValid) then Reject(BAD_REQUEST)
    else if !products.Arr? then Reject(BAD_REQUEST)
    else
      match EveryItemValid(products.items, isValid)
      case None => Reject(SERVER_ERROR)
      case Some(false) => Reject(BAD_REQUEST)
      case Some(true) => Call((cid, products.items))
  }

  /** What PUT `/:cid` accepts, and when its check throws, stated item by item. */
  lemma ReplaceProductsAccepts(cid: string, body: map<string, Value>, isValid: Value -> bool)
    ensures ReplaceProductsGuard(cid, body, isValid).Call?
            <==> && ValidObjectId(Str(cid), isValid) && Field(body, "products").Arr?
                 && forall i :: 0 <= i < |Field(body, "products").items| ==>
                                  GoodItem(Field(body, "products").items[i], isValid)
    ensures ReplaceProductsGuard(cid, body, isValid).Call? ==>
            ReplaceProductsGuard(cid, body, isValid).args == (cid, Field(body, "products").items)
    ensures ReplaceProductsGuard(cid, body, isValid) == Reject(SERVER_ERROR)
            <==> && ValidObjectId(Str(cid), isValid) && Field(body, "products").Arr?
                 && exists i :: && 0 <= i < |Field(body, "products").items|
                                && Nullish(Field(body, "products").items[i])
                                && forall j :: 0 <= j < i ==> GoodItem(Field(body, "products").items[j], isValid)
  {
    if Field(body, "products").Arr? {
      EveryItemValidMeaning(Field(body, "products").items, isValid);
    }
  }

  /** A route whose only parameter is the cart id: GET `/:cid`, DELETE
      `/:cid`, POST `/:cid/purchase` and DELETE `/delete/:cid`. An invalid id
      is 400 and the manager is not called; otherwise its result is sent with
      200, or its error answered with the error's status. */
  function CartRoute<T>(cid: string, isValid: Value -> bool, out: Outcome<T>): (r: Reply<T>)
    ensures !ValidObjectId(Str(cid), isValid) ==> r == Fail(BAD_REQUEST)
    ensures r.Send? <==> ValidObjectId(Str(cid), isValid) && out.Returned?
    ensures r.Send? ==> r == Send(OK, out.value)
    ensures ValidObjectId(Str(cid), isValid) && out.Threw? ==> r == Fail(ErrorStatus(out.statusCode))
  {
    Answer(IdGuard(cid, isValid), out, OK)
  }

  /** DELETE `/:cid/products/:pid` end to end: 400 for an invalid cart or
      product id, otherwise the manager's result with 200 or its error. */
  function RemoveProductRoute<T>(cid: string, pid: string, isValid: Value -> bool, out: Outcome<T>): (r: Reply<T>)
    ensures !ValidObjectId(Str(cid), isValid) || !ValidObjectId(Str(pid), isValid) ==> r == Fail(BAD_REQUEST)
    ensures r.Send? <==> ValidObjectId(Str(cid), isValid) && ValidObjectId(Str(pid), isValid) && out.Returned?
    ensures r.Send? ==> r == Send(OK, out.value)
    ensures ValidObjectId(Str(cid), isValid) && ValidObjectId(Str(pid), isValid) && out.Threw?
            ==> r == Fail(ErrorStatus(out.statusCode))
  {
    Answer(CartProductGuard(cid, pid, isValid), out, OK)
  }

  /** POST `/:cid/products/:pid` end to end: 400 for an invalid id or a
      quantity (1 when absent) that is not a number of at least 1; otherwise
      the manager's result with 200, or its error. */
  function AddProductRoute<T>(cid: string, pid: string, body: map<string, Value>, isValid: Value -> bool, out: Outcome<T>)
    : (r: Reply<T>)
    ensures (|| !ValidObjectId(Str(cid), isValid) || !ValidObjectId(Str(pid), isValid)
             || BadQuantity(DefaultQuantity(body)))
            ==> r == Fail(BAD_REQUEST)
    ensures r.Send? <==> && ValidObjectId(Str(cid), isValid) && ValidObjectId(Str(pid), isValid)
                         && !BadQuantity(DefaultQuantity(body)) && out.Returned?
    ensures r.Send? ==> r == Send(OK, out.value)
    ensures AddProductGuard(cid, pid, body, isValid).Call? && out.Threw? ==> r == Fail(ErrorStatus(out.statusCode))
  {
    Answer(AddProductGuard(cid, pid, body, isValid), out, OK)
  }

  /** PUT `/:cid/products/:pid` end to end: as for adding, except that an
      absent quantity is 400. */
  function UpdateQuantityRoute<T>(cid: string, pid: string, body: map<string, Value>, isValid: Value -> bool, out: Outcome<T>)
    : (r: Reply<T>)
    ensures "quantity" !in body ==> r == Fail(BAD_REQUEST)
    ensures (|| !ValidObjectId(Str(cid), isValid) || !ValidObjectId(Str(pid), isValid)
             || BadQuantity(Field(body, "quantity")))
            ==> r == Fail(BAD_REQUEST)
    ensures r.Send? <==> && ValidObjectId(Str(cid), isValid) && ValidObjectId(Str(pid), isValid)
                         && !BadQuantity(Field(body, "quantity")) && out.Returned?
    ensures r.Send? ==> r == Send(OK, out.value)
    ensures UpdateQuantityGuard(cid, pid, body, isValid).Call? && out.Threw? ==> r == Fail(ErrorStatus(out.statusCode))
  {
    Answer(UpdateQuantityGuard(cid, pid, body, isValid), out, OK)
  }

  /** PUT `/:cid` end to end: 400 for an invalid id, a missing array or a bad
      item, 500 when the item check throws on a null item, otherwise the
      manager's result with 200, or its error. */
  function ReplaceProductsRoute<T>(cid: string, body: map<string, Value>, isValid: Value -> bool, out: Outcome<T>)
    : (r: Reply<T>)
    ensures !ValidObjectId(Str(cid), isValid) || !Field(body, "products").Arr? ==> r == Fail(BAD_REQUEST)
    ensures (&& ValidObjectId(Str(cid), isValid) && Field(body, "products").Arr?
             && EveryItemValid(Field(body, "products").items, isValid) == Some(false))
            ==> r == Fail(BAD_REQUEST)
    ensures (&& ValidObjectId(Str(cid), isValid) && Field(body, "products").Arr?
             && EveryItemValid(Field(body, "products").items, isValid).None?)
            ==> r == Fail(SERVER_ERROR)
    ensures r.Send? <==> && ValidObjectId(Str(cid), isValid) && Field(body, "products").Arr?
                         && (forall i :: 0 <= i < |Field(body, "products").items| ==>
                                           GoodItem(Field(body, "products").items[i], isValid))
                         && out.Returned?
    ensures r.Send? ==> r == Send(OK, out.value)
    ensures ReplaceProductsGuard(cid, body, isValid).Call? && out.Threw? ==> r == Fail(ErrorStatus(out.statusCode))
  {
    ReplaceProductsAccepts(cid, body, isValid);
    Answer(ReplaceProductsGuard(cid, body, isValid), out, OK)
  }

  /** An empty array of products passes the check. */
  lemma EmptyProductsAccepted(cid: string, isValid: Value -> bool)
    requires ValidObjectId(Str(cid), isValid)
    ensures ReplaceProductsGuard(cid, map["products" := Arr([])], isValid) == Call((cid, []))
  {
  }

  /** Every route checks the cart id, and the product id where it has one,
      before it calls the manager. */
  lemma IdsCheckedFirst(cid: string, pid: string, body: map<string, Value>, isValid: Value -> bool)
    requires !ValidObjectId(Str(cid), isValid) || !ValidObjectId(Str(pid), isValid)
    ensures CartProductGuard(cid, pid, isValid) == Reject(BAD_REQUEST)
    ensures AddProductGuard(cid, pid, body, isValid) == Reject(BAD_REQUEST)
    ensures UpdateQuantityGuard(cid, pid, body, isValid) == Reject(BAD_REQUEST)
    ensures !ValidObjectId(Str(cid), isValid) ==> IdGuard(cid, isValid) == Reject(BAD_REQUEST)
    ensures !ValidObjectId(Str(cid), isValid) ==> ReplaceProductsGuard(cid, body, isValid) == Reject(BAD_REQUEST)
  {
  }

  /** POST `/`: no checks; the manager receives the object
      `{ userId, products }` taken from the body. */
  function CreateCartArgument(body: map<string, Value>): (arg: map<string, Value>)
    ensures arg.Keys == {"userId", "products"}
    ensures arg["userId"] == Field(body, "userId") && arg["products"] == Field(body, "products")
  {
    map["userId" := Field(body, "userId"), "products" := Field(body, "products")]
  }

  /** Serving POST `/` from the file-backed store, which reads `items` from
      its argument: the key is absent, so every cart made here starts with no
      lines, whatever `products` the body sends. */
  method ServeCreateCart(store: FileCarts.CartManager, body: map<string, Value>) returns (cart: FileCarts.Cart)
    modifies store
    ensures cart.products == []
    ensures cart.userId == (if Nullish(Field(body, "userId")) then Null else Field(body, "userId"))
    ensures cart.id == FileCarts.NextId(old(store.carts))
    ensures store.carts == old(store.carts) + [cart]
    ensures store.writes == old(store.writes) + 1
  {
    var arg := CreateCartArgument(body);
    var items := Field(arg, "items");
    assert items.Undefined?;
    cart := store.CreateCart(Field(arg, "userId"), None);
  }
}
