/** The router mounted at `/api/carts` over the file-backed cart store. Each
    handler is a function of its parsed inputs and of the outcome of the store
    call it makes; `cid` is the result of `Number(req.params.cid)`, `None`
    standing for NaN. A handler that rejects before calling the store answers
    the same whatever that outcome would have been. Every error the store throws
    is answered 500, whatever its status code. */
module CartsRouter {
  import opened Js
  import opened Http
  import FileCarts

  type Cart = FileCarts.Cart

  /** GET `/`: the whole list of carts. */
  function ListCarts(out: Outcome<seq<Cart>>): (r: Reply<seq<Cart>>)
    ensures r.Send? <==> out.Returned?
    ensures r.Send? ==> r.status == OK && r.payload == out.value
    ensures r.Fail? ==> r.status == SERVER_ERROR
  {
    match out
    case Returned(carts) => Send(OK, carts)
    case Threw(_) => Fail(SERVER_ERROR)
  }

  /** GET `/:cid`: 400 for a NaN id without consulting the store, 404 when the
      store has no such cart, the cart otherwise. */
  function GetCart(cid: Option<int>, found: Outcome<Option<Cart>>): (r: Reply<Cart>)
    ensures r.status == BAD_REQUEST <==> cid.None?
    ensures r.status == NOT_FOUND <==> cid.Some? && found == Returned(None)
    ensures r.status == SERVER_ERROR <==> cid.Some? && found.Threw?
    ensures r.Send? <==> cid.Some? && found.Returned? && found.value.Some?
    ensures r.Send? ==> r.status == OK && found == Returned(Some(r.payload))
  {
    if cid.None? then Fail(BAD_REQUEST)
    else
      match found
      case Threw(_) => Fail(SERVER_ERROR)
      case Returned(None) => Fail(NOT_FOUND)
      case Returned(Some(cart)) => Send(OK, cart)
  }

  /** The check of POST `/`: a truthy `userId` and an array `items`. */
  predicate CreateAccepted(userId: Value, items: Value) {
    Truthy(userId) && items.Arr?
  }

  /** POST `/`: 400 unless `userId` is truthy and `items` is an array,
      otherwise 201 with the cart the store created. */
  function CreateCart(userId: Value, items: Value, created: Outcome<Cart>): (r: Reply<Cart>)
    ensures r.status == BAD_REQUEST <==> !Truthy(userId) || !items.Arr?
    ensures r.Send? <==> CreateAccepted(userId, items) && created.Returned?
    ensures r.Send? ==> r.status == CREATED && r.payload == created.value
    ensures CreateAccepted(userId, items) && created.Threw? ==> r == Fail(SERVER_ERROR)
  {
    if !Truthy(userId) || !items.Arr? then Fail(BAD_REQUEST)
    else
      match created
      case Threw(_) => Fail(SERVER_ERROR)
      case Returned(cart) => Send(CREATED, cart)
  }

  /** The quantity check of POST `/:cid/product/:code`: `!quantity || quantity <= 0`. */
  predicate BadQuantity(quantity: Value) {
    !Truthy(quantity) || LessThan(quantity, 1)
  }

  /** POST `/:cid/product/:code`: the id is checked first, then the quantity;
      either failing gives 400 and the store is not called. A null result
      from the store is 404. */
  function AddProduct(cid: Option<int>, quantity: Value, updated: Outcome<Option<Cart>>): (r: Reply<Cart>)
    ensures cid.None? ==> r == Fail(BAD_REQUEST)
    ensures r.status == BAD_REQUEST <==> cid.None? || BadQuantity(quantity)
    ensures quantity.Num? ==> (BadQuantity(quantity) <==> quantity.n <= 0)
    ensures r.status == NOT_FOUND <==> cid.Some? && !BadQuantity(quantity) && updated == Returned(None)
    ensures r.status == SERVER_ERROR <==> cid.Some? && !BadQuantity(quantity) && updated.Threw?
    ensures r.Send? <==> cid.Some? && !BadQuantity(quantity) && updated.Returned? && updated.value.Some?
    ensures r.Send? ==> r.status == OK && updated == Returned(Some(r.payload))
  {
    if cid.None? then Fail(BAD_REQUEST)
    else if BadQuantity(quantity) then Fail(BAD_REQUEST)
    else
      match updated
      case Threw(_) => Fail(SERVER_ERROR)
      case Returned(None) => Fail(NOT_FOUND)
      case Returned(Some(cart)) => Send(OK, cart)
  }

  /** The message DELETE `/:cid` sends on success. */
  const DELETED_MESSAGE := "Carrito eliminado correctamente"

  /** DELETE `/:cid`: 400 for a NaN id without consulting the store, 404 when
      the store deleted nothing, a confirmation otherwise. */
  function DeleteCart(cid: Option<int>, deleted: Outcome<bool>): (r: Reply<string>)
    ensures r.status == BAD_REQUEST <==> cid.None?
    ensures r.status == NOT_FOUND <==> cid.Some? && deleted == Returned(false)
    ensures r.status == SERVER_ERROR <==> cid.Some? && deleted.Threw?
    ensures r.Send? <==> cid.Some? && deleted == Returned(true)
    ensures r.Send? ==> r == Send(OK, DELETED_MESSAGE)
  {
    if cid.None? then Fail(BAD_REQUEST)
    else
      match deleted
      case Threw(_) => Fail(SERVER_ERROR)
      case Returned(false) => Fail(NOT_FOUND)
      case Returned(true) => Send(OK, DELETED_MESSAGE)
  }

  /** Serving GET `/:cid` from a store: a success exactly when some stored
      cart has the id, carrying the first such cart; the store is left as it was. */
  method ServeGetCart(store: FileCarts.CartManager, cid: Option<int>) returns (r: Reply<Cart>)
    ensures cid.Some? && (forall i :: 0 <= i < |store.carts| ==> store.carts[i].id != cid.value)
            ==> r == Fail(NOT_FOUND)
    ensures cid.None? ==> r == Fail(BAD_REQUEST)
    ensures cid.Some? && (exists i :: 0 <= i < |store.carts| && store.carts[i].id == cid.value) ==> r.Send?
    ensures r.Send? ==> r.status == OK
    ensures r.Send? ==> cid.Some? && r.payload.id == cid.value && r.payload in store.carts
    ensures r.Send? ==>
      exists i :: && 0 <= i < |store.carts| && store.carts[i] == r.payload
                  && forall j :: 0 <= j < i ==> store.carts[j].id != cid.value
  {
    if cid.None? {
      r := GetCart(cid, Returned(None));
    } else {
      var found := store.GetCartById(cid.value);
      r := GetCart(cid, Returned(found));
    }
  }

  /** Serving DELETE `/:cid` from a store: a confirmation exactly when a cart
      with that id existed; the store then holds the other carts, in order. */
  method ServeDeleteCart(store: FileCarts.CartManager, cid: Option<int>) returns (r: Reply<string>)
    modifies store
    ensures cid.None? ==> r == Fail(BAD_REQUEST) && store.carts == old(store.carts)
    ensures cid.None? ==> store.writes == old(store.writes)
    ensures cid.Some? ==> store.writes == old(store.writes) + (if r.Send? then 1 else 0)
    ensures cid.Some? ==> (r.Send? <==> exists i :: 0 <= i < |old(store.carts)| && old(store.carts)[i].id == cid.value)
    ensures cid.Some? ==> store.carts == FileCarts.WithoutId(old(store.carts), cid.value)
    ensures cid.Some? ==> forall c :: c in store.carts ==> c.id != cid.value
    ensures cid.Some? && !r.Send? ==> r == Fail(NOT_FOUND)
    ensures r.Send? ==> r == Send(OK, DELETED_MESSAGE)
    ensures r.status != SERVER_ERROR
  {
    if cid.None? {
      r := DeleteCart(cid, Returned(false));
    } else {
      var deleted := store.DeleteCart(cid.value);
      r := DeleteCart(cid, Returned(deleted));
    }
  }
}
