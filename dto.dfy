/** The public view of a product: id, title, price, stock and category. */
module ProductDTO {
  import ProductModel

  type Id = string

  /** A stored product with its document id, as a query returns it. */
  datatype ProductDoc = ProductDoc(id: Id, fields: ProductModel.Product)

  datatype ProductView = ProductView(id: Id, title: string, price: int, stock: int, category: string)

  /** The view copies the id and the four public fields unchanged. */
  function ToProductDTO(doc: ProductDoc): (v: ProductView)
    ensures v.id == doc.id
    ensures v.title == doc.fields.title && v.category == doc.fields.category
    ensures v.price == doc.fields.price && v.stock == doc.fields.stock
  {
    ProductView(doc.id, doc.fields.title, doc.fields.price, doc.fields.stock, doc.fields.category)
  }

  /** Code, description, status and thumbnails are not exposed: products
      that differ only in them have the same view. */
  lemma ProductDTOHidesInternals(doc: ProductDoc, code: string, description: string, status: bool, thumbnails: seq<string>)
    ensures ToProductDTO(ProductDoc(doc.id, doc.fields.(code := code, description := description,
                                                        status := status, thumbnails := thumbnails)))
            == ToProductDTO(doc)
  {
  }
}

/** The public view of a cart whose lines have their products populated. */
module CartDTO {
  import opened Js
  import ProductDTO

  type Id = string

  /** A line after population: the referenced product, or `None` when it no
      longer exists (population yields null). */
  datatype PopulatedLine = PopulatedLine(product: Option<ProductDTO.ProductDoc>, quantity: int)

  datatype PopulatedCart = PopulatedCart(
    id: Id, userId: string, products: seq<PopulatedLine>, createdAt: int, updatedAt: int)

  datatype LineView = LineView(product: Id, title: string, price: int, quantity: int)

  datatype CartView = CartView(id: Id, products: seq<LineView>)

  /** The view of one line: product id, title and price from the product,
      quantity from the line. */
  predicate ViewsLine(v: LineView, line: PopulatedLine)
    requires line.product.Some?
  {
    && v.product == line.product.value.id
    && v.title == line.product.value.fields.title
    && v.price == line.product.value.fields.price
    && v.quantity == line.quantity
  }

  /** `products.map(…)`: `None` when a line's product is null, since reading
      its `_id` throws. */
  function LineViews(lines: seq<PopulatedLine>): (r: Option<seq<LineView>>)
    ensures r.Some? <==> forall i :: 0 <= i < |lines| ==> lines[i].product.Some?
    ensures r.Some? ==> |r.value| == |lines|
    ensures r.Some? ==> forall i :: 0 <= i < |lines| ==> ViewsLine(r.value[i], lines[i])
  {
    if |lines| == 0 then Some([])
    else
      match lines[0].product
      case None => None
      case Some(doc) =>
        match LineViews(lines[1..])
        case None => None
        case Some(rest) =>
          Some([LineView(doc.id, doc.fields.title, doc.fields.price, lines[0].quantity)] + rest)
  }

  /** The cart view: the cart's id and one view per line, in order. */
  function ToCartDTO(cart: PopulatedCart): (r: Option<CartView>)
    ensures r.Some? <==> forall i :: 0 <= i < |cart.products| ==> cart.products[i].product.Some?
    ensures r.Some? ==> r.value.id == cart.id && |r.value.products| == |cart.products|
    ensures r.Some? ==> forall i :: 0 <= i < |cart.products| ==> ViewsLine(r.value.products[i], cart.products[i])
  {
    match LineViews(cart.products)
    case None => None
    case Some(views) => Some(CartView(cart.id, views))
  }

  /** The owner and the timestamps do not appear in the view. */
  lemma CartDTOIgnoresOwnerAndTimestamps(cart: PopulatedCart, userId: string, createdAt: int, updatedAt: int)
    ensures ToCartDTO(cart.(userId := userId, createdAt := createdAt, updatedAt := updatedAt)) == ToCartDTO(cart)
  {
  }

  /** Each line's title and price are those of the product's own public view. */
  lemma CartDTOAgreesWithProductDTO(cart: PopulatedCart, i: nat)
    requires ToCartDTO(cart).Some? && i < |cart.products|
    ensures cart.products[i].product.Some?
    ensures ToCartDTO(cart).value.products[i].title == ProductDTO.ToProductDTO(cart.products[i].product.value).title
    ensures ToCartDTO(cart).value.products[i].price == ProductDTO.ToProductDTO(cart.products[i].product.value).price
    ensures ToCartDTO(cart).value.products[i].product == ProductDTO.ToProductDTO(cart.products[i].product.value).id
  {
  }
}
