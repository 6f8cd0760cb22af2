/** The product router: the filter and options it builds from the query
    string, when an empty listing is a 404, and the checks each handler runs
    before it calls the product manager. */
module ProductRouter {
  import opened Js
  import opened Http

  /** One `{ field: { $regex: pattern, $options: options } }` clause. */
  datatype RegexMatch = RegexMatch(field: string, pattern: Value, options: string)

  /** The filter handed to the paginated query; `None` marks an absent key. */
  datatype Filter = Filter(anyOf: Option<seq<RegexMatch>>, category: Option<Value>, status: Option<bool>)

  /** The query options: `limit` and `page` as given (defaults 10 and 1),
      before `Number` converts them, and the price sort direction. */
  datatype QueryOptions = QueryOptions(limit: Value, page: Value, lean: bool, sortPrice: Option<int>)

  /** A page of results as the manager reports it. */
  datatype Page<T> = Page(docs: seq<T>, totalDocs: int)

  /** The body of a new product as the router hands it to the manager. */
  datatype ProductData = ProductData(
    title: Value, description: Value, code: Value, price: int, stock: int,
    category: Value, thumbnails: Value, status: Value)

  /** Some filter was asked for: `query || category || status !== undefined`. */
  predicate HasFilter(params: map<string, Value>) {
    Truthy(Field(params, "query")) || Truthy(Field(params, "category")) || !Field(params, "status").Undefined?
  }

  /** GET `/`: the filter and options, built one key at a time. A truthy
      `query` matches title, description or category case-insensitively; a
      truthy `category` must match exactly; a present `status` filters on
      whether it is the string "true"; `sort` "asc" or "desc" orders by
      price, anything else leaves the order alone. */
  method BuildQuery(params: map<string, Value>) returns (filter: Filter, options: QueryOptions)
    ensures filter.anyOf.Some? <==> Truthy(Field(params, "query"))
    ensures filter.anyOf.Some? ==>
              && |filter.anyOf.value| == 3
              && filter.anyOf.value[0].field == "title"
              && filter.anyOf.value[1].field == "description"
              && filter.anyOf.value[2].field == "category"
              && (forall i :: 0 <= i < 3 ==> && filter.anyOf.value[i].pattern == Field(params, "query")
                                             && filter.anyOf.value[i].options == "i")
    ensures filter.category.Some? <==> Truthy(Field(params, "category"))
    ensures filter.category.Some? ==> filter.category.value == Field(params, "category")
    ensures filter.status.Some? <==> !Field(params, "status").Undefined?
    ensures filter.status.Some? ==> (filter.status.value <==> Field(params, "status") == Str("true"))
    ensures options.sortPrice == Some(1) <==> Field(params, "sort") == Str("asc")
    ensures options.sortPrice == Some(-1) <==> Field(params, "sort") == Str("desc")
    ensures options.sortPrice.None? <==> Field(params, "sort") != Str("asc") && Field(params, "sort") != Str("desc")
    ensures options.limit == (if Field(params, "limit").Undefined? then Num(10) else Field(params, "limit"))
    ensures options.page == (if Field(params, "page").Undefined? then Num(1) else Field(params, "page"))
    ensures options.lean
  {
    var limit := Field(params, "limit");
    if limit.Undefined? { limit := Num(10); }
    var page := Field(params, "page");
    if page.Undefined? { page := Num(1); }
    var sort := Field(params, "sort");
    var query := Field(params, "query");
    var category := Field(params, "category");
    var status := Field(params, "status");

    filter := Filter(None, None, None);
    if Truthy(query) {
      filter := filter.(anyOf := Some([
        RegexMatch("title", query, "i"),
        RegexMatch("description", query, "i"),
        RegexMatch("category", query, "i")]));
    }
    if Truthy(category) {
      filter := filter.(category := Some(category));
    }
    if !status.Undefined? {
      filter := filter.(status := Some(status == Str("true")));
    }

    options := QueryOptions(limit, page, true, None);
    if sort == Str("asc") {
      options := options.(sortPrice := Some(1));
    } else if sort == Str("desc") {
      options := options.(sortPrice := Some(-1));
    }
  }

  /** GET `/`: the page the manager returned, except that an empty page is a
      404 when some filter was asked for and nothing at all matched. */
  function ListProducts<T>(params: map<string, Value>, out: Outcome<Page<T>>): (r: Reply<Page<T>>)
    ensures out.Returned? ==> (r.Fail? <==> |out.value.docs| == 0 && HasFilter(params) && out.value.totalDocs == 0)
    ensures out.Returned? && r.Fail? ==> r.status == NOT_FOUND
    ensures r.Send? ==> out.Returned? && r == Send(OK, out.value)
    ensures out.Threw? ==> r == Fail(ErrorStatus(out.statusCode))
  {
    match out
    case Threw(c) => Fail(ErrorStatus(c))
    case Returned(page) =>
      if |page.docs| == 0 && HasFilter(params) && page.totalDocs == 0 then Fail(NOT_FOUND)
      else Send(OK, page)
  }

  /** Without a filter an empty catalogue is an empty page, never a 404; and
      with one, an empty page past the last one is still a 200. */
  lemma NotFoundOnlyWhenFiltered<T>(params: map<string, Value>, page: Page<T>)
    ensures !HasFilter(params) ==> ListProducts(params, Returned(page)) == Send(OK, page)
    ensures page.totalDocs > 0 ==> ListProducts(params, Returned(page)) == Send(OK, page)
  {
  }

  /** POST `/`: 400 when title, description, code or category is falsy, when
      price or stock is null or absent, or when either is not a number or is
      negative. Otherwise the data passed on has `thumbnails` defaulting to
      an empty array when falsy and `status` to true when null or absent. */
  function NewProductGuard(body: map<string, Value>): (g: Guard<ProductData>)
    ensures g.Call? <==> && Truthy(Field(body, "title")) && Truthy(Field(body, "description"))
                         && Truthy(Field(body, "code")) && Truthy(Field(body, "category"))
                         && Field(body, "price").Num? && Field(body, "price").n >= 0
                         && Field(body, "stock").Num? && Field(body, "stock").n >= 0
    ensures g.Reject? ==> g.status == BAD_REQUEST
    ensures g.Call? ==> && g.args.title == Field(body, "title")
                        && g.args.description == Field(body, "description")
                        && g.args.code == Field(body, "code")
                        && g.args.category == Field(body, "category")
                        && Num(g.args.price) == Field(body, "price")
                        && Num(g.args.stock) == Field(body, "stock")
    ensures g.Call? ==> g.args.thumbnails == (if Truthy(Field(body, "thumbnails")) then Field(body, "thumbnails") else Arr([]))
    ensures g.Call? ==> g.args.status == (if Nullish(Field(body, "status")) then Bool(true) else Field(body, "status"))
  {
    var title, description, code := Field(body, "title"), Field(body, "description"), Field(body, "code");
    var price, stock, category := Field(body, "price"), Field(body, "stock"), Field(body, "category");
    var thumbnails, status := Field(body, "thumbnails"), Field(body, "status");
    if !Truthy(title) || !Truthy(description) || !Truthy(code) || Nullish(price) || Nullish(stock) || !Truthy(category) then
      Reject(BAD_REQUEST)
    else if !IsNumber(price) || !IsNumber(stock) || LessThan(price, 0) || LessThan(stock, 0) then
      Reject(BAD_REQUEST)
    else
      Call(ProductData(title, description, code, price.n, stock.n, category,
                       if Truthy(thumbnails) then thumbnails else Arr([]),
                       if Nullish(status) then Bool(true) else status))
  }

  /** An explicit `false` status is kept, while null or an absent status
      becomes true. */
  lemma NewProductStatusDefault(body: map<string, Value>)
    requires NewProductGuard(body).Call?
    ensures Field(body, "status") == Bool(false) ==> NewProductGuard(body).args.status == Bool(false)
    ensures Field(body, "status") == Null ==> NewProductGuard(body).args.status == Bool(true)
  {
  }

  /** The price and stock test of PUT `/:id`, as written:
      `v !== undefined && typeof v !== 'number' || v < 0`. */
  predicate BadUpdateNumber(v: Value) {
    (!v.Undefined? && !IsNumber(v)) || LessThan(v, 0)
  }

  /** The operator precedence of that test does no harm: it rejects exactly a
      value that is present and not a number, or a negative number. */
  lemma BadUpdateNumberMeaning(v: Value)
    ensures BadUpdateNumber(v) <==> (!v.Undefined? && !v.Num?) || (v.Num? && v.n < 0)
  {
  }

  /** PUT `/:id`: the id, then a body naming `_id` or `id`, then price and
      stock; each failure is 400. The body is passed on unchanged. */
  function UpdateProductGuard(id: string, body: map<string, Value>, isValid: Value -> bool)
    : (g: Guard<(string, map<string, Value>)>)
    ensures g.Call? <==> && ValidObjectId(Str(id), isValid)
                         && "_id" !in body && "id" !in body
                         && (Field(body, "price").Undefined? || (Field(body, "price").Num? && Field(body, "price").n >= 0))
                         && (Field(body, "stock").Undefined? || (Field(body, "stock").Num? && Field(body, "stock").n >= 0))
    ensures g.Call? ==> g.args == (id, body)
    ensures g.Reject? ==> g.status == BAD_REQUEST
  {
    if !ValidObjectId(Str(id), isValid) then Reject(BAD_REQUEST)
    else if "_id" in body || "id" in body then Reject(BAD_REQUEST)
    else if BadUpdateNumber(Field(body, "price")) then Reject(BAD_REQUEST)
    else if BadUpdateNumber(Field(body, "stock")) then Reject(BAD_REQUEST)
    else Call((id, body))
  }
}
