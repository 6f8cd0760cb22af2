# E-commerce backend: carts, catalogue, schemas, DTOs and role check

This project models the server side of a small e-commerce backend written for Express with Mongoose.

- **File-backed cart store.** `CartManager` keeps every cart in one JSON file. It looks carts up by numeric id, creates carts with id = max(0, largest id) + 1, adds products to a cart (merging quantities into an existing line) and deletes carts by filtering the list. The file is the `carts` field of a Dafny class, and each operation is a method that changes it.
- **Two cart routers.**
  - The numeric-id router (`carts.router.js`) is the one the application mounts at `/api/carts`.
  - The ObjectId router (`cart.router.js`) checks ids with the ObjectId library.

  Each handler of the numeric-id router is modelled as a function of its parsed inputs and of the outcome of the store call it makes. In the ObjectId router, a handler's checks are a `Guard`: they reject with a status, or pass the arguments of the call. Each route then composes its guard with the outcome of the manager call in one `Route` function. The product router is modelled by its query construction, its listing reply (`ProductRouter.ListProducts`, which takes the page the manager returns) and the guards of its other routes.
- **Product router.**
  - The filter and options it builds from the query string.
  - The rule that makes an empty filtered listing a 404.
  - The checks on new-product bodies and on update bodies.
- **Product manager.** The Mongo collection is a map from document id to product. The model covers:
  - code-uniqueness checks on add and update, and the order of those checks;
  - the not-found errors;
  - the unique index on `code`.
- **Schemas.**
  - Product: the `trim` and `uppercase` setters, the defaults, and the validators that run on save.
  - Cart: its line validators, its default owner, and the pre-save hook that stamps `updatedAt`.
- **DTOs.** The product and cart views.
- **`authorizeRole`.** The role-check middleware.

The ObjectId router's POST `/:cid/purchase` (src/routes/cart.router.js lines 148-158) calls `purchaseCart`, and src/models/Ticket.js declares a ticket schema, but no file implements checkout or stock decrements, and tickets have only a schema and a pass-through repository (src/repositories/TicketRepository.js lines 4-6). The model therefore has none of them.

Three behaviours of the code as written:

- **ObjectId router calls methods that do not exist.** The router calls `updateProductQuantity`, `updateCartProducts`, `removeProductFromCart`, `clearCart` and `purchaseCart`, but the cart manager defines none of them. Against the shipped manager, each of those calls throws a TypeError, which is answered 500. The model keeps what those calls return as a parameter.
- **POST `/` of the ObjectId router always creates an empty cart.** It passes `{ userId, products }` to `createCart`, which reads `items`. `CartRouter.ServeCreateCart` proves the result.
- **The product manager's checks leave gaps.**
  - The duplicate-code checks pass the code to `findOne`. Mongoose runs the schema's setters on query filters, so they look for the trimmed, upper-cased code, which is the one that is stored.
  - Updates skip the update check on an empty code, so two updates can each try to store an empty code. The unique index then refuses the second one with an error that has no status code, answered 500.
  - Adding a product whose title is blank passes the router, because the title is truthy. The title is then trimmed to empty and fails validation on save, which is answered 500.
  - Updates run no validators. The PUT route refuses a negative price or stock itself, but nothing checks the strings, so a blank title is stored empty (`Catalogue.BlankTitleStored`).

## Model

| member | source | states |
|---|---|---|
| FileCarts.FindCart | src/managers/CartManager.js:21-24 | the index of the first cart with the id, or none exactly when no cart has it |
| FileCarts.FindLine | src/managers/CartManager.js:49 | the index of the first line for the product, or none exactly when no line has it |
| FileCarts.MaxId | src/managers/CartManager.js:29 | the fold is at least its start, bounds every id, and is either the start or some cart's id |
| FileCarts.NextIdFresh | src/managers/CartManager.js:29-32 | the new id is at least 1 and above every existing id, so appending keeps ids distinct |
| FileCarts.AddLineMerges | src/managers/CartManager.js:49-53 | adding to an existing product changes only that line's quantity; line count and order stay the same |
| FileCarts.AddLineAppends | src/managers/CartManager.js:54-55 | adding to a product without a line appends exactly that line |
| FileCarts.AddLineKeepsWellFormed | src/managers/CartManager.js:49-55 | adding a positive quantity keeps quantities at least 1 and products distinct |
| FileCarts.AddLine | src/managers/CartManager.js:49-55 | adding a product keeps every existing line's product in place, adds one line exactly when the product had none, and leaves a line for the product |
| FileCarts.WithoutId | src/managers/CartManager.js:65 | the filter never lengthens the list and keeps no cart with the id |
| FileCarts.WithoutIdMembers | src/managers/CartManager.js:65 | the filter keeps exactly the carts whose id differs |
| FileCarts.WithoutIdConcat | src/managers/CartManager.js:65 | the filter keeps the relative order of the carts it keeps |
| FileCarts.WithoutIdLength | src/managers/CartManager.js:62-67 | the list gets shorter exactly when some cart has the id, and is unchanged otherwise |
| FileCarts.CartManager.constructor | src/managers/CartManager.js:11-19 | the store is the file's content, or empty when the file cannot be read |
| FileCarts.CartManager.GetCartById | src/managers/CartManager.js:21-24 | returns the first cart with that id, or nothing exactly when none has it |
| FileCarts.CartManager.CreateCart | src/managers/CartManager.js:27-40 | appends one cart whose id is the next id and whose owner is `userId ?? null`; its lines are the items, or none; one write; ids stay distinct |
| FileCarts.CartManager.AddProductToCart | src/managers/CartManager.js:43-59 | an unknown id returns null with nothing changed or written; otherwise only the first matching cart changes (its lines become AddLine of the old ones, quantity 1 by default) and the file is written once |
| FileCarts.CartManager.DeleteCart | src/managers/CartManager.js:62-71 | true exactly when some cart had the id; the store becomes the filtered list, in order; it is written only when something was removed |
| CartsRouter.ListCarts | src/routes/carts.router.js:10-17 | sends the list, or 500 when loading throws |
| CartsRouter.GetCart | src/routes/carts.router.js:20-31 | 400 exactly for a NaN id, 404 exactly when the store finds nothing, 500 exactly when it throws, otherwise the cart found |
| CartsRouter.CreateCart | src/routes/carts.router.js:34-47 | 400 exactly when userId is falsy or items is not an array; otherwise 201 with the created cart, or 500 |
| CartsRouter.AddProduct | src/routes/carts.router.js:50-67 | the id is checked first, then a falsy or non-positive quantity, each giving 400 before the store is called; a null result is 404; a throw is 500; a returned cart is sent, exactly then, with 200 |
| CartsRouter.DeleteCart | src/routes/carts.router.js:70-81 | 400 for a NaN id, 404 for a false result, 500 for a throw, the confirmation message for true |
| CartsRouter.ServeGetCart | src/routes/carts.router.js:20-31 | against the store: a non-numeric id (NaN) is 400; success exactly when some stored cart has the id (404 otherwise), carrying the first stored cart with that id, with status 200; nothing changes |
| CartsRouter.ServeDeleteCart | src/routes/carts.router.js:70-81 | against the store: success exactly when a cart had the id; the store then holds the other carts in their order, so no cart has the id; success is 200 with the confirmation message, and a numeric id that matches no cart is 404; never 500; a non-numeric id is 400 and writes nothing, otherwise the file is written exactly when a cart was removed |
| CartRouter.CartProductGuard | src/routes/cart.router.js:120-132 | checks the cart id, then the product id; 400 unless both are valid |
| CartRouter.DefaultQuantity | src/routes/cart.router.js:56 | an absent quantity becomes 1, and a present one is kept |
| CartRouter.AddProductGuard | src/routes/cart.router.js:53-72 | calls the manager exactly when both ids are valid and the quantity (1 by default) is a number of at least 1; 400 otherwise |
| CartRouter.UpdateQuantityGuard | src/routes/cart.router.js:75-94 | as for adding but with no default: an absent quantity is 400 |
| CartRouter.ItemValid | src/routes/cart.router.js:104-106 | the per-item test throws exactly on a null or undefined item |
| CartRouter.EveryItemValid | src/routes/cart.router.js:104-106 | `every` returning true means every item is well formed; throwing means some item is null or undefined |
| CartRouter.EveryItemValidMeaning | src/routes/cart.router.js:104-106 | `every` accepts exactly arrays of well-formed items, and throws exactly when a null item comes before any bad item |
| CartRouter.ReplaceProductsGuard | src/routes/cart.router.js:97-117 | an invalid id or a non-array is 400; for an array, 500 exactly when the item check throws; no other status |
| CartRouter.ReplaceProductsAccepts | src/routes/cart.router.js:104-110 | the manager is called exactly when the id is valid and every item has a valid product id and a numeric quantity of at least 1; the answer is 500 exactly when a null item comes before any bad one |
| CartRouter.EmptyProductsAccepted | src/routes/cart.router.js:104-110 | an empty products array passes |
| CartRouter.CartRoute | src/routes/cart.router.js:28-38 | a route with only the cart id, end to end: an invalid id is 400 and the manager's outcome does not matter; otherwise its result is sent with 200 exactly when it returns, and an error is answered with its status (the same shape at :135-145, :148-158 and :161-170) |
| CartRouter.RemoveProductRoute | src/routes/cart.router.js:120-132 | an invalid cart or product id is 400; otherwise the result with 200 exactly when the manager returns, or the error's status |
| CartRouter.AddProductRoute | src/routes/cart.router.js:53-72 | an invalid id, or a quantity (1 when absent) that is not a number of at least 1, is 400; otherwise the result with 200 exactly when the manager returns, or the error's status |
| CartRouter.UpdateQuantityRoute | src/routes/cart.router.js:75-94 | as for adding, but an absent quantity is 400 |
| CartRouter.ReplaceProductsRoute | src/routes/cart.router.js:97-117 | an invalid id, a non-array or a bad item is 400; a null item reached by the check is 500; the result is sent with 200 exactly when every item is well formed and the manager returns; once the checks pass, a manager error is answered with its status |
| CartRouter.IdsCheckedFirst | src/routes/cart.router.js:31-164 | an invalid cart or product id is 400 on every route, whatever the body |
| CartRouter.CreateCartArgument | src/routes/cart.router.js:41-50 | the manager receives exactly the keys userId and products from the body |
| CartRouter.ServeCreateCart | src/routes/cart.router.js:41-50 | against the file store, the cart created has no lines whatever products were sent, takes the next id, max(0, largest id) + 1, is appended, and the file is written once |
| ProductModel.TrimStart | src/models/Product.js:20 | removes exactly the leading white space |
| ProductModel.TrimEnd | src/models/Product.js:20 | removes exactly the trailing white space |
| ProductModel.TrimProperties | src/models/Product.js:17-26 | a trimmed string has no white space at either end; trimming is idempotent and leaves trimmed strings alone |
| ProductModel.UpperTrimCommute | src/models/Product.js:27-33 | the uppercase and trim setters commute |
| ProductModel.UpperIdempotent | src/models/Product.js:31 | upper-casing leaves no lower-case letter and is idempotent |
| ProductModel.NormalizeCode | src/models/Product.js:27-33 | the code the setters store is upper case and no longer than the input |
| ProductModel.NormalizeCodeProperties | src/models/Product.js:27-33 | a stored code is trimmed and upper case, and normalising it again changes nothing |
| ProductModel.Build | src/models/Product.js:16-59 | title, description and category are stored trimmed and the code trimmed and upper-cased; price and stock are kept; status defaults to true; thumbnails default to empty |
| ProductModel.BuildWellFormed | src/models/Product.js:34-47 | a built product that passes validation has non-negative price and stock and normalised strings |
| ProductModel.BlankTitleRejected | src/models/Product.js:17-21 | an all-white-space title is stored empty and fails the required validator |
| Catalogue.Apply | src/managers/ProductManager.js:94 | each supplied field is stored through its setters (strings trimmed, the code normalised, the rest as given); unsupplied fields are unchanged |
| Catalogue.ApplyKeepsCodeNormal | src/models/Product.js:27-33 | an update keeps a stored code normalised |
| Catalogue.ApplyKeepsWellFormed | src/managers/ProductManager.js:94 | an update whose values would pass the validators keeps the product well formed |
| Catalogue.NegativePriceStored | src/managers/ProductManager.js:94 | no validator runs on update, so a negative price given to the manager is stored |
| Catalogue.BlankTitleStored | src/managers/ProductManager.js:94 | a blank title in an update is stored as the empty string, which the schema forbids |
| Catalogue.StoreKeepsInvariant | src/models/Product.js:27-33 | storing a normalised product whose code no other product has keeps codes unique and normalised |
| Catalogue.StoreKeepsWellFormed | src/managers/ProductManager.js:71-72 | storing a well-formed product keeps all products well formed |
| Catalogue.InsertBuilt | src/managers/ProductManager.js:71-73 | inserting a validated, non-clashing built product keeps the collection invariant |
| Catalogue.ProductManager.constructor | src/managers/ProductManager.js:3-8 | the manager starts over a collection with unique, normalised codes |
| Catalogue.ProductManager.GetProductById | src/managers/ProductManager.js:47-55 | the product when the id is present, otherwise 404 |
| Catalogue.ProductManager.AddProduct | src/managers/ProductManager.js:63-74 | a stored code equal to the normalised supplied code is 400 and nothing changes; otherwise exactly one well-formed product is added and returned exactly when validation passes, and a validation failure has no status code (500) |
| Catalogue.CodeTaken | src/managers/ProductManager.js:86 | a duplicate lookup finds a product only if some stored product has the code; excluding an id that is not stored changes nothing |
| Catalogue.ProductManager.UpdateProduct | src/managers/ProductManager.js:83-101 | a truthy code another product holds, once normalised, is 400 before existence is checked; a missing id is 404; otherwise it succeeds exactly when the updated code clashes with no other product, and only the supplied fields change; a unique-index refusal (no 400 clash, the id stored, yet a throw) has no status code; keeping the product's own code is allowed |
| Catalogue.ProductManager.DeleteProduct | src/managers/ProductManager.js:109-117 | 404 when absent; otherwise the product is removed and returned, and nothing else changes |
| ProductRouter.BuildQuery | src/routes/product.router.js:21-55 | query adds a case-insensitive match over three fields; category adds an exact key; a present status filters on being "true"; asc and desc set the price sort, anything else none; limit and page default to 10 and 1 |
| ProductRouter.ListProducts | src/routes/product.router.js:58-71 | 404 exactly when the page is empty, some filter is present and nothing matches at all; a throw keeps its status |
| ProductRouter.NotFoundOnlyWhenFiltered | src/routes/product.router.js:63-71 | with no filter, or with matches elsewhere, an empty page is still 200 |
| ProductRouter.NewProductGuard | src/routes/product.router.js:119-145 | 400 exactly when a required string is falsy or price or stock is absent, null, not a number or negative; otherwise the body's fields with the thumbnails and status defaults |
| ProductRouter.NewProductStatusDefault | src/routes/product.router.js:143-144 | an explicit false status is kept, and null becomes true |
| ProductRouter.BadUpdateNumberMeaning | src/routes/product.router.js:181-190 | the update test rejects exactly a present non-number or a negative number |
| ProductRouter.UpdateProductGuard | src/routes/product.router.js:167-191 | 400 for an invalid id, for a body with `_id` or `id`, or for a bad price or stock; otherwise the body is passed on unchanged |
| Http.IdGuard | src/routes/cart.router.js:9-15 | passes exactly a truthy id the ObjectId test accepts, and is 400 otherwise; both routers define this same test, the product router at src/routes/product.router.js lines 10-16, and every single-id route uses it |
| Http.Answer | src/routes/cart.router.js:28-38 | shared by the ObjectId router's `Route` functions: a rejected guard answers its status; otherwise the manager's result is sent, or its error's status |
| Http.ErrorStatus | src/routes/product.router.js:96-99 | an error's status code, or 500 when it has none |
| CartModel.DuplicateProductsAllowed | src/models/Cart.js:12-26 | two lines for the same product pass validation |
| CartModel.BadLineRejected | src/models/Cart.js:14-23 | a line without a product or with quantity below 1 fails validation |
| CartModel.CartDocument.constructor | src/models/Cart.js:7-34 | the owner defaults to "guest", and both timestamps start at the current time |
| CartModel.CartDocument.Save | src/models/Cart.js:38-41 | validation runs first and an invalid document is left unchanged; otherwise updatedAt becomes the current time and createdAt stays |
| ProductDTO.ToProductDTO | src/dto/ProductDTO.js:2-9 | id, title, price, stock and category are copied unchanged |
| ProductDTO.ProductDTOHidesInternals | src/dto/ProductDTO.js:2-9 | code, description, status and thumbnails do not affect the view |
| CartDTO.LineViews | src/dto/CartDTO.js:4-9 | one view per line, in order: product id, title and price from the product, quantity copied; it throws exactly when a product did not populate |
| CartDTO.ToCartDTO | src/dto/CartDTO.js:1-11 | the cart's id, and its lines' views with the same length and order |
| CartDTO.CartDTOIgnoresOwnerAndTimestamps | src/dto/CartDTO.js:2-10 | owner and timestamps do not affect the view |
| CartDTO.CartDTOAgreesWithProductDTO | src/dto/CartDTO.js:5-7 | each line's id, title and price are those of the product's own public view |
| Authorization.AuthorizeRole | src/middleware/authorization.js:2-11 | next is called exactly when there is a user whose role equals the required role; otherwise 403 |
| Authorization.NoRoleHierarchy | src/middleware/authorization.js:5 | "admin" does not satisfy "user", nor "user" "admin" |

## Left out

- File I/O and JSON: the carts file is an in-memory sequence, and a read or parse failure loads as an empty list. Writes are counted, not performed.
- Mongoose, MongoDB and the DAO/repository layers.
  - The product collection is a map from document id to product.
  - `getProducts` and `paginate` are left out: the page the manager returns is a parameter of `ProductRouter.ListProducts`.
  - Casting request values to schema types is left out. Update patches and new-product data arrive typed (`Catalogue.Patch`, `ProductModel.ProductInput`). Nothing connects them to the untyped fields that `ProductRouter.NewProductGuard` and `ProductRouter.UpdateProductGuard` pass on.
- The duplicate-code filters are taken to go through the schema setters, as Mongoose 5 and later do for string paths. With a library that compared the raw code, a clash only after normalisation would reach the unique index and be answered 500.
- `Number(...)` parsing of path parameters: the routes take its result as an option, with `None` for NaN. Non-numeric `:code` values reach `Number(productId)` as NaN in the store, never match a line and always append one. The model takes the product id as an integer. Likewise `Number(limit)` and `Number(page)` in the product list (src/routes/product.router.js:44-45) are not modelled: `ProductRouter.QueryOptions` and `ProductRouter.BuildQuery` keep limit and page as the raw query values.
- JavaScript numbers are integers here (prices in cents), so NaN, floating point and rounding are not modelled.
- `Js.LessThan` leaves out the numeric parse JavaScript applies to strings, arrays and objects in `<`. It is false for them, so a string quantity such as "-1" counts as positive.
- `+=` on a string quantity (string concatenation) is not modelled.
- The product schema's `timestamps: true` (src/models/Product.js:58): products carry no `createdAt` or `updatedAt`, so the model does not show `findByIdAndUpdate` bumping `updatedAt` on an update.
- The replies of the product router's get-by-id, create, update and delete routes after their manager call are not composed with their guards; the guards and the manager's outcomes (`Catalogue.ProductManager`) are stated separately.
- Console logging (src/managers/CartManager.js:16, src/managers/ProductManager.js:33, src/middleware/authorization.js:4,6,9) is not modelled; it changes no state the handlers read.
- Unicode case mapping: the uppercase setter maps ASCII letters only.
- The ObjectId library's validity test is a parameter, not a definition.
- The Express error handler is assumed to answer an error's `statusCode`, or 500 when it has none. It is not part of this model.
- The manager methods `updateProductQuantity`, `updateCartProducts`, `removeProductFromCart`, `clearCart` and `purchaseCart` are called by the ObjectId router but are defined nowhere. Their results are parameters, and no checkout, stock or ticket behaviour is modelled.
- CartRouter.ReplaceProductsGuard: its own contract states the statuses. The acceptance condition, item by item, is proved in `CartRouter.ReplaceProductsAccepts`.
- FileCarts.CartManager.CreateCart: the store keeps any array as the new cart's lines. The model types those items as numeric lines, so it does not capture two cases. A null item makes a later `addProductToCart` on that cart throw, answered 500. A line whose product is a string never matches `===`, so adding that product gets a second line.
- Pagination links, Socket.io broadcasts, views, sessions, users, mail, the browser client and server start-up are not modelled.
- Response messages are not modelled, except the delete confirmation of the numeric-id router.
- Concurrency between requests is not modelled: each operation runs alone against the store.
