/** The product manager over the product collection, held as a map from
    document id to stored product. Errors are thrown with a `statusCode`
    (400, 404), or without one when the database itself refuses the write
    (schema validation, the unique index on `code`). */
module Catalogue {
  import opened Js
  import opened Http
  import opened ProductModel

  /** A document id. */
  type Id = string

  /** The fields an update supplies; `None` marks a field it leaves alone. */
  datatype Patch = Patch(
    title: Option<string>,
    description: Option<string>,
    code: Option<string>,
    price: Option<int>,
    status: Option<bool>,
    stock: Option<int>,
    category: Option<string>,
    thumbnails: Option<seq<string>>)

  /** Some product other than `except` has code `code`
      (`findOne({ code, _id: { $ne: except } })`, once the code in the filter
      has gone through the path's setters). */
  predicate CodeTaken(products: map<Id, Product>, code: string, except: Option<Id>)
    ensures CodeTaken(products, code, except) ==> exists p | p in products.Values :: p.code == code
    ensures except.None? || except.value !in products ==>
              (CodeTaken(products, code, except) <==> exists p | p in products.Values :: p.code == code)
  {
    exists id | id in products :: (except.None? || id != except.value) && products[id].code == code
  }

  /** The test `updateProduct` runs first: the update supplies a truthy code
      that some product other than `id` already has, once normalised. */
  predicate CodeClash(products: map<Id, Product>, id: Id, u: Patch) {
    u.code.Some? && u.code.value != [] && CodeTaken(products, NormalizeCode(u.code.value), Some(id))
  }

  /** The database invariant of the collection: codes are unique (the unique
      index) and stored trimmed and upper case (the setters). */
  ghost predicate CatalogueInvariant(products: map<Id, Product>) {
    && (forall a, b :: a in products && b in products && a != b ==> products[a].code != products[b].code)
    && (forall id :: id in products ==> NormalizeCode(products[id].code) == products[id].code)
  }

  /** Every stored product is well formed (as a save leaves it). */
  ghost predicate AllWellFormed(products: map<Id, Product>) {
    forall id :: id in products ==> WellFormed(products[id])
  }

  /** `findByIdAndUpdate` without validators: the supplied fields overwrite
      the stored ones, through the same setters; the others stay. */
  function Apply(p: Product, u: Patch): (r: Product)
    ensures u.title.None? ==> r.title == p.title
    ensures u.description.None? ==> r.description == p.description
    ensures u.code.None? ==> r.code == p.code
    ensures u.price.None? ==> r.price == p.price
    ensures u.status.None? ==> r.status == p.status
    ensures u.stock.None? ==> r.stock == p.stock
    ensures u.category.None? ==> r.category == p.category
    ensures u.thumbnails.None? ==> r.thumbnails == p.thumbnails
    ensures u.title.Some? ==> r.title == Trim(u.title.value)
    ensures u.description.Some? ==> r.description == Trim(u.description.value)
    ensures u.code.Some? ==> r.code == NormalizeCode(u.code.value)
    ensures u.category.Some? ==> r.category == Trim(u.category.value)
    ensures u.price.Some? ==> r.price == u.price.value
    ensures u.stock.Some? ==> r.stock == u.stock.value
    ensures u.status.Some? ==> r.status == u.status.value
    ensures u.thumbnails.Some? ==> r.thumbnails == u.thumbnails.value
  {
    Product(
      if u.title.Some? then Trim(u.title.value) else p.title,
      if u.description.Some? then Trim(u.description.value) else p.description,
      if u.code.Some? then NormalizeCode(u.code.value) else p.code,
      if u.price.Some? then u.price.value else p.price,
      if u.status.Some? then u.status.value else p.status,
      if u.stock.Some? then u.stock.value else p.stock,
      if u.category.Some? then Trim(u.category.value) else p.category,
      if u.thumbnails.Some? then u.thumbnails.value else p.thumbnails)
  }

  /** An update whose values would pass the schema's validators. */
  predicate PatchPassesValidators(u: Patch) {
    && (u.title.Some? ==> Trim(u.title.value) != [])
    && (u.description.Some? ==> Trim(u.description.value) != [])
    && (u.code.Some? ==> NormalizeCode(u.code.value) != [])
    && (u.category.Some? ==> Trim(u.category.value) != [])
    && (u.price.Some? ==> u.price.value >= 0)
    && (u.stock.Some? ==> u.stock.value >= 0)
  }

  /** Updates go through the setters, so a stored code stays normalised. */
  lemma ApplyKeepsCodeNormal(p: Product, u: Patch)
    requires NormalizeCode(p.code) == p.code
    ensures NormalizeCode(Apply(p, u).code) == Apply(p, u).code
  {
    if u.code.Some? {
      NormalizeCodeProperties(u.code.value);
    }
  }

  /** An update whose values pass the validators keeps a product well formed. */
  lemma ApplyKeepsWellFormed(p: Product, u: Patch)
    requires WellFormed(p) && PatchPassesValidators(u)
    ensures WellFormed(Apply(p, u))
  {
    var r := Apply(p, u);
    assert PassesValidators(r);
    if u.title.Some? { TrimProperties(u.title.value); }
    assert Trimmed(r.title);
    if u.description.Some? { TrimProperties(u.description.value); }
    assert Trimmed(r.description);
    if u.category.Some? { TrimProperties(u.category.value); }
    assert Trimmed(r.category);
    if u.code.Some? { NormalizeCodeProperties(u.code.value); }
    assert Trimmed(r.code) && IsUpper(r.code);
  }

  /** The manager checks none of the values of an update: a negative price
      reaches the stored product (the PUT route refuses one before the
      manager is called). */
  lemma NegativePriceStored(p: Product, u: Patch)
    requires u.price.Some? && u.price.value < 0
    ensures Apply(p, u).price < 0 && !WellFormed(Apply(p, u))
  {
  }

  /** Nothing checks the strings of an update either: a blank title is
      trimmed to the empty string and stored, although the schema requires
      a title. */
  lemma BlankTitleStored(p: Product, u: Patch)
    requires u.title.Some? && forall i :: 0 <= i < |u.title.value| ==> IsSpace(u.title.value[i])
    ensures Apply(p, u).title == [] && !WellFormed(Apply(p, u))
  {
    assert TrimStart(u.title.value) == [];
  }

  /** Storing `doc` under `id`, when no other product has its code and the
      code is normalised, keeps the collection's invariant. */
  lemma StoreKeepsInvariant(products: map<Id, Product>, id: Id, doc: Product)
    requires CatalogueInvariant(products)
    requires !CodeTaken(products, doc.code, Some(id))
    requires NormalizeCode(doc.code) == doc.code
    ensures CatalogueInvariant(products[id := doc])
  {
    var m := products[id := doc];
    forall a, b | a in m && b in m && a != b ensures m[a].code != m[b].code {
      if a == id {
        assert b in products && b != id && m[b] == products[b];
      } else if b == id {
        assert a in products && a != id && m[a] == products[a];
      } else {
        assert m[a] == products[a] && m[b] == products[b];
      }
    }
    forall k | k in m ensures NormalizeCode(m[k].code) == m[k].code {
      if k != id {
        assert m[k] == products[k];
      }
    }
  }

  /** Storing a well-formed product keeps every product well formed. */
  lemma StoreKeepsWellFormed(products: map<Id, Product>, id: Id, doc: Product)
    requires AllWellFormed(products) && WellFormed(doc)
    ensures AllWellFormed(products[id := doc])
  {
  }

  /** Inserting a built document that passes the validators and whose code
      no product has keeps the invariant and the well-formedness of all. */
  lemma InsertBuilt(products: map<Id, Product>, newId: Id, input: ProductInput)
    requires CatalogueInvariant(products) && newId !in products
    requires PassesValidators(Build(input)) && !CodeTaken(products, Build(input).code, None)
    ensures WellFormed(Build(input))
    ensures CatalogueInvariant(products[newId := Build(input)])
    ensures AllWellFormed(products) ==> AllWellFormed(products[newId := Build(input)])
  {
    var doc := Build(input);
    BuildWellFormed(input);
    NormalizeCodeProperties(input.code);
    StoreKeepsInvariant(products, newId, doc);
    if AllWellFormed(products) {
      StoreKeepsWellFormed(products, newId, doc);
    }
  }

  class ProductManager {
    /** The product collection. */
    var products: map<Id, Product>

    ghost predicate Valid()
      reads this
    {
      CatalogueInvariant(products)
    }

    constructor (stored: map<Id, Product>)
      requires CatalogueInvariant(stored)
      ensures Valid() && products == stored
    {
      products := stored;
    }

    /** The product with id `id`, or a 404 error. */
    method GetProductById(id: Id) returns (r: Outcome<Product>)
      ensures r.Returned? <==> id in products
      ensures r.Returned? ==> r.value == products[id]
      ensures r.Threw? ==> r.statusCode == Some(NOT_FOUND)
    {
      if id in products {
        r := Returned(products[id]);
      } else {
        r := Threw(Some(NOT_FOUND));
      }
    }

    /** Adds a product under the fresh id `newId`. The duplicate check looks
        for the code as the setters store it: a product with that code is a
        400 and nothing changes. Otherwise the document is built (setters,
        defaults) and saved; a document that fails validation is refused
        by the database with an error that carries no status code. */
    method AddProduct(input: ProductInput, newId: Id) returns (r: Outcome<Product>)
      requires Valid() && newId !in products
      modifies this
      ensures Valid()
      ensures CodeTaken(old(products), NormalizeCode(input.code), None) ==> r == Threw(Some(BAD_REQUEST))
      ensures r.Returned? <==> !CodeTaken(old(products), NormalizeCode(input.code), None) && PassesValidators(Build(input))
      ensures !CodeTaken(old(products), NormalizeCode(input.code), None) && r.Threw? ==> r.statusCode.None?
      ensures r.Threw? ==> products == old(products)
      ensures r.Returned? ==> r.value == Build(input) && products == old(products)[newId := r.value]
      ensures r.Returned? ==> WellFormed(r.value)
      ensures AllWellFormed(old(products)) ==> AllWellFormed(products)
    {
      if CodeTaken(products, NormalizeCode(input.code), None) {
        return Threw(Some(BAD_REQUEST));
      }
      var doc := Build(input);
      if !PassesValidators(doc) {
        return Threw(None);
      }
      InsertBuilt(products, newId, input);
      products := products[newId := doc];
      r := Returned(doc);
    }

    /** Updates product `id`. A truthy new code that another product has (as
        the setters store it) is a 400, checked before the product is looked
        up; a missing product is a 404; otherwise only the supplied fields
        change. An empty code skips the check and can still clash with
        another empty code at the unique index, which refuses the write
        without a status code. */
    method UpdateProduct(id: Id, u: Patch) returns (r: Outcome<Product>)
      requires Valid()
      modifies this
      ensures Valid()
      ensures CodeClash(old(products), id, u) ==> r == Threw(Some(BAD_REQUEST))
      ensures !CodeClash(old(products), id, u) && id !in old(products) ==> r == Threw(Some(NOT_FOUND))
      ensures r.Returned? <==> && !CodeClash(old(products), id, u) && id in old(products)
                               && !CodeTaken(old(products), Apply(old(products)[id], u).code, Some(id))
      ensures r.Threw? ==> products == old(products)
      ensures r.Threw? ==> r.statusCode in {None, Some(BAD_REQUEST), Some(NOT_FOUND)}
      ensures !CodeClash(old(products), id, u) && id in old(products) && r.Threw? ==> r.statusCode.None?
      ensures r.Returned? ==> r.value == Apply(old(products)[id], u) && products == old(products)[id := r.value]
      ensures id in old(products) && u.code.None? ==> r == Returned(Apply(old(products)[id], u))
      ensures id in old(products) && u.code == Some(old(products)[id].code) ==> r.Returned?
      ensures AllWellFormed(old(products)) && PatchPassesValidators(u) ==> AllWellFormed(products)
    {
      if u.code.Some? && u.code.value != [] && CodeTaken(products, NormalizeCode(u.code.value), Some(id)) {
        return Threw(Some(BAD_REQUEST));
      }
      if id !in products {
        return Threw(Some(NOT_FOUND));
      }
      var updated := Apply(products[id], u);
      if CodeTaken(products, updated.code, Some(id)) {
        return Threw(None);
      }
      ApplyKeepsCodeNormal(products[id], u);
      StoreKeepsInvariant(products, id, updated);
      if AllWellFormed(products) && PatchPassesValidators(u) {
        ApplyKeepsWellFormed(products[id], u);
        StoreKeepsWellFormed(products, id, updated);
      }
      products := products[id := updated];
      r := Returned(updated);
    }

    /** Deletes product `id` and returns it, or throws 404 when it is absent. */
    method DeleteProduct(id: Id) returns (r: Outcome<Product>)
      requires Valid()
      modifies this
      ensures Valid()
      ensures r.Returned? <==> id in old(products)
      ensures r.Returned? ==> r.value == old(products)[id] && products == old(products) - {id}
      ensures r.Threw? ==> r.statusCode == Some(NOT_FOUND) && products == old(products)
      ensures AllWellFormed(old(products)) ==> AllWellFormed(products)
    {
      if id !in products {
        return Threw(Some(NOT_FOUND));
      }
      r := Returned(products[id]);
      products := products - {id};
    }
  }
}
