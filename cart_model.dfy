/** The cart schema: a cart document with an owner, an array of lines and
    two timestamps; its line validators and the hook that runs on save. */
module CartModel {
  import opened Js

  /** A document id. */
  type Id = string

  /** The owner a cart gets when none is given. */
  const GUEST := "guest"

  /** A line: a product reference (required) and a quantity (at least 1).
      Lines carry no id of their own. */
  datatype CartLine = CartLine(product: Option<Id>, quantity: int)

  /** The validators of one line. */
  predicate LineValid(line: CartLine) {
    line.product.Some? && line.quantity >= 1
  }

  /** The validators of the whole line array: every line passes. Nothing
      asks the products of different lines to differ. */
  predicate LinesValid(lines: seq<CartLine>) {
    forall i :: 0 <= i < |lines| ==> LineValid(lines[i])
  }

  /** Two lines for the same product pass validation. */
  lemma DuplicateProductsAllowed(p: Id, a: int, b: int)
    requires a >= 1 && b >= 1
    ensures LinesValid([CartLine(Some(p), a), CartLine(Some(p), b)])
  {
  }

  /** A line with quantity 0 or without a product fails validation wherever
      it stands. */
  lemma BadLineRejected(lines: seq<CartLine>, i: nat)
    requires i < |lines| && (lines[i].product.None? || lines[i].quantity < 1)
    ensures !LinesValid(lines)
  {
  }

  class CartDocument {
    var userId: string
    var products: seq<CartLine>
    var createdAt: int
    var updatedAt: int

    /** A new document: owner "guest" when none is given, both timestamps
        set from the clock reading `now`. */
    constructor (userId: Option<string>, products: seq<CartLine>, now: int)
      ensures this.userId == (if userId.Some? then userId.value else GUEST)
      ensures this.products == products
      ensures createdAt == now && updatedAt == now
    {
      this.userId := if userId.Some? then userId.value else GUEST;
      this.products := products;
      createdAt := now;
      updatedAt := now;
    }

    /** `save()` at clock reading `now`: validation runs first and refuses a
        document with an invalid line, changing nothing; otherwise the
        pre-save hook sets `updatedAt`. Nothing else changes, so `createdAt`
        keeps its value from creation. */
    method Save(now: int) returns (saved: bool)
      modifies this`updatedAt
      ensures saved <==> LinesValid(products)
      ensures updatedAt == (if saved then now else old(updatedAt))
    {
      saved := forall i | 0 <= i < |products| :: LineValid(products[i]);
      if saved {
        updatedAt := now;
      }
    }
  }
}
