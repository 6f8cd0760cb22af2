/** The product schema: the stored record, the setters that normalise its
    strings, its defaults, and the validators that run when a new product is
    saved. */
module ProductModel {
  import opened Js

  /** A stored product. Prices are integers (cents). */
  datatype Product = Product(
    title: string,
    description: string,
    code: string,
    price: int,
    status: bool,
    stock: int,
    category: string,
    thumbnails: seq<string>)

  /** Product data as it is handed to the model constructor; `None` marks an
      absent field, which the schema's default replaces. */
  datatype ProductInput = ProductInput(
    title: string,
    description: string,
    code: string,
    price: int,
    status: Option<bool>,
    stock: int,
    category: string,
    thumbnails: Option<seq<string>>)

  /** The characters `String.prototype.trim` removes: ECMAScript white space
      and line terminators. */
  predicate IsSpace(c: char) {
    || c == ' ' || c == '\t' || c == '\n' || c == '\r'
    || c == '\U{B}' || c == '\U{C}' || c == '\U{A0}' || c == '\U{FEFF}'
    || c == '\U{1680}' || ('\U{2000}' <= c <= '\U{200A}') || c == '\U{2028}' || c == '\U{2029}'
    || c == '\U{202F}' || c == '\U{205F}' || c == '\U{3000}'
  }

  /** `s` without its leading white space. */
  function TrimStart(s: string): (r: string)
    ensures |r| <= |s| && r == s[|s| - |r|..]
    ensures r == [] || !IsSpace(r[0])
    ensures forall i :: 0 <= i < |s| - |r| ==> IsSpace(s[i])
  {
    if |s| > 0 && IsSpace(s[0]) then TrimStart(s[1..]) else s
  }

  /** `s` without its trailing white space. */
  function TrimEnd(s: string): (r: string)
    ensures |r| <= |s| && r == s[..|r|]
    ensures r == [] || !IsSpace(r[|r| - 1])
    ensures forall i :: |r| <= i < |s| ==> IsSpace(s[i])
  {
    if |s| > 0 && IsSpace(s[|s| - 1]) then TrimEnd(s[..|s| - 1]) else s
  }

  /** The `trim: true` setter. */
  function Trim(s: string): string {
    TrimEnd(TrimStart(s))
  }

  /** Neither end of `s` is white space. */
  predicate Trimmed(s: string) {
    s == [] || (!IsSpace(s[0]) && !IsSpace(s[|s| - 1]))
  }

  /** The `uppercase: true` setter on one character (ASCII letters only). */
  function UpperChar(c: char): char {
    if 'a' <= c <= 'z' then (c as int - 'a' as int + 'A' as int) as char else c
  }

  /** The `uppercase: true` setter. */
  function Upper(s: string): string {
    seq(|s|, i requires 0 <= i < |s| => UpperChar(s[i]))
  }

  /** No lower-case ASCII letter in `s`. */
  predicate IsUpper(s: string) {
    forall i :: 0 <= i < |s| ==> !('a' <= s[i] <= 'z')
  }

  /** Trimming gives a trimmed string made of a contiguous part of the input,
      and trimming again changes nothing. */
  lemma TrimProperties(s: string)
    ensures Trimmed(Trim(s))
    ensures Trim(Trim(s)) == Trim(s)
    ensures Trimmed(s) ==> Trim(s) == s
  {
    var a := TrimStart(s);
    var b := TrimEnd(a);
    if b != [] {
      assert b[0] == a[0];
    }
    assert TrimStart(b) == b;
  }

  /** Upper-casing never turns white space into something else or back, so it
      commutes with trimming: the order of the two setters does not matter. */
  lemma {:induction false} UpperTrimCommute(s: string)
    ensures Upper(Trim(s)) == Trim(Upper(s))
  {
    UpperTrimStart(s);
    UpperTrimEnd(TrimStart(s));
  }

  /** Upper-casing a character keeps it white space or not white space. */
  lemma UpperCharSpace(c: char)
    ensures IsSpace(UpperChar(c)) <==> IsSpace(c)
  {
  }

  lemma {:induction false} UpperTrimStart(s: string)
    ensures Upper(TrimStart(s)) == TrimStart(Upper(s))
  {
    if |s| > 0 {
      var u := Upper(s);
      UpperCharSpace(s[0]);
      if IsSpace(s[0]) {
        assert u[1..] == Upper(s[1..]);
        UpperTrimStart(s[1..]);
      } else {
        assert TrimStart(u) == u;
      }
    }
  }

  lemma {:induction false} UpperTrimEnd(s: string)
    ensures Upper(TrimEnd(s)) == TrimEnd(Upper(s))
  {
    if |s| > 0 {
      var u := Upper(s);
      UpperCharSpace(s[|s| - 1]);
      if IsSpace(s[|s| - 1]) {
        assert u[..|s| - 1] == Upper(s[..|s| - 1]);
        UpperTrimEnd(s[..|s| - 1]);
      } else {
        assert TrimEnd(u) == u;
      }
    }
  }

  /** What the `code` setters store: trimmed and upper-cased. */
  function NormalizeCode(code: string): (r: string)
    ensures |r| <= |code|
    ensures IsUpper(r)
  {
    Upper(Trim(code))
  }

  /** Upper-casing leaves no lower-case letter, so doing it twice is doing it once. */
  lemma UpperIdempotent(s: string)
    ensures IsUpper(Upper(s))
    ensures Upper(Upper(s)) == Upper(s)
  {
  }

  /** A normalised code is trimmed and upper case, and normalising it again
      changes nothing. */
  lemma NormalizeCodeProperties(code: string)
    ensures Trimmed(NormalizeCode(code)) && IsUpper(NormalizeCode(code))
    ensures NormalizeCode(NormalizeCode(code)) == NormalizeCode(code)
  {
    var t := Trim(code);
    var u := Upper(t);
    TrimProperties(code);
    UpperIdempotent(t);
    if u != [] {
      UpperCharSpace(t[0]);
      UpperCharSpace(t[|t| - 1]);
    }
    assert Trimmed(u);
    UpperTrimCommute(t);
    assert Trim(u) == u;
  }

  /** The document `new Product(data)` builds: setters applied to the string
      fields, `status` defaulting to true and `thumbnails` to an empty list. */
  function Build(input: ProductInput): (p: Product)
    ensures p.title == Trim(input.title) && p.description == Trim(input.description)
    ensures p.category == Trim(input.category) && p.code == NormalizeCode(input.code)
    ensures p.price == input.price && p.stock == input.stock
    ensures p.status == (if input.status.Some? then input.status.value else true)
    ensures p.thumbnails == (if input.thumbnails.Some? then input.thumbnails.value else [])
  {
    Product(
      Trim(input.title),
      Trim(input.description),
      NormalizeCode(input.code),
      input.price,
      if input.status.Some? then input.status.value else true,
      input.stock,
      Trim(input.category),
      if input.thumbnails.Some? then input.thumbnails.value else [])
  }

  /** The validators that run on save: the required strings are non-empty
      and price and stock are not negative. */
  predicate PassesValidators(p: Product) {
    && p.title != [] && p.description != [] && p.code != [] && p.category != []
    && p.price >= 0 && p.stock >= 0
  }

  /** A product as a save leaves it: normalised strings that pass the
      validators. */
  ghost predicate WellFormed(p: Product) {
    && PassesValidators(p)
    && Trimmed(p.title) && Trimmed(p.description) && Trimmed(p.category)
    && Trimmed(p.code) && IsUpper(p.code)
  }

  /** A built document that passes the validators is well formed: prices and
      stock are not negative, required strings are trimmed and non-empty, and
      the code is trimmed and upper case. */
  lemma BuildWellFormed(input: ProductInput)
    requires PassesValidators(Build(input))
    ensures WellFormed(Build(input))
    ensures Build(input).price >= 0 && Build(input).stock >= 0
  {
    TrimProperties(input.title);
    TrimProperties(input.description);
    TrimProperties(input.category);
    NormalizeCodeProperties(input.code);
  }

  /** A blank required string is stored empty and fails validation. */
  lemma BlankTitleRejected(input: ProductInput)
    requires forall i :: 0 <= i < |input.title| ==> IsSpace(input.title[i])
    ensures !PassesValidators(Build(input))
  {
    assert TrimStart(input.title) == [];
  }
}
