/** The product entity of the inventory tracker (src/product.py): a value
    that is checked once, when it is built, and never changed afterwards. */
module Products {

  /** The three `ValueError`s the constructor raises, in the order it checks them. */
  datatype ValueError = NegativePrice | NegativeQuantity | EmptySku

  /** The text each error carries. */
  function Message(e: ValueError): string
  {
    match e
    case NegativePrice => "Price cannot be negative"
    case NegativeQuantity => "Quantity cannot be negative"
    case EmptySku => "SKU cannot be empty"
  }

  /** Each error carries its own text, so a caller can tell the three apart
      by message alone. */
  lemma MessageIdentifiesError(e1: ValueError, e2: ValueError)
    ensures Message(e1) == Message(e2) <==> e1 == e2
  {
  }

  /** Either a constructed value or the error that construction raised. */
  datatype Result<T> = Ok(value: T) | Err(error: ValueError)

  /** The seven attributes the constructor assigns. `price` stands for the
      Python float, which is only stored and compared with zero. */
  datatype Product = Product(
    name: string,
    sku: string,
    price: real,
    quantity: int,
    category: string,
    description: string,
    supplier: string)

  /** Python's `str.isspace` for one character: the characters that
      `str.strip()` with no argument removes. */
  predicate IsSpace(c: char)
  {
    || ('\t' <= c <= '\r')
    || ('\U{1C}' <= c <= '\U{1F}')
    || c == ' '
    || c == '\U{85}'
    || c == '\U{A0}'
    || c == '\U{1680}'
    || ('\U{2000}' <= c <= '\U{200A}')
    || c == '\U{2028}'
    || c == '\U{2029}'
    || c == '\U{202F}'
    || c == '\U{205F}'
    || c == '\U{3000}'
  }

  /** A text that is empty or made of whitespace only. */
  predicate IsBlank(s: string)
  {
    forall i :: 0 <= i < |s| ==> IsSpace(s[i])
  }

  /** The number of whitespace characters at the front of `s`. */
  function LeadingSpaces(s: string): (n: nat)
    ensures n <= |s|
    ensures forall i :: 0 <= i < n ==> IsSpace(s[i])
    ensures n < |s| ==> !IsSpace(s[n])
  {
    if s == [] || !IsSpace(s[0]) then 0 else 1 + LeadingSpaces(s[1..])
  }

  /** The number of whitespace characters at the end of `s`. */
  function TrailingSpaces(s: string): (n: nat)
    ensures n <= |s|
    ensures forall i :: |s| - n <= i < |s| ==> IsSpace(s[i])
    ensures n < |s| ==> !IsSpace(s[|s| - 1 - n])
  {
    if s == [] || !IsSpace(s[|s| - 1]) then 0 else 1 + TrailingSpaces(s[..|s| - 1])
  }

  /** `r` is the slice of `s` that starts at `i`, and everything of `s`
      outside that slice is whitespace. */
  predicate CutsOnlySpace(s: string, i: int, r: string)
  {
    && 0 <= i <= |s| - |r| && r == s[i..i + |r|]
    && (forall k :: 0 <= k < i ==> IsSpace(s[k]))
    && (forall k :: i + |r| <= k < |s| ==> IsSpace(s[k]))
  }

  /** Python's `str.strip()`: `s` without its leading and trailing whitespace.
      The result is a slice of `s`, everything cut off is whitespace, and the
      result neither starts nor ends with whitespace. */
  function Strip(s: string): (r: string)
    ensures exists i :: CutsOnlySpace(s, i, r)
    ensures r != [] ==> !IsSpace(r[0]) && !IsSpace(r[|r| - 1])
  {
    var i := LeadingSpaces(s);
    var t := s[i..];
    var r := t[..|t| - TrailingSpaces(t)];
    assert CutsOnlySpace(s, i, r);
    assert r != [] ==> !IsSpace(r[0]) by {
      if r != [] {
        assert r[0] == s[i];
      }
    }
    r
  }

  /** `not s.strip()` holds exactly for the blank texts. */
  lemma StripEmptyIffBlank(s: string)
    ensures Strip(s) == [] <==> IsBlank(s)
  {
  }

  /** The invariant every constructed product satisfies. */
  predicate Valid(p: Product)
  {
    p.price >= 0.0 && p.quantity >= 0 && !IsBlank(p.sku)
  }

  /** `Product(name, sku, price, quantity, category, description, supplier)`:
      the fields are assigned first, then price, quantity and SKU are checked in
      that order and the first failing check decides the error. The SKU check
      `not sku.strip()` is written as `IsBlank(sku)`, which `StripEmptyIffBlank`
      shows to be the same test. */
  function NewProduct(name: string, sku: string, price: real, quantity: int,
                      category: string := "General", description: string := "",
                      supplier: string := ""): (r: Result<Product>)
    ensures r.Ok? <==> price >= 0.0 && quantity >= 0 && !IsBlank(sku)
    ensures price < 0.0 ==> r == Err(NegativePrice)
    ensures price >= 0.0 && quantity < 0 ==> r == Err(NegativeQuantity)
    ensures price >= 0.0 && quantity >= 0 && IsBlank(sku) ==> r == Err(EmptySku)
    ensures r.Ok? ==> Valid(r.value)
    ensures r.Ok? ==> && r.value.name == name && r.value.sku == sku
                      && r.value.price == price && r.value.quantity == quantity
                      && r.value.category == category
                      && r.value.description == description
                      && r.value.supplier == supplier
  {
    var p := Product(name, sku, price, quantity, category, description, supplier);
    if price < 0.0 then Err(NegativePrice)
    else if quantity < 0 then Err(NegativeQuantity)
    else if IsBlank(sku) then Err(EmptySku)
    else Ok(p)
  }

  /** A valid product is rebuilt unchanged from its own fields: `Valid` is
      exactly what construction accepts. */
  lemma ValidIffConstructible(p: Product)
    ensures Valid(p) <==> NewProduct(p.name, p.sku, p.price, p.quantity,
                                      p.category, p.description, p.supplier) == Ok(p)
  {
  }

  /** Omitted optional arguments take the defaults "General", "" and "". */
  lemma DefaultsApplied(name: string, sku: string, price: real, quantity: int)
    requires price >= 0.0 && quantity >= 0 && !IsBlank(sku)
    ensures NewProduct(name, sku, price, quantity)
            == Ok(Product(name, sku, price, quantity, "General", "", ""))
  {
  }

  /** A SKU padded with whitespace around a non-space character is accepted
      and kept as given, untrimmed. */
  lemma PaddedSkuKeptUntrimmed(name: string, core: string, price: real, quantity: int)
    requires price >= 0.0 && quantity >= 0
    requires core != [] && !IsSpace(core[0])
    ensures NewProduct(name, " " + core + " ", price, quantity).Ok?
    ensures NewProduct(name, " " + core + " ", price, quantity).value.sku == " " + core + " "
  {
    assert (" " + core + " ")[1] == core[0];
  }
}
