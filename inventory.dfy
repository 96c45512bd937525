/** The inventory store (src/inventory.py): a mapping from SKU to a product
    record, rewritten in full to the backing JSON file after every change. */
module InventoryStore {
  import opened Products

  datatype Option<T> = None | Some(value: T)

  /** A stored record. `category`, `description` and `supplier` are optional:
      a record read from the backing file may lack them (`None`), while every
      record this store writes has all three. */
  datatype Record = Record(
    name: string,
    price: real,
    quantity: int,
    category: Option<string>,
    description: Option<string>,
    supplier: Option<string>)

  /** What the backing file holds: nothing, something that does not parse or
      cannot be read, or a JSON object mapping SKUs to records. */
  datatype Disk = Missing | Unreadable | Document(entries: map<string, Record>)

  /** `_load_data`: the stored mapping, or the empty one when the file is
      missing, cannot be read or is not valid JSON (these failures are not
      reported). A file whose bytes do not decode as text is not modelled. */
  function LoadData(file: Disk): (m: map<string, Record>)
    ensures file.Document? ==> m == file.entries
    ensures !file.Document? ==> m == map[]
  {
    match file
    case Document(entries) => entries
    case _ => map[]
  }

  /** `record.get(key, '')` for an optional field. */
  function OrEmpty(field: Option<string>): (s: string)
    ensures field.Some? ==> s == field.value
    ensures field.None? ==> s == ""
  {
    match field
    case Some(s) => s
    case None => ""
  }

  /** The record `add_product` stores for a product. */
  function RecordOf(p: Product): (rec: Record)
    ensures rec.name == p.name && rec.price == p.price && rec.quantity == p.quantity
    ensures rec.category.Some? && rec.description.Some? && rec.supplier.Some?
    ensures OrEmpty(rec.category) == p.category && OrEmpty(rec.description) == p.description
            && OrEmpty(rec.supplier) == p.supplier
  {
    Record(p.name, p.price, p.quantity, Some(p.category), Some(p.description), Some(p.supplier))
  }

  /** The `Product` that `get_all_products` builds from one entry; it raises
      exactly when the entry breaks the product's validation. */
  function Materialize(sku: string, rec: Record): (r: Result<Product>)
    ensures r.Ok? <==> rec.price >= 0.0 && rec.quantity >= 0 && !IsBlank(sku)
    ensures r.Ok? ==> && r.value.sku == sku && r.value.name == rec.name
                      && r.value.price == rec.price && r.value.quantity == rec.quantity
                      && r.value.category == OrEmpty(rec.category)
                      && r.value.description == OrEmpty(rec.description)
                      && r.value.supplier == OrEmpty(rec.supplier)
  {
    NewProduct(rec.name, sku, rec.price, rec.quantity,
               OrEmpty(rec.category), OrEmpty(rec.description), OrEmpty(rec.supplier))
  }

  /** Every entry of `m` can be turned back into a `Product`. */
  predicate Listable(m: map<string, Record>)
  {
    forall sku :: sku in m ==> Materialize(sku, m[sku]).Ok?
  }

  /** No key appears twice in `keys`. */
  predicate Distinct(keys: seq<string>)
  {
    forall i, j :: 0 <= i < j < |keys| ==> keys[i] != keys[j]
  }

  /** `keys` lists every key of `m` exactly once: one possible iteration order
      of `m.items()`. */
  ghost predicate IsEnumeration(keys: seq<string>, m: map<string, Record>)
  {
    Distinct(keys) && forall k :: k in keys <==> k in m
  }

  /** The loop of `get_all_products` over the keys in the order `keys`: the
      products built so far, or the first error raised. */
  function BuildProducts(keys: seq<string>, m: map<string, Record>): (r: Result<seq<Product>>)
    requires forall k :: k in keys ==> k in m
    ensures r.Ok? ==> |r.value| == |keys|
    ensures r.Ok? ==> forall i :: 0 <= i < |keys| ==> r.value[i].sku == keys[i]
  {
    if keys == [] then Ok([])
    else
      var last := keys[|keys| - 1];
      match BuildProducts(keys[..|keys| - 1], m)
      case Err(e) => Err(e)
      case Ok(ps) =>
        match Materialize(last, m[last])
        case Err(e) => Err(e)
        case Ok(p) => Ok(ps + [p])
  }

  /** The entries of `m` under `keys`, in that order, all turn into products. */
  predicate AllMaterialize(keys: seq<string>, m: map<string, Record>)
    requires forall k :: k in keys ==> k in m
  {
    forall i :: 0 <= i < |keys| ==> Materialize(keys[i], m[keys[i]]).Ok?
  }

  /** `ps` holds, position by position, the products built from the entries
      of `m` under `keys`. */
  predicate BuiltFrom(ps: seq<Product>, keys: seq<string>, m: map<string, Record>)
    requires forall k :: k in keys ==> k in m
  {
    |ps| == |keys| && forall i :: 0 <= i < |keys| ==> Materialize(keys[i], m[keys[i]]) == Ok(ps[i])
  }

  /** Validity of all entries, one key at a time. */
  lemma AllMaterializeSnoc(init: seq<string>, last: string, m: map<string, Record>)
    requires forall k :: k in init ==> k in m
    requires last in m
    ensures AllMaterialize(init + [last], m) <==>
            AllMaterialize(init, m) && Materialize(last, m[last]).Ok?
  {
    var keys := init + [last];
    assert keys[|init|] == last;
    assert forall i :: 0 <= i < |init| ==> keys[i] == init[i];
  }

  /** The products built from the entries, one key at a time. */
  lemma BuiltFromSnoc(ps: seq<Product>, init: seq<string>, p: Product, last: string,
                      m: map<string, Record>)
    requires forall k :: k in init ==> k in m
    requires last in m
    requires BuiltFrom(ps, init, m) && Materialize(last, m[last]) == Ok(p)
    ensures BuiltFrom(ps + [p], init + [last], m)
  {
  }

  /** Each built product carries its key as SKU. */
  lemma BuiltFromCarriesKeys(ps: seq<Product>, keys: seq<string>, m: map<string, Record>)
    requires forall k :: k in keys ==> k in m
    requires BuiltFrom(ps, keys, m)
    ensures forall i :: 0 <= i < |keys| ==> ps[i].sku == keys[i]
  {
  }

  /** The listing succeeds exactly when every visited entry is valid, and
      then holds one product per key, in the order of the keys. */
  lemma {:induction false} BuildProductsOk(keys: seq<string>, m: map<string, Record>)
    requires forall k :: k in keys ==> k in m
    ensures BuildProducts(keys, m).Ok? <==> AllMaterialize(keys, m)
    ensures BuildProducts(keys, m).Ok? ==> BuiltFrom(BuildProducts(keys, m).value, keys, m)
  {
    if keys != [] {
      var init := keys[..|keys| - 1];
      var last := keys[|keys| - 1];
      assert keys == init + [last];
      BuildProductsOk(init, m);
      AllMaterializeSnoc(init, last, m);
      if BuildProducts(init, m).Ok? && Materialize(last, m[last]).Ok? {
        BuiltFromSnoc(BuildProducts(init, m).value, init, Materialize(last, m[last]).value, last, m);
      }
    }
  }

  /** A failed listing reports the error of the first invalid entry in
      iteration order. */
  lemma {:induction false} BuildProductsFirstError(keys: seq<string>, m: map<string, Record>)
    requires forall k :: k in keys ==> k in m
    requires BuildProducts(keys, m).Err?
    ensures exists i :: && 0 <= i < |keys|
                        && Materialize(keys[i], m[keys[i]]) == Err(BuildProducts(keys, m).error)
                        && forall j :: 0 <= j < i ==> Materialize(keys[j], m[keys[j]]).Ok?
  {
    var init := keys[..|keys| - 1];
    assert forall i :: 0 <= i < |init| ==> init[i] == keys[i];
    if BuildProducts(init, m).Err? {
      BuildProductsFirstError(init, m);
    } else {
      BuildProductsOk(init, m);
      var i := |keys| - 1;
      assert Materialize(keys[i], m[keys[i]]) == Err(BuildProducts(keys, m).error);
    }
  }

  /** An enumeration of a map's keys is as long as the map. */
  lemma {:induction false} EnumerationSize(keys: seq<string>, m: map<string, Record>)
    requires IsEnumeration(keys, m)
    ensures |keys| == |m|
  {
    if keys == [] {
      assert m.Keys == {};
    } else {
      var last := keys[|keys| - 1];
      var init := keys[..|keys| - 1];
      var rest := m - {last};
      forall k | k in init ensures k in rest {
        var i :| 0 <= i < |init| && init[i] == k;
        assert keys[i] == k && keys[|keys| - 1] == last;
      }
      forall k | k in rest ensures k in init {
        assert k in keys;
        var i :| 0 <= i < |keys| && keys[i] == k;
        assert init[i] == k;
      }
      EnumerationSize(init, rest);
      assert m.Keys == rest.Keys + {last};
    }
  }

  /** Along an enumeration, "every visited entry is valid" is "every stored
      entry is valid". */
  lemma AllMaterializeIffListable(keys: seq<string>, m: map<string, Record>)
    requires IsEnumeration(keys, m)
    ensures AllMaterialize(keys, m) <==> Listable(m)
  {
  }

  /** Whatever the iteration order, the listing succeeds exactly when every
      stored entry is valid. */
  lemma ListingOkIffListable(keys: seq<string>, m: map<string, Record>)
    requires IsEnumeration(keys, m)
    ensures BuildProducts(keys, m).Ok? <==> Listable(m)
  {
    BuildProductsOk(keys, m);
    AllMaterializeIffListable(keys, m);
  }

  /** A successful listing yields one product per key, each carrying its key
      as SKU. */
  lemma ListingShape(keys: seq<string>, m: map<string, Record>)
    requires IsEnumeration(keys, m)
    requires BuildProducts(keys, m).Ok?
    ensures |BuildProducts(keys, m).value| == |keys| == |m|
    ensures forall i :: 0 <= i < |keys| ==> BuildProducts(keys, m).value[i].sku == keys[i]
  {
    BuildProductsOk(keys, m);
    EnumerationSize(keys, m);
    BuiltFromCarriesKeys(BuildProducts(keys, m).value, keys, m);
  }

  /** A failed listing reports the error of some stored entry. */
  lemma ListingError(keys: seq<string>, m: map<string, Record>)
    requires IsEnumeration(keys, m)
    requires BuildProducts(keys, m).Err?
    ensures exists sku :: sku in m && Materialize(sku, m[sku]) == Err(BuildProducts(keys, m).error)
  {
    BuildProductsFirstError(keys, m);
    var i :| 0 <= i < |keys| && Materialize(keys[i], m[keys[i]]) == Err(BuildProducts(keys, m).error);
    assert keys[i] in m;
  }

  /** A successful listing holds, for every stored key, the product built
      from that key's entry. */
  lemma ListingCoversKey(keys: seq<string>, m: map<string, Record>, ps: seq<Product>, sku: string)
    requires IsEnumeration(keys, m) && BuiltFrom(ps, keys, m) && sku in m
    ensures exists i :: 0 <= i < |ps| && Materialize(sku, m[sku]) == Ok(ps[i])
  {
  }

  /** When a single stored entry is invalid, every iteration order raises
      that entry's error. */
  lemma SoleInvalidEntryDecides(keys: seq<string>, m: map<string, Record>, sku: string)
    requires IsEnumeration(keys, m) && sku in m
    requires Materialize(sku, m[sku]).Err?
    requires forall k :: k in m && k != sku ==> Materialize(k, m[k]).Ok?
    ensures BuildProducts(keys, m) == Err(Materialize(sku, m[sku]).error)
  {
    ListingOkIffListable(keys, m);
    ListingError(keys, m);
  }

  /** The entry `add_product` stores turns back into the very product that
      was added: the add / list round trip. */
  lemma RecordRoundTrip(p: Product)
    requires Valid(p)
    ensures Materialize(p.sku, RecordOf(p)) == Ok(p)
  {
  }

  /** Adding a valid product under a fresh SKU keeps every entry listable. */
  lemma AddKeepsListable(m: map<string, Record>, p: Product)
    requires Listable(m) && Valid(p) && p.sku !in m
    ensures Listable(m[p.sku := RecordOf(p)])
  {
  }

  /** `update_stock` has no sign check: on a listable store, overwriting a
      quantity keeps the store listable exactly when the new quantity is not
      negative. A negative stock makes every later listing raise. */
  lemma StockUpdateListableIff(m: map<string, Record>, sku: string, quantity: int)
    requires Listable(m) && sku in m
    ensures Listable(m[sku := m[sku].(quantity := quantity)]) <==> quantity >= 0
  {
    var m' := m[sku := m[sku].(quantity := quantity)];
    if quantity < 0 {
      assert !Materialize(sku, m'[sku]).Ok?;
    }
  }

  /** `update_product_details` has no sign check either: the store stays
      listable exactly when the new price is not negative. */
  lemma DetailsUpdateListableIff(m: map<string, Record>, sku: string, name: string,
                                 category: string, price: real, description: string)
    requires Listable(m) && sku in m
    ensures Listable(m[sku := m[sku].(name := name, category := Some(category),
                                      price := price, description := Some(description))])
            <==> price >= 0.0
  {
    var m' := m[sku := m[sku].(name := name, category := Some(category),
                               price := price, description := Some(description))];
    if price < 0.0 {
      assert !Materialize(sku, m'[sku]).Ok?;
    }
  }

  /** Removing an entry keeps the rest listable. */
  lemma DeleteKeepsListable(m: map<string, Record>, sku: string)
    requires Listable(m)
    ensures Listable(m - {sku})
  {
  }

  /** Once a listing has failed, visiting the keys still left changes
      nothing: the failed prefix completes to a full iteration order with the
      same outcome. */
  lemma {:induction false} CompleteFailedOrder(done: seq<string>, remaining: set<string>,
                                               m: map<string, Record>)
      returns (order: seq<string>)
    requires Distinct(done) && remaining <= m.Keys
    requires forall k :: k in done <==> k in m && k !in remaining
    requires BuildProducts(done, m).Err?
    ensures IsEnumeration(order, m)
    ensures |done| <= |order| && order[..|done|] == done
    ensures BuildProducts(order, m) == BuildProducts(done, m)
    decreases |remaining|
  {
    if remaining == {} {
      order := done;
    } else {
      var sku :| sku in remaining;
      var next := done + [sku];
      assert next[..|next| - 1] == done;
      order := CompleteFailedOrder(next, remaining - {sku}, m);
      assert order[..|done|] == order[..|next|][..|done|];
    }
  }

  /** Once the loop has raised on the keys `done`, visiting further keys
      changes nothing: every key order that starts with `done` raises the
      same error. */
  lemma {:induction false} FailedPrefixDecides(done: seq<string>, order: seq<string>,
                                               m: map<string, Record>)
    requires forall k :: k in order ==> k in m
    requires |done| <= |order| && order[..|done|] == done
    requires BuildProducts(done, m).Err?
    ensures BuildProducts(order, m) == BuildProducts(done, m)
    decreases |order|
  {
    if |order| > |done| {
      var init := order[..|order| - 1];
      assert init[..|done|] == done;
      FailedPrefixDecides(done, init, m);
    } else {
      assert order == order[..|done|];
    }
  }

  /** The informational log line `delete_product` emits. */
  function DeletionEntry(sku: string): (line: string)
    ensures |line| >= |sku| && line[|line| - |sku|..] == sku
  {
    "Product deleted - SKU: " + sku
  }

  /** The store. `products` is the in-memory mapping; `log` stands for the
      lines sent to the logger and `disk` for the backing file's contents. */
  class Inventory {
    var products: map<string, Record>
    ghost var log: seq<string>
    var disk: Disk

    /** `Inventory(data_file)`: the mapping is loaded from the backing file. */
    constructor (file: Disk)
      ensures products == LoadData(file)
      ensures log == [] && disk == file
    {
      products := LoadData(file);
      log := [];
      disk := file;
    }

    /** `_save_data`: writes the whole mapping; `written` is whether the write
        succeeded. On success the file holds the mapping; on failure it is
        either untouched (open failed) or truncated and unreadable. */
    method SaveData(written: bool) returns (ok: bool)
      modifies this`disk
      ensures ok == written
      ensures written ==> disk == Document(products)
      ensures !written ==> disk == old(disk) || disk == Unreadable
    {
      if written {
        disk := Document(products);
      } else {
        disk := Unreadable;
      }
      ok := written;
    }

    /** `add_product`: refuses a SKU that is already present; otherwise stores
        the product's fields under its SKU and saves. The insertion stays in
        memory even when the save fails. */
    method AddProduct(product: Product, written: bool) returns (ok: bool)
      modifies this
      ensures log == old(log)
      ensures product.sku in old(products) ==>
                !ok && products == old(products) && disk == old(disk)
      ensures product.sku !in old(products) ==>
                && ok == written
                && products.Keys == old(products).Keys + {product.sku}
                && products[product.sku] == RecordOf(product)
                && (forall k :: k in old(products) ==> products[k] == old(products)[k])
                && (written ==> disk == Document(products))
                && (!written ==> (disk == old(disk) || disk == Unreadable))
    {
      if product.sku in products {
        return false;
      }
      products := products[product.sku := RecordOf(product)];
      ok := SaveData(written);
    }

    /** `get_product`: the record under `sku`, or none; changes nothing. */
    method GetProduct(sku: string) returns (r: Option<Record>)
      ensures r.Some? <==> sku in products
      ensures r.Some? ==> r.value == products[sku]
    {
      if sku in products {
        r := Some(products[sku]);
      } else {
        r := None;
      }
    }

    /** `get_all_products`: builds a `Product` for every entry, in the
        mapping's iteration order (`order`), and raises on the first entry
        that breaks validation. It succeeds exactly when every entry is valid,
        and then returns one product per key, carrying the key as SKU and the
        entry's fields, with a missing optional field read as "". */
    method GetAllProducts() returns (r: Result<seq<Product>>, ghost order: seq<string>)
      ensures IsEnumeration(order, products)
      ensures r == BuildProducts(order, products)
      ensures r.Ok? <==> Listable(products)
      ensures r.Ok? ==> |r.value| == |products| && BuiltFrom(r.value, order, products)
      ensures r.Err? ==> exists sku :: sku in products &&
                           Materialize(sku, products[sku]) == Err(r.error)
    {
      var remaining := products.Keys;
      var built: seq<Product> := [];
      order := [];
      while remaining != {}
        invariant remaining <= products.Keys
        invariant Distinct(order)
        invariant forall k :: k in order <==> k in products && k !in remaining
        invariant BuildProducts(order, products) == Ok(built)
        decreases |remaining|
      {
        var sku :| sku in remaining;
        var result := Materialize(sku, products[sku]);
        ghost var before := order;
        order := order + [sku];
        assert order[..|order| - 1] == before;
        remaining := remaining - {sku};
        if result.Err? {
          r := Err(result.error);
          order := CompleteFailedOrder(order, remaining, products);
          ListingOkIffListable(order, products);
          ListingError(order, products);
          return;
        }
        built := built + [result.value];
      }
      r := Ok(built);
      ListingOkIffListable(order, products);
      ListingShape(order, products);
      BuildProductsOk(order, products);
    }

    /** `update_stock`: refuses an absent SKU; otherwise overwrites that
        record's quantity, with no sign check, and saves. */
    method UpdateStock(sku: string, quantity: int, written: bool) returns (ok: bool)
      modifies this
      ensures log == old(log)
      ensures sku !in old(products) ==>
                !ok && products == old(products) && disk == old(disk)
      ensures sku in old(products) ==>
                && ok == written
                && products.Keys == old(products).Keys
                && products[sku] == old(products)[sku].(quantity := quantity)
                && (forall k :: k in old(products) && k != sku ==> products[k] == old(products)[k])
                && (written ==> disk == Document(products))
                && (!written ==> (disk == old(disk) || disk == Unreadable))
    {
      if sku in products {
        products := products[sku := products[sku].(quantity := quantity)];
        ok := SaveData(written);
        return;
      }
      ok := false;
    }

    /** `delete_product`: refuses an absent SKU; otherwise removes that key,
        logs one line naming the SKU and saves. The removal and the log line
        stay even when the save fails. */
    method DeleteProduct(sku: string, written: bool) returns (ok: bool)
      modifies this
      ensures sku !in old(products) ==>
                !ok && products == old(products) && disk == old(disk) && log == old(log)
      ensures sku in old(products) ==>
                && ok == written
                && products.Keys == old(products).Keys - {sku}
                && (forall k :: k in products ==> products[k] == old(products)[k])
                && log == old(log) + [DeletionEntry(sku)]
                && (written ==> disk == Document(products))
                && (!written ==> (disk == old(disk) || disk == Unreadable))
    {
      if sku in products {
        products := products - {sku};
        log := log + [DeletionEntry(sku)];
        ok := SaveData(written);
        return;
      }
      ok := false;
    }

    /** `update_product_details`: refuses an absent SKU; otherwise overwrites
        name, category, price and description, leaves quantity and supplier
        as they were, and saves. */
    method UpdateProductDetails(sku: string, name: string, category: string, price: real,
                                description: string, written: bool) returns (ok: bool)
      modifies this
      ensures log == old(log)
      ensures sku !in old(products) ==>
                !ok && products == old(products) && disk == old(disk)
      ensures sku in old(products) ==>
                && ok == written
                && products.Keys == old(products).Keys
                && products[sku].name == name
                && products[sku].category == Some(category)
                && products[sku].price == price
                && products[sku].description == Some(description)
                && products[sku].quantity == old(products)[sku].quantity
                && products[sku].supplier == old(products)[sku].supplier
                && (forall k :: k in old(products) && k != sku ==> products[k] == old(products)[k])
                && (written ==> disk == Document(products))
                && (!written ==> (disk == old(disk) || disk == Unreadable))
    {
      if sku in products {
        var rec := products[sku];
        products := products[sku := rec.(name := name, category := Some(category),
                                         price := price, description := Some(description))];
        ok := SaveData(written);
        return;
      }
      ok := false;
    }
  }
}
