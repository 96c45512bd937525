/** Client scenarios over the store, following the repository's tests
    (tests/test_sprint1_features.py): what a caller can conclude from the
    contracts of `Products` and `InventoryStore` alone. Every save succeeds
    in them, as it does against the temporary file the tests use. */
module InventoryScenarios {
  import opened Products
  import opened InventoryStore

  /** A product built from name, SKU, price and quantity keeps its name and
      SKU as given. */
  method CreateProduct() returns (created: Result<Product>)
    ensures created.Ok?
    ensures created.value.name == "Test Product" && created.value.sku == "TEST123"
  {
    assert !IsSpace("TEST123"[0]);
    created := NewProduct("Test Product", "TEST123", 10.0, 5);
  }

  /** Adding a product with full details, then reading it back, gives back
      every field that was added. */
  method AddThenGet() returns (ok: bool, saved: Option<Record>)
    ensures ok
    ensures saved == Some(Record("Test Product", 29.99, 100, Some("Electronics"),
                                 Some("A test product for testing purposes"), Some("")))
  {
    assert !IsSpace("TEST001"[0]);
    var created := NewProduct("Test Product", "TEST001", 29.99, 100, "Electronics",
                              "A test product for testing purposes");
    var store := new Inventory(Document(map[]));
    ok := store.AddProduct(created.value, true);
    saved := store.GetProduct("TEST001");
  }

  /** A fresh store holding two products added through the constructor and
      `add_product`. */
  method TwoProductStore() returns (store: Inventory)
    ensures fresh(store)
    ensures store.products == map[
      "P1" := Record("Product 1", 10.0, 5, Some("Category A"), Some("Desc 1"), Some("")),
      "P2" := Record("Product 2", 20.0, 10, Some("Category B"), Some("Desc 2"), Some(""))]
  {
    assert !IsSpace("P1"[0]) && !IsSpace("P2"[0]);
    var first := NewProduct("Product 1", "P1", 10.0, 5, "Category A", "Desc 1");
    var second := NewProduct("Product 2", "P2", 20.0, 10, "Category B", "Desc 2");
    store := new Inventory(Document(map[]));
    var ok := store.AddProduct(first.value, true);
    ok := store.AddProduct(second.value, true);
  }

  /** Listing two added products yields both, with their stock. */
  method ListTwo() returns (listed: Result<seq<Product>>)
    ensures listed.Ok? && |listed.value| == 2
    ensures exists i :: 0 <= i < 2 && listed.value[i].quantity == 5
    ensures exists i :: 0 <= i < 2 && listed.value[i].quantity == 10
  {
    var store := TwoProductStore();
    assert !IsBlank("P1") by { assert !IsSpace("P1"[0]); }
    assert !IsBlank("P2") by { assert !IsSpace("P2"[0]); }
    assert Listable(store.products);
    ghost var order;
    listed, order := store.GetAllProducts();
    ListingCoversKey(order, store.products, listed.value, "P1");
    ListingCoversKey(order, store.products, listed.value, "P2");
  }

  /** Stock is overwritten in place; a deleted SKU is no longer found and the
      log holds exactly one line, naming it. */
  method StockThenDelete() returns (afterUpdate: Option<Record>, afterDelete: Option<Record>,
                                    ghost lines: seq<string>)
    ensures afterUpdate.Some? && afterUpdate.value.quantity == 25
    ensures afterDelete == None
    ensures lines == [DeletionEntry("P1")]
  {
    assert !IsSpace("P1"[0]);
    var created := NewProduct("Product 1", "P1", 10.0, 5);
    var store := new Inventory(Missing);
    var ok := store.AddProduct(created.value, true);
    ok := store.UpdateStock("P1", 25, true);
    afterUpdate := store.GetProduct("P1");
    ok := store.DeleteProduct("P1", true);
    afterDelete := store.GetProduct("P1");
    lines := store.log;
  }

  /** A negative stock written through `update_stock` is accepted, and the
      next listing raises the quantity error. */
  method NegativeStockBreaksListing() returns (accepted: bool, listed: Result<seq<Product>>)
    ensures accepted
    ensures listed == Err(NegativeQuantity)
  {
    var store := TwoProductStore();
    accepted := store.UpdateStock("P1", -3, true);
    assert store.products.Keys == {"P1", "P2"};
    assert !IsBlank("P2") by { assert !IsSpace("P2"[0]); }
    assert Materialize("P1", store.products["P1"]) == Err(NegativeQuantity);
    ghost var order;
    listed, order := store.GetAllProducts();
    SoleInvalidEntryDecides(order, store.products, "P1");
  }

  /** A store loaded from the file another store has just saved holds the
      same record. */
  method ReloadAfterSave(p: Product) returns (before: Option<Record>, after: Option<Record>)
    ensures before == Some(RecordOf(p))
    ensures after == before
  {
    var writer := new Inventory(Missing);
    var ok := writer.AddProduct(p, true);
    before := writer.GetProduct(p.sku);
    var reader := new Inventory(writer.disk);
    after := reader.GetProduct(p.sku);
  }
}
