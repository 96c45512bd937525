# Inventory tracker: product records and the SKU-keyed store

This project models the record-management layer of a small command-line
inventory tracker and proves properties of it in Dafny.

- `products.dfy`, module `Products` (src/product.py). A product is a value.
  `NewProduct` is the constructor: it assigns the seven fields, then checks
  price, quantity and SKU in that order, and returns the first failure as a
  `ValueError` (`NegativePrice`, `NegativeQuantity`, `EmptySku`; `Message`
  gives their texts, which tell the three apart). The SKU test is Python's `not sku.strip()`. `Strip` and
  `IsSpace` model `str.strip()` with the whitespace set of `str.isspace`. A SKU
  with surrounding spaces is accepted and kept untrimmed. Omitted arguments
  default to category `"General"`, description `""` and supplier `""`.
- `inventory.dfy`, module `InventoryStore` (src/inventory.py). The class
  `Inventory` holds `products: map<string, Record>`. It also holds the
  backing file's contents as `disk`, a `Disk` value, and the lines sent to the
  logger as the ghost sequence `log`. Each mutating method takes the outcome
  of the file write as the parameter `written`. It returns that outcome and
  keeps the in-memory change either way: there is no rollback. Records read
  from the file may lack `category`, `description` or `supplier`. These are
  `Option<string>` fields, and the listing reads a missing one as `""`.
- `get_all_products` is a method with a loop over the key set, visiting the
  keys in an order the model leaves open (the ghost out-parameter `order`). It
  is proved against `BuildProducts`, the same loop written as a function over
  a key sequence. The lemmas show that the listing succeeds exactly when
  every stored record passes product validation. Then it returns one product
  per key, with the key as its SKU. Otherwise it raises the error of the first
  invalid entry it visits.
- `update_stock` and `update_product_details` do no sign checks. So a
  negative quantity or price is accepted and stored, and every later listing
  raises. `StockUpdateListableIff` and `DetailsUpdateListableIff` state this
  as an if-and-only-if. The scenario `NegativeStockBreaksListing` shows it
  concretely.
- `scenarios.dfy`, module `InventoryScenarios`: the repository's tests
  (tests/test_sprint1_features.py, and the product test of tests/test_basic.py)
  as client methods. Their postconditions
  are what the tests assert, derived from the contracts alone.

## Model

| member | source | states |
|---|---|---|
| `Products.MessageIdentifiesError` | src/product.py:13-18 | the three errors carry three different texts |
| `Products.Strip` | src/product.py:17 | `str.strip()`: the result is a slice of the input, everything removed is whitespace, and the result neither starts nor ends with whitespace |
| `Products.StripEmptyIffBlank` | src/product.py:17-18 | `not sku.strip()` holds exactly when the SKU is empty or all whitespace |
| `Products.NewProduct` | src/product.py:1-18 | construction fails iff price < 0, quantity < 0 or the SKU is blank; the error is that of the first failing check in the order price, quantity, SKU; on success every field equals its argument and the product is `Valid` |
| `Products.ValidIffConstructible` | src/product.py:13-18 | a product value is `Valid` exactly when construction from its own fields succeeds and gives it back |
| `Products.DefaultsApplied` | src/product.py:2-3 | omitted category, description and supplier become "General", "" and "" |
| `Products.PaddedSkuKeptUntrimmed` | src/product.py:5-18 | a SKU with surrounding spaces around a non-space character is accepted and stored untrimmed |
| `InventoryStore.LoadData` | src/inventory.py:17-25 | loading gives the file's mapping, or the empty mapping when the file is missing or unreadable |
| `InventoryStore.OrEmpty` | src/inventory.py:65-67 | `record.get(key, '')`: a present optional field gives its text, a missing one gives "" |
| `InventoryStore.RecordOf` | src/inventory.py:41-48 | the stored record carries the product's name, price and quantity, and category, description and supplier as present fields with the product's texts |
| `InventoryStore.Materialize` | src/inventory.py:60-68 | rebuilding a `Product` from an entry fails iff the entry's price or quantity is negative or its key is blank; on success the SKU is the key, the fields are the entry's, and missing optional fields read as "" |
| `InventoryStore.BuildProducts` | src/inventory.py:58-69 | the listing loop over a key order; when it finishes it has one product per visited key, whose SKU is that key |
| `InventoryStore.BuildProductsOk` | src/inventory.py:58-69 | the listing loop over a key order succeeds iff every visited entry is valid, and then yields, position by position, the product built from each key |
| `InventoryStore.BuildProductsFirstError` | src/inventory.py:58-69 | a failed listing raises the error of the first invalid entry in iteration order |
| `InventoryStore.CompleteFailedOrder` | src/inventory.py:58-69 | the failed prefix of visited keys extends to a full iteration order of the mapping that starts with that prefix and gives the same error |
| `InventoryStore.FailedPrefixDecides` | src/inventory.py:58-69 | once the loop has raised, every key order that starts with the visited keys raises the same error |
| `InventoryStore.EnumerationSize` | src/inventory.py:58-69 | an iteration order of the keys is exactly as long as the mapping |
| `InventoryStore.ListingOkIffListable` | src/inventory.py:55-69 | in every iteration order, the listing succeeds iff every stored entry is valid |
| `InventoryStore.ListingShape` | src/inventory.py:55-69 | a successful listing has one product per key, with the key as its SKU |
| `InventoryStore.ListingError` | src/inventory.py:55-69 | a failed listing reports the error of some stored entry |
| `InventoryStore.ListingCoversKey` | src/inventory.py:55-69 | every stored key's product appears in a successful listing |
| `InventoryStore.SoleInvalidEntryDecides` | src/inventory.py:55-69 | when exactly one entry is invalid, every iteration order raises that entry's error |
| `InventoryStore.RecordRoundTrip` | src/inventory.py:41-48 | the record stored for a valid product is rebuilt by the listing into that same product |
| `InventoryStore.AddKeepsListable` | src/inventory.py:36-49 | adding a valid product under a fresh SKU keeps every entry valid |
| `InventoryStore.StockUpdateListableIff` | src/inventory.py:71-76 | on a valid store, overwriting one quantity keeps it valid iff the new quantity is not negative |
| `InventoryStore.DetailsUpdateListableIff` | src/inventory.py:87-95 | on a valid store, editing one record's details keeps it valid iff the new price is not negative |
| `InventoryStore.DeleteKeepsListable` | src/inventory.py:78-85 | removing an entry keeps the remaining entries valid |
| `InventoryStore.DeletionEntry` | src/inventory.py:82-83 | the deletion log line ends with, and so contains, the deleted SKU |
| `InventoryStore.Inventory.constructor` | src/inventory.py:7-10 | a new store holds what loading the backing file gives, with an empty log |
| `InventoryStore.Inventory.SaveData` | src/inventory.py:27-34 | returns the write outcome; on success the file holds the whole mapping, on failure it is untouched or unreadable |
| `InventoryStore.Inventory.AddProduct` | src/inventory.py:36-49 | a present SKU gives false and changes nothing; a fresh SKU adds exactly that key with the product's six fields, keeps all other entries, and returns the save outcome with no rollback |
| `InventoryStore.Inventory.GetProduct` | src/inventory.py:51-53 | returns the record for a present SKU and none for an absent one; changes nothing |
| `InventoryStore.Inventory.GetAllProducts` | src/inventory.py:55-69 | the result is the listing loop over some iteration order of all keys; it succeeds iff every entry is valid, then has one product per key built from that key's entry, and otherwise raises the error of a stored entry |
| `InventoryStore.Inventory.UpdateStock` | src/inventory.py:71-76 | an absent SKU gives false and changes nothing; a present SKU gets only its quantity overwritten, with no sign check; other fields and keys are unchanged; the result is the save outcome |
| `InventoryStore.Inventory.DeleteProduct` | src/inventory.py:78-85 | an absent SKU gives false and changes nothing; a present SKU loses exactly that key, one log line naming it is appended, and the save outcome is returned |
| `InventoryStore.Inventory.UpdateProductDetails` | src/inventory.py:87-95 | an absent SKU gives false and changes nothing; a present SKU gets name, category, price and description overwritten, with quantity, supplier and other keys unchanged; the result is the save outcome |
| `InventoryScenarios.CreateProduct` | tests/test_basic.py:25-30 | a product built from name, SKU, price and quantity keeps the given name and SKU |
| `InventoryScenarios.AddThenGet` | tests/test_sprint1_features.py:21-41 | a product added with full details is read back with every field equal |
| `InventoryScenarios.ListTwo` | tests/test_sprint1_features.py:43-60 | listing two added products gives two products, with stock 5 and 10 |
| `InventoryScenarios.StockThenDelete` | tests/test_sprint1_features.py:62-93 | an updated stock reads back as 25; after deletion the SKU is not found and the log holds exactly one line for it |
| `InventoryScenarios.NegativeStockBreaksListing` | src/inventory.py:55-76 | a negative stock is accepted by `update_stock`, and the next listing raises the quantity error |
| `InventoryScenarios.ReloadAfterSave` | src/inventory.py:17-34 | a store loaded from the file another store just saved holds the same record |

## Left out

- The command-line layer (src/main.py): commands, prompts, the delete confirmation, table rendering and logging configuration.
- `_ensure_data_dir` (`os.makedirs`) and the file path: the backing file is the `Disk` value the store is built from and writes to. So the model does not capture that a path with no directory part, such as `"test_inventory.json"`, makes `os.makedirs('')` at src/inventory.py:14 raise `FileNotFoundError` and construction fail.
- JSON parsing and serialisation. A readable file is a mapping from SKUs to records. Not modelled: a document whose top level is an array, string or number, where the listing raises `AttributeError` at `.items()` (src/inventory.py:59); records without `name`, `price` or `quantity`, where it raises `KeyError`; a `price` or `quantity` that is not a number, where the comparison raises `TypeError`. A `name`, `category`, `description` or `supplier` of another type raises nothing and is not modelled either.
- A backing file whose bytes do not decode as text: `json.load` then raises `UnicodeDecodeError`, which the handler at src/inventory.py:23 does not catch, so construction raises. `Disk` has no such state.
- Floating point: `price` is a `real`. It is only stored and compared with zero, so NaN and infinities are not modelled.
- The logging backend: `log` records the lines `delete_product` sends. Whether they reach a file depends on configuration in the command-line layer.
- Aliasing: `get_product` returns the stored dictionary itself, so a caller could change the store through it. The model returns a copy.
- Iteration order: the model leaves open the order in which `get_all_products` visits the keys. CPython's insertion order is not modelled, and every property is proved for all orders.
- Other processes writing the same backing file (last writer wins) are not modelled.
- InventoryStore.Inventory.SaveData: a failed write leaves the file either untouched or unreadable, and the model does not say which.
- tests/test_basic.py: the arithmetic and import tests have no counterpart; the store-construction test (line 18) depends on `_ensure_data_dir`, left out above. Its product test is `CreateProduct`.
- tests/test_confirmation_feature.py drives the command-line layer.
