# Inventory service: table handlers and startup retry, modelled in Dafny

The inventory service is a small ASP.NET Core microservice. It keeps one table of
inventory items keyed by article number. Five HTTP handlers list, read, add,
re-quantify and delete items. Before serving anything, the service runs a startup
routine that tries up to ten times to reach the PostgreSQL database and provision
its schema.

This project models those two parts.

- `items.dfy` (module `Items`) holds the item record. It uses the superset shape
  `Id, ArticleNumber, Name, Quantity, Location, Supplier`. C#'s `int` is the
  newtype `int32`.
- `table.dfy` (module `Table`) treats the `InventoryItems` set as a sequence of rows
  in storage order. It defines first-match lookup (`FirstIndex`, the position of
  the row that `FirstOrDefaultAsync(i => i.ArticleNumber == key)` returns), the key count
  `Occurrences`, the quantity overwrite `SetQuantityAt` and the row removal
  `RemoveAt`. It also proves how these operations interact with later lookups.
- `inventory_controller.dfy` (module `Controller`) holds the class
  `InventoryController`. Its field `items` is the table. `Add`, `UpdateQuantity`
  and `Delete` update that field in place; `GetAll` and `GetBySku` only read it. Every handler returns a `Response`: `OkItem`, `OkItems`,
  `Created(routeKey, body)`, `NoContent` or `NotFound`. `ArticleLifecycle` walks one
  article through create, read, update, delete and read, and shows that the last
  read is a 404.
- `startup.dfy` (module `Startup`) models the database as an oracle. For each
  attempt, the oracle says what each call returns or throws: `CanConnect`,
  `HasTables`, `EnsureCreated` and `Migrate`. `RunAttempt` is one pass through the
  `try` block. `Run`/`Retry` define the retry loop recursively, and the method
  `StartUp` is the loop itself, proved equal to `Retry`. The lemmas give the bound
  on attempts, the sleep count, stop-at-first-success, the rethrow after ten
  failures, that the answer of `CanConnect` is ignored, and that a migration
  failure is swallowed.

Reading a key right after creating it returns the submitted record only when the
article number was not already in the table. Lookups take the first match and
`Add` does not check for duplicates, so otherwise the older row is returned
(`Table.AddThenGet`).

## Model

| member | source | states |
|---|---|---|
| `Table.FirstIndex` | inventory-service/Controllers/InventoryController.cs:28 | the result is the index of the first row whose ArticleNumber equals the key (every earlier row differs), and it is None exactly when no row matches |
| `Table.Occurrences` | inventory-service/Controllers/InventoryController.cs:28 | the number of rows with the key is at most the table length, and it is zero exactly when the lookup finds nothing |
| `Table.SetQuantityAt` | inventory-service/Controllers/InventoryController.cs:46 | the updated table has the same length, the chosen row gets the new quantity and keeps every other field, and every other row is unchanged |
| `Table.RemoveAt` | inventory-service/Controllers/InventoryController.cs:56 | removing one row shortens the table by one, keeps the rows before it and shifts the rows after it down by one (relative order kept), and the result plus the removed row is a permutation of the old table |
| `Table.SetQuantityKeepsLookups` | inventory-service/Controllers/InventoryController.cs:44-48 | after a quantity update, every key is found at the same row as before |
| `Table.UpdateThenGet` | inventory-service/Controllers/InventoryController.cs:44-48 | reading a key after updating it finds the same row, which now has the new quantity and all its other fields unchanged |
| `Table.RemoveAtOccurrences` | inventory-service/Controllers/InventoryController.cs:54-56 | removing a row takes away one occurrence of its own key and none of any other key |
| `Table.DeleteThenGet` | inventory-service/Controllers/InventoryController.cs:54-58 | after deleting the first row of a key, a lookup of that key finds nothing if and only if the key occurred exactly once |
| `Table.DeleteKeepsOtherLookups` | inventory-service/Controllers/InventoryController.cs:54-58 | deleting a row of another key leaves each lookup on the same record (its index shifts down when it came after the deleted row) and leaves missing keys missing |
| `Table.AddThenGet` | inventory-service/Controllers/InventoryController.cs:33-39 | after appending a row, its key finds the new row if the key was absent before, and otherwise still finds the older row |
| `Table.AddKeepsOtherLookups` | inventory-service/Controllers/InventoryController.cs:36 | appending a row does not change the lookup of any other key |
| `Controller.InventoryController.constructor` | inventory-service/Controllers/InventoryController.cs:12-16 | the controller works on the table it is given |
| `Controller.InventoryController.GetAll` | inventory-service/Controllers/InventoryController.cs:19-23 | answers Ok with exactly the stored rows in table order, and modifies nothing |
| `Controller.InventoryController.GetBySku` | inventory-service/Controllers/InventoryController.cs:25-31 | answers NotFound exactly when no row has the key, and otherwise Ok with the first row that has it; modifies nothing |
| `Controller.InventoryController.Add` | inventory-service/Controllers/InventoryController.cs:33-39 | appends the submitted item unchecked, even when its article number is already present, and answers Created with route key newItem.ArticleNumber and the item as body |
| `Controller.InventoryController.UpdateQuantity` | inventory-service/Controllers/InventoryController.cs:41-49 | on a missing key: NotFound and the table unchanged; otherwise the first matching row gets the new quantity (any int, negative included), everything else stays, and the answer is Ok with the updated row |
| `Controller.InventoryController.Delete` | inventory-service/Controllers/InventoryController.cs:51-59 | on a missing key: NotFound and the table unchanged; otherwise exactly the first matching row is removed and the answer is NoContent |
| `Startup.RunAttempt` | inventory-service/Program.cs:25-56 | an attempt fails exactly when CanConnect, HasTables or (with no tables) EnsureCreated throws; EnsureCreated runs only when there are no tables and Migrate only when there are, never both; a Migrate exception gives a successful attempt that records the failure; CanConnect comes first and HasTables second; a failed attempt carries the message of the call that threw |
| `Startup.StartUp` | inventory-service/Program.cs:20-68 | the retry loop computes the same result as the recursive definition of the startup sequence |
| `Startup.RunFacts` | inventory-service/Program.cs:23-67 | from any attempt on: the number of attempts stays within MaxRetries, one sleep comes between consecutive attempts, every attempt before the last failed, and the last attempt decides Ready or Fatal |
| `Startup.AttemptsBounded` | inventory-service/Program.cs:20-23 | startup makes between 1 and 10 attempts, sleeps once fewer than it attempts, and waits 5 seconds per sleep |
| `Startup.ReadyAtFirstSuccess` | inventory-service/Program.cs:23-55 | startup is Ready if and only if some attempt succeeds; it then stops at the first successful attempt and keeps that attempt's provisioning path |
| `Startup.FatalAfterAllAttemptsFail` | inventory-service/Program.cs:57-66 | startup is Fatal if and only if all 10 attempts fail; it then rethrows the last attempt's exception after 10 attempts, 9 sleeps and 45 seconds of waiting |
| `Startup.CanConnectAnswerIgnored` | inventory-service/Program.cs:30 | the boolean result of CanConnect does not affect the attempt |
| `Startup.MigrationFailureSwallowed` | inventory-service/Program.cs:41-54 | when tables exist, the attempt succeeds whatever Migrate does, records a Migrate exception, and does not call EnsureCreated |
| `Startup.CanConnectFalseDoesNotRetry` | inventory-service/Program.cs:30-55 | a first attempt whose CanConnect returns false while its other calls succeed ends startup as Ready after one attempt with no sleep |

## Left out

- Persistence internals (`SaveChangesAsync`, change tracking, SQL, Npgsql) are not modelled. The table is an in-memory sequence, and each handler's update of it is the commit.
- The handlers do not model per-request database failures. An exception from the store during a request has no modelled outcome.
- `Id` is opaque. The database assigns it on insert, the model takes it from the submitted record, and it is not claimed to be unique.
- The model does not construct the URL inside `CreatedAtAction`. `Created` carries only the route key that URL is built from.
- Routing, model binding (including the framework's 400 for a body that is not an int), async/await, Swagger, HTTPS redirection and `app.Run()` are framework wiring.
- `FirstOrDefaultAsync` has no `ORDER BY`, so PostgreSQL may return rows in any order. The model fixes "first" as table order. Key equality is exact string equality.
- The model does not capture concurrent requests or transactions.
- `Console.WriteLine` output is left out. `Thread.Sleep(delay)` is a sleep counter, and real time is left out.
- The result of `EnsureCreated` is discarded in the source, as is the result of `CanConnect`. The scope, dependency injection and `InventoryContext` plumbing have no logic.
- `inventory-service/Models/InventoryItem.cs` is the narrower duplicate of the record, without `Name` and `Supplier`, and is not part of this model.
