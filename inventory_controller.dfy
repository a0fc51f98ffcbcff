/** The five HTTP handlers of InventoryController, acting in place on the
    InventoryItems table. The database set is the class field `items`;
    persisting (SaveChangesAsync) is the assignment to it. */
module Controller {
  import opened Items
  import opened Table

  /** The action results the handlers return. */
  datatype Response =
    | OkItem(item: InventoryItem)                       // 200 with one record
    | OkItems(items: seq<InventoryItem>)                // 200 with a list
    | Created(routeKey: string, body: InventoryItem)    // 201, location is GetBySku(routeKey)
    | NoContent                                         // 204
    | NotFound                                          // 404

  class InventoryController {
    /** The rows of `_context.InventoryItems`, in storage order. */
    var items: seq<InventoryItem>

    constructor (rows: seq<InventoryItem>)
      ensures items == rows
    {
      items := rows;
    }

    /** GET: every stored row, in table order. */
    method GetAll() returns (r: Response)
      ensures r.OkItems? && r.items == items
    {
      r := OkItems(items);
    }

    /** GET {artikleNum}: the first row with that article number, else 404. */
    method GetBySku(artikleNum: string) returns (r: Response)
      ensures r.NotFound? || r.OkItem?
      ensures r.NotFound? <==> forall j :: 0 <= j < |items| ==> items[j].articleNumber != artikleNum
      ensures r.OkItem? ==> exists i :: 0 <= i < |items| && r.item == items[i]
                              && r.item.articleNumber == artikleNum
                              && forall j :: 0 <= j < i ==> items[j].articleNumber != artikleNum
    {
      var found := FirstIndex(items, artikleNum);
      if found.None? {
        return NotFound;
      }
      r := OkItem(items[found.value]);
    }

    /** POST: appends the submitted row as it is, duplicates included, and
        answers 201 pointing at GetBySku(newItem.ArticleNumber). */
    method Add(newItem: InventoryItem) returns (r: Response)
      modifies this
      ensures items == old(items) + [newItem]
      ensures r == Created(newItem.articleNumber, newItem)
    {
      items := items + [newItem];
      r := Created(newItem.articleNumber, newItem);
    }

    /** PUT {sku}: overwrites the quantity of the first row with that article
        number (any value, negative included), else 404 with no change. */
    method UpdateQuantity(sku: string, quantity: int32) returns (r: Response)
      modifies this
      ensures FirstIndex(old(items), sku).None? ==> items == old(items) && r == NotFound
      ensures FirstIndex(old(items), sku).Some? ==>
        var i := FirstIndex(old(items), sku).value;
        && items == SetQuantityAt(old(items), i, quantity)
        && r == OkItem(old(items)[i].(quantity := quantity))
    {
      var found := FirstIndex(items, sku);
      if found.None? {
        return NotFound;
      }
      var item := items[found.value].(quantity := quantity);
      items := SetQuantityAt(items, found.value, quantity);
      r := OkItem(item);
    }

    /** DELETE {sku}: removes the first row with that article number and
        answers 204, else 404 with no change. */
    method Delete(sku: string) returns (r: Response)
      modifies this
      ensures FirstIndex(old(items), sku).None? ==> items == old(items) && r == NotFound
      ensures FirstIndex(old(items), sku).Some? ==>
        items == RemoveAt(old(items), FirstIndex(old(items), sku).value) && r == NoContent
    {
      var found := FirstIndex(items, sku);
      if found.None? {
        return NotFound;
      }
      items := RemoveAt(items, found.value);
      r := NoContent;
    }
  }

  /** The create / read / update / delete walk-through for one article,
      starting from a table that does not hold it: 201, 200 with the
      submitted record, 200 with the new quantity, 204, then 404. */
  method ArticleLifecycle(rows: seq<InventoryItem>, x: InventoryItem, q: int32)
    requires Occurrences(rows, x.articleNumber) == 0
  {
    var key := x.articleNumber;
    var c := new InventoryController(rows);
    var r := c.Add(x);
    assert r.Created? && r.routeKey == key;
    AddThenGet(rows, x);
    assert FirstIndex(c.items, key) == Some(|rows|);
    r := c.GetBySku(key);
    assert r == OkItem(x) by {
      if r.OkItem? {
        var i :| 0 <= i < |c.items| && r.item == c.items[i] && r.item.articleNumber == key
          && forall j :: 0 <= j < i ==> c.items[j].articleNumber != key;
        FirstIndexIs(c.items, key, i);
      }
    }
    r := c.UpdateQuantity(key, q);
    assert r == OkItem(x.(quantity := q));
    assert c.items == rows + [x.(quantity := q)];
    r := c.Delete(key);
    assert r == NoContent;
    assert c.items == rows;
    r := c.GetBySku(key);
    assert r == NotFound;
  }
}
