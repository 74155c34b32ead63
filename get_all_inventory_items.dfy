/**
 * The handler that lists every record: a full scan of the table, following
 * `LastEvaluatedKey` until the scan is exhausted.
 */
module GetAllInventoryItems {
  import opened Python
  import opened Inventory
  import opened Http
  import opened Pagination

  /**
   * `lambda_handler`. `scan` holds what the successive scan calls return or
   * raise. The handler only reads: it has no `modifies` clause, so the table
   * is unchanged. 200 lists the pages' items in order with their count; the
   * only other outcome is 500, from a scan call that raised. When the pages
   * list the table's records once each, the count is the number of records.
   */
  method LambdaHandler(table: Table, scan: seq<Fetch>) returns (resp: Response)
    requires Terminates(scan)
    ensures resp.headers == StandardHeaders
    ensures resp.statusCode == 200 || resp.statusCode == 500
    ensures var n := StopIndex(scan);
            if scan[n].Raised? then
              resp == Respond(500, "Error retrieving inventory items", Error(scan[n].error))
            else
              var items := ItemsOf(scan, n + 1);
              resp == Respond(200, "Successfully retrieved all inventory items", AllItems(|items|, items))
    ensures resp.statusCode == 200 && Enumerates(resp.payload.items, table.records) ==>
              resp.payload.count == |table.records|
  {
    var response := CollectPages(scan);
    if response.Raised? {
      return Respond(500, "Error retrieving inventory items", Error(response.error));
    }
    var items := response.value;
    resp := Respond(200, "Successfully retrieved all inventory items", AllItems(|items|, items));
    if Enumerates(items, table.records) {
      EnumerationCountsRecords(items, table.records);
    }
  }

  /**
   * An empty table answers with one empty page and no token, which lists its
   * records once each: 200, count 0, no items.
   */
  method EmptyTableScan(table: Table) returns (resp: Response)
    requires table.records == map[]
    ensures resp == Respond(200, "Successfully retrieved all inventory items", AllItems(0, []))
    ensures Enumerates(resp.payload.items, table.records) && resp.payload.count == |table.records|
  {
    var scan: seq<Fetch> := [Returned(Page([], None))];
    assert Ends(scan[0]);
    assert StopIndex(scan) == 0;
    assert ItemsOf(scan, 1) == [];
    resp := LambdaHandler(table, scan);
  }
}
