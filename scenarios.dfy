/**
 * Handlers run one after another against the same table, with the table
 * client raising nothing: what a client observes across calls.
 */
module Scenarios {
  import opened Python
  import opened Inventory
  import opened Http
  import AddInventoryItem
  import DeleteInventoryItem

  /** A DELETE request for the record `(id, location)`: `id` in the path, `location_id` in the query string. */
  function DeleteRequest(id: string, location: int): (event: Event)
    ensures PathParameter(event, "id") == Returned(Some(id))
    ensures QueryParameter(event, "location_id") == Some(IntString(location))
  {
    Event(Given(map["id" := id]), Given(map["location_id" := IntString(location)]), None)
  }

  /**
   * Creating a record under a fresh key and then deleting it by that key
   * answers 201 then 200 and leaves the table as it was. The delete request
   * carries the location as `str(location_id)`, which the integer parser is
   * required to read back.
   */
  method AddThenDelete(table: Table, addEvent: Event, py: Builtins, newId: string)
    returns (created: Response, deleted: Response)
    requires table.Valid()
    requires newId != ""
    requires AddInventoryItem.Prepare(addEvent, py, newId).Ready?
    requires var location := AddInventoryItem.Prepare(addEvent, py, newId).item.locationId;
             && (newId, location) !in table.records
             && py.parseInt(IntString(location)) == Some(location)
    modifies table
    ensures created.statusCode == 201 && deleted.statusCode == 200
    ensures table.Valid() && table.records == old(table.records)
  {
    var item := AddInventoryItem.Prepare(addEvent, py, newId).item;
    var key := (newId, item.locationId);
    created := AddInventoryItem.LambdaHandler(table, addEvent, py, newId, None);
    var request := DeleteRequest(newId, item.locationId);
    assert IntString(item.locationId) != "";
    assert DeleteInventoryItem.Screen(request, py) == DeleteInventoryItem.Accepted(key);
    deleted := DeleteInventoryItem.LambdaHandler(table, request, py, None, None);
    PutThenRemove(old(table.records), key, item);
  }

  /** Storing under a key that was absent and then removing that key gives back the original map. */
  lemma PutThenRemove(m: map<Key, Item>, key: Key, item: Item)
    requires key !in m
    ensures m[key := item] - {key} == m
  {
  }

  /**
   * Deleting the same record twice: whatever the first call answers, the
   * second answers 404, because the existence check now finds nothing, and
   * the key is gone from the table.
   */
  method DeleteTwice(table: Table, event: Event, py: Builtins) returns (first: Response, second: Response)
    requires table.Valid()
    requires DeleteInventoryItem.Screen(event, py).Accepted?
    modifies table
    ensures first.statusCode == 200 <==> DeleteInventoryItem.Screen(event, py).key in old(table.records)
    ensures first.statusCode == 200 || first.statusCode == 404
    ensures second.statusCode == 404
    ensures table.records == old(table.records) - {DeleteInventoryItem.Screen(event, py).key}
  {
    first := DeleteInventoryItem.LambdaHandler(table, event, py, None, None);
    second := DeleteInventoryItem.LambdaHandler(table, event, py, None, None);
  }
}
