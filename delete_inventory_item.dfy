/**
 * The handler that deletes one record by its composite key: `id` from the
 * path, `location_id` from the query string. It checks that the record
 * exists before deleting it, so a missing record is 404 and leaves the table
 * alone.
 */
module DeleteInventoryItem {
  import opened Python
  import opened Inventory
  import opened Http

  /** What the guard clauses decide: the response that ends the call early, or the key to delete. */
  datatype Screening = Rejected(response: Response) | Accepted(key: Key)

  /**
   * The checks before any table call, in the handler's order: reading the
   * path parameters (a None dictionary raises: 500), then `id` (missing or
   * empty: 400), then `location_id` (missing or empty, an absent or None
   * query-string dictionary counting as empty: 400), then `int(location_id)`
   * (ValueError: 400).
   */
  function Screen(event: Event, py: Builtins): (s: Screening)
    ensures s.Rejected? ==> s.response.headers == StandardHeaders
    ensures s.Rejected? && s.response.statusCode == 500 <==> event.pathParameters.Null?
    ensures s.Rejected? && s.response.statusCode != 500 ==> s.response.statusCode == 400
    ensures var id := PathParameter(event, "id");
            var location := QueryParameter(event, "location_id");
            s.Accepted? <==> id.Returned? && Truthy(id.value) && Truthy(location)
                             && py.parseInt(location.value).Some?
    ensures s.Accepted? ==>
              && s.key.0 == PathParameter(event, "id").value.value && s.key.0 != ""
              && Some(s.key.1) == py.parseInt(QueryParameter(event, "location_id").value)
  {
    match PathParameter(event, "id")
    case Raised(e) => Rejected(Failure(e))
    case Returned(itemId) =>
      var location := QueryParameter(event, "location_id");
      if !Truthy(itemId) then
        Rejected(Respond(400, "Missing item ID in path parameters", NoPayload))
      else if !Truthy(location) then
        Rejected(Respond(400, "Missing location_id in query parameters", NoPayload))
      else match py.parseInt(location.value)
        case None => Rejected(Respond(400, "location_id must be a valid integer", NoPayload))
        case Some(locationId) => Accepted((itemId.value, locationId))
  }

  /** The generic `except` branch: 500 carrying the exception. */
  function Failure(e: PyError): (resp: Response)
    ensures resp.statusCode == 500 && resp.headers == StandardHeaders && resp.payload == Error(e)
  {
    Respond(500, "Error deleting inventory item", Error(e))
  }

  /**
   * `lambda_handler`. `getFailure` and `deleteFailure` are what `get_item`
   * and `delete_item` raise, if they raise. A rejected request makes no
   * table call. Only a 200 changes the table, and then by removing exactly
   * the requested key, which was present; 404 means the key was absent and
   * the table is as it was.
   */
  method LambdaHandler(table: Table, event: Event, py: Builtins,
                       getFailure: Option<PyError>, deleteFailure: Option<PyError>)
    returns (resp: Response)
    requires table.Valid()
    modifies table
    ensures table.Valid()
    ensures resp.headers == StandardHeaders
    ensures match Screen(event, py)
            case Rejected(early) =>
              resp == early && table.records == old(table.records)
            case Accepted(key) =>
              if getFailure.Some? then
                resp == Failure(getFailure.value) && table.records == old(table.records)
              else if key !in old(table.records) then
                && resp == Respond(404, "Item with ID " + key.0 + " and location " + IntString(key.1) + " not found",
                                   NoPayload)
                && table.records == old(table.records)
              else if deleteFailure.Some? then
                resp == Failure(deleteFailure.value) && table.records == old(table.records)
              else
                && resp == Respond(200, "Successfully deleted inventory item with ID " + key.0, NoPayload)
                && table.records == old(table.records) - {key}
    ensures resp.statusCode in {200, 400, 404, 500}
    ensures resp.statusCode != 200 ==> table.records == old(table.records)
    ensures resp.statusCode == 200 ==>
              var key := Screen(event, py).key;
              && key in old(table.records) && key !in table.records
              && forall k :: k != key ==> (k in table.records <==> k in old(table.records))
                                          && (k in table.records ==> table.records[k] == old(table.records)[k])
  {
    var screening := Screen(event, py);
    if screening.Rejected? {
      return screening.response;
    }
    var key := screening.key;
    var found := table.GetItem(key, getFailure);
    if found.Raised? {
      return Failure(found.error);
    }
    if found.value.None? {
      return Respond(404, "Item with ID " + key.0 + " and location " + IntString(key.1) + " not found", NoPayload);
    }
    var deleted := table.DeleteItem(key, deleteFailure);
    if deleted.Raised? {
      return Failure(deleted.error);
    }
    resp := Respond(200, "Successfully deleted inventory item with ID " + key.0, NoPayload);
  }

  /**
   * `id` is checked before `location_id`: a request lacking a usable `id`
   * gets the id message whatever its query string holds.
   */
  lemma IdCheckedFirst(event: Event, py: Builtins)
    requires event.pathParameters.Missing? || (event.pathParameters.Given? && !Truthy(PathParameter(event, "id").value))
    ensures Screen(event, py) == Rejected(Respond(400, "Missing item ID in path parameters", NoPayload))
  {
  }

  /**
   * With a usable `id`, a `location_id` that is missing or empty is 400
   * "Missing location_id…"; an absent or None query-string dictionary counts
   * as empty.
   */
  lemma MissingLocationRejected(event: Event, py: Builtins)
    requires PathParameter(event, "id").Returned? && Truthy(PathParameter(event, "id").value)
    requires !event.queryStringParameters.Given? || !Truthy(QueryParameter(event, "location_id"))
    ensures Screen(event, py) == Rejected(Respond(400, "Missing location_id in query parameters", NoPayload))
  {
  }

  /** A `location_id` the integer parser rejects is 400 "location_id must be a valid integer". */
  lemma UnparsableLocationRejected(event: Event, py: Builtins)
    requires PathParameter(event, "id").Returned? && Truthy(PathParameter(event, "id").value)
    requires Truthy(QueryParameter(event, "location_id"))
    requires py.parseInt(QueryParameter(event, "location_id").value).None?
    ensures Screen(event, py) == Rejected(Respond(400, "location_id must be a valid integer", NoPayload))
  {
  }
}
