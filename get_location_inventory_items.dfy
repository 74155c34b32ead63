/**
 * The handler that lists the records of one location: the location comes
 * from the path parameter named `id`, must parse as an integer, and selects
 * records through the `LocationIndex` secondary index, page by page.
 */
module GetLocationInventoryItems {
  import opened Python
  import opened Inventory
  import opened Http
  import opened Pagination

  /** What the guard clauses decide: the response that ends the call early, or the location to query. */
  datatype Screening = Rejected(response: Response) | Accepted(locationId: int)

  /**
   * The checks before the query. A None path-parameter dictionary raises
   * (500); a missing or empty location is 400 "Missing location ID…"; one
   * that does not parse as an integer is 400 "Location ID must be a valid
   * integer"; otherwise the parsed integer is the location.
   */
  function Screen(event: Event, py: Builtins): (s: Screening)
    ensures s.Rejected? ==> s.response.headers == StandardHeaders
    ensures s.Rejected? && s.response.statusCode == 500 <==> event.pathParameters.Null?
    ensures s.Rejected? && s.response.statusCode != 500 ==> s.response.statusCode == 400
    ensures var id := PathParameter(event, "id");
            s.Accepted? <==> id.Returned? && Truthy(id.value) && py.parseInt(id.value.value).Some?
    ensures s.Accepted? ==> Some(s.locationId) == py.parseInt(PathParameter(event, "id").value.value)
  {
    match PathParameter(event, "id")
    case Raised(e) => Rejected(Respond(500, "Error retrieving inventory items by location", Error(e)))
    case Returned(location) =>
      if !Truthy(location) then
        Rejected(Respond(400, "Missing location ID in path parameters", NoPayload))
      else match py.parseInt(location.value)
        case None => Rejected(Respond(400, "Location ID must be a valid integer", NoPayload))
        case Some(locationId) => Accepted(locationId)
  }

  /**
   * The answer for an accepted location: 500 with the exception of the call
   * that raised, or 200 echoing the location with every page's items, in
   * order, and their number.
   */
  ghost function Listing(locationId: int, query: seq<Fetch>): (resp: Response)
    requires Terminates(query)
    ensures resp.headers == StandardHeaders
    ensures resp.statusCode == 500 <==> query[StopIndex(query)].Raised?
    ensures query[StopIndex(query)].Returned? ==>
              var items := ItemsOf(query, StopIndex(query) + 1);
              && resp.statusCode == 200
              && resp.payload == LocationItems(locationId, |items|, items)
  {
    var n := StopIndex(query);
    if query[n].Raised? then
      Respond(500, "Error retrieving inventory items by location", Error(query[n].error))
    else
      var items := ItemsOf(query, n + 1);
      Respond(200, "Successfully retrieved inventory items for location " + IntString(locationId),
              LocationItems(locationId, |items|, items))
  }

  /**
   * `lambda_handler`. `query` holds what the successive calls on the location
   * index return or raise; a rejected request issues none of them. The
   * handler has no `modifies` clause: the table is unchanged. On 200 the
   * items are every page's items in order, `count` is their number, and
   * `location_id` echoes the parsed integer; when the pages list exactly the
   * table's records at that location, every item is at that location and the
   * count is their number.
   */
  method LambdaHandler(table: Table, event: Event, py: Builtins, query: seq<Fetch>) returns (resp: Response)
    requires Terminates(query)
    ensures resp.headers == StandardHeaders
    ensures Screen(event, py).Rejected? ==> resp == Screen(event, py).response
    ensures Screen(event, py).Accepted? ==> resp == Listing(Screen(event, py).locationId, query)
    ensures resp.statusCode == 200 && table.Valid()
            && Enumerates(resp.payload.items, AtLocation(table.records, resp.payload.locationId)) ==>
              && resp.payload.count == |AtLocation(table.records, resp.payload.locationId)|
              && forall i :: 0 <= i < |resp.payload.items| ==> resp.payload.items[i].locationId == resp.payload.locationId
  {
    var screening := Screen(event, py);
    if screening.Rejected? {
      return screening.response;
    }
    var locationId := screening.locationId;
    var response := CollectPages(query);
    if response.Raised? {
      return Respond(500, "Error retrieving inventory items by location", Error(response.error));
    }
    var items := response.value;
    resp := Respond(200, "Successfully retrieved inventory items for location " + IntString(locationId),
                    LocationItems(locationId, |items|, items));
    var selected := AtLocation(table.records, locationId);
    if table.Valid() && Enumerates(items, selected) {
      EnumerationCountsRecords(items, selected);
      forall i | 0 <= i < |items|
        ensures items[i].locationId == locationId
      {
        assert KeyOf(items[i]) in selected;
      }
    }
  }

  /**
   * A location with no records answers with one empty page, which lists
   * those records once each: 200, count 0, no items.
   */
  method EmptyLocation(table: Table, event: Event, py: Builtins) returns (resp: Response)
    requires Screen(event, py).Accepted?
    requires AtLocation(table.records, Screen(event, py).locationId) == map[]
    ensures resp.statusCode == 200
    ensures resp.payload == LocationItems(Screen(event, py).locationId, 0, [])
    ensures var selected := AtLocation(table.records, Screen(event, py).locationId);
            Enumerates(resp.payload.items, selected) && resp.payload.count == |selected|
  {
    var query: seq<Fetch> := [Returned(Page([], None))];
    EmptyListing(Screen(event, py).locationId, query);
    resp := LambdaHandler(table, event, py, query);
  }

  /** One empty page without a token lists nothing: 200, count 0. */
  lemma EmptyListing(locationId: int, query: seq<Fetch>)
    requires query == [Returned(Page([], None))]
    ensures Terminates(query)
    ensures Listing(locationId, query).statusCode == 200
    ensures Listing(locationId, query).payload == LocationItems(locationId, 0, [])
  {
    assert Ends(query[0]);
    assert StopIndex(query) == 0;
    assert ItemsOf(query, 1) == [];
  }

  /** A missing or empty location is 400 "Missing location ID…", before any parsing. */
  lemma MissingLocationRejected(event: Event, py: Builtins)
    requires PathParameter(event, "id").Returned? && !Truthy(PathParameter(event, "id").value)
    ensures Screen(event, py) == Rejected(Respond(400, "Missing location ID in path parameters", NoPayload))
  {
  }

  /** A location the integer parser rejects is 400 "Location ID must be a valid integer". */
  lemma UnparsableLocationRejected(event: Event, py: Builtins)
    requires PathParameter(event, "id").Returned? && Truthy(PathParameter(event, "id").value)
    requires py.parseInt(PathParameter(event, "id").value.value).None?
    ensures Screen(event, py) == Rejected(Respond(400, "Location ID must be a valid integer", NoPayload))
  {
  }
}
