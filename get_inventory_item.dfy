/**
 * The handler that reads one record by `id`. Because the primary key is
 * (`id`, `location_id`), it queries on the partition key `id` alone and
 * answers with the first record of the first page; it never fetches a
 * second page.
 */
module GetInventoryItem {
  import opened Python
  import opened Inventory
  import opened Http

  /**
   * `lambda_handler`, as a function of the event and of what the one query
   * call returned or raised. A None path-parameter dictionary or a raising
   * query is 500 carrying the exception; a missing or empty `id` is 400; an
   * empty first page is 404; otherwise 200 with element 0 of that page.
   */
  function LambdaHandler(event: Event, query: Outcome<Page>): (resp: Response)
    ensures resp.headers == StandardHeaders
    ensures var id := PathParameter(event, "id");
            && (resp.statusCode == 400 <==> id.Returned? && !Truthy(id.value))
            && (resp.statusCode == 404 <==> id.Returned? && Truthy(id.value) && query.Returned? && query.value.items == [])
            && (resp.statusCode == 200 <==> id.Returned? && Truthy(id.value) && query.Returned? && query.value.items != [])
            && (resp.statusCode == 500 <==> id.Raised? || (Truthy(id.value) && query.Raised?))
    ensures resp.statusCode == 200 ==> resp.payload == Found(query.value.items[0])
    ensures resp.statusCode == 500 ==>
              resp.payload == Error(if query.Raised? && PathParameter(event, "id").Returned? then query.error
                                    else PathParameter(event, "id").error)
  {
    match PathParameter(event, "id")
    case Raised(e) => Respond(500, "Error retrieving inventory item", Error(e))
    case Returned(itemId) =>
      if !Truthy(itemId) then
        Respond(400, "Missing item ID in path parameters", NoPayload)
      else match query
        case Raised(e) => Respond(500, "Error retrieving inventory item", Error(e))
        case Returned(page) =>
          if page.items == [] then
            Respond(404, "Item with ID " + itemId.value + " not found", NoPayload)
          else
            Respond(200, "Successfully retrieved inventory item", Found(page.items[0]))
  }

  /** A request without a usable `id` issues no query: the answer does not depend on it. */
  lemma MissingIdIssuesNoQuery(event: Event, query1: Outcome<Page>, query2: Outcome<Page>)
    requires PathParameter(event, "id").Raised? || !Truthy(PathParameter(event, "id").value)
    ensures LambdaHandler(event, query1) == LambdaHandler(event, query2)
  {
  }

  /**
   * The first page of a query on partition key `id` against table `m`: it
   * holds only records of `m` with that `id`, and it is empty only when `m`
   * has no such record.
   */
  ghost predicate FirstPageOf(page: Page, m: map<Key, Item>, id: string)
  {
    && (forall i :: 0 <= i < |page.items| ==> KeyOf(page.items[i]) in WithId(m, id)
                                               && m[KeyOf(page.items[i])] == page.items[i])
    && (page.items == [] ==> WithId(m, id) == map[])
  }

  /**
   * Against a faithful query: 200 returns a stored record carrying the
   * requested `id` (one of possibly several, one per location), and 404
   * means no record has that `id` at any location.
   */
  lemma AnswersMatchTheTable(event: Event, page: Page, m: map<Key, Item>)
    requires PathParameter(event, "id").Returned? && Truthy(PathParameter(event, "id").value)
    requires FirstPageOf(page, m, PathParameter(event, "id").value.value)
    ensures var resp := LambdaHandler(event, Returned(page));
            var id := PathParameter(event, "id").value.value;
            && (resp.statusCode == 404 <==> forall k :: k in m ==> k.0 != id)
            && (resp.statusCode == 200 ==>
                  && KeyOf(resp.payload.item) in m
                  && m[KeyOf(resp.payload.item)] == resp.payload.item
                  && resp.payload.item.id == id)
  {
    var id := PathParameter(event, "id").value.value;
    if page.items != [] {
      assert KeyOf(page.items[0]) in WithId(m, id);
    } else {
      assert forall k :: k in m ==> k.0 != id by {
        forall k | k in m ensures k.0 != id {
          assert k in WithId(m, id) <==> k.0 == id;
        }
      }
    }
  }
}
