/**
 * The `Inventory` table: records keyed by the composite primary key
 * (`id`, `location_id`), held in memory by the `Table` class whose three
 * methods stand for the table client's `get_item`, `put_item` and
 * `delete_item`. Query and scan results arrive as `Page`s.
 */
module Inventory {
  import opened Python

  /** The composite primary key: (`id`, `location_id`). */
  type Key = (string, int)

  /** A stored inventory record; `name` and `description` are whatever the client sent. */
  datatype Item = Item(
    id: string,
    name: Json,
    description: Json,
    qty: int,
    price: Decimal,
    locationId: int)

  function KeyOf(item: Item): Key
  {
    (item.id, item.locationId)
  }

  /** One response of a query or a scan: its `Items`, and `LastEvaluatedKey` when more follow. */
  datatype Page = Page(items: seq<Item>, lastEvaluatedKey: Option<Key>)

  /**
   * The table. Every call takes `failure`: the exception the service raises
   * on that call, if it raises. A call that raises changes nothing.
   */
  class Table {
    var records: map<Key, Item>

    /** Every record is filed under its own key. */
    ghost predicate Valid()
      reads this
    {
      forall k :: k in records ==> KeyOf(records[k]) == k
    }

    constructor ()
      ensures Valid() && records == map[]
    {
      records := map[];
    }

    /** `table.get_item(Key=key)`: the record under `key`, if any. */
    method GetItem(key: Key, failure: Option<PyError>) returns (r: Outcome<Option<Item>>)
      requires Valid()
      ensures failure.Some? ==> r == Raised(failure.value)
      ensures failure.None? ==> r.Returned? && (r.value.Some? <==> key in records)
      ensures r.Returned? && r.value.Some? ==> r.value.value == records[key] && KeyOf(r.value.value) == key
    {
      if failure.Some? {
        return Raised(failure.value);
      }
      if key in records {
        r := Returned(Some(records[key]));
      } else {
        r := Returned(None);
      }
    }

    /** `table.put_item(Item=item)`: stores `item` under its own key, replacing any record there. */
    method PutItem(item: Item, failure: Option<PyError>) returns (r: Outcome<()>)
      requires Valid()
      modifies this
      ensures Valid()
      ensures failure.Some? ==> r == Raised(failure.value) && records == old(records)
      ensures failure.None? ==> r == Returned(()) && records == old(records)[KeyOf(item) := item]
    {
      if failure.Some? {
        return Raised(failure.value);
      }
      records := records[KeyOf(item) := item];
      r := Returned(());
    }

    /** `table.delete_item(Key=key)`: removes the record under `key`; a missing key is not an error. */
    method DeleteItem(key: Key, failure: Option<PyError>) returns (r: Outcome<()>)
      requires Valid()
      modifies this
      ensures Valid()
      ensures failure.Some? ==> r == Raised(failure.value) && records == old(records)
      ensures failure.None? ==> r == Returned(()) && records == old(records) - {key}
    {
      if failure.Some? {
        return Raised(failure.value);
      }
      records := records - {key};
      r := Returned(());
    }
  }

  /**
   * `items` lists the records of `m`, each exactly once: what a complete
   * scan (or a complete query) of `m` returns, in some order.
   */
  ghost predicate Enumerates(items: seq<Item>, m: map<Key, Item>)
  {
    && (forall i :: 0 <= i < |items| ==> KeyOf(items[i]) in m && m[KeyOf(items[i])] == items[i])
    && (forall k :: k in m ==> exists i :: 0 <= i < |items| && KeyOf(items[i]) == k)
    && (forall i, j :: 0 <= i < j < |items| ==> KeyOf(items[i]) != KeyOf(items[j]))
  }

  /** A listing that enumerates a table has one entry per record. */
  lemma {:induction false} EnumerationCountsRecords(items: seq<Item>, m: map<Key, Item>)
    requires Enumerates(items, m)
    ensures |items| == |m|
    decreases |items|
  {
    if items == [] {
      assert m.Keys == {};
    } else {
      var n := |items| - 1;
      var last := KeyOf(items[n]);
      var rest := m - {last};
      forall k | k in rest
        ensures exists i :: 0 <= i < n && KeyOf(items[..n][i]) == k
      {
        var i :| 0 <= i < |items| && KeyOf(items[i]) == k;
        assert i != n;
        assert KeyOf(items[..n][i]) == k;
      }
      forall i | 0 <= i < n
        ensures KeyOf(items[..n][i]) in rest && rest[KeyOf(items[..n][i])] == items[..n][i]
      {
        assert KeyOf(items[i]) != last;
      }
      assert Enumerates(items[..n], rest);
      EnumerationCountsRecords(items[..n], rest);
      assert |rest| == |m| - 1;
    }
  }

  /** The records of `m` at location `location`: what a query of the location index selects. */
  function AtLocation(m: map<Key, Item>, location: int): (r: map<Key, Item>)
    ensures forall k :: k in r <==> k in m && k.1 == location
    ensures forall k :: k in r ==> r[k] == m[k]
  {
    map k | k in m && k.1 == location :: m[k]
  }

  /** The records of `m` whose partition key is `id`: what a query on `id` selects. */
  function WithId(m: map<Key, Item>, id: string): (r: map<Key, Item>)
    ensures forall k :: k in r <==> k in m && k.0 == id
    ensures forall k :: k in r ==> r[k] == m[k]
  {
    map k | k in m && k.0 == id :: m[k]
  }
}
