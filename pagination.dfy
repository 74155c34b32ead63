/**
 * The continuation-token loop the two list handlers share: issue the first
 * query or scan, then, while the last response carries `LastEvaluatedKey`,
 * issue the next one and append its `Items`.
 *
 * The successive calls are given up front as `fetches`: `fetches[k]` is what
 * the k-th call returns or raises. The loop reads them in order and never
 * looks past the first one that raises or carries no token.
 */
module Pagination {
  import opened Python
  import opened Inventory

  /** What one query or scan call did: returned a page, or raised. */
  type Fetch = Outcome<Page>

  /** The loop stops after this call: it raised, or its page carries no token. */
  predicate Ends(f: Fetch)
  {
    f.Raised? || f.value.lastEvaluatedKey.None?
  }

  /** The service eventually answers without a token (or fails). */
  predicate Terminates(fetches: seq<Fetch>)
  {
    exists i :: 0 <= i < |fetches| && Ends(fetches[i])
  }

  /** The index of the last call the loop makes: the first one that ends it. */
  ghost function StopIndex(fetches: seq<Fetch>): (n: nat)
    requires Terminates(fetches)
    ensures n < |fetches| && Ends(fetches[n])
    ensures forall j :: 0 <= j < n ==> !Ends(fetches[j])
    decreases |fetches|
  {
    if Ends(fetches[0]) then 0
    else
      var i :| 0 <= i < |fetches| && Ends(fetches[i]);
      assert Ends(fetches[1..][i - 1]);
      1 + StopIndex(fetches[1..])
  }

  /** The `Items` of a page; a call that raised contributes none. */
  function PageItems(f: Fetch): seq<Item>
  {
    if f.Returned? then f.value.items else []
  }

  /** The items of the first `count` responses, page after page, each page's items in their own order. */
  function ItemsOf(fetches: seq<Fetch>, count: nat): seq<Item>
    requires count <= |fetches|
  {
    if count == 0 then [] else ItemsOf(fetches, count - 1) + PageItems(fetches[count - 1])
  }

  /**
   * The loop of both list handlers. Result: the concatenation of the items of
   * every page fetched, in order, up to and including the first page without
   * a token; or the exception of the first call that raised.
   */
  method CollectPages(fetches: seq<Fetch>) returns (r: Outcome<seq<Item>>)
    requires Terminates(fetches)
    ensures var n := StopIndex(fetches);
            if fetches[n].Raised? then r == Raised(fetches[n].error)
            else r == Returned(ItemsOf(fetches, n + 1))
  {
    ghost var n := StopIndex(fetches);
    var response := fetches[0];
    StopsAtFirstEnd(fetches, 0);
    if response.Raised? {
      return Raised(response.error);
    }
    var items := response.value.items;
    var k := 0;
    while response.value.lastEvaluatedKey.Some?
      invariant 0 <= k <= n
      invariant response == fetches[k] && response.Returned?
      invariant items == ItemsOf(fetches, k + 1)
      decreases n - k
    {
      StopsAtFirstEnd(fetches, k);
      k := k + 1;
      response := fetches[k];
      StopsAtFirstEnd(fetches, k);
      if response.Raised? {
        return Raised(response.error);
      }
      items := items + response.value.items;
    }
    StopsAtFirstEnd(fetches, k);
    r := Returned(items);
  }

  /** Before the stop index no response ends the loop; at it, one does. */
  lemma StopsAtFirstEnd(fetches: seq<Fetch>, k: nat)
    requires Terminates(fetches) && k <= StopIndex(fetches)
    ensures k < |fetches| && (Ends(fetches[k]) <==> k == StopIndex(fetches))
  {
  }
}
