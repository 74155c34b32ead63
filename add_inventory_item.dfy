/**
 * The handler that creates a record: decode the body, check that the five
 * required fields are present, build the record under a freshly minted `id`
 * with `qty` and `location_id` made integers and `price` an exact decimal,
 * and put it into the table.
 *
 * Everything before the put is pure and is the function `Prepare`; the
 * handler method runs it and then changes the table.
 */
module AddInventoryItem {
  import opened Python
  import opened Inventory
  import opened Http

  /** The required body fields, in the order the handler checks them. */
  const RequiredFields: seq<string> := ["name", "description", "qty", "price", "location_id"]

  /**
   * The body to validate: a str body is decoded with `json.loads` (which may
   * raise); any other value is used as it is; no body at all reads as `{}`.
   */
  function ParseBody(event: Event, py: Builtins): (r: Outcome<Json>)
    ensures event.body.None? ==> r == Returned(JObject(map[]))
    ensures event.body.Some? && event.body.value.JString? ==> r == py.loadJson(event.body.value.s)
    ensures event.body.Some? && !event.body.value.JString? ==> r == Returned(event.body.value)
  {
    match event.body
    case None => Returned(JObject(map[]))
    case Some(JString(text)) => py.loadJson(text)
    case Some(value) => Returned(value)
  }

  /** The decoded body supports Python's `in`: a dict, a list or a str. */
  predicate IsContainer(body: Json)
  {
    body.JObject? || body.JArray? || body.JString?
  }

  /** `field in body`: a key of a dict, an element of a list, a substring of a str. */
  predicate Holds(body: Json, field: string)
    requires IsContainer(body)
    ensures body.JArray? ==> (Holds(body, field) <==> exists i :: 0 <= i < |body.elems| && body.elems[i] == JString(field))
    ensures body.JString? ==> (Holds(body, field) <==> exists i: nat :: OccursAt(body.s, field, i))
  {
    match body
    case JObject(fields) => field in fields
    case JArray(elems) => JString(field) in elems
    case JString(s) => ContainsIffOccurs(s, field); Contains(s, field)
  }

  /** `t` is `s` with some elements left out, the rest in their order. */
  predicate IsSubsequence(t: seq<string>, s: seq<string>)
    decreases |s|
  {
    if t == [] then true
    else if s == [] then false
    else (t[0] == s[0] && IsSubsequence(t[1..], s[1..])) || IsSubsequence(t, s[1..])
  }

  /** A dict body holds all five required fields. */
  predicate HasRequired(fields: map<string, Json>)
  {
    "name" in fields && "description" in fields && "qty" in fields && "price" in fields && "location_id" in fields
  }

  /** No name occurs twice. */
  predicate Distinct(s: seq<string>)
  {
    forall i, j :: 0 <= i < j < |s| ==> s[i] != s[j]
  }

  /** The names of `names` that `body` lacks, in the order of `names`. */
  function Absent(body: Json, names: seq<string>): (r: seq<string>)
    requires IsContainer(body)
    ensures forall f :: f in r <==> f in names && !Holds(body, f)
    ensures IsSubsequence(r, names)
    decreases |names|
  {
    if names == [] then []
    else if Holds(body, names[0]) then Absent(body, names[1..])
    else [names[0]] + Absent(body, names[1..])
  }

  /**
   * `[field for field in required_fields if field not in body]`. A body that
   * does not support `in` raises TypeError before any name is looked up.
   */
  function MissingFields(body: Json): (r: Outcome<seq<string>>)
    ensures r.Raised? <==> !IsContainer(body)
    ensures r.Raised? ==> r.error.TypeError?
    ensures r.Returned? ==> forall f :: f in r.value <==> f in RequiredFields && !Holds(body, f)
    ensures r.Returned? ==> IsSubsequence(r.value, RequiredFields)
  {
    if IsContainer(body) then Returned(Absent(body, RequiredFields))
    else Raised(TypeError("argument of type '" + TypeName(body) + "' is not iterable"))
  }

  /**
   * A subsequence of distinct names is fixed by which names it holds, so the
   * two ensures of `MissingFields` determine its result completely.
   */
  lemma {:induction false} SubsequenceFixedByMembers(s: seq<string>, t: seq<string>, names: seq<string>)
    requires Distinct(names)
    requires IsSubsequence(s, names) && IsSubsequence(t, names)
    requires forall f :: f in s <==> f in t
    ensures s == t
    decreases |names|
  {
    if s == [] {
      NoMembersMeansEmpty(t);
    } else if t == [] {
      NoMembersMeansEmpty(s);
    } else {
      SubsequenceHead(s, names);
      SubsequenceHead(t, names);
      DistinctTail(names);
      var rest := names[1..];
      if s[0] == names[0] && t[0] == names[0] {
        SubsequenceMembers(s[1..], rest);
        SubsequenceMembers(t[1..], rest);
        forall f ensures f in s[1..] <==> f in t[1..] {
          assert f in s <==> f == s[0] || f in s[1..];
          assert f in t <==> f == t[0] || f in t[1..];
        }
        SubsequenceFixedByMembers(s[1..], t[1..], rest);
        assert s == [s[0]] + s[1..] && t == [t[0]] + t[1..];
      } else if s[0] != names[0] && t[0] != names[0] {
        SubsequenceFixedByMembers(s, t, rest);
      } else if s[0] == names[0] {
        SubsequenceMembers(t, rest);
      } else {
        SubsequenceMembers(s, rest);
      }
    }
  }

  /** The five required names are different names. */
  lemma RequiredFieldsDistinct()
    ensures Distinct(RequiredFields)
  {
  }

  lemma NoMembersMeansEmpty(t: seq<string>)
    requires forall f :: f !in t
    ensures t == []
  {
    forall f ensures multiset(t)[f] == 0 {
      assert f !in t;
    }
    assert multiset(t) == multiset{};
    assert |t| == |multiset(t)|;
  }

  /** A distinct sequence stays distinct without its head, and its head does not recur. */
  lemma DistinctTail(names: seq<string>)
    requires Distinct(names) && names != []
    ensures Distinct(names[1..]) && names[0] !in names[1..]
  {
    var rest := names[1..];
    forall i, j | 0 <= i < j < |rest| ensures rest[i] != rest[j] {
      assert rest[i] == names[i + 1] && rest[j] == names[j + 1];
    }
  }

  /** How a non-empty subsequence of distinct names starts. */
  lemma {:induction false} SubsequenceHead(t: seq<string>, names: seq<string>)
    requires Distinct(names)
    requires t != [] && IsSubsequence(t, names)
    ensures names != []
    ensures t[0] == names[0] ==> IsSubsequence(t[1..], names[1..])
    ensures t[0] != names[0] ==> IsSubsequence(t, names[1..])
  {
    if t[0] == names[0] && !IsSubsequence(t[1..], names[1..]) {
      DistinctTail(names);
      SubsequenceMembers(t, names[1..]);
    }
  }

  lemma {:induction false} SubsequenceMembers(t: seq<string>, names: seq<string>)
    requires IsSubsequence(t, names)
    ensures forall f :: f in t ==> f in names
    decreases |names|
  {
    if t != [] {
      if t[0] == names[0] && IsSubsequence(t[1..], names[1..]) {
        SubsequenceMembers(t[1..], names[1..]);
        forall f | f in t ensures f in names {
          assert f == t[0] || f in t[1..];
        }
      } else {
        SubsequenceMembers(t, names[1..]);
      }
    }
  }

  /** `body[key]`: a dict's value under `key`; a list or str cannot be indexed by a str. */
  function Subscript(body: Json, key: string): (r: Outcome<Json>)
    ensures r.Returned? <==> body.JObject? && key in body.fields
  {
    match body
    case JObject(fields) => if key in fields then Returned(fields[key]) else Raised(KeyError("'" + key + "'"))
    case JArray(_) => Raised(TypeError("list indices must be integers or slices, not str"))
    case JString(_) => Raised(TypeError("string indices must be integers, not 'str'"))
    case _ => Raised(TypeError("'" + TypeName(body) + "' object is not subscriptable"))
  }

  /**
   * The record of lines 43-50, built in the order Python evaluates the dict
   * display: `name`, `description`, then `int(qty)`, `Decimal(str(price))`,
   * `int(location_id)`. The first step that raises decides the exception.
   */
  function BuildItem(body: Json, py: Builtins, itemId: string): (r: Outcome<Item>)
    ensures r.Returned? ==> r.value.id == itemId && body.JObject?
  {
    var name :- Subscript(body, "name");
    var description :- Subscript(body, "description");
    var qtyField :- Subscript(body, "qty");
    var qty :- IntOf(py, qtyField);
    var priceField :- Subscript(body, "price");
    var price :- DecimalOf(py, priceField);
    var locationField :- Subscript(body, "location_id");
    var locationId :- IntOf(py, locationField);
    Returned(Item(itemId, name, description, qty, price, locationId))
  }

  /**
   * A dict body holding all five fields: the record carries the minted `id`,
   * `name` and `description` exactly as sent, and the converted `qty`,
   * `price` and `location_id`; the conversions run in the order qty, price,
   * location_id, and the first that raises decides the exception.
   */
  lemma BuildFromCompleteBody(fields: map<string, Json>, py: Builtins, itemId: string)
    requires HasRequired(fields)
    ensures var r := BuildItem(JObject(fields), py, itemId);
            var qty := IntOf(py, fields["qty"]);
            var price := DecimalOf(py, fields["price"]);
            var location := IntOf(py, fields["location_id"]);
            && (qty.Raised? ==> r == Raised(qty.error))
            && (qty.Returned? && price.Raised? ==> r == Raised(price.error))
            && (qty.Returned? && price.Returned? && location.Raised? ==> r == Raised(location.error))
            && (qty.Returned? && price.Returned? && location.Returned? ==>
                  r == Returned(Item(itemId, fields["name"], fields["description"],
                                     qty.value, price.value, location.value)))
  {
    var body := JObject(fields);
    assert Subscript(body, "name") == Returned(fields["name"]);
    assert Subscript(body, "description") == Returned(fields["description"]);
    assert Subscript(body, "qty") == Returned(fields["qty"]);
    assert Subscript(body, "price") == Returned(fields["price"]);
    assert Subscript(body, "location_id") == Returned(fields["location_id"]);
  }

  /** A dict body lacks no required field exactly when it holds all five. */
  lemma NothingMissing(fields: map<string, Json>)
    ensures MissingFields(JObject(fields)) == Returned([]) <==> HasRequired(fields)
  {
    var missing := MissingFields(JObject(fields)).value;
    assert forall f :: f in missing <==> f in RequiredFields && f !in fields;
    if HasRequired(fields) {
      assert forall f :: f in RequiredFields ==> f in fields;
      NoMembersMeansEmpty(missing);
    } else {
      assert exists f :: f in RequiredFields && f !in fields;
    }
  }

  /** An event without a body reads as `{}`: all five fields are missing, in order. */
  /**
   * A str body that `json.loads` rejects with a ValueError (a
   * `JSONDecodeError`) stops before any field is read: 400 carrying the
   * decoder's exception.
   */
  lemma MalformedJsonIsClientError(event: Event, py: Builtins, itemId: string)
    requires event.body.Some? && event.body.value.JString?
    requires py.loadJson(event.body.value.s).Raised? && py.loadJson(event.body.value.s).error.ValueError?
    ensures Prepare(event, py, itemId) == Invalid(py.loadJson(event.body.value.s).error)
    ensures Failure(Prepare(event, py, itemId).error).statusCode == 400
  {
  }

  /**
   * A `body` that is JSON null is taken as it is; `field not in None` raises
   * TypeError, so the answer is 500, not the 400 listing the missing fields.
   */
  lemma NullBodyIsServerError(event: Event, py: Builtins, itemId: string)
    requires event.body == Some(JNull)
    ensures Prepare(event, py, itemId).Invalid? && Prepare(event, py, itemId).error.TypeError?
    ensures Failure(Prepare(event, py, itemId).error).statusCode == 500
  {
  }

  lemma NoBodyMissesEverything(event: Event, py: Builtins, itemId: string)
    requires event.body.None?
    ensures Prepare(event, py, itemId) == Incomplete(RequiredFields)
  {
    var body := JObject(map[]);
    assert forall f :: f in RequiredFields ==> !Holds(body, f);
    MissingFieldsExactly(body, RequiredFields);
  }

  /** Where the pure part of the handler ends. */
  datatype Preparation =
    | Incomplete(missing: seq<string>)  // 400 listing the missing fields
    | Invalid(error: PyError)           // an exception before the put
    | Ready(item: Item)                 // the record to put

  /** Lines 17-50: decode, check for missing fields, build the record under `itemId`. */
  function Prepare(event: Event, py: Builtins, itemId: string): (p: Preparation)
    ensures p.Incomplete? ==> p.missing != [] && IsSubsequence(p.missing, RequiredFields)
    ensures p.Ready? ==> p.item.id == itemId && KeyOf(p.item) == (itemId, p.item.locationId)
  {
    match ParseBody(event, py)
    case Raised(e) => Invalid(e)
    case Returned(body) =>
      match MissingFields(body)
      case Raised(e) => Invalid(e)
      case Returned(missing) =>
        if missing != [] then Incomplete(missing)
        else match BuildItem(body, py, itemId)
          case Raised(e) => Invalid(e)
          case Returned(item) => Ready(item)
  }

  /**
   * The two `except` branches: a ValueError is the client's fault (400),
   * anything else is 500; both carry the exception.
   */
  function Failure(e: PyError): (resp: Response)
    ensures resp.headers == StandardHeaders && resp.payload == Error(e)
    ensures resp.statusCode == (if e.ValueError? then 400 else 500)
  {
    if e.ValueError? then Respond(400, "Invalid data type for quantity, price, or location_id", Error(e))
    else Respond(500, "Error adding inventory item", Error(e))
  }

  /**
   * The record as the 201 response shows it: every stored field, the price
   * as `NearestFloat(price)`, an unrounded stand-in for `float(price)` from
   * which the stored decimal reads back.
   */
  function View(item: Item): (v: ItemView)
    ensures Item(v.id, v.name, v.description, v.qty, v.price.exact, v.locationId) == item
  {
    ItemView(item.id, item.name, item.description, item.qty, NearestFloat(item.price), item.locationId)
  }

  /**
   * `lambda_handler`. `newId` is the fresh `str(uuid.uuid4())`; `putFailure`
   * is what `put_item` raises, if it raises. Only a 201 changes the table,
   * and then exactly by filing the new record under (`newId`, `location_id`),
   * replacing any record already there.
   */
  method LambdaHandler(table: Table, event: Event, py: Builtins, newId: string, putFailure: Option<PyError>)
    returns (resp: Response)
    requires table.Valid()
    modifies table
    ensures table.Valid()
    ensures resp.headers == StandardHeaders
    ensures match Prepare(event, py, newId)
            case Incomplete(missing) =>
              resp == Respond(400, "Missing required fields", MissingFieldList(missing))
              && table.records == old(table.records)
            case Invalid(e) =>
              resp == Failure(e) && table.records == old(table.records)
            case Ready(item) =>
              if putFailure.Some? then
                resp == Failure(putFailure.value) && table.records == old(table.records)
              else
                && resp == Respond(201, "Successfully added inventory item", Created(newId, View(item)))
                && table.records == old(table.records)[(newId, item.locationId) := item]
    ensures resp.statusCode == 201 || resp.statusCode == 400 || resp.statusCode == 500
    ensures resp.statusCode != 201 ==> table.records == old(table.records)
    ensures resp.statusCode == 201 ==>
              var view := resp.payload.newItem;
              && resp.payload.itemId == view.id == newId
              && (newId, view.locationId) in table.records
              && var stored := table.records[(newId, view.locationId)];
                 && stored.id == view.id && stored.name == view.name && stored.description == view.description
                 && stored.qty == view.qty && stored.locationId == view.locationId
                 && view.price == NearestFloat(stored.price)
  {
    var preparation := Prepare(event, py, newId);
    match preparation {
      case Incomplete(missing) =>
        resp := Respond(400, "Missing required fields", MissingFieldList(missing));
      case Invalid(e) =>
        resp := Failure(e);
      case Ready(item) =>
        var put := table.PutItem(item, putFailure);
        if put.Raised? {
          resp := Failure(put.error);
        } else {
          resp := Respond(201, "Successfully added inventory item", Created(newId, View(item)));
        }
    }
  }

  /**
   * `missing_fields` is exactly the required names the body lacks, in the
   * order name, description, qty, price, location_id: any list of distinct
   * required names in that order that holds just the absent ones is it.
   */
  lemma MissingFieldsExactly(body: Json, listed: seq<string>)
    requires IsContainer(body)
    requires IsSubsequence(listed, RequiredFields)
    requires forall f :: f in listed <==> f in RequiredFields && !Holds(body, f)
    ensures MissingFields(body) == Returned(listed)
  {
    var r := MissingFields(body).value;
    RequiredFieldsDistinct();
    SubsequenceFixedByMembers(r, listed, RequiredFields);
  }

  /**
   * Only the five required fields of a dict body matter to the missing-field
   * check: a client-sent `id` or any other extra key leaves it unchanged.
   */
  lemma ExtraKeysIgnored(fields: map<string, Json>, other: map<string, Json>)
    requires forall f :: f in RequiredFields ==> (f in fields <==> f in other)
    ensures MissingFields(JObject(fields)) == MissingFields(JObject(other))
  {
    var a := MissingFields(JObject(fields)).value;
    var b := MissingFields(JObject(other)).value;
    forall f ensures f in a <==> f in b {
      assert Holds(JObject(fields), f) == (f in fields);
      assert Holds(JObject(other), f) == (f in other);
    }
    RequiredFieldsDistinct();
    SubsequenceFixedByMembers(a, b, RequiredFields);
  }

  /**
   * Nor do extra keys matter to the record: two complete dict bodies that
   * agree on the five required fields build the same record, whose `id` is
   * the minted one whatever `id` the client sent.
   */
  lemma ExtraKeysLeaveRecordAlone(py: Builtins, itemId: string, fields: map<string, Json>, other: map<string, Json>)
    requires HasRequired(fields) && HasRequired(other)
    requires forall f :: f in RequiredFields ==> fields[f] == other[f]
    ensures BuildItem(JObject(fields), py, itemId) == BuildItem(JObject(other), py, itemId)
  {
    assert fields["qty"] == other["qty"] && fields["price"] == other["price"];
    assert fields["location_id"] == other["location_id"];
    assert fields["name"] == other["name"] && fields["description"] == other["description"];
    BuildFromCompleteBody(fields, py, itemId);
    BuildFromCompleteBody(other, py, itemId);
  }

  /**
   * A ValueError, the only exception answered with 400, comes from decoding
   * a str body or from `int()` on a `qty` or `location_id` string the integer
   * parser rejects; never from the price.
   */
  lemma ValueErrorsComeFromJsonOrInt(event: Event, py: Builtins, itemId: string)
    requires Prepare(event, py, itemId).Invalid? && Prepare(event, py, itemId).error.ValueError?
    ensures || (event.body.Some? && event.body.value.JString? && py.loadJson(event.body.value.s).Raised?)
            || (var fields := ParseBody(event, py).value.fields;
                || (fields["qty"].JString? && py.parseInt(fields["qty"].s).None?)
                || (fields["location_id"].JString? && py.parseInt(fields["location_id"].s).None?))
  {
    var body := ParseBody(event, py);
    if body.Returned? {
      assert IsContainer(body.value);
      if body.value.JObject? {
        var missing := MissingFields(body.value).value;
        assert missing == [];
        forall f | f in RequiredFields ensures f in body.value.fields {
          assert f !in missing;
        }
      }
    }
  }

  /**
   * A price the decimal parser rejects raises decimal.InvalidOperation,
   * which is not a ValueError: the handler answers 500, not 400, and the
   * table is left alone.
   */
  lemma BadPriceIsServerError(event: Event, py: Builtins, itemId: string, fields: map<string, Json>)
    requires ParseBody(event, py) == Returned(JObject(fields))
    requires forall f :: f in RequiredFields ==> f in fields
    requires IntOf(py, fields["qty"]).Returned?
    requires fields["price"].JString? && py.parseDecimal(fields["price"].s).None?
    ensures Prepare(event, py, itemId).Invalid?
    ensures Failure(Prepare(event, py, itemId).error).statusCode == 500
  {
    var missing := MissingFields(JObject(fields)).value;
    assert missing == [];
  }

  /** A `qty` string the integer parser rejects (such as "abc") is a client error: 400. */
  lemma UnparsableQtyIsClientError(event: Event, py: Builtins, itemId: string, fields: map<string, Json>)
    requires ParseBody(event, py) == Returned(JObject(fields))
    requires forall f :: f in RequiredFields ==> f in fields
    requires fields["qty"].JString? && py.parseInt(fields["qty"].s).None?
    ensures Prepare(event, py, itemId).Invalid?
    ensures Failure(Prepare(event, py, itemId).error).statusCode == 400
  {
    var missing := MissingFields(JObject(fields)).value;
    assert missing == [];
  }
}
