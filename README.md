# Inventory handlers, modelled in Dafny

InvetoryApp is five request handlers doing create, read, list and delete on
one DynamoDB table, `Inventory`. A record's primary key is composite: the
partition key `id` (a string) and the sort key `location_id` (an integer). A
secondary index, `LocationIndex`, is keyed on `location_id`. Every handler
returns a status code, the same two headers, and a JSON body holding a
`message` and, depending on the outcome, the data or the error text.

The model has these modules:

- `Python` holds the runtime behaviour the handlers depend on:
  - values decoded from JSON, and exact decimals;
  - exceptions by class;
  - `int(x)` and `Decimal(str(x))` applied to a decoded value, with the exception each one raises;
  - `in` on a str.

  The parsers behind `int(s)`, `Decimal(s)` and `json.loads(s)` are passed in as a `Builtins` value. Each property therefore holds for any parser.
- `Inventory` holds the record, the composite key, and a `Page` of query or scan results. It also holds the `Table` class, whose `records` map is updated in place by `PutItem` and `DeleteItem`. Every table call takes the exception the service raises on that call, if it raises one.
- `Http` holds the event (path parameters, query-string parameters, body), the response, and how parameters are read. `event.get('pathParameters', {})` behaves differently for an absent dictionary and for one whose value is None. The same holds for the create handler's `event.get('body', {})`: a missing `body` key reads as `{}`, and all five fields are then missing (400). A `body` of JSON null, which the gateway sends for a request without a payload, stays None, so `field not in body` raises `TypeError` (500).
- `Pagination` holds the `LastEvaluatedKey` loop shared by the two list handlers. It is an imperative loop over the successive responses, and its invariant says the accumulator is the concatenation of the pages read so far.
- There is one module per handler:
  - `DeleteInventoryItem` and `AddInventoryItem` are methods that change the table;
  - `GetAllInventoryItems` and `GetLocationInventoryItems` are methods that only read;
  - `GetInventoryItem` is a function of the request and the first page.
- `Scenarios` runs handlers in sequence:
  - a create then a delete leaves the table as it was;
  - a second delete of the same record gives 404.

Some behaviour of the code is easy to miss when reading its messages:

- The 400 message of the create handler at lambda/add_inventory_item/lambda_function.py:83 names `price` among the fields with an invalid data type. But `Decimal(str(price))` at line 48 raises `decimal.InvalidOperation` for a price that is not a number. That exception is not a `ValueError`, so the `except ValueError` at line 75 does not catch it. When `qty` converts, the answer is therefore the 500 of line 87 (`AddInventoryItem.BadPriceIsServerError`). `qty` is converted first, at line 47, so if it is an unparsable string too, its `ValueError` gives the 400. The 400 goes only to a str body that `json.loads` cannot decode, and to a `qty` or `location_id` string that `int()` rejects (`AddInventoryItem.ValueErrorsComeFromJsonOrInt`). A null, list or object `qty` or `location_id` makes `int()` raise `TypeError`, which also gets the 500.
- Nothing at lines 43-50 checks `name` or `description`: they are stored as sent, and may be any JSON value.
- Nothing checks that `qty` is non-negative.
- `int()` of a JSON float truncates the binary value the float holds, not the decimal it prints as. For `1e23` that gives 99999999999999991611392.

## Model

| member | source | states |
|---|---|---|
| Python.IntOf | lambda/add_inventory_item/lambda_function.py:47-49 | `int(v)`: ValueError exactly for a string the integer parser rejects; TypeError exactly for null, list or dict; an int is itself; a parsed string is its parsed value |
| Python.DecimalOf | lambda/add_inventory_item/lambda_function.py:48 | `Decimal(str(v))`: succeeds exactly for an int, a float or a string the decimal parser accepts; every failure is InvalidOperation, never ValueError; an int `i` is exactly `i`·10^0, and a float is the decimal `str()` prints for it |
| Python.Truncate | lambda/add_inventory_item/lambda_function.py:47-49 | `int()` of a float is positive only for a positive binary value and negative only for a negative one |
| Python.TruncatesTowardZero | lambda/add_inventory_item/lambda_function.py:47-49 | `int()` of a float truncates the binary value it holds, whatever decimal it prints as. For a positive value the result is the largest integer not above it; for a negative value, the smallest integer not below it |
| Python.LargeFloatKeepsItsBinaryValue | lambda/add_inventory_item/lambda_function.py:47 | `int()` of the float read from `1e23` is 99999999999999991611392, the integer the float holds, not 10^23 |
| Python.Contains | lambda/add_inventory_item/lambda_function.py:24 | the empty string is `in` every str, and no string longer than `s` is `in` it |
| Python.ContainsAt | lambda/add_inventory_item/lambda_function.py:24 | `field in s` on a str holds when `field` occurs at some position of `s` |
| Python.ContainsWitness | lambda/add_inventory_item/lambda_function.py:24 | conversely, when `field in s` holds there is a position where `field` occurs |
| Python.ContainsIffOccurs | lambda/add_inventory_item/lambda_function.py:24 | `field in s` on a str holds exactly when `field` occurs at some index of `s` |
| Python.NatString | lambda/delete_inventory_item/lambda_function.py:76 | `str(n)` of a non-negative integer is a non-empty run of digits that denotes `n`, with no leading zero unless `n` is 0 |
| Python.IntString | lambda/get_location_inventory_items/lambda_function.py:83 | `str(n)` of an integer is non-empty and starts with a minus sign exactly when `n` is negative; the minus sign is followed by digits that denote `-n`, and a non-negative `n` prints as digits only, which denote `n` |
| Inventory.Table.GetItem | lambda/delete_inventory_item/lambda_function.py:61-68 | returns Some(record) when the key is stored and None when it is not; raises exactly when the service raises; changes nothing |
| Inventory.Table.PutItem | lambda/add_inventory_item/lambda_function.py:53 | stores the record under its own key, replacing any record there; a raising call changes nothing |
| Inventory.Table.DeleteItem | lambda/delete_inventory_item/lambda_function.py:81-86 | removes exactly that key; a raising call changes nothing |
| Inventory.EnumerationCountsRecords | lambda/get_all_inventory_items/lambda_function.py:40 | a listing that holds each record of the table once has exactly as many entries as the table has records |
| Inventory.AtLocation | lambda/get_location_inventory_items/lambda_function.py:54-60 | what the location-index query selects: exactly the records whose `location_id` is the queried one |
| Inventory.WithId | lambda/get_inventory_item/lambda_function.py:40-45 | what the query on `id` selects: exactly the records whose partition key is that `id`, at any location |
| Http.PathParameter | lambda/delete_inventory_item/lambda_function.py:15 | an absent path-parameter dictionary reads as empty; a None one raises AttributeError; otherwise the value under the name, if present |
| Http.QueryParameter | lambda/delete_inventory_item/lambda_function.py:18-19 | `(queryStringParameters or {}).get(name)`: the value exactly when the dictionary is given and holds the name |
| Http.Truthy | lambda/delete_inventory_item/lambda_function.py:21 | `not x` on a looked-up string is false exactly for a present, non-empty string, so both None and "" count as missing |
| Pagination.StopIndex | lambda/get_all_inventory_items/lambda_function.py:28 | the loop makes its last call at the first response that raises or has no `LastEvaluatedKey` |
| Pagination.CollectPages | lambda/get_all_inventory_items/lambda_function.py:24-30 | the pagination loop, also at lambda/get_location_inventory_items/lambda_function.py:62-74: the items of every page up to the stopping one, concatenated in order, or the exception of the call that raised |
| GetAllInventoryItems.LambdaHandler | lambda/get_all_inventory_items/lambda_function.py:18-57 | 200 with the concatenated items and `count` equal to their number, or 500 with the scan error; the same two headers; the table is not modified; when the pages list each record once, `count` is the number of records |
| GetAllInventoryItems.EmptyTableScan | lambda/get_all_inventory_items/lambda_function.py:24-41 | on an empty table, one empty page with no token lists its records once each, and the answer is 200 with count 0 and no items |
| GetLocationInventoryItems.Screen | lambda/get_location_inventory_items/lambda_function.py:24-51 | 500 exactly when the path-parameter dictionary is None; otherwise 400 unless the `id` path parameter is non-empty and parses as an integer, and then that integer is the location |
| GetLocationInventoryItems.LambdaHandler | lambda/get_location_inventory_items/lambda_function.py:18-102 | a rejected request issues no query; otherwise its answer is `Listing`: 500 with the query error, or 200 echoing the parsed location with all pages' items in order and their count; the table is not modified; against a faithful index every item is at that location and `count` is the number of records there |
| GetLocationInventoryItems.Listing | lambda/get_location_inventory_items/lambda_function.py:62-88 | the answer to an accepted location: 500 exactly when the stopping call raised; otherwise 200, echoing the location, with the items of every page up to the stopping one in order, and `count` equal to their number; the same two headers |
| GetLocationInventoryItems.EmptyListing | lambda/get_location_inventory_items/lambda_function.py:62-87 | one empty page without a token makes a 200 answer with count 0 and no items |
| GetLocationInventoryItems.EmptyLocation | lambda/get_location_inventory_items/lambda_function.py:62-87 | a location with no records in the table gives 200 with count 0 and no items, not an error; the empty answer lists those records once each |
| GetLocationInventoryItems.MissingLocationRejected | lambda/get_location_inventory_items/lambda_function.py:24-36 | a missing or empty location `id` is 400 "Missing location ID in path parameters" |
| GetLocationInventoryItems.UnparsableLocationRejected | lambda/get_location_inventory_items/lambda_function.py:39-51 | a location `id` the integer parser rejects is 400 "Location ID must be a valid integer" |
| GetInventoryItem.LambdaHandler | lambda/get_inventory_item/lambda_function.py:18-89 | exactly one of these: 400 for a missing or empty `id`; 404 for an empty first page; 200 with element 0 of the first page; 500 with the exception (a None path-parameter dictionary or a raising query) |
| GetInventoryItem.MissingIdIssuesNoQuery | lambda/get_inventory_item/lambda_function.py:25-37 | without a usable `id` the response does not depend on the query |
| GetInventoryItem.AnswersMatchTheTable | lambda/get_inventory_item/lambda_function.py:40-75 | against a faithful query: 404 exactly when no record of any location has that `id`; 200 returns a stored record with that `id` |
| AddInventoryItem.ParseBody | lambda/add_inventory_item/lambda_function.py:17-20 | a str body is what the JSON decoder returns or raises for it; a missing `body` key is `{}`; any other body, JSON null included, is taken as it is |
| AddInventoryItem.MalformedJsonIsClientError | lambda/add_inventory_item/lambda_function.py:17-19 | a str body that the decoder rejects with a ValueError stops with that exception before any field is read, and the answer is 400 |
| AddInventoryItem.NullBodyIsServerError | lambda/add_inventory_item/lambda_function.py:20-24 | a `body` of JSON null makes the `in` test raise TypeError, and the answer is 500, not the missing-fields 400 |
| AddInventoryItem.Holds | lambda/add_inventory_item/lambda_function.py:24 | `field in body`: for a list, some element is the string `field`; for a str, `field` occurs at some index |
| AddInventoryItem.Absent | lambda/add_inventory_item/lambda_function.py:24 | the names a body lacks: exactly the listed names not `in` it, in list order |
| AddInventoryItem.MissingFields | lambda/add_inventory_item/lambda_function.py:23-24 | `missing_fields` is exactly the required names not `in` the body, in the order of the list; TypeError exactly when the body supports no `in` |
| AddInventoryItem.MissingFieldsExactly | lambda/add_inventory_item/lambda_function.py:23-24 | any in-order list of the required names that holds exactly the absent ones is `missing_fields` |
| AddInventoryItem.SubsequenceFixedByMembers | lambda/add_inventory_item/lambda_function.py:24 | two in-order selections from a list of distinct names that hold the same names are equal, so the ensures of `MissingFields` fix its result |
| AddInventoryItem.NothingMissing | lambda/add_inventory_item/lambda_function.py:23-26 | a dict body lacks nothing exactly when it holds all five required fields |
| AddInventoryItem.NoBodyMissesEverything | lambda/add_inventory_item/lambda_function.py:20-24 | an event without a body misses all five fields, in order |
| AddInventoryItem.Subscript | lambda/add_inventory_item/lambda_function.py:45-49 | `body[key]` succeeds exactly on a dict that holds the key |
| AddInventoryItem.BuildItem | lambda/add_inventory_item/lambda_function.py:43-50 | a built record carries the minted id and comes from a dict body |
| AddInventoryItem.BuildFromCompleteBody | lambda/add_inventory_item/lambda_function.py:43-50 | from a complete dict body the conversions run in the order qty, price, location_id, and the first that raises decides the exception; otherwise the record is the minted id, `name` and `description` as sent, and the converted numbers |
| AddInventoryItem.Prepare | lambda/add_inventory_item/lambda_function.py:17-50 | a 400 list of missing fields is a non-empty in-order selection of the required names; a prepared record carries the minted id and is filed under (id, location_id) |
| AddInventoryItem.View | lambda/add_inventory_item/lambda_function.py:64-71 | the `item` of the 201 response repeats every stored field; its price is `NearestFloat(price)`, the model's unrounded stand-in for `float(price)`, from which the stored decimal reads back |
| AddInventoryItem.Failure | lambda/add_inventory_item/lambda_function.py:75-99 | a ValueError is 400 and any other exception 500, both carrying the exception |
| AddInventoryItem.LambdaHandler | lambda/add_inventory_item/lambda_function.py:11-99 | missing fields give 400 with their list, and a failed conversion gives 400 or 500; neither calls put. Success is 201: the table gains exactly (new id, location_id) mapped to the record, other keys unchanged, and the response `item` repeats the stored fields with the price as a float. Every non-201 leaves the table unchanged |
| AddInventoryItem.ExtraKeysIgnored | lambda/add_inventory_item/lambda_function.py:23-24 | keys other than the five required ones, a client `id` among them, do not change the missing-field list |
| AddInventoryItem.ExtraKeysLeaveRecordAlone | lambda/add_inventory_item/lambda_function.py:40-50 | two complete bodies that agree on the five required fields build the same record: extra keys and a client `id` are ignored |
| AddInventoryItem.ValueErrorsComeFromJsonOrInt | lambda/add_inventory_item/lambda_function.py:75-86 | a ValueError (the 400 branch) comes only from decoding a str body or from `int()` of an unparsable `qty` or `location_id` string |
| AddInventoryItem.BadPriceIsServerError | lambda/add_inventory_item/lambda_function.py:48 | when `qty` converts, an unparsable `price` string raises InvalidOperation, and the answer is 500 |
| AddInventoryItem.UnparsableQtyIsClientError | lambda/add_inventory_item/lambda_function.py:47 | an unparsable `qty` string (such as "abc") is 400 |
| DeleteInventoryItem.Screen | lambda/delete_inventory_item/lambda_function.py:15-58 | 500 exactly when the path-parameter dictionary is None; otherwise 400 unless `id` and `location_id` are non-empty and `location_id` parses, and then the key is (`id`, the parsed integer) |
| DeleteInventoryItem.Failure | lambda/delete_inventory_item/lambda_function.py:99-111 | every exception is 500 carrying the exception, with the same two headers |
| DeleteInventoryItem.LambdaHandler | lambda/delete_inventory_item/lambda_function.py:9-111 | a rejected request touches no table. An absent key is 404 with the table as before; a raising get or delete is 500 with the table as before. Otherwise 200, and the table loses exactly that key, which was present; every other record is unchanged. Every response carries the two headers |
| DeleteInventoryItem.IdCheckedFirst | lambda/delete_inventory_item/lambda_function.py:15-31 | a request without a usable `id` gets "Missing item ID…" whatever its query string holds |
| DeleteInventoryItem.MissingLocationRejected | lambda/delete_inventory_item/lambda_function.py:18-43 | with a usable `id`, a missing or empty `location_id` is 400 "Missing location_id…"; an absent or None query-string dictionary counts as empty |
| DeleteInventoryItem.UnparsableLocationRejected | lambda/delete_inventory_item/lambda_function.py:45-58 | a `location_id` the integer parser rejects is 400 "location_id must be a valid integer" |
| Scenarios.DeleteRequest | lambda/delete_inventory_item/lambda_function.py:15-19 | a request whose `id` and `location_id` read back as the given values |
| Scenarios.AddThenDelete | lambda/delete_inventory_item/lambda_function.py:60-97 | creating a record under a fresh key and then deleting it answers 201 then 200 and leaves the table as it was |
| Scenarios.DeleteTwice | lambda/delete_inventory_item/lambda_function.py:60-78 | the second of two identical deletes is 404, and the record is gone |

## Left out

- The DynamoDB client and service. The table is an in-memory map. Query and scan responses are inputs (`seq<Outcome<Page>>`), and the model does not derive them from the map. The lemmas about what the pages mean take a faithful service as a hypothesis. For the list handlers, the pages list the selected records once each (`Enumerates`). For the single-item handler, the first page holds only stored records with the requested `id`, and is empty only when no record has that `id` (`FirstPageOf`).
- Pagination.CollectPages: it requires that some response raises or has no `LastEvaluatedKey`. The source loops for as long as the service keeps returning a token.
- Concurrency. The model is sequential, so the race between the existence check and the delete is not modelled.
- JSON text. `json.dumps` and the `DecimalEncoder` are not modelled, and a response body is a structured payload.
- The JSON decoder. `json.loads` is a given decoder that may raise an exception of any class. Its `JSONDecodeError` is a `ValueError` and gets the 400 at lines 75-86 of the create handler. Any other exception it raises, such as a `RecursionError` on deeply nested input, reaches the 500 at line 87.
- The rounding between a JSON float's two faces. `JFloat` carries the decimal `str()` prints and the binary value the float holds as two independent values. The model does not derive one from the other by shortest round-trip printing or by rounding to 53 bits.
- Float rendering. A price converted to a float is kept as the exact decimal it came from (`NearestFloat`), with no binary rounding.
- AddInventoryItem.View: its read-back of the stored price holds only for the unrounded `NearestFloat`. In the code, `float(price)` at line 69 rounds to 53 bits, so two prices such as 19.99 and 19.990000000000000001 show the same response price.
- Message texts of errors raised by the service. They are opaque values; only the model's own exceptions carry their Python texts.
- Quoting inside f-string messages. Messages are the formatted strings with `str(int)` written out, and nothing more.
- Id generation. `uuid.uuid4()` is a parameter of the create handler, and nothing is assumed about its uniqueness.
- The `print` logging in every 500 branch.
- The unused `context` argument.
- Non-finite floats and special decimals (NaN, Infinity) from `json.loads` and `Decimal`.
- The grammars that `int(s)` and `Decimal(s)` accept. They are the given parsers; Scenarios.AddThenDelete requires that the integer parser reads `str(n)` back as `n`.
- Event shapes the gateway never produces: a parameter dictionary that is neither absent, None nor a string-to-string dict.
- The client library refusing some attribute values, such as a float inside `name`. This is part of the put call's possible failure.
