# Housing availability check, modelled in Dafny

The script `main.py` of sit-script asks a GraphQL housing search for rental
objects, prints whether any were returned, prints one line per unit that is
flagged available, and posts a fixed message to a Discord webhook when the
search returned anything. This project models the part of it that decides
what is printed and posted, and proves what it does:

- `PyJson` — the value `response.json()` returns (null, booleans, numbers,
  strings, lists, dicts), Python's truth value of it, and `x["key"]` with its
  `KeyError` and `TypeError`.
- `Schema` — the rental unit the query asks for (`rentalObjectId`,
  `isAvailable`, `availableFrom`, `availableTo`, `hasActiveReservation`),
  when a JSON object describes one, and the positions of the available units.
- `Output` — printed lines; a detail line keeps the three values it shows.
- `Availability` — `check_availability` (a function) and
  `print_availability_details` (a method with a loop, proved against the
  function `AvailabilityDetails`), plus their properties.
- `Notifier` — `send_notification`: the message body and the line printed
  when the webhook answers with an HTTP error.
- `Orchestrator` — the `__main__` branch after the query (method `Run`, proved
  against the function `RunOf`) and its properties.
- `Scenarios` — whole runs on concrete responses.

An exception that the script does not catch ends the run: the model keeps the
lines printed before it and the exception (`crash`), and nothing after it
happens. The rule the code really applies is kept as written: the status is
`HOUSING_RENTAL_OBJECTS_AVAILABLE` as soon as the list is non-empty, even if
no unit in it is flagged available, and the notification is then sent too.

The code does not turn a response without `data.housings.housingRentalObjects`
into a handled error: it raises `KeyError` (a missing key) or `TypeError` (for
example `"data": null`) out of `check_availability`, which ends the run before
anything is printed.

## Model

| member | source | states |
|---|---|---|
| `PyJson.Truthy` | main.py:26 | definition of Python's `if x:` on a decoded value (also used at main.py:34, 37 and 120); its consequences are proved in `Availability.StatusOfListedObjects`, `Orchestrator.NoDataNoEffect` and `Scenarios.EmptyBody` |
| `PyJson.Subscript` | main.py:37-40 | definition of `x["key"]`: the value, `KeyError` for a dict without the key, `TypeError` otherwise (also used at main.py:26 and 33); its consequences are proved in `Scenarios.ErrorBodyWithoutData`, `Scenarios.NullData` and `Scenarios.MissingFlagMidList` |
| `Availability.RentalObjects` | main.py:33 | definition of the lookup chain `response_data["data"]["housings"]["housingRentalObjects"]` (the same chain as main.py:26); its properties are proved in `Availability.CheckAvailability` and `Orchestrator.MalformedResponseStopsRun` |
| `Availability.FormatDetail` | main.py:38-40 | definition of the detail line's three lookups, the first missing key raising; its properties are proved in `Availability.DetailOfDescribed` |
| `Availability.DetailOf` | main.py:37-40 | definition of one loop iteration: the flag lookup, then a line only when the flag is truthy; its properties are proved in `Availability.DetailOfDescribed` and `Availability.DetailLinesOfUnits` |
| `Availability.AvailabilityDetails` | main.py:32-42 | definition of `print_availability_details` as a function; its properties are proved in `Availability.PrintAvailabilityDetails`, `Availability.DetailsOfListedUnits` and `Availability.DetailsAgreeWithStatus` |
| `Orchestrator.RunOf` | main.py:117-127 | definition of the `__main__` branch as a function; its properties are proved in `Orchestrator.Run`, `Orchestrator.AtMostOneNotification`, `Orchestrator.OutputOrder` and `Orchestrator.RunOfListedUnits` |
| `Availability.CheckAvailability` | main.py:25-29 | fails exactly when the path `data.housings.housingRentalObjects` cannot be read, with that lookup's exception; otherwise one of the two status strings |
| `Availability.StatusOfListedObjects` | main.py:26-29 | for a response listing `js`, the status is AVAILABLE iff `js` is non-empty and NONE iff it is empty, whatever the units' flags |
| `Availability.DetailLines` | main.py:36-40 | the loop prints at most one line per element, and every line it prints is a detail line |
| `Availability.CrashIsFinal` | main.py:36-40 | once an element has raised, further elements change nothing |
| `Availability.PrintAvailabilityDetails` | main.py:32-42 | the loop-based method prints exactly what `AvailabilityDetails` describes: the lookup's exception, the fixed line for a falsy list, or the header followed by the loop's lines (a `TypeError` after the header for a truthy non-list) |
| `Availability.DetailOfDescribed` | main.py:37-40 | a well-formed unit yields its detail line exactly when its flag is set |
| `Availability.DetailLinesOfUnits` | main.py:36-40 | for well-formed units the loop never raises, prints one line per available unit, and its k-th line carries the id and timestamps of the k-th available unit in input order |
| `Availability.DetailsOfListedUnits` | main.py:33-42 | an empty list prints exactly the fixed line; a non-empty one prints the header, then exactly one line per available unit in order, and nothing else |
| `Availability.AllUnavailableOnlyHeader` | main.py:26-37 | a non-empty list of unavailable units gives status AVAILABLE and prints only the header |
| `Availability.DetailsAgreeWithStatus` | main.py:25-42 | on every response the header is printed iff the status is AVAILABLE, the fixed line iff it is NONE, and both raise the same exception otherwise |
| `Schema.Encode` | main.py:71-77 | the object built from a unit's five queried fields describes that unit |
| `Schema.AvailableIndices` | main.py:36-37 | the positions it lists are increasing, all available, and include every available position |
| `Schema.NoneAvailable` | main.py:37 | with every flag clear there is no available position |
| `Notifier.SendNotification` | main.py:45-55 | the posted body has the given text as content and "Housing Bot" as username; a line is printed iff the webhook rejected it |
| `Orchestrator.Run` | main.py:117-127 | the step-by-step branch does exactly what `RunOf` describes |
| `Orchestrator.NoDataNoEffect` | main.py:117-120 | when the query returned `None` or a falsy value, nothing is printed, posted or raised |
| `Orchestrator.MalformedResponseStopsRun` | main.py:120-121 | data without the rental object list raises before anything is printed or posted |
| `Orchestrator.AtMostOneNotification` | main.py:125-127 | at most one message is posted; it is posted iff the status is AVAILABLE and the details printed without raising; it is "New housing rental objects are available." from "Housing Bot" |
| `Orchestrator.OutputOrder` | main.py:121-127 | the status line comes first, the detail lines next, and only a rejected notification adds a line after them |
| `Orchestrator.RunOfListedUnits` | main.py:117-127 | for a well-formed response the whole run: status by emptiness, the fixed line or the header plus one line per available unit in order, and one notification iff the list is non-empty |
| `Orchestrator.UnavailableUnitsStillNotify` | main.py:120-127 | a non-empty list of only unavailable units prints the AVAILABLE status and the header, no detail line, and still posts the notification |
| `Scenarios.SingleUnitDetails` | main.py:32-40 | a list of one available unit prints the header and that unit's detail line |
| `Scenarios.OneAvailableUnit` | main.py:117-127 | unit A1, available from 2024-01-01 to 2024-02-01: status, header, its line, one notification |
| `Scenarios.EmptyList` | main.py:117-127 | an empty list: NONE status, the fixed line, no notification |
| `Scenarios.OneUnavailableUnit` | main.py:117-127 | one unavailable unit: AVAILABLE status, header only, notification posted |
| `Scenarios.RejectedNotification` | main.py:51-55 | a webhook HTTP error is printed after the details and the run ends normally |
| `Scenarios.ErrorBodyWithoutData` | main.py:26 | a body with only `errors` raises `KeyError("data")` before any output |
| `Scenarios.NullData` | main.py:26 | `{"data": null}` raises `TypeError` before any output |
| `Scenarios.EmptyBody` | main.py:120 | the falsy body `{}` makes the run do nothing |
| `Scenarios.MissingFlagMidList` | main.py:36-38 | a unit without `isAvailable` after an available one: that one's line is printed, then `KeyError` ends the run and nothing is posted |

## Left out

- `query_graphql` (main.py:10-22): the HTTP request, `raise_for_status`, JSON decoding and the four `except` branches are taken as their result only, `Option<Json>`: `None` after any caught exception, otherwise the decoded body. The error lines those branches print are not modelled.
- `get_api_url` and the webhook URL lookup (main.py:6-7, main.py:46): environment reads; the model needs neither value.
- The headers and the GraphQL query and variables (main.py:61-114): fixed constants with no decision in them.
- `send_notification` (main.py:52-55): the POST itself is abstracted to the webhook's answer (`Accepted`, or `Rejected` for an HTTP error). Other exceptions of `requests.post`, which the script does not catch, are not modelled.
- The text of a detail line: the model keeps the three interpolated values, not Python's rendering of them (`None` printed as `None`), and keeps the text of a caught webhook error as a given string.
- The traceback Python prints when an exception ends the run; the model records only the exception.
- JSON numbers are integers in the model: a fractional value read by a truth test stands for an integer with the same truth value, and a fractional value shown in a detail line (`rentalObjectId`, `availableFrom` or `availableTo`) cannot be represented.
- Iterating a truthy value that is not a list (a string, dict, number or `true`) is modelled in `AvailabilityDetails` as the header followed by `TypeError`, without modelling how Python iterates it, since every way of iterating it ends in that exception at its first element.
