# Telphin call analyzer: response interpretation and call selection

A Dafny model of the decision logic of the call analyzer's Telphin client and
of its call-selection diagnostics. The client authenticates against the
Telphin telephony API, fetches the call records of a recent window, and (in
the diagnostic script) sorts those calls into incoming calls, calls with a
positive duration and incoming calls that have an audio recording.

Modules:

- `Wrappers` (wrappers.dfy): the `Option` returned wherever Python returns `None` or a value.
- `JsonValues` (json_values.dfy): decoded JSON (`None`, `bool`, `int`, `str`, `list`, `dict`),
  Python truthiness and `len()`, and `Response`, the outcome of one HTTP exchange
  (a decoded body, or a transport, HTTP status or decoding failure).
- `Sublists` (sublists.dfy): order-preserving filtering (`[x for x in s if p(x)]`), the
  sublist relation, and the lemmas about them (concatenation, order, multiplicities,
  composition, congruence).
- `TelfinApi` (telfin_api.dfy): main.py — token extraction, call-list unwrapping
  from its three envelope shapes, and the early exits of the test driver `main`.
- `CallFiltering` (call_filtering.dfy): debug_filtering.py — the recording check on a
  detail record (CDR), the classification loop and the `current_filtered` comprehension.

Every network exchange is an input: the OAuth answer and the calls answer are
`Response` values, and the detail-record lookup `get_call_cdr` is a function
`string -> CdrLookup` from call identifier to a found record, no record, or an
exception. `get_call_cdr` (and `MOSCOW_TZ`) are imported by debug_filtering.py
from main.py but are not defined in main.py as it stands; their definitions are
not part of this model.

Two details of the code that the model keeps:

- `get_recent_calls` prints `len(calls_list)` before returning the value under
  `calls` or `results`. When that value has no length (a number, a boolean,
  `null`) the `print` raises `TypeError`, which the generic handler turns into
  `None`. So the unwrapped value is any JSON value that has a length, not
  necessarily a list (`Counted`, `GetRecentCalls`).
- `main` prints the first three calls with `calls[:3]` and `call.get(...)`. A
  non-empty dict cannot be sliced, and characters or non-dict list elements have
  no `.get`. In those cases the exception escapes `main`; the model's `Crashed`
  stage stands for it (`Report`).

## Model

| member | source | states |
|---|---|---|
| `TelfinApi.AuthenticateTelfin` | main.py:31-50 | the token is returned iff the decoded answer is a dict whose `access_token` is present and truthy, and it is that value; a non-dict answer, a missing or falsy token, and every request, status or decoding failure give `None` |
| `TelfinApi.GetRecentCalls` | main.py:82-109 | a failed exchange gives `None`; a returned value always has a length and is the value under `calls`, or the bare list itself, or (with no `calls` key) the value under `results`; `None` is returned exactly for failures, scalar answers, unsized envelope values, and dicts with neither key |
| `TelfinApi.UnwrapWrapped` | main.py:88-98 | round trip: a call list sent as `{"calls": …}`, as a bare list, or as `{"results": …}` without a `calls` key is returned unchanged, whatever other keys the dict holds |
| `TelfinApi.CallsKeyWins` | main.py:88-98 | with both keys present the answer is decided by the value under `calls` alone (returned if it has a length, else `None`), and changing the value under `results` changes nothing |
| `TelfinApi.NullCallsDoNotFallBack` | main.py:88-109 | `{"calls": null, "results": [1]}` gives `None`: `len(None)` raises and the handler returns `None` without consulting `results` |
| `TelfinApi.UnrecognisedShapeRejected` | main.py:99-102 | a dict with neither key, or an answer that is neither a dict nor a list, gives `None` |
| `TelfinApi.Report` | main.py:169-185 | the run completes iff the call list is empty or is a list whose first three entries are dicts; then `total` is `len(calls)`, at most three calls are shown and they are the list's first ones, in order |
| `TelfinApi.Main` | main.py:139-185 | `main` stops for missing credentials iff one of hostname, login, password is unset or empty; for authentication iff credentials are present and no token is obtained; for the call list iff a token is obtained and the list is `None`; otherwise it reports the obtained list, showing at most three calls |
| `TelfinApi.NoRequestsWithoutCredentials` | main.py:150-156 | without all three credentials neither the OAuth answer nor the calls answer affects the outcome |
| `TelfinApi.NoCallFetchWithoutToken` | main.py:156-163 | without a token the calls answer does not affect the outcome |
| `CallFiltering.HasRecording` | debug_filtering.py:18-27 | `(True, size)` iff the lookup finds a record with a positive `record_file_size`, and `size` is that value; `(False, 0)` for no record, a missing or non-positive size, or an exception in the lookup |
| `CallFiltering.ClassifyCalls` | debug_filtering.py:65-84 | the loop leaves `incoming_calls`, `calls_with_duration` and `calls_with_recordings` equal to the input filtered by, respectively, flow `in` (missing flow is `''`), a positive `duration` or `bridged_duration` (missing is 0), and a non-empty identifier with flow `in` whose recording check returned True |
| `CallFiltering.ClassificationExact` | debug_filtering.py:69-88 | each of the three loop lists and `current_filtered` preserves input order and holds every occurrence of each qualifying call and no other call |
| `CallFiltering.CurrentFilterIsIntersection` | debug_filtering.py:86-88 | `current_filtered` equals `incoming_calls` filtered by duration and `calls_with_duration` filtered by direction, is an ordered sublist of both and is no longer than either |
| `CallFiltering.RecordingsAreIncoming` | debug_filtering.py:75-84 | `calls_with_recordings` is `incoming_calls` filtered by the recording check, hence an ordered sublist of it and no longer |
| `CallFiltering.LookupOnlyForCheckedCalls` | debug_filtering.py:81-84 | the detail-record lookup matters only for incoming calls with a non-empty identifier: lookups that agree on those give the same `calls_with_recordings` |

## Left out

- All HTTP traffic (the OAuth POST, the calls GET, the detail-record lookup): each is an input value, a `Response` or a `CdrService`.
- The request window of `get_recent_calls` (main.py:64-80): it reads the wall clock and formats dates; the hard-coded 7-day lookback and page size 100 are not modelled.
- Environment and `.env` loading, and every `print`; `main` takes the three settings as optional strings.
- The placeholder functions `download_recording`, `transcribe_with_yandex`, `analyze_with_gpt`, `send_telegram_report` (main.py:111-137): they have no body.
- The outer driver of `debug_call_filtering` (debug_filtering.py:29-63, 90-121): its credential and token checks repeat those of `main`, the per-window loop sets an environment variable that `get_recent_calls` never reads, and the rest prints.
- `CallFiltering.Call`: the fields are typed (`flow` a string, durations integers), so the `TypeError` raised by comparing a non-numeric `duration` or `bridged_duration` with 0, which would escape the loop, is not modelled; a `null` field is treated like a missing one.
- `CallFiltering.ClassifyCalls`: the detail-record lookup is a function of the call identifier, so within one run every lookup of the same identifier is assumed to give the same answer (found record, no record, or exception); in the code each `has_recording` call is a fresh request, and a transient exception affects only that one lookup. For inputs with a repeated identifier, `ClassifyCalls`, `ClassificationExact` and `WithRecordings` therefore do not capture lookups that answer differently.
- `CallFiltering.HasRecording`: `record_file_size` is an integer, so a non-numeric size (whose comparison raises and is caught, giving `(False, 0)`) is not modelled.
- JSON numbers are integers: floating-point values are not modelled.
- analyzer.py, app.py and clear_processed_calls.py are not part of this model: they only perform I/O.
