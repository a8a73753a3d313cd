# Train live-activity relay: session registry model

The relay keeps an in-memory table of active train "live activities". The table maps a
device's push token to the last train-state record stored for it. Two endpoints change
the table:

- `update-train-activity` converts the record's three millisecond timestamps to
  seconds, stores the record under its token and pushes an "update" event to the
  push gateway.
- `end-train-activity` removes the token, if it is there, and pushes an "end" event
  that carries the record as received.

A periodic task pushes every stored record again with a shared timestamp. A health
endpoint reports how many tokens are registered.

The model has three modules:

- `TrainState` (TrainState.dfy) holds the request record, its dictionary form
  (`Record`, a `map<string, Value>`), and the timestamp-conversion loop with the
  functions that specify it.
- `Apns` (Apns.dfy) holds the `{aps: {timestamp, event, content-state}}` envelope
  and the mapping from a gateway outcome to what the caller receives.
- `Registry` (Registry.dfy) holds the class `Server`. Its field `activities` is the
  table. A ghost `history` of requests is tied to it by `Valid()`: the table is
  `Replay(history)`. `Replay` is the reference definition of the table from the
  requests alone. The module also holds the update, end, health and broadcast
  operations.

Things outside the model are parameters:

- the current time `now`, in seconds;
- the health report's time string;
- the push itself, as an outcome oracle `send: (string, Payload) -> ApnsOutcome`.

There is no registration step: an update of an unknown token is a plain upsert. The
broadcast pushes every entry in the table.

Every push failure reaches the caller as status 500. A non-200 gateway status raises an
HTTP error inside `send_push_notification`. That error is then caught by the same
function's generic handler and re-raised as 500. Each endpoint's own handler wraps it
as 500 again. `SendResult` states exactly this.

## Model

| member | source | states |
|---|---|---|
| `TrainState.AsDict` | server.py:23-37 | the dictionary of a request has exactly the fourteen declared fields, the push token among them |
| `TrainState.ContentState` | server.py:127 | the content state is that dictionary without `push_token`, every other field copied unchanged |
| `TrainState.FloorSeconds` | server.py:130 | `ms // 1000` is the unique `s` with `1000*s <= ms < 1000*s + 1000`, i.e. floor division, also for negative values |
| `TrainState.Truthy` | server.py:129 | a value is falsy exactly when it is 0, the empty string or False, as in Python |
| `TrainState.NormaliseValue` | server.py:129-130 | an integer timestamp that is non-zero is floor-divided by 1000; zero (falsy) is left at 0 |
| `TrainState.Normalised` | server.py:128-130 | closed form of the conversion loop: same keys, every non-timestamp key copied; `NormaliseTimestamps` proves the loop computes it |
| `TrainState.NormaliseTimestamps` | server.py:127-130 | the key loop keeps the key set, copies every non-timestamp key, leaves a zero timestamp at 0 and floor-divides every non-zero one |
| `TrainState.StoredRecord` | server.py:127-132 | the stored record has the thirteen content-state keys and no push token |
| `TrainState.StoredRecordFields` | server.py:127-132 | field by field, the stored record holds the three timestamps in seconds and copies every other field |
| `TrainState.FloorSecondsFixedPoints` | server.py:128-130 | conversion leaves a timestamp unchanged exactly when it is 0 or -1 |
| `TrainState.StoredEqualsRawIff` | server.py:127-130 | the stored (converted) record equals the raw content state if and only if all three timestamps are 0 or -1 |
| `Apns.SendResult` | server.py:84-98 | a push succeeds if and only if the gateway answered 200; every other outcome is reported as status 500 |
| `Apns.UpdatePayload` | server.py:134-140 | the "update" envelope around a record stamped with `now` (the broadcast builds the same one at server.py:108-114); its meaning against the end envelope is `UpdateAndEndPayloads` |
| `Apns.EndPayload` | server.py:155-161 | the "end" envelope around the raw content state, without the push token, stamped with `now`; compared with the update envelope in `UpdateAndEndPayloads` |
| `Apns.UpdateAndEndPayloads` | server.py:134-161 | update envelopes say "update" and carry the converted record; end envelopes say "end" and carry the raw one; both carry `now` and no push token, and they agree on all but the timestamps |
| `Registry.Apply` | server.py:132-153 | an update adds or overwrites its token with the converted record, an end removes its token if present, every other entry is kept; `ApplyAt` and `ReplayLastWriteWins` build on it |
| `Registry.LastRequestFor` | server.py:132-153 | finds the last request in a history that names a token, or reports that none does |
| `Registry.ApplyAt` | server.py:132-153 | one update puts its token in the table with the converted record; one end takes its token out; no other token changes |
| `Registry.ReplayLastWriteWins` | server.py:127-153 | a token is in the table if and only if its last request was an update, and it then holds that update's converted record |
| `Registry.ReplayCountsLiveTokens` | server.py:173 | the table's keys are exactly the tokens whose last request was an update, so its size is their number |
| `Registry.Server.constructor` | server.py:21 | the relay starts with an empty table and an empty history |
| `Registry.Server.UpdateTrainActivity` | server.py:127-146 | upserts the converted record under the token before pushing, so it stays stored when the push fails; no other entry changes; the pushed envelope is the update envelope of that record and the answer is the push result |
| `Registry.Server.EndTrainActivity` | server.py:152-166 | removes the token if present and leaves the table unchanged if absent; no other entry changes; pushes the end envelope of the raw record and answers the push result |
| `Registry.Server.HealthCheck` | server.py:169-174 | reports "healthy", the given time, and a count equal to the table's size and to the number of live tokens |
| `Registry.Server.BroadcastCycle` | server.py:104-117 | exactly one attempt per registered token and no other; every payload is an update envelope with the same `now` around that token's stored record; every attempt is made whatever the earlier ones returned |
| `Registry.EndThenBroadcast` | server.py:104-153 | after ending a token, the next broadcast makes no attempt on it and still makes one on every other registered token |

## Left out

- JWT (ES256) creation and the `APNS_AUTH_KEY` lookup (server.py:39-56) are foreign cryptography and process environment. A missing key gives status 500 like a transport error, so it is included in `RequestFailed`.
- The HTTPS POST to the gateway, its headers, URL and 30-second timeout (server.py:58-98) are network I/O. Only the outcome is modelled, as `ApnsOutcome`.
- The web framework's routing, request validation (a malformed body is rejected before the handler runs), exception-detail strings and all `print` logging are left out. Because validation makes the three timestamp fields integers, the conversion is defined only on integer values; the `TypeError` Python would raise on a truthy string there cannot occur.
- The repeating 10-second sleep, the startup task and the server process (server.py:119, 176-183) are timing and process wiring. Only one broadcast pass is modelled.
- Interleaving of request handlers with the broadcast loop is left out because it is concurrency. In the code, a handler that adds or removes a token while the loop waits on a push changes the dictionary during iteration. Python then raises outside the per-entry `try` and the periodic task stops.
- `time.time()` and `datetime.now().isoformat()` are inputs instead: `now` and the health time string.
- Registry.Server.BroadcastCycle: visits the tokens in an unspecified order. Python visits a dictionary in insertion order. The table is a `map`, which has no order.
