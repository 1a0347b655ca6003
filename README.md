# Alice AI key service — a Dafny model

The service is a small authenticated proxy. It keeps one collection of API
keys. Each document holds `key`, `name`, `created_at`, `expires_at`, `active`
and `usage`, with a unique index on `key`. An admin, talking to a Telegram
bot, issues, reworks, inspects and deletes keys. The public `/ai` endpoint
takes an `apikey` and a `prompt`. It checks the key, deactivates an expired
key the first time it is presented after expiry, forwards the prompt to an
upstream completion service and, once that call returns, adds one to the
key's `usage`.

The model has three modules:

- `KeyStore` (`key_store.dfy`) holds the key record, the collection as a map
  from key to record, and the unique-index invariant `WellKeyed`. It also
  states every write the service makes as a function from the old table to
  the new one: insert, revoke by name, deactivate one key, increment usage
  and delete by key or name.
- `Access` (`access.dfy`) states the `/ai` flow as a function `Respond` from
  the table and one request to the response and the new table. Its
  authorisation part is `Check`. `RespondAll` runs a sequence of requests.
  The lemmas here cover metering over any run, lazy expiry, and what revoke,
  rework and delete do to later requests.
- `Api` (`api.dfy`) is the service as a class `KeyService` whose field
  `table` is the collection. Its methods follow `api/index.py` step by step:
  the store calls, `create_key` with its retry, `revoke_by_name`, the `/ai`
  handler and the `/usage`, `/rework` and `/delkey` commands. Each method is
  specified by the functions of the other two modules.

Time is an integer `now`, in microseconds, because the UTC clock the code
reads has microsecond resolution. A day is `86_400_000_000` microseconds. The
store keeps dates as whole milliseconds: inserting a document drops the
sub-millisecond part of `created_at` and `expires_at`, rounding down
(`Stored`). `create_key` returns the document it built, while the table holds
the floored copy, and the expiry check reads the floored `expires_at`. The upstream call
is an `Upstream` outcome carried by the request: `Replied(reply, latency)` or
`Failed`. The handler reports, in `contacted`, whether it made that call.
Token generation is a supplied sequence of `Draw`s. Each draw is a token
together with the clock reading of its attempt, because each retry of
`create_key` reads the clock again. The recursive retry becomes a loop over
the draws. The admin check `is_admin` is `KeyService.IsAdmin`, and every admin
command does nothing when it fails.

The model keeps these details of the code's behaviour, which are easy to misread:

- A key is still accepted at the instant its stored expiry is reached. The
  code rejects only when `expires_at < now`, so a key is usable while
  `now <= expires_at`, not only while `now < expires_at`. Because the stored
  expiry is floored to the millisecond, it can be up to a millisecond earlier
  than the expiry of the document `create_key` returns.
- `create_key` retries without a bound and has no "exhausted" error. In the model, `None` from `CreateKey` only means
  that the supplied draws ran out.
- `revoke_by_name` returns the update's `modified_count`. That counts the
  records of the name that were still active, not every record of the name.
- A failing upstream call is an exception that escapes the handler, so the
  request ends as a 500 (`ServerError`) with no usage change.

## Model

| member | source | states |
|---|---|---|
| `KeyStore.NewRecord` | api/index.py:52-59 | the built document has the given key and name, is active, has usage 0, is created now and expires `days` later; once stored, its lifetime is still exactly `days` and its creation time lies less than a millisecond before now |
| `KeyStore.FloorMillisShift` | api/index.py:61 | storing a timestamp shifted by whole milliseconds shifts the stored value by the same amount, so flooring keeps a lifetime of whole days intact |
| `KeyStore.Inserted` | api/index.py:33 | inserting under a free key adds exactly that record, leaves every existing record unchanged, keeps keys unique, and no other record carries the new key |
| `KeyStore.Revoked` | api/index.py:66-70 | every record with the name becomes inactive, all other records are identical, no field other than `active` changes, no record becomes active, key uniqueness is kept |
| `KeyStore.RevokeCountsChanges` | api/index.py:67-70 | the count returned (records of the name that were active) equals the number of records the bulk update actually changed |
| `KeyStore.Deactivated` | api/index.py:111 | the lazy-expiry write turns off `active` on that key's record only and changes nothing else |
| `KeyStore.Incremented` | api/index.py:115 | the metering write raises that key's usage by exactly one and changes no other field or record |
| `KeyStore.Deleted` | api/index.py:222 | a record survives the delete exactly when neither its key nor its name equals the token; survivors are unchanged |
| `Access.Check` | api/index.py:100-112 | missing iff a parameter is absent or empty; admitted iff both are given and the key's record is active and not expired (`expires_at < now` is expired, equality is not); expired iff the record is active and past expiry |
| `Access.Respond` | api/index.py:99-121 | a 200 answer iff the key is admitted and upstream replied; usage rises by one for that key only on an answer and is otherwise untouched; only `active` and `usage` can change and `active` never returns to true; a missing or invalid request leaves the table unchanged with 400/401; an expired one returns 401 "API key expired" and only deactivates that key; an upstream failure of an admitted request is a 500 and changes nothing; an answer carries "Alice AI" with the upstream reply and latency, and its only effect is the usage increment of that key |
| `Access.RespondAll` | api/index.py:106-115 | over any sequence of requests the key set, names, creation and expiry times stay fixed, usage never decreases, no key is reactivated and key uniqueness is kept |
| `Access.UsageCountsAnswers` | api/index.py:114-115 | after any sequence of requests a key's usage equals its starting usage plus the number of its requests that were answered |
| `Access.ExpiryIsLazyAndFinal` | api/index.py:106-112 | an expired active key is refused as expired and its only effect is deactivation; presenting it again is refused as invalid with no further change |
| `Access.RevokedKeysAreInvalid` | api/index.py:66-70 | after revoking a name, every key of that name is refused as invalid |
| `Access.ReworkRetiresOldKeys` | api/index.py:207-209 | after a rework every old key of the name is refused as invalid, and the new key, as stored, is admitted until 30 days after its millisecond-floored creation time, with usage 0 |
| `Access.StoredExpiryPrecedesReturnedExpiry` | api/index.py:110 | a key created at a reading with a sub-millisecond part is refused as expired exactly `days` after that reading, although the returned document's expiry has not passed |
| `Access.DeletedKeysAreInvalid` | api/index.py:222 | after a delete, every key whose record matched the token by key or by name is refused as invalid |
| `Api.KeyService.IsAdmin` | api/index.py:44-45 | the admin check passes exactly for the configured admin id |
| `Api.KeyService.InsertOne` | api/index.py:60-62 | insert succeeds iff the key is not yet present; on success exactly the new record, with its timestamps floored to the millisecond, is added; on failure the table is unchanged |
| `Api.KeyService.CreateKey` | api/index.py:50-64 | the returned record has the given name, is active, has usage 0 and expires `days` after creation; it uses the first draw whose token is free; the table gains exactly that record, as stored with millisecond timestamps, and keeps unique keys; if every draw collides the table is unchanged |
| `Api.KeyService.RevokeByName` | api/index.py:66-70 | the new table is the bulk revocation of the name, and the returned count is the number of records it changed |
| `Api.KeyService.FindActive` | api/index.py:106 | finds a record iff one with that key exists and is active, and returns that record |
| `Api.KeyService.DeactivateKey` | api/index.py:110-111 | applies the lazy-expiry write to the table |
| `Api.KeyService.IncrementUsage` | api/index.py:115 | applies the metering write to the table |
| `Api.KeyService.HandleAi` | api/index.py:99-121 | response and new table are those of `Respond`; the upstream is contacted iff the key is admitted, so missing, invalid and expired requests never reach it; without contact no usage changes |
| `Api.KeyService.Usage` | api/index.py:184-201 | non-admins get nothing; a record whose key is the token wins; otherwise a record whose name is the token is found; "not found" iff no record has that key or name |
| `Api.KeyService.Rework` | api/index.py:203-209 | for the admin, every old record of the name ends up inactive and one new active record of that name with usage 0 and a 30-day lifetime is added, from the first draw whose token is free; no record is added only when every draw collides; non-admins change nothing |
| `Api.KeyService.DeleteKey` | api/index.py:217-222 | for the admin the table becomes the delete-by-key-or-name of the token; non-admins change nothing |

## Left out

- Flask routing, JSON encoding of responses and the `/telegram` webhook: HTTP plumbing. A response is a `Response` value.
- Telegram messaging, Markdown formatting and the splitting of command text, including the `IndexError` that `/rework` and `/delkey` raise without an argument: user interface and I/O. The commands take their arguments already split.
- The `/start`, `/help`, `/genkey` and `/test` commands and the chat passthrough. They format text, or they call operations that are modelled here (`create_key`, `call_ai`) without touching the collection in any other way.
- The `/list` command: it reads every document with `find({})` and formats them as text. That read of the whole collection is not modelled, because it changes nothing and its output is only display text.
- The HTTP request inside `call_ai`: a network call to a foreign service. It is the `Upstream` outcome of a request. The latency is wall-clock floating-point time rounded to two places, and the model takes it as a given natural number.
- `secrets.token_urlsafe`: a randomness source. It is the supplied sequence of draws, and unpredictability is not modelled.
- Api.KeyService.CreateKey: the code keeps drawing tokens until an insert succeeds. The model's supply of draws is finite, so it can return `None` when every draw collides. The code has no such outcome.
- The MongoDB connection, the indexes on `name` and `active`, and environment configuration: infrastructure. Only the unique index on `key` is modelled, as `WellKeyed`.
- Atomicity of `$inc` and the race between authorisation and metering under concurrent requests: the model is sequential.
- `datetime` range limits, such as the `OverflowError` for a huge `days`: time is an unbounded integer.
- Api.KeyService.Usage: which of several records sharing a name `find_one` returns depends on the store's natural order. The model only promises that some record with that name is returned.
- The persona text `AI_PROMPT` and the fixed model name and temperature sent upstream: constant payload with no behaviour.
