# Telegram reaction bot: account and worker lifecycle

This project models the request handlers of `app.py`, a small HTTP service
that logs a Telegram user account in with a one-time password and then runs
one background worker per account that reacts with an emoji to every new
message of a chosen group. The handlers share three tables:

- `tempSessions`: the persisted map from a one-time login code to the pending
  login (phone, API id, API hash, creation time);
- `users`: the persisted map from an auth token to the user record (platform
  user id, phone, `active` flag, group id, emoji);
- `activeBots`: the in-memory registry from an auth token to the running
  worker (group id, emoji, phone).

`App.Server` is a class with these three maps as fields. Each handler
(`Login`, `Verify`, `Start`, `Stop`) is a method whose `modifies` clause names
only the fields that handler can change, and whose postcondition gives the
whole new state and the response for every branch of the source, the error
guards included. `Status` is a function of the state, and `List` is a
loop over the registry. Each `load_db` / change / `save_db` round trip in
the source is one update of the corresponding fields.

Operations that can raise are inputs of type `Call<T>` (`Returns(value)` or
`Raises(message)`): `int(api_id)`, `int(group_id)`, and the Telegram client
steps of each handler. The random draws of `generate_code` are an input
`picks` (eight indices into the 36-character alphabet), and `time.time()`
is an input `now`.

Two predicates relate the registry to the stored `active` flags:
`RegistryBacked` (every running worker has a stored record marked active,
with the same group, emoji and phone) and `FlagsAccurate` (every record
marked active has a running worker). Login, start and stop preserve both.
Verify always preserves `FlagsAccurate` and preserves `RegistryBacked` unless
the freshly drawn auth token equals the token of a running worker. In that
case the source overwrites that user's record with a fresh inactive one.
A server started from an empty document satisfies both predicates. A server
restarted from a stored document satisfies `FlagsAccurate` exactly when no
stored record is still marked active. `Status` reports registry membership,
and it agrees with the stored flag whenever both predicates hold.

A stop whose disconnect raises leaves the worker registered and the record
unchanged: the `del active_bots[auth]` at app.py:185 comes after the
`disconnect()` at app.py:184, inside the same `try`. `App.Server.Stop`
states it that way.

## Model

| member | source | states |
|---|---|---|
| `Codes.GenerateCode` | app.py:34-35 | a generated code has length 8, every character is an upper-case ASCII letter or a digit, and character i is the alphabet character at draw i |
| `Codes.AlphabetAt` | app.py:35 | the alphabet is the 26 upper-case letters in order followed by the 10 digits in order |
| `Codes.EveryCodeIsGenerated` | app.py:34-35 | every 8-character string of upper-case letters and digits is produced by some sequence of draws |
| `Codes.GenerateCodeInjective` | app.py:34-35 | different draw sequences produce different codes |
| `Routes.VerifyPathRoutes` | app.py:66 | the `next` path of a login splits into the segments of the verify route, with the code as the `<code>` segment |
| `Routes.BotPathRoutes` | app.py:113 | the `next` path of a verify splits into the segments of the start route, with the auth token as the `<auth>` segment |
| `App.Server.constructor` | app.py:22-37 | a fresh process holds the loaded document and an empty registry; when the file cannot be read or parsed it starts with empty `users` and `temp_sessions`; the registry is backed by the store; the flags are accurate exactly when no stored record is marked active; both predicates hold when the document was unreadable |
| `App.Server.Login` | app.py:40-72 | a failing `int(api_id)`, client call or code request yields that error, and an authorized client yields "Already logged in"; these change nothing. Otherwise it adds exactly `tempSessions[code]` with the phone, API id, API hash and time, returns the code and `/Start/verify/{code}/OTP`, and leaves `users` and the registry unchanged |
| `App.Server.Verify` | app.py:75-117 | an unknown code yields "Invalid code" and a failed sign-in yields its error; these change nothing, so the pending login stays and the code can be retried. On success it adds `users[auth]` with the platform id, the pending phone, `active = false`, no group and the default emoji, removes the code, and returns the token and `/Start/bot/{auth}/GROUP_ID/🔥`. It keeps `FlagsAccurate`, and it keeps `RegistryBacked` when the new token is not a running worker's |
| `App.Server.Start` | app.py:120-176 | an unknown token yields "Invalid auth", and a non-integer group id or a failed connect yields its error; these change nothing. On success it sets `activeBots[auth]` to the group, emoji and stored phone, replacing any earlier worker, and sets that record's `active`, group and emoji. No other entry of any table changes, and both predicates are preserved |
| `App.Server.Stop` | app.py:179-197 | a token with no worker yields "Bot not running" and a failed disconnect yields its error; these change nothing. On success it removes the worker and clears the record's `active` flag if the record exists. No other entry changes, and both predicates are preserved |
| `App.Server.Status` | app.py:200-214 | an unknown token yields "Invalid auth". Otherwise `active` is registry membership and group, emoji and phone come from the stored record. `active` equals the stored flag when the tables are in sync, and a running worker's group and emoji are the ones reported |
| `App.Server.List` | app.py:217-233 | one entry per registry item with its group, emoji and phone, each token exactly once, every registry item listed, and `total` equal to the number of entries and to the registry size |
| `Scenarios.Lifecycle` | app.py:40-233 | login, verify, start, status, stop, status and list in sequence: the code and token have the code format, status then reports the worker running with the requested group and emoji, then not running with the same stored values, and the final list is empty |
| `Scenarios.StartTwice` | app.py:132-171 | two starts for the same token leave exactly one listed worker, configured by the second call, and status reports the second call's group and emoji |
| `Scenarios.RetryVerify` | app.py:78-117 | a failed sign-in keeps the code usable, the retry succeeds, and a third verify with the consumed code yields the error text "Invalid code" |
| `Scenarios.AfterRestart` | app.py:180-214 | after a restart a record stored as active is reported as not running, stop yields the error text "Bot not running", and the stored flag stays set |
| `Scenarios.Refusals` | app.py:69-207 | on a fresh server an authorized client gives the error text "Already logged in", an unknown token gives "Invalid auth" from start and status and "Bot not running" from stop, and the list stays empty |

## Left out

- Flask routing, `jsonify` and the `/` route: HTTP plumbing. Responses are the `Records.Response` datatype, and error bodies carry a `Records.Fault`, whose text `Records.Message` gives.
- Telethon: creating clients, `connect`, `is_user_authorized`, `send_code_request`, `sign_in`, `get_me`, `disconnect`, and the reaction handler coroutine (app.py:142-154). Their outcomes are `Call` inputs of the handlers. The text of a raised exception is the input's `message`.
- The one-time password of verify: it only reaches `sign_in`, whose outcome is the `signIn` input.
- The client handle in each registry entry. Because of this, the model does not show that a start which disconnects the old worker and then fails to connect leaves the old, disconnected worker registered. The tables themselves stay unchanged in that case, as stated.
- `run_bot`, the asyncio event loops and the background threads (app.py:156-157, 236-238): concurrency.
- File I/O in `load_db` and `save_db`. The document is kept in the server's fields, and a failure while writing the file is not modelled. Lost updates between concurrent requests are not modelled either.
- `random.choices` and `time.time()`: the draws and the timestamp are inputs. The timestamp is a `real`, and floating-point rounding is not modelled.
- The environment configuration (`API_ID`, `API_HASH`, `PORT`) and the startup `os.makedirs`: they only reach the client library and the host.
- The insertion order of the Python dict: `App.Server.List` walks the registry in an arbitrary order and promises nothing about the order of the entries.
- Records that lack keys. `user.get(...)` in status tolerates a stored record with missing fields. The model's records are typed and always have every field.
