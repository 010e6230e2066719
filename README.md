# Outline access-key client: a verified model

This project models the decision logic of a synchronous REST client for an
Outline server. The server hands out access keys. The client renames the
server, changes the default hostname and port for new keys, sets data limits,
lists, finds, creates, renames and deletes keys, and reads transfer metrics.

Almost all of the client is HTTP plumbing. What remains once each HTTP
exchange becomes an input is the subject of this model:

- the local port check;
- which response status raises which exception;
- which requests are issued, and in what order;
- which local fields change, and when;
- the values derived from decoded responses: the shareable URL, the transfer
  total, per-key usage and the server-info defaults.

Two modules, one per source file:

- `Exceptions` (`exceptions.dfy`): the exception taxonomy as a datatype. `Message` mirrors `__str__`, which returns the class's `match` text.
- `Client` (`client.py` modelled in `client.dfy`):
  - the status-mapping functions;
  - decoded records: `ServerJson`/`ServerInfo`, `AccessKeyJson` and `DataTransfer`;
  - the key search `FindKey`;
  - two classes. `OutlineClient` holds the `server` record and a ghost log `sent` of the requests it has issued. `OutlineAccessKey` is a key handle with a mutable `name`.

HTTP results are parameters:

- a status code where the source inspects `status_code`;
- a success flag where the source only calls `raise_for_status` (`delete_key`, `rename_key`, the POST in `new`);
- the decoded body for a GET.

An argument that Python accepts as `str | int | OutlineAccessKey` is a
`KeyRef`. Its `Text()` is the id string the source would send, using `Str`,
a model of Python's `str()` on integers.

Two orderings matter:

- `OutlineClient.rename` assigns the name before it checks the status (outline/client.py:161-165). The name therefore changes even when `InvalidName` is raised.
- `OutlineAccessKey.rename` assigns the name only after `rename_key` returns without raising (outline/client.py:112-113).

## Model

| member | source | states |
|---|---|---|
| `Exceptions.Message` | outline/exceptions.py:6-66 | the string form of an exception is its class's `match` text; only the base class has the empty text; each subclass has its literal text |
| `Exceptions.MessageInjective` | outline/exceptions.py:16-66 | two exceptions have the same text exactly when they are the same class |
| `Client.NatText` | outline/client.py:258 | decimal form of a natural number: only digits, non-empty, no leading zero, one digit exactly below 10 |
| `Client.Str` | outline/client.py:258 | `str()` of an integer: the decimal digits of a non-negative integer, and `-` followed by the digits of the magnitude for a negative one; the digits spell the value |
| `Client.NatTextValue` | outline/client.py:258 | the digits `NatText(n)` produces spell `n` in decimal, read most significant first |
| `Client.NatTextInjective` | outline/client.py:258 | different naturals have different decimal forms |
| `Client.StrInjective` | outline/client.py:258 | `str(a) == str(b)` exactly when `a == b` |
| `Client.InvalidPortMessageStatesRange` | outline/client.py:191-192 | InvalidPort's text is "Invalid port number, must be between " + str(MinPort) + " and " + str(MaxPort), the bounds `change_port` checks |
| `Client.RenameOutcome` | outline/client.py:164-165 | server rename succeeds exactly on status 204; any other status raises InvalidName |
| `Client.HostnameOutcome` | outline/client.py:178-181 | 400 raises InvalidHostname, 500 raises ErrorHostname, every other status succeeds |
| `Client.HostnameErrorsDistinct` | outline/exceptions.py:31-66 | the errors for 400 and 500 on a hostname change have different texts |
| `Client.PortOutcome` | outline/client.py:191-198 | InvalidPort exactly when `port < 1 or port > 65535`; for a port in range the call fails exactly on 409; the only errors are InvalidPort and PortAlreadyInUse |
| `Client.DataLimitOutcome` | outline/client.py:232-233 | a data-limit change fails exactly on status 400, with InvalidDataLimit (also the per-key form, lines 318-319) |
| `Client.CallOutcome` | outline/client.py:282-283 | a call checked only by `raise_for_status` fails exactly when the call failed, with the generic HTTP error |
| `Client.DecodeServerInfo` | outline/client.py:135-141 | each server field is copied when present; otherwise name defaults to "Outline Server", port and timestamp to 0, and the strings to "" |
| `Client.EncodeServerInfo` | outline/client.py:135-141 | the response carrying every field of a server record has every field present |
| `Client.DecodeEncodeServerInfo` | outline/client.py:135-141 | decoding a complete response returns exactly the record it carries |
| `Client.DecodeEmptyServerInfo` | outline/client.py:136-141 | an empty response decodes to ("Outline Server", "", 0, "", 0, "") |
| `Client.LimitBytes` | outline/client.py:60 | a key's limit is its `bytes` entry, or 0 for a key without a data limit |
| `Client.KeyRef.Text` | outline/client.py:44-47 | a text argument is sent as is, a number argument as its `str()` form, a handle argument as its id |
| `Client.ByKeyHandle` | outline/client.py:44-47 | the usage looked up with a handle equals the usage looked up with that handle's id |
| `Client.ByNumberText` | outline/client.py:47 | two numeric key arguments address the same id exactly when the numbers are equal |
| `Client.FindKey` | outline/client.py:258-264 | returns the first key in list order whose id equals the argument; AccessKeyNotFound exactly when no listed key has that id |
| `Client.FirstFailure` | outline/client.py:271-272 | the position of the first failed delete: every earlier call succeeded and the one there failed, or all succeeded |
| `Client.DeleteRequests` | outline/client.py:271-272 | one delete request per listed key, for that key's id, in list order |
| `Client.SumValuesRemove` | outline/client.py:37 | the sum over a map is the value at any chosen key plus the sum over the rest, so it is independent of order |
| `Client.DataTransfer.Total` | outline/client.py:33-37 | total transfer is the sum of all per-key values, and 0 for an empty report |
| `Client.DataTransfer.ByKey` | outline/client.py:39-47 | a key's usage is the report entry under the key's id text, or 0 when there is none |
| `Client.DataTransfer.TotalSplit` | outline/client.py:33-47 | the total is one key's usage plus the total of the report without that key |
| `Client.DataTransfer.TotalAdd` | outline/client.py:33-37 | adding a new key's entry adds its bytes to the total |
| `Client.ByKeyAtMostTotal` | outline/client.py:33-47 | with no negative counts, every key's usage lies between 0 and the total |
| `Client.OutlineClient.constructor` | outline/client.py:149-154 | the session's server record is the decoded GET /server body, and that GET is the only request issued |
| `Client.OutlineClient.Rename` | outline/client.py:156-165 | issues PUT /name; the local name becomes the new name whatever the status; InvalidName exactly when the status is not 204 |
| `Client.OutlineClient.ChangeHostname` | outline/client.py:167-181 | issues one PUT; the result is the hostname status mapping; the local server record is unchanged |
| `Client.OutlineClient.ChangePort` | outline/client.py:183-198 | a port out of range raises InvalidPort and issues no request; otherwise issues one PUT and follows the 409 mapping |
| `Client.OutlineClient.ChangeDataLimit` | outline/client.py:221-233 | issues one PUT with the limit; 400 raises InvalidDataLimit |
| `Client.OutlineClient.Key` | outline/client.py:254-264 | issues GET /access-keys; returns a new handle for the first listed key whose id is the argument's text; otherwise AccessKeyNotFound |
| `Client.OutlineClient.DeleteAllKeys` | outline/client.py:266-272 | issues one listing and then deletes for the listed keys in order, up to and including the first failed one; succeeds exactly when none failed |
| `Client.OutlineClient.DeleteKey` | outline/client.py:274-283 | issues DELETE for the argument's id; fails exactly when the call failed |
| `Client.OutlineClient.RenameKey` | outline/client.py:285-298 | issues PUT name for the argument's id; fails exactly when the call failed |
| `Client.OutlineClient.ChangeDataLimitForKey` | outline/client.py:300-319 | issues PUT data-limit for the argument's id; 400 raises InvalidDataLimit |
| `Client.OutlineClient.New` | outline/client.py:335-354 | issues POST, then a rename exactly when the POST succeeded and the name is non-empty; the returned key carries the given name if non-empty, else the created one's; a failed POST or rename raises |
| `Client.OutlineAccessKey.constructor` | outline/client.py:62-64 | the handle's fields are the decoded key and it points to its session |
| `Client.OutlineAccessKey.Url` | outline/client.py:66-75 | with an empty name, the default, the URL is `accessUrl`; otherwise `accessUrl`, then `#`, then the name |
| `Client.OutlineAccessKey.UrlInjective` | outline/client.py:66-75 | different names give different URLs |
| `Client.OutlineAccessKey.Delete` | outline/client.py:77-81 | issues DELETE for this key's id |
| `Client.OutlineAccessKey.Limit` | outline/client.py:83-89 | reads the limit of the first key with this id in a fresh listing, not from the handle; AccessKeyNotFound when it is gone |
| `Client.OutlineAccessKey.ChangeDataLimit` | outline/client.py:91-97 | issues PUT data-limit for this key's id; 400 raises InvalidDataLimit |
| `Client.OutlineAccessKey.Rename` | outline/client.py:106-113 | issues PUT name for this key's id; the local name changes only when that call succeeded |

## Left out

- HTTP transport, connection setup, TLS verification and JSON encoding/decoding: I/O. Responses appear as status codes, success flags or decoded records.
- Failure of GET /access-keys: its `raise_for_status` (outline/client.py:251) is not modelled; the listing is always a decoded body. GET /server is never status-checked by the client (outline/client.py:153-154): whatever body comes back is decoded with the defaults, which the constructor models as is.
- Transport errors (connection failures) on any call: not modelled; they propagate unchanged in the source.
- `raise_for_status` semantics: which statuses count as failure is not modelled; a boolean outcome stands for it.
- `is_metrics_shared`, `metrics_shared`, `reset_data_limit`, `reset_data_limit_key`, the handle's `reset_data_limit` and the `metrics` properties: they forward one request and have no local logic.
- The `keys` property is not a separate operation; it appears as the GET /access-keys request inside `Key` and `DeleteAllKeys`.
- The dynamic `self.__dict__ = data` population: decoded data is typed records. A missing `bytesTransferredByUserId` is the empty map, and a missing `dataLimit` is `None`, which `LimitBytes` reads as 0. JSON `null` values are not modelled.
- `Client.OutlineClient.Key`: requires an id or a number, not a handle, as the source's signature (`str | int`) does.
- `Client.OutlineClient.DeleteAllKeys`: deletes by id directly and does not build the intermediate handles the source creates for each listed key.
- `Client.DataTransfer.Total`: a ghost function, because summing a map takes its keys in an unspecified order.
- The server info is a value held in a field. Aliasing of the source's `OutlineClientInfo` object is not modelled.
- Default arguments of `new` are kept as Dafny default parameters (`DefaultMethod` is "aes-192-gcm", the name defaults to "").
- examples/sample.py: a usage script with no logic of its own.
