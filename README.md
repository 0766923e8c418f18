# Quiz bot core: VK long-poll client, admin password check, in-memory store

This project is a Dafny model of three pieces of a VK quiz bot's backend,
with proofs about each one.

- **VK API accessor** (`VkApi`, built on `PyValues` and `UrlParse`).
  - It builds request URLs. `_build_query` fills in the API version
    `v=5.131` with `setdefault` on the caller's dict, then joins host and
    method and appends the `urlencode`d parameters.
  - It models the long-poll handshake `groups.getLongPollServer`, which
    copies `key`, `server` and `ts` from the response into the accessor.
  - It models one `poll` step: the `a_check` request built from the
    current session, the cursor update from the response's `ts`, and the
    decoding of `updates`.
  - Decoding keeps only the `message_new` items, in order, and projects
    `object.message.{from_id, text, id}` from each.
  - It builds the `messages.send` parameters.
  - The HTTP exchange is not modelled. Each operation returns the URL it
    would request and takes the response's decoded JSON body as an
    argument.
- **Admin model** (`AdminModels`).
  - `hash_password` is SHA-256 over the password's UTF-8 encoding,
    rendered as lower-case hex.
  - `is_password_valid` compares the stored digest with that hash.
  - `get_current_session` rebuilds the logged-in admin from
    `session["admin"]`.
- **In-memory database** (`InMemoryDatabase`). It holds two lists, a
  next identifier per list (`len + 1`), and `clear`, which empties both.

## How Python is modelled

- **JSON values.** Response bodies and session contents are `PyValues.Json`
  values.
- **Subscripting.** `v[k]` is `PyValues.Index`:
  - a dict holding `k` gives its value;
  - a dict without `k` raises `KeyError(k)`;
  - any other value raises `TypeError`.

  Chains of lookups are `Result` chains that stop at the first exception,
  in Python's evaluation order.
- **Iterating `updates`.** `for update in response_body["updates"]` is
  `VkApi.DecodeUpdates`. A list yields its items. An empty str or dict
  yields nothing. A non-empty str or dict yields strs (characters or keys),
  and the first `update["type"]` on a str raises `TypeError`. None, a bool
  or an int is not iterable and raises `TypeError`.
- **Dicts.** The parameter dicts that the source mutates are
  `PyValues.Dict` objects. Their entries are kept in insertion order.
- **Rendering values.** `str()` is concrete for None, booleans, integers
  and strings. For a list or a dict it is the codec's `repr` function.
- **Escaping.** `quote_plus` (the per-component escaping inside
  `urlencode`) is the codec's `quote` function. The only property assumed
  of it is named where it is needed: neither `&` nor `=` survives escaping
  (`UrlParse.SeparatorFree`). For the literal scenario URLs, unreserved
  characters are also left alone (`VkApi.KeepsUnreserved`).
- **`urljoin`.** It is modelled for the two shapes the accessor uses:
  - an empty method, which gives the host unchanged (or the empty method
    when the host is falsy);
  - a plain path segment appended to an `http(s)` base whose path ends in
    `/`. A plain segment has no `/`, `?`, `#`, `:` or `;`. A `;` would be
    split off as path parameters and dropped when empty. The base has no
    `[` or `]`, which would make `urlsplit` read an IPv6 host.
- **SHA-256.** It is a function-valued parameter, so nothing is assumed
  about it except that it is a function. The UTF-8 encoding and the hex
  rendering around it are modelled concretely.
- **Randomness and configuration.** `random.randint(1, 2**32)` is an
  argument with that range as a precondition. The bot token and group id
  are arguments.

## Behaviour worth knowing

- **Query order.** The long-poll query is
  `act=a_check&key=K&ts=5&wait=25&v=5.131`. The dict is built as `act`,
  `key`, `ts`, `wait`, and `setdefault` appends `v` last
  (`VkApi.PollRequest`, `VkApi.ScenarioPollUrl`).
- **Decoding errors.** A failed decode raises the `KeyError` or
  `TypeError` of the failing subscript. There is no dedicated error type.
  The exception aborts the comprehension, so the rest of the batch is
  lost. The cursor has already been replaced by then
  (`VkApi.PollAdvancesCursor`).
- **Handshake errors.** A handshake whose `response` has `key` but no
  `server` keeps the new key next to the old server and cursor
  (`VkApi.HandshakeKeyOnly`). It raises the failing lookup's
  `KeyError` or `TypeError`, not a dedicated negotiation error.

## Model

| member | source | states |
|---|---|---|
| `PyValues.Index` | app/store/vk_api/accessor.py:58-61 | Definition of `v[k]`: a dict holding `k` gives its value, a dict without `k` raises `KeyError(k)`, any other value raises `TypeError`. It is used for every subscript in the model and characterised through `VkApi.HandshakeSucceeds`, `VkApi.Project` and `AdminModels.GetCurrentSession`. |
| `PyValues.WithDefaultSpec` | app/store/vk_api/accessor.py:42 | `setdefault` keeps every entry in its place. It appends `(k, v)` as the last entry exactly when `k` was absent. Afterwards `k` maps to the caller's value if there was one, else to `v`. Every other key keeps its value, and keys stay distinct. |
| `PyValues.Dict.SetDefault` | app/store/vk_api/accessor.py:42 | The dict is changed in place to `WithDefault` of its old entries. The value returned is the one now stored under `k`. |
| `PyValues.ParseNatDigits` | app/store/vk_api/accessor.py:97 | `str()` of a non-negative integer is a decimal numeral that reads back as that integer. |
| `UrlParse.UrlJoin` | app/store/vk_api/accessor.py:43 | Definition of `urljoin` for the two shapes used. It is characterised by `VkApi.QueryOnHost` and `VkApi.QueryOnDirectory`. |
| `UrlParse.UrlEncode` | app/store/vk_api/accessor.py:43 | The encoded query is empty exactly when the dict is empty. Its full content is characterised by `UrlParse.ParseUrlEncode`. |
| `UrlParse.ParseUrlEncode` | app/store/vk_api/accessor.py:43 | Given an escaper that removes `&` and `=`, the `urlencode` output splits back into exactly the escaped `(key, value)` pairs of the dict, in the dict's order. Nothing is added, dropped or reordered. |
| `VkApi.QueryFields` | app/store/vk_api/accessor.py:41-43 | The built query lists the caller's parameters in dict order. `v=5.131` follows last exactly when the caller gave no `v`. A caller's `v` is kept as given. |
| `VkApi.QueryOnHost` | app/store/vk_api/accessor.py:43 | With an empty method, the URL is `str()` of the host (nothing, when the host is falsy, e.g. a `server` still None before the handshake), then `?` and the query. This is the form `poll` uses. |
| `VkApi.QueryOnDirectory` | app/store/vk_api/accessor.py:43 | A plain method name (no `/`, `?`, `#`, `:`, `;`, no dot segment) is appended to an `http(s)` host whose path ends in `/` and that has no brackets, query, fragment, or empty or dot segments. |
| `VkApi.ApiPathJoinable` | app/store/vk_api/accessor.py:16 | `https://api.vk.com/method/` is such a host, and both method names are plain segments, so the two API calls resolve by appending. |
| `VkApi.VkApiAccessor.BuildQuery` | app/store/vk_api/accessor.py:40-43 | The caller's dict gains `v` in place when it lacked one, and is otherwise unchanged. The URL returned is the joined URL, `?`, and the encoding of the updated dict. |
| `VkApi.HandshakeRequest` | app/store/vk_api/accessor.py:46-55 | The handshake requests `https://api.vk.com/method/groups.getLongPollServer` with `access_token`, `group_id` and then `v`. |
| `VkApi.VkApiAccessor.GetLongPollService` | app/store/vk_api/accessor.py:45-61 | The method returns the handshake URL. The new fields and the outcome are `AfterHandshake` of the old fields and the response body. |
| `VkApi.AfterHandshake` | app/store/vk_api/accessor.py:58-61 | Definition of the session after the handshake's one-by-one assignments. It is characterised by `VkApi.HandshakeSucceeds`, `VkApi.HandshakeWithoutResponse` and `VkApi.HandshakeKeyOnly`. |
| `VkApi.HandshakeSucceeds` | app/store/vk_api/accessor.py:58-61 | The handshake succeeds exactly when `response.key`, `response.server` and `response.ts` can all be read. It then installs exactly those three values. |
| `VkApi.HandshakeWithoutResponse` | app/store/vk_api/accessor.py:58 | Without a readable `response`, the handshake raises that lookup's error and leaves all three fields unchanged. |
| `VkApi.HandshakeKeyOnly` | app/store/vk_api/accessor.py:58-60 | A `response` with `key` but no `server` raises after the new key is stored. The old server and cursor remain. |
| `VkApi.HandshakeThenPoll` | app/store/vk_api/accessor.py:58-68 | After a successful handshake, the next poll request is built from the negotiated key, server and cursor. |
| `VkApi.PollRequest` | app/store/vk_api/accessor.py:64-69 | The poll request targets the current `server` with no path. Its parameters read back as `act=a_check`, the current `key`, the current `ts`, `wait=25` and `v=5.131`, in that order. |
| `VkApi.VkApiAccessor.Poll` | app/store/vk_api/accessor.py:63-87 | The method returns the poll URL of the old session. The new fields and the decoded updates are `AfterPoll` of the old fields and the response body. |
| `VkApi.AfterPoll` | app/store/vk_api/accessor.py:73-87 | Definition of the session and result after a poll response, with `ts` replaced before `updates` is read. It is characterised by `VkApi.PollAdvancesCursor` and `VkApi.PollWithoutTs`. |
| `VkApi.PollAdvancesCursor` | app/store/vk_api/accessor.py:73-87 | A response holding `ts` installs it, and the key and server are unchanged. This holds whether `updates` is empty, missing or fails to decode. The next request carries the new cursor. The poll succeeds exactly when `updates` is readable and decodes. |
| `VkApi.PollWithoutTs` | app/store/vk_api/accessor.py:73 | Without a readable `ts`, the poll raises that lookup's error and the session is unchanged. |
| `VkApi.Project` | app/store/vk_api/accessor.py:75-84 | The record is built exactly when `type` and `object.message.{from_id, text, id}` can be read, and it holds those values unchanged. |
| `VkApi.DecodeList` | app/store/vk_api/accessor.py:74-87 | A decoded batch is never longer than its input. |
| `VkApi.DecodeUpdates` | app/store/vk_api/accessor.py:85 | Definition of iterating `updates`, for a list and for a non-list. It is characterised by `VkApi.DecodeUpdatesSpec`. |
| `VkApi.DecodeUpdatesSpec` | app/store/vk_api/accessor.py:74-87 | Decoding succeeds exactly for a list of decodable items, or for an empty str or dict. A list yields the projection of each `message_new` item, in order. An empty str or dict yields nothing. Any other value raises `TypeError`. |
| `VkApi.AcceptedSpec` | app/store/vk_api/accessor.py:85-86 | The reference filter keeps exactly the inputs whose `type` is `message_new`, and is never longer than its input. |
| `VkApi.DecodeListSpec` | app/store/vk_api/accessor.py:74-87 | Decoding succeeds exactly when every item has a readable `type` and every `message_new` item has its three fields. It then yields one record per `message_new` item, in input order, each being the projection of that item. |
| `VkApi.MalformedFailsBatch` | app/store/vk_api/accessor.py:79-86 | A `message_new` item missing any field fails the whole batch. |
| `VkApi.OthersNotInspected` | app/store/vk_api/accessor.py:85-86 | An item whose `type` is not `message_new` is read no further than `type`. Replacing it with any item whose `type` lookup gives the same outcome decodes the batch identically. |
| `VkApi.SendRequest` | app/store/vk_api/accessor.py:89-101 | The message request goes to `messages.send` with `user_id`, `random_id` (in decimal), `peer_id` = `-` followed by the group id in decimal, `message`, `access_token` and `v`, in that order. |
| `VkApi.VkApiAccessor.SendMessage` | app/store/vk_api/accessor.py:89-101 | Given a `random_id` in [1, 2^32], the method returns that request's URL and changes no accessor field. |
| `VkApi.VkApiAccessor.constructor` | app/store/vk_api/accessor.py:23-26 | A new accessor has no key, server or cursor (all None). |
| `VkApi.ScenarioHandshakeUrl` | app/store/vk_api/accessor.py:45-55 | Given an escaper that keeps unreserved characters, the handshake for token `T` and group 7 requests the literal URL `…/groups.getLongPollServer?access_token=T&group_id=7&v=5.131`. |
| `VkApi.ScenarioPollUrl` | app/store/vk_api/accessor.py:63-69 | Given an escaper that keeps unreserved characters and an unreserved cursor `t`, with key `K` and server `https://example/poll`, the poll requests `https://example/poll?act=a_check&key=K&ts=t&wait=25&v=5.131`. |
| `VkApi.ScenarioDecode` | app/store/vk_api/accessor.py:74-87 | A single `message_new` update decodes to the record with `from_id` 1, text `hi` and id 9. |
| `VkApi.Scenario` | app/store/vk_api/accessor.py:45-87 | A handshake followed by two polls. The negotiated server, key and cursor `5` drive the first poll. The one `message_new` update is decoded. The response's cursor `6` drives the second poll. |
| `AdminModels.EncodeChar` | app/admin/models.py:15 | UTF-8 encodes a character in 1 to 4 bytes. It uses one byte exactly for code points below 0x80, and every continuation byte lies in 0x80–0xBF. |
| `AdminModels.Utf8` | app/admin/models.py:15 | `password.encode()` takes 1 to 4 bytes per character. It is characterised by `AdminModels.Utf8RoundTrip` and `AdminModels.Utf8Injective`. |
| `AdminModels.Utf8RoundTrip` | app/admin/models.py:15 | Decoding `password.encode()` gives the password back. |
| `AdminModels.Utf8Injective` | app/admin/models.py:15 | Two passwords have the same encoding exactly when they are equal. |
| `AdminModels.HexDigest` | app/admin/models.py:15 | `hexdigest()` has two characters per digest byte, all lower-case hex digits. |
| `AdminModels.FromHexDigest` | app/admin/models.py:15 | The hex rendering reads back as the digest bytes. |
| `AdminModels.HexDigestInjective` | app/admin/models.py:15 | Two digests render alike exactly when they are equal. |
| `AdminModels.HashPassword` | app/admin/models.py:13-15 | The hash is a lower-case hex string twice as long as the SHA-256 digest (64 characters for a 32-byte digest). |
| `AdminModels.HashDeterministic` | app/admin/models.py:13-15 | Equal passwords hash alike. Two passwords hash alike exactly when SHA-256 gives their encodings the same digest. |
| `AdminModels.HashInjective` | app/admin/models.py:13-15 | With a collision-free digest, two passwords hash alike exactly when they are equal. This hypothesis is an idealisation: SHA-256 has a 32-byte output, so it has collisions. `AdminModels.PasswordRoundTrip` is the statement about the real hash. |
| `AdminModels.IsPasswordValid` | app/admin/models.py:17-18 | The check is true exactly when a password is stored and it equals `hash_password` of the candidate. |
| `AdminModels.PasswordRoundTrip` | app/admin/models.py:14-18 | An admin stored with `hash_password(p)` accepts `p`. It accepts another candidate exactly when that candidate's digest collides with `p`'s. |
| `AdminModels.NoPasswordRejects` | app/admin/models.py:11-18 | An admin without a stored password rejects every candidate. |
| `AdminModels.GetCurrentSession` | app/admin/models.py:20-22 | An admin is built exactly when `session["admin"]["id"]` and `session["admin"]["email"]` can be read. It carries those values and no password. Otherwise it raises the error of the `id` lookup if that one fails, else the error of the `email` lookup. |
| `AdminModels.SessionAdminRejects` | app/admin/models.py:11-22 | The admin rebuilt from the session validates no password. |
| `AdminModels.EncodingExamples` | app/admin/models.py:15 | `"aé"` encodes as `61 C3 A9`, and the bytes `AB 01` render as `ab01`. |
| `InMemoryDatabase.Database.constructor` | app/store/database/database.py:6-10 | The generated `__init__` stores the given lists. |
| `InMemoryDatabase.Database.Empty` | app/store/database/database.py:9-10 | A default database has empty `themes` and `questions`, so both next identifiers are 1. |
| `InMemoryDatabase.Database.NextThemeId` | app/store/database/database.py:12-14 | The next theme identifier is one more than the number of themes, so it is at least 1. It reads only `themes` and changes nothing. |
| `InMemoryDatabase.Database.NextQuestionId` | app/store/database/database.py:16-18 | The next question identifier is one more than the number of questions, so it is at least 1. It reads only `questions` and changes nothing. |
| `InMemoryDatabase.Database.Clear` | app/store/database/database.py:20-22 | Both lists are empty afterwards and both next identifiers are 1. Because the new state does not depend on the old one, a second call leaves the same state: `clear` is idempotent. |

## Left out

- **The poller** (`app/store/vk_api/poller.py`). Its only job is starting
  and stopping an asyncio background task, so it is not part of this
  model.
- **HTTP and sessions.** The `ClientSession` and its TLS-disabled
  connector, `connect`/`disconnect`, `response.json()` and the logger are
  left out. They are I/O; the decoded body is an argument instead.
- **Response values.** JSON floats are left out: the accessor never uses
  them.
- **Unspecified functions.** `str()` of lists and dicts, `quote_plus` and
  SHA-256 are functions the model is given, not definitions. Their
  internals belong to the Python library.
- **Strings with lone surrogates.** Python strings may contain them, and
  then `str.encode()` raises. Dafny characters are Unicode scalar values,
  so such a password cannot be written in the model.
- **General `urljoin`.** RFC 3986 section 5.2 resolution is left out.
  `UrlParse.UrlJoin` requires one of the two shapes the accessor uses.
- `VkApi.VkApiAccessor.Poll`: the event loop overlapping requests is not
  modelled. Each call is one request and response, in sequence.
- `InMemoryDatabase.Database.Clear`: Python's `list.clear()` also empties
  every other reference to the same list object. The model's lists are
  values, so that aliasing is not captured; only the database's own
  fields are emptied.
- **Element types.** `Theme` and `Question` are defined in a file that is
  not part of this model, so they are type parameters.
- **VK records.** The VK dataclasses are not part of this model either:
  `Update`, `UpdateObject`, `UpdateMessage` and `Message` are
  reconstructed from their constructor calls.
- **The admin accessor** (`app/store/admin/accessor.py`). Its methods are
  stubs that return `None`, so there is no behaviour to state.
- **The web mixin** (`app/web/mixins.py`). It is a one-line framework
  guard that raises `HTTPUnauthorized` for a new session.
