# GoStudy booking bot: a verified model of its core

The bot is a Telegram assistant. A user picks a language and connects a Calendly account. The bot then shows up to five open slots from that account as buttons, and the user picks one. This project models, in Dafny, the three parts of the bot that hold logic:

- **Slot retrieval** (`app/calendly.py`, module `Calendly`, file `calendly.dfy`). This is `get_user_slots` as pure functions. The two HTTP requests are function parameters: each maps the request the bot sends to the response it receives. A response is a status code, a body text and the records of its JSON `collection`. The result is either a list of display strings or one of the three exceptions the function raises.
- **The conversation** (`app/handlers.py`, module `Handlers`, file `handlers.dfy`). Class `Conversation` holds one user's FSM state (`language` or `choosing_time`, or none), their data map and the messages sent so far. One method models each handler, and two router methods model how aiogram dispatches. The `get_token` lookup is an input: its outcome, an optional row. The slot fetch is also an input: a function from the stored access token to the outcome of `get_user_slots`. Button construction and callback-data encoding are pure functions.
- **The token table** (`app/database.py`, module `TokenStore`, file `database.dfy`). Class `TokenTable` holds a sequence of `{id, telegram_user_id, access_token}` rows and the next value of the id sequence. `SaveToken` and `GetToken` are loops over the rows. The functions `Save` and `RowById` specify their effect and are the subject of the lemmas.

Two helper modules support these. `Wrappers` defines `Option` and `Result`. `Text` models the Python string operations the code calls: single-character `replace`, `split` and `str(int)`. It also defines `join`, `count` and an integer parser, which the code never calls; they exist only to state properties (joining the parts of a split rebuilds the string, reading `str(i)` back gives `i`).

Four behaviours of the code worth knowing, which the model follows:
- The code looks token rows up by primary key `id`, not by the Telegram user id (see Findings).
- A language choice moves the state to `choosing_time` only when a non-empty slot list comes back. On a missing token, a fetch error or an empty list, the state stays `language`.
- The callback handler reacts to any data starting with `book:`, whatever the current state.
- The code has no configurable event-type selector. It always takes the first event type.

## Model

| member | source | states |
|---|---|---|
| `Text.ReplaceChar` | app/calendly.py:58 | `replace("T", " ")`: the length is unchanged, each target character becomes the replacement and every other character is kept in place |
| `Text.RemoveChar` | app/calendly.py:59 | `replace("Z", "")`: the result has no `Z`, its length is the input's minus its count of `Z`, it adds no new characters, and it is the input itself when there is no `Z` |
| `Text.RemoveCharAppend` | app/calendly.py:59 | deletion distributes over concatenation, so the remaining characters keep their order |
| `Text.CountAfterReplace` | app/calendly.py:58-59 | replacing `T` by a space does not change how many `Z`s there are |
| `Text.Find` | app/handlers.py:87 | the index found is an occurrence of the separator and no earlier index is one; none is found exactly when the separator does not occur |
| `Text.Split` | app/handlers.py:87 | `split` always yields at least one part |
| `Text.JoinSplit` | app/handlers.py:87 | joining the parts of a split with the separator rebuilds the original string |
| `Text.SplitPartsFree` | app/handlers.py:87 | no part of a split contains the separator |
| `Text.SplitCount` | app/handlers.py:87 | a split has two or more parts exactly when the separator occurs, so `[1]` raises exactly when it does not |
| `Text.NatToDecimal` | app/handlers.py:57 | `str(n)` is a non-empty string of decimal digits with no leading zero |
| `Text.IntToDecimal` | app/handlers.py:57 | `str(i)` is non-empty, starts with `-` exactly when i is negative, and is digits otherwise |
| `Text.DecimalRoundTrip` | app/handlers.py:57 | the decimal digits of n read back as n |
| `Text.ParseIntToDecimal` | app/handlers.py:57 | `int(str(i)) == i` for every integer, negative ones included |
| `Calendly.ErrorText` | app/calendly.py:20 | the text of an exception for a failed request ends with the upstream body, verbatim |
| `Calendly.BearerHeader` | app/calendly.py:8 | the `Authorization` header is `Bearer ` followed by exactly the access token |
| `Calendly.ChooseEventType` | app/calendly.py:19-27 | a non-200 status fails with the body text; an empty collection fails with "no event types"; otherwise the result is the first entry's `uri`, and these are the only cases |
| `Calendly.AvailabilityWindow` | app/calendly.py:29-38 | the query starts at `now`, ends exactly 7 days (in microseconds) later, uses zone `Asia/Tashkent`, and carries the chosen event type and the bearer header |
| `Calendly.FormatSlot` | app/calendly.py:57-59 | a formatted slot contains no `T` and no `Z`, and its length is the input's minus its count of `Z` |
| `Calendly.FormatSlotIsFormatChars` | app/calendly.py:57-59 | the two chained replaces equal an independent one-pass definition: `T` becomes a space, `Z` is dropped, everything else is kept in order |
| `Calendly.FormatAll` | app/calendly.py:56-60 | the comprehension gives one output per record, and output i is record i's `start_time` formatted |
| `Calendly.FormatSlots` | app/calendly.py:51-61 | the list has exactly min(5, number of records) entries, and entry i is the formatted `start_time` of record i |
| `Calendly.GetUserSlots` | app/calendly.py:6-61 | a successful result has at most 5 entries, none containing `T` or `Z` |
| `Calendly.EventTypeFailureStops` | app/calendly.py:19-27 | when the event-type step fails, the result is that error (non-200 body or "no event types") whatever the availability server would answer |
| `Calendly.AvailabilityOutcome` | app/calendly.py:29-61 | once an event type is chosen, the outcome depends only on the answer to the 7-day `Asia/Tashkent` query for the first `uri` with the caller's bearer token: non-200 gives the availability error, an empty collection gives the empty list (not an error), and otherwise min(5, n) slots in order, each one-pass formatted |
| `TokenStore.Position` | app/database.py:30 | the first row whose key column equals k, or none exactly when no row matches |
| `TokenStore.RowById` | app/database.py:30 | `session.get`: a row in the table whose primary key `id` is k, or none exactly when no row has that `id` |
| `TokenStore.Save` | app/database.py:28-36 | `save_token` as written: it updates exactly when some row has `id == k`; a refused commit leaves the table unchanged; only an insert adds a row (exactly one); no row's `id` changes |
| `TokenStore.SaveUpdatesInPlace` | app/database.py:30-32 | when a row has `id == k`, save sets only that row's `access_token`; the row count, the id sequence and all other rows are unchanged |
| `TokenStore.SaveInsertsOneRow` | app/database.py:33-35 | when no row has `id == k` and k is a new Telegram id, save appends exactly one row `{next id, k, token}` and advances the sequence |
| `TokenStore.SaveRefusesDuplicate` | app/database.py:33-36 | when no row has `id == k` but a row already has `telegram_user_id == k`, the commit fails on the unique constraint and the table is unchanged |
| `TokenStore.GetAfterUpdate` | app/database.py:30-41 | after a save that hit `id == k`, `get_token(k)` returns the row with the new token |
| `TokenStore.SavePreservesConsistency` | app/database.py:14-36 | every save keeps ids within the sequence and keeps both `id` and `telegram_user_id` unique |
| `TokenStore.SaveIdempotent` | app/database.py:28-36 | repeating the same save leaves the table exactly as after the first one; the repeat updates when the first call updated or inserted a row whose new `id` is k, and otherwise its commit is refused |
| `TokenStore.SaveThenGetMisses` | app/database.py:30-41 | as written, a token saved for a Telegram id that is neither an existing `id` nor the next one cannot be read back with `get_token` |
| `TokenStore.SaveThenGetMissesExample` | app/database.py:28-41 | on an empty table, saving for user 42 inserts row `{1, 42, "tok"}`, `get_token(42)` finds nothing, and a second save for 42 fails on the unique constraint |
| `TokenStore.SaveHitsOtherUser` | app/database.py:30-32 | as written, when k is another user's row `id`, `get_token(k)` returns that user's row and `save_token(k, t)` overwrites that user's token, while k's own row stays as it was |
| `TokenStore.SaveHitsOtherUserExample` | app/database.py:28-41 | with row `{1, 42, "a"}`, `get_token(1)` returns user 42's row and `save_token(1, "b")` turns it into `{1, 42, "b"}` |
| `TokenStore.RowByUser` | app/database.py:39-41 | the intended lookup: a row whose `telegram_user_id` is k, or none exactly when there is no such row |
| `TokenStore.SaveForUser` | app/database.py:28-36 | the intended upsert never fails on the unique constraint; it updates exactly when a row has `telegram_user_id == k`, and otherwise adds exactly one row |
| `TokenStore.SaveForUserThenGet` | app/database.py:28-36 | the intended upsert keeps the table consistent, makes the lookup by Telegram id return the token just saved, and leaves every other user's lookup unchanged |
| `TokenStore.TokenTable.constructor` | app/database.py:23-25 | a new table is empty, consistent, and its id sequence starts at 1 |
| `TokenStore.TokenTable.Locate` | app/database.py:30 | the row scan returns the first row matching on the given column |
| `TokenStore.TokenTable.GetToken` | app/database.py:39-41 | `get_token(k)` returns a row from the table with `id == k`, or none exactly when there is none |
| `TokenStore.TokenTable.SaveToken` | app/database.py:28-36 | `save_token` changes the table exactly as `Save` says and keeps it consistent |
| `TokenStore.TokenTable.GetTokenForUser` | app/database.py:39-41 | the intended `get_token`: a row with `telegram_user_id == k`, or none exactly when there is none |
| `TokenStore.TokenTable.SaveTokenForUser` | app/database.py:28-36 | the intended `save_token` changes the table exactly as `SaveForUser` says and keeps it consistent |
| `Handlers.LanguageLabels` | app/handlers.py:27-32 | the language keyboard shows the three labels in the dictionary's order |
| `Handlers.Lookup` | app/handlers.py:45 | `dict.get`: none exactly when no entry has the key; otherwise the result is a code paired with that key |
| `Handlers.LanguageCode` | app/handlers.py:21-25 | exactly the three labels are known, and each maps only to its own code: `uz`, `ru`, `en` |
| `Handlers.ConnectUrl` | app/handlers.py:57 | the connect URL is the fixed `/auth/connect?telegram_id=` address followed by the user's id, which parses back to the id |
| `Handlers.ConnectMessage` | app/handlers.py:58-61 | the HTML message opens with the connect prompt, then the anchor tag holding the connect URL |
| `Handlers.FetchFailedMessage` | app/handlers.py:69 | the failure message ends with the exception's text, verbatim |
| `Handlers.SelectedMessage` | app/handlers.py:90-93 | the confirmation contains the chosen slot verbatim, right after `🧾 You selected: <b>` |
| `Handlers.ConnectLinkCarriesUser` | app/handlers.py:57-59 | the connect message embeds the user's id in decimal, and reading that part back gives the id |
| `Handlers.ConnectMessageInjective` | app/handlers.py:57-59 | two users never receive the same connect message |
| `Handlers.SlotButtons` | app/handlers.py:76-79 | one button per slot, in order, labelled with the slot and carrying `"book:" + slot` |
| `Handlers.EncodeCallback` | app/handlers.py:77 | the callback data starts with `book:` and the slot is exactly what follows |
| `Handlers.DecodeCallback` | app/handlers.py:87 | `split("book:")[1]` raises `IndexError` exactly when the data does not contain `book:` |
| `Handlers.DecodeAccepted` | app/handlers.py:85-87 | for data starting with `book:`, `split("book:")[1]` never raises and gives the text after the prefix up to the next `book:`: a prefix of that text with no `book:` in it, followed in the data by a `book:` when there is one, and all of it when there is none |
| `Handlers.DecodeEncode` | app/handlers.py:77-87 | decoding a button's data gives its slot back, for any slot not containing `book:` |
| `Handlers.DecodeEncodePrefix` | app/handlers.py:77-87 | for any slot, decoding its button's data gives a prefix of the slot |
| `Handlers.SlotButtonsDecode` | app/handlers.py:76-87 | for slots that do not contain `book:`, pressing any button of the keyboard selects exactly the slot it is labelled with |
| `Handlers.IsStartCommand` | app/handlers.py:34 | the `CommandStart()` filter accepts the text exactly when its first word is `/start`: the text begins with `/start` and ends there or continues with a space |
| `Handlers.Conversation.constructor` | app/handlers.py:16-18 | a user the storage has not seen has no state, no data and no messages |
| `Handlers.Conversation.StartCommand` | app/handlers.py:34-41 | `/start` empties the data, sends the language prompt with the three-label keyboard, and leaves the state `language` |
| `Handlers.Conversation.SetLanguage` | app/handlers.py:43-83 | an unknown label re-prompts and changes neither state nor data; a known label records exactly its code under `language`; without a token the connect link is sent and the state stays `language`; after the fetching notice, an error or an empty list each add one message and the state stays `language`; a non-empty list sends one button per slot and the state becomes `choosing_time`, which happens in no other case |
| `Handlers.Conversation.UserSelectedTime` | app/handlers.py:85-96 | a selection stores the decoded slot under `slot`, sends the confirmation containing it and the payment placeholder, and leaves the state as it was |
| `Handlers.Conversation.OnMessage` | app/handlers.py:34-44 | `/start` is handled in every state; other text is handled only in state `language` and is otherwise ignored; only a message in state `language` can lead to `choosing_time` |
| `Handlers.Conversation.OnCallback` | app/handlers.py:85-88 | button presses never change the state; data without the `book:` prefix is ignored; data with it always decodes and is stored under `slot` |
| `Handlers.ScenarioNotConnected` | app/handlers.py:34-62 | `/start` and then English with no stored token sends the prompt and then the connect link, with no slot buttons, and the state stays `language` |
| `Handlers.ScenarioTwoSlots` | app/handlers.py:34-83 | `/start` and then Russian, with a token and two slots returned, records `ru`, ends in `choosing_time` and sends exactly two buttons labelled with those slots |
| `Handlers.ScenarioSelect` | app/handlers.py:85-96 | pressing the button for `2025-01-10 09:00` confirms that literal slot, sends the payment placeholder, and stores the slot |

## Findings

| source | as written | input that shows it | evidently intended | confidence | as-written member | corrected member |
|---|---|---|---|---|---|---|
| app/database.py:30 | `session.get(CalendlyToken, telegram_user_id)` in `save_token` and `get_token` (line 41) looks the row up by primary key `id`, but the new row gets its `id` from the sequence | empty table; `save_token(42, "tok")` inserts `{id 1, telegram_user_id 42}`; `get_token(42)` returns none, so the user is asked to connect again; a second `save_token(42, "tok2")` misses again and its insert fails the unique constraint on commit | look up and upsert by `telegram_user_id` | high, not executed | `TokenStore.SaveThenGetMissesExample` | `TokenStore.SaveForUserThenGet` |
| app/database.py:30-32 | the same by-`id` lookup hits a row that belongs to someone else when a Telegram id equals another row's `id` | row `{id 1, telegram_user_id 42, "a"}`; Telegram user 1 calls `save_token(1, "b")`, which overwrites user 42's token; `get_token(1)` hands user 42's token to user 1 | look up and upsert by `telegram_user_id`, so other users' rows are never touched | high, not executed | `TokenStore.SaveHitsOtherUserExample` | `TokenStore.SaveForUserThenGet` |

Both defects are latent in this repository. Nothing in it calls `save_token`: the OAuth callback in `app/calendly_oauth.py` leaves saving the token as a TODO at line 49. So the table is only ever read, and the effects above would show once a caller saves tokens.

The handlers take the lookup's outcome as an input, so they are unaffected by which lookup is used. `TokenTable` provides both versions: `GetToken`/`SaveToken` as written, and `GetTokenForUser`/`SaveTokenForUser` as intended.

## Left out

- `app/main.py` (startup, environment loading, logging, polling, the health endpoint) is plumbing and is not modelled.
- `app/calendly_oauth.py` is not part of this model. It sends no `state` parameter and never saves the token, so the code has no identity correlation or token persistence to model.
- HTTP, JSON and the clock: the requests are function parameters and "now" is an integer number of microseconds. The ISO rendering of the window's ends (`isoformat() + "Z"`) is left out. So are transport and JSON-decoding failures, and a `KeyError` on a record without `uri` or `start_time`. `set_language` would catch any of these and show its text, but the model's error type has only the three exceptions `get_user_slots` raises itself.
- `created_at`, a server-side default timestamp, is not stored. The 32-bit range of the `Integer` primary key is not modelled. On PostgreSQL, a lookup with a Telegram id above 2^31−1 raises an error instead of missing; in `set_language` (app/handlers.py:53) that lookup sits outside the `try`, so such a user gets no reply, where the model treats the lookup as a miss. Some engines consume a sequence value on a failed insert; this is not modelled either, and the id sequence advances only on a successful insert.
- SQLAlchemy sessions, `init_db`'s schema creation, async/await and concurrency between handlers are left out. Each handler is one atomic sequential step, and one `Conversation` object stands for one user's slot in the dispatcher's storage.
- aiogram details that are not modelled:
  - the `/start@botname` form of the command, and whitespace other than a space after `/start`;
  - messages without text, and captions: aiogram's command filters also read a media caption, so a photo captioned `/start` restarts the flow too, which the model does not cover;
  - callbacks without data;
  - the keyboard's `resize_keyboard`/`one_time_keyboard` flags and HTML parse mode (the messages are kept as plain strings);
  - Telegram's 64-byte limit on callback data.
- Handlers.Conversation.OnMessage: its contract does not restate what `set_language` does in state `language`. `Handlers.Conversation.SetLanguage` states that case.
- Calendly.GetUserSlots: its own contract states only the bound and the character properties. The full outcome is stated by `Calendly.EventTypeFailureStops` and `Calendly.AvailabilityOutcome`.
