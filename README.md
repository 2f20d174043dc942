# Aternos Discord bot — a Dafny model of its core

`bot.py` is a Discord bot that lets each Discord server (a *guild*) control
its own Aternos Minecraft server. Under the Discord and `python_aternos`
glue sits a small layer of logic, and this project models that layer:

- **Credential store.** The file `server_credentials.json` maps `str(guild_id)` to `{username, password}`. The model reads and writes it (`get_server_credentials`, `set_server_credentials`). `!username` and `!password` each update one field and keep the other.
- **The credential guard.** `connect_to_aternos` and `!setup-test` refuse to log in unless both fields are non-empty. A successful connection records the account's first server in the per-guild registries `server_clients` and `server_servers`.
- **`!start`.** It does nothing when the server is already `online` or `starting`. Otherwise it issues one start call. It then polls at most 60 times, stops at the first `online` reading, and makes one final fetch when the checks run out.
- **`!stop`.** It issues no stop call when the server is `offline` or `stopping`, and exactly one call otherwise.
- **`!status`.** It derives the online player count and the `online/max` player display, and looks the status up in the emoji and label tables with their fallbacks.

The Aternos server is an oracle (`Aternos.Server`):
- `script` is a fixed sequence of observations. Fetch number `k` reads `script[k]`. That observation is either a snapshot of the server's attributes or `Raised`, meaning the call threw.
- `startRaises` and `stopRaises` script the successive `start()` and `stop()` calls: entry `k` says whether call number `k` throws. As with fetches, a call past the end of its script throws.
- Counters record how many fetches, starts and stops have been made.

Every command is specified by a function of the script: `StartRun`, `StopRun`, `StatusRun`, and `Poll` for the loop. The methods that run the command against a `Server` are proved to do exactly what those functions say. The lemmas then prove the properties the code promises.

Modules:

| file | module | contents |
|---|---|---|
| `wrappers.dfy` | `Wrappers` | `Option` |
| `text.dfy` | `Text` | decimal `str(n)` with its parser, ASCII `str.upper()` |
| `credentials.dfy` | `Credentials` | the credential file as a map |
| `aternos.dfy` | `Aternos` | the server oracle: snapshots, observations, `Server` |
| `display.dfy` | `Display` | player count and display, the emoji and label tables |
| `lifecycle.dfy` | `Lifecycle` | `!start` (with its poll loop), `!stop` and `!status` on a known server |
| `bot.dfy` | `Bot` | the bot's state and its commands |

Two things the code does that are easy to miss are proved here:
- `Bot.Bot.TestSetup` never gives the reply "Credentials valid but no servers found". `connect_to_aternos` returns true only after it has stored the guild's server, so that branch (`bot.py:227-228`) cannot be reached. With credentials set, a login that is refused and an account with no servers both get the "invalid credentials" reply.
- When all 60 checks miss `online` and the final fetch reads it, `!start` ends without editing its message (`bot.py:338`). The model calls this outcome `OnlineAtFinalFetch`.

## Model

| member | source | states |
|---|---|---|
| Text.Digits | bot.py:43 | `str(n)` for a natural number: at least one digit, all digits, no leading zero |
| Text.IntText | bot.py:405 | `str(i)` for an integer: non-empty, and it starts with a digit exactly when `i >= 0` |
| Text.NatTextRoundTrip | bot.py:43 | `str(n)` parses back to `n` |
| Text.IntTextRoundTrip | bot.py:405 | `str(i)` parses back to `i`, negative numbers included |
| Text.DigitsInjective | bot.py:48 | distinct guild ids have distinct keys `str(guild_id)` |
| Text.Upper | bot.py:328 | `str.upper()` keeps the length and upper-cases each ASCII lower-case letter, leaving other characters alone |
| Text.UpperIsUpperCase | bot.py:419 | the upper-cased status has no lower-case letter, and upper-casing twice changes nothing |
| Credentials.Key | bot.py:43 | the key `str(guild_id)` reads back as the guild id |
| Credentials.GetServerCredentials | bot.py:40-43 | the stored record, and the empty record exactly when the guild has no entry |
| Credentials.SetServerCredentials | bot.py:45-52 | after a store the file's keys are the old keys plus `str(guild_id)` |
| Credentials.GetAfterSet | bot.py:45-52 | the guild written then reads exactly `{username, password}`; every other guild reads what it read before |
| Credentials.SetUsernameKeepsPassword | bot.py:195 | `!username` keeps the stored password, or `''` when none was stored, and touches no other guild |
| Credentials.SetPasswordKeepsUsername | bot.py:205 | `!password` keeps the stored username, or `''` when none was stored, and touches no other guild |
| Credentials.SetUsername | bot.py:195 | the file after `!username u`: the guild's entry becomes `u` with the stored password, or `''` when the guild had no entry (`.get('password', '')`); the keys gain `str(guild_id)` and no other entry changes |
| Credentials.SetPassword | bot.py:205 | the file after `!password p`: the guild's entry becomes the stored username, or `''` when the guild had no entry (`.get('username', '')`), with `p`; the keys gain `str(guild_id)` and no other entry changes |
| Credentials.GuardPassesExactlyWhenBothStored | bot.py:56-58 | the guard `Ready` (also bot.py:215-216) passes exactly when the guild has an entry whose username and password are both non-empty |
| Credentials.SetupSequenceReady | bot.py:188-206 | `!username u` then `!password p` stores exactly `{u, p}`, and the guard passes exactly when both are non-empty |
| Aternos.Server.constructor | bot.py:66 | a server handle with its fetch, start and stop scripts and no call made yet |
| Aternos.Server.Fetch | bot.py:284 | `fetch()` consumes one observation, succeeds exactly when it is not a raise, and updates the attributes only on success |
| Aternos.Server.Start | bot.py:298 | `start()` counts one start call and succeeds exactly when the start script does not make that call raise |
| Aternos.Server.Stop | bot.py:367 | `stop()` counts one stop call and succeeds exactly when the stop script does not make that call raise |
| Display.PlayersOnline | bot.py:392-396 | online players are the length of `players_list` when it is a list, else 0 |
| Display.PlayersDisplay | bot.py:398-405 | the online count alone when `players_count` is unknown (zero shows as `0`), otherwise `online/max` |
| Display.PlayersDisplayRoundTrip | bot.py:398-405 | the player display reads back as the count and the maximum it was made from |
| Display.StatusEmoji | bot.py:407-412 | the emoji is `⚪` exactly when the status is not one of the four known statuses |
| Display.StatusEmojiIdentifiesKnownStatus | bot.py:407-412 | a known status is the only status that gets its emoji |
| Display.StatusLabel | bot.py:414-419 | a non-empty label: an unknown status is shown upper-cased, an empty one as `UNKNOWN` |
| Display.UnknownStatusShownUpperCase | bot.py:407-419 | an unknown non-empty status gets `⚪` and a label of the same length with no lower-case letter |
| Display.ProgressLabel | bot.py:325-329 | the status text while polling is never empty |
| Display.ProgressLabelIsUpperOrUnknown | bot.py:325-329 | the `starting` special case shows what the general rule shows: the status upper-cased, or `UNKNOWN` when empty |
| Display.ProgressTexts | bot.py:325-329 | one text per status shown while polling: that status upper-cased, or `UNKNOWN` when it is empty |
| Display.FinalLabel | bot.py:336-339 | the status after the poll gives up: `STARTING` when empty, otherwise `final_status.upper()`, which has the same length and no lower-case letter |
| Lifecycle.Poll | bot.py:304-339 | the loop makes more checks than it has already made and at most 60 plus the final fetch; the statuses shown only grow, one per waiting check; `Started(n)` is reached at check `n`; the final-fetch outcomes only after all 60 checks |
| Lifecycle.PollEndsAtFirstNonWaiting | bot.py:307-322 | the loop ends at the first check that does not read a non-`online` status: `Started` there on `online`, failure on a raise |
| Lifecycle.PollStartedMeansFirstOnline | bot.py:319-322 | `Started(n)` means check `n` read `online` and every earlier check read another status |
| Lifecycle.PollTimesOut | bot.py:335-339 | with no `online` and no raise in 60 checks, exactly one more fetch is made, and it alone decides the outcome |
| Lifecycle.PollShowsWaitingStatuses | bot.py:324-333 | the statuses shown are exactly the non-`online` readings of the checks, in order |
| Lifecycle.ShownBeforeAt | bot.py:324-333 | status number `i` shown is the one check number `i` read |
| Lifecycle.PollShowsReadings | bot.py:307-333 | each status the poll shows is the reading of the check with the same number, and that check neither read `online` nor raised |
| Lifecycle.PollStillStartingReadsFinalFetch | bot.py:335-339 | `StillStarting(s)` means the final fetch after all 60 checks read `s`, which is not `online` |
| Lifecycle.StartRun | bot.py:282-342 | at most one start call, and one exactly when the first fetch reads neither `online` nor `starting`; otherwise a single fetch, with `AlreadyOnline`/`AlreadyStarting` exactly for those readings; `StartFailed` when the first fetch or the start call raises (bot.py:341-342); after a successful start the outcome, the statuses shown and 1 + the fetches are those of `Poll`; at most 62 fetches |
| Lifecycle.StartWithoutOnlineUsesAllChecks | bot.py:298-339 | a start whose 60 checks neither read `online` nor raise makes 1 + 60 + 1 fetches and one start call, and does not report `Started` |
| Lifecycle.StartShowsProgress | bot.py:307-333 | each status text `!start` writes while polling is the reading of its check (never `online`), upper-cased, or `UNKNOWN` when empty |
| Lifecycle.StartShowsFinalStatus | bot.py:335-339 | when `!start` gives up it shows the final fetch's status (not `online`), upper-cased, or `STARTING` when empty |
| Lifecycle.PollUntilOnline | bot.py:304-339 | the loop's outcome, the statuses it shows and the fetches it makes are those `Poll` gives; no start or stop call |
| Lifecycle.RunStart | bot.py:282-342 | `start_server` on a known server does exactly what `StartRun` says, fetches and start calls included |
| Lifecycle.StopRun | bot.py:354-370 | one fetch, and a stop call exactly when the status read is neither `offline` nor `stopping`; `AlreadyOffline` exactly for `offline`, `AlreadyStopping` exactly for `stopping`, `StopFailed` exactly when the fetch or the stop call raises, `Stopped` otherwise |
| Lifecycle.RunStop | bot.py:354-370 | `stop_server` on a known server does exactly what `StopRun` says |
| Lifecycle.StatusRun | bot.py:382-426 | a report exactly when the fetch succeeds, with a player display that reads back as (online players, `players_count`), the `⚪` emoji exactly for unknown statuses, and as label an unknown status upper-cased, or `UNKNOWN` when empty |
| Lifecycle.RunStatus | bot.py:382-426 | `server_status` on a known server makes one fetch and replies what `StatusRun` says |
| Bot.Bot.constructor | bot.py:24-26 | the bot starts with the stored credentials and empty registries |
| Bot.Bot.SetServerCredentials | bot.py:45-52 | the file becomes `Credentials.SetServerCredentials` of the old file, and nothing else changes |
| Bot.Bot.SetUsername | bot.py:188-196 | outside `server-setup` nothing changes; inside it the username is replaced and the password kept |
| Bot.Bot.SetPassword | bot.py:198-206 | outside `server-setup` nothing changes; inside it the password is replaced and the username kept |
| Bot.Bot.ConnectToAternos | bot.py:54-73 | with a missing or empty field: false, no login attempt, and neither the bot nor the account's first server changes. Otherwise one login attempt and, when the account has a server, exactly one fetch of its first server and no start or stop. True exactly when login succeeds, the account has a server and its fetch succeeds; then both registries map the guild to that session and server, and on false they are unchanged |
| Bot.Bot.TestSetup | bot.py:208-230 | outside `server-setup` or with missing credentials neither the bot nor the account's first server changes. Otherwise one login attempt and at most one fetch, and the reply is "valid" exactly when the connection succeeds. Then the registries gain exactly this guild's session and server, and the reply carries `getattr(server, 'address', 'Server')` (bot.py:225). The reply is "invalid credentials" otherwise, including for an account with no servers; never "valid but no servers found" |
| Bot.Bot.Start | bot.py:272-280 | "not configured" exactly when the guild has no client; otherwise `StartRun` on the guild's own server, and no other guild's server is touched |
| Bot.Bot.Stop | bot.py:344-352 | "not configured" exactly when the guild has no client; otherwise `StopRun` on the guild's own server, and no other guild's server is touched |
| Bot.Bot.Status | bot.py:372-380 | "not configured" exactly when the guild has no client; otherwise the reply is `StatusRun` of one fetch of the guild's own server, and no other guild's server is touched |

## Left out

- Discord front end. Event handlers `on_ready`, `on_guild_join`, `!create-setup-channel` and `!invite` are not modelled, nor the text of embeds and messages. `on_ready` connecting every guild at start-up is `Bot.Bot.ConnectToAternos` applied to each guild in turn. The model keeps each reply's decision, not its wording.
- JSON file I/O. `load_credentials` and `save_credentials` become one in-memory map update. A missing file reads as the empty map. Hand-edited files whose records lack a field, or hold a non-string, are not modelled.
- The `python_aternos` library. It is not part of this model. `Client()`, `login` and `list_servers` become a `Login` value: refused, or an account with its servers. `fetch`, `start` and `stop` become the scripted `Server` oracle: each fetch reads the next observation, and each start or stop call raises or not as its own script says. The attributes read after a fetch are limited to `status`, `players_count`, `players_list` and `address`.
- Timing. `asyncio.sleep` (bot.py:301, bot.py:332) is left out; only the number of checks matters.
- Error text. An exception from any library call ends the command with a failure outcome (`StartFailed`, `StopFailed`, `StatusFailed`, or false from a connection). The text printed or sent is not modelled.
- Failing Discord calls. A Discord send or edit that raises inside `start_server`'s `try` (bot.py:295, bot.py:321-339) would also end the command early. The model assumes Discord sends and edits always succeed.
- Process bootstrap and the start-up banner (bot.py:458-472) are not modelled, nor the `.env` token.
- Text.Upper: models `str.upper()` on ASCII letters only; other characters are left unchanged, so a mapping that changes the length (`'ß'` to `'SS'`) is not modelled.
- A `status` of `None` is modelled as the empty string. Both print as `UNKNOWN` (or `STARTING` after the poll).
- `players_count` is modelled as an optional integer. A non-integer value is not modelled.
- Concurrency between commands. Two commands interleaving at an `await` are not modelled; each command runs to completion on its own.
