# DC Now, modelled in Dafny

openMenu's DC Now feature shows live player counts from the `dreamcast.online`
status service on the menu and on the VMU screens. This project models its four
sequential pieces and proves what each of them promises:

- **The tolerant JSON scanner** (`dcnow_json.c`, module `DcnowJson` in `json.dfy`).
  It is an allocation-free decoder for
  `{"total_players":N,"games":[{"name":..,"players":..},..]}`. It walks a cursor over
  a NUL-terminated buffer, finds quoted keys by their text, copies bounded strings
  through a small escape table, skips elements by counting brace depth and caps the
  number of games. Every C loop is a method. Each method is proved equal to a
  specification function (`SkipWs`, `NumberAt`, `StringAt`, `FindKeyFrom`,
  `ObjectEnd`, `ScanElements`, `Decode`). The scanner's promises are lemmas about
  those functions.
- **Fetch post-processing and the result cache** (`dcnow_api.c`, module `DcnowApi`
  in `api.dfy`). The network side of `http_get_request` is an oracle. The connection
  phase is summarised by the reply it yields (`HttpReply`). The receive loop reads a
  list of polls, each carrying a timer reading and what `select`/`recv` delivered.
  `dcnow_fetch_data` is the function `Fetch` and the method `DcnowState.FetchData`.
  The module statics `cached_data`, `cache_valid` and `network_initialized` are the
  fields of the class `DcnowState`.
- **The connect sequence** (`dcnow_net_init.c`, module `DcnowNetInit` in
  `net_init.dfy`). The network, modem and PPP drivers are a `Driver` object. It
  answers each call from an environment (`Env`) and appends the call to a log. The
  bring-up is proved to return `InitCode(e)` having made exactly the calls
  `InitCalls(e)`. The step order, the error codes, the teardown discipline and the
  bound on the link-up wait are lemmas about these two functions.
- **The VMU bitmap** (`dcnow_vmu.c`, module `DcnowVmu` in `vmu.dfy`). The 192-byte,
  180°-rotated one-bit framebuffer is an `array<bv8>` of the class `Vmu`, together
  with the spinner frame and the `dcnow_vmu_active` flag. Each drawing routine is
  proved equal to a function on the byte sequence. That function's effect is then
  stated pixel by pixel, because every bit of the bitmap is exactly one pixel
  (`BitsArePixels`).

`cstrings.dfy` (module `CStrings`) holds the C-string vocabulary shared by the four
modules. It has the `<ctype.h>` classes and the `strchr`, `strstr`, `strncpy` and
`atoi` routines as pure functions, plus `"%d"` rendering.

The buffer sizes set in headers that are not part of this model (`JSON_MAX_GAMES`,
`JSON_MAX_NAME_LEN`, `MAX_DCNOW_GAMES`, `MAX_GAME_NAME_LEN`, `MODEM_MODE_V90`) are
constants with no fixed value. Only their positivity is used.

Two facts about `dcnow_fetch_data` come out of the proofs:

- The `"Invalid JSON data"` branch (-10) can never be taken, because
  `dcnow_json_parse` sets `valid` whenever it returns true (`FetchNeverInvalid`).
  `ProcessPayload` keeps the test and proves the branch dead.
- `game_count` is copied verbatim, even though the copy loop stops at
  `MAX_DCNOW_GAMES` (`CopiedSlots`). When `JSON_MAX_GAMES` exceeds
  `MAX_DCNOW_GAMES`, a record can claim more games than its array holds. The model
  keeps this. `dcnow_vmu_update_display` reads at most three games, and its
  precondition states that those are in the array.

Where the system's design description and the code differ, the model follows the
code:

- A receive timeout with no data returns -6 ("Failed to receive data"). There is no
  separate timeout code.
- The bring-up has no cancellation flag and no separate authentication step. The
  credentials are arguments of `ppp_connect`.
- Only a `bba` device, or a `ppp` device whose link is up, counts as "already
  active". Any other device, or no device, returns 0 without dialling.
- An array element with unbalanced braces is still counted. The brace scan then stops
  at the terminator.

## Model

| member | source | states |
|---|---|---|
| `DcnowJson.SkipWs` | openMenu/src/openmenu/src/dcnow/dcnow_json.c:8-13 | the skip stops on a character that is not white space, within the string; the terminator always stops it |
| `DcnowJson.SkipWsStops` | openMenu/src/openmenu/src/dcnow/dcnow_json.c:8-13 | the skip stops at or before any non-blank character after the cursor |
| `DcnowJson.SkipWhitespace` | openMenu/src/openmenu/src/dcnow/dcnow_json.c:8-13 | the cursor loop ends exactly where `SkipWs` says |
| `DcnowJson.NumberAt` | openMenu/src/openmenu/src/dcnow/dcnow_json.c:47-65 | a number is an optional `-` and at least one digit; on success the cursor ends after the maximal digit run, on a non-digit |
| `DcnowJson.ParseNumber` | openMenu/src/openmenu/src/dcnow/dcnow_json.c:47-65 | `parse_number` returns the decimal value of the digit run, negated after `-`, and fails without a digit |
| `DcnowJson.ReadDigits` | openMenu/src/openmenu/src/dcnow/dcnow_json.c:58-61 | the digit loop accumulates the decimal value of the maximal run of digits and stops on the first non-digit |
| `DcnowJson.NumberRoundTrip` | openMenu/src/openmenu/src/dcnow/dcnow_json.c:47-65 | reading back any integer written with `"%d"` gives the integer and the cursor after it |
| `DcnowJson.LiteralBody` | openMenu/src/openmenu/src/dcnow/dcnow_json.c:19-44 | a decoded literal holds no NUL and ends after a closing quote; a terminator, even straight after a backslash, fails it |
| `DcnowJson.StringAt` | openMenu/src/openmenu/src/dcnow/dcnow_json.c:15-45 | `parse_string` needs an opening quote; an accepted text is shorter than the buffer and holds no NUL |
| `DcnowJson.ParseString` | openMenu/src/openmenu/src/dcnow/dcnow_json.c:15-45 | succeeds exactly when `StringAt` does; then the decoded text is in the buffer, NUL-terminated, and the cursor is after the closing quote |
| `DcnowJson.LiteralRoundTrip` | openMenu/src/openmenu/src/dcnow/dcnow_json.c:20-37 | the escape table reads `\n \t \r \" \\` back as the characters they stand for |
| `DcnowJson.StringRoundTrip` | openMenu/src/openmenu/src/dcnow/dcnow_json.c:15-45 | an escaped literal is read back exactly when its text fits `max_len - 1` characters; a longer one fails rather than being cut |
| `DcnowJson.KeyAtCursor` | openMenu/src/openmenu/src/dcnow/dcnow_json.c:74-80 | the `strchr`/`strncmp` test is true exactly when a quoted token of exactly the key's text starts at the cursor |
| `DcnowJson.FindKeyFrom` | openMenu/src/openmenu/src/dcnow/dcnow_json.c:67-95 | a found value position lies after the search start and within the string (scan stopped at the terminator) |
| `DcnowJson.FindKey` | openMenu/src/openmenu/src/dcnow/dcnow_json.c:67-95 | the cursor loop of `find_key` returns what `FindKeyFrom` gives |
| `DcnowJson.FindKeyFirst` | openMenu/src/openmenu/src/dcnow/dcnow_json.c:67-95 | the first quoted occurrence of the key followed by `:` decides; the result is the value position after the colon and white space |
| `DcnowJson.FindKeyAbsent` | openMenu/src/openmenu/src/dcnow/dcnow_json.c:71-94 | without a quoted occurrence of the key, `find_key` returns NULL |
| `DcnowJson.FindKeySound` | openMenu/src/openmenu/src/dcnow/dcnow_json.c:74-86 | every result follows a quoted token of exactly the key (so `players` never matches `total_players`), a colon and white space |
| `DcnowJson.FindKeyAsWrittenAgrees` | openMenu/src/openmenu/src/dcnow/dcnow_json.c:71-92 | the C scan agrees with the corrected one whenever the key is found; otherwise it misses or reads past the terminator |
| `DcnowJson.FindKeyAsWrittenOverruns` | openMenu/src/openmenu/src/dcnow/dcnow_json.c:72-91 | on input ending in white space without the key, the unconditional `search++` steps past the terminator |
| `DcnowJson.FindKeyOverrunExample` | openMenu/src/openmenu/src/dcnow/dcnow_json.c:72-91 | for `"{ "` and the key `games`, the corrected scan misses cleanly and the C scan reads past the end |
| `DcnowJson.ObjectEnd` | openMenu/src/openmenu/src/dcnow/dcnow_json.c:164-169 | the brace scan ends within the string, at or after its start |
| `DcnowJson.SkipObject` | openMenu/src/openmenu/src/dcnow/dcnow_json.c:164-169 | the `brace_count` loop ends exactly where `ObjectEnd` says |
| `DcnowJson.ObjectEndBalanced` | openMenu/src/openmenu/src/dcnow/dcnow_json.c:164-169 | from any depth reached inside an element, the scan stops after the `}` that brings the depth to 0, or on the terminator with the depth still positive |
| `DcnowJson.SkipObjectBalanced` | openMenu/src/openmenu/src/dcnow/dcnow_json.c:164-169 | from just after an element's `{`, the scan stops right after the matching `}`, or on the terminator of an unclosed element |
| `DcnowJson.NameField` | openMenu/src/openmenu/src/dcnow/dcnow_json.c:146-152 | a game's name fits `JSON_MAX_NAME_LEN` with its terminator and holds no NUL |
| `DcnowJson.NameAt` | openMenu/src/openmenu/src/dcnow/dcnow_json.c:147-152 | the name read at a value position fits the buffer; a failed literal leaves it empty |
| `DcnowJson.NextElement` | openMenu/src/openmenu/src/dcnow/dcnow_json.c:163-177 | scanning resumes after the element's matching `}`, white space and an optional comma, never before the element |
| `DcnowJson.ElementStarts` | openMenu/src/openmenu/src/dcnow/dcnow_json.c:132-178 | the game loop reads at most `JSON_MAX_GAMES` elements; the ones after the cap are dropped |
| `DcnowJson.ElementStartsBodies` | openMenu/src/openmenu/src/dcnow/dcnow_json.c:137-140 | every element the loop reads opens with `{` |
| `DcnowJson.ElementStartsStop` | openMenu/src/openmenu/src/dcnow/dcnow_json.c:135-139 | an element whose first non-blank is not `{` ends the list |
| `DcnowJson.ZeroGames` | openMenu/src/openmenu/src/dcnow/dcnow_json.c:102 | after the memset every slot holds an empty name and 0 players |
| `DcnowJson.ScanElementsStarts` | openMenu/src/openmenu/src/dcnow/dcnow_json.c:133-178 | the loop reads exactly the listed elements, after those it has already read |
| `DcnowJson.Slots` | openMenu/src/openmenu/src/dcnow/dcnow_json.c:143 | the games array always has `JSON_MAX_GAMES` slots |
| `DcnowJson.SlotsSnoc` | openMenu/src/openmenu/src/dcnow/dcnow_json.c:143-161 | reading one more element writes the next slot and no other |
| `DcnowJson.GameStarts` | openMenu/src/openmenu/src/dcnow/dcnow_json.c:122-134 | the elements of the `games` array number at most `JSON_MAX_GAMES` |
| `DcnowJson.ArrayStarts` | openMenu/src/openmenu/src/dcnow/dcnow_json.c:123-134 | a missing key or a value not opening with `[` gives no elements; there are never more than `JSON_MAX_GAMES` |
| `DcnowJson.Decode` | openMenu/src/openmenu/src/dcnow/dcnow_json.c:97-184 | the parse succeeds exactly when the first non-blank is `{`; success sets `valid` with `0 <= game_count <= JSON_MAX_GAMES`; failure leaves the zeroed record |
| `DcnowJson.DecodeFrom` | openMenu/src/openmenu/src/dcnow/dcnow_json.c:106-183 | the same, from the first non-blank character |
| `DcnowJson.JsonRecord.constructor` | openMenu/src/openmenu/src/dcnow/dcnow_json.c:102 | a fresh record holds the zeroed value |
| `DcnowJson.NumberAfterKey` | openMenu/src/openmenu/src/dcnow/dcnow_json.c:113-119 | a number field is the number after the key, and 0 when the key is missing or no number follows it |
| `DcnowJson.ParseGame` | openMenu/src/openmenu/src/dcnow/dcnow_json.c:145-161 | the `name` and `players` lookups of one element give `GameAt`; a failed name is left empty |
| `DcnowJson.ReadGameInto` | openMenu/src/openmenu/src/dcnow/dcnow_json.c:143-161 | the element's game is written into the next slot; the slots already read stay |
| `DcnowJson.SkipElement` | openMenu/src/openmenu/src/dcnow/dcnow_json.c:163-177 | the end of the loop body resumes where `NextElement` says |
| `DcnowJson.ParseGames` | openMenu/src/openmenu/src/dcnow/dcnow_json.c:132-180 | the game loop fills exactly the slots of the elements it reads and returns their count |
| `DcnowJson.ParseObject` | openMenu/src/openmenu/src/dcnow/dcnow_json.c:112-183 | after the `{`, the zeroed record becomes `ObjectValue`: `total_players`, the games of the `games` array and `valid` |
| `DcnowJson.Parse` | openMenu/src/openmenu/src/dcnow/dcnow_json.c:97-184 | a null argument returns false and writes nothing; otherwise the return value and the record are `Decode`'s |
| `DcnowJson.ObjectSlot` | openMenu/src/openmenu/src/dcnow/dcnow_json.c:143-180 | slot `i < game_count` holds the game of the i-th element of the array, which opens with `{`; later slots stay empty |
| `DcnowJson.ObjectWithoutGamesKey` | openMenu/src/openmenu/src/dcnow/dcnow_json.c:121-127 | without a `games` key the parse succeeds with no games, and `total_players` is still read |
| `DcnowJson.ObjectGamesNotArray` | openMenu/src/openmenu/src/dcnow/dcnow_json.c:122-127 | the same when the value of `games` does not open with `[` |
| `DcnowJson.NumberFieldFirstKey` | openMenu/src/openmenu/src/dcnow/dcnow_json.c:113-119 | a number field is read after the first quoted occurrence of its key; a failed number leaves 0 |
| `DcnowJson.NumberFieldMissing` | openMenu/src/openmenu/src/dcnow/dcnow_json.c:113-119 | a number field whose key does not occur stays 0 |
| `DcnowJson.NameFieldFirstKey` | openMenu/src/openmenu/src/dcnow/dcnow_json.c:146-152 | a game's name comes from the first `name` key after its `{`, which may belong to a later element; a literal that does not fit leaves it empty |
| `DcnowJson.GameFieldsMissing` | openMenu/src/openmenu/src/dcnow/dcnow_json.c:145-161 | an element with neither key after it still fills a slot, which keeps `""` and 0 |
| `CStrings.StrChr` | openMenu/src/openmenu/src/dcnow/dcnow_json.c:76 | `strchr` finds the first occurrence of the character before the terminator, or none |
| `CStrings.StrStr` | openMenu/src/openmenu/src/dcnow/dcnow_api.c:210 | `strstr` finds the first occurrence of the pattern, which ends before the terminator, or none |
| `CStrings.DigitRunEnd` | openMenu/src/openmenu/src/dcnow/dcnow_json.c:58-61 | the maximal run of digits ends on a non-digit |
| `CStrings.AtoiRoundTrip` | openMenu/src/openmenu/src/dcnow/dcnow_api.c:225 | `atoi` reads back what `"%d"` writes |
| `CStrings.CStrView` | openMenu/src/openmenu/src/dcnow/dcnow_api.c:254-255 | a buffer read as a C string is its text before the first NUL |
| `DcnowApi.EmptyGames` | openMenu/src/openmenu/src/dcnow/dcnow_api.c:186 | the zeroed games array has `MAX_DCNOW_GAMES` empty slots |
| `DcnowApi.Elapsed` | openMenu/src/openmenu/src/dcnow/dcnow_api.c:138 | the elapsed time is computed on 64-bit unsigned integers |
| `DcnowApi.Receive` | openMenu/src/openmenu/src/dcnow/dcnow_api.c:137-176 | the bytes kept never exceed `buf_size - 1` and extend what was already received; the loop fails only on a recv error before any byte |
| `DcnowApi.ReceiveResponse` | openMenu/src/openmenu/src/dcnow/dcnow_api.c:134-176 | the loop returns the byte count, or -6 when there is none; the bytes are in the buffer and the terminator write is in bounds |
| `DcnowApi.CopyInto` | openMenu/src/openmenu/src/dcnow/dcnow_api.c:151-152 | recv's write appends the data after the bytes already in the buffer |
| `DcnowApi.ReceivePrefix` | openMenu/src/openmenu/src/dcnow/dcnow_api.c:151-155 | no byte is lost or reordered: what is kept is a prefix of what the peer sent |
| `DcnowApi.ReceiveWhole` | openMenu/src/openmenu/src/dcnow/dcnow_api.c:154-156 | data resets the idle clock: a stream that keeps arriving in time and fits is received whole, however long it takes |
| `DcnowApi.Failure` | openMenu/src/openmenu/src/dcnow/dcnow_api.c:186-205 | a failed fetch leaves the zeroed record with `data_valid` false |
| `DcnowApi.Strncpy` | openMenu/src/openmenu/src/dcnow/dcnow_api.c:254-255 | the copied name is a prefix of the source text, cut to the given length, without NUL |
| `DcnowApi.CopyGame` | openMenu/src/openmenu/src/dcnow/dcnow_api.c:254-257 | the name fits `MAX_GAME_NAME_LEN` and prefixes the scanned one; the count is copied and `is_active == (players > 0)` |
| `DcnowApi.CopiedGames` | openMenu/src/openmenu/src/dcnow/dcnow_api.c:253-258 | the copied games array has `MAX_DCNOW_GAMES` slots |
| `DcnowApi.CopiedSlots` | openMenu/src/openmenu/src/dcnow/dcnow_api.c:250-258 | games are copied for `i < min(game_count, MAX_DCNOW_GAMES)`, the rest stay empty, and `total_players` and `game_count` are copied verbatim |
| `DcnowApi.Fetch` | openMenu/src/openmenu/src/dcnow/dcnow_api.c:186-267 | 0 exactly when `data_valid`; a transport code is returned unchanged with its fixed message; a response gives 0, -7, -8 or -9 |
| `DcnowApi.FetchResponse` | openMenu/src/openmenu/src/dcnow/dcnow_api.c:209-241 | the header and status checks give 0, -7, -8 or -9, with 0 exactly when `data_valid` |
| `DcnowApi.FetchJson` | openMenu/src/openmenu/src/dcnow/dcnow_api.c:235-267 | after the scanner the result is 0, -9 or -10, with 0 exactly when `data_valid` |
| `DcnowApi.FetchNeverInvalid` | openMenu/src/openmenu/src/dcnow/dcnow_api.c:243-247 | the -10 branch is never taken; a payload gives the copied record or -9 |
| `DcnowApi.FetchPayload` | openMenu/src/openmenu/src/dcnow/dcnow_api.c:209-216 | the scanner is given the text starting 4 characters after the first `\r\n\r\n` |
| `DcnowApi.FetchStatus` | openMenu/src/openmenu/src/dcnow/dcnow_api.c:218-233 | a status line `HTTP/1.x <code>` with a code other than 200 gives -8 and `"HTTP error <code>"` |
| `DcnowApi.StatusLine` | openMenu/src/openmenu/src/dcnow/dcnow_api.c:219-225 | the status code is the integer after the first space |
| `DcnowApi.DcnowRecord.constructor` | openMenu/src/openmenu/src/dcnow/dcnow_api.c:186 | a fresh record is the zeroed one |
| `DcnowApi.DcnowRecord.Assign` | openMenu/src/openmenu/src/dcnow/dcnow_api.c:316 | memcpy makes the record equal to the source |
| `DcnowApi.DcnowRecord.Fail` | openMenu/src/openmenu/src/dcnow/dcnow_api.c:212-213 | the failure path sets only the message and clears `data_valid` |
| `DcnowApi.ProcessResponse` | openMenu/src/openmenu/src/dcnow/dcnow_api.c:209-260 | the header split, status check and parse leave the code and record `FetchResponse` gives |
| `DcnowApi.ProcessPayload` | openMenu/src/openmenu/src/dcnow/dcnow_api.c:235-260 | the parse and copy leave the code and record `FetchJson` gives |
| `DcnowApi.StoreResult` | openMenu/src/openmenu/src/dcnow/dcnow_api.c:249-261 | the success path leaves the copied record |
| `DcnowApi.CopyGames` | openMenu/src/openmenu/src/dcnow/dcnow_api.c:253-258 | the copy loop fills the first `min(game_count, MAX_DCNOW_GAMES)` slots |
| `DcnowApi.DcnowState.constructor` | openMenu/src/openmenu/src/dcnow/dcnow_api.c:18-20 | the cache starts zeroed and invalid |
| `DcnowApi.DcnowState.Init` | openMenu/src/openmenu/src/dcnow/dcnow_api.c:22-35 | `dcnow_init` zeroes and invalidates the cache, marks the network ready and returns 0 |
| `DcnowApi.DcnowState.Shutdown` | openMenu/src/openmenu/src/dcnow/dcnow_api.c:44-47 | `dcnow_shutdown` invalidates the cache |
| `DcnowApi.DcnowState.ClearCache` | openMenu/src/openmenu/src/dcnow/dcnow_api.c:320-323 | `dcnow_clear_cache` zeroes and invalidates the cache |
| `DcnowApi.DcnowState.GetCachedData` | openMenu/src/openmenu/src/dcnow/dcnow_api.c:311-318 | true exactly for a non-null record and a valid cache, and then the record is the cached one; otherwise nothing is written |
| `DcnowApi.DcnowState.FetchData` | openMenu/src/openmenu/src/dcnow/dcnow_api.c:180-267 | null data gives -1; otherwise the code and record are `Fetch`'s; a non-zero code leaves the cache unchanged; 0 makes the cache equal to the record |
| `DcnowApi.DcnowState.FetchUnavailable` | openMenu/src/openmenu/src/dcnow/dcnow_api.c:303-306 | the build without networking gives -100 and "Network not available" |
| `DcnowNetInit.FirstLinkUp` | openMenu/src/openmenu/src/dcnow/dcnow_net_init.c:93-108 | the wait ends at the first of the `max_wait` checks that sees the link up, or none does |
| `DcnowNetInit.WaitCalls` | openMenu/src/openmenu/src/dcnow/dcnow_net_init.c:93-119 | each round of the wait that saw the link down makes two calls |
| `DcnowNetInit.WaitCallsStep` | openMenu/src/openmenu/src/dcnow/dcnow_net_init.c:95-112 | a round that sees the link down is a check followed by a 100 ms sleep |
| `DcnowNetInit.Driver.constructor` | openMenu/src/openmenu/src/dcnow/dcnow_net_init.c:18-80 | the drivers answer as the environment says, with an empty call log |
| `DcnowNetInit.Driver.NetInitCall` | openMenu/src/openmenu/src/dcnow/dcnow_net_init.c:18 | `net_init` returns the oracle's answer and is logged |
| `DcnowNetInit.Driver.ModemInitCall` | openMenu/src/openmenu/src/dcnow/dcnow_net_init.c:51 | `modem_init` returns the oracle's answer and is logged |
| `DcnowNetInit.Driver.ModemSetModeCall` | openMenu/src/openmenu/src/dcnow/dcnow_net_init.c:58 | `modem_set_mode` returns the oracle's answer and is logged with its mode |
| `DcnowNetInit.Driver.PppInitCall` | openMenu/src/openmenu/src/dcnow/dcnow_net_init.c:70 | `ppp_init` returns the oracle's answer and is logged |
| `DcnowNetInit.Driver.PppConnectCall` | openMenu/src/openmenu/src/dcnow/dcnow_net_init.c:80 | `ppp_connect` returns the oracle's answer and is logged with its arguments |
| `DcnowNetInit.Driver.LinkCheckCall` | openMenu/src/openmenu/src/dcnow/dcnow_net_init.c:95 | each link-up check consumes the next reading and is logged |
| `DcnowNetInit.Driver.SpinSleepCall` | openMenu/src/openmenu/src/dcnow/dcnow_net_init.c:111 | `timer_spin_sleep` is logged with its duration |
| `DcnowNetInit.Driver.PppShutdownCall` | openMenu/src/openmenu/src/dcnow/dcnow_net_init.c:82 | `ppp_shutdown` is logged |
| `DcnowNetInit.Driver.ModemShutdownCall` | openMenu/src/openmenu/src/dcnow/dcnow_net_init.c:60 | `modem_shutdown` is logged |
| `DcnowNetInit.NetEarlyInit` | openMenu/src/openmenu/src/dcnow/dcnow_net_init.c:12-135 | `dcnow_net_early_init` returns `InitCode` of the environment, having made exactly the calls `InitCalls` lists |
| `DcnowNetInit.Probe` | openMenu/src/openmenu/src/dcnow/dcnow_net_init.c:28-135 | after net_init: bba, an up ppp link, no device or an unknown device return 0 with no call; a down ppp link is dialled |
| `DcnowNetInit.DialUp` | openMenu/src/openmenu/src/dcnow/dcnow_net_init.c:50-130 | the dial-up returns its stage's code, having made its stage's calls |
| `DcnowNetInit.PppDial` | openMenu/src/openmenu/src/dcnow/dcnow_net_init.c:70-130 | from `ppp_init` on, the same |
| `DcnowNetInit.WaitOrTeardown` | openMenu/src/openmenu/src/dcnow/dcnow_net_init.c:89-130 | after the dial: 0 on link-up; else both shutdowns and -7 |
| `DcnowNetInit.WaitForLink` | openMenu/src/openmenu/src/dcnow/dcnow_net_init.c:89-119 | the wait makes rounds until the first check that sees the link up, at most `max_wait` of them |
| `DcnowNetInit.WaitCallsShape` | openMenu/src/openmenu/src/dcnow/dcnow_net_init.c:93-119 | n rounds of the wait check the link n times and bring up or tear down nothing |
| `DcnowNetInit.StepOrder` | openMenu/src/openmenu/src/dcnow/dcnow_net_init.c:18-85 | the bring-up calls always form a prefix of net_init, modem_init, modem_set_mode(V90), ppp_init, ppp_connect |
| `DcnowNetInit.AfterDialLinks` | openMenu/src/openmenu/src/dcnow/dcnow_net_init.c:93-108 | success comes from the first check that sees the link up; a timeout means none of the `max_wait` checks did |
| `DcnowNetInit.Codes` | openMenu/src/openmenu/src/dcnow/dcnow_net_init.c:18-135 | -1 exactly when net_init fails; -3..-7 exactly when modem_init, modem_set_mode, ppp_init, ppp_connect or the wait fails; without a down ppp link only net_init is called |
| `DcnowNetInit.Teardown` | openMenu/src/openmenu/src/dcnow/dcnow_net_init.c:51-130 | modem_shutdown runs once, last, exactly on failures after modem_init; ppp_shutdown runs once, just before it, exactly on failures after ppp_init |
| `DcnowNetInit.WaitBound` | openMenu/src/openmenu/src/dcnow/dcnow_net_init.c:90-130 | at most 300 link-up checks; a success ends on the first check that saw the link up; -7 follows exactly 300 checks that all saw it down |
| `DcnowVmu.Blank` | openMenu/src/openmenu/src/dcnow/dcnow_vmu.c:180 | the memset bitmap is 192 zero bytes |
| `DcnowVmu.BitIndex` | openMenu/src/openmenu/src/dcnow/dcnow_vmu.c:93-98 | the flipped bit index of an on-screen pixel lies within the 192 bytes |
| `DcnowVmu.MaskIsShift` | openMenu/src/openmenu/src/dcnow/dcnow_vmu.c:101-103 | the mask is `1 << bit_index` |
| `DcnowVmu.UpdateBit` | openMenu/src/openmenu/src/dcnow/dcnow_vmu.c:100-104 | OR-ing the mask sets the bit and AND-ing its complement clears it; the other bits of the byte stay |
| `DcnowVmu.BitIndexInjective` | openMenu/src/openmenu/src/dcnow/dcnow_vmu.c:93-98 | distinct pixels are stored in distinct bits |
| `DcnowVmu.BitsArePixels` | openMenu/src/openmenu/src/dcnow/dcnow_vmu.c:18-19 | every bit of the bitmap is a pixel: two bitmaps lighting the same pixels are equal |
| `DcnowVmu.WithBitEffect` | openMenu/src/openmenu/src/dcnow/dcnow_vmu.c:97-104 | updating a bit changes that bit of the bitmap and no other |
| `DcnowVmu.WithPixelEffect` | openMenu/src/openmenu/src/dcnow/dcnow_vmu.c:90-105 | `vmu_set_pixel` sets or clears exactly the named pixel when on screen, and changes nothing off screen |
| `DcnowVmu.WithPixelIdempotent` | openMenu/src/openmenu/src/dcnow/dcnow_vmu.c:100-104 | setting a pixel twice is setting it once |
| `DcnowVmu.SetThenClear` | openMenu/src/openmenu/src/dcnow/dcnow_vmu.c:100-104 | setting then clearing a pixel is clearing it, and gives back a bitmap where it was clear |
| `DcnowVmu.Upper` | openMenu/src/openmenu/src/dcnow/dcnow_vmu.c:110-112 | lowercase letters map to uppercase, other characters to themselves |
| `DcnowVmu.FontIndexAsWritten` | openMenu/src/openmenu/src/dcnow/dcnow_vmu.c:115-118 | the index as written stays below 91 |
| `DcnowVmu.FontIndex` | openMenu/src/openmenu/src/dcnow/dcnow_vmu.c:115-118 | the corrected index stays within the 59 glyphs of the table |
| `DcnowVmu.FontIndexOverrun` | openMenu/src/openmenu/src/dcnow/dcnow_vmu.c:115-118 | the bound of 91 sends exactly `[`..`` ` `` past the table; elsewhere both bounds agree |
| `DcnowVmu.FontOverrunExample` | openMenu/src/openmenu/src/dcnow/dcnow_vmu.c:116-122 | as written, `[` gets index 59, one past the last of the 59 glyphs; the corrected index draws it as a space |
| `DcnowVmu.Glyph` | openMenu/src/openmenu/src/dcnow/dcnow_vmu.c:122 | a glyph has five rows |
| `DcnowVmu.RowCells` | openMenu/src/openmenu/src/dcnow/dcnow_vmu.c:123-124 | column `col` of a row is bit `2 - col` |
| `DcnowVmu.StampRowsPixels` | openMenu/src/openmenu/src/dcnow/dcnow_vmu.c:121-128 | stamping rows only turns pixels on, exactly the glyph's within the rows drawn |
| `DcnowVmu.DrawnCharPixels` | openMenu/src/openmenu/src/dcnow/dcnow_vmu.c:108-129 | `vmu_draw_char` only turns pixels on, exactly the glyph's within x..x+2, y..y+4 |
| `DcnowVmu.TextLength` | openMenu/src/openmenu/src/dcnow/dcnow_vmu.c:134 | the string loop reads the characters before the terminator |
| `DcnowVmu.CursorLayout` | openMenu/src/openmenu/src/dcnow/dcnow_vmu.c:132-145 | y grows by 6 per newline; on a line without newline, x grows by 4 per character |
| `DcnowVmu.CursorNewline` | openMenu/src/openmenu/src/dcnow/dcnow_vmu.c:135-138 | a newline resets x to the start and adds 6 to y |
| `DcnowVmu.CursorAdvance` | openMenu/src/openmenu/src/dcnow/dcnow_vmu.c:139-142 | any other character advances x by 4 on the same row |
| `DcnowVmu.WrittenPixels` | openMenu/src/openmenu/src/dcnow/dcnow_vmu.c:132-145 | `vmu_draw_string` only turns pixels on, exactly those of each character's glyph at its cursor position |
| `DcnowVmu.SpinnerCells` | openMenu/src/openmenu/src/dcnow/dcnow_vmu.c:149-174 | every spinner pixel lies inside its 3x5 cell |
| `DcnowVmu.SpunIsPattern` | openMenu/src/openmenu/src/dcnow/dcnow_vmu.c:149-174 | each case of the switch sets exactly its frame's pattern |
| `DcnowVmu.SpunPixels` | openMenu/src/openmenu/src/dcnow/dcnow_vmu.c:149-174 | the spinner only turns pixels on, exactly its frame's, all inside the cell |
| `DcnowVmu.ClearRowsPixels` | openMenu/src/openmenu/src/dcnow/dcnow_vmu.c:186-191 | clearing the cell turns off exactly the pixels inside it |
| `DcnowVmu.OverlaidPixels` | openMenu/src/openmenu/src/dcnow/dcnow_vmu.c:177-195 | inside the cell only the current frame shows; outside it an active screen keeps every pixel and an inactive one shows the placeholder |
| `DcnowVmu.Snprintf` | openMenu/src/openmenu/src/dcnow/dcnow_vmu.c:216-228 | the line is the formatted text cut to the buffer size less one |
| `DcnowVmu.Precision7` | openMenu/src/openmenu/src/dcnow/dcnow_vmu.c:228 | `%.7s` keeps at most the first 7 characters |
| `DcnowVmu.GameLineShape` | openMenu/src/openmenu/src/dcnow/dcnow_vmu.c:223-228 | a game line fits the buffer and starts with the label cut to 7 characters and `:`; the label is `game_code` when non-empty, else `game_name` |
| `DcnowVmu.MaxGames` | openMenu/src/openmenu/src/dcnow/dcnow_vmu.c:221 | at most 3 games, and `game_count` when that is less |
| `DcnowVmu.ListFromLines` | openMenu/src/openmenu/src/dcnow/dcnow_vmu.c:222-233 | the list loop draws the game lines at rows 13, 19 and 25 |
| `DcnowVmu.RenderedGames` | openMenu/src/openmenu/src/dcnow/dcnow_vmu.c:221-233 | the height check never cuts the list short: exactly the first `min(game_count, 3)` games get a line |
| `DcnowVmu.Vmu.constructor` | openMenu/src/openmenu/src/dcnow/dcnow_vmu.c:14-22 | the statics start with a blank bitmap, frame 0 and the flag clear |
| `DcnowVmu.Vmu.SetPixel` | openMenu/src/openmenu/src/dcnow/dcnow_vmu.c:90-105 | the array afterwards is `WithPixel` of the old one |
| `DcnowVmu.Vmu.UpdateByte` | openMenu/src/openmenu/src/dcnow/dcnow_vmu.c:100-104 | the mask step changes one byte as `Update` says |
| `DcnowVmu.Vmu.DrawChar` | openMenu/src/openmenu/src/dcnow/dcnow_vmu.c:108-129 | the nested loops leave `DrawnChar` of the old bitmap |
| `DcnowVmu.Vmu.DrawRow` | openMenu/src/openmenu/src/dcnow/dcnow_vmu.c:123-127 | the inner loop stamps one glyph row |
| `DcnowVmu.Vmu.DrawString` | openMenu/src/openmenu/src/dcnow/dcnow_vmu.c:132-145 | the string loop leaves `Written` of the old bitmap |
| `DcnowVmu.Vmu.DrawSpinner` | openMenu/src/openmenu/src/dcnow/dcnow_vmu.c:149-174 | the switch leaves `Spun` of the old bitmap for the current frame |
| `DcnowVmu.Vmu.ClearSpinnerCell` | openMenu/src/openmenu/src/dcnow/dcnow_vmu.c:186-191 | the nested loops clear the 3x5 cell at (24, 1) |
| `DcnowVmu.Vmu.ClearCellRow` | openMenu/src/openmenu/src/dcnow/dcnow_vmu.c:188-190 | the inner loop clears one row of the cell |
| `DcnowVmu.Vmu.Clear` | openMenu/src/openmenu/src/dcnow/dcnow_vmu.c:180 | memset leaves the blank bitmap |
| `DcnowVmu.Vmu.DrawPlaceholder` | openMenu/src/openmenu/src/dcnow/dcnow_vmu.c:178-183 | the first refresh clears the bitmap and draws `DCNOW` and `FETCHING`, giving `Placeholder` |
| `DcnowVmu.Vmu.RedrawSpinner` | openMenu/src/openmenu/src/dcnow/dcnow_vmu.c:186-194 | the cell is cleared and the current frame's spinner drawn into it, the rest of the bitmap kept |
| `DcnowVmu.Vmu.ShowRefreshing` | openMenu/src/openmenu/src/dcnow/dcnow_vmu.c:177-201 | the bitmap becomes `Overlaid`; the frame advances by 1 mod 4 and stays in 0..3; the flag ends set and the bitmap is pushed |
| `DcnowVmu.Vmu.RenderGamesList` | openMenu/src/openmenu/src/dcnow/dcnow_vmu.c:204-234 | the bitmap becomes `Rendered` of the data |
| `DcnowVmu.Vmu.DrawHeader` | openMenu/src/openmenu/src/dcnow/dcnow_vmu.c:206-217 | the bitmap is cleared and holds `DCNOW` at row 1 and `TOT:<total>` at row 7, giving `Header` |
| `DcnowVmu.Vmu.DrawGameLines` | openMenu/src/openmenu/src/dcnow/dcnow_vmu.c:221-233 | the list loop leaves `ListFrom` of the old bitmap: a line per game from row 13, 6 rows apart, until the row passes 26 |
| `DcnowVmu.Vmu.DrawGameLine` | openMenu/src/openmenu/src/dcnow/dcnow_vmu.c:223-229 | one game's `%.7s:%d` line drawn at the current row |
| `DcnowVmu.Vmu.UpdateWithGames` | openMenu/src/openmenu/src/dcnow/dcnow_vmu.c:237-247 | the list is rendered and pushed; the flag and frame stay |
| `DcnowVmu.Vmu.UpdateDisplay` | openMenu/src/openmenu/src/dcnow/dcnow_vmu.c:257-273 | null or invalid data goes through the logo restore; valid data renders the list and sets the flag |
| `DcnowVmu.Vmu.RestoreLogo` | openMenu/src/openmenu/src/dcnow/dcnow_vmu.c:275-287 | a no-op when inactive; otherwise the logo is pushed and the flag cleared |
| `DcnowVmu.Vmu.IsActive` | openMenu/src/openmenu/src/dcnow/dcnow_vmu.c:289-291 | returns the display flag |

## Findings

| source | as written | input that shows it | evidently intended | confidence | as-written member | corrected member |
|---|---|---|---|---|---|---|
| openMenu/src/openmenu/src/dcnow/dcnow_json.c:71-92 | after `skip_whitespace` stops on the terminator, `search++` steps past it and `while (*search)` reads beyond the string | the body `"{ "` (or any input ending in white space) looked up for a missing key, as `find_key(p, "games")` does | the scan stops at the terminator and returns NULL | not executed; high | `DcnowJson.FindKeyOverrunExample` | `DcnowJson.FindKeyAbsent` |
| openMenu/src/openmenu/src/dcnow/dcnow_vmu.c:116 | the glyph index is accepted up to 90, but the table has 59 rows (space to `Z`) | drawing `[` reads row 59, past the end of `vmu_font_3x5` | characters without a glyph are drawn as a space | not executed; high | `DcnowVmu.FontOverrunExample` | `DcnowVmu.FontIndexOverrun` |

The scanner and the VMU model use the corrected definitions (`FindKeyFrom`,
`FontIndex`). The as-written behaviour is kept beside them as `FindKeyAsWritten` and
`FontIndexAsWritten`.

## Left out

- ParseNumber: the C `int` accumulator (`value * 10 + digit`) overflows on long digit runs. The model uses mathematical integers, so it does not capture that wrap-around. The same holds for `NumberAt`, `ReadDigits`, `Atoi` and every `int` field of the records.
- The network side of `http_get_request`: socket creation, DNS, the connect wait, the request text and `send` (dcnow_api.c:50-131). It is an oracle, `HttpReply`, that gives an error code -2..-6 or the response text. The URL, port and request headers are not modelled.
- `select`, `recv`, `timer_ms_gettime64` and `thd_pass` in the receive loop. They are a list of polls, each with a timer reading and an outcome. When the list runs out, the loop ends as on a timeout.
- DcnowApi.DcnowState.FetchData: takes the reply of `http_get_request` as a parameter. The receive loop is proved separately (`ReceiveResponse`) and is not composed with it. The 8192-byte response buffer is therefore not a bound on the response text there.
- `last_update_time` is the timer reading, passed in as `now` and truncated to 32 bits. Its value is not modelled further.
- The fixed size of `error_message` is not modelled. Messages are kept whole.
- The non-Dreamcast builds: the stub data of dcnow_api.c:271-302, the `return -1` of dcnow_net_init.c:138-139, and the no-op VMU functions. The only one modelled is `FetchUnavailable` (-100, "Network not available").
- The real behaviour of `net_init`, `net_default_dev`, `modem_*`, `ppp_*` and `timer_spin_sleep`. They are the `Driver` oracle. The IP address printout after link-up is not modelled.
- All `printf` logging.
- The VMU pushes through `crayon_peripheral_vmu_display_icon` and the `openmenu_lcd` logo. They are recorded only as what was last shown (`Screen`).
- `snprintf` is modelled as `"%d"` rendering plus truncation to the buffer. Its other formatting is not modelled.
- The worker thread and its polled context (dcnow_worker.h). The header declares the states and hand-off functions, but their implementation is not part of this model. No transitions are invented for it.
- dcnow_net_init.h is documentation only. Its return codes and wait time differ from dcnow_net_init.c, which the model follows.
- dcnow_ppp_weak.c holds link-time stubs with constant results. Their `ppp_connect(void)` does not match the four-argument call the bring-up makes, and they are not modelled.
