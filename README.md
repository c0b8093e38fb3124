# near_pump_listener: the register-token ingestion path, in Dafny

This project models the part of the NEAR token listener that turns a `register_token` event into a
stored row and a broadcast record, and proves properties of that model:

- `insert_token` (src/database.rs). It takes the JSON `data` of an event and requires a non-empty
  array. It extracts the members of the first element in a fixed order, failing with
  `"<field> not found"`. It executes the INSERT, builds a `TokenDTO` and sends it on the broadcast
  sender, ignoring the send result.
- The row-to-record mapping of `get_tokens` (src/database.rs). It trims quotes off `total_supply`,
  decodes `reference_hash` leniently, narrows `decimals` from i16 to u8, and drops the stored-only
  columns.
- The per-event closure of `main` (src/main.rs). It buffers the event, looks for a
  `register_token` event, inserts it, lists the table, and clears the buffer. This part also
  covers the network-to-RPC match.

Modules, leaves first:

- `Wrappers`: Option and Result, the latter usable with `:-` like Rust's `?`.
- `Casts`: `as i16` and `as u8` as explicit truncations.
- `Json`: serde_json's `Value` and its accessors. `v[key]` gives `Null` for a missing key or a
  non-object.
- `Foreign`: `AccountId` parsing and standard base64 decoding, as function-valued parameters.
- `Strings`: `trim_matches('"')`.
- `Models`: `TokenDto` and the event.
- `Cli`: the `Networks` enum.
- `Websocket`: the sender as a log of sent records.
- `Extract`: payload to row, plus the record built after the INSERT.
- `Database`: the table, the insert and the listing.
- `Dispatcher`: per-event handling.
- `Scenarios`: a concrete payload.

The table is the `Db` class, whose `tokens` field the insert appends to. The sender is the
`WsSender` class, whose `sent` field records every value handed to `send`. Each database call
takes a `DbCall` that says whether the pool produced a connection and whether the statement
succeeded. An `unwrap` that fails is a `Panic`. In the spawned task a panic ends the task:
nothing after it runs, and in particular neither the listing nor `logs.clear()` does.

Behaviour of the code that a reader might not expect:

- `icon` is required by the mapper (src/database.rs:96), although the record's `icon` is optional.
  `Scenarios.MissingIconRejected` shows that a registration without an icon is rejected.
- `decimals` that do not fit in a byte are not rejected. They are truncated to 16 bits for the
  row and to 8 bits for the broadcast.
- An owner that is not an account ID, or a `reference_hash` that is not base64, does not fail
  validation. It panics after the INSERT has run, so the row is stored and nothing is sent.
  A stored row with a bad owner makes every later listing panic (`Database.BadOwnerPoisonsListing`).
- src/database.rs:32-35 creates a `block_height` table (a text `key` and a `height`), but no code
  reads or writes it. The listener starts from the block hard-coded at src/main.rs:31.
- The broadcast `total_supply` is the payload's string as it is. The listed one has its outer
  quotes trimmed.
- src/main.rs:49 calls `insert_token` with two arguments, while src/database.rs:66-70 takes
  three (the sender). The model follows database.rs and passes the sender.

## Model

| member | source | states |
|---|---|---|
| `Casts.AsI16` | src/database.rs:99-101 | `x as i16` is the i16 congruent to x modulo 2^16; values already in range are unchanged |
| `Casts.AsU8` | src/database.rs:127 | `x as u8` is the byte congruent to x modulo 256; values already in range are unchanged |
| `Casts.AsI16Unique` | src/database.rs:99-101 | any i16 that agrees with x on the low 16 bits is `x as i16`, so the cast is a pure truncation |
| `Casts.NarrowingKeepsLowByte` | src/database.rs:161 | `(x as i16) as u8 == x as u8`: reading the stored decimals back gives the broadcast value |
| `Json.Index` | src/database.rs:87 | `token_data[key]`: the member under `key`, or `Null` for a missing key or a non-object; used by every lemma of `Extract` |
| `Json.AsStr` | src/database.rs:88 | `as_str()`: the text of a string value, None for every other value (see `Extract.MapFieldsContent`) |
| `Json.AsI64` | src/database.rs:100 | `as_i64()`: an integer that fits in an i64, None for other numbers and other values (see `Extract.MapFieldsSucceedsIff`) |
| `Json.AsArray` | src/database.rs:75 | `as_array()`: the elements of an array, None for every other value (see `Extract.PayloadShape`) |
| `Strings.TrimQuotes` | src/database.rs:147-150 | the result is a contiguous piece of the input, everything cut off on either side is `"`, and the result neither starts nor ends with `"` |
| `Strings.TrimQuotesIdempotent` | src/database.rs:147-150 | trimming the trimmed `total_supply` again changes nothing |
| `Strings.NoQuotesAtEnds` | src/database.rs:147-150 | a string without an outer quote is returned as it is |
| `Extract.FirstElement` | src/database.rs:73-78 | the first element of a non-empty array, or one of the two shape errors; characterised by `Extract.PayloadShape` and `Extract.OnlyFirstElementRead` |
| `Extract.RequireStr` | src/database.rs:87-111 | a string member, or "<field> not found"; characterised by `Extract.MapFieldsNamesFirstMissing` |
| `Extract.RequireI64` | src/database.rs:99-101 | an integer member that fits in an i64, or "decimals not found"; characterised by `Extract.MapFieldsNamesFirstMissing` |
| `Extract.MapFields` | src/database.rs:80-112 | the row built from the first element, failing at the first bad member; characterised by `Extract.MapFieldsSucceedsIff`, `Extract.MapFieldsNamesFirstMissing` and `Extract.MapFieldsContent` |
| `Extract.MapPayload` | src/database.rs:73-112 | first element, then its members; characterised by `Extract.PayloadShape` and `Extract.OnlyFirstElementRead` |
| `Extract.BroadcastDto` | src/database.rs:116-129 | the record re-read from the payload after the INSERT; characterised by `Extract.BroadcastDtoPanics` and `Extract.BroadcastAgreesWithRow` |
| `Extract.PayloadShape` | src/database.rs:73-78 | a non-array payload fails with "Event data is not an array"; an empty array fails with "Event data array is empty" |
| `Extract.OnlyFirstElementRead` | src/database.rs:73-78 | the result depends only on the first element of the array |
| `Extract.MapFieldsSucceedsIff` | src/database.rs:86-111 | extraction succeeds exactly when all eleven required members are present, each a string, except `decimals`, an integer that fits in an i64 |
| `Extract.MapFieldsNamesFirstMissing` | src/database.rs:86-111 | when a member is absent or mistyped, the error is "<field> not found" for the first such member, in the order owner_id, total_supply, spec, name, symbol, icon, decimals, image, description, auction_duration, min_buy_amount |
| `Extract.NonObjectFails` | src/database.rs:87-89 | a first element that is not an object fails with "owner_id not found" |
| `Extract.MapFieldsContent` | src/database.rs:80-112 | the row holds the payload's strings unchanged; `icon` is always present; `reference` and `reference_hash` are present exactly when they are strings; decimals is the i64 truncated to i16 |
| `Extract.OptionalMembersNeverFail` | src/database.rs:97-98 | replacing `reference` or `reference_hash` by any value changes neither success nor the error |
| `Extract.BroadcastDtoPanics` | src/database.rs:116-129 | building the record panics exactly when the owner is not an account ID, or when the reference hash is a string that is not base64; an owner fault is reported first |
| `Extract.BroadcastAgreesWithRow` | src/database.rs:116-129 | the built record has the row's strings and optional members; its reference hash is the decoded row value; its decimals is the low byte of the stored i16 |
| `Database.InsertEffect` | src/database.rs:71-131 | outcome, appended rows and sent records of one insert; characterised by `Database.InsertEffectShape`, `Database.InsertErrors` and `Database.InsertedIff` |
| `Database.InsertToken` | src/database.rs:66-133 | the new table is the old one plus the rows of `InsertEffect`; the sent log is the old one plus its records; the outcome is its outcome, whatever the number of receivers |
| `Database.InsertEffectShape` | src/database.rs:80-131 | a failure stores and sends nothing; otherwise exactly the extracted row is appended; a record is sent only after its row is stored and only on success; at most one of each |
| `Database.InsertErrors` | src/database.rs:71-114 | a missing connection is reported first, then the mapper's message (exactly those messages), then a failed statement |
| `Database.InsertedIff` | src/database.rs:71-132 | an insert succeeds exactly when both database steps work, the payload is well formed, the owner is an account ID, and the reference hash, if a string, is base64 |
| `Database.PanicAfterInsert` | src/database.rs:114-126 | with an invalid owner or an undecodable reference hash, the row is stored and nothing is sent |
| `Database.OwnerPanicIff` | src/database.rs:117 | the insert panics at the owner exactly when the stored row's owner is not an account ID |
| `Database.SentMatchesStored` | src/database.rs:116-131 | on success the sent record has the stored row's owner, strings, icon, reference, image, and the low byte of its decimals |
| `Database.ReadRow` | src/database.rs:145-163 | the record read from one row, or a panic at the owner; characterised by `Database.ReadRowContent` |
| `Database.ReadBackMatchesSent` | src/database.rs:145-163 | reading the stored row back gives the sent record, with only `total_supply` trimmed |
| `Database.ReadRowContent` | src/database.rs:145-163 | reading a row panics exactly when its owner is not an account ID. Otherwise: strings and optional members are kept; `total_supply` loses only outer quotes; an undecodable hash becomes None; decimals keeps the low byte |
| `Database.ReadRows` | src/database.rs:143-164 | the mapping succeeds exactly when every owner parses; it then yields one record per row, in row order |
| `Database.NewestFirst` | src/database.rs:140 | the query returns every row, most recently inserted first |
| `Database.ListTokens` | src/database.rs:138-166 | the outcome of the listing on a table; characterised by `Database.ListingOnePerRow` |
| `Database.GetTokens` | src/database.rs:135-167 | the listing fails on a missing connection, then on a failed query; otherwise it maps the rows newest first, or panics |
| `Database.ListingOnePerRow` | src/database.rs:139-164 | with a working database the listing has one record per stored row, newest first, exactly when every owner parses; otherwise it panics |
| `Database.BadOwnerPoisonsListing` | src/database.rs:146 | after an insert that panicked at the owner, every listing of any table containing that row panics |
| `Database.LastRowListedFirst` | src/database.rs:140 | the row appended last is the first one listed |
| `Database.NewestInsertListedFirst` | src/database.rs:140-164 | after a successful insert, a successful listing starts with the record just sent, with `total_supply` trimmed |
| `Websocket.WsSender.Send` | src/database.rs:131 | `send` logs the record and reports delivery exactly when there are receivers |
| `Dispatcher.RpcUrlFor` | src/main.rs:21-24 | Mainnet selects NEAR_RPC_MAINNET and Testnet selects NEAR_RPC_TESTNET; every network has an endpoint |
| `Dispatcher.DefaultNetworkUsesTestnet` | src/cli.rs:7 | without a network flag, the testnet endpoint is selected |
| `Dispatcher.RpcUrlForInjective` | src/main.rs:21-24 | different networks never share an endpoint |
| `Dispatcher.FindRegisterToken` | src/main.rs:45-46 | the search finds nothing exactly when no buffered event is "register_token"; otherwise it returns the first such event |
| `Dispatcher.HandleEvent` | src/main.rs:35-59 | an event other than "register_token" causes no insert, no listing and no change. A "register_token" event causes one insert, then one listing unless the insert panicked, and neither error escapes. The fresh buffer holds just the event and is empty afterwards unless a panic ended the task |
| `Scenarios.MissingIconRejected` | src/database.rs:96 | a registration with every member except `icon` is rejected with "icon not found" |

## Left out

- Postgres. Left out: creating the pool, the `CREATE TABLE IF NOT EXISTS` statements, the serial
  `id` and the server-assigned `created_at`. `ORDER BY created_at DESC` is modelled as reverse
  insertion order, which assumes strictly increasing creation times; ties are not modelled.
  Whether a connection or a statement fails is an input (`DbCall`), not modelled behaviour.
- src/websocket.rs: the warp server and the subscriber sockets. Also the channel's capacity of
  100, its lag and drop behaviour, and the forwarding task. These are network I/O and library
  concurrency. The sender is reduced to the log of values passed to `send` and a receiver count.
- `tokio::spawn` concurrency. Events are handled one call at a time, and
  concurrent handlers that interleave are not modelled. `NearEventListener`'s builder, its
  fixed starting block and its delivery loop are a foreign library.
- The listener's `EventLog` is reduced to `event` and `data`, the two members the core reads.
- src/cli.rs: clap parsing. Only the `Networks` enum and its default are modelled.
- constants.rs is not part of this model. The RPC endpoints are named symbols, not addresses,
  and the watched account and method are not modelled.
- `AccountId` validation and base64 decoding (section 4 of RFC 4648) belong to foreign crates.
  Both are parameters (`Foreign.Crates`), so every property holds for any such pair of functions.
- JSON floats: every non-integer number is one `NonInt` case, for which `as_i64` returns None.
  Integers outside the i64 range also give None.
- Logging with `println!`/`eprintln!`, and serde serialization of `TokenDTO`.
- The code has no checkpoint handling and no slow-consumer policy for subscribers.
