# GardenBot stock notifier — a Dafny model

GardenBot watches the shop of the game *Grow a Garden*. It polls a local
HTTP API that reshapes an upstream feed. It normalises the seed, gear and
egg stock into tagged rows and compares them with the last snapshot saved
in SQLite. When the stock has changed, it saves the new snapshot and posts
a Discord message: a line of role pings plus an embed that lists each
category. Every cycle's outcome goes to a small status tracker. The same
process runs the API server, which has an IP whitelist gate and an
activity log, and a restock-time endpoint.

The model is one Dafny module per source file:

| module | source |
|---|---|
| `Wrappers` | `Option`, `Outcome`, `Result` |
| `Text` | decimal rendering of integers, `join` |
| `Arith` | facts about Euclidean division |
| `RestockTime` | `src/api/Funcs/GetRestockTime.js` |
| `EmojiMap` | `utils/emojiMap.js` |
| `StockDB` | the three stock tables, as `seq` fields of classes: `current_stock` is created in `src/db/stockDB.js`, `night_stock` and `blood_stock` by the root script `a.js` |
| `CheckStock` | `src/checkStock.js` |
| `NightStockDB`, `BloodStockDB` | `src/db/nightStockDB.js`, `src/db/bloodStockDB.js` |
| `GetStock` | `src/api/Funcs/GetStock.js` |
| `StatusTracker` | `src/statusTracker.js` |
| `Bot` | `bot.js` |
| `Server` | the request gate and views of `src/api/Server.js` |

How the model represents the program:

- Database tables are `Table` objects whose `rows: seq<Row>` field the
  statements replace. A transaction that throws is modelled as restoring
  the rows it started from.
- The status record and the activity log are class fields.
- The Discord channel is a `Channel` object that records what was sent to
  it.
- Clock readings are integer milliseconds passed in as parameters. The
  model applies no timezone or DST; see "Left out".
- Network answers are parameters: the fetch result, the channel lookup, the
  outcome of `channel.send` and the outcome of the night/blood notifier.
- A bracket lookup on a plain object (`emojiMap[id]`, `roleMap[id]`) that
  misses an own property falls through to `Object.prototype`. The model
  keeps the two inherited members a normalised id can name, `constructor`
  and `__proto__`.

## Model

| member | source | states |
|---|---|---|
| RestockTime.Pad | src/api/Funcs/GetRestockTime.js:2-4 | `pad(n)` starts with "0" exactly when n < 10; for n >= 0 it is at least two digits and spells n |
| RestockTime.PadTwoDigits | src/api/Funcs/GetRestockTime.js:2-4 | for 0 <= n < 100, `pad(n)` is exactly two digits whose value is n |
| RestockTime.GetResetTimes | src/api/Funcs/GetRestockTime.js:37-48 | the last reset is at or before now, and now is before the next reset; the resets are one interval apart; the last reset lies on the interval grid anchored at the base |
| RestockTime.CountdownMs | src/api/Funcs/GetRestockTime.js:58 | the countdown is next reset minus now, and lies in (0, interval]: the `Math.max(0, …)` never clips |
| RestockTime.ExactBoundary | src/api/Funcs/GetRestockTime.js:42-45 | at an exact multiple of the interval the reset counts as done, and the full interval remains |
| RestockTime.FieldsRecompose | src/api/Funcs/GetRestockTime.js:59 | the hour, minute and second fields plus the leftover milliseconds recompose the countdown; minutes and seconds are below 60 |
| RestockTime.ShortCountdownShape | src/api/Funcs/GetRestockTime.js:64 | below 100 minutes the gear countdown `ShortCountdown` is exactly `MMm SSs`, with both fields two digits spelling minutes and seconds |
| RestockTime.LongCountdownShape | src/api/Funcs/GetRestockTime.js:59 | below 100 hours an hours countdown `LongCountdown` is exactly `HHh MMm SSs`, each field two digits |
| RestockTime.TimeSince | src/api/Funcs/GetRestockTime.js:21-35 | the text is "in a bit" exactly when the instant lies in the future; otherwise it ends in " ago" |
| RestockTime.TimeSinceByRange | src/api/Funcs/GetRestockTime.js:21-35 | "in a bit" for a future instant; otherwise whole seconds under a minute, whole minutes under an hour, else whole hours, each with its suffix |
| RestockTime.CategoryAt | src/api/Funcs/GetRestockTime.js:56-59 | a category reports (`Reports`) its current window (`InWindow`: last reset <= now < next reset, one interval apart), whose last reset lies on the interval grid from midnight; its timestamp is now plus the countdown; its countdown text renders that countdown, with or without the hour field; its time-since is measured from the last reset |
| RestockTime.CalculateRestockTimes | src/api/Funcs/GetRestockTime.js:56-107 | seeds report exactly what gear reports; gear reports its 5-minute window without hours, and egg (30 min), cosmetic (4 h) and night (1 h) report theirs with hours, each as `Reports` states; the gear countdown has 7 characters with "m " after the minutes, the others 11 with "h " after the hours |
| RestockTime.GearAtSevenPast | src/api/Funcs/GetRestockTime.js:61-64 | at 14:07 the gear window is 14:05–14:10 and the countdown reads "03m 00s" |
| RestockTime.EggAtMidnight | src/api/Funcs/GetRestockTime.js:56-59 | at midnight the egg reset has just happened and the countdown reads "00h 30m 00s" |
| Text.NatToString | src/api/Funcs/GetRestockTime.js:27 | the decimal rendering is non-empty and all digits; it is one character exactly below ten; it has no leading zero |
| Text.NatToStringRoundTrip | src/api/Funcs/GetRestockTime.js:27 | reading the rendered digits back gives the number |
| Text.JoinEmptyIff | src/checkStock.js:56 | `Join` is `Array.prototype.join`: with a non-empty separator, a join is empty exactly for no parts or one empty part |
| Text.JoinOfNonEmpty | src/checkStock.js:88 | a join of non-empty parts is empty exactly when there are no parts |
| EmojiMap.Lookup | utils/emojiMap.js:1-47 | the lookup finds an icon exactly when some entry has the key, and then returns that entry's icon |
| EmojiMap.IconNamesKey | utils/emojiMap.js:3-46 | every entry's icon has the shape `<:K:digits>`, where K is its own key |
| EmojiMap.IconsWellFormed | utils/emojiMap.js:3-46 | the table has 36 entries, and every key is lower-case letters and '_' |
| EmojiMap.KeysDistinct | utils/emojiMap.js:3-46 | the 36 keys are pairwise distinct |
| EmojiMap.LookupAt | utils/emojiMap.js:3-46 | with distinct keys, looking up an entry's key yields that entry's own icon |
| EmojiMap.IconsNameTheirKeys | utils/emojiMap.js:3-46 | for every entry: its key is an identifier, looking the key up yields its icon, and the icon names the key |
| EmojiMap.NoInheritedKeys | utils/emojiMap.js:1-47 | no key of the table is `constructor` or `__proto__`, so those names reach the inherited members |
| EmojiMap.CarrotEntry | utils/emojiMap.js:3 | the first entry is `carrot` with icon `<:carrot:1377452529360568320>` |
| StockDB.OfKind | src/checkStock.js:20-22 | the filter keeps exactly the rows of the kind, and no others |
| StockDB.OfKindAppend | src/checkStock.js:20-22 | filtering distributes over concatenation, so table order is kept |
| StockDB.OfKindUniform | src/checkStock.js:20-22 | a block whose every row has the kind is kept whole by its own filter and dropped by another |
| StockDB.Retag | src/checkStock.js:42 | `{ ...s, type: kind }` keeps length and every other field, and tags every row with the kind |
| StockDB.RetagTagged | src/checkStock.js:42 | rows that already carry the kind are unchanged by the spread |
| StockDB.Layout | src/checkStock.js:39-47 | the written table has one row per item of the three categories |
| StockDB.LayoutBlocks | src/checkStock.js:39-47 | the written table is the seeds block, then gear, then eggs, each retagged, and nothing else |
| StockDB.OfKindsDisjoint | src/checkStock.js:20-22 | filters for three different kinds together keep at most every row once |
| StockDB.Partition | src/checkStock.js:17-29 | the loader's three categories each carry only their own type, and together hold at most the table's rows |
| StockDB.OfKindBlocks | src/checkStock.js:17-29 | filtering three differently tagged blocks for each tag gives back each block |
| StockDB.PartitionLayout | src/checkStock.js:17-51 | loading what was saved gives the retagged categories; for a well-tagged snapshot it gives the snapshot itself |
| StockDB.Table.InsertTagged | src/db/nightStockDB.js:21 | the table gains the items in order, each retagged |
| StockDB.Table.SaveSnapshot | src/db/nightStockDB.js:19-26 | it succeeds exactly when all three categories are present, and the table is then the layout; when one is missing, the rollback leaves the table unchanged and reports the `forEach` TypeError |
| StockDB.Table.DeleteAll | src/db/nightStockDB.js:20 | `DELETE FROM` leaves the table empty |
| StockDB.Table.Insert | src/checkStock.js:33-36 | an insert appends exactly the one row |
| StockDB.Table.SelectAll | src/checkStock.js:18 | `SELECT *` returns the rows in table order, and changes nothing |
| StockDB.Table.Restore | src/db/nightStockDB.js:19-26 | a rolled-back transaction leaves the rows it started from |
| StockDB.Database.constructor | src/db/stockDB.js:5-16 | three distinct, empty tables with their names: `current_stock` as created here, and `night_stock` and `blood_stock` as a.js:3-23 creates them |
| CheckStock.Lower | src/checkStock.js:10 | lower-casing keeps the length, maps each character in place, and leaves no upper-case letter |
| CheckStock.LowerAppend | src/checkStock.js:10 | lower-casing distributes over concatenation |
| CheckStock.Replace | src/checkStock.js:10 | the left-to-right whitespace replacement never lengthens the text |
| CheckStock.Underscore | src/checkStock.js:10 | `replace(/\s+/g, "_")` never lengthens the text |
| CheckStock.ReplaceSpaceFree | src/checkStock.js:10 | the replacement leaves no whitespace |
| CheckStock.ReplaceNoUpper | src/checkStock.js:10 | the replacement brings in no upper-case letter |
| CheckStock.ReplaceNoSpace | src/checkStock.js:10 | text without whitespace is untouched |
| CheckStock.ReplaceAppend | src/checkStock.js:10 | the replacement of a concatenation is the replacement of the first part, followed by that of the second part started in the state the first part ends in |
| CheckStock.UnderscoreAppend | src/checkStock.js:10 | the replacement works piecewise when the cut is not inside a whitespace run |
| CheckStock.ReplaceRun | src/checkStock.js:10 | a whitespace run writes one '_', or nothing when it continues a run |
| CheckStock.UnderscoreRun | src/checkStock.js:10 | a whitespace run of any length, followed by text, becomes a single '_' |
| CheckStock.LowerAroundRun | src/checkStock.js:10 | lower-casing leaves whitespace alone and does not create whitespace at the edges of a cut |
| CheckStock.NormalizeName | src/checkStock.js:9-11 | a normalised name has no upper-case letter and no whitespace, and is no longer than the name |
| CheckStock.NormalizeNameRun | src/checkStock.js:9-11 | each maximal whitespace run of a name becomes exactly one '_', with the text on both sides normalised independently |
| CheckStock.NormalizeNameIdempotent | src/checkStock.js:9-11 | normalising twice is normalising once |
| CheckStock.IconKeysNormalised | utils/emojiMap.js:3-46 | every key of the icon table is its own normalised name |
| CheckStock.Inherited | src/checkStock.js:14 | exactly `constructor` and `__proto__` reach an inherited member, whose rendered text is non-empty and not the package emoji |
| CheckStock.GetEmoji | src/checkStock.js:13-15 | an item id of the table yields its icon; an id the table lacks yields the inherited member's text for `constructor` and `__proto__`, and the package emoji otherwise; the result is never empty |
| CheckStock.ConstructorIcon | src/checkStock.js:9-15 | "Constructor" normalises to "constructor", whose icon is the rendered `Object` function, not the package |
| CheckStock.CarrotIcon | src/checkStock.js:9-15 | "Carrot" normalises to "carrot", whose icon is `<:carrot:1377452529360568320>` |
| CheckStock.NormalizeItems | src/checkStock.js:96-102 | one row per feed item, in order, tagged with the category, with id normalised from the name and name and value kept; a missing category gives no rows |
| CheckStock.NormalizeIncomingStock | src/checkStock.js:95-109 | each category of the snapshot has one row per feed item; a missing category has none |
| CheckStock.OrEmpty | src/checkStock.js:41 | `x \|\| []`: a missing list becomes empty, and a present one is kept |
| CheckStock.Defaulted | src/checkStock.js:41-47 | each missing category of the argument becomes empty |
| CheckStock.NormalizedStockShape | src/checkStock.js:95-109 | the normalised snapshot is well tagged, its ids are normalised, and it keeps each category's names and values in order |
| CheckStock.GetCurrentStockFromDB | src/checkStock.js:17-29 | the loaded snapshot is the partition of the `current_stock` rows |
| CheckStock.UpdateStockInDB | src/checkStock.js:31-51 | `current_stock` becomes exactly the layout of the snapshot, with missing categories as empty; no old row survives |
| CheckStock.SavedSnapshotUnchanged | src/checkStock.js:91-120 | after a normalised snapshot is saved, loading gives it back, and the next comparison finds no change |
| CheckStock.RoleOf | src/checkStock.js:85 | `roleMap[id]` when truthy: a present id gives its role exactly when that role is non-empty; an absent id gives the inherited member, if any; a role is never empty |
| CheckStock.Mentions | src/checkStock.js:83-86 | every mention comes from an item that is pinged (`Pinged`: not common, with a role from `RoleOf`); every such item's mention is present; no mention is empty |
| CheckStock.ConstructorPinged | src/checkStock.js:83-86 | an item with id "constructor" is pinged by an empty role map with the rendered `Object` function as its role |
| CheckStock.MentionsAppend | src/checkStock.js:77-86 | mentions distribute over concatenated item lists |
| CheckStock.RoleMention | src/checkStock.js:85 | the mention is `<@&`, then exactly the role id, then `>` |
| CheckStock.AllItems | src/checkStock.js:77-81 | the items of all three categories, with none lost |
| CheckStock.PingLine | src/checkStock.js:76-89 | the ping line is empty exactly when no item of the snapshot is pinged |
| CheckStock.PingLineOrder | src/checkStock.js:77-88 | the line lists the seed mentions, then gear, then egg, separated by single spaces |
| CheckStock.FieldText | src/checkStock.js:54-72 | a field reads "None" exactly when its category is empty or missing; otherwise it is the item lines joined by newlines |
| CheckStock.ItemLine | src/checkStock.js:55 | an item line is the icon, the bold name and `x` + value, and is longer than "None" |
| CheckStock.ItemLines | src/checkStock.js:54-64 | one line per item, in order |
| CheckStock.BuildStockEmbed | src/checkStock.js:53-74 | green (0x2ecc71), three inline fields: seeds, gear, eggs, in that order, each with its category's text |
| CheckStock.Notification | src/checkStock.js:123-126 | the message content is the ping line and its only embed is the stock embed |
| CheckStock.Channel.Send | src/checkStock.js:126 | an accepted send adds exactly the one message; a rejected send adds nothing and fails with its error |
| CheckStock.CheckStockAndNotify | src/checkStock.js:114-127 | unchanged stock (`HasStockChanged`: the normalised feed differs from the loaded snapshot) saves and sends nothing; changed stock is saved as the normalised layout before the channel lookup; a failed lookup reports its error after the save; a rejected send reports its error after the save and adds no message; otherwise exactly one message is sent, with the ping line and the embed |
| CheckStock.SecondCallNoOp | src/checkStock.js:114-120 | a second step with the same feed finds nothing changed |
| NightStockDB.LoadNightStock | src/db/nightStockDB.js:3-10 | the snapshot is the partition of the `night_stock` rows |
| NightStockDB.SaveNightStock | src/db/nightStockDB.js:12-27 | as `SaveSnapshot` on `night_stock`; the other two tables are unchanged |
| NightStockDB.SaveThenLoad | src/db/nightStockDB.js:3-27 | saving a well-tagged snapshot and loading it back gives the snapshot |
| BloodStockDB.LoadBloodStock | src/db/bloodStockDB.js:3-10 | the snapshot is the partition of the `blood_stock` rows |
| BloodStockDB.SaveBloodStock | src/db/bloodStockDB.js:12-27 | as `SaveSnapshot` on `blood_stock`; the other two tables are unchanged |
| BloodStockDB.SaveThenLoad | src/db/bloodStockDB.js:3-27 | saving a well-tagged snapshot and loading it back gives the snapshot |
| GetStock.Prop | src/api/Funcs/GetStock.js:100-104 | reading a property yields the value when an object has the key, and `undefined` otherwise |
| GetStock.OptProp | src/api/Funcs/GetStock.js:73 | optional chaining yields `undefined` on `null` or `undefined` |
| GetStock.First | src/api/Funcs/GetStock.js:73 | `data[0]` throws exactly when data is `null`; on an array it is the first element, or `undefined` when the array is empty |
| GetStock.FormatItem | src/api/Funcs/GetStock.js:99-104 | an item keeps exactly name, value, image and emoji; a `null` element throws |
| GetStock.FormatFrom | src/api/Funcs/GetStock.js:99-104 | the map fails exactly when some remaining element is `null`; otherwise it keeps length and order |
| GetStock.FormatStockItems | src/api/Funcs/GetStock.js:97-105 | a non-array gives `[]`; an array fails exactly when it holds a `null`, and otherwise gives one item per element in order |
| GetStock.CategoryOf | src/api/Funcs/GetStock.js:82-87 | a falsy or absent category becomes `[]` |
| GetStock.Payload | src/api/Funcs/GetStock.js:73 | reading the payload fails exactly when data is `null` |
| GetStock.FormatCategories | src/api/Funcs/GetStock.js:81-87 | the result succeeds exactly when all six categories format; each category in it is that category's formatting |
| GetStock.FormatStocks | src/api/Funcs/GetStock.js:70-95 | a falsy payload is the "Malformed data structure from upstream API" error; otherwise the categories are formatted |
| GetStock.StatusOr500 | src/api/Funcs/GetStock.js:124 | a missing or zero status becomes 500 |
| GetStock.Respond | src/api/Funcs/GetStock.js:118-152 | a fetch error answers with its status or 500, as both code and HTTP status; a formatted feed gives 200; a formatting error gives 500 with "Error processing stock data: " prefixed; after a successful fetch, 200 is answered exactly when the feed formatted |
| StatusTracker.StatusRecord | src/statusTracker.js:7-13 | the record has the time and outcome; a non-empty message is kept as it is, an empty one becomes "Stock updated." or "Fetch failed."; the message is never empty |
| StatusTracker.Tracker.constructor | src/statusTracker.js:1-5 | before any fetch: no time, no outcome, "Not fetched yet." |
| StatusTracker.Tracker.UpdateLastFetchStatus | src/statusTracker.js:7-13 | the whole record is replaced |
| StatusTracker.Tracker.GetLastFetchStatus | src/statusTracker.js:15-17 | returns the current record, and changes nothing |
| Bot.MinuteOf | bot.js:29 | the minute of the hour is below 60 |
| Bot.HourStart | bot.js:29-31 | the start of the hour is at or before now, less than an hour back, and on the hour grid |
| Bot.ClockSplit | bot.js:29-31 | now equals the hour start, plus whole minutes, plus the milliseconds into the minute |
| Bot.ArmedMainDelay | bot.js:55 | the computed delay when positive, else five minutes |
| Bot.MainTarget | bot.js:28-31 | the target is second 8 of a five-minute boundary, after the start of the hour and at most at second 8 of the next hour |
| Bot.MainDelayCases | bot.js:28-33 | `MainDelay` is target minus now: on a multiple-of-five minute the delay is 8 s minus the part of the minute gone; otherwise it runs to second 8 of the next multiple of five |
| Bot.MainDelayBounds | bot.js:28-33 | the computed delay is not positive exactly when the minute is a multiple of five and 8 s of it have gone; it lies in (-52 s, 4 min 8 s] |
| Bot.ArmedMainDelayBounds | bot.js:55 | the timer is always armed with a delay in (0, 5 min] |
| Bot.MainFetchTime | bot.js:28-40 | without the fallback, the fetch happens 20 s past a five-minute boundary |
| Bot.MainTargetRollover | bot.js:29 | from minute 56 on, `setMinutes(60)` rolls the target to second 8 of the next hour |
| Bot.NightBloodTarget | bot.js:60-65 | the target is second 15 of an hour, more than 15 s and at most 1 h 15 s after now |
| Bot.NightBloodDelay | bot.js:59-67 | the hourly delay lies in (15 s, 1 h 15 s], and the timer fires 15 s past an hour |
| Bot.FetchLiveStock | bot.js:19-24 | a response that is not ok is the error "API error: " + status text; otherwise the parsed body |
| Bot.MainCycle | bot.js:34-56 | a fetch error is recorded as a failure with its message, and nothing is saved or sent; otherwise the table is saved when the stock changed, and the channel gains the notification exactly when the stock changed and the send was accepted; the first error (channel lookup, send, night/blood notifier) is recorded, else success with "Stock fetched and notified."; the timer is re-armed with the armed delay |
| Bot.NightBloodCycle | bot.js:68-83 | the fetch error or the notifier's error is recorded, else success with "Night/Blood stock fetched and notified."; the next delay is the hourly one |
| Server.ListenPort | src/api/Server.js:45 | a zero port falls back to 3000 |
| Server.FormatIP | src/api/Server.js:144-149 | a string starting with "::ffff:" loses exactly those 7 characters; any other string, and any non-string, is returned unchanged |
| Server.FormatMapped | src/api/Server.js:147 | an IPv4-mapped address comes out as the part after the prefix |
| Server.FormatOnce | src/api/Server.js:147 | only one prefix is stripped, so formatting is not idempotent |
| Server.RawIp | src/api/Server.js:237-238 | the forwarded header when non-empty, else the socket address, else "" |
| Server.ClientIp | src/api/Server.js:237-239 | the checked address is the formatted raw address, no longer than it |
| Server.Gate | src/api/Server.js:245-249 | refused, with 403 "Forbidden", exactly when whitelisting is on and the address is not listed |
| Server.GateAdmits | src/api/Server.js:245-253 | with whitelisting off, or for a listed address, the request passes |
| Server.MappedAddressAdmitted | src/api/Server.js:237-249 | a whitelisted IPv4 address arriving in IPv4-mapped form is admitted |
| Server.ApiServer.Handle | src/api/Server.js:236-254 | every request is appended to the activity log, blocked or not; the verdict is the gate's |
| Server.ApiServer.constructor | src/api/Server.js:111 | the server starts with its settings and an empty activity log |
| Server.WhitelistText | src/api/Server.js:155 | "None" when the list joins to nothing, otherwise the addresses joined by ", "; never empty |
| Server.UptimeParts | src/api/Server.js:174-177 | the fields `UptimeText` renders: days·86400 + hours·3600 + minutes·60 + seconds = uptime, with hours < 24, minutes < 60, seconds < 60 |
| Server.UptimeUnique | src/api/Server.js:174-177 | that split is the only one within those bounds |

## Left out

- The HTTPS request to the upstream feed, together with its streaming, timeout and JSON parsing (`fetchStocks`, src/api/Funcs/GetStock.js:21-68). Its outcome is the parameter of `GetStock.Respond`.
- `node-fetch`, `res.json()` and the Discord client (`client.channels.fetch`, `channel.send`): network I/O. Their outcomes are parameters: the fetch result, whether the channel is found, and whether the send is accepted or rejects with an error. An accepted message is recorded on a `Channel` object.
- `EmbedBuilder`: only the embed's colour, author text and fields are modelled, as values.
- `setTimeout`, the buffer wait and the self-rescheduling recursion in bot.js. Only the delay arithmetic and a single cycle are modelled. The clock readings of a cycle are parameters.
- The two scheduler loops run concurrently. The model has no concurrency.
- Timezones and DST. The model takes instants as milliseconds and the local midnight as a parameter, and hours are aligned to multiples of 3600000 ms. `Date` setters on local time around a DST change are not modelled.
- `formatTime` and `formatLastSeenItems` use `toLocaleString` with a timezone. `lastRestock` is kept as the instant itself, and the `lastSeen` part of the feed is not produced.
- GetStock.FormatStocks: does not model the `lastSeen` lists. In the source, a `null` entry in one of them makes formatting fail; the model formats such a payload successfully.
- `Math.floor` on fractional milliseconds. All instants are integers, so the floors become Euclidean divisions.
- The `register` routes of the two endpoints, the `/status` route and the `catch` in src/api/Funcs/GetRestockTime.js:111-121. `calculateRestockTimes` cannot throw on integer inputs.
- The SQLite engine and the table schema. The schema in src/db/stockDB.js:8-16 declares `display_name`/`quantity` columns. The inserts in src/checkStock.js:33-36 and the night/blood modules write `name`/`value`. The model follows the inserts.
- The `id` column is not modelled. src/db/stockDB.js:10 declares `id INTEGER PRIMARY KEY AUTOINCREMENT`, so on the declared table `SELECT *` rows would carry an `id`, and the `JSON.stringify` comparison would never find a loaded snapshot equal to the feed. `CheckStock.SecondCallNoOp` and `CheckStock.SavedSnapshotUnchanged` hold for the four-column rows the inserts write, not for the declared table.
- CheckStock.HasStockChanged: `JSON.stringify` inequality becomes structural inequality. Key order and the serialisation of values are not modelled.
- CheckStock.Lower: `toLowerCase` is modelled for the ASCII letters A–Z only. Other Unicode case mappings are not modelled.
- CheckStock.GetEmoji: the `||` in `emojiMap[itemId] || "📦"` also catches an empty stored icon. Every stored icon is a non-empty markup, so the model only covers the missing-key case. Members added to `Object.prototype` at run time are not modelled.
- CheckStock.RoleOf: role values of other JSON types (numbers, objects) are not modelled; a role is a string. Members added to `Object.prototype` at run time are not modelled.
- The role map (`src/data/roleMap.json`) and `commonItems` are read from files that are not part of this model. They are the parameter `Config`, and role ids are strings, where a falsy id is the empty string.
- `checkNightBloodStockAndNotify` is imported by bot.js:6 but not defined in src/checkStock.js. Its outcome is a parameter of `Bot.MainCycle` and `Bot.NightBloodCycle`, and its effects are not modelled.
- CheckStock.NormalizeIncomingStock: a `RawItem` keeps only the `name` and `value` of a feed item, and values are integers. A feed item whose `name` is missing or not a string is not modelled. In the source, `normalizeName(i.name)` (src/checkStock.js:99, :10) then throws a TypeError on `toLowerCase`. bot.js:47-50 records that error's message as a failed cycle, and nothing is saved or sent. The model's `name` is always a string, so `NormalizeIncomingStock` cannot fail.
- GetStock.FormatItem: JSON numbers are integers (`Json.Num(n: int)`). Fractional values, and their rendering, are not modelled. The item's `value` is passed through unchanged.
- Root `checkStock.js`, `stock-checker.js` and `src/server.js`. bot.js imports none of them. The root script `a.js` only creates the `night_stock` and `blood_stock` tables; the model's `Database` has them from the start.
- src/api/Server.js beyond the gate and the settings/uptime values:
  - the blessed dashboard and the console overrides;
  - the ANSI colouring of log entries (an entry is kept as its four fields);
  - reading and writing the config file;
  - the dynamic `Funcs` loader;
  - RAM and CPU figures (floats with `toFixed`).
- Server.UptimeParts: `process.uptime()` is a float in seconds. The model takes whole seconds, for which the floors are exact.
- Server.FormatIP: the middleware always passes a string. The non-string branch is kept in the model, but it is reached only from outside the middleware.
- Timestamps (`new Date().toISOString()`) are string parameters.
