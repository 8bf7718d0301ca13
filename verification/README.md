# cryptonote-nodejs-pool API core, modelled in Dafny

This project models the deterministic core of `lib/api.js`, the HTTP API process of a
CryptoNote mining pool. Every Redis reply and every daemon header that process reads is
passed in as a plain value. The model covers:

- **Stats aggregation.** This is the pool branch of `collectStats`. It turns the replies of
  one Redis MULTI into the pool record (`data`), the per-participant hashrate table
  (`minersHashrate`) and the per-participant metric table (`minerStats`). The parts are:
  - the fold over `difficulty:login:time` samples;
  - the split of keys into miners and workers;
  - `Math.round` rate conversion;
  - block-row filtering on the sixth `:` field.

  This is module `Aggregation`. Redis reply shapes live in `Replies`, and JavaScript numbers
  and strings live in `JsNumber` and `JsString`.
- **The live-connection registries.** `liveConnections` and `addressConnections` map
  `address + '+' + uid` to a waiting response. Registration, deletion by the finish and
  close handlers, grouping by the text before the first `+`, and the one-shot broadcast are
  modelled as transitions on a `map<string, SinkId>`. This is module `Registry`.
- **Per-address payloads.** The pool feed is the last snapshot plus the address's
  `minerStats` record. The worker feed is the workers hash, payments, worker list and
  `unique_workers` enrichment. This is module `Feeds`.
- **The process state.** This is module `Service`. It covers the two subscription endpoints,
  `/stats`, `/stats_address`, and one run of `collectStats` followed by its broadcast.
- **The smaller endpoints and helpers:**
  - top-ten miners with address masking (`TopMiners`);
  - the admin summary (`Admin`);
  - `getPublicPorts`;
  - `parseCookies` and `authorize`;
  - IPv4 normalisation;
  - the validation cascades of the three settings endpoints (`Requests`).

JavaScript semantics are written out:
- A number is `Val(n)` or `NaN`.
- `+` absorbs NaN, and `x || 0` maps NaN and 0 to 0.
- `parseInt` reads the leading decimal digits.
- `Math.round(v / w)` on naturals is `(2v + w) / (2w)`.
- `split`, `indexOf`, `trim` and `substring` are written on `seq<char>` for the arguments
  the code passes them: a one-character separator or search text, and in-range indices.
  One Dafny `char` stands for one UTF-16 code unit.
- An object built from an HGETALL reply is a field/value list in which the last value
  listed for a field wins.

`utils.getAddressParts` (lib/utils.js) is not part of this model. Its `workerName` is a
parameter `Naming`. JSON serialisation, `unescape`, `parseFloat`, chart data and the
per-address Redis reads made during a broadcast are parameters as well.

Two behaviours of the code deserve mention:

- `minerStats` and `minersHashrate` are rebuilt inside the Redis callback, before the
  daemon and chart results are known. So a cycle whose Redis read succeeds replaces both
  tables even when the daemon read fails; only `currentStats` stays stale.
  `Service.CollectStats` follows the code.
- A live visitor without an address is registered as `undefined+uid`. A hashrate sample
  without a second `:` field is booked under the property name `"undefined"`. Once such a
  sample has been collected, addressless visitors receive that record as their `miner`
  (`Service.AddresslessVisitorSeesUndefinedRecord`).

## Model

| member | source | states |
|---|---|---|
| `Aggregation.CollectPool` | lib/api.js:204-284 | blocks are the flattened candidates then matured rows; `2*totalBlocks` is twice the matured count plus the candidate reply length; miners paid is one less than the `payments:*` key count (0 for none); the hashrate table has exactly the sampled keys; `minerStats` has exactly the sampled keys and round participants, each with `hashrate` iff sampled (equal to its table entry) and `roundHashes` iff in the round (its parsed share count); miners + workers is the number of sampled keys and each counts its class; `roundHashes` is the round total, 0 without a round hash |
| `Aggregation.RatesAreRoundedSums` | lib/api.js:236-257 | with numeric samples, each key's rate is `Math.round(sum of its sample difficulties / window)` and its `minerStats` hashrate is that same rate |
| `Aggregation.PoolHashrateCountsMinersOnly` | lib/api.js:242-259 | the pool hashrate is the rounded sum of the unrounded volumes of keys without a worker name; worker samples never contribute |
| `Aggregation.RoundTotalIsParticipantSum` | lib/api.js:260-277 | the round total is 0 without a round hash, and otherwise the sum of the `roundHashes` that `minerStats` records for the round's participants, each listed once |
| `Aggregation.RoundHashesAreParticipantSum` | lib/api.js:260-277 | the pool `roundHashes` is 0 without a round hash, and otherwise the sum of the `minerStats` `roundHashes` of the round's participants, each listed once |
| `Aggregation.BlockTotalsFromRevenuedRows` | lib/api.js:206-230 | `totalDiff` and `totalShares` are the sums over the rows with a non-empty sixth field alone, and equal candidate totals plus matured totals |
| `Aggregation.VolumesAreSums` | lib/api.js:236-240 | with numeric samples, the fold's entry for each key is the total difficulty of that key's samples |
| `Aggregation.Volumes` | lib/api.js:236-240 | the fold creates an entry for exactly the keys that occur in the samples |
| `Aggregation.TallyCounts` | lib/api.js:244-252 | walking distinct keys, the miner count is the number of keys without a worker name and the worker count the number with one |
| `Aggregation.MinerTally` | lib/api.js:242-252 | miners and workers count the two classes of sampled keys and together count every sampled key once |
| `Aggregation.MinerStats` | lib/api.js:255-276 | a record exists exactly for keys with a rate or a round share entry; `hashrate` is present iff the key has a rate and equals it; `roundHashes` is present iff the key is in the round and is its parsed share count |
| `Aggregation.Rates` | lib/api.js:253-253 | every volume is replaced by its rounded rate over the window; no key is added or dropped |
| `Aggregation.KeyOrder` | lib/api.js:244-244 | the `for…in` walk visits each sampled key exactly once |
| `Aggregation.BlockSumsOnlyRevenued` | lib/api.js:221-230 | dropping every row whose sixth field is empty or missing leaves the block totals unchanged |
| `Aggregation.BlockSumsConcat` | lib/api.js:206-206 | the totals over candidates followed by matured rows combine the totals of the two lists |
| `Aggregation.RevenuedRows` | lib/api.js:223-223 | the kept rows are exactly the rows with a non-empty sixth field |
| `Replies.ParseSample` | lib/api.js:238-239 | a sample's difficulty is `parseInt` of its first field, and its key is the second field, or "undefined" when there is none, and holds no `:` |
| `Replies.ParseFormatSample` | lib/api.js:238-239 | a sample written as `difficulty:login:time` with a `:`-free login parses back to that difficulty and login |
| `Replies.Flatten` | lib/api.js:206-207 | a WITHSCORES reply alternates member and score, two entries per element |
| `Replies.RevenuedJoin` | lib/api.js:222-225 | a row is revenued iff it has at least six fields and the sixth is non-empty; its difficulty and shares are `parseInt` of fields three and four |
| `Replies.ScoreNotRevenued` | lib/api.js:222-223 | a score entry (no `:`) is never counted as a block |
| `Replies.Get` | lib/api.js:1407-1407 | a field is present iff some entry carries it, and its value is the one listed last |
| `Replies.Fields` | lib/api.js:264-264 | the keys of the object are distinct and are exactly the fields present |
| `JsNumber.RoundDiv` | lib/api.js:253-253 | `Math.round(v / w)` is the natural `r` with `2wr <= 2v + w < 2w(r + 1)` |
| `JsNumber.RoundDivUnique` | lib/api.js:253-253 | that rounding bound has exactly one solution |
| `JsNumber.RoundDivExact` | lib/api.js:259-259 | a volume that is an exact multiple of the window gives the quotient unrounded |
| `JsNumber.ParseIntDecimalText` | lib/api.js:239-239 | `parseInt` reads back a decimal numeral whatever non-digit text follows it |
| `JsString.Split` | lib/api.js:222-222 | `split` returns at least one part, no part contains the separator, and joining restores the text |
| `JsString.SplitJoin` | lib/api.js:1406-1407 | splitting a join of separator-free parts gives the parts back |
| `Registry.Register` | lib/api.js:53-64 | registering adds exactly the key `address+uid` with the new response and keeps every other entry |
| `Registry.Unregister` | lib/api.js:57-62 | the finish or close handler removes exactly its key and keeps every other entry |
| `Registry.UnregisterIdempotent` | lib/api.js:57-62 | finish followed by close deletes no more than one of them |
| `Registry.RegisterThenClose` | lib/api.js:53-64 | a connection that closes before any broadcast leaves the registry as it was |
| `Registry.GroupOf` | lib/api.js:361-362 | the group is a `+`-free prefix of the key ending just before its first `+`, and the empty text for a key without `+` |
| `Registry.GroupOfConnectionKey` | lib/api.js:359-365 | a key registered for a `+`-free address groups under that address; an address with `+` groups under its own prefix |
| `Registry.Groups` | lib/api.js:359-365 | every key lies in the group of its prefix, every group member is a key with that prefix, and no group is empty |
| `Registry.GroupSizesSum` | lib/api.js:359-365 | the group sizes add up to the registry size: grouping partitions the keys |
| `Registry.SendLiveStats` | lib/api.js:457-464 | no destination list sends nothing; otherwise each destination in order receives the one serialised payload |
| `Registry.Broadcast` | lib/api.js:355-391 | every registered connection, and no other, receives the serialised payload of its own group |
| `Registry.SinksOf` | lib/api.js:360-364 | the waiting responses of the listed keys, in the order listed |
| `Registry.GroupDeliveriesAreSendLiveStats` | lib/api.js:359-377 | what a broadcast delivers to the connections of one group is exactly `sendLiveStats` of that group's payload to their responses |
| `Registry.UnregisterAll` | lib/api.js:57-62 | running the finish handlers removes exactly the delivered keys and keeps the others' responses |
| `Registry.SettleAfterDelivery` | lib/api.js:57-64 | after delivery no delivered key remains, keys outside the broadcast are untouched, and repeating the deletions changes nothing |
| `Feeds.PublicPorts` | lib/api.js:1360-1364 | a port is kept iff it is configured and not hidden |
| `Feeds.PublicPortsIdempotent` | lib/api.js:1360-1364 | filtering the public ports again removes nothing |
| `Feeds.PoolFeedFor` | lib/api.js:367-373 | the snapshot is unchanged and `miner` is the address's record when the address is non-empty and recorded, else `{}` |
| `Feeds.FieldOrZero` | lib/api.js:409-410 | a missing, zero or NaN field reads as 0; any other value is kept |
| `Feeds.HashrateOf` | lib/api.js:409-409 | an unknown address reads hashrate 0; a known one reads its field or 0 |
| `Feeds.RoundHashesOf` | lib/api.js:410-410 | an unknown address reads round hashes 0; a known one reads its field or 0 |
| `Feeds.HGetAll` | lib/api.js:403-403 | HGETALL of a missing or empty hash is null; otherwise it is the stored hash |
| `Feeds.HashNumber` | lib/api.js:437-438 | a missing or empty field reads 0, any other is `parseInt` of its text |
| `Feeds.RowOf` | lib/api.js:419-424 | a worker row carries the non-empty worker name and that login's hashrate or 0, and no enrichment yet |
| `Feeds.WorkerRows` | lib/api.js:414-427 | the worker list is no longer than the key list |
| `Feeds.WorkerRowsSound` | lib/api.js:414-427 | every listed row comes from a key whose login names a worker |
| `Feeds.WorkerRowsComplete` | lib/api.js:548-561 | every key whose login names a worker is listed |
| `Feeds.Enrich` | lib/api.js:431-439 | names and hashrates are kept; a worker with a `unique_workers` hash gets `lastShare` and `hashes` from it (0 when empty), and any other worker is left as it was |
| `Feeds.WorkerFeedFor` | lib/api.js:402-446 | a failed read or a missing workers hash gives "Not found"; otherwise the feed is the hash with the address's rate and round count (0 when unknown), the flattened payments, the chart data and the enriched worker list |
| `Service.LiveAddress` | lib/api.js:53-53 | a missing or empty address subscribes as "undefined" |
| `Service.SubscribeLive` | lib/api.js:52-64 | the response waits under `address+uid`, and nothing else in the state changes |
| `Service.SubscribeWorker` | lib/api.js:504-521 | when the workers hash exists the response waits under `address+uid` and nothing else changes; otherwise "Not found" is answered at once and the state is unchanged |
| `Service.HandleStats` | lib/api.js:469-476 | the reply is the current snapshot with the address's record or `{}` |
| `Service.HandleMinerStats` | lib/api.js:524-573 | "Not found" iff the read failed or the workers hash is missing; otherwise the feed is the workers hash with the address's hashrate and round count (0 when unknown), the flattened payments, the charts, and the worker rows enriched from their `unique_workers` hashes |
| `Service.LongpollAgreesWithPlain` | lib/api.js:504-530 | a longpoll request subscribes exactly when the plain request would be answered with a feed |
| `Service.CollectStats` | lib/api.js:170-350 | a failed Redis read changes nothing; a successful one replaces both tables; the snapshot is replaced and every waiting connection answered with its group's payload only when all tasks succeed, and both registries then end empty; otherwise the snapshot and registries are unchanged and nothing is sent |
| `Service.BroadcastAll` | lib/api.js:355-439 | every live and every worker connection receives its group's payload, and both registries end empty with the rest of the state unchanged |
| `Service.WatcherMatchesMinerStats` | lib/api.js:393-439 | a watcher subscribed with a `+`-free address receives exactly what the plain `/stats_address` request answers on the same reads |
| `Service.LiveMatchesStats` | lib/api.js:367-376 | a visitor subscribed with a `+`-free address receives exactly what `/stats?address=` returns |
| `Service.AddresslessVisitorSeesUndefinedRecord` | lib/api.js:53-55 | once a sample without a second field is collected, an addressless visitor's `miner` is the "undefined" record, which has a hashrate |
| `Service.SampleWithoutLogin` | lib/api.js:238-239 | a sample without `:` is booked under the key "undefined" |
| `TopMiners.MaskAddress` | lib/api.js:682-682 | an address of 7 or more characters masks to its first 7, `****`, and its last 7; a shorter one to itself, `****`, itself |
| `TopMiners.MaskKeepsOnlyEnds` | lib/api.js:682-682 | addresses agreeing on their first and last seven characters mask alike |
| `TopMiners.TopHashrate` | lib/api.js:683-683 | a row's hashrate is the address's table entry when that entry and its `minerStats` hashrate are truthy, else 0 |
| `TopMiners.TopRowOf` | lib/api.js:678-686 | each row carries the masked last `:` field of its key and that address's hashrate |
| `TopMiners.RowsOf` | lib/api.js:677-688 | one row per worker key, in key order |
| `TopMiners.Insert` | lib/api.js:712-718 | inserting into a list sorted by `compareTopMiners` keeps it sorted and adds exactly the one row |
| `TopMiners.SortByRank` | lib/api.js:697-697 | the result is sorted by non-increasing hashrate and is a permutation of the input |
| `TopMiners.FirstTen` | lib/api.js:698-698 | at most ten rows are kept, still sorted; no dropped row ranks above a kept one, and rows are dropped only when ten are kept |
| `TopMiners.TopTen` | lib/api.js:666-698 | a failed KEYS gives the error reply; a failed MULTI gives no rows; otherwise at most ten rows in rank order, a sub-multiset of the rows built from the keys with nothing better left out |
| `Admin.FieldAmount` | lib/api.js:1105-1106 | `parseInt(x) || 0`: a missing, empty or non-numeric field reads 0, a numeric one its value |
| `Admin.SumBalances` | lib/api.js:1104-1108 | every worker is counted, and owed and paid are the sums of their fields over all workers |
| `Admin.CountStep` | lib/api.js:1110-1121 | one more matured row adds to the unlocked figures exactly when its sixth field is non-empty |
| `Admin.CountBlocks` | lib/api.js:1110-1121 | unlocked plus orphaned is the number of rows; unlocked counts the revenued rows; difficulty and share totals equal those of `collectStats`; revenue sums the sixth fields |
| `Admin.Summarise` | lib/api.js:1092-1123 | the summary's every figure is its reference sum over the workers or the matured rows |
| `Admin.HandleAdminStats` | lib/api.js:1059-1130 | the error reply iff either MULTI failed; otherwise worker and block counts and block totals as summarised |
| `Requests.CookieOf` | lib/api.js:1406-1407 | the name is the trimmed text before the first `=`, the value the unescaped rest with later `=` kept |
| `Requests.ParseCookies` | lib/api.js:1402-1410 | a missing or empty header gives no cookies; otherwise one entry per `;` segment, in order |
| `Requests.LastCookieWins` | lib/api.js:1405-1408 | the cookie written last in the header is the one read |
| `Requests.ClientAddress` | lib/api.js:1021-1024 | the forwarded address is used only behind a trusted proxy and when the header is non-empty |
| `Requests.Authorize` | lib/api.js:1020-1054 | loopback iff the client address is loopback; session iff not loopback and the `sid` cookie matches; denied iff neither and the password differs from the configured one |
| `Requests.UnsetPasswordAdmitsAnyone` | lib/api.js:1037-1043 | with no configured password, a request without a password is let in |
| `Requests.ForwardedLoopbackAdmits` | lib/api.js:1022-1028 | behind a trusted proxy a forwarded `127.0.0.1` is admitted as loopback |
| `Requests.IssuedCookieOpensSession` | lib/api.js:1033-1049 | the `sid=<authSid>` cookie set on login opens a session on a later request |
| `Requests.NormalizeIpAsWritten` | lib/api.js:1389-1392 | as written: any text containing a dotted quad is prefixed with `::ffff:` |
| `Requests.AsWrittenPrefixesMappedAgain` | lib/api.js:1389-1392 | an address already in `::ffff:a.b.c.d` form is prefixed a second time |
| `Requests.SampleQuad` | lib/api.js:1389-1389 | `1.2.3.4` is a dotted quad, so `::ffff:1.2.3.4` is an input that shows the double prefix |
| `Requests.NormalizeIp` | lib/api.js:1389-1392 | corrected: only a whole dotted quad is prefixed |
| `Requests.NormalizeIpIdempotent` | lib/api.js:1389-1392 | normalising twice equals normalising once, and a plain dotted quad is mapped as the code maps it |
| `Requests.CorrectionOnlyAffectsMappedForms` | lib/api.js:1387-1397 | the IP test as written and the corrected one agree on every bare dotted quad and on every text containing none |
| `Requests.PayoutRefusesMappedForm` | lib/api.js:774-814 | a payout request whose `ip` is `::ffff:a.b.c.d`, exactly as stored in the `workers_ip` set, is refused as unseen, while the corrected test finds it |
| `Requests.MinLevel` | lib/api.js:791-792 | the minimum payout level is the configured one, and exactly 0 when that is negative |
| `Requests.SetPayoutLevel` | lib/api.js:774-814 | incomplete, wildcard, not-a-number, below-minimum and unseen-IP answers in that order, each iff the earlier checks passed (the IP seen by the unanchored test as written); the write is asked for iff every check passes; "done" iff that write succeeds and the database-error answer iff it fails |
| `Requests.SetEmailNotifications` | lib/api.js:867-919 | incomplete, wildcard, invalid action and unseen IP (the unanchored test as written) answers in that order; an admitted enable without email answers "No email address specified"; enable sets and disable clears the email; "done" iff a write is asked for |
| `Requests.SetTelegramNotifications` | lib/api.js:942-989 | missing chat id, missing address, invalid action and unknown miner answers in that order; otherwise enable sets and disable clears the chat id and the answer is "done" |
| `Requests.FirstFailureIsFirst` | lib/api.js:774-804 | the cascade reference answers with a failing check all of whose predecessors pass |
| `Requests.PayoutIsCascade` | lib/api.js:774-814 | the payout answer is the first failing check followed by the write's outcome, and the write is asked for iff no check fails |
| `Requests.EmailIsCascade` | lib/api.js:867-919 | the email answer is the first failing check, else "done" with a write |
| `Requests.TelegramIsCascade` | lib/api.js:942-989 | the Telegram answer is the first failing check, else "done" with a write |

## Left out

- Redis and daemon I/O, `async.parallel`/`async.waterfall` scheduling, the `setTimeout` re-arm, RPC monitoring and socket events: their results are inputs, and the only socket event modelled is the key deletion.
- Redis trimming of the hashrate set to the window (`zremrangebyscore`, which depends on `Date.now()`): the samples are taken as already trimmed.
- Pool efficiency (line 231): floating point.
- Slush-mining time decay (line 267): transcendental, and it reads `lastBlockFound` before line 281 assigns it. Only the decay-disabled branch is modelled.
- `parseInt` sign, leading white space and `0x` prefixes: the model reads leading decimal digits only, which is what the pool writes.
- The configuration echoed into the snapshot (lines 305-334) other than the public ports, and the chart data, which is opaque text.
- JSON serialisation, `unescape`, `parseFloat`, `Math.random` uids and `authSid` generation: parameters or left abstract.
- HTTP servers, headers, status codes, the `Set-Cookie` expiry, and the endpoints outside this core: payments, blocks, get payout level, get notifications, miners hashrate, admin users, monitoring, ports and log, and the test notifications.
- The payout level written to Redis (`level * coinUnits`, line 806): floating point. The effect carries the parsed level.
- The email and telegram write failures (lines 897-899, 912-914, 969-971, 982-984): the reply "done" has already been sent, so these messages are never seen.
- A failure of the second MULTI in the worker enrichment (lines 434-437, 568-571): the source then reads from an undefined reply and throws inside the callback.
- `utils.getAddressParts` of an undefined login (a `unique_workers` key without a third `:` field): assumed to name no worker.
- Prototype keys of plain objects (`__proto__`, `constructor`) used as addresses or cookie names.
- `Aggregation.CollectPool`: `data.hashrate` and `data.roundHashes` are stated in `Aggregation.PoolHashrateCountsMinersOnly` and `Aggregation.RoundHashesAreParticipantSum`, and `lastBlockFound` only as coming from the stats hash.
- `TopMiners.SortByRank`: it is an insertion sort that keeps equal rows in input order, as the stable `Array.prototype.sort` does, but only sortedness and permutation are stated, not stability.
- Numbers are natural numbers or NaN, not IEEE doubles: values the pool stores are taken to stay below 2^53, where doubles are exact. Above that, sums lose precision, and `parseInt` of a hashrate in `compareTopMiners` (lines 713-714) reads the text `1e+21` of a value of 10^21 or more as 1; neither is modelled.
- Address text is taken to be ASCII. JavaScript strings are UTF-16 code units and a Dafny `char` stands for one of them, so `MaskAddress` on text with characters outside the Basic Multilingual Plane is not modelled.
- `Feeds.WorkerRows`: its contract states only the length bound; membership in both directions is in `Feeds.WorkerRowsSound` and `Feeds.WorkerRowsComplete`, and the order of rows is not stated.

## Findings

| source | as written | input that shows it | evidently intended | confidence | as-written member | corrected member |
|---|---|---|---|---|---|---|
| lib/api.js:1389-1392 | the IPv4 test `/\d{1,3}\.\d{1,3}\.\d{1,3}\.\d{1,3}/` is unanchored, so any text containing a dotted quad gets `::ffff:` prepended | `ip=::ffff:1.2.3.4` becomes `::ffff:::ffff:1.2.3.4`, which can never be a member of the `workers_ip` set | only a bare dotted quad is mapped to its IPv4-mapped IPv6 form; an address already in that form is left alone | medium, not executed | `Requests.PayoutRefusesMappedForm` | `Requests.NormalizeIpIdempotent` |
