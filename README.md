# bilive listener core, modelled in Dafny

This project models the bookkeeping of the `Listener` class of bilive_client
(`bilive/listener.ts`). The listener watches many live rooms for hints of
promotional events (small TV, raffle, lottery, beat storm). It confirms each
hint against a check endpoint and turns the confirmed items into canonical
messages. It emits every message whose id is new in its category, and it
keeps the set of room connections in line with a directory listing.

Modules, one per concern of the source file:

- `Wrappers`: `Option`, which stands for JavaScript's `undefined`.
- `Messages`: the four categories and their `cmd` names, the canonical
  `Message`, and the mapping of raffle-check and lottery-check replies to
  messages (`_RaffleCheck`, `_LotteryCheck`).
- `Dedup`: the deduplication window as a value. It holds the four id sets,
  `_lastUpdate` and the log of emitted messages. `Admit` is `_RaffleHandler`
  and `ClearIfQuiescent` is `clearAllID`. The lemmas state the dedup
  guarantees.
- `Rooms`: the selection of target rooms from the directory listing
  (`updateAreaRoom`).
- `AnchorName`: the broadcaster-name extraction of `_LotteryHandler`. This is
  the regular expression `(?:(主播 )).*(?=( 的直播间开通了总督))` followed by
  `substr(3)`, stated as "leftmost prefix, longest run without a line
  terminator, last reachable suffix".
- `ListenerCore`: the `Listener` class with the source's fields. `_DMclient`
  is `dmClients`, the four id sets keep their own fields, `_MSGCache` is
  `msgCache` and `_lastUpdate` is `lastUpdate`. The methods that touch the
  dedup window are proved against the pure definitions above (`Admit`,
  `AdmitAll`, `ClearIfQuiescent`); the room methods are proved against
  `TargetRooms` and state their effect on the client map directly. The object invariant `Valid()` says that no event
  was emitted twice since the last clear. It also says that `dmClients` holds
  exactly the clients that are open, each under its own room.

Abstractions:

- `Date.now()` is a `now` parameter.
- Every HTTP reply is an `Option` parameter. `None` is an `undefined` result.
- `emit` appends to the ghost log `emitted`.
- Opening and closing a room client inserts into or removes from
  `dmClients`. Each such action is also recorded in the ghost sets
  `openedClients` and `closedClients`.
- A client handle is a value `DMClient(roomID, userID, serial)`. The serial
  stands for the client object's identity.
- `Options._.config.defaultUserID` is re-read by every `updateAreaRoom` call;
  it is the `userID` parameter of `UpdateAreaRoom`, passed on to every client
  opened in that call.
- The 3-second timer of `Start` that empties `_MSGCache` is the method
  `ClearMsgCache`.

## Model

| member | source | states |
|---|---|---|
| `Messages.CategoryOf` | bilive/listener.ts:249-266 | a `cmd` names a category exactly when it is one of the four category names; any other `cmd` names none |
| `Messages.RaffleMessage` | bilive/listener.ts:197-206 | the message of one raffle item: category smallTV iff the item's type is `small_tv`, else raffle; room id from the check; id, type and title from the item; `time` and `time_wait` are the item's wait and `max_time` its maximum |
| `Messages.RaffleMessages` | bilive/listener.ts:196-208 | one message per list item, in list order; the category is smallTV iff the item's type is `small_tv`, else raffle; room id, id, title and times are taken from the check and the item |
| `Messages.ConfirmedRaffles` | bilive/listener.ts:194-209 | a raffle check yields messages iff the reply arrived with status 200, code 0 and a non-empty list; then one per item, all of a known category and for the checked room |
| `Messages.LotteryMessage` | bilive/listener.ts:228-235 | the message of one guard item: category lottery, room id from the check, id and type (the keyword) from the item, title `舰队抽奖`, time 0, no wait or max times |
| `Messages.LotteryMessages` | bilive/listener.ts:227-237 | one lottery message per guard item, in order: category lottery, title `舰队抽奖`, time 0, id and keyword from the item, no wait or max times |
| `Messages.ConfirmedLotteries` | bilive/listener.ts:225-238 | a lottery check yields messages iff the reply arrived with status 200, code 0 and a non-empty guard list; all are lottery messages for the checked room |
| `Dedup.IdSets.Add` | bilive/listener.ts:250-265 | recording an id inserts it into its own category's set and leaves the other three sets unchanged |
| `Dedup.Admit` | bilive/listener.ts:247-272 | a message is emitted iff its category is known and its id is new there; it then adds the id to that set only, stamps the time and appends the message to the log; otherwise nothing changes |
| `Dedup.ClearIfQuiescent` | bilive/listener.ts:103-109 | if less than 3 minutes passed since the last admission, nothing changes; otherwise all four sets become empty, and the stamp and the log are kept |
| `Dedup.AdmitAll` | bilive/listener.ts:196-208 | the `forEach` of `_RaffleHandler` calls over a batch: id sets only grow, the log only grows, the stamp is the old one or the batch time, and a batch that emits nothing changes nothing |
| `Dedup.AdmitTwiceEmitsOnce` | bilive/listener.ts:250-265 | admitting the same message twice emits it once; the second call is a no-op |
| `Dedup.CategoriesDoNotCollide` | bilive/listener.ts:249-265 | the same id in two categories is admitted in both |
| `Dedup.UnknownCategoryIgnored` | bilive/listener.ts:266 | a message whose `cmd` names no category changes nothing and emits nothing |
| `Dedup.ReadmittedAfterClear` | bilive/listener.ts:103-109 | after a clear that fires, a previously admitted message is emitted again |
| `Dedup.AdmissionPostponesClear` | bilive/listener.ts:104 | an admission at time t prevents any clear before t + 3 minutes |
| `Dedup.AdmitKeepsRecorded` | bilive/listener.ts:247-272 | admission keeps the invariant: every emission since the last clear is recorded in its set, and no two announce the same event |
| `Dedup.ClearStartsEpoch` | bilive/listener.ts:103-109 | after a clear the invariant holds from the current end of the log |
| `Dedup.ClearKeepsRecorded` | bilive/listener.ts:104 | a clear that does not fire keeps the invariant |
| `Dedup.AdmitAllKeepsRecorded` | bilive/listener.ts:196-208 | a whole confirmation batch keeps the no-duplicate-emission invariant |
| `Dedup.AdmitAllAppendsInputs` | bilive/listener.ts:196-208 | a batch only appends to the log, at most one entry per input, and each appended entry is one of the inputs |
| `Dedup.AdmitAllNothingNew` | bilive/listener.ts:250-265 | a batch with no new (category, id) in it changes nothing |
| `Dedup.AdmitAllSeen` | bilive/listener.ts:250-265 | after a batch, none of its messages is new any more |
| `Dedup.AdmitAllTwice` | bilive/listener.ts:196-208 | the same confirmation reply processed twice changes nothing the second time |
| `Dedup.AdmitNeverForgets` | bilive/listener.ts:250-265 | admission never removes an id |
| `Dedup.AdmitAllKeepsNew` | bilive/listener.ts:250-265 | a new message unrelated to every event of a batch is still new after it |
| `Dedup.AdmitAllFreshEmitsAll` | bilive/listener.ts:196-208 | a batch of new, pairwise distinct events is emitted in full, in list order |
| `Rooms.TargetRooms` | bilive/listener.ts:72-78 | the target set of a listing holds at most three rooms per module |
| `Rooms.TargetRoomsSelects` | bilive/listener.ts:72-78 | the target set is exactly the rooms among the first three entries of a module of type 9 with more than two entries |
| `Rooms.AddModuleRooms` | bilive/listener.ts:75-76 | the inner loop adds exactly the module's contribution: its first three rooms if it is a ranking module with more than two rooms, none otherwise |
| `Rooms.CollectRoomIDs` | bilive/listener.ts:72-78 | the loop over modules, three rooms each, builds exactly the target set |
| `AnchorName.ExtractAnchorName` | bilive/listener.ts:168-171 | no name iff the pattern matches nowhere; otherwise the name is the text between the prefix and the suffix of the leftmost, longest match |
| `AnchorName.ExtractAnchorNameIsMatch` | bilive/listener.ts:168-171 | conversely, whenever `s[i..j]` is the leftmost-longest match, the name is `s[i+3..j]` |
| `AnchorName.FirstLongestMatchUnique` | bilive/listener.ts:168 | the leftmost-longest match is unique |
| `AnchorName.ExtractAnchorNameExample` | bilive/listener.ts:168-171 | "主播 Foo 的直播间开通了总督" names "Foo" |
| `ListenerCore.SearchedRoom` | bilive/listener.ts:176-177 | a lottery is looked up in the first live room of the search reply; there is none when the reply is missing or empty |
| `ListenerCore.Listener.constructor` | bilive/listener.ts:24-44 | a new listener has no clients, empty sets and cache, an empty log and a stamp of the creation time |
| `ListenerCore.Listener.RaffleHandler` | bilive/listener.ts:247-272 | the new window is `Admit` of the old one; only the id sets, the stamp and the log may change; the invariant is kept |
| `ListenerCore.Listener.ClearAllID` | bilive/listener.ts:103-109 | the new window is `ClearIfQuiescent` of the old one; the cache, the clients and the stamp are untouched |
| `ListenerCore.Listener.ClearMsgCache` | bilive/listener.ts:57 | the text cache becomes empty, and nothing else changes |
| `ListenerCore.Listener.SysMsgHandler` | bilive/listener.ts:137-144 | escalated iff the room id is present and the text is not cached; then the text is cached and a small-TV check of that room is due in 15 s; a second identical hint is rejected until the cache is cleared |
| `ListenerCore.Listener.SysGiftHandler` | bilive/listener.ts:152-158 | escalated iff the room id and gift id are present and the text is not cached; then the text is cached and a raffle check of that room is due at once |
| `ListenerCore.Listener.RaffleCheck` | bilive/listener.ts:188-210 | the new window is the old one with the confirmed raffle messages admitted in list order; a failed check changes nothing |
| `ListenerCore.Listener.LotteryCheck` | bilive/listener.ts:220-239 | the new window is the old one with the confirmed lottery messages admitted in order; a failed check changes nothing |
| `ListenerCore.Listener.LotteryHandler` | bilive/listener.ts:166-179 | the search keyword is the extracted name; no match or an empty search changes nothing; otherwise the first found room's lottery check is admitted |
| `ListenerCore.Listener.UpdateAreaRoom` | bilive/listener.ts:64-97 | a failed fetch leaves the clients untouched; a successful one leaves exactly the rooms of `TargetRooms` connected; rooms kept keep their client; each newly connected room gets a fresh client opened with the `userID` read for this call; exactly the dropped rooms' clients are closed; a listing whose targets are already connected changes nothing |
| `ListenerCore.Listener.Reconcile` | bilive/listener.ts:80-95 | the connected rooms become the target set; surviving rooms keep their client; only missing rooms get a fresh client, opened with the given `userID`; exactly the dropped rooms' clients are closed; the same target twice changes nothing |
| `ListenerCore.Listener.OpenMissing` | bilive/listener.ts:80-89 | every target room gets a client; existing clients are untouched; each newly opened client is fresh and sits under its room |
| `ListenerCore.Listener.CloseStale` | bilive/listener.ts:91-95 | exactly the non-target rooms are removed, and their clients are closed |
| `ListenerCore.Listener.OpenClient` | bilive/listener.ts:82-88 | a fresh, never-opened client for the room and the given `userID` is added under its room |
| `ListenerCore.Listener.CloseClient` | bilive/listener.ts:93-94 | the room's client is closed and removed from the map |

## Left out

- HTTP requests (`tools.XHR`) and query signing (`AppClient.signQueryBase`): each reply is an input to the method that consumes it.
- The delays `tools.Sleep(15 * 1000)` and `tools.Sleep(3 * 1000)`: the 15-second delay is reported in the `PendingHint` a `SYS_MSG` produces. The 3-second jitter has no effect on state and is not modelled. Interleavings of concurrent hints are not modelled; each method is one atomic step.
- `setInterval` in `Start`: the timer body is the method `ClearMsgCache`. The caller of `clearAllID` is outside this file and is not part of this model.
- `Start`'s split of `serverURL` and `_RoomListener`: these are configuration wiring and an external multiplexed client. Each of that client's four event kinds calls `_RaffleHandler`, which is `RaffleHandler`. Its `sysmsg` kind only logs.
- The room client's wire protocol, `Connect`, `Close`, `removeAllListeners` and the `SYS_MSG`/`SYS_GIFT`/`GUARD_MSG` callback registration: a client is an opaque handle.
- `EventEmitter` dispatch and `tools.Log` output: emission is an append to the ghost log `emitted`.
- JavaScript's `+` coercion of `raffleId`, `time_wait`, `max_time` and `id` (it can give NaN or fractions): items carry integers already.
- `encodeURI` and the search URL: the search keyword is returned, and the search reply is an input.
- The regular-expression engine in general: only this one pattern's match is specified. Dafny characters are Unicode scalar values, while JavaScript strings are UTF-16 code units. The prefix's three characters are in the Basic Multilingual Plane, so `substr(3)` drops exactly those three characters.
- Malformed reply bodies: a reply that arrives without the expected fields makes the source throw, for example at `live_user.length` (bilive/listener.ts:176) or at `body.data.list.length` (bilive/listener.ts:195). The model's replies always have those fields.
- ListenerCore.Listener.RaffleCheck, ListenerCore.Listener.LotteryCheck: stamp every message of one reply with the same `now`, while the source reads `Date.now()` anew in each `_RaffleHandler` call (bilive/listener.ts:269). The calls of one `forEach` run synchronously, so the stamps differ by at most the loop's running time; the final `_lastUpdate` is modelled as the batch time.
