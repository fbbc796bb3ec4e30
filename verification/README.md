# Pokémon battle voting: client-side vote bookkeeping in Dafny

This project models the client side of a real-time Pokémon voting
application. Several browsers watch the same battle, vote for one Pokémon
each, and exchange votes over a WebSocket channel. The model covers five
parts:

- **The vote reconciliation engine** (`useVoting.ts`). It keeps a
  `BattleState` (`userVote`, `voteStats`, `totalVotes`, `winners`,
  `hasVoted`) and folds these events into it:
  - the user's own guarded vote;
  - remote `vote` messages, with echo suppression and a dedup set keyed on
    `userId-pokemonId-timestamp`;
  - `new_battle` resets;
  - priming from the store when the battle key changes;
  - re-reading the store when the window regains focus.

  From the tallies it derives totals, percentages and winners.
- **The durable store and its helpers** (`utils.ts`):
  - the canonical battle key;
  - the voted-battles list;
  - battle-result snapshots keyed by battle;
  - the stored user id;
  - distinct random id selection.
- **The real-time channel service** (`websocket.ts`):
  - the handler and listener registries;
  - the inbound scope and self-echo filter;
  - dispatch with per-handler error isolation;
  - the outgoing envelope and the not-connected send guard;
  - the open, close and error transitions, the connect timeout and the heartbeat.
- **The battle session manager** (`useBattleManager.ts`): the default
  battle, restore-with-validation, persisting each change, and random
  battles.
- **The display DTO** (`pokemon.dto.ts`): name capitalisation and
  tenths-with-units formatting.

Modules and files:

| file | module | role |
|---|---|---|
| `wrappers.dfy` | `Wrappers` | `Option` and `Result` |
| `types.dfy` | `Types` | tallies, votes, messages |
| `constants.dfy` | `Constants` | default ids, `MAX_POKEMON_ID` = 248, `DEFAULT_BATTLEFIELD_SIZE` = 2 |
| `decimal.dfy` | `Decimal` | integer ↔ decimal text |
| `sorting.dfy` | `Sorting` | the numeric ascending sort |
| `battle_keys.dfy` | `BattleKeys` | the battle key and its parser |
| `storage.dfy` | `Storage` | the `localStorage` entries |
| `random_ids.dfy` | `RandomIds` | random id selection |
| `vote_stats.dfy` | `VoteTally` | totals, percentages, winners, adding a vote |
| `voting.dfy` | `Voting`, `VotingLifecycle` | the engine |
| `voting_properties.dfy` | `VotingProperties` | multi-step engine properties |
| `channel.dfy` | `Channel` | the WebSocket service |
| `session.dfy` | `Session` | one client: service plus engine |
| `battle_manager.dfy` | `BattleManager` | the session manager |
| `pokemon_dto.dfy` | `PokemonDto` | the display record |

Representation choices:

- **Tallies.** A JavaScript tally object `{ [pokemonId]: { votes, percentage } }`
  is a sequence of entries in strictly ascending id order. That is the order
  `Object.entries` yields for array-index keys (the integers 0 to 2^32 - 2),
  so for such ids the order of `winners` matches the source's.
- **Percentages** are exact `real` values.
- **Storage.** Each JSON `localStorage` entry is a `Slot`: missing,
  unparseable, or holding a value. The user id is a plain string, where the
  empty string stands for a missing entry. A flag stands for a store whose
  writes throw.
- **Randomness.** `Math.random` is a finite stream of draws in [0, 1).
- **React updates.** Each state update is a pure transition. The deferred
  recomputation after a remote vote (`setTimeout(…, 0)`) is
  `Voting.DeferredRecompute`, and `Voting.OnMessage` applies it in the same
  transition as the increment, so no other event comes between the two.
- **Toasts** are `Notice` tags.

Where the documentation and the code of the repository differ, the model
follows the code:

- **No voted flag on battle change.** When the battle key changes, the
  initialisation effect (useVoting.ts:44-65) only primes tallies and scope.
  It does not read the voted list and does not clear the dedup set. So a
  reloaded page shows the battle as voted only after a focus refresh.
  `VotingProperties.ReloadRestoresVote` proves the round trip through enter
  plus refresh.
- **Empty key.** The initialisation effect returns early for an empty key.
  `refreshStateFromStorage` (240-261) has no such guard, and it overwrites
  `hasVoted` even with `false`.
- **`stats` messages are ignored.** The subscription handler (141-198) acts
  only on `vote` and `new_battle`.
- **Winner notices are never shown.** `updateVoteStats`, with its
  winner/tie notices (79-113), is defined but never called. It is modelled
  as `VotingLifecycle.UpdateVoteStats`.
- **Store errors escape `vote`.** `hasUserVotedInBattle` and
  `markBattleAsVoted` (utils.ts:18-35) have no `try`, so an unparseable
  voted list throws out of `vote` after the state update is queued. No
  thank-you notice is shown then. In `Refresh` the throw happens before any
  state change.
- **Winners is an array.** The source declares a singular `winner` in some
  types (utils.ts:51, types/pokemon.ts:29). The engine uses a `winners`
  array, and the model follows the engine.
- **No reconnect.** The channel never schedules a reconnect;
  `reconnectInterval` is only ever cleared.
- **Leaked heartbeat.** A second `onopen` without a close in between starts
  a second heartbeat interval and loses the handle to the first. That
  interval then runs forever (`Channel.ReopenLeaksHeartbeat`).

## Model

| member | source | states |
|---|---|---|
| Decimal.NatRoundTrip | src/shared/lib/utils.ts:16 | the decimal rendering of a natural number (as `join` renders it) reads back to the same number |
| Decimal.IntRoundTrip | src/shared/lib/utils.ts:16 | the decimal rendering of any integer, sign included, reads back to the same integer |
| Decimal.IntToStringInjective | src/shared/lib/utils.ts:16 | two integers render alike exactly when they are equal |
| Sorting.SortAsc | src/shared/lib/utils.ts:16 | the comparator sort `(a, b) => a - b` yields an ascending permutation of its input |
| Sorting.SortAscCharacterisation | src/shared/lib/utils.ts:16 | two arrays sort to the same result exactly when they hold the same ids with the same multiplicities |
| BattleKeys.JoinIdsRoundTrip | src/shared/lib/utils.ts:16 | parsing a `_vs_`-joined id list gives back exactly that list |
| BattleKeys.BattleKeyRoundTrip | src/shared/lib/utils.ts:16 | a battle key parses back to the numerically sorted ids |
| BattleKeys.BattleKeyIffPermutation | src/shared/lib/utils.ts:16 | two id lists share a battle key exactly when one is a permutation of the other |
| BattleKeys.BattleKeyOfEmpty | src/shared/lib/__tests__/utils.test.ts:50-55 | the key of no ids is the empty string |
| BattleKeys.BattleKeyOfSingle | src/shared/lib/__tests__/utils.test.ts:43-48 | the key of one id is its decimal rendering |
| BattleKeys.BattleKeyExample | src/shared/lib/__tests__/utils.test.ts:36-41 | the ids 25, 1, 44 give "1_vs_25_vs_44" |
| Storage.GetUserId | src/shared/lib/utils.ts:4-14 | a stored id is returned unchanged; otherwise the fingerprint becomes the id and is stored; the call throws exactly when there is no id and the write throws |
| Storage.UserIdIsStable | src/shared/lib/utils.ts:4-14 | once an id is resolved, every later call returns it, whatever the fingerprint |
| Storage.HasUserVotedInBattle | src/shared/lib/utils.ts:18-25 | false when nothing is stored, key membership when a list is stored, an error exactly when the stored list is unparseable |
| Storage.MarkBattleAsVoted | src/shared/lib/utils.ts:27-35 | an unparseable list throws; a present key writes nothing; an absent key is appended to the existing list, and the call throws exactly when that write throws |
| Storage.MarkThenHasVoted | src/shared/lib/utils.ts:18-35 | after a successful mark the key reads as voted and every other key reads as before |
| Storage.MarkIdempotent | src/shared/lib/utils.ts:27-35 | marking a key a second time writes nothing |
| Storage.MarkAppendsExample | src/shared/lib/__tests__/utils.test.ts:86-96 | marking "44_vs_100" on ["1_vs_25"] stores ["1_vs_25", "44_vs_100"] |
| Storage.SaveBattleResult | src/shared/lib/utils.ts:57-67 | only the results entry can change; an unparseable entry or a throwing write leaves the store as it was |
| Storage.GetBattleResult | src/shared/lib/utils.ts:69-82 | nothing is found when the results entry is missing or unparseable; otherwise a result is found exactly when the stored map has the key, and it is the stored entry |
| Storage.SaveThenGet | src/shared/lib/utils.ts:57-82 | a result saved into a readable, writable store is read back unchanged under its key |
| Storage.SaveKeepsOtherKeys | src/shared/lib/utils.ts:57-67 | saving never changes what is read under any other battle key (merge, not replace) |
| RandomIds.DrawId | src/shared/lib/utils.ts:41 | every draw yields an id between 1 and 248 |
| RandomIds.Distinct | src/shared/lib/utils.ts:38-45 | the ids collected in the set hold no duplicates and are exactly the drawn ones |
| RandomIds.GetRandomPokemonIds | src/shared/lib/utils.ts:37-46 | the result is the first `count` distinct drawn ids: exactly `count` of them, pairwise distinct, in range; none while the draws run short |
| RandomIds.RandomIdsNeedCountAtMostMax | src/shared/lib/utils.ts:40-43 | asking for more than 248 ids can never be met, so the loop cannot end |
| VoteTally.MaxVotes | src/features/voting/lib/useVoting.ts:70-71 | the maximum bounds every entry's votes and is attained by one of them |
| VoteTally.IdsWithVotes | src/features/voting/lib/useVoting.ts:72-74 | an id is listed exactly when some entry has it with the given votes; the list is ascending |
| VoteTally.LeaderIffMax | src/features/voting/lib/useVoting.ts:70-74 | an id leads (present, no entry has more votes) exactly when it has an entry with the maximum votes |
| VoteTally.CalculateWinners | src/features/voting/lib/useVoting.ts:67-77 | no winners at zero total; otherwise an id wins exactly when it leads, and some id wins once there are entries |
| VoteTally.WinnersAreArgmax | src/features/voting/lib/useVoting.ts:70-74 | every winner has at least as many votes as any id, counted or not |
| VoteTally.WithPercentages | src/features/voting/lib/useVoting.ts:119-125 | each entry keeps its id and votes, and its percentage is votes/total·100, or 0 at zero total |
| VoteTally.ProcessVoteStats | src/features/voting/lib/useVoting.ts:115-139 | total is the sum of votes; counts and ids are kept; percentages are recomputed; winners are those of the counts |
| VoteTally.ProcessVoteStatsMeaning | src/features/voting/lib/useVoting.ts:115-139 | recomputation keeps the id set and every id's votes; winners are empty at zero and exactly the leaders otherwise |
| VoteTally.ProcessVoteStatsIdempotent | src/features/voting/lib/useVoting.ts:115-139 | recomputing already recomputed tallies changes nothing |
| VoteTally.SameVotesSameWinners | src/features/voting/lib/useVoting.ts:67-77 | winners depend only on ids and vote counts, never on stale percentages |
| VoteTally.AddVote | src/features/voting/lib/useVoting.ts:156-164 | adding a vote adds the id to the tallied ids and nothing else |
| VoteTally.AddVoteMap | src/features/voting/lib/useVoting.ts:157-161 | only the voted id's tally changes: it is created at zero if absent and gains one vote |
| VoteTally.AddVoteSum | src/features/voting/lib/useVoting.ts:156-164 | one vote raises the sum of votes by exactly one |
| VoteTally.AddVoteCounts | src/features/voting/lib/useVoting.ts:216-222 | the voted id gains one vote and every other id keeps its count |
| Voting.PersistIfCounted | src/features/voting/lib/useVoting.ts:127-136 | a snapshot is written only when the total is positive; it is then read back under the battle key; no other battle's result and no other store entry changes; an unparseable results entry or a throwing write leaves the store as it was |
| Voting.CastVote | src/features/voting/lib/useVoting.ts:200-238 | without `canVote` nothing is sent or changed; otherwise the vote is sent and counted once, the total rises by one, userVote and hasVoted are set, and the aggregates agree with the tallies; the battle is marked voted and the snapshot saved whenever the store permits; the thank-you notice appears exactly when the battle then reads as voted; every other battle's voted flag and saved result are kept, and an unparseable results entry or a throwing write leaves the results as they were; the tallied ids gain exactly the voted id |
| Voting.DeferredRecompute | src/features/voting/lib/useVoting.ts:115-176 | the deferred callback recomputes total and aggregates from the latest tallies; once a vote is counted it saves them as the battle's snapshot (when the store permits); an unparseable results entry or a throwing write leaves the store as it was; the voted list, other battles' results and the rest of the engine are kept |
| Voting.ResetForNewBattle | src/features/voting/lib/useVoting.ts:179-188 | a reset empties the state and the dedup set and keeps everything else |
| Voting.OnMessage | src/features/voting/lib/useVoting.ts:141-198 | while connected, an own or already seen vote is ignored; a new one records its key, raises exactly its id's tally and the total by one, and saves the battle's snapshot when the store permits, keeping the voted list and other battles' results, and leaving the store alone when the results entry is unparseable or the write throws; the tallied ids gain exactly the voted id; `new_battle` resets the state and the dedup set and leaves the store alone; other kinds are ignored |
| VotingLifecycle.EnterBattle | src/features/voting/lib/useVoting.ts:44-65 | an empty key does nothing; otherwise the tallies are primed from the saved snapshot or zeroed, the channel is scoped to the key, and hasVoted, userVote, the user id, the connection flag, the dedup set and the store are untouched |
| VotingLifecycle.Refresh | src/features/voting/lib/useVoting.ts:240-261 | an unparseable voted list throws before any change; otherwise hasVoted is overwritten from the store and the tallies from the snapshot |
| VotingLifecycle.LeadNotice | src/features/voting/lib/useVoting.ts:101-105 | a winner notice exactly on a change to one winner, a tie notice exactly on a change from at most one to several, none when the number of winners is unchanged |
| VotingLifecycle.UpdateVoteStats | src/features/voting/lib/useVoting.ts:79-113 | the adopted aggregates agree with the given counts, the snapshot is saved even at zero (unless the results entry is unparseable or the write throws, which leaves the store as it was) while other battles' results and the voted list are kept, hasVoted and userVote are kept, and the notice compares the new winners with the previous ones |
| VotingProperties.RedeliveryIdempotent | src/features/voting/lib/useVoting.ts:149-154 | delivering the same message twice has the effect of delivering it once |
| VotingProperties.RemoteVoteStep | src/features/voting/lib/useVoting.ts:146-177 | one remote vote is either ignored, or records its key, adds exactly one vote and leaves the aggregates consistent |
| VotingProperties.DeliverVotesCountsEachKeyOnce | src/features/voting/lib/useVoting.ts:146-177 | over any sequence of remote votes, the votes tallied rise by the number of distinct foreign keys not seen before, and the dedup set gains exactly those keys |
| VotingProperties.DeliverNothingNew | src/features/voting/lib/useVoting.ts:149-152 | a batch of votes that are all own or already seen leaves the engine exactly as it was |
| VotingProperties.DeliverVotesConsistent | src/features/voting/lib/useVoting.ts:166-176 | once any new vote was folded, total and winners agree with the tallies |
| VotingProperties.DeliverVotesTotal | src/features/voting/lib/useVoting.ts:146-177 | from consistent aggregates, the running total rises by exactly the number of unseen foreign keys |
| VotingProperties.NewBattleReaccepts | src/features/voting/lib/useVoting.ts:179-188 | after `new_battle`, a previously counted vote key is counted again |
| VotingProperties.ConsistencyPreserved | src/features/voting/lib/useVoting.ts:141-238 | every message and the user's vote keep the aggregates in agreement with the tallies |
| VotingProperties.SecondVoteIgnored | src/features/voting/lib/useVoting.ts:201 | after a vote, another vote on the same engine does nothing |
| VotingProperties.ReloadRestoresVote | src/features/voting/lib/useVoting.ts:44-65 | after a vote, a fresh engine over the same store that enters the battle and refreshes shows it voted with the saved tallies |
| VotingProperties.NoticeNotRepeated | src/features/voting/lib/useVoting.ts:101-105 | updating twice with the same counts shows no second notice |
| VotingProperties.FirstVoteExample | src/features/voting/lib/useVoting.ts:216-234 | a first vote for 1 gives one entry at 100 percent, total 1 and winners [1] |
| VotingProperties.TieAggregatesExample | src/features/voting/lib/useVoting.ts:115-139 | one vote each for 1 and 25 gives 50 percent each and winners [1, 25] |
| VotingProperties.TieExample | src/features/voting/lib/useVoting.ts:146-177 | a remote vote for 25 after the user's vote for 1 leads to an even split and a two-way tie |
| Channel.AddOnce | src/shared/lib/websocket.ts:151-157 | registration adds the callback and keeps the registry free of duplicates; the earlier entries keep their order, and a new callback goes last while a known one changes nothing |
| Channel.Remove | src/shared/lib/websocket.ts:154-156 | deregistration removes exactly that callback and keeps the registry free of duplicates; an absent callback changes nothing, and a present one is cut out at its position with the others left in order |
| Channel.Subscribe | src/shared/lib/websocket.ts:151-157 | subscribing registers the handler, adds no other, and changes nothing but the handlers |
| Channel.Unsubscribe | src/shared/lib/websocket.ts:151-157 | the returned function removes the handler, removes no other, and changes nothing but the handlers |
| Channel.SubscribeDeliversLast | src/shared/lib/websocket.ts:151-157 | a newly subscribed handler is called after every earlier one |
| Channel.SubscribeTwice | src/shared/lib/websocket.ts:151-157 | subscribing a handler already held changes nothing |
| Channel.OnConnectionChange | src/shared/lib/websocket.ts:159-165 | registering a connection listener adds it, adds no other, and changes nothing but the listeners |
| Channel.RemoveConnectionListener | src/shared/lib/websocket.ts:159-165 | the returned function removes the listener, removes no other, and changes nothing but the listeners |
| Channel.ListenerRegistration | src/shared/lib/websocket.ts:159-168 | a new listener is told of an opening after every earlier one; a removed listener is not told |
| Channel.SubscribeUnsubscribe | src/shared/lib/websocket.ts:151-157 | subscribing a new handler and calling the returned function restores the registry |
| Channel.UnsubscribedReceivesNothing | src/shared/lib/websocket.ts:106-112 | a removed handler receives nothing, and every other handler receives what it did before |
| Channel.HandleIncoming | src/shared/lib/websocket.ts:89-113 | a filtered envelope reaches no handler; an accepted one reaches every handler in order, and the failing ones are exactly the throwing ones among them |
| Channel.FailuresIsolated | src/shared/lib/websocket.ts:106-112 | which handlers throw never changes which handlers are called |
| Channel.OnFrame | src/shared/lib/websocket.ts:68-75 | an unparseable frame reaches nobody; a parsed one is dispatched |
| Channel.Outgoing | src/shared/lib/websocket.ts:181-187 | the envelope carries the message, the service's user id and the time, and the battle id only when the scope is a non-empty string |
| Channel.Send | src/shared/lib/websocket.ts:175-194 | an envelope is transmitted exactly when the service is connected, holds a socket and the transmission does not throw |
| Channel.OwnEchoDropped | src/shared/lib/websocket.ts:96-98 | a client never accepts its own envelope |
| Channel.ScopedDelivery | src/shared/lib/websocket.ts:91-93 | an envelope sent under a scope is accepted by another user exactly when that user has the same scope |
| Channel.UnscopedBroadcast | src/shared/lib/websocket.ts:91-98 | an unscoped envelope is accepted by every other user, whatever their scope |
| Channel.Settle | src/shared/lib/websocket.ts:40-86 | a pending connect promise takes the first outcome; a settled one ignores every later outcome |
| Channel.Connect | src/shared/lib/websocket.ts:35-43 | a held user id is kept; otherwise the awaited id is adopted, and when awaiting it fails the connect rejects with no socket opened; on success a socket is opened and the promise is pending; nothing else changes |
| Session.ConnectWithStore | src/shared/lib/websocket.ts:35-43 | with no held id, the connect goes ahead exactly when the store holds an id or the fingerprint loads and can be stored; the channel then uses the id the store holds; otherwise it rejects, opens no socket and leaves the store alone |
| Channel.Opened | src/shared/lib/websocket.ts:44-50 | open connects, tells every listener true, starts one more heartbeat and resolves a pending promise and leaves a settled one as it is; handlers, listeners, scope, user id and socket are untouched |
| Channel.Closed | src/shared/lib/websocket.ts:52-57 | close disconnects, tells every listener false and stops the held heartbeat; the promise and every other field are untouched |
| Channel.Errored | src/shared/lib/websocket.ts:59-66 | error disconnects, tells every listener false and rejects a pending promise, leaving a settled one as it is; the heartbeat and every other field are untouched |
| Channel.TimedOut | src/shared/lib/websocket.ts:77-82 | the timeout rejects only while not connected, and never changes a settled promise |
| Channel.SettledPromiseStable | src/shared/lib/websocket.ts:40-86 | once the connect promise has settled, no sequence of open, close, error and timeout events changes it |
| Channel.EventsKeepRegistries | src/shared/lib/websocket.ts:44-82 | no sequence of socket events changes the handlers, the listeners, the scope, the user id or the socket |
| Channel.Disconnect | src/shared/lib/websocket.ts:144-149 | disconnecting drops the socket and changes nothing else |
| Channel.DisconnectSilences | src/shared/lib/websocket.ts:175-178 | after disconnecting, neither a send nor a heartbeat transmits anything |
| Channel.SetBattleId | src/shared/lib/websocket.ts:171-173 | only the scope changes |
| Channel.HeartbeatTick | src/shared/lib/websocket.ts:115-128 | an unscoped heartbeat leaves exactly when connected with a socket |
| Channel.ReopenLeaksHeartbeat | src/shared/lib/websocket.ts:115-135 | two opens and a close leave one heartbeat running |
| Session.ClientEnterBattle | src/features/voting/lib/useVoting.ts:44-65 | entering a battle keeps the engine and the channel scope aligned |
| Session.Receive | src/shared/lib/websocket.ts:89-113 | the engine sees an envelope exactly when the channel delivers it to the engine's handler |
| Session.PeerVoteCountedOnce | src/shared/lib/websocket.ts:89-113 | a vote cast by one client reaches a peer in the same battle and is counted there once, however often it is delivered |
| Session.OtherBattleUnaffected | src/shared/lib/websocket.ts:91-93 | a client in another battle never sees the vote |
| BattleManager.Restore | src/widgets/battle/lib/useBattleManager.ts:21-35 | a stored battle is adopted exactly when it has at least two ids; a missing, short or unparseable one keeps the current battle |
| BattleManager.Persist | src/widgets/battle/lib/useBattleManager.ts:37-43 | the battle is written under the current-battle entry, and a throwing write is swallowed |
| BattleManager.Mount | src/widgets/battle/lib/useBattleManager.ts:10-43 | the mounted battle is the default restored over, always has at least two ids, and is persisted |
| BattleManager.PersistThenRestore | src/widgets/battle/lib/useBattleManager.ts:21-43 | a persisted battle of at least two ids is restored on the next mount; a shorter one is not |
| BattleManager.MountStable | src/widgets/battle/lib/useBattleManager.ts:10-43 | mounting again over what a mount left shows the same battle and writes nothing new |
| BattleManager.StartRandomBattle | src/widgets/battle/lib/useBattleManager.ts:45-51 | a random battle has exactly two distinct ids in range, or none while the draws hold fewer than two distinct ids; the ids are the first two distinct draws, in draw order |
| PokemonDto.FormatPokemonName | src/shared/dto/pokemon.dto.ts:3 | the length is kept, "" stays "", the first character is upper-cased and the rest is unchanged |
| PokemonDto.FormatPokemonNameIdempotent | src/shared/dto/pokemon.dto.ts:3 | formatting a formatted name changes nothing |
| PokemonDto.FormatTenths | src/shared/dto/pokemon.dto.ts:5-7 | the rendering ends in a point and exactly one digit, led by a minus exactly for negative input |
| PokemonDto.TenthsRoundTrip | src/shared/dto/pokemon.dto.ts:5-7 | the rendering of an integer count of tenths reads back to that integer |
| PokemonDto.FormatMeasuresInjective | src/shared/dto/pokemon.dto.ts:5-7 | two weights, or two heights, render alike exactly when they are equal |
| PokemonDto.FormatMeasuresExample | src/shared/dto/pokemon.dto.ts:5-7 | 69 renders as "6.9 kg", 7 as "0.7 m", -5 as "-0.5 kg" |
| PokemonDto.ToDto | src/shared/dto/pokemon.dto.ts:22-28 | id, base experience and image are copied; the name, height and weight are the formatted values |
| PokemonDto.DtoKeepsInformation | src/shared/dto/pokemon.dto.ts:22-28 | items with the same name map to the same record exactly when they are equal |

## Left out

- I/O is abstract:
  - WebSocket I/O is not modelled: inbound frames arrive as function arguments and outbound envelopes are returned values;
  - JSON parsing and serialisation are not modelled: an entry that fails to parse is the `Corrupt` slot, and a garbled frame is `Garbled`;
  - `console` logging is not modelled.
- Timers are not modelled: the 30-second heartbeat interval and the 10-second connect timeout are events the caller triggers.
- Voting.OnMessage: the zero-delay deferral after a remote vote is folded into the same transition, so the interleavings the source allows between the increment and the queued recompute are not modelled. Among them: a battle-key change before the callback fires, after which the callback's `processVoteStats`, captured with the old key, saves the new battle's tallies under the old key (useVoting.ts:115-139, 166-176); and a user vote or `new_battle` landing in between.
- Inbound payloads are assumed well typed: a `vote` payload carries an integer `pokemonId` and `timestamp` and a string `userId`. The source does not check this (useVoting.ts:146-161). Ids outside the array-index range, such as negative ones, are listed by `Object.entries` after the index keys in insertion order, so the source's `winners` order can then differ from the model's ascending order.
- Channel.Disconnect: `ws.close()` fires `onclose` later, and that is the separate `Closed` event. The model does not tie the two together. Until then `isConnected` stays as it was, and the missing socket alone stops sends and heartbeats.
- Channel.Notify: connection listeners are assumed not to throw. `notifyConnectionListeners` (websocket.ts:167-168) has no `try`, so a throwing listener stops the later listeners. Inside `onopen` (websocket.ts:44-50) it would also skip starting the heartbeat and resolving the promise. Channel.Opened, Channel.Closed and Channel.Errored always notify every listener.
- Decimal.IntToString: the rendering matches `String(n)` only for integers of magnitude at most 2^53 (9007199254740992). Above that a double holds only some integers, and `String(n)` prints the shortest digits that identify the double (`String(2**60)` is `"1152921504606847000"`), switching to exponential notation from 10^21. The same bound applies to BattleKeys.JoinIds and to Voting.VoteKey, which render ids and timestamps with it.
- Connection listeners are modelled only as the list of `Signal`s they receive. The React glue in `useWebSocket.ts`, which turns those signals into `isConnected`, is not part of this model.
- Fingerprinting in `getUserId` is a foreign library call. Its result is an input string.
- React's scheduling is simplified: state updates are applied in program order. This hides two things:
  - the in-place `votes += 1` on the previous state's nested object;
  - a second run of an updater in development strict mode.
- Toast notifications are only tags. Their text and emoji are not modelled.
- VoteTally.WithPercentages: percentages are exact reals, not IEEE doubles, so the rounding of `votes / totalVotes * 100` is not modelled.
- PokemonDto.FormatTenths: the model matches `(n / 10).toFixed(1)` only while |n| < 5629499534213120 (n / 10 below 2^49). From there the double nearest to n / 10 is off by more than half a tenth, so the source prints a different last digit and renders some distinct integers alike (6000000000000007 and 6000000000000008 both give "600000000000000.8"). PokemonDto.FormatMeasuresInjective and PokemonDto.TenthsRoundTrip hold of the model, and of the source only within that bound.
- PokemonDto.UpperAscii: upper-casing covers ASCII letters only. Unicode case mappings, including those that lengthen the string, are not modelled.
- `getBattleKey` sorts the caller's array in place. The model returns a fresh sorted sequence and does not model the caller seeing its array reordered.
- Stored JSON of the wrong shape counts as `Corrupt`. A results entry that parses to a primitive makes `saveBattleResult` throw a TypeError on assignment (module code is strict), which the catch at utils.ts:64 swallows. One that parses to an array takes the new key as a property, which `JSON.stringify` then drops, so the entry is unchanged. Either way a save leaves it as it was, as `Corrupt` does.
- The dedup key is modelled by its string form, so two different votes can share a key when a user id contains `-`, exactly as in the source.
- RandomIds.GetRandomPokemonIds: when the draws run out it returns `None`. The source keeps drawing, and never stops when more than 248 ids are requested.
- The UI components and the HTTP client are not modelled: `VotingInterface.tsx`, `VotingResultsTable.tsx`, `PokemonCard.tsx`, the widgets, `App.tsx`, `api/pokemon.ts` and `usePokemon.ts`.
