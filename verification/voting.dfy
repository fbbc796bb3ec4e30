/**
 * The vote reconciliation engine of one client: it folds the user's own vote,
 * remote `vote` messages and `new_battle` resets into a `BattleState`, derives
 * totals, percentages and winners, and keeps the durable store up to date.
 * React's state updates are modelled as pure transitions; the deferred
 * recomputation after a remote vote (`DeferredRecompute`) is applied within
 * the same transition as the increment it follows.
 */
module Voting {
  import opened Wrappers
  import opened Types
  import opened Decimal
  import opened VoteTally
  import opened Storage

  datatype BattleState = BattleState(
    userVote: Option<int>,
    voteStats: VoteStats,
    totalVotes: nat,
    winners: seq<int>,
    hasVoted: bool)

  const InitialState := BattleState(None, [], 0, [], false)

  /**
   * Everything the engine reads or writes: its state, the user id (empty
   * until resolved), the channel's connection flag, the current battle key,
   * the set of remote vote keys already folded, and the durable store.
   */
  datatype Engine = Engine(
    state: BattleState,
    userId: string,
    connected: bool,
    battleKey: string,
    processed: set<string>,
    store: Store)

  /** The user-visible notifications, as tags. */
  datatype Notice = ThanksForVoting | WinnerAnnounced(pokemonId: int) | TieAnnounced

  /** The aggregates of a state agree with its tallies. */
  predicate Consistent(s: BattleState) {
    var a := ProcessVoteStats(s.voteStats);
    a.updatedStats == s.voteStats && a.totalVotes == s.totalVotes && a.winners == s.winners
  }

  /** `canVote`: connected, not yet voted, and the user id resolved. */
  predicate CanVote(e: Engine) {
    e.connected && !e.state.hasVoted && e.userId != ""
  }

  /** The deduplication key `${userId}-${pokemonId}-${timestamp}` of a remote vote. */
  function VoteKey(v: VoteData): string {
    v.userId + "-" + IntToString(v.pokemonId) + "-" + IntToString(v.timestamp)
  }

  /** The snapshot `processVoteStats` saves: only once at least one vote is counted. */
  function PersistIfCounted(store: Store, battleKey: string, a: Aggregates, now: int): (r: Store)
    ensures a.totalVotes == 0 ==> r == store
    ensures store.battleResults == Corrupt || store.quotaExceeded ==> r == store
    ensures a.totalVotes > 0 && store.battleResults != Corrupt && !store.quotaExceeded ==>
      GetBattleResult(r, battleKey) == Some(BattleResult(battleKey, a.updatedStats, a.totalVotes, a.winners, now))
    ensures forall k :: k != battleKey ==> GetBattleResult(r, k) == GetBattleResult(store, k)
    ensures r.(battleResults := store.battleResults) == store
  {
    if a.totalVotes > 0 then
      var result := BattleResult(battleKey, a.updatedStats, a.totalVotes, a.winners, now);
      assert store.battleResults != Corrupt && !store.quotaExceeded ==>
        GetBattleResult(SaveBattleResult(store, result), battleKey) == Some(result) by {
        if store.battleResults != Corrupt && !store.quotaExceeded {
          SaveThenGet(store, result);
        }
      }
      forall k | k != battleKey
        ensures GetBattleResult(SaveBattleResult(store, result), k) == GetBattleResult(store, k)
      {
        SaveKeepsOtherKeys(store, result, k);
      }
      SaveBattleResult(store, result)
    else store
  }

  /** A state carrying freshly recomputed aggregates of `stats`. */
  function WithAggregates(s: BattleState, a: Aggregates): BattleState {
    s.(voteStats := a.updatedStats, totalVotes := a.totalVotes, winners := a.winners)
  }

  lemma RecomputedIsConsistent(s: BattleState)
    ensures Consistent(WithAggregates(s, ProcessVoteStats(s.voteStats)))
  {
    ProcessVoteStatsIdempotent(s.voteStats);
  }

  /** What a call of `vote` produces: the next engine, the messages handed to `send`, and notices. */
  datatype VoteOutcome = VoteOutcome(engine: Engine, sent: seq<Message>, notices: seq<Notice>)

  /**
   * `vote(pokemonId)` at time `now`. Unless voting is allowed it does nothing.
   * Otherwise it sends the vote, counts it locally, recomputes and saves the
   * aggregates, records the user's vote, and marks the battle as voted; when
   * marking throws, the state change has already been queued but the thank-you
   * notice is not shown.
   */
  function CastVote(e: Engine, pokemonId: int, now: int): (r: VoteOutcome)
    ensures !CanVote(e) ==> r == VoteOutcome(e, [], [])
    ensures CanVote(e) ==>
      && r.sent == [Message.Vote(VoteData(pokemonId, e.userId, now))]
      && r.engine.state.hasVoted
      && r.engine.state.userVote == Some(pokemonId)
      && Votes(r.engine.state.voteStats, pokemonId) == Votes(e.state.voteStats, pokemonId) + 1
      && (forall other :: other != pokemonId ==>
            Votes(r.engine.state.voteStats, other) == Votes(e.state.voteStats, other))
      && r.engine.state.totalVotes == SumVotes(e.state.voteStats) + 1
      && Consistent(r.engine.state)
      && r.engine.(state := e.state, store := e.store) == e
    ensures CanVote(e) && e.store.votedBattles != Corrupt && !e.store.quotaExceeded ==>
      && HasUserVotedInBattle(r.engine.store, e.battleKey) == Success(true)
      && r.notices == [ThanksForVoting]
    ensures CanVote(e) && e.store.battleResults != Corrupt && !e.store.quotaExceeded ==>
      GetBattleResult(r.engine.store, e.battleKey) ==
        Some(BattleResult(e.battleKey, r.engine.state.voteStats, r.engine.state.totalVotes, r.engine.state.winners, now))
    ensures CanVote(e) ==> (r.notices == [ThanksForVoting] <==> HasUserVotedInBattle(r.engine.store, e.battleKey) == Success(true))
    ensures r.notices == [] || r.notices == [ThanksForVoting]
    ensures forall k :: k != e.battleKey ==> GetBattleResult(r.engine.store, k) == GetBattleResult(e.store, k)
    ensures forall k :: k != e.battleKey ==> HasUserVotedInBattle(r.engine.store, k) == HasUserVotedInBattle(e.store, k)
    ensures r.engine.store.(votedBattles := e.store.votedBattles, battleResults := e.store.battleResults) == e.store
    ensures e.store.battleResults == Corrupt || e.store.quotaExceeded ==> r.engine.store.battleResults == e.store.battleResults
    ensures e.store.quotaExceeded ==> r.engine.store == e.store
    ensures CanVote(e) ==> IdSet(r.engine.state.voteStats) == IdSet(e.state.voteStats) + {pokemonId}
  {
    if !CanVote(e) then VoteOutcome(e, [], [])
    else
      var counted := AddVote(e.state.voteStats, pokemonId);
      var a := ProcessVoteStats(counted);
      AddVoteSum(e.state.voteStats, pokemonId);
      ProcessVoteStatsMeaning(counted);
      forall other
        ensures Votes(counted, other) == Votes(e.state.voteStats, other) + (if other == pokemonId then 1 else 0)
      {
        AddVoteCounts(e.state.voteStats, pokemonId, other);
      }
      var state := WithAggregates(e.state, a).(userVote := Some(pokemonId), hasVoted := true);
      RecomputedIsConsistent(e.state.(voteStats := counted));
      var saved := PersistIfCounted(e.store, e.battleKey, a, now);
      var message := Message.Vote(VoteData(pokemonId, e.userId, now));
      match MarkBattleAsVoted(saved, e.battleKey)
      case Success(marked) =>
        MarkThenHasVoted(saved, e.battleKey, e.battleKey);
        forall k | k != e.battleKey
          ensures HasUserVotedInBattle(marked, k) == HasUserVotedInBattle(e.store, k)
        {
          MarkThenHasVoted(saved, e.battleKey, k);
        }
        VoteOutcome(e.(state := state, store := marked), [message], [ThanksForVoting])
      case Failure(_) =>
        VoteOutcome(e.(state := state, store := saved), [message], [])
  }

  /** The first step of folding a remote vote: record its key and count it. */
  function ApplyRemoteVote(e: Engine, v: VoteData): Engine {
    e.(processed := e.processed + {VoteKey(v)},
       state := e.state.(voteStats := AddVote(e.state.voteStats, v.pokemonId)))
  }

  /**
   * The zero-delay callback queued after a remote vote: recompute the
   * aggregates from the latest tallies and, once anything is counted, save
   * them as the battle's snapshot.
   */
  function DeferredRecompute(e: Engine, now: int): (r: Engine)
    ensures Consistent(r.state)
    ensures r.state.voteStats == ProcessVoteStats(e.state.voteStats).updatedStats
    ensures r.state.totalVotes == SumVotes(e.state.voteStats)
    ensures r.(state := e.state, store := e.store) == e
    ensures r.state.hasVoted == e.state.hasVoted && r.state.userVote == e.state.userVote
    ensures SumVotes(e.state.voteStats) == 0 ==> r.store == e.store
    ensures SumVotes(e.state.voteStats) > 0 && e.store.battleResults != Corrupt && !e.store.quotaExceeded ==>
      GetBattleResult(r.store, e.battleKey) ==
        Some(BattleResult(e.battleKey, r.state.voteStats, r.state.totalVotes, r.state.winners, now))
    ensures forall k :: k != e.battleKey ==> GetBattleResult(r.store, k) == GetBattleResult(e.store, k)
    ensures r.store.(battleResults := e.store.battleResults) == e.store
    ensures e.store.battleResults == Corrupt || e.store.quotaExceeded ==> r.store == e.store
  {
    var a := ProcessVoteStats(e.state.voteStats);
    RecomputedIsConsistent(e.state);
    e.(state := WithAggregates(e.state, a), store := PersistIfCounted(e.store, e.battleKey, a, now))
  }

  /** The state after a `new_battle` message: nothing counted, nobody voted. */
  function ResetForNewBattle(e: Engine): (r: Engine)
    ensures r.state == InitialState && r.processed == {}
    ensures r.(state := e.state, processed := e.processed) == e
  {
    e.(state := InitialState, processed := {})
  }

  /**
   * The subscription handler. It is only registered while connected; a remote
   * vote is ignored when it is the user's own or its key was already folded.
   */
  function OnMessage(e: Engine, m: Message, now: int): (r: Engine)
    ensures !e.connected ==> r == e
    ensures m.Vote? && (m.vote.userId == e.userId || VoteKey(m.vote) in e.processed) ==> r == e
    ensures e.connected && m.Vote? && m.vote.userId != e.userId && VoteKey(m.vote) !in e.processed ==>
      && r.processed == e.processed + {VoteKey(m.vote)}
      && SumVotes(r.state.voteStats) == SumVotes(e.state.voteStats) + 1
      && (forall x :: Votes(r.state.voteStats, x) == Votes(e.state.voteStats, x) + (if x == m.vote.pokemonId then 1 else 0))
      && Consistent(r.state)
      && r.state.hasVoted == e.state.hasVoted && r.state.userVote == e.state.userVote
      && (e.store.battleResults != Corrupt && !e.store.quotaExceeded ==>
            GetBattleResult(r.store, e.battleKey) ==
              Some(BattleResult(e.battleKey, r.state.voteStats, r.state.totalVotes, r.state.winners, now)))
      && (forall k :: k != e.battleKey ==> GetBattleResult(r.store, k) == GetBattleResult(e.store, k))
      && r.store.(battleResults := e.store.battleResults) == e.store
      && (e.store.battleResults == Corrupt || e.store.quotaExceeded ==> r.store == e.store)
      && IdSet(r.state.voteStats) == IdSet(e.state.voteStats) + {m.vote.pokemonId}
    ensures e.connected && m.NewBattle? ==> r.state == InitialState && r.processed == {} && r.store == e.store
    ensures !m.Vote? && !m.NewBattle? ==> r == e
    ensures r.userId == e.userId && r.connected == e.connected && r.battleKey == e.battleKey
  {
    if !e.connected then e
    else
      match m
      case Vote(v) =>
        if v.userId == e.userId || VoteKey(v) in e.processed then e
        else
          var applied := ApplyRemoteVote(e, v);
          AddVoteSum(e.state.voteStats, v.pokemonId);
          forall x
            ensures Votes(applied.state.voteStats, x) == Votes(e.state.voteStats, x) + (if x == v.pokemonId then 1 else 0)
          {
            AddVoteCounts(e.state.voteStats, v.pokemonId, x);
          }
          ProcessVoteStatsMeaning(applied.state.voteStats);
          var r := DeferredRecompute(applied, now);
          SameVotesSameAggregates(r.state.voteStats, applied.state.voteStats, 0);
          r
      case NewBattle(_, _) => ResetForNewBattle(e)
      case _ => e
  }
}

module VotingLifecycle {
  import opened Wrappers
  import opened Types
  import opened VoteTally
  import opened Storage
  import opened Voting

  /** The outcome of entering a battle: the engine and the channel scope it asks for, if any. */
  datatype Entered = Entered(engine: Engine, scope: Option<string>)

  /**
   * The effect that runs when the battle key changes. An empty key does
   * nothing further; otherwise the tallies are primed from the saved snapshot
   * (or cleared) and the channel is scoped to the key. It never reads the
   * voted list and never clears the set of folded vote keys.
   */
  function EnterBattle(e: Engine, key: string): (r: Entered)
    ensures key == "" ==> r == Entered(e.(battleKey := key), None)
    ensures key != "" ==> r.scope == Some(key)
    ensures r.engine.battleKey == key
    ensures r.engine.state.hasVoted == e.state.hasVoted && r.engine.state.userVote == e.state.userVote
    ensures r.engine.processed == e.processed && r.engine.store == e.store
    ensures r.engine.(state := e.state, battleKey := e.battleKey) == e
    ensures key != "" && GetBattleResult(e.store, key).Some? ==>
      var saved := GetBattleResult(e.store, key).value;
      r.engine.state.voteStats == saved.voteStats && r.engine.state.totalVotes == saved.totalVotes
        && r.engine.state.winners == saved.winners
    ensures key != "" && GetBattleResult(e.store, key).None? ==>
      r.engine.state.voteStats == [] && r.engine.state.totalVotes == 0 && r.engine.state.winners == []
  {
    var e1 := e.(battleKey := key);
    if key == "" then Entered(e1, None)
    else
      match GetBattleResult(e.store, key)
      case Some(saved) =>
        Entered(e1.(state := e.state.(voteStats := saved.voteStats, totalVotes := saved.totalVotes,
                                      winners := saved.winners)), Some(key))
      case None =>
        Entered(e1.(state := e.state.(voteStats := [], totalVotes := 0, winners := [])), Some(key))
  }

  /**
   * `refreshStateFromStorage`, run when the window regains focus. Reading a
   * corrupt voted list throws before any state change; otherwise the voted
   * flag is overwritten from the store and the tallies from the snapshot.
   */
  function Refresh(e: Engine): (r: Engine)
    ensures HasUserVotedInBattle(e.store, e.battleKey).Failure? ==> r == e
    ensures HasUserVotedInBattle(e.store, e.battleKey).Success? ==>
      && r.state.hasVoted == HasUserVotedInBattle(e.store, e.battleKey).value
      && (GetBattleResult(e.store, e.battleKey).Some? ==>
            var saved := GetBattleResult(e.store, e.battleKey).value;
            r.state.voteStats == saved.voteStats && r.state.totalVotes == saved.totalVotes
              && r.state.winners == saved.winners)
      && (GetBattleResult(e.store, e.battleKey).None? ==>
            r.state.voteStats == [] && r.state.totalVotes == 0 && r.state.winners == [])
    ensures r.state.userVote == e.state.userVote
    ensures r.(state := e.state) == e
  {
    match HasUserVotedInBattle(e.store, e.battleKey)
    case Failure(_) => e
    case Success(voted) =>
      match GetBattleResult(e.store, e.battleKey)
      case Some(saved) =>
        e.(state := e.state.(hasVoted := voted, voteStats := saved.voteStats,
                             totalVotes := saved.totalVotes, winners := saved.winners))
      case None =>
        e.(state := e.state.(hasVoted := voted, voteStats := [], totalVotes := 0, winners := []))
  }

  /** The notice `updateVoteStats` shows when the shape of the lead changes. */
  function LeadNotice(previous: seq<int>, winners: seq<int>): (r: Option<Notice>)
    ensures r == Some(TieAnnounced) <==> |winners| > 1 && |previous| <= 1
    ensures r.Some? && r != Some(TieAnnounced) <==> |winners| == 1 && |previous| != 1
    ensures r.Some? && r.value.WinnerAnnounced? ==> r.value.pokemonId == winners[0]
    ensures |winners| == |previous| ==> r == None
  {
    if |winners| == 1 && |previous| != 1 then Some(WinnerAnnounced(winners[0]))
    else if |winners| > 1 && |previous| <= 1 then Some(TieAnnounced)
    else None
  }

  /** `updateVoteStats`: recompute, save unconditionally, announce a change of lead, adopt. */
  datatype Updated = Updated(engine: Engine, notice: Option<Notice>)

  function UpdateVoteStats(e: Engine, stats: VoteStats, now: int): (r: Updated)
    ensures Consistent(r.engine.state)
    ensures SameVotes(r.engine.state.voteStats, stats)
    ensures r.engine.state.totalVotes == SumVotes(stats)
    ensures r.notice == LeadNotice(e.state.winners, r.engine.state.winners)
    ensures e.store.battleResults != Corrupt && !e.store.quotaExceeded ==>
      GetBattleResult(r.engine.store, e.battleKey) ==
        Some(BattleResult(e.battleKey, r.engine.state.voteStats, r.engine.state.totalVotes, r.engine.state.winners, now))
    ensures forall k :: k != e.battleKey ==> GetBattleResult(r.engine.store, k) == GetBattleResult(e.store, k)
    ensures r.engine.store.(battleResults := e.store.battleResults) == e.store
    ensures e.store.battleResults == Corrupt || e.store.quotaExceeded ==> r.engine.store == e.store
    ensures r.engine.state.hasVoted == e.state.hasVoted && r.engine.state.userVote == e.state.userVote
    ensures r.engine.(state := e.state, store := e.store) == e
  {
    var a := ProcessVoteStats(stats);
    var result := BattleResult(e.battleKey, a.updatedStats, a.totalVotes, a.winners, now);
    assert e.store.battleResults != Corrupt && !e.store.quotaExceeded ==>
      GetBattleResult(SaveBattleResult(e.store, result), e.battleKey) == Some(result) by {
      if e.store.battleResults != Corrupt && !e.store.quotaExceeded {
        SaveThenGet(e.store, result);
      }
    }
    forall k | k != e.battleKey
      ensures GetBattleResult(SaveBattleResult(e.store, result), k) == GetBattleResult(e.store, k)
    {
      SaveKeepsOtherKeys(e.store, result, k);
    }
    RecomputedIsConsistent(e.state.(voteStats := stats));
    Updated(e.(state := WithAggregates(e.state, a), store := SaveBattleResult(e.store, result)),
            LeadNotice(e.state.winners, a.winners))
  }
}
