/**
 * The durable per-browser store. Each `localStorage` entry is a `Slot`:
 * absent (or the empty string, which the code treats as absent), present but
 * not parseable as the expected JSON shape, or present with a value.
 * `quotaExceeded` stands for a store whose `setItem` throws.
 */
module Storage {
  import opened Wrappers
  import opened Types

  datatype Slot<T> = Missing | Corrupt | Stored(value: T)

  /** A persisted snapshot of one battle's aggregates. */
  datatype BattleResult = BattleResult(
    battleKey: string,
    voteStats: VoteStats,
    totalVotes: nat,
    winners: seq<int>,
    timestamp: int)

  /** The persisted current battle; `pokemonIds` may be missing from the stored JSON. */
  datatype StoredBattle = StoredBattle(pokemonIds: Option<seq<int>>)

  datatype Store = Store(
    userId: string,
    votedBattles: Slot<seq<string>>,
    currentBattle: Slot<StoredBattle>,
    battleResults: Slot<map<string, BattleResult>>,
    quotaExceeded: bool)

  /** The exceptions that escape the store functions that have no `try`. */
  datatype StorageError = ParseError | QuotaExceeded

  const EmptyStore := Store("", Missing, Missing, Missing, false)

  /**
   * The stored user id wins; otherwise the fingerprint (an opaque input) is
   * stored and returned.
   */
  function GetUserId(store: Store, fingerprint: string): (r: Result<(string, Store), StorageError>)
    ensures store.userId != "" ==> r == Success((store.userId, store))
    ensures r.Success? ==> r.value.1.userId == r.value.0
    ensures r.Success? ==> r.value.1 == store.(userId := r.value.1.userId)
    ensures store.userId == "" && r.Success? ==> r.value.0 == fingerprint
    ensures r.Failure? <==> store.userId == "" && store.quotaExceeded
  {
    if store.userId != "" then Success((store.userId, store))
    else if store.quotaExceeded then Failure(QuotaExceeded)
    else Success((fingerprint, store.(userId := fingerprint)))
  }

  /** Once resolved, the identity never changes, whatever later fingerprints say. */
  lemma UserIdIsStable(store: Store, f1: string, f2: string)
    requires GetUserId(store, f1).Success?
    ensures var (id, s) := GetUserId(store, f1).value;
      id != "" ==> GetUserId(s, f2) == Success((id, s))
  {
  }

  function HasUserVotedInBattle(store: Store, battleKey: string): (r: Result<bool, StorageError>)
    ensures store.votedBattles == Missing ==> r == Success(false)
    ensures store.votedBattles.Stored? ==> r == Success(battleKey in store.votedBattles.value)
    ensures r.Failure? <==> store.votedBattles == Corrupt
  {
    match store.votedBattles
    case Missing => Success(false)
    case Corrupt => Failure(ParseError)
    case Stored(list) => Success(battleKey in list)
  }

  /** The stored voted-battles list, or the empty list when there is none. */
  function VotedList(store: Store): seq<string>
    requires store.votedBattles != Corrupt
  {
    if store.votedBattles.Stored? then store.votedBattles.value else []
  }

  /**
   * Appends `battleKey` to the voted list unless it is already there, in which
   * case nothing is written.
   */
  function MarkBattleAsVoted(store: Store, battleKey: string): (r: Result<Store, StorageError>)
    ensures store.votedBattles == Corrupt ==> r == Failure(ParseError)
    ensures store.votedBattles != Corrupt && battleKey in VotedList(store) ==> r == Success(store)
    ensures store.votedBattles != Corrupt && battleKey !in VotedList(store) ==>
      r == if store.quotaExceeded then Failure(QuotaExceeded)
           else Success(store.(votedBattles := Stored(VotedList(store) + [battleKey])))
    ensures r.Failure? ==> store.votedBattles == Corrupt || store.quotaExceeded
  {
    if store.votedBattles == Corrupt then Failure(ParseError)
    else
      var list := VotedList(store);
      if battleKey in list then Success(store)
      else if store.quotaExceeded then Failure(QuotaExceeded)
      else Success(store.(votedBattles := Stored(list + [battleKey])))
  }

  /**
   * After a successful mark the key reads as voted and every other key reads
   * exactly as before.
   */
  lemma MarkThenHasVoted(store: Store, battleKey: string, other: string)
    requires MarkBattleAsVoted(store, battleKey).Success?
    ensures HasUserVotedInBattle(MarkBattleAsVoted(store, battleKey).value, battleKey) == Success(true)
    ensures other != battleKey ==>
      HasUserVotedInBattle(MarkBattleAsVoted(store, battleKey).value, other) == HasUserVotedInBattle(store, other)
  {
  }

  /** Marking twice is marking once, and the second call writes nothing. */
  lemma MarkIdempotent(store: Store, battleKey: string)
    requires MarkBattleAsVoted(store, battleKey).Success?
    ensures var s := MarkBattleAsVoted(store, battleKey).value;
      MarkBattleAsVoted(s, battleKey) == Success(s)
  {
  }

  /** The worked example: `['1_vs_25']` plus `44_vs_100` keeps the order and appends. */
  lemma MarkAppendsExample()
    ensures var s := EmptyStore.(votedBattles := Stored(["1_vs_25"]));
      MarkBattleAsVoted(s, "44_vs_100") == Success(s.(votedBattles := Stored(["1_vs_25", "44_vs_100"])))
  {
    assert "44_vs_100"[0] != "1_vs_25"[0];
    assert ["1_vs_25"] + ["44_vs_100"] == ["1_vs_25", "44_vs_100"];
  }

  /**
   * Upserts `result` under its own key and keeps every other entry. Parse and
   * quota failures are swallowed: the store is then left as it was.
   */
  function SaveBattleResult(store: Store, result: BattleResult): (r: Store)
    ensures r.votedBattles == store.votedBattles && r.currentBattle == store.currentBattle
    ensures r.userId == store.userId && r.quotaExceeded == store.quotaExceeded
    ensures store.battleResults == Corrupt || store.quotaExceeded ==> r == store
  {
    if store.battleResults == Corrupt || store.quotaExceeded then store
    else
      var results := if store.battleResults.Stored? then store.battleResults.value else map[];
      store.(battleResults := Stored(results[result.battleKey := result]))
  }

  function GetBattleResult(store: Store, battleKey: string): (r: Option<BattleResult>)
    ensures store.battleResults == Missing || store.battleResults == Corrupt ==> r == None
    ensures r.Some? <==> store.battleResults.Stored? && battleKey in store.battleResults.value
    ensures r.Some? ==> r.value == store.battleResults.value[battleKey]
  {
    match store.battleResults
    case Stored(results) => if battleKey in results then Some(results[battleKey]) else None
    case _ => None
  }

  /** Reading back a result right after saving it yields that result. */
  lemma SaveThenGet(store: Store, result: BattleResult)
    requires store.battleResults != Corrupt && !store.quotaExceeded
    ensures GetBattleResult(SaveBattleResult(store, result), result.battleKey) == Some(result)
  {
  }

  /** Saving never disturbs the entry of another battle key, even when it fails. */
  lemma SaveKeepsOtherKeys(store: Store, result: BattleResult, other: string)
    requires other != result.battleKey
    ensures GetBattleResult(SaveBattleResult(store, result), other) == GetBattleResult(store, other)
  {
  }
}
