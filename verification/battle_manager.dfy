/**
 * The battle session manager: which battle is shown, restored from the store
 * on mount, written back on every change, and replaced by a random one on
 * request.
 */
module BattleManager {
  import opened Wrappers
  import opened Constants
  import opened Storage
  import opened RandomIds

  datatype BattleConfig = BattleConfig(pokemonIds: seq<int>)

  /** The battle shown before anything is restored: Bulbasaur, Pikachu and Gloom. */
  const DefaultBattle := BattleConfig([Bulbasaur, Pikachu, Gloom])

  /** A stored battle is adopted only when it names at least a battlefield's worth of ids. */
  predicate Adoptable(b: StoredBattle) {
    b.pokemonIds.Some? && |b.pokemonIds.value| >= DefaultBattlefieldSize
  }

  /** The restore effect: adopt an adoptable stored battle; a missing or unreadable one changes nothing. */
  function Restore(current: BattleConfig, store: Store): (r: BattleConfig)
    ensures store.currentBattle.Stored? && Adoptable(store.currentBattle.value) ==>
      r.pokemonIds == store.currentBattle.value.pokemonIds.value
    ensures !(store.currentBattle.Stored? && Adoptable(store.currentBattle.value)) ==> r == current
    ensures r != current ==> |r.pokemonIds| >= DefaultBattlefieldSize
  {
    match store.currentBattle
    case Stored(b) =>
      if Adoptable(b) then BattleConfig(b.pokemonIds.value) else current
    case _ => current
  }

  /** The persist effect: write the battle, unless the write throws, which is swallowed. */
  function Persist(store: Store, b: BattleConfig): (r: Store)
    ensures store.quotaExceeded ==> r == store
    ensures !store.quotaExceeded ==> r.currentBattle == Stored(StoredBattle(Some(b.pokemonIds)))
    ensures r.(currentBattle := store.currentBattle) == store
  {
    if store.quotaExceeded then store else store.(currentBattle := Stored(StoredBattle(Some(b.pokemonIds))))
  }

  /** The state after mounting: the default battle, restored over, then persisted. */
  datatype Session = Session(battle: BattleConfig, store: Store)

  function Mount(store: Store): (r: Session)
    ensures r.battle == Restore(DefaultBattle, store)
    ensures |r.battle.pokemonIds| >= DefaultBattlefieldSize
    ensures r.store == Persist(store, r.battle)
  {
    var b := Restore(DefaultBattle, store);
    Session(b, Persist(store, b))
  }

  /** A battle that was persisted is the one restored on the next mount. */
  lemma PersistThenRestore(store: Store, b: BattleConfig, current: BattleConfig)
    requires !store.quotaExceeded
    ensures |b.pokemonIds| >= DefaultBattlefieldSize ==> Restore(current, Persist(store, b)) == b
    ensures |b.pokemonIds| < DefaultBattlefieldSize ==> Restore(current, Persist(store, b)) == current
  {
  }

  /** Mounting again over the store a mount left behind shows the same battle and writes nothing new. */
  lemma MountStable(store: Store)
    ensures Mount(Mount(store).store) == Mount(store)
  {
    var m := Mount(store);
    if !store.quotaExceeded {
      PersistThenRestore(store, m.battle, DefaultBattle);
    }
  }

  /**
   * `startRandomBattle` with `Math.random` given as a stream of draws: a
   * battlefield's worth of distinct ids in range, or `None` when the stream
   * runs out before two distinct ids appear.
   */
  method StartRandomBattle(draws: seq<real>) returns (r: Option<BattleConfig>)
    requires ValidDraws(draws)
    ensures r.Some? ==> |r.value.pokemonIds| == DefaultBattlefieldSize
    ensures r.Some? ==> NoDuplicates(r.value.pokemonIds) && InIdRange(r.value.pokemonIds)
    ensures r.None? <==> |Distinct(DrawnIds(draws))| < DefaultBattlefieldSize
    ensures r.Some? ==> r.value.pokemonIds == Distinct(DrawnIds(draws))[..DefaultBattlefieldSize]
  {
    var ids := GetRandomPokemonIds(DefaultBattlefieldSize, draws);
    match ids
    case Some(v) => r := Some(BattleConfig(v));
    case None => r := None;
  }
}
