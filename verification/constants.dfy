/** Fixed configuration of the battle application. */
module Constants {

  /** The three item ids of the default battle: Bulbasaur, Pikachu and Gloom. */
  const Bulbasaur: int := 1
  const Pikachu: int := 25
  const Gloom: int := 44

  /** Random battles draw ids from 1 up to and including this bound. */
  const MaxPokemonId: nat := 248

  /** The number of items in a random battle, and the least size of a restorable one. */
  const DefaultBattlefieldSize: nat := 2
}
