/** The records exchanged between the voting engine, the channel and the store. */
module Types {

  /** One item's tally: its vote count and its share of all votes, in percent. */
  datatype Tally = Tally(votes: nat, percentage: real)

  /** One `[pokemonId, tally]` pair of the tally object. */
  datatype Entry = Entry(id: int, tally: Tally)

  /** Entry ids strictly ascending, hence also pairwise distinct. */
  predicate IdsAscending(s: seq<Entry>) {
    forall i, j :: 0 <= i < j < |s| ==> s[i].id < s[j].id
  }

  /**
   * The tally object. A JavaScript object has each key once and lists its
   * array-index keys (the integers 0 to 2^32 - 2) in ascending numeric order
   * whatever the insertion order, so for such ids the entries are kept in
   * strictly ascending id order.
   */
  type VoteStats = s: seq<Entry> | IdsAscending(s) witness []

  /** The payload of a `vote` message. */
  datatype VoteData = VoteData(pokemonId: int, userId: string, timestamp: int)

  /** The message kinds of the channel, each with its payload. */
  datatype Message =
    | Vote(vote: VoteData)
    | Stats(stats: VoteStats)
    | NewBattle(pokemon1Id: int, pokemon2Id: int)
    | JoinBattle(battleId: string)
    | Heartbeat
}
