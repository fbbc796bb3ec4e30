/**
 * One browser client: the channel service and the voting engine side by
 * side, with the engine's subscription registered as one handler. This is
 * where the channel's scope filter meets the engine's own echo and duplicate
 * checks.
 */
module Session {
  import opened Wrappers
  import opened Types
  import opened VoteTally
  import opened Channel
  import opened Voting
  import opened VotingLifecycle
  import opened Storage

  datatype Client = Client(service: Service, engine: Engine, handler: CallbackId)

  /** The engine and the service agree on the user, the connection and the battle scope. */
  predicate Aligned(c: Client) {
    && c.engine.userId == c.service.userId
    && c.engine.connected == c.service.connected
    && (c.engine.battleKey != "" ==> c.service.currentBattleId == Some(c.engine.battleKey))
  }

  /**
   * `connect` with the user id read through `getUserId`: a held id is kept,
   * otherwise the stored one is taken, otherwise the fingerprint (`None` when
   * loading it fails) is stored and adopted. A failure there rejects the
   * connect before any socket is opened.
   */
  function ConnectWithStore(s: Service, store: Store, fingerprint: Option<string>): (r: (Service, Store))
    ensures s.userId == "" ==>
      (r.0.promise == Some(Pending) <==> store.userId != "" || (fingerprint.Some? && !store.quotaExceeded))
    ensures s.userId == "" && r.0.promise == Some(Pending) ==> r.0.hasSocket && r.0.userId == r.1.userId
    ensures s.userId == "" && r.0.promise != Some(Pending) ==>
      r.0.promise == Some(Rejected(UserIdUnavailable)) && r.0.hasSocket == s.hasSocket && r.1 == store
    ensures s.userId != "" ==> r.1 == store && r.0.userId == s.userId && r.0.hasSocket
    ensures r.1 == store.(userId := r.1.userId)
  {
    if s.userId != "" || store.userId != "" then (Connect(s, Some(store.userId)), store)
    else
      match fingerprint
      case None => (Connect(s, None), store)
      case Some(f) =>
        match GetUserId(store, f)
        case Success(resolved) => (Connect(s, Some(resolved.0)), resolved.1)
        case Failure(_) => (Connect(s, None), store)
  }

  /** The key-change effect at client level: the engine is primed and the channel rescoped. */
  function ClientEnterBattle(c: Client, key: string): (r: Client)
    ensures Aligned(c) ==> Aligned(r)
    ensures r.engine.battleKey == key
  {
    var entered := EnterBattle(c.engine, key);
    var service := match entered.scope
      case Some(k) => SetBattleId(c.service, k)
      case None => c.service;
    Client(service, entered.engine, c.handler)
  }

  /** An inbound envelope: the engine sees it only if the channel delivers it to the engine's handler. */
  function Receive(c: Client, env: Envelope, now: int): (r: Client)
    ensures c.handler in HandleIncoming(c.service, env, {}).delivered ==>
      r.engine == OnMessage(c.engine, env.message, now)
    ensures c.handler !in HandleIncoming(c.service, env, {}).delivered ==> r == c
    ensures r.service == c.service
  {
    if c.handler in HandleIncoming(c.service, env, {}).delivered
    then c.(engine := OnMessage(c.engine, env.message, now))
    else c
  }

  /** What a voting client puts on the wire, if anything. */
  function VoteFrame(c: Client, pokemonId: int, now: int): (r: Option<Envelope>)
    ensures !CanVote(c.engine) || !c.service.hasSocket ==> r == None
  {
    var o := CastVote(c.engine, pokemonId, now);
    if o.sent == [] then None else Send(c.service, o.sent[0], now, true)
  }

  /**
   * A vote cast by one client reaches a peer in the same battle and is counted
   * there exactly once, however often the frame is delivered.
   */
  lemma PeerVoteCountedOnce(a: Client, b: Client, pokemonId: int, now: int, later: int)
    requires Aligned(a) && Aligned(b) && CanVote(a.engine) && a.service.hasSocket
    requires a.engine.battleKey != "" && b.engine.battleKey == a.engine.battleKey
    requires a.engine.userId != b.engine.userId && b.handler in b.service.handlers
    requires b.engine.connected && Consistent(b.engine.state)
    requires VoteKey(VoteData(pokemonId, a.engine.userId, now)) !in b.engine.processed
    ensures var env := VoteFrame(a, pokemonId, now);
      && env.Some?
      && var once := Receive(b, env.value, later);
      && once.engine.state.totalVotes == b.engine.state.totalVotes + 1
      && Votes(once.engine.state.voteStats, pokemonId) == Votes(b.engine.state.voteStats, pokemonId) + 1
      && Receive(once, env.value, later) == once
  {
    var env := VoteFrame(a, pokemonId, now).value;
    ScopedDelivery(a.service, b.service, env.message, now);
    ProcessVoteStatsMeaning(b.engine.state.voteStats);
  }

  /** A client scoped to another battle never sees the vote. */
  lemma OtherBattleUnaffected(a: Client, b: Client, pokemonId: int, now: int, later: int)
    requires Aligned(a) && Aligned(b) && CanVote(a.engine) && a.service.hasSocket
    requires a.engine.battleKey != "" && b.engine.battleKey != "" && b.engine.battleKey != a.engine.battleKey
    ensures var env := VoteFrame(a, pokemonId, now);
      env.Some? && Receive(b, env.value, later) == b
  {
    var env := VoteFrame(a, pokemonId, now).value;
    if a.service.userId != b.service.userId {
      ScopedDelivery(a.service, b.service, env.message, now);
    }
  }
}
