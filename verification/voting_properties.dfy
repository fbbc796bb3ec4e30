/** Properties of the engine across several steps. */
module VotingProperties {
  import opened Wrappers
  import opened Types
  import opened VoteTally
  import opened Storage
  import opened Voting
  import opened VotingLifecycle

  /** Delivering the same message twice changes nothing beyond delivering it once. */
  lemma RedeliveryIdempotent(e: Engine, m: Message, t1: int, t2: int)
    ensures OnMessage(OnMessage(e, m, t1), m, t2) == OnMessage(e, m, t1)
  {
  }

  /** Folding a sequence of remote votes, all delivered to the same engine. */
  function DeliverVotes(e: Engine, vs: seq<VoteData>, now: int): Engine
    decreases |vs|
  {
    if vs == [] then e else DeliverVotes(OnMessage(e, Message.Vote(vs[0]), now), vs[1..], now)
  }

  /** The keys of the votes in `vs` cast by someone other than `self`. */
  function ForeignKeys(vs: seq<VoteData>, self: string): (r: set<string>)
    ensures forall v :: v in vs && v.userId != self ==> VoteKey(v) in r
    decreases |vs|
  {
    if vs == [] then {}
    else (if vs[0].userId != self then {VoteKey(vs[0])} else {}) + ForeignKeys(vs[1..], self)
  }

  /** One remote vote: either ignored, or its key recorded and exactly one vote added. */
  lemma RemoteVoteStep(e: Engine, v: VoteData, now: int)
    requires e.connected
    ensures var e1 := OnMessage(e, Message.Vote(v), now);
      && e1.connected && e1.userId == e.userId
      && e1.state.hasVoted == e.state.hasVoted && e1.state.userVote == e.state.userVote
      && (if v.userId != e.userId && VoteKey(v) !in e.processed
          then && e1.processed == e.processed + {VoteKey(v)}
               && SumVotes(e1.state.voteStats) == SumVotes(e.state.voteStats) + 1
               && Consistent(e1.state)
          else e1 == e)
  {
  }

  /** Counting the unseen keys of `{k} + rest` when `k` itself is unseen. */
  lemma UnseenCount(seen: set<string>, k: string, rest: set<string>)
    requires k !in seen
    ensures |({k} + rest) - seen| == 1 + |rest - (seen + {k})|
  {
    assert ({k} + rest) - seen == {k} + (rest - (seen + {k}));
    assert k !in rest - (seen + {k});
  }

  /**
   * Exactly-once counting: however the remote votes are repeated, the votes
   * tallied rise by the number of distinct foreign vote keys not seen before,
   * and the own echoes are never counted.
   */
  lemma {:induction false} DeliverVotesCountsEachKeyOnce(e: Engine, vs: seq<VoteData>, now: int)
    requires e.connected
    ensures var r := DeliverVotes(e, vs, now);
      var unseen := ForeignKeys(vs, e.userId) - e.processed;
      && r.processed == e.processed + ForeignKeys(vs, e.userId)
      && SumVotes(r.state.voteStats) == SumVotes(e.state.voteStats) + |unseen|
      && r.state.hasVoted == e.state.hasVoted && r.state.userVote == e.state.userVote
      && r.userId == e.userId && r.connected
    decreases |vs|
  {
    if vs != [] {
      var v := vs[0];
      var e1 := OnMessage(e, Message.Vote(v), now);
      var rest := ForeignKeys(vs[1..], e.userId);
      var r := DeliverVotes(e1, vs[1..], now);
      assert DeliverVotes(e, vs, now) == r;
      RemoteVoteStep(e, v, now);
      DeliverVotesCountsEachKeyOnce(e1, vs[1..], now);
      if v.userId != e.userId && VoteKey(v) !in e.processed {
        assert ForeignKeys(vs, e.userId) == {VoteKey(v)} + rest;
        UnseenCount(e.processed, VoteKey(v), rest);
      } else if v.userId != e.userId {
        assert e1 == e;
        assert ForeignKeys(vs, e.userId) == {VoteKey(v)} + rest;
        assert ForeignKeys(vs, e.userId) - e.processed == rest - e.processed;
      } else {
        assert e1 == e;
        assert ForeignKeys(vs, e.userId) == rest;
      }
    }
  }

  /** A batch holding no unseen foreign key leaves the engine exactly as it was. */
  lemma {:induction false} DeliverNothingNew(e: Engine, vs: seq<VoteData>, now: int)
    requires e.connected
    requires ForeignKeys(vs, e.userId) <= e.processed
    ensures DeliverVotes(e, vs, now) == e
    decreases |vs|
  {
    if vs != [] {
      var v := vs[0];
      assert DeliverVotes(e, vs, now) == DeliverVotes(OnMessage(e, Message.Vote(v), now), vs[1..], now);
      assert v.userId != e.userId ==> VoteKey(v) in ForeignKeys(vs, e.userId);
      DeliverNothingNew(e, vs[1..], now);
    }
  }

  /** Once anything new was counted, the total and winners agree with the tallies. */
  lemma {:induction false} DeliverVotesConsistent(e: Engine, vs: seq<VoteData>, now: int)
    requires e.connected
    ensures |ForeignKeys(vs, e.userId) - e.processed| > 0 ==> Consistent(DeliverVotes(e, vs, now).state)
    decreases |vs|
  {
    if vs != [] && |ForeignKeys(vs, e.userId) - e.processed| > 0 {
      var v := vs[0];
      var e1 := OnMessage(e, Message.Vote(v), now);
      var rest := ForeignKeys(vs[1..], e.userId);
      assert DeliverVotes(e, vs, now) == DeliverVotes(e1, vs[1..], now);
      RemoteVoteStep(e, v, now);
      DeliverVotesConsistent(e1, vs[1..], now);
      if v.userId != e.userId && VoteKey(v) !in e.processed {
        if |rest - e1.processed| == 0 {
          NothingUnseen(rest, e1.processed);
          DeliverNothingNew(e1, vs[1..], now);
        }
      } else if v.userId != e.userId {
        assert ForeignKeys(vs, e.userId) == {VoteKey(v)} + rest;
        assert ForeignKeys(vs, e.userId) - e.processed == rest - e.processed;
      } else {
        assert ForeignKeys(vs, e.userId) == rest;
      }
    }
  }

  lemma ConsistentTotal(s: BattleState)
    requires Consistent(s)
    ensures s.totalVotes == SumVotes(s.voteStats)
  {
  }

  /** A key set not covered by `seen` has at least one unseen key. */
  lemma NothingUnseen(keys: set<string>, seen: set<string>)
    ensures |keys - seen| == 0 ==> keys <= seen
  {
    if !(keys <= seen) {
      var k :| k in keys && k !in seen;
      assert k in keys - seen;
    }
  }

  /** Starting from consistent aggregates, the running total rises by exactly the unseen foreign keys. */
  lemma DeliverVotesTotal(e: Engine, vs: seq<VoteData>, now: int)
    requires e.connected && Consistent(e.state)
    ensures DeliverVotes(e, vs, now).state.totalVotes ==
      e.state.totalVotes + |ForeignKeys(vs, e.userId) - e.processed|
  {
    if |ForeignKeys(vs, e.userId) - e.processed| > 0 {
      DeliverVotesCountsEachKeyOnce(e, vs, now);
      DeliverVotesConsistent(e, vs, now);
      ConsistentTotal(DeliverVotes(e, vs, now).state);
      ConsistentTotal(e.state);
    } else {
      NothingUnseen(ForeignKeys(vs, e.userId), e.processed);
      DeliverNothingNew(e, vs, now);
    }
  }

  /** After a `new_battle` reset a vote whose key was folded before is counted again. */
  lemma NewBattleReaccepts(e: Engine, a: int, b: int, v: VoteData, now: int)
    requires e.connected && v.userId != e.userId
    ensures var r := OnMessage(OnMessage(e, NewBattle(a, b), now), Message.Vote(v), now);
      r.processed == {VoteKey(v)} && r.state.totalVotes == 1 && !r.state.hasVoted
  {
  }

  lemma InitialStateConsistent()
    ensures Consistent(InitialState)
  {
    assert ProcessVoteStats([]).totalVotes == 0;
  }

  /** Every message handler and the user's vote keep aggregates in agreement with the tallies. */
  lemma ConsistencyPreserved(e: Engine, m: Message, id: int, now: int)
    requires Consistent(e.state)
    ensures Consistent(OnMessage(e, m, now).state)
    ensures Consistent(CastVote(e, id, now).engine.state)
  {
    InitialStateConsistent();
  }

  /** A vote can be cast at most once per battle on one engine. */
  lemma SecondVoteIgnored(e: Engine, a: int, b: int, t1: int, t2: int)
    ensures var o := CastVote(e, a, t1);
      CastVote(o.engine, b, t2) == VoteOutcome(o.engine, [], [])
  {
  }

  /**
   * Reload round trip: after a vote is cast and both writes succeed, any
   * engine over the resulting store that enters the battle and refreshes
   * shows the battle as voted with the saved tallies and aggregates.
   */
  lemma ReloadRestoresVote(e: Engine, id: int, now: int, reloaded: Engine)
    requires CanVote(e) && e.battleKey != ""
    requires e.store.votedBattles != Corrupt && e.store.battleResults != Corrupt && !e.store.quotaExceeded
    ensures var voted := CastVote(e, id, now).engine;
      var before := voted.state;
      var after := Refresh(EnterBattle(reloaded, e.battleKey).engine).state;
      reloaded.store == voted.store ==>
      && after.hasVoted
      && after.voteStats == before.voteStats && after.totalVotes == before.totalVotes
      && after.winners == before.winners
  {
    var o := CastVote(e, id, now);
    var s := o.engine.store;
    assert HasUserVotedInBattle(s, e.battleKey) == Success(true);
    assert GetBattleResult(s, e.battleKey) ==
      Some(BattleResult(e.battleKey, o.engine.state.voteStats, o.engine.state.totalVotes, o.engine.state.winners, now));
  }

  /** Announcing a lead twice for the same tallies shows the notice at most once. */
  lemma NoticeNotRepeated(e: Engine, stats: VoteStats, t1: int, t2: int)
    ensures var u := UpdateVoteStats(e, stats, t1);
      UpdateVoteStats(u.engine, u.engine.state.voteStats, t2).notice == None
  {
    var u := UpdateVoteStats(e, stats, t1);
    SameVotesSameWinners(u.engine.state.voteStats, stats, SumVotes(stats));
    SameVotesSameAggregates(u.engine.state.voteStats, stats, 0);
  }

  /** The recomputation after a first vote: one entry at 100 percent and a single winner. */
  lemma FirstAggregatesExample()
    ensures AddVote([], 1) == [Entry(1, Tally(1, 0.0))]
    ensures ProcessVoteStats([Entry(1, Tally(1, 0.0))]) == Aggregates([Entry(1, Tally(1, 100.0))], 1, [1])
  {
    var counted: VoteStats := [Entry(1, Tally(1, 0.0))];
    assert counted[1..] == [];
    assert MaxVotes(counted) == 1;
    assert IdsWithVotes(counted, 1) == [1];
  }

  /** A first vote on a fresh battle: one vote, 100 percent, a single winner. */
  lemma FirstVoteExample(e: Engine, now: int)
    requires e.state.voteStats == [] && !e.state.hasVoted && e.connected && e.userId == "u"
    ensures var r := CastVote(e, 1, now).engine.state;
      && r.voteStats == [Entry(1, Tally(1, 100.0))] && r.totalVotes == 1 && r.winners == [1]
      && r.hasVoted && r.userVote == Some(1)
  {
    FirstAggregatesExample();
  }

  /** The tallies right after the remote vote of the tie example, before recomputation. */
  lemma TieCountedExample()
    ensures AddVote([Entry(1, Tally(1, 100.0))], 25) == [Entry(1, Tally(1, 100.0)), Entry(25, Tally(1, 0.0))]
  {
    var stats: VoteStats := [Entry(1, Tally(1, 100.0))];
    assert stats[1..] == [];
  }

  /** The recomputation of the tie example: 50 percent each and both ids winning. */
  lemma TieAggregatesExample()
    ensures ProcessVoteStats([Entry(1, Tally(1, 100.0)), Entry(25, Tally(1, 0.0))]) ==
      Aggregates([Entry(1, Tally(1, 50.0)), Entry(25, Tally(1, 50.0))], 2, [1, 25])
  {
    var counted: VoteStats := [Entry(1, Tally(1, 100.0)), Entry(25, Tally(1, 0.0))];
    assert counted[1..][1..] == [];
    assert SumVotes(counted) == 2;
    assert MaxVotes(counted) == 1;
    assert IdsWithVotes(counted, 1) == [1, 25];
    var a := ProcessVoteStats(counted);
    assert a.updatedStats == [Entry(1, Tally(1, 50.0)), Entry(25, Tally(1, 50.0))];
  }

  /** A remote vote for another Pokémon after the first vote: an even split and a two-way tie. */
  lemma TieExample(e: Engine, now: int)
    requires e.connected && e.userId == "u" && e.processed == {}
    requires e.state.voteStats == [Entry(1, Tally(1, 100.0))]
    ensures var r := OnMessage(e, Message.Vote(VoteData(25, "v", 7)), now).state;
      && r.voteStats == [Entry(1, Tally(1, 50.0)), Entry(25, Tally(1, 50.0))]
      && r.totalVotes == 2 && r.winners == [1, 25]
  {
    TieCountedExample();
    TieAggregatesExample();
  }
}
