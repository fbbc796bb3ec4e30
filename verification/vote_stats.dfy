/**
 * Aggregates derived from the tally object: the total, the percentages and
 * the winners, and the single-vote increment that both the local vote and a
 * remote vote apply.
 */
module VoteTally {
  import opened Types
  import opened Sorting

  /** The ids that have an entry. */
  function IdSet(stats: seq<Entry>): set<int>
    decreases |stats|
  {
    if stats == [] then {} else {stats[0].id} + IdSet(stats[1..])
  }

  lemma {:induction false} IdSetIndex(stats: seq<Entry>, k: int)
    ensures k in IdSet(stats) <==> exists i :: 0 <= i < |stats| && stats[i].id == k
    decreases |stats|
  {
    if stats != [] {
      IdSetIndex(stats[1..], k);
      if k in IdSet(stats[1..]) {
        var i :| 0 <= i < |stats[1..]| && stats[1..][i].id == k;
        assert stats[i + 1].id == k;
      }
      if k != stats[0].id && exists i :: 0 <= i < |stats| && stats[i].id == k {
        var i :| 0 <= i < |stats| && stats[i].id == k;
        assert stats[1..][i - 1].id == k;
      }
    }
  }

  lemma IdSetHas(stats: seq<Entry>, i: int)
    requires 0 <= i < |stats|
    ensures stats[i].id in IdSet(stats)
  {
    IdSetIndex(stats, stats[i].id);
  }

  /** Every id of a tally object's tail exceeds the head's id. */
  lemma TailIdsAbove(stats: VoteStats, k: int)
    requires |stats| > 0 && k in IdSet(stats[1..])
    ensures stats[0].id < k
  {
    IdSetIndex(stats[1..], k);
    var i :| 0 <= i < |stats[1..]| && stats[1..][i].id == k;
    assert stats[1..][i] == stats[i + 1];
  }

  /** The tally object read as a map from id to tally. */
  function AsMap(stats: seq<Entry>): (m: map<int, Tally>)
    ensures m.Keys == IdSet(stats)
    decreases |stats|
  {
    if stats == [] then map[] else AsMap(stats[1..])[stats[0].id := stats[0].tally]
  }

  lemma {:induction false} AsMapAt(stats: VoteStats, i: int)
    requires 0 <= i < |stats|
    ensures stats[i].id in AsMap(stats) && AsMap(stats)[stats[i].id] == stats[i].tally
    decreases i
  {
    IdSetHas(stats, i);
    if i > 0 {
      var tail: VoteStats := stats[1..];
      AsMapAt(tail, i - 1);
      assert tail[i - 1] == stats[i];
    }
  }

  lemma IdsAtLeastHead(stats: VoteStats, k: int)
    requires |stats| > 0 && k in IdSet(stats)
    ensures stats[0].id <= k
  {
    if k != stats[0].id {
      assert IdSet(stats) == {stats[0].id} + IdSet(stats[1..]);
      TailIdsAbove(stats, k);
    }
  }

  /** Putting an entry below every id of a tally object keeps the ids ascending. */
  lemma ConsAscending(e: Entry, s: VoteStats)
    requires forall k :: k in IdSet(s) ==> e.id < k
    ensures IdsAscending([e] + s)
  {
    var r := [e] + s;
    forall i, j | 0 <= i < j < |r|
      ensures r[i].id < r[j].id
    {
      assert r[j] == s[j - 1];
      if i == 0 {
        IdSetHas(s, j - 1);
      } else {
        assert r[i] == s[i - 1];
      }
    }
  }

  lemma AsMapCons(e: Entry, s: seq<Entry>)
    ensures AsMap([e] + s) == AsMap(s)[e.id := e.tally]
    ensures IdSet([e] + s) == {e.id} + IdSet(s)
  {
    assert ([e] + s)[1..] == s;
  }

  /** `stats[id].votes`, reading a missing entry as zero votes. */
  function Votes(stats: VoteStats, id: int): nat {
    var m := AsMap(stats);
    if id in m then m[id].votes else 0
  }

  /** `Object.values(stats).reduce((sum, { votes }) => sum + votes, 0)`. */
  function SumVotes(stats: seq<Entry>): nat
    decreases |stats|
  {
    if stats == [] then 0 else stats[0].tally.votes + SumVotes(stats[1..])
  }

  /** `Math.max(...Object.values(stats).map((data) => data.votes))` on a non-empty object. */
  function MaxVotes(stats: seq<Entry>): (r: nat)
    requires |stats| > 0
    ensures forall i :: 0 <= i < |stats| ==> stats[i].tally.votes <= r
    ensures exists i :: 0 <= i < |stats| && stats[i].tally.votes == r
    decreases |stats|
  {
    if |stats| == 1 then stats[0].tally.votes
    else
      var rest := MaxVotes(stats[1..]);
      assert forall i :: 1 <= i < |stats| ==> stats[1..][i - 1] == stats[i];
      if stats[0].tally.votes >= rest then stats[0].tally.votes else rest
  }

  /** The ids of the entries holding exactly `v` votes, in entry order. */
  function IdsWithVotes(stats: seq<Entry>, v: nat): (r: seq<int>)
    ensures forall x :: x in r <==> exists i :: 0 <= i < |stats| && stats[i].id == x && stats[i].tally.votes == v
    ensures IdsAscending(stats) ==> StrictlyIncreasing(r)
    decreases |stats|
  {
    if stats == [] then []
    else
      var rest := IdsWithVotes(stats[1..], v);
      assert forall i :: 1 <= i < |stats| ==> stats[1..][i - 1] == stats[i];
      if stats[0].tally.votes == v then
        assert IdsAscending(stats) ==> forall k :: 0 <= k < |rest| ==> stats[0].id < rest[k] by {
          if IdsAscending(stats) {
            forall k | 0 <= k < |rest|
              ensures stats[0].id < rest[k]
            {
              assert rest[k] in rest;
            }
          }
        }
        [stats[0].id] + rest
      else rest
  }

  /** An id is a leader when it has an entry and no entry has more votes. */
  predicate IsLeader(stats: VoteStats, x: int) {
    var m := AsMap(stats);
    x in m && forall y :: y in m ==> m[y].votes <= m[x].votes
  }

  lemma LeaderIffMax(stats: VoteStats, x: int)
    requires |stats| > 0
    ensures IsLeader(stats, x) <==>
      exists i :: 0 <= i < |stats| && stats[i].id == x && stats[i].tally.votes == MaxVotes(stats)
  {
    var m := AsMap(stats);
    var max := MaxVotes(stats);
    var j :| 0 <= j < |stats| && stats[j].tally.votes == max;
    AsMapAt(stats, j);
    if exists i :: 0 <= i < |stats| && stats[i].id == x && stats[i].tally.votes == max {
      var i :| 0 <= i < |stats| && stats[i].id == x && stats[i].tally.votes == max;
      AsMapAt(stats, i);
      forall y | y in m
        ensures m[y].votes <= m[x].votes
      {
        IdSetIndex(stats, y);
        var k :| 0 <= k < |stats| && stats[k].id == y;
        AsMapAt(stats, k);
      }
    }
    if IsLeader(stats, x) {
      IdSetIndex(stats, x);
      var i :| 0 <= i < |stats| && stats[i].id == x;
      AsMapAt(stats, i);
      assert stats[j].id in m;
    }
  }

  /**
   * `calculateWinners`: nobody wins while no vote is counted; otherwise the
   * winners are exactly the leaders, listed once each in ascending id order.
   */
  function CalculateWinners(stats: VoteStats, totalVotes: nat): (r: seq<int>)
    ensures totalVotes == 0 ==> r == []
    ensures totalVotes > 0 ==> forall x :: x in r <==> IsLeader(stats, x)
    ensures totalVotes > 0 && |stats| > 0 ==> |r| >= 1
    ensures StrictlyIncreasing(r)
  {
    if totalVotes == 0 || stats == [] then []
    else
      var r := IdsWithVotes(stats, MaxVotes(stats));
      forall x
        ensures x in r <==> IsLeader(stats, x)
      {
        LeaderIffMax(stats, x);
      }
      var i :| 0 <= i < |stats| && stats[i].tally.votes == MaxVotes(stats);
      assert stats[i].id in r;
      r
  }

  /** Every winner has at least as many votes as any other id, counted or not. */
  lemma WinnersAreArgmax(stats: VoteStats, totalVotes: nat, w: int, other: int)
    requires w in CalculateWinners(stats, totalVotes)
    ensures Votes(stats, other) <= Votes(stats, w)
  {
  }

  /** The percentage of one tally: `votes / total * 100`, or 0 when nothing is counted. */
  function Percentage(votes: nat, totalVotes: nat): real {
    if totalVotes > 0 then (votes as real / totalVotes as real) * 100.0 else 0.0
  }

  /** Copies every entry's votes and recomputes its percentage against `totalVotes`. */
  function WithPercentages(stats: VoteStats, totalVotes: nat): (r: VoteStats)
    ensures |r| == |stats|
    ensures forall i :: 0 <= i < |r| ==>
      r[i] == Entry(stats[i].id, Tally(stats[i].tally.votes, Percentage(stats[i].tally.votes, totalVotes)))
    decreases |stats|
  {
    if stats == [] then []
    else
      var e := stats[0];
      var rest := WithPercentages(stats[1..], totalVotes);
      [Entry(e.id, Tally(e.tally.votes, Percentage(e.tally.votes, totalVotes)))] + rest
  }

  /** Same ids in the same order with the same vote counts; percentages may differ. */
  predicate SameVotes(a: seq<Entry>, b: seq<Entry>) {
    && |a| == |b|
    && forall i :: 0 <= i < |a| ==> a[i].id == b[i].id && a[i].tally.votes == b[i].tally.votes
  }

  lemma {:induction false} SameVotesSameAggregates(a: VoteStats, b: VoteStats, v: nat)
    requires SameVotes(a, b)
    ensures SumVotes(a) == SumVotes(b)
    ensures IdsWithVotes(a, v) == IdsWithVotes(b, v)
    ensures IdSet(a) == IdSet(b)
    ensures |a| > 0 ==> MaxVotes(a) == MaxVotes(b)
    decreases |a|
  {
    if a != [] {
      assert SameVotes(a[1..], b[1..]);
      SameVotesSameAggregates(a[1..], b[1..], v);
      if |a| > 1 {
        SameVotesSameAggregates(a[1..], b[1..], MaxVotes(a[1..]));
      }
    }
  }

  lemma SameVotesSameWinners(a: VoteStats, b: VoteStats, total: nat)
    requires SameVotes(a, b)
    ensures CalculateWinners(a, total) == CalculateWinners(b, total)
  {
    if |a| > 0 {
      SameVotesSameAggregates(a, b, MaxVotes(a));
    }
  }

  /** The result of `processVoteStats` without its storage side effect. */
  datatype Aggregates = Aggregates(updatedStats: VoteStats, totalVotes: nat, winners: seq<int>)

  /**
   * Recomputes the aggregates of a tally object: the vote counts are kept,
   * the total is their sum, each percentage is taken against that total and
   * the winners are the leaders.
   */
  function ProcessVoteStats(stats: VoteStats): (r: Aggregates)
    ensures r.totalVotes == SumVotes(stats)
    ensures SameVotes(r.updatedStats, stats)
    ensures forall i :: 0 <= i < |stats| ==>
      r.updatedStats[i].tally.percentage == Percentage(stats[i].tally.votes, r.totalVotes)
    ensures r.winners == CalculateWinners(stats, r.totalVotes)
  {
    var total := SumVotes(stats);
    Aggregates(WithPercentages(stats, total), total, CalculateWinners(stats, total))
  }

  lemma SumPositiveHasEntries(stats: seq<Entry>)
    requires SumVotes(stats) > 0
    ensures |stats| > 0
  {
  }

  /**
   * The promises of the recomputation in terms of the tally map: the same
   * ids, the same counts, and winners exactly the leaders (none while the
   * total is zero, at least one otherwise).
   */
  lemma ProcessVoteStatsMeaning(stats: VoteStats)
    ensures var r := ProcessVoteStats(stats);
      && IdSet(r.updatedStats) == IdSet(stats)
      && (forall x :: Votes(r.updatedStats, x) == Votes(stats, x))
      && (r.totalVotes == 0 ==> r.winners == [])
      && (r.totalVotes > 0 ==> |r.winners| >= 1 && forall x :: x in r.winners <==> IsLeader(stats, x))
  {
    var r := ProcessVoteStats(stats);
    SameVotesSameAggregates(r.updatedStats, stats, 0);
    forall x
      ensures Votes(r.updatedStats, x) == Votes(stats, x)
    {
      IdSetIndex(stats, x);
      if x in IdSet(stats) {
        var i :| 0 <= i < |stats| && stats[i].id == x;
        AsMapAt(stats, i);
        AsMapAt(r.updatedStats, i);
      }
    }
    if r.totalVotes > 0 {
      SumPositiveHasEntries(stats);
    }
  }

  /** Recomputing aggregates a second time changes nothing. */
  lemma ProcessVoteStatsIdempotent(stats: VoteStats)
    ensures var a := ProcessVoteStats(stats);
      ProcessVoteStats(a.updatedStats) == a
  {
    var a := ProcessVoteStats(stats);
    var b := ProcessVoteStats(a.updatedStats);
    SameVotesSameAggregates(a.updatedStats, stats, 0);
    assert b.totalVotes == a.totalVotes;
    SameVotesSameWinners(a.updatedStats, stats, a.totalVotes);
    assert b.winners == a.winners;
    assert b.updatedStats == a.updatedStats;
  }

  /** The tally of `id` after one more vote: created at zero when absent, then incremented. */
  function Bumped(stats: VoteStats, id: int): Tally {
    var m := AsMap(stats);
    if id in m then Tally(m[id].votes + 1, m[id].percentage) else Tally(1, 0.0)
  }

  /** One vote for `id`; a new entry takes its place in ascending id order. */
  function AddVote(stats: VoteStats, id: int): (r: VoteStats)
    ensures IdSet(r) == IdSet(stats) + {id}
    decreases |stats|
  {
    if stats == [] then
      AsMapCons(Entry(id, Tally(1, 0.0)), []);
      [Entry(id, Tally(1, 0.0))]
    else
      var head := stats[0];
      var tail: VoteStats := stats[1..];
      AsMapCons(head, tail);
      assert stats == [head] + tail;
      forall k | k in IdSet(tail)
        ensures head.id < k
      {
        TailIdsAbove(stats, k);
      }
      if head.id == id then
        var e := Entry(id, Bumped(stats, id));
        AsMapCons(e, tail);
        ConsAscending(e, tail);
        [e] + tail
      else if id < head.id then
        var e := Entry(id, Tally(1, 0.0));
        AsMapCons(e, stats);
        ConsAscending(e, stats);
        [e] + stats
      else
        var rest := AddVote(tail, id);
        AsMapCons(head, rest);
        ConsAscending(head, rest);
        [head] + rest
  }

  lemma AddVoteMapAtHead(stats: VoteStats, id: int)
    requires stats != [] && stats[0].id == id
    ensures AsMap(AddVote(stats, id)) == AsMap(stats)[id := Bumped(stats, id)]
  {
    var tail: VoteStats := stats[1..];
    assert stats == [stats[0]] + tail;
    assert AddVote(stats, id) == [Entry(id, Bumped(stats, id))] + tail;
    AsMapCons(stats[0], tail);
    AsMapCons(Entry(id, Bumped(stats, id)), tail);
  }

  lemma AddVoteMapBeforeHead(stats: VoteStats, id: int)
    requires stats != [] && id < stats[0].id
    ensures AsMap(AddVote(stats, id)) == AsMap(stats)[id := Bumped(stats, id)]
  {
    assert AddVote(stats, id) == [Entry(id, Tally(1, 0.0))] + stats;
    assert id !in IdSet(stats) by {
      if id in IdSet(stats) {
        IdsAtLeastHead(stats, id);
      }
    }
    AsMapCons(Entry(id, Tally(1, 0.0)), stats);
  }

  /** Only `id`'s tally changes, and it gains exactly one vote. */
  lemma {:induction false} AddVoteMap(stats: VoteStats, id: int)
    ensures AsMap(AddVote(stats, id)) == AsMap(stats)[id := Bumped(stats, id)]
    decreases |stats|
  {
    if stats != [] {
      if stats[0].id == id {
        AddVoteMapAtHead(stats, id);
      } else if id < stats[0].id {
        AddVoteMapBeforeHead(stats, id);
      } else {
        var head := stats[0];
        var tail: VoteStats := stats[1..];
        assert stats == [head] + tail;
        assert AddVote(stats, id) == [head] + AddVote(tail, id);
        AsMapCons(head, tail);
        AddVoteMap(tail, id);
        AsMapCons(head, AddVote(tail, id));
        assert Bumped(tail, id) == Bumped(stats, id);
      }
    }
  }

  /** One vote raises the total by exactly one. */
  lemma {:induction false} AddVoteSum(stats: VoteStats, id: int)
    ensures SumVotes(AddVote(stats, id)) == SumVotes(stats) + 1
    decreases |stats|
  {
    if stats != [] {
      var head := stats[0];
      var tail: VoteStats := stats[1..];
      assert stats == [head] + tail;
      var r := AddVote(stats, id);
      if head.id == id {
        assert r[1..] == tail;
      } else if id < head.id {
        assert r[1..] == stats;
      } else {
        AddVoteSum(tail, id);
        assert r[1..] == AddVote(tail, id);
      }
    }
  }

  lemma AddVoteCounts(stats: VoteStats, id: int, other: int)
    ensures Votes(AddVote(stats, id), id) == Votes(stats, id) + 1
    ensures other != id ==> Votes(AddVote(stats, id), other) == Votes(stats, other)
  {
    AddVoteMap(stats, id);
  }
}
