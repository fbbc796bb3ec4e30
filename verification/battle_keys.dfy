/**
 * The canonical battle key: the participant ids sorted numerically in
 * ascending order, each rendered in decimal, joined by `_vs_`.
 */
module BattleKeys {
  import opened Wrappers
  import opened Decimal
  import opened Sorting

  const Separator: string := "_vs_"

  /** `ids.join('_vs_')` on an array of numbers. */
  function JoinIds(ids: seq<int>): string
    decreases |ids|
  {
    if |ids| == 0 then ""
    else if |ids| == 1 then IntToString(ids[0])
    else IntToString(ids[0]) + Separator + JoinIds(ids[1..])
  }

  /** The key under which a battle between `ids` is stored and scoped. */
  function BattleKey(ids: seq<int>): string {
    JoinIds(SortAsc(ids))
  }

  /** Reads a non-empty `_vs_`-separated list of decimal ids back. */
  function ParseIdList(k: string): Option<seq<int>>
    decreases |k|
  {
    var i := IndexOf(k, '_');
    if i == |k| then
      match ParseInt(k)
      case Some(x) => Some([x])
      case None => None
    else if i + |Separator| <= |k| && k[i..i + |Separator|] == Separator then
      match (ParseInt(k[..i]), ParseIdList(k[i + |Separator|..]))
      case (Some(x), Some(rest)) => Some([x] + rest)
      case _ => None
    else
      None
  }

  /** The inverse of `BattleKey` on sorted id lists. */
  function ParseBattleKey(k: string): Option<seq<int>> {
    if k == "" then Some([]) else ParseIdList(k)
  }

  lemma NoUnderscoreInId(x: int)
    ensures '_' !in IntToString(x)
  {
  }

  lemma {:induction false} JoinIdsRoundTrip(ids: seq<int>)
    ensures ParseBattleKey(JoinIds(ids)) == Some(ids)
    decreases |ids|
  {
    if |ids| == 1 {
      var s := IntToString(ids[0]);
      NoUnderscoreInId(ids[0]);
      IndexOfAbsent(s, '_');
      IntRoundTrip(ids[0]);
      assert s != "";
      assert ids == [ids[0]];
    } else if |ids| > 1 {
      var head := IntToString(ids[0]);
      var tail := JoinIds(ids[1..]);
      var k := head + Separator + tail;
      assert JoinIds(ids) == k;
      NoUnderscoreInId(ids[0]);
      IndexOfAfterPrefix(head, Separator + tail, '_');
      assert k == head + (Separator + tail);
      assert k[..|head|] == head;
      assert k[|head|..|head| + |Separator|] == Separator;
      assert k[|head| + |Separator|..] == tail;
      IntRoundTrip(ids[0]);
      JoinIdsRoundTrip(ids[1..]);
      assert tail != "" by {
        assert |IntToString(ids[1])| >= 1;
        if |ids[1..]| == 1 {
        } else {
          assert tail == IntToString(ids[1..][0]) + Separator + JoinIds(ids[1..][1..]);
        }
      }
      assert ids == [ids[0]] + ids[1..];
    }
  }

  /** The key is determined by the sorted ids and determines them back. */
  lemma BattleKeyRoundTrip(ids: seq<int>)
    ensures ParseBattleKey(BattleKey(ids)) == Some(SortAsc(ids))
  {
    JoinIdsRoundTrip(SortAsc(ids));
  }

  /**
   * Two id lists yield the same key exactly when one is a permutation of the
   * other: the order of the ids never matters, and different participants
   * never share a key.
   */
  lemma BattleKeyIffPermutation(a: seq<int>, b: seq<int>)
    ensures BattleKey(a) == BattleKey(b) <==> multiset(a) == multiset(b)
  {
    SortAscCharacterisation(a, b);
    BattleKeyRoundTrip(a);
    BattleKeyRoundTrip(b);
  }

  lemma BattleKeyOfEmpty()
    ensures BattleKey([]) == ""
  {
  }

  lemma BattleKeyOfSingle(x: int)
    ensures BattleKey([x]) == IntToString(x)
  {
    assert SortAsc([x]) == [x];
  }

  lemma SortExample()
    ensures SortAsc([25, 1, 44]) == [1, 25, 44]
  {
    var a: seq<int> := [25, 1, 44];
    var b: seq<int> := [1, 25, 44];
    assert multiset(a) == multiset(b) by {
      assert a == [25] + [1] + [44];
      assert b == [1] + [25] + [44];
    }
    assert Sorted(b);
    SortedUnique(SortAsc(a), b);
  }

  lemma JoinExample()
    ensures JoinIds([1, 25, 44]) == "1_vs_25_vs_44"
  {
    assert IntToString(1) == "1";
    assert IntToString(25) == "25" by {
      assert NatToString(25) == NatToString(2) + [DigitChar(5)];
    }
    assert IntToString(44) == "44" by {
      assert NatToString(44) == NatToString(4) + [DigitChar(4)];
    }
    var ids: seq<int> := [1, 25, 44];
    assert ids[1..] == [25, 44] && ids[1..][1..] == [44];
  }

  /** The worked example of the key format. */
  lemma BattleKeyExample()
    ensures BattleKey([25, 1, 44]) == "1_vs_25_vs_44"
  {
    SortExample();
    JoinExample();
  }
}
