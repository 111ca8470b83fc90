/**
 * The statistics page (src/pages/Statisticspage.tsx): the two chart
 * aggregations — scans grouped by day (last seven days shown) and top
 * merchants grouped by city — and the top-merchants table's position,
 * card-type tag and sorter.
 */
module Statistics {
  import opened Wrappers
  import opened Types

  /** One bar or slice of a chart: a key and how many items had it. */
  datatype Group<K> = Group(key: K, count: nat)

  /** The index of the first group with key `k`, or |gs| when there is none (`acc.find`). */
  function IndexOf<K(==)>(gs: seq<Group<K>>, k: K): (i: nat)
    ensures i <= |gs|
    ensures i < |gs| ==> gs[i].key == k
    ensures forall t :: 0 <= t < i ==> gs[t].key != k
    decreases |gs|
  {
    if |gs| == 0 then 0
    else if gs[0].key == k then 0
    else 1 + IndexOf(gs[1..], k)
  }

  /** One step of the fold: bump the group of `k`, or append a new group with count 1. */
  function Tally<K(==)>(gs: seq<Group<K>>, k: K): seq<Group<K>> {
    var i := IndexOf(gs, k);
    if i < |gs| then gs[i := Group(k, gs[i].count + 1)] else gs + [Group(k, 1)]
  }

  /** The fold over all keys, from the first to the last. */
  function GroupCounts<K(==)>(keys: seq<K>): seq<Group<K>>
    decreases |keys|
  {
    if |keys| == 0 then [] else Tally(GroupCounts(keys[..|keys| - 1]), keys[|keys| - 1])
  }

  /**
   * The `reduce` of the page: for each key, find its group and bump its count
   * in place, or push a new group.
   */
  method CountByKey<K(==)>(keys: seq<K>) returns (groups: seq<Group<K>>)
    ensures groups == GroupCounts(keys)
  {
    groups := [];
    var n := 0;
    while n < |keys|
      invariant 0 <= n <= |keys|
      invariant groups == GroupCounts(keys[..n])
    {
      var k := keys[n];
      var j := 0;
      while j < |groups| && groups[j].key != k
        invariant 0 <= j <= |groups|
        invariant forall t :: 0 <= t < j ==> groups[t].key != k
      {
        j := j + 1;
      }
      assert j == IndexOf(groups, k);
      if j < |groups| {
        groups := groups[j := Group(k, groups[j].count + 1)];
      } else {
        groups := groups + [Group(k, 1)];
      }
      assert keys[..n + 1][..n] == keys[..n];
      n := n + 1;
    }
    assert keys[..n] == keys;
  }

  // ---------------------------------------------------------------------------
  // What the grouping guarantees
  // ---------------------------------------------------------------------------

  ghost predicate DistinctKeys<K>(gs: seq<Group<K>>) {
    forall i, j :: 0 <= i < j < |gs| ==> gs[i].key != gs[j].key
  }

  /** The number of items, summed over the groups. */
  function Total<K>(gs: seq<Group<K>>): nat
    decreases |gs|
  {
    if |gs| == 0 then 0 else Total(gs[..|gs| - 1]) + gs[|gs| - 1].count
  }

  /** The position of the first occurrence of `k` in `keys`. */
  function FirstIndex<K(==)>(keys: seq<K>, k: K): (i: nat)
    requires k in keys
    ensures i < |keys| && keys[i] == k && k !in keys[..i]
    decreases |keys|
  {
    if keys[0] == k then 0 else 1 + FirstIndex(keys[1..], k)
  }

  lemma {:induction false} TotalUpdate<K>(gs: seq<Group<K>>, i: nat, g: Group<K>)
    requires i < |gs|
    ensures Total(gs[i := g]) + gs[i].count == Total(gs) + g.count
    decreases |gs|
  {
    var last := |gs| - 1;
    if i < last {
      assert gs[i := g][..last] == gs[..last][i := g];
      TotalUpdate(gs[..last], i, g);
    } else {
      assert gs[i := g][..last] == gs[..last];
    }
  }

  /** Every group key occurs among the keys, and every key has a group. */
  lemma {:induction false} GroupKeysAreKeys<K>(keys: seq<K>)
    ensures forall k :: k in keys <==> exists i :: 0 <= i < |GroupCounts(keys)| && GroupCounts(keys)[i].key == k
    decreases |keys|
  {
    if |keys| > 0 {
      var init := keys[..|keys| - 1];
      var x := keys[|keys| - 1];
      assert keys == init + [x];
      GroupKeysAreKeys(init);
      var gs := GroupCounts(init);
      var i := IndexOf(gs, x);
      forall k ensures k in keys <==> exists t :: 0 <= t < |GroupCounts(keys)| && GroupCounts(keys)[t].key == k {
        if i < |gs| {
          assert forall t :: 0 <= t < |gs| ==> GroupCounts(keys)[t].key == gs[t].key;
        } else {
          assert GroupCounts(keys) == gs + [Group(x, 1)];
          if k == x {
            assert GroupCounts(keys)[|gs|].key == k;
          } else if exists t :: 0 <= t < |gs| && gs[t].key == k {
            var t :| 0 <= t < |gs| && gs[t].key == k;
            assert GroupCounts(keys)[t].key == k;
          }
        }
      }
    }
  }

  /** The groups have pairwise distinct keys. */
  lemma {:induction false} GroupKeysDistinct<K>(keys: seq<K>)
    ensures DistinctKeys(GroupCounts(keys))
    decreases |keys|
  {
    if |keys| > 0 {
      var init := keys[..|keys| - 1];
      var x := keys[|keys| - 1];
      GroupKeysDistinct(init);
      var gs := GroupCounts(init);
      if IndexOf(gs, x) == |gs| {
        assert GroupCounts(keys) == gs + [Group(x, 1)];
      }
    }
  }

  /** Each group counts the occurrences of its key, so every count is at least 1. */
  lemma {:induction false} GroupCountsAreOccurrences<K>(keys: seq<K>)
    ensures forall i :: 0 <= i < |GroupCounts(keys)| ==>
      GroupCounts(keys)[i].count == multiset(keys)[GroupCounts(keys)[i].key] >= 1
    decreases |keys|
  {
    if |keys| > 0 {
      var init := keys[..|keys| - 1];
      var x := keys[|keys| - 1];
      assert keys == init + [x];
      assert multiset(keys) == multiset(init) + multiset{x};
      GroupCountsAreOccurrences(init);
      GroupKeysAreKeys(init);
      GroupKeysDistinct(init);
      var gs := GroupCounts(init);
      var i := IndexOf(gs, x);
      if i < |gs| {
        var r := GroupCounts(keys);
        forall t | 0 <= t < |r| ensures r[t].count == multiset(keys)[r[t].key] >= 1 {
          if t != i {
            assert gs[t].key != x;
          }
        }
      } else {
        assert x !in init;
        assert multiset(init)[x] == 0;
        assert GroupCounts(keys) == gs + [Group(x, 1)];
      }
    }
  }

  /** The counts add up to the number of keys. */
  lemma {:induction false} GroupCountsTotal<K>(keys: seq<K>)
    ensures Total(GroupCounts(keys)) == |keys|
    decreases |keys|
  {
    if |keys| > 0 {
      var init := keys[..|keys| - 1];
      var x := keys[|keys| - 1];
      GroupCountsTotal(init);
      var gs := GroupCounts(init);
      assert GroupCounts(keys) == Tally(gs, x);
      var i := IndexOf(gs, x);
      if i < |gs| {
        TotalUpdate(gs, i, Group(x, gs[i].count + 1));
        assert Total(GroupCounts(keys)) == Total(gs) + 1;
      } else {
        var r := gs + [Group(x, 1)];
        assert r[..|r| - 1] == gs;
        assert Total(r) == Total(gs) + 1;
      }
    }
  }

  lemma {:induction false} FirstIndexExtend<K>(keys: seq<K>, x: K, k: K)
    requires k in keys
    ensures k in keys + [x] && FirstIndex(keys + [x], k) == FirstIndex(keys, k)
    decreases |keys|
  {
    if keys[0] != k {
      assert (keys + [x])[1..] == keys[1..] + [x];
      FirstIndexExtend(keys[1..], x, k);
    }
  }

  /** Every group's key occurs in `keys`, and the groups follow their keys' first occurrences. */
  ghost predicate FirstOrder<K>(keys: seq<K>, gs: seq<Group<K>>) {
    (forall t :: 0 <= t < |gs| ==> gs[t].key in keys) &&
    forall i, j :: 0 <= i < j < |gs| ==> FirstIndex(keys, gs[i].key) < FirstIndex(keys, gs[j].key)
  }

  lemma FirstOrderExtend<K>(keys: seq<K>, x: K, gs: seq<Group<K>>)
    requires FirstOrder(keys, gs)
    ensures FirstOrder(keys + [x], gs)
  {
    forall t | 0 <= t < |gs| ensures gs[t].key in keys + [x] && FirstIndex(keys + [x], gs[t].key) == FirstIndex(keys, gs[t].key) {
      FirstIndexExtend(keys, x, gs[t].key);
    }
  }

  lemma FirstOrderBump<K>(keys: seq<K>, gs: seq<Group<K>>, i: nat, g: Group<K>)
    requires FirstOrder(keys, gs) && i < |gs| && g.key == gs[i].key
    ensures FirstOrder(keys, gs[i := g])
  {
    var r := gs[i := g];
    assert forall t :: 0 <= t < |r| ==> r[t].key == gs[t].key;
  }

  lemma FirstOrderPush<K>(init: seq<K>, x: K, gs: seq<Group<K>>)
    requires FirstOrder(init + [x], gs) && x !in init
    requires forall t :: 0 <= t < |gs| ==> gs[t].key in init
    ensures FirstOrder(init + [x], gs + [Group(x, 1)])
  {
    var keys := init + [x];
    var r := gs + [Group(x, 1)];
    assert FirstIndex(keys, x) == |init| by {
      assert keys[|init|] == x && x !in keys[..|init|];
    }
    forall i, j | 0 <= i < j < |r| ensures FirstIndex(keys, r[i].key) < FirstIndex(keys, r[j].key) {
      if j == |gs| {
        FirstIndexExtend(init, x, gs[i].key);
      }
    }
  }

  /** The groups come in the order in which their keys first occur. */
  lemma {:induction false} GroupCountsOrdered<K>(keys: seq<K>)
    ensures FirstOrder(keys, GroupCounts(keys))
    decreases |keys|
  {
    if |keys| > 0 {
      var init := keys[..|keys| - 1];
      var x := keys[|keys| - 1];
      assert keys == init + [x];
      GroupCountsOrdered(init);
      var gs := GroupCounts(init);
      FirstOrderExtend(init, x, gs);
      assert GroupCounts(keys) == Tally(gs, x);
      var i := IndexOf(gs, x);
      if i < |gs| {
        FirstOrderBump(keys, gs, i, Group(x, gs[i].count + 1));
      } else {
        GroupKeysAreKeys(init);
        assert x !in init;
        FirstOrderPush(init, x, gs);
      }
    }
  }


  // ---------------------------------------------------------------------------
  // The two charts
  // ---------------------------------------------------------------------------

  /**
   * `slice(-n)`: the last `n` elements, or all of them when there are fewer.
   * `slice(-0)` is `slice(0)`, the whole sequence.
   */
  function LastN<T>(s: seq<T>, n: nat): (r: seq<T>)
    ensures n == 0 ==> r == s
    ensures n > 0 ==> |r| == if |s| < n then |s| else n
    ensures r == s[|s| - |r|..]
  {
    if n == 0 || |s| <= n then s else s[|s| - n..]
  }

  /** The day key of each scan (the `DD/MM` formatting is the abstract `dayKey`). */
  function DayKeys(scans: seq<Scan>, dayKey: int -> string): (keys: seq<string>)
    ensures |keys| == |scans|
    ensures forall i :: 0 <= i < |scans| ==> keys[i] == dayKey(scans[i].scannedAt)
  {
    seq(|scans|, i requires 0 <= i < |scans| => dayKey(scans[i].scannedAt))
  }

  /** `scansByDayData`: scans grouped by day, the last seven groups; nothing while the stats are not loaded. */
  method ScansByDay(stats: Option<DashboardStats>, dayKey: int -> string) returns (data: seq<Group<string>>)
    ensures stats.None? ==> data == []
    ensures stats.Some? ==> data == LastN(GroupCounts(DayKeys(stats.value.recentScans, dayKey)), 7)
    ensures |data| <= 7
  {
    data := [];
    if stats.Some? {
      var groups := CountByKey(DayKeys(stats.value.recentScans, dayKey));
      data := LastN(groups, 7);
    }
  }

  /** A row of the top-merchants table, as the statistics endpoint returns it. */
  datatype TopMerchant = TopMerchant(businessName: string, ownerName: string, city: string, cardType: string, totalScans: int)

  function Cities(top: seq<TopMerchant>): (keys: seq<string>)
    ensures |keys| == |top|
    ensures forall i :: 0 <= i < |top| ==> keys[i] == top[i].city
  {
    seq(|top|, i requires 0 <= i < |top| => top[i].city)
  }

  /** `cityData`: top merchants grouped by city. */
  method CityData(top: seq<TopMerchant>) returns (data: seq<Group<string>>)
    ensures data == GroupCounts(Cities(top))
  {
    data := CountByKey(Cities(top));
  }

  /** The pie chart counts every top merchant once, in one slice per city. */
  lemma CityDataConserves(top: seq<TopMerchant>)
    ensures Total(GroupCounts(Cities(top))) == |top|
    ensures DistinctKeys(GroupCounts(Cities(top)))
  {
    GroupCountsTotal(Cities(top));
    GroupKeysDistinct(Cities(top));
  }

  /** Before the cut to seven days, the bars count every recent scan once. */
  lemma ScansByDayConserves(scans: seq<Scan>, dayKey: int -> string)
    ensures Total(GroupCounts(DayKeys(scans, dayKey))) == |scans|
  {
    GroupCountsTotal(DayKeys(scans, dayKey));
  }

  // ---------------------------------------------------------------------------
  // The top-merchants table
  // ---------------------------------------------------------------------------

  const Medals := ["🥇", "🥈", "🥉"]

  /** What the position column shows: a medal for the first three rows, the 1-based rank after that. */
  datatype PositionCell = MedalCell(medal: string) | RankCell(rank: nat)

  function Position(index: nat): (c: PositionCell)
    ensures index < 3 <==> c.MedalCell?
    ensures index < 3 ==> c.medal == Medals[index]
    ensures index >= 3 ==> c.rank == index + 1
  {
    if index < 3 then MedalCell(Medals[index]) else RankCell(index + 1)
  }

  /** No two rows show the same position. */
  lemma PositionInjective(i: nat, j: nat)
    requires i != j
    ensures Position(i) != Position(j)
  {
    if i < 3 && j < 3 {
      assert Medals[0] != Medals[1] && Medals[0] != Medals[2] && Medals[1] != Medals[2] by {
        assert Medals[0][0] != Medals[1][0] && Medals[0][0] != Medals[2][0] && Medals[1][0] != Medals[2][0];
      }
    }
  }

  /** The card-type tag colour. */
  function TagColour(cardType: string): (colour: string)
    ensures colour == "purple" <==> cardType == "ENTERPRISE"
    ensures colour == "cyan" <==> cardType == "PREMIUM"
    ensures colour == "blue" <==> cardType != "ENTERPRISE" && cardType != "PREMIUM"
  {
    if cardType == "ENTERPRISE" then "purple" else if cardType == "PREMIUM" then "cyan" else "blue"
  }

  /** The totalScans sorter: negative, zero or positive as `a` has fewer, as many or more scans than `b`. */
  function CompareByScans(a: TopMerchant, b: TopMerchant): (r: int)
    ensures r < 0 <==> a.totalScans < b.totalScans
    ensures r == 0 <==> a.totalScans == b.totalScans
    ensures r > 0 <==> a.totalScans > b.totalScans
  {
    a.totalScans - b.totalScans
  }
}
