/** The in-memory list of log ids that an engine keeps: a run-length index refining a plain log. */
module LogIdLists {
  import opened Common
  import opened LogIds

  datatype LeaderLogIds<+L> = LeaderLogIds(leader: L, first: nat, last: nat)

  /** Binary search for `x` among strictly increasing indexes. */
  method BinarySearch<L>(keys: seq<LogId<L>>, x: nat) returns (found: bool, i: nat)
    requires Sorted(keys)
    ensures i <= |keys|
    ensures forall k | 0 <= k < i :: keys[k].index < x
    ensures forall k | i <= k < |keys| :: x <= keys[k].index
    ensures found <==> i < |keys| && keys[i].index == x
  {
    var lo, hi := 0, |keys|;
    while lo < hi
      invariant 0 <= lo <= hi <= |keys|
      invariant forall k | 0 <= k < lo :: keys[k].index < x
      invariant forall k | hi <= k < |keys| :: x <= keys[k].index
    {
      var mid := (lo + hi) / 2;
      if keys[mid].index < x { lo := mid + 1; } else { hi := mid; }
    }
    found, i := lo < |keys| && keys[lo].index == x, lo;
  }

  class LogIdList<L(==)> {
    var purged: Option<LogId<L>>
    var keys: seq<LogId<L>>
    ghost var log: PlainLog<L>

    ghost predicate Valid()
      reads this
    {
      purged == log.purged && IsIndexOf(log.First(), log.leaders, keys)
    }

    constructor (purged: Option<LogId<L>>, keys: seq<LogId<L>>, ghost leaders: seq<L>)
      requires keys == KeysOf(PlainLog(purged, leaders).First(), leaders)
      ensures Valid() && log == PlainLog(purged, leaders)
    {
      this.purged, this.keys, log := purged, keys, PlainLog(purged, leaders);
      new;
      KeysOfIsIndex(log.First(), leaders);
    }

    method FirstIndex() returns (i: nat)
      requires Valid()
      ensures i == log.First()
    {
      i := if purged.Some? then purged.value.index + 1 else 0;
    }

    /** The last log id, or the purge point when nothing follows it. */
    method Last() returns (id: Option<LogId<L>>)
      requires Valid()
      ensures id == log.Last()
    {
      EmptyIndex(log.First(), log.leaders, keys);
      if keys == [] { return purged; }
      AllSorted(log.First(), log.leaders, keys);
      assert IsRun(log.First(), log.leaders, keys, |keys| - 1);
      id := Some(keys[|keys| - 1]);
    }

    method First() returns (id: Option<LogId<L>>)
      requires Valid()
      ensures id == if log.leaders == [] then None else log.Get(log.First())
    {
      EmptyIndex(log.First(), log.leaders, keys);
      if keys == [] { return None; }
      assert IsRun(log.First(), log.leaders, keys, 0);
      var i := FirstIndex();
      id := Some(LogId(keys[0].leader, i));
    }

    method RefAt(index: nat) returns (id: Option<LogId<L>>)
      requires Valid()
      ensures id == log.Get(index)
    {
      AllSorted(log.First(), log.leaders, keys);
      var first := FirstIndex();
      if index < first {
        return if index == purged.value.index then purged else None;
      }
      var found, i := BinarySearch(keys, index);
      EmptyIndex(first, log.leaders, keys);
      if i == |keys| { return None; }
      assert IsRun(first, log.leaders, keys, i);
      var start := if i == 0 then first else keys[i - 1].index + 1;
      if index < start { return None; }
      assert log.leaders[index - first] == keys[i].leader;
      id := Some(LogId(keys[i].leader, index));
    }

    /** The log ids proposed by the last leader: the longest run of equal leaders at the end. */
    method ByLastLeader() returns (r: Option<LeaderLogIds<L>>)
      requires Valid()
      ensures r.None? <==> log.Last().None?
      ensures r.Some? ==> r.value.first <= r.value.last && log.Last() == Some(LogId(r.value.leader, r.value.last))
      ensures r.Some? ==> forall i | r.value.first <= i <= r.value.last :: log.Get(i) == Some(LogId(r.value.leader, i))
      ensures r.Some? && log.leaders != [] ==> log.First() <= r.value.first
      ensures r.Some? && log.First() < r.value.first ==> log.Get(r.value.first - 1).value.leader != r.value.leader
    {
      var first := FirstIndex();
      var last := Last();
      if last.None? { return None; }
      EmptyIndex(first, log.leaders, keys);
      var n := |keys|;
      var start := if n == 0 then last.value.index else if n == 1 then first else keys[n - 2].index + 1;
      if n > 0 {
        AllSorted(first, log.leaders, keys);
        assert IsRun(first, log.leaders, keys, n - 1);
        assert start == StartOf(first, keys, n - 1);
        forall i | start <= i <= last.value.index ensures log.Get(i) == Some(LogId(last.value.leader, i)) {
          assert log.leaders[i - first] == keys[n - 1].leader;
        }
        if n > 1 {
          assert IsRun(first, log.leaders, keys, n - 2);
          assert log.leaders[start - 1 - first] == keys[n - 2].leader;
        }
      }
      r := Some(LeaderLogIds(last.value.leader, start, last.value.index));
    }

    method Append(id: LogId<L>)
      requires Valid() && log.End() <= id.index
      modifies this
      ensures Valid() && log == old(log.Append(id))
    {
      PushKeepsIndex(log.First(), log.leaders, keys, id);
      keys := PushKey(keys, id);
      log := log.Append(id);
    }

    method Extend(ids: seq<LogId<L>>)
      requires Valid() && AscendingFrom(log.End(), ids)
      modifies this
      ensures Valid() && log == old(log.AppendAll(ids)) && old(log).Gains(ids, log)
    {
      assert ids[0..] == ids;
      log.AppendAllGains(ids);
      for n := 0 to |ids|
        invariant Valid() && AscendingFrom(log.End(), ids[n..]) && log.AppendAll(ids[n..]) == old(log.AppendAll(ids))
      {
        assert ids[n..][1..] == ids[n + 1..];
        Append(ids[n]);
      }
    }

    /** Consecutive log ids of one leader: only the first and the last one are looked at. */
    method ExtendFromSameLeader(ids: seq<LogId<L>>)
      requires Valid()
      requires forall k | 0 <= k < |ids| :: ids[k].index == log.End() + k && ids[k].leader == ids[0].leader
      modifies this
      ensures Valid()
      ensures log == PlainLog(
        old(log.purged), old(log.leaders) + seq(|ids|, k requires 0 <= k < |ids| => ids[k].leader))
    {
      ghost var leaders := seq(|ids|, k requires 0 <= k < |ids| => ids[k].leader);
      ghost var base := log.leaders;
      if |ids| > 0 {
        Append(ids[0]);
        assert log.leaders == base + leaders[..1];
        if |ids| > 1 {
          Append(ids[|ids| - 1]);
          assert log.leaders == base + leaders;
        }
      }
    }

    method Truncate(at: nat)
      requires Valid()
      modifies this
      ensures Valid() && log == old(log.Truncate(at))
    {
      EmptyIndex(log.First(), log.leaders, keys);
      AllSorted(log.First(), log.leaders, keys);
      if at == 0 {
        keys, log := [], log.Truncate(at);
        return;
      }
      var found, i := BinarySearch(keys, at);
      if i == |keys| { return; }
      var first := FirstIndex();
      var end := if i == 0 then first else keys[i - 1].index + 1;
      if first <= at {
        CutKeepsIndex(first, log.leaders, keys, at, i);
      }
      log := log.Truncate(at);
      if end < at {
        keys := keys[..i] + [LogId(keys[i].leader, at - 1)];
      } else {
        assert keys[..i] + [] == keys[..i];
        keys := keys[..i];
      }
    }

    method Purge(upto: LogId<L>)
      requires Valid()
      modifies this
      ensures Valid() && log == old(log.Purge(upto))
    {
      hide IsRun;
      EmptyIndex(log.First(), log.leaders, keys);
      AllSorted(log.First(), log.leaders, keys);
      var last := Last();
      var next := if last.Some? then last.value.index + 1 else 0;
      var first := FirstIndex();
      if next <= upto.index {
        purged, keys, log := Some(upto), [], log.Purge(upto);
        return;
      }
      if upto.index < first { return; }
      var found, i := BinarySearch(keys, upto.index);
      var j := if found then i + 1 else i;
      if j < |keys| {
        DropKeepsIndex(first, log.leaders, keys, upto.index, j);
      }
      log := log.Purge(upto);
      keys := keys[j..];
      purged := Some(upto);
    }

    /** While no leader comes back, each leader has one entry, and it is its last log id. */
    lemma OneEntryPerLeader()
      requires Valid() && Grouped(log.leaders)
      ensures forall i, j | 0 <= i < j < |keys| :: keys[i].leader != keys[j].leader
      ensures forall k, p | 0 <= k < |keys| && 0 <= p < |log.leaders| && log.leaders[p] == keys[k].leader ::
                log.First() + p <= keys[k].index
    {
      OneKeyPerLeader(log.First(), log.leaders, keys);
    }

    /** The key list holds nothing but what the log determines. */
    lemma KeysAreCanonical()
      requires Valid()
      ensures keys == KeysOf(log.First(), log.leaders)
    {
      IndexIsKeysOf(log.First(), log.leaders, keys);
    }
  }
}
