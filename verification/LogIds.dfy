/**
 * A run-length index over the log: the last log id of each leader plus the purge point. Leader ids
 * are used only through equality, so any leader id type fits.
 */
module LogIds {

  import opened Common

  datatype LogId<+L> = LogId(leader: L, index: nat)

  /** The indexes go up, from `start` on. */
  ghost predicate AscendingFrom<L>(start: nat, ids: seq<LogId<L>>)
    decreases |ids|
  {
    ids != [] ==> start <= ids[0].index && AscendingFrom(ids[0].index + 1, ids[1..])
  }

  /** The log that the index stands for: a purge point and the leader of every log id after it. */
  datatype PlainLog<L> = PlainLog(purged: Option<LogId<L>>, leaders: seq<L>) {
    function First(): nat { if purged.Some? then purged.value.index + 1 else 0 }

    function End(): nat { First() + |leaders| }

    function Get(i: nat): Option<LogId<L>> {
      if First() <= i < End() then Some(LogId(leaders[i - First()], i))
      else if purged.Some? && i == purged.value.index then purged
      else None
    }

    function Last(): Option<LogId<L>> {
      if leaders != [] then Get(End() - 1) else purged
    }

    /** Append log ids of one leader up to `id`, inclusive. */
    function Append(id: LogId<L>): (r: PlainLog<L>)
      requires End() <= id.index
      ensures r.Last() == Some(id) && r.End() == id.index + 1
      ensures forall i: nat :: r.Get(i) == if End() <= i <= id.index then Some(LogId(id.leader, i)) else Get(i)
    {
      this.(leaders := leaders + seq(id.index + 1 - End(), i => id.leader))
    }

    /** Append log ids in ascending order; the indexes that are skipped belong to the leader of the next one. */
    function AppendAll(ids: seq<LogId<L>>): PlainLog<L>
      requires AscendingFrom(End(), ids)
      decreases |ids|
    {
      if ids == [] then this else Append(ids[0]).AppendAll(ids[1..])
    }

    /** Where the log ids of the `k`-th of `ids` start: after the one before it, or after the log. */
    function StartOfNext(ids: seq<LogId<L>>, k: nat): nat
      requires k < |ids|
    {
      if k == 0 then End() else ids[k - 1].index + 1
    }

    /**
     * Afterwards the log has each of the log ids, the indexes skipped before one belong to its leader, and
     * everything that was there before stays.
     */
    ghost predicate Gains(ids: seq<LogId<L>>, after: PlainLog<L>) {
      && after.End() == (if ids == [] then End() else ids[|ids| - 1].index + 1)
      && (forall i: nat | i < End() :: after.Get(i) == Get(i))
      && (forall k: nat | k < |ids| :: after.Get(ids[k].index) == Some(ids[k]))
      && (forall k: nat, i: nat | k < |ids| && StartOfNext(ids, k) <= i <= ids[k].index ::
            after.Get(i) == Some(LogId(ids[k].leader, i)))
    }

    lemma {:induction false} AppendAllGains(ids: seq<LogId<L>>)
      requires AscendingFrom(End(), ids)
      ensures Gains(ids, AppendAll(ids)) && AppendAll(ids).purged == purged
      decreases |ids|
    {
      if ids != [] {
        var mid, rest := Append(ids[0]), ids[1..];
        mid.AppendAllGains(rest);
        GainsFirst(ids, mid, mid.AppendAll(rest));
      }
    }

    /** What is gained by one log id and then by the rest is gained by all. */
    lemma GainsFirst(ids: seq<LogId<L>>, mid: PlainLog<L>, after: PlainLog<L>)
      requires ids != [] && End() <= ids[0].index && mid.End() == ids[0].index + 1 && mid.Gains(ids[1..], after)
      requires forall i: nat ::
                 mid.Get(i) == if End() <= i <= ids[0].index then Some(LogId(ids[0].leader, i)) else Get(i)
      ensures Gains(ids, after)
    {
      hide PlainLog.Get;
      hide PlainLog.End;
      var rest := ids[1..];
      forall k: nat, i: nat | k < |ids| && StartOfNext(ids, k) <= i <= ids[k].index
        ensures after.Get(i) == Some(LogId(ids[k].leader, i))
      {
        if 0 < k {
          assert rest[k - 1] == ids[k] && (1 < k ==> rest[k - 2] == ids[k - 1]);
          assert mid.StartOfNext(rest, k - 1) == StartOfNext(ids, k);
        }
      }
      forall k: nat | k < |ids| ensures after.Get(ids[k].index) == Some(ids[k]) {
        if 0 < k { assert rest[k - 1] == ids[k]; }
      }
    }

    function Truncate(at: nat): (r: PlainLog<L>)
      ensures forall i: nat :: r.Get(i) == if at <= i && First() <= i then None else Get(i)
    {
      if End() <= at then this
      else if at <= First() then this.(leaders := [])
      else this.(leaders := leaders[..at - First()])
    }

    function Purge(upto: LogId<L>): (r: PlainLog<L>)
      ensures forall i: nat | upto.index < i :: r.Get(i) == Get(i)
      ensures First() <= upto.index ==>
          r.Get(upto.index) == Some(upto) && forall i: nat | i < upto.index :: r.Get(i) == None
      ensures upto.index < First() ==> r == this
    {
      if upto.index < First() then this
      else if End() <= upto.index then PlainLog(Some(upto), [])
      else PlainLog(Some(upto), leaders[upto.index + 1 - First()..])
    }
  }

  // ---- Key lists ----

  /** Add a log id to a key list: replace the last key of the same leader, or start a new one. */
  function PushKey<L(==)>(keys: seq<LogId<L>>, id: LogId<L>): seq<LogId<L>> {
    if keys != [] && keys[|keys| - 1].leader == id.leader then keys[..|keys| - 1] + [id] else keys + [id]
  }

  /** The key list got by appending every log id of the log one at a time. */
  function KeysOf<L(==)>(first: nat, leaders: seq<L>): seq<LogId<L>> {
    if leaders == [] then []
    else PushKey(KeysOf(first, leaders[..|leaders| - 1]), LogId(leaders[|leaders| - 1], first + |leaders| - 1))
  }

  /** The first index covered by key `k`. */
  function StartOf<L>(first: nat, keys: seq<LogId<L>>, k: nat): nat
    requires k < |keys|
  {
    if k == 0 then first else keys[k - 1].index + 1
  }

  /** Key `k` ends a maximal run of equal leaders that starts right after key `k - 1`. */
  ghost predicate IsRun<L>(first: nat, leaders: seq<L>, keys: seq<LogId<L>>, k: nat)
    requires k < |keys|
  {
    && StartOf(first, keys, k) <= keys[k].index < first + |leaders|
    && (forall p | 0 <= p < |leaders| && StartOf(first, keys, k) <= first + p <= keys[k].index ::
      leaders[p] == keys[k].leader)
    && (0 < k ==> keys[k - 1].leader != keys[k].leader)
  }

  /** `keys` are the last log ids of the maximal runs of equal leaders in `leaders`. */
  ghost predicate IsIndexOf<L>(first: nat, leaders: seq<L>, keys: seq<LogId<L>>) {
    && (if keys == [] then leaders == [] else keys[|keys| - 1].index + 1 == first + |leaders|)
    && (forall k | 0 <= k < |keys| :: IsRun(first, leaders, keys, k))
  }

  ghost predicate Sorted<L>(keys: seq<LogId<L>>) {
    forall i, j | 0 <= i < j < |keys| :: keys[i].index < keys[j].index
  }

  lemma {:induction false} IndexIsSorted<L>(first: nat, leaders: seq<L>, keys: seq<LogId<L>>, i: nat, j: nat)
    requires IsIndexOf(first, leaders, keys) && i <= j < |keys|
    ensures i < j ==> keys[i].index < keys[j].index
    ensures first <= keys[i].index < first + |leaders|
    decreases j
  {
    assert IsRun(first, leaders, keys, j);
    assert IsRun(first, leaders, keys, i);
    if i < j {
      IndexIsSorted(first, leaders, keys, i, j - 1);
    } else if 0 < i {
      IndexIsSorted(first, leaders, keys, i - 1, i - 1);
    }
  }

  lemma EmptyIndex<L>(first: nat, leaders: seq<L>, keys: seq<LogId<L>>)
    requires IsIndexOf(first, leaders, keys)
    ensures keys == [] <==> leaders == []
  {
    if keys != [] {
      IndexIsSorted(first, leaders, keys, |keys| - 1, |keys| - 1);
    }
  }

  lemma AllSorted<L>(first: nat, leaders: seq<L>, keys: seq<LogId<L>>)
    requires IsIndexOf(first, leaders, keys)
    ensures Sorted(keys)
    ensures forall k | 0 <= k < |keys| :: first <= keys[k].index < first + |leaders|
  {
    hide IsIndexOf;
    forall i, j | 0 <= i < j < |keys| ensures keys[i].index < keys[j].index {
      IndexIsSorted(first, leaders, keys, i, j);
    }
    forall k | 0 <= k < |keys| ensures first <= keys[k].index < first + |leaders| {
      IndexIsSorted(first, leaders, keys, k, |keys| - 1);
    }
  }

  // ---- Each operation keeps the index exact ----

  /** Appending log ids of one leader pushes one key. */
  lemma PushKeepsIndex<L>(first: nat, leaders: seq<L>, keys: seq<LogId<L>>, id: LogId<L>)
    requires IsIndexOf(first, leaders, keys) && first + |leaders| <= id.index
    ensures IsIndexOf(first, leaders + seq(id.index + 1 - (first + |leaders|), i => id.leader), PushKey(keys, id))
  {
    var leaders', keys' := leaders + seq(id.index + 1 - (first + |leaders|), i => id.leader), PushKey(keys, id);
    AllSorted(first, leaders, keys);
    forall k | 0 <= k < |keys'| ensures IsRun(first, leaders', keys', k) {
      if k < |keys| {
        assert IsRun(first, leaders, keys, k);
      }
    }
  }

  /** Truncating at `at` keeps the keys below it and shortens the run that crosses it. */
  lemma CutKeepsIndex<L>(first: nat, leaders: seq<L>, keys: seq<LogId<L>>, at: nat, i: nat)
    requires IsIndexOf(first, leaders, keys) && first <= at < first + |leaders|
    requires i < |keys| && StartOf(first, keys, i) <= at <= keys[i].index
    ensures IsIndexOf(first, leaders[..at - first],
                      keys[..i] + if StartOf(first, keys, i) < at then [LogId(keys[i].leader, at - 1)] else [])
  {
    var leaders' := leaders[..at - first];
    var keys' := keys[..i] + if StartOf(first, keys, i) < at then [LogId(keys[i].leader, at - 1)] else [];
    AllSorted(first, leaders, keys);
    forall k | 0 <= k < |keys'| ensures IsRun(first, leaders', keys', k) {
      assert IsRun(first, leaders, keys, k);
    }
  }

  /** Purging up to `upto` drops the keys up to it and keeps the rest as they are. */
  lemma DropKeepsIndex<L>(first: nat, leaders: seq<L>, keys: seq<LogId<L>>, upto: nat, i: nat)
    requires IsIndexOf(first, leaders, keys) && first <= upto && upto + 1 < first + |leaders|
    requires i < |keys| && StartOf(first, keys, i) <= upto + 1 <= keys[i].index
    ensures IsIndexOf(upto + 1, leaders[upto + 1 - first..], keys[i..])
  {
    var first', leaders', keys' := upto + 1, leaders[upto + 1 - first..], keys[i..];
    AllSorted(first, leaders, keys);
    forall k | 0 <= k < |keys'| ensures IsRun(first', leaders', keys', k) {
      assert IsRun(first, leaders, keys, i + k);
    }
  }

  lemma {:induction false} KeysOfIsIndex<L>(first: nat, leaders: seq<L>)
    ensures IsIndexOf(first, leaders, KeysOf(first, leaders))
  {
    if leaders != [] {
      var init, last := leaders[..|leaders| - 1], leaders[|leaders| - 1];
      KeysOfIsIndex(first, init);
      PushKeepsIndex(first, init, KeysOf(first, init), LogId(last, first + |leaders| - 1));
      assert leaders == init + seq(1, i => last);
    }
  }

  /** The last key of an index and where its run starts are determined by the log. */
  lemma LastKeyIsForced<L>(first: nat, leaders: seq<L>, a: seq<LogId<L>>, b: seq<LogId<L>>)
    requires IsIndexOf(first, leaders, a) && IsIndexOf(first, leaders, b) && leaders != []
    ensures a[|a| - 1] == b[|b| - 1]
    ensures StartOf(first, a, |a| - 1) <= StartOf(first, b, |b| - 1)
  {
    assert IsRun(first, leaders, a, |a| - 1) && IsRun(first, leaders, b, |b| - 1);
    assert leaders[|leaders| - 1] == a[|a| - 1].leader == b[|b| - 1].leader;
    AllSorted(first, leaders, a);
    AllSorted(first, leaders, b);
    if 1 < |a| {
      var p := a[|a| - 2].index - first;
      assert IsRun(first, leaders, a, |a| - 2);
      assert leaders[p] == a[|a| - 2].leader;
    }
  }

  lemma WithoutLastKey<L>(first: nat, leaders: seq<L>, keys: seq<LogId<L>>)
    requires IsIndexOf(first, leaders, keys) && leaders != []
    ensures var at := StartOf(first, keys, |keys| - 1);
            first <= at < first + |leaders| && IsIndexOf(first, leaders[..at - first], keys[..|keys| - 1])
  {
    AllSorted(first, leaders, keys);
    assert IsRun(first, leaders, keys, |keys| - 1);
    CutKeepsIndex(first, leaders, keys, StartOf(first, keys, |keys| - 1), |keys| - 1);
    assert keys[..|keys| - 1] + [] == keys[..|keys| - 1];
  }

  /** An index is unique: it is the list got by appending the log ids one at a time. */
  lemma {:induction false} IndexIsUnique<L>(first: nat, leaders: seq<L>, a: seq<LogId<L>>, b: seq<LogId<L>>)
    requires IsIndexOf(first, leaders, a) && IsIndexOf(first, leaders, b)
    ensures a == b
    decreases |a|
  {
    hide IsIndexOf;
    EmptyIndex(first, leaders, a);
    EmptyIndex(first, leaders, b);
    if leaders != [] {
      LastKeyIsForced(first, leaders, a, b);
      LastKeyIsForced(first, leaders, b, a);
      var at := StartOf(first, a, |a| - 1);
      WithoutLastKey(first, leaders, a);
      WithoutLastKey(first, leaders, b);
      IndexIsUnique(first, leaders[..at - first], a[..|a| - 1], b[..|b| - 1]);
      assert a == a[..|a| - 1] + [a[|a| - 1]];
      assert b == b[..|b| - 1] + [b[|b| - 1]];
    }
  }

  lemma IndexIsKeysOf<L>(first: nat, leaders: seq<L>, keys: seq<LogId<L>>)
    ensures IsIndexOf(first, leaders, keys) <==> keys == KeysOf(first, leaders)
  {
    KeysOfIsIndex(first, leaders);
    if IsIndexOf(first, leaders, keys) {
      IndexIsUnique(first, leaders, keys, KeysOf(first, leaders));
    }
  }

  /** No leader comes back after another one took over. */
  ghost predicate Grouped<L>(leaders: seq<L>) {
    forall i, j, k | 0 <= i < j < k < |leaders| && leaders[i] == leaders[k] :: leaders[j] == leaders[i]
  }

  /** In a grouped log every leader has one key, and it is that leader's last log id. */
  lemma OneKeyPerLeader<L>(first: nat, leaders: seq<L>, keys: seq<LogId<L>>)
    requires IsIndexOf(first, leaders, keys) && Grouped(leaders)
    ensures forall i, j | 0 <= i < j < |keys| :: keys[i].leader != keys[j].leader
    ensures forall k, p | 0 <= k < |keys| && 0 <= p < |leaders| && leaders[p] == keys[k].leader ::
        first + p <= keys[k].index
  {
    AllSorted(first, leaders, keys);
    forall k, p | 0 <= k < |keys| && 0 <= p < |leaders| && keys[k].index < first + p
      ensures leaders[p] != keys[k].leader
    {
      LastOfLeader(first, leaders, keys, k, p);
    }
    forall i, j | 0 <= i < j < |keys| ensures keys[i].leader != keys[j].leader {
      assert IsRun(first, leaders, keys, j);
      assert leaders[keys[j].index - first] == keys[j].leader;
    }
  }

  /** Appending keeps a log grouped exactly when the leader is the last one, or has not been seen. */
  lemma AppendKeepsGroupedIff<L>(log: PlainLog<L>, id: LogId<L>)
    requires log.End() <= id.index && Grouped(log.leaders)
    ensures Grouped(log.Append(id).leaders)
       <==> id.leader !in log.leaders || log.leaders[|log.leaders| - 1] == id.leader
  {
    var old_, new_ := log.leaders, log.Append(id).leaders;
    assert forall i | 0 <= i < |new_| :: new_[i] == if i < |old_| then old_[i] else id.leader;
    if id.leader in old_ && old_[|old_| - 1] != id.leader {
      var i :| 0 <= i < |old_| && old_[i] == id.leader;
      assert new_[i] == new_[|old_|] && new_[|old_| - 1] != new_[i];
    } else {
      forall i, j, k | 0 <= i < j < k < |new_| && new_[i] == new_[k] ensures new_[j] == new_[i] {
        if |old_| <= k && i < |old_| {
          assert old_[i] == old_[|old_| - 1];
        }
      }
    }
  }

  /** Truncating and purging keep a log grouped. */
  lemma CutsKeepGrouped<L>(log: PlainLog<L>, at: nat, upto: LogId<L>)
    requires Grouped(log.leaders)
    ensures Grouped(log.Truncate(at).leaders) && Grouped(log.Purge(upto).leaders)
  {
    SliceIsGrouped(log.leaders, 0, if log.First() <= at <= log.End() then at - log.First() else 0);
    if log.First() <= upto.index < log.End() {
      SliceIsGrouped(log.leaders, upto.index + 1 - log.First(), |log.leaders|);
    }
  }

  lemma SliceIsGrouped<L>(leaders: seq<L>, lo: nat, hi: nat)
    requires Grouped(leaders) && lo <= hi <= |leaders|
    ensures Grouped(leaders[lo..hi])
  {
    var s := leaders[lo..hi];
    forall i, j, k | 0 <= i < j < k < |s| && s[i] == s[k] ensures s[j] == s[i] {
      assert leaders[lo + i] == leaders[lo + k];
    }
  }

  datatype Op = AppendTo(id: LogId<nat>) | TruncateAt(at: nat) | PurgeTo(upto: LogId<nat>)

  /** Leader ids in term order: an appended log id is greater than the last one. */
  ghost predicate Legal(log: PlainLog<nat>, op: Op) {
    op.AppendTo? ==>
      && log.End() <= op.id.index
      && (log.leaders != [] ==> log.leaders[|log.leaders| - 1] <= op.id.leader)
  }

  function After(log: PlainLog<nat>, op: Op): PlainLog<nat>
    requires Legal(log, op)
  {
    match op
    case AppendTo(id) => log.Append(id)
    case TruncateAt(at) => log.Truncate(at)
    case PurgeTo(upto) => log.Purge(upto)
  }

  ghost predicate IsLegalRun(log: PlainLog<nat>, ops: seq<Op>)
    decreases |ops|
  {
    ops != [] ==> Legal(log, ops[0]) && IsLegalRun(After(log, ops[0]), ops[1..])
  }

  ghost function Run(log: PlainLog<nat>, ops: seq<Op>): PlainLog<nat>
    requires IsLegalRun(log, ops)
    decreases |ops|
  {
    if ops == [] then log else Run(After(log, ops[0]), ops[1..])
  }

  ghost predicate Ascending(leaders: seq<nat>) {
    forall i, j | 0 <= i < j < |leaders| :: leaders[i] <= leaders[j]
  }

  /** Over any run of appends in term order, truncations and purges, each leader has one key: its last log id. */
  lemma {:induction false} OneKeyPerLeaderOverRuns(log: PlainLog<nat>, ops: seq<Op>)
    requires Ascending(log.leaders) && IsLegalRun(log, ops)
    ensures var end := Run(log, ops);
            var keys := KeysOf(end.First(), end.leaders);
            && Ascending(end.leaders) && Grouped(end.leaders)
            && (forall i, j | 0 <= i < j < |keys| :: keys[i].leader != keys[j].leader)
            && (forall k, p | 0 <= k < |keys| && 0 <= p < |end.leaders| && end.leaders[p] == keys[k].leader ::
                  end.First() + p <= keys[k].index)
    decreases |ops|
  {
    if ops == [] {
      KeysOfIsIndex(log.First(), log.leaders);
      OneKeyPerLeader(log.First(), log.leaders, KeysOf(log.First(), log.leaders));
    } else {
      OpKeepsAscending(log, ops[0]);
      OneKeyPerLeaderOverRuns(After(log, ops[0]), ops[1..]);
    }
  }

  lemma OpKeepsAscending(log: PlainLog<nat>, op: Op)
    requires Ascending(log.leaders) && Legal(log, op)
    ensures Ascending(After(log, op).leaders)
  {}

  lemma LastOfLeader<L>(first: nat, leaders: seq<L>, keys: seq<LogId<L>>, k: nat, p: nat)
    requires IsIndexOf(first, leaders, keys) && Grouped(leaders)
    requires k < |keys| && p < |leaders| && keys[k].index < first + p
    ensures leaders[p] != keys[k].leader
  {
    AllSorted(first, leaders, keys);
    var e := keys[k].index - first;
    assert IsRun(first, leaders, keys, k) && IsRun(first, leaders, keys, k + 1);
    assert leaders[e] == keys[k].leader && leaders[e + 1] == keys[k + 1].leader;
  }

  // ---- Loading the keys from storage ----

  /** The log id at `index` of the log that starts at `first`. */
  function At<L>(first: nat, leaders: seq<L>, index: nat): LogId<L>
    requires first <= index < first + |leaders|
  {
    LogId(leaders[index - first], index)
  }

  /** The key list of the log up to `index`, inclusive. */
  function KeysUpto<L(==)>(first: nat, leaders: seq<L>, index: nat): seq<LogId<L>>
    requires first <= index < first + |leaders|
  {
    KeysOf(first, leaders[..index + 1 - first])
  }

  lemma KeysUptoNext<L>(first: nat, leaders: seq<L>, index: nat)
    requires first < index < first + |leaders|
    ensures KeysUpto(first, leaders, index) == PushKey(KeysUpto(first, leaders, index - 1), At(first, leaders, index))
  {
    hide PushKey;
    var s := leaders[..index + 1 - first];
    assert s[..|s| - 1] == leaders[..index - first];
  }

  /** Across a run of one leader, only the last log id of the run is left as a key. */
  lemma {:induction false} KeysUptoSameLeader<L>(first: nat, leaders: seq<L>, a: nat, b: nat)
    requires Grouped(leaders) && first <= a <= b < first + |leaders|
    requires leaders[a - first] == leaders[b - first]
    ensures KeysUpto(first, leaders, b) == PushKey(KeysUpto(first, leaders, a), At(first, leaders, b))
    decreases b
  {
    if a == b {
      KeysUptoEnds(first, leaders, a);
    } else {
      KeysUptoNext(first, leaders, b);
      assert leaders[b - 1 - first] == leaders[a - first];
      KeysUptoSameLeader(first, leaders, a, b - 1);
    }
  }

  lemma KeysUptoEnds<L>(first: nat, leaders: seq<L>, a: nat)
    requires first <= a < first + |leaders|
    ensures PushKey(KeysUpto(first, leaders, a), At(first, leaders, a)) == KeysUpto(first, leaders, a)
  {}

  /** Replacing the pending key `a` by a later log id `b` of the same leader. */
  lemma SameLeaderStep<L>(first: nat, leaders: seq<L>, keys: seq<LogId<L>>, a: nat, b: nat)
    requires Grouped(leaders) && first <= a <= b < first + |leaders|
    requires leaders[a - first] == leaders[b - first]
    requires PushKey(keys, At(first, leaders, a)) == KeysUpto(first, leaders, a)
    ensures PushKey(keys, At(first, leaders, b)) == KeysUpto(first, leaders, b)
  {
    hide KeysUpto;
    KeysUptoSameLeader(first, leaders, a, b);
  }

  /** A stack of ranges, top last: they join end to start and cover the log from `from` to `end`. */
  ghost predicate Covers<L>(first: nat, leaders: seq<L>, stack: seq<(LogId<L>, LogId<L>)>, from: nat, end: nat) {
    if stack == [] then from == end
    else
      var (a, b) := stack[|stack| - 1];
      && first <= a.index == from <= b.index < first + |leaders|
      && a == At(first, leaders, a.index) && b == At(first, leaders, b.index)
      && Covers(first, leaders, stack[..|stack| - 1], b.index, end)
  }

  /** An upper bound on the ranges that are still to be visited. */
  ghost function Work<L>(stack: seq<(LogId<L>, LogId<L>)>): nat {
    if stack == [] then 0
    else
      var (a, b) := stack[|stack| - 1];
      (if a.index < b.index then 2 * (b.index - a.index) - 1 else 1) + Work(stack[..|stack| - 1])
  }

  lemma PushedRange<L>(
      first: nat, leaders: seq<L>, stack: seq<(LogId<L>, LogId<L>)>, a: LogId<L>, b: LogId<L>, end: nat)
    requires first <= a.index < b.index < first + |leaders|
    requires a == At(first, leaders, a.index) && b == At(first, leaders, b.index)
    requires Covers(first, leaders, stack, b.index, end)
    ensures Covers(first, leaders, stack + [(a, b)], a.index, end)
    ensures Work(stack + [(a, b)]) == 2 * (b.index - a.index) - 1 + Work(stack)
  {
    assert (stack + [(a, b)])[..|stack|] == stack;
  }

  /**
   * Find the last log id of every leader between two log ids by halving ranges. `read` is the
   * storage: `None` is a storage error.
   */
  method GetKeyLogIds<L(==)>(first: LogId<L>, last: LogId<L>, read: nat -> Option<L>, ghost leaders: seq<L>)
    returns (res: Option<seq<LogId<L>>>)
    requires first.index + |leaders| == last.index + 1 && leaders != []
    requires leaders[0] == first.leader && leaders[|leaders| - 1] == last.leader && Grouped(leaders)
    requires forall i | first.index <= i <= last.index && read(i).Some? :: read(i).value == leaders[i - first.index]
    ensures res.Some? ==> res.value == KeysOf(first.index, leaders)
    ensures res.None? ==> exists i :: first.index < i < last.index && read(i).None?
  {
    hide Grouped;
    hide KeysUpto;
    hide PushKey;
    ghost var from, end := first.index, last.index;
    var keys: seq<LogId<L>> := [];
    var stack := [(first, last)];
    SingleKey(from, leaders);
    while stack != []
      invariant first.index <= from <= end && Covers(first.index, leaders, stack, from, end)
      invariant PushKey(keys, At(first.index, leaders, from)) == KeysUpto(first.index, leaders, from)
      invariant stack == [] ==> keys == KeysUpto(first.index, leaders, from)
      decreases Work(stack)
    {
      var (a, b) := stack[|stack| - 1];
      stack := stack[..|stack| - 1];
      if a.leader == b.leader {
        SameLeaderStep(first.index, leaders, keys, a.index, b.index);
        KeysUptoEnds(first.index, leaders, b.index);
        keys := PushKey(keys, b);
        from := b.index;
      } else if a.index + 1 == b.index {
        KeysUptoNext(first.index, leaders, b.index);
        KeysUptoEnds(first.index, leaders, b.index);
        keys := PushKey(PushKey(keys, a), b);
        from := b.index;
      } else {
        var m := (a.index + b.index) / 2;
        var stored := read(m);
        if stored.None? {
          return None;
        }
        var mid := LogId(stored.value, m);
        if a.leader == mid.leader {
          SameLeaderStep(first.index, leaders, keys, a.index, m);
          PushedRange(first.index, leaders, stack, mid, b, end);
          stack := stack + [(mid, b)];
          from := m;
        } else {
          PushedRange(first.index, leaders, stack, mid, b, end);
          PushedRange(first.index, leaders, stack + [(mid, b)], a, mid, end);
          stack := stack + [(mid, b)];
          stack := stack + [(a, mid)];
        }
      }
    }
    KeysUptoAll(first.index, leaders, end);
    res := Some(keys);
  }

  lemma SingleKey<L>(first: nat, leaders: seq<L>)
    requires leaders != []
    ensures PushKey([], At(first, leaders, first)) == KeysUpto(first, leaders, first)
  {
    var s := leaders[..1];
    assert KeysOf(first, s[..0]) == [];
  }

  lemma KeysUptoAll<L>(first: nat, leaders: seq<L>, end: nat)
    requires leaders != [] && end + 1 == first + |leaders|
    ensures KeysUpto(first, leaders, end) == KeysOf(first, leaders)
  {
    assert leaders[..end + 1 - first] == leaders;
  }
}
