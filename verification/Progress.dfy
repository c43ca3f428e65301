/** A vector of per-node progress values with an incrementally maintained quorum-accepted value. */
module Progress {
  import opened Quorum
  import opened Acceptance

  datatype Entry = Entry(id: NodeId, val: Value)

  datatype UpdateResult = Updated(accepted: Value) | NotFound(accepted: Value)

  // ---- Facts about entry vectors ----

  /** Positions `lo..hi` of `es` hold exactly the nodes of `vals`, each once, with their values. */
  ghost predicate Holds(es: seq<Entry>, lo: nat, hi: nat, vals: map<NodeId, Value>)
    requires lo <= hi <= |es|
  {
    && hi - lo == |vals|
    && (forall i | lo <= i < hi :: es[i].id in vals && vals[es[i].id] == es[i].val)
    && (forall id | id in vals :: exists i :: lo <= i < hi && es[i].id == id)
  }

  ghost function IdsBelow(es: seq<Entry>, n: nat): (ids: set<NodeId>)
    requires n <= |es|
  {
    set i | 0 <= i < n :: es[i].id
  }

  ghost function IdsWithin(es: seq<Entry>, lo: nat, hi: nat): set<NodeId>
    requires lo <= hi <= |es|
  {
    set i | lo <= i < hi :: es[i].id
  }

  lemma {:induction false} CoverBound(es: seq<Entry>, lo: nat, hi: nat, skip: nat)
    requires lo <= hi <= |es|
    ensures |IdsWithin(es, lo, hi)| <= hi - lo
    ensures lo <= skip < hi && es[skip].id in IdsWithin(es, lo, skip) ==> |IdsWithin(es, lo, hi)| < hi - lo
  {
    if lo < hi {
      CoverBound(es, lo, hi - 1, skip);
      assert IdsWithin(es, lo, hi) == IdsWithin(es, lo, hi - 1) + {es[hi - 1].id};
    } else {
      assert IdsWithin(es, lo, hi) == {};
    }
  }

  /** Because the count is right, no node is held twice. */
  lemma HoldsOnce(es: seq<Entry>, lo: nat, hi: nat, vals: map<NodeId, Value>, i: nat, j: nat)
    requires lo <= i < j < hi <= |es| && Holds(es, lo, hi, vals)
    ensures es[i].id != es[j].id
  {
    CoverBound(es, lo, hi, j);
    assert IdsWithin(es, lo, hi) == vals.Keys;
    assert es[i].id in IdsWithin(es, lo, j);
  }

  /** Voters above `q` form a descending prefix. */
  ghost predicate Descending(es: seq<Entry>, n: nat, q: Value)
    requires n <= |es|
  {
    forall i, j | 0 <= i < j < n && Lt(q, es[j].val) :: Le(es[j].val, es[i].val)
  }

  /** Where position `k` came from, once the entry at `from` has moved up to `to`. */
  function UpSource(k: nat, from: nat, to: nat): nat {
    if k == to then from else if to < k <= from then k - 1 else k
  }

  ghost function MovedUp(es: seq<Entry>, from: nat, to: nat): seq<Entry>
    requires to <= from < |es|
  {
    seq(|es|, k requires 0 <= k < |es| => es[UpSource(k, from, to)])
  }

  /** Where position `k` came from, once the entry at `from` has moved down to `to`. */
  function DownSource(k: nat, from: nat, to: nat): nat {
    if k == to then from else if from <= k < to then k + 1 else k
  }

  ghost function MovedDown(es: seq<Entry>, from: nat, to: nat): seq<Entry>
    requires from <= to < |es|
  {
    seq(|es|, k requires 0 <= k < |es| => es[DownSource(k, from, to)])
  }

  /** A move down goes one swap at a time. */
  lemma MovedDownOneMore(es: seq<Entry>, from: nat, to: nat)
    requires from <= to < |es|
    ensures MovedDown(es, from, from) == es
    ensures var m := MovedDown(es, from, to);
            && |m| == |es| && m[to] == es[from] && m[to + 1..] == es[to + 1..]
            && (to + 1 < |es| ==> MovedDown(es, from, to + 1) == m[to := m[to + 1]][to + 1 := m[to]])
  {}

  lemma MovedUpHolds(es: seq<Entry>, from: nat, to: nat, n: nat, vals: map<NodeId, Value>)
    requires to <= from < n <= |es| && Holds(es, 0, n, vals)
    ensures Holds(MovedUp(es, from, to), 0, n, vals)
  {
    var m := MovedUp(es, from, to);
    forall id | id in vals ensures exists i :: 0 <= i < n && m[i].id == id {
      var k :| 0 <= k < n && es[k].id == id;
      assert m[DownSource(k, to, from)].id == id;
    }
  }

  lemma MovedDownHolds(es: seq<Entry>, from: nat, to: nat, n: nat, vals: map<NodeId, Value>)
    requires from <= to < n <= |es| && Holds(es, 0, n, vals)
    ensures Holds(MovedDown(es, from, to), 0, n, vals)
  {
    var m := MovedDown(es, from, to);
    forall id | id in vals ensures exists i :: 0 <= i < n && m[i].id == id {
      var k :| 0 <= k < n && es[k].id == id;
      assert m[UpSource(k, to, from)].id == id;
    }
  }

  lemma SetHolds(es: seq<Entry>, lo: nat, hi: nat, vals: map<NodeId, Value>, i: nat, v: Value)
    requires lo <= i < hi <= |es| && Holds(es, lo, hi, vals)
    ensures Holds(es[i := Entry(es[i].id, v)], lo, hi, vals[es[i].id := v])
  {
    var es' := es[i := Entry(es[i].id, v)];
    var vals' := vals[es[i].id := v];
    assert vals'.Keys == vals.Keys;
    forall k | lo <= k < hi ensures es'[k].id in vals' && vals'[es'[k].id] == es'[k].val {
      if k < i { HoldsOnce(es, lo, hi, vals, k, i); } else if i < k { HoldsOnce(es, lo, hi, vals, i, k); }
    }
    forall id | id in vals' ensures exists k :: lo <= k < hi && es'[k].id == id {
      var k :| lo <= k < hi && es[k].id == id;
      assert es'[k].id == id;
    }
  }

  /** A raised entry moved above everything smaller keeps the descending prefix. */
  lemma MoveUpDescends(es: seq<Entry>, n: nat, index: nat, v: Value, q: Value, to: nat)
    requires to <= index < n <= |es| && Descending(es, n, q) && Lt(q, v) && Le(es[index].val, v)
    requires forall k | to <= k < index :: Lt(es[k].val, v)
    requires to == 0 || Le(v, es[to - 1].val)
    ensures var m := MovedUp(es[index := Entry(es[index].id, v)], index, to);
            Descending(m, n, q) && (forall k | 0 <= k < to :: Le(v, m[k].val)) && m[to].val == v
  {
    var m := MovedUp(es[index := Entry(es[index].id, v)], index, to);
    forall k | 0 <= k < to ensures Le(v, m[k].val) {
      assert m[k] == es[k];
      if k < to - 1 { assert Le(es[to - 1].val, es[k].val); }
    }
    forall i, j | 0 <= i < j < n && Lt(q, m[j].val) ensures Le(m[j].val, m[i].val) {
      if i != to && j != to {
        var oi, oj := UpSource(i, index, to), UpSource(j, index, to);
        assert m[i] == es[oi] && m[j] == es[oj] && oi < oj;
      } else if i == to && j > index {
        assert m[j] == es[j] && Le(es[j].val, es[index].val);
      }
    }
  }

  /** A lowered entry moved below everything greater keeps the descending prefix. */
  lemma MoveDownDescends(es: seq<Entry>, n: nat, index: nat, v: Value, q: Value, to: nat)
    requires index <= to < n <= |es| && Descending(es, n, q) && Le(v, es[index].val)
    requires forall k | index < k <= to :: Lt(v, es[k].val)
    requires to + 1 == n || Le(es[to + 1].val, v)
    ensures Descending(MovedDown(es[index := Entry(es[index].id, v)], index, to), n, q)
  {
    var m := MovedDown(es[index := Entry(es[index].id, v)], index, to);
    forall i, j | 0 <= i < j < n && Lt(q, m[j].val) ensures Le(m[j].val, m[i].val) {
      if i != to && j != to {
        var oi, oj := DownSource(i, index, to), DownSource(j, index, to);
        assert m[i] == es[oi] && m[j] == es[oj] && oi < oj;
      } else if j == to {
        if i < index {
          assert m[i] == es[i] && Le(es[index].val, es[i].val);
        } else {
          assert m[i] == es[i + 1];
        }
      } else {
        assert m[j] == es[j];
        if j > to + 1 { assert Le(es[j].val, es[to + 1].val); }
      }
    }
  }

  /** In a descending prefix, the voters that reached `w` are exactly a prefix. */
  lemma {:induction false} ReachedIsPrefix(
      es: seq<Entry>, n: nat, vals: map<NodeId, Value>, q: Value, w: Value, from: nat)
    returns (k: nat)
    requires from <= n <= |es| && Holds(es, 0, n, vals) && Descending(es, n, q) && Lt(q, w)
    requires forall i | 0 <= i < from :: Le(w, es[i].val)
    ensures from <= k <= n && Reached(vals, w) == IdsBelow(es, k)
    ensures forall i | 0 <= i < k :: Le(w, es[i].val)
    decreases n - from
  {
    if from == n || Lt(es[from].val, w) {
      k := from;
      assert forall i | from <= i < n :: Lt(es[i].val, w);
      hide Descending;
      PrefixIsReached(es, n, vals, w, k);
    } else {
      hide Holds;
      k := ReachedIsPrefix(es, n, vals, q, w, from + 1);
    }
  }

  lemma PrefixIsReached(es: seq<Entry>, n: nat, vals: map<NodeId, Value>, w: Value, k: nat)
    requires k <= n <= |es| && Holds(es, 0, n, vals)
    requires forall i | 0 <= i < k :: Le(w, es[i].val)
    requires forall i | k <= i < n :: Lt(es[i].val, w)
    ensures Reached(vals, w) == IdsBelow(es, k)
  {
    forall id | id in Reached(vals, w) ensures id in IdsBelow(es, k) {
      var i :| 0 <= i < n && es[i].id == id;
      assert i < k;
    }
  }

  /** The voters up to position `k` form a quorum. */
  ghost predicate QuorumUpTo(joint: Joint, es: seq<Entry>, k: nat)
    requires k < |es|
  {
    IsQuorum(joint, IdsBelow(es, k + 1))
  }

  /** A quorum found at position `i` has reached the value there. */
  lemma FoundIsAccepted(joint: Joint, es: seq<Entry>, n: nat, vals: map<NodeId, Value>, q: Value, i: nat)
    requires i < n <= |es| && Holds(es, 0, n, vals) && Descending(es, n, q) && Lt(q, es[i].val)
    requires QuorumUpTo(joint, es, i)
    ensures Accepts(joint, vals, es[i].val)
  {
    hide IsQuorum;
    forall id | id in IdsBelow(es, i + 1) ensures id in Reached(vals, es[i].val) {
      var k :| 0 <= k < i + 1 && es[k].id == id;
    }
    UpwardClosed(joint, IdsBelow(es, i + 1), Reached(vals, es[i].val));
  }

  /** A scan that passed no quorum between `from` and `i` leaves nothing accepted above `top`. */
  lemma ScanIsComplete(
      joint: Joint, es: seq<Entry>, n: nat, vals: map<NodeId, Value>, q: Value, from: nat, i: nat, top: Value)
    requires from < n <= |es| && from <= i <= n && Holds(es, 0, n, vals) && Descending(es, n, q)
    requires forall k | 0 <= k < from :: Le(es[from].val, es[k].val)
    requires forall w | Lt(es[from].val, w) :: !Accepts(joint, vals, w)
    requires forall k | from <= k < i :: !QuorumUpTo(joint, es, k)
    requires Le(q, top) && (i < n ==> Le(es[i].val, top))
    ensures NoneAbove(joint, vals, top)
  {
    hide IsQuorum;
    forall w | Lt(top, w) ensures !Accepts(joint, vals, w) {
      if Le(w, es[from].val) {
        var k := ReachedIsPrefix(es, n, vals, q, w, from + 1);
        assert k <= i;
        assert !QuorumUpTo(joint, es, k - 1);
      }
    }
  }

  // ---- The tracker ----

  /** What a caller sees of a progress tracker. */
  datatype ProgressView = ProgressView(voters: map<NodeId, Value>, learners: map<NodeId, Value>, accepted: Value) {
    ghost predicate Tracks(id: NodeId) { id in voters || id in learners }

    ghost function Of(id: NodeId): Value
      requires Tracks(id)
    {
      if id in voters then voters[id] else learners[id]
    }

    /** Set one node's value, leaving the accepted value alone. */
    ghost function With(id: NodeId, v: Value): ProgressView {
      if id in voters then this.(voters := voters[id := v])
      else if id in learners then this.(learners := learners[id := v])
      else this
    }

    /** Set one node's value and take up whatever a quorum has now accepted. */
    ghost function Raise(joint: Joint, id: NodeId, v: Value): ProgressView {
      if !Tracks(id) then this else
        var next := With(id, v);
        next.(accepted := Max(accepted, QuorumAccepted(joint, next.voters)))
    }
  }

  /** Setting a value changes that of one node, if it is tracked, and of no other; only a raise may accept more. */
  lemma SetsOne(view: ProgressView, joint: Joint, id: NodeId, v: Value)
    ensures forall x :: view.With(id, v).Tracks(x) == view.Raise(joint, id, v).Tracks(x) == view.Tracks(x)
    ensures forall x | view.Tracks(x) ::
              view.With(id, v).Of(x) == view.Raise(joint, id, v).Of(x) == if x == id then v else view.Of(x)
    ensures view.With(id, v).accepted == view.accepted && Le(view.accepted, view.Raise(joint, id, v).accepted)
    ensures !view.Tracks(id) ==> view.With(id, v) == view.Raise(joint, id, v) == view
  {}

  /** The ordering invariant: voters first, descending above `accepted`, nothing accepted above it. */
  ghost predicate Tracked(joint: Joint, voterCount: nat, es: seq<Entry>, view: ProgressView) {
    && voterCount <= |es|
    && view.voters.Keys == Ids(joint)
    && view.voters.Keys !! view.learners.Keys
    && Holds(es, 0, voterCount, view.voters)
    && Holds(es, voterCount, |es|, view.learners)
    && Descending(es, voterCount, view.accepted)
    && NoneAbove(joint, view.voters, view.accepted)
  }

  lemma DescendingFromHigher(es: seq<Entry>, n: nat, q: Value, q': Value)
    requires n <= |es| && Descending(es, n, q) && Le(q, q')
    ensures Descending(es, n, q')
  {
  }

  lemma SetDescends(es: seq<Entry>, n: nat, i: nat, v: Value, q: Value)
    requires n <= |es| && i < |es| && Descending(es, n, q)
    requires n <= i || (Le(es[i].val, v) && Le(v, q)) || v == es[i].val
    ensures Descending(es[i := Entry(es[i].id, v)], n, q)
  {
  }

  lemma EntryIn(joint: Joint, voterCount: nat, es: seq<Entry>, view: ProgressView, i: nat)
    requires Tracked(joint, voterCount, es, view) && i < |es|
    ensures es[i].id in view.voters <==> i < voterCount
    ensures es[i].id in view.learners <==> voterCount <= i
    ensures view.Of(es[i].id) == es[i].val
    ensures i < voterCount ==> joint != []
  {
  }

  /** Setting one entry sets one value of the view. */
  lemma WithHolds(joint: Joint, voterCount: nat, es: seq<Entry>, view: ProgressView, i: nat, v: Value)
    requires Tracked(joint, voterCount, es, view) && i < |es|
    ensures var es', view' := es[i := Entry(es[i].id, v)], view.With(es[i].id, v);
            && view'.voters.Keys == Ids(joint)
            && view'.voters.Keys !! view'.learners.Keys
            && Holds(es', 0, voterCount, view'.voters)
            && Holds(es', voterCount, |es|, view'.learners)
  {
    hide Holds;
    hide Descending;
    hide NoneAbove;
    hide Ids;
    EntryIn(joint, voterCount, es, view, i);
    if i < voterCount {
      SetHolds(es, 0, voterCount, view.voters, i, v);
      UntouchedHolds(es, voterCount, |es|, view.learners, es[i := Entry(es[i].id, v)]);
    } else {
      SetHolds(es, voterCount, |es|, view.learners, i, v);
      UntouchedHolds(es, 0, voterCount, view.voters, es[i := Entry(es[i].id, v)]);
    }
  }

  lemma UntouchedHolds(es: seq<Entry>, lo: nat, hi: nat, vals: map<NodeId, Value>, es': seq<Entry>)
    requires lo <= hi <= |es| == |es'| && Holds(es, lo, hi, vals)
    requires forall i | lo <= i < hi :: es'[i] == es[i]
    ensures Holds(es', lo, hi, vals)
  {
    forall id | id in vals ensures exists i :: lo <= i < hi && es'[i].id == id {
      var i :| lo <= i < hi && es[i].id == id;
      assert es'[i].id == id;
    }
  }

  /** A learner, or a voter that does not rise above `accepted`, stays where it is. */
  lemma SetInPlace(joint: Joint, voterCount: nat, es: seq<Entry>, view: ProgressView, i: nat, v: Value)
    requires Tracked(joint, voterCount, es, view) && i < |es|
    requires voterCount <= i || (Le(es[i].val, v) && Le(v, view.accepted)) || v == es[i].val
    ensures Tracked(joint, voterCount, es[i := Entry(es[i].id, v)], view.With(es[i].id, v))
    ensures view.Raise(joint, es[i].id, v) == view.With(es[i].id, v)
  {
    hide IsQuorum;
    hide Holds;
    hide Descending;
    hide NoneAbove;
    var id := es[i].id;
    EntryIn(joint, voterCount, es, view, i);
    WithHolds(joint, voterCount, es, view, i, v);
    SetDescends(es, voterCount, i, v, view.accepted);
    if v == es[i].val {
      assert es[i := Entry(id, v)] == es;
      assert view.With(id, v) == view;
    } else if i < voterCount {
      RaiseWithoutCrossing(joint, view.voters, id, v, view.accepted);
    }
    AcceptedIsMax(joint, view.With(id, v).voters, view.accepted, view.accepted);
  }

  /** A voter raised above `accepted` moves up; if it was above already, nothing new is accepted. */
  lemma RaisedAndMoved(joint: Joint, voterCount: nat, es: seq<Entry>, view: ProgressView, i: nat, v: Value, to: nat)
    requires Tracked(joint, voterCount, es, view) && to <= i < voterCount
    requires Le(es[i].val, v) && Lt(view.accepted, v)
    requires forall k | to <= k < i :: Lt(es[k].val, v)
    requires to == 0 || Le(v, es[to - 1].val)
    ensures var m, view' := MovedUp(es[i := Entry(es[i].id, v)], i, to), view.With(es[i].id, v);
            && view'.voters == view.voters[es[i].id := v]
            && Holds(m, 0, voterCount, view'.voters) && Holds(m, voterCount, |m|, view'.learners)
            && Descending(m, voterCount, view.accepted)
            && m[to].val == v && (forall k | 0 <= k < to :: Le(v, m[k].val))
  {
    hide Holds;
    hide Descending;
    hide NoneAbove;
    hide Ids;
    EntryIn(joint, voterCount, es, view, i);
    WithHolds(joint, voterCount, es, view, i, v);
    var es', view' := es[i := Entry(es[i].id, v)], view.With(es[i].id, v);
    MovedUpHolds(es', i, to, voterCount, view'.voters);
    UntouchedHolds(es', voterCount, |es'|, view'.learners, MovedUp(es', i, to));
    MoveUpDescends(es, voterCount, i, v, view.accepted, to);
  }

  /** A lowered voter moves down and withdraws nothing that a quorum accepted. */
  lemma LoweredAndMoved(joint: Joint, voterCount: nat, es: seq<Entry>, view: ProgressView, i: nat, v: Value, to: nat)
    requires Tracked(joint, voterCount, es, view) && i <= to < voterCount && Le(v, es[i].val)
    requires forall k | i < k <= to :: Lt(v, es[k].val)
    requires to + 1 == voterCount || Le(es[to + 1].val, v)
    ensures Tracked(joint, voterCount, MovedDown(es[i := Entry(es[i].id, v)], i, to), view.With(es[i].id, v))
  {
    hide IsQuorum;
    hide Holds;
    hide Descending;
    hide NoneAbove;
    hide Ids;
    EntryIn(joint, voterCount, es, view, i);
    WithHolds(joint, voterCount, es, view, i, v);
    var es', view' := es[i := Entry(es[i].id, v)], view.With(es[i].id, v);
    MovedDownHolds(es', i, to, voterCount, view'.voters);
    UntouchedHolds(es', voterCount, |es'|, view'.learners, MovedDown(es', i, to));
    MoveDownDescends(es, voterCount, i, v, view.accepted, to);
    LowerKeepsNoneAbove(joint, view.voters, es[i].id, v, view.accepted);
    assert view'.voters == view.voters[es[i].id := v];
  }

  lemma AbsentFrom(joint: Joint, voterCount: nat, es: seq<Entry>, view: ProgressView, id: NodeId)
    requires Tracked(joint, voterCount, es, view) && forall k | 0 <= k < |es| :: es[k].id != id
    ensures !view.Tracks(id)
  {
  }

  /** What a rebuilt tracker knows of `id` after inheriting the first `n` old entries. */
  ghost function InheritedOf(es: seq<Entry>, n: nat, view: ProgressView, id: NodeId): Value
    requires n <= |es|
  {
    if id in IdsBelow(es, n) && view.Tracks(id) then view.Of(id) else ZERO
  }

  lemma NotBelow(joint: Joint, voterCount: nat, es: seq<Entry>, view: ProgressView, i: nat)
    requires Tracked(joint, voterCount, es, view) && i < |es|
    ensures es[i].id !in IdsBelow(es, i) && IdsBelow(es, i + 1) == IdsBelow(es, i) + {es[i].id}
  {
    hide Holds;
    hide Descending;
    hide NoneAbove;
    forall k | 0 <= k < i ensures es[k].id != es[i].id {
      if i < voterCount { HoldsOnce(es, 0, voterCount, view.voters, k, i); }
      else if voterCount <= k { HoldsOnce(es, voterCount, |es|, view.learners, k, i); }
      else { EntryIn(joint, voterCount, es, view, k); EntryIn(joint, voterCount, es, view, i); }
    }
  }

  /** If the accepted value was exact, raising a value keeps it exact. */
  lemma RaiseKeepsExact(joint: Joint, view: ProgressView, id: NodeId, v: Value)
    requires view.Tracks(id) && Le(view.Of(id), v) && view.accepted == QuorumAccepted(joint, view.voters)
    ensures view.Raise(joint, id, v).accepted == QuorumAccepted(joint, view.Raise(joint, id, v).voters)
  {
    hide IsQuorum;
    if id in view.voters { RaiseIsMonotone(joint, view.voters, id, v); }
  }

  /** Inheriting one more old entry. */
  lemma InheritOne(
      newJoint: Joint, was: ProgressView, joint: Joint, voterCount: nat, es: seq<Entry>, view: ProgressView, i: nat)
    requires Tracked(joint, voterCount, es, view) && i < |es|
    requires was.accepted == QuorumAccepted(newJoint, was.voters)
    requires forall id | was.Tracks(id) :: was.Of(id) == InheritedOf(es, i, view, id)
    ensures was.Tracks(es[i].id) ==> was.Of(es[i].id) == ZERO
    ensures var next := was.Raise(newJoint, es[i].id, es[i].val);
            && next.accepted == QuorumAccepted(newJoint, next.voters)
            && next.voters.Keys == was.voters.Keys && next.learners.Keys == was.learners.Keys
            && forall id | next.Tracks(id) :: next.Of(id) == InheritedOf(es, i + 1, view, id)
  {
    hide Tracked;
    hide IsGreatestAccepted;
    EntryIn(joint, voterCount, es, view, i);
    NotBelow(joint, voterCount, es, view, i);
    if was.Tracks(es[i].id) { RaiseKeepsExact(newJoint, was, es[i].id, es[i].val); }
    var next := was.Raise(newJoint, es[i].id, es[i].val);
    forall id | next.Tracks(id) ensures next.Of(id) == InheritedOf(es, i + 1, view, id) {
      assert was.Tracks(id);
      if id != es[i].id { assert next.Of(id) == was.Of(id); }
    }
  }

  lemma InheritedAll(joint: Joint, voterCount: nat, es: seq<Entry>, view: ProgressView, id: NodeId)
    requires Tracked(joint, voterCount, es, view)
    ensures InheritedOf(es, |es|, view, id) == if view.Tracks(id) then view.Of(id) else ZERO
  {
    hide Descending;
    hide NoneAbove;
  }

  // ---- Whole runs ----

  datatype Step = Grow(id: NodeId, v: Value) | Reset(id: NodeId, v: Value)

  /** Updates go forward, resets go backward. */
  ghost predicate Allowed(view: ProgressView, s: Step) {
    view.Tracks(s.id) ==> if s.Grow? then Le(view.Of(s.id), s.v) else Le(s.v, view.Of(s.id))
  }

  ghost function After(joint: Joint, view: ProgressView, s: Step): ProgressView {
    if s.Grow? then view.Raise(joint, s.id, s.v) else view.With(s.id, s.v)
  }

  ghost function Run(joint: Joint, view: ProgressView, steps: seq<Step>): ProgressView {
    if steps == [] then view else After(joint, Run(joint, view, steps[..|steps| - 1]), steps[|steps| - 1])
  }

  ghost predicate AllAllowed(joint: Joint, view: ProgressView, steps: seq<Step>) {
    steps == [] || (AllAllowed(joint, view, steps[..|steps| - 1])
                    && Allowed(Run(joint, view, steps[..|steps| - 1]), steps[|steps| - 1]))
  }

  /** The greatest value that was accepted by a quorum at any point of a run. */
  ghost function Peak(joint: Joint, view: ProgressView, steps: seq<Step>): Value {
    var now := QuorumAccepted(joint, Run(joint, view, steps).voters);
    if steps == [] then now else Max(Peak(joint, view, steps[..|steps| - 1]), now)
  }

  /**
   * Over every run of forward updates and backward resets, the recorded accepted value is the
   * running maximum of the reference value, although resets never recompute it.
   */
  lemma {:induction false} AcceptedIsRunningMaximum(joint: Joint, view: ProgressView, steps: seq<Step>)
    requires view.accepted == QuorumAccepted(joint, view.voters)
    requires AllAllowed(joint, view, steps)
    ensures Run(joint, view, steps).accepted == Peak(joint, view, steps)
  {
    hide IsQuorum;
    if steps != [] {
      var init, s := steps[..|steps| - 1], steps[|steps| - 1];
      AcceptedIsRunningMaximum(joint, view, init);
      var prev := Run(joint, view, init);
      PeakBounds(joint, view, init);
      if s.Reset? && s.id in prev.voters {
        NoneAboveBounds(joint, prev.voters, prev.accepted);
        LowerKeepsNoneAbove(joint, prev.voters, s.id, s.v, prev.accepted);
        NoneAboveBounds(joint, prev.voters[s.id := s.v], prev.accepted);
      }
    }
  }

  lemma PeakBounds(joint: Joint, view: ProgressView, steps: seq<Step>)
    ensures Le(QuorumAccepted(joint, Run(joint, view, steps).voters), Peak(joint, view, steps))
  {
    hide IsQuorum;
  }

  /** Without resets the accepted value is exactly the reference value of the current state. */
  lemma {:induction false} AcceptedIsExactWithoutResets(joint: Joint, view: ProgressView, steps: seq<Step>)
    requires view.accepted == QuorumAccepted(joint, view.voters)
    requires AllAllowed(joint, view, steps) && forall i | 0 <= i < |steps| :: steps[i].Grow?
    ensures Run(joint, view, steps).accepted == QuorumAccepted(joint, Run(joint, view, steps).voters)
  {
    hide IsQuorum;
    if steps != [] {
      var init, s := steps[..|steps| - 1], steps[|steps| - 1];
      AcceptedIsExactWithoutResets(joint, view, init);
      var prev := Run(joint, view, init);
      if prev.Tracks(s.id) { RaiseKeepsExact(joint, prev, s.id, s.v); }
    }
  }

  // ---- Building a tracker ----

  method SetToSeq(s: set<NodeId>) returns (ids: seq<NodeId>)
    ensures Distinct(ids) && Elements(ids) == s && |ids| == |s|
  {
    ids := [];
    var rest := s;
    while rest != {}
      invariant rest <= s && Distinct(ids) && |ids| == |s| - |rest|
      invariant forall id :: id in ids <==> id in s && id !in rest
    {
      var id :| id in rest;
      ids, rest := ids + [id], rest - {id};
    }
  }

  /** A vector of distinct ids, all at the default value. */
  function FreshEntries(ids: seq<NodeId>): (es: seq<Entry>)
    ensures |es| == |ids|
  {
    seq(|ids|, i requires 0 <= i < |ids| => Entry(ids[i], ZERO))
  }

  function FreshValues(ids: set<NodeId>): (m: map<NodeId, Value>)
    ensures m.Keys == ids && forall id | id in m :: m[id] == ZERO
  {
    map id | id in ids :: ZERO
  }

  lemma FreshHolds(pre: seq<Entry>, ids: seq<NodeId>, post: seq<Entry>)
    requires Distinct(ids)
    ensures Holds(pre + FreshEntries(ids) + post, |pre|, |pre| + |ids|, FreshValues(Elements(ids)))
  {
    var vals, es := FreshValues(Elements(ids)), pre + FreshEntries(ids) + post;
    DistinctCard(ids);
    assert vals.Keys == Elements(ids);
    assert forall i | |pre| <= i < |pre| + |ids| :: es[i] == FreshEntries(ids)[i - |pre|];
    forall id | id in vals ensures exists i :: |pre| <= i < |pre| + |ids| && es[i].id == id {
      var i :| 0 <= i < |ids| && ids[i] == id;
      assert es[|pre| + i] == Entry(ids[i], ZERO);
    }
  }

  lemma FreshVoters(ids: seq<NodeId>, rest: seq<Entry>)
    requires Distinct(ids)
    ensures Holds(FreshEntries(ids) + rest, 0, |ids|, FreshValues(Elements(ids)))
  {
    hide Holds;
    hide Distinct;
    FreshHolds([], ids, rest);
    assert [] + FreshEntries(ids) + rest == FreshEntries(ids) + rest;
  }

  lemma FreshLearners(first: seq<Entry>, ids: seq<NodeId>)
    requires Distinct(ids)
    ensures Holds(first + FreshEntries(ids), |first|, |first + FreshEntries(ids)|, FreshValues(Elements(ids)))
  {
    hide Holds;
    hide Distinct;
    FreshHolds(first, ids, []);
    assert first + FreshEntries(ids) + [] == first + FreshEntries(ids);
  }

  /** A tracker in which nothing has been reported yet. */
  lemma FreshIsTracked(joint: Joint, voterCount: nat, es: seq<Entry>, view: ProgressView)
    requires voterCount <= |es| && Holds(es, 0, voterCount, view.voters) && Holds(es, voterCount, |es|, view.learners)
    requires view.voters.Keys == Ids(joint) && view.voters.Keys !! view.learners.Keys
    requires view.accepted == ZERO && forall id | id in view.voters :: view.voters[id] == ZERO
    ensures Tracked(joint, voterCount, es, view)
  {
    hide IsQuorum;
    hide Ids;
    NothingReported(joint, view.voters);
  }

  lemma {:induction false} DistinctCard(ids: seq<NodeId>)
    requires Distinct(ids)
    ensures |Elements(ids)| == |ids|
  {
    if ids == [] {
      assert Elements(ids) == {};
    } else {
      var init, last := ids[..|ids| - 1], ids[|ids| - 1];
      DistinctCard(init);
      assert Elements(ids) == Elements(init) + {last};
    }
  }

  /** Do the nodes at positions `0..=i` form a quorum? */
  method IsQuorumUpTo(joint: Joint, es: seq<Entry>, n: nat, ghost vals: map<NodeId, Value>, i: nat)
    returns (granted: bool)
    requires i < n <= |es| && Holds(es, 0, n, vals)
    ensures granted <==> QuorumUpTo(joint, es, i)
  {
    var ids: seq<NodeId> := seq(i + 1, k requires 0 <= k < i + 1 => es[k].id);
    forall a, b | 0 <= a < b < |ids| ensures ids[a] != ids[b] {
      HoldsOnce(es, 0, n, vals, a, b);
    }
    assert Elements(ids) == IdsBelow(es, i + 1) by {
      forall id | id in IdsBelow(es, i + 1) ensures id in ids {
        var k :| 0 <= k < i + 1 && es[k].id == id;
        assert ids[k] == id;
      }
    }
    granted := IsJointQuorum(joint, ids);
  }

  /** Scan down from position `from` to the first quorum, stopping early at a value not above `floor`. */
  method FirstQuorum(
      joint: Joint, es: seq<Entry>, n: nat, ghost vals: map<NodeId, Value>, from: nat, floor: Value)
    returns (i: nat)
    requires from <= n <= |es| && Holds(es, 0, n, vals)
    ensures from <= i <= n
    ensures forall k | from <= k < i :: !QuorumUpTo(joint, es, k)
    ensures i < n && Lt(floor, es[i].val) ==> QuorumUpTo(joint, es, i)
  {
    for k := from to n
      invariant forall j | from <= j < k :: !QuorumUpTo(joint, es, j)
    {
      if Le(es[k].val, floor) {
        return k;
      }
      var granted := IsQuorumUpTo(joint, es, n, vals, k);
      if granted {
        return k;
      }
    }
    return n;
  }

  class VecProgress {
    const joint: Joint
    var accepted: Value
    var voterCount: nat
    var entries: seq<Entry>
    ghost var voters: map<NodeId, Value>
    ghost var learners: map<NodeId, Value>

    ghost predicate Valid()
      reads this
    {
      Tracked(joint, voterCount, entries, View())
    }

    ghost function View(): ProgressView
      reads this
    {
      ProgressView(voters, learners, accepted)
    }

    /** Every voter of `joint` and every learner starts at the default value. */
    constructor (joint: Joint, learnerIds: seq<NodeId>)
      requires Distinct(learnerIds) && Elements(learnerIds) !! Ids(joint)
      ensures Valid() && this.joint == joint
      ensures voters.Keys == Ids(joint) && learners.Keys == Elements(learnerIds)
      ensures forall id | View().Tracks(id) :: View().Of(id) == ZERO
      ensures accepted == ZERO
    {
      hide Distinct;
      hide Elements;
      hide Ids;
      hide Holds;
      hide FreshEntries;
      var ids := SetToSeq(Ids(joint));
      this.joint := joint;
      accepted := ZERO;
      voterCount := |ids|;
      entries := FreshEntries(ids) + FreshEntries(learnerIds);
      voters := FreshValues(Ids(joint));
      learners := FreshValues(Elements(learnerIds));
      new;
      FreshVoters(ids, FreshEntries(learnerIds));
      FreshLearners(FreshEntries(ids), learnerIds);
      FreshIsTracked(joint, voterCount, entries, View());
    }

    method IndexOf(id: NodeId) returns (index: nat)
      ensures index <= |entries|
      ensures index < |entries| ==> entries[index].id == id
      ensures index == |entries| ==> forall k | 0 <= k < |entries| :: entries[k].id != id
    {
      for i := 0 to |entries|
        invariant forall k | 0 <= k < i :: entries[k].id != id
      {
        if entries[i].id == id {
          return i;
        }
      }
      return |entries|;
    }

    /** Bubble the entry at `index` up past every smaller one. */
    method MoveUp(index: nat) returns (to: nat)
      requires index < |entries|
      modifies this`entries
      ensures to <= index && entries == MovedUp(old(entries), index, to)
      ensures forall k | to <= k < index :: Lt(old(entries)[k].val, old(entries)[index].val)
      ensures to == 0 || Le(old(entries)[index].val, old(entries)[to - 1].val)
    {
      to := index;
      while to > 0
        invariant to <= index && entries == MovedUp(old(entries), index, to)
        invariant forall k | to <= k < index :: Lt(old(entries)[k].val, old(entries)[index].val)
      {
        if Lt(entries[to - 1].val, entries[to].val) {
          entries := entries[to - 1 := entries[to]][to := entries[to - 1]];
          to := to - 1;
        } else {
          return;
        }
      }
    }

    /** Bubble the voter at `index` down past every greater voter. */
    method MoveDown(index: nat) returns (to: nat)
      requires index < voterCount <= |entries|
      modifies this`entries
      ensures index <= to < voterCount && entries == MovedDown(old(entries), index, to)
      ensures forall k | index < k <= to :: Lt(old(entries)[index].val, old(entries)[k].val)
      ensures to + 1 == voterCount || Le(old(entries)[to + 1].val, old(entries)[index].val)
    {
      hide MovedDown;
      to := index;
      MovedDownOneMore(entries, index, to);
      while to + 1 < voterCount && Lt(entries[to].val, entries[to + 1].val)
        invariant |entries| == |old(entries)|
        invariant index <= to < voterCount && entries == MovedDown(old(entries), index, to)
        invariant entries[to] == old(entries)[index] && entries[to + 1..] == old(entries)[to + 1..]
        invariant forall k | index < k <= to :: Lt(old(entries)[index].val, old(entries)[k].val)
      {
        MovedDownOneMore(old(entries), index, to);
        MovedDownOneMore(old(entries), index, to + 1);
        assert entries[to + 1] == entries[to + 1..][0] == old(entries)[to + 1];
        entries := entries[to := entries[to + 1]][to + 1 := entries[to]];
        to := to + 1;
      }
      assert to + 1 < voterCount ==> entries[to + 1] == entries[to + 1..][0] == old(entries)[to + 1];
    }

    /** From high to low, find the first value above `accepted` that a quorum has reached. */
    method Rescan(from: nat)
      requires from < voterCount <= |entries| && joint != []
      requires Holds(entries, 0, voterCount, voters) && Descending(entries, voterCount, accepted)
      requires forall k | 0 <= k < from :: Le(entries[from].val, entries[k].val)
      requires forall w | Lt(entries[from].val, w) :: !Accepts(joint, voters, w)
      modifies this`accepted
      ensures Le(old(accepted), accepted)
      ensures accepted == old(accepted) || Accepts(joint, voters, accepted)
      ensures NoneAbove(joint, voters, accepted)
    {
      var i := FirstQuorum(joint, entries, voterCount, voters, from, accepted);
      if i < voterCount && Lt(accepted, entries[i].val) {
        FoundIsAccepted(joint, entries, voterCount, voters, accepted, i);
        ScanIsComplete(joint, entries, voterCount, voters, accepted, from, i, entries[i].val);
        accepted := entries[i].val;
      } else {
        ScanIsComplete(joint, entries, voterCount, voters, accepted, from, i, accepted);
      }
    }

    /** Re-sort and, only when the change crosses `accepted`, recompute the accepted value. */
    method UpdateAt(index: nat, prev: Value, ghost before: seq<Entry>)
      requires index < |entries| && Tracked(joint, voterCount, before, View())
      requires |before| == |entries| && before[index] == Entry(entries[index].id, prev)
      requires entries == before[index := entries[index]] && Le(prev, entries[index].val)
      modifies this`entries, this`accepted, this`voters, this`learners
      ensures Valid()
      ensures View() == old(View().Raise(joint, entries[index].id, entries[index].val))
    {
      hide Holds;
      hide Descending;
      hide NoneAbove;
      hide Ids;
      hide Accepts;
      ghost var id, v, view := entries[index].id, entries[index].val, View();
      EntryIn(joint, voterCount, before, view, index);
      voters, learners := view.With(id, v).voters, view.With(id, v).learners;
      if prev == entries[index].val || index >= voterCount {
        SetInPlace(joint, voterCount, before, view, index, v);
        return;
      }
      var prevLe, newGt := Le(prev, accepted), Lt(accepted, entries[index].val);
      if newGt {
        var to := MoveUp(index);
        assert forall k | 0 <= k < index :: before[k] == old(entries)[k];
        RaisedAndMoved(joint, voterCount, before, view, index, v, to);
        if prevLe {
          forall w | Lt(v, w) ensures !Accepts(joint, voters, w) {
            RaiseAcrossIsBounded(joint, view.voters, id, v, accepted, w);
          }
          Rescan(to);
        } else {
          RaiseWithoutCrossing(joint, view.voters, id, v, accepted);
        }
        DescendingFromHigher(entries, voterCount, view.accepted, accepted);
        AcceptedIsMax(joint, voters, view.accepted, accepted);
      } else {
        SetInPlace(joint, voterCount, before, view, index, v);
      }
    }

    /** Report a new value for `id`; the source demands that it does not go backward. */
    method Update(id: NodeId, v: Value) returns (r: UpdateResult)
      requires Valid() && (View().Tracks(id) ==> Le(View().Of(id), v))
      modifies this`entries, this`accepted, this`voters, this`learners
      ensures Valid() && View() == old(View().Raise(joint, id, v))
      ensures r == if old(View().Tracks(id)) then Updated(accepted) else NotFound(accepted)
    {
      var index := IndexOf(id);
      if index == |entries| {
        AbsentFrom(joint, voterCount, entries, View(), id);
        return NotFound(accepted);
      }
      EntryIn(joint, voterCount, entries, View(), index);
      ghost var before := entries;
      var prev := entries[index].val;
      entries := entries[index := Entry(id, v)];
      UpdateAt(index, prev, before);
      return Updated(accepted);
    }

    /** Report a value for `id` that counts only if it is greater than the recorded one. */
    method IncreaseTo(id: NodeId, v: Value) returns (r: UpdateResult)
      requires Valid()
      modifies this`entries, this`accepted, this`voters, this`learners
      ensures Valid()
      ensures View() == old(if View().Tracks(id) then View().Raise(joint, id, Max(View().Of(id), v)) else View())
      ensures r == if old(View().Tracks(id)) then Updated(accepted) else NotFound(accepted)
    {
      var index := IndexOf(id);
      if index == |entries| {
        AbsentFrom(joint, voterCount, entries, View(), id);
        return NotFound(accepted);
      }
      EntryIn(joint, voterCount, entries, View(), index);
      r := Update(id, Max(entries[index].val, v));
    }

    /** Move a value backward. What a quorum has accepted is never withdrawn. */
    method ResetEntry(id: NodeId, v: Value) returns (found: bool)
      requires Valid() && (View().Tracks(id) ==> Le(v, View().Of(id)))
      modifies this`entries, this`voters, this`learners
      ensures Valid() && View() == old(View().With(id, v))
      ensures found == old(View().Tracks(id))
    {
      hide Holds;
      hide Descending;
      hide NoneAbove;
      var index := IndexOf(id);
      if index == |entries| {
        AbsentFrom(joint, voterCount, entries, View(), id);
        return false;
      }
      ghost var before, view := entries, View();
      EntryIn(joint, voterCount, entries, view, index);
      var prev := entries[index].val;
      entries := entries[index := Entry(id, v)];
      voters, learners := view.With(id, v).voters, view.With(id, v).learners;
      if index < voterCount && Lt(entries[index].val, prev) {
        var to := MoveDown(index);
        assert forall k | index < k < |before| :: before[k] == before[index := Entry(id, v)][k];
        LoweredAndMoved(joint, voterCount, before, view, index, v, to);
      } else {
        SetInPlace(joint, voterCount, before, view, index, v);
      }
      return true;
    }

    /** The entry for one node of a tracker being rebuilt. */
    method Replace(entry: Entry)
      requires Valid() && (View().Tracks(entry.id) ==> Le(View().Of(entry.id), entry.val))
      modifies this`entries, this`accepted, this`voters, this`learners
      ensures Valid() && View() == old(View().Raise(joint, entry.id, entry.val))
    {
      var r := Update(entry.id, entry.val);
    }

    /**
     * Build a tracker for a new quorum set. Nodes in both keep their progress whether they are
     * voters or learners in either; the accepted value is what the new quorum set has accepted.
     */
    method UpgradeQuorumSet(newJoint: Joint, learnerIds: seq<NodeId>) returns (p: VecProgress)
      requires Valid() && Distinct(learnerIds) && Elements(learnerIds) !! Ids(newJoint)
      ensures fresh(p) && p.Valid() && p.joint == newJoint
      ensures p.voters.Keys == Ids(newJoint) && p.learners.Keys == Elements(learnerIds)
      ensures forall id | p.View().Tracks(id) :: p.View().Of(id) == if View().Tracks(id) then View().Of(id) else ZERO
      ensures p.accepted == QuorumAccepted(newJoint, p.voters)
    {
      hide Tracked;
      p := new VecProgress(newJoint, learnerIds);
      forall id | id in p.voters ensures p.voters[id] == ZERO { assert p.View().Of(id) == ZERO; }
      NothingReported(newJoint, p.voters);
      for i := 0 to |entries|
        invariant p.Valid() && p.joint == newJoint && fresh(p)
        invariant p.voters.Keys == Ids(newJoint) && p.learners.Keys == Elements(learnerIds)
        invariant p.accepted == QuorumAccepted(newJoint, p.voters)
        invariant forall id | p.View().Tracks(id) :: p.View().Of(id) == InheritedOf(entries, i, View(), id)
      {
        InheritOne(newJoint, p.View(), joint, voterCount, entries, View(), i);
        p.Replace(entries[i]);
      }
      forall id | p.View().Tracks(id)
        ensures p.View().Of(id) == if View().Tracks(id) then View().Of(id) else ZERO
      {
        InheritedAll(joint, voterCount, entries, View(), id);
      }
    }
  }
}
