/**
 * The reference meaning of "accepted by a quorum": the greatest value that the voters at or above
 * it, taken together, form a quorum for.
 */
module Acceptance {
  import opened Quorum

  /**
   * A progress value. The lexicographic order holds the three progress types in use: a vote grant
   * (`bool`), an optional acknowledged instant and an optional log id, each with its default as
   * the least value.
   */
  datatype Value = Value(major: nat, minor: nat)

  const ZERO := Value(0, 0)

  predicate Lt(a: Value, b: Value) {
    a.major < b.major || (a.major == b.major && a.minor < b.minor)
  }

  predicate Le(a: Value, b: Value) {
    a == b || Lt(a, b)
  }

  function Max(a: Value, b: Value): Value {
    if Lt(a, b) then b else a
  }

  /** The voters that have reached `v`. */
  ghost function Reached(vals: map<NodeId, Value>, v: Value): set<NodeId> {
    set id | id in vals && Le(v, vals[id])
  }

  ghost predicate Accepts(joint: Joint, vals: map<NodeId, Value>, v: Value) {
    IsQuorum(joint, Reached(vals, v))
  }

  ghost predicate NoneAbove(joint: Joint, vals: map<NodeId, Value>, q: Value) {
    joint != [] ==> forall v | Lt(q, v) :: !Accepts(joint, vals, v)
  }

  /** `q` is the default, or accepted by a quorum, and nothing above it is accepted. */
  ghost predicate IsGreatestAccepted(joint: Joint, vals: map<NodeId, Value>, q: Value) {
    && (q == ZERO || (joint != [] && Accepts(joint, vals, q)))
    && NoneAbove(joint, vals, q)
  }

  lemma GreatestIsUnique(joint: Joint, vals: map<NodeId, Value>, p: Value, q: Value)
    requires IsGreatestAccepted(joint, vals, p) && IsGreatestAccepted(joint, vals, q)
    ensures p == q
  {
    hide IsQuorum;
  }

  lemma {:induction false} LeastOf(vals: map<NodeId, Value>, ids: set<NodeId>) returns (least: NodeId)
    requires ids != {} && ids <= vals.Keys
    ensures least in ids
    ensures forall id | id in ids :: Le(vals[least], vals[id])
    decreases ids
  {
    least :| least in ids;
    if ids != {least} {
      var other := LeastOf(vals, ids - {least});
      if Lt(vals[other], vals[least]) { least := other; }
    }
  }

  lemma {:induction false} GreatestAmong(joint: Joint, vals: map<NodeId, Value>, ids: set<NodeId>) returns (q: Value)
    requires joint != [] && ids <= vals.Keys
    ensures q == ZERO || Accepts(joint, vals, q)
    ensures forall id | id in ids && Accepts(joint, vals, vals[id]) :: Le(vals[id], q)
    decreases ids
  {
    hide IsQuorum;
    if ids == {} {
      q := ZERO;
    } else {
      var id :| id in ids;
      q := GreatestAmong(joint, vals, ids - {id});
      if Accepts(joint, vals, vals[id]) && Lt(q, vals[id]) { q := vals[id]; }
    }
  }

  lemma GreatestExists(joint: Joint, vals: map<NodeId, Value>)
    ensures exists q :: IsGreatestAccepted(joint, vals, q)
  {
    hide IsQuorum;
    if joint == [] {
      assert IsGreatestAccepted(joint, vals, ZERO);
    } else {
      var q := GreatestAmong(joint, vals, vals.Keys);
      EmptyIsNoQuorum(joint);
      forall v | Lt(q, v) ensures !Accepts(joint, vals, v) {
        if Reached(vals, v) != {} {
          var least := LeastOf(vals, Reached(vals, v));
          assert Reached(vals, vals[least]) == Reached(vals, v);
        }
      }
      assert IsGreatestAccepted(joint, vals, q);
    }
  }

  /** The greatest value accepted by a quorum, by its definition. */
  ghost function QuorumAccepted(joint: Joint, vals: map<NodeId, Value>): (q: Value)
    ensures IsGreatestAccepted(joint, vals, q)
  {
    GreatestExists(joint, vals);
    var q :| IsGreatestAccepted(joint, vals, q);
    q
  }

  lemma NoneAboveBounds(joint: Joint, vals: map<NodeId, Value>, q: Value)
    ensures NoneAbove(joint, vals, q) <==> Le(QuorumAccepted(joint, vals), q)
  {
    hide IsQuorum;
    var best := QuorumAccepted(joint, vals);
  }

  /** Raising one voter cannot produce a new accepted value unless it crosses `q`. */
  lemma RaiseWithoutCrossing(joint: Joint, vals: map<NodeId, Value>, id: NodeId, v: Value, q: Value)
    requires NoneAbove(joint, vals, q)
    requires id in vals && Le(vals[id], v) && (Lt(q, vals[id]) || Le(v, q))
    ensures NoneAbove(joint, vals[id := v], q)
  {
    hide IsQuorum;
    var vals' := vals[id := v];
    forall w | joint != [] && Lt(q, w) ensures !Accepts(joint, vals', w) {
      var floor := if Le(w, vals[id]) || Lt(v, w) then w else vals[id];
      assert Reached(vals', w) <= Reached(vals, floor);
      assert !Accepts(joint, vals, floor);
      DownwardClosed(joint, Reached(vals', w), Reached(vals, floor));
    }
  }

  lemma LowerKeepsNoneAbove(joint: Joint, vals: map<NodeId, Value>, id: NodeId, v: Value, q: Value)
    requires NoneAbove(joint, vals, q)
    requires id in vals && Le(v, vals[id])
    ensures NoneAbove(joint, vals[id := v], q)
  {
    hide IsQuorum;
    var vals' := vals[id := v];
    forall w | joint != [] && Lt(q, w) ensures !Accepts(joint, vals', w) {
      assert Reached(vals', w) <= Reached(vals, w);
      assert !Accepts(joint, vals, w);
      DownwardClosed(joint, Reached(vals', w), Reached(vals, w));
    }
  }

  /** When a voter does cross `q`, nothing above its new value becomes accepted. */
  lemma RaiseAcrossIsBounded(joint: Joint, vals: map<NodeId, Value>, id: NodeId, v: Value, q: Value, w: Value)
    requires joint != [] && NoneAbove(joint, vals, q)
    requires id in vals && Le(vals[id], q) && Lt(q, w) && Lt(v, w)
    ensures !Accepts(joint, vals[id := v], w)
  {
    hide IsQuorum;
    assert !Accepts(joint, vals, w);
    assert Reached(vals[id := v], w) == Reached(vals, w);
  }

  /** Raising a voter never withdraws an accepted value. */
  lemma RaiseIsMonotone(joint: Joint, vals: map<NodeId, Value>, id: NodeId, v: Value)
    requires id in vals && Le(vals[id], v)
    ensures Le(QuorumAccepted(joint, vals), QuorumAccepted(joint, vals[id := v]))
  {
    hide IsQuorum;
    var q := QuorumAccepted(joint, vals);
    if q != ZERO {
      assert Reached(vals, q) <= Reached(vals[id := v], q);
      UpwardClosed(joint, Reached(vals, q), Reached(vals[id := v], q));
      assert Accepts(joint, vals[id := v], q);
    }
  }

  /** Before anything is reported, nothing is accepted. */
  lemma NothingReported(joint: Joint, vals: map<NodeId, Value>)
    requires forall id | id in vals :: vals[id] == ZERO
    ensures QuorumAccepted(joint, vals) == ZERO
  {
    hide IsQuorum;
    if joint != [] {
      EmptyIsNoQuorum(joint);
      forall v | Lt(ZERO, v) ensures !Accepts(joint, vals, v) {
        assert Reached(vals, v) == {};
      }
    }
    GreatestIsUnique(joint, vals, ZERO, QuorumAccepted(joint, vals));
  }

  /** An upper bound that is either the old value or accepted itself is the running maximum. */
  lemma AcceptedIsMax(joint: Joint, vals: map<NodeId, Value>, before: Value, after: Value)
    requires Le(before, after) && NoneAbove(joint, vals, after)
    requires after == before || (joint != [] && Accepts(joint, vals, after))
    ensures after == Max(before, QuorumAccepted(joint, vals))
  {
    hide IsQuorum;
    NoneAboveBounds(joint, vals, after);
  }
}
