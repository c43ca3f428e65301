/** Majority and joint quorum sets over node ids. */
module Quorum {

  type NodeId = nat

  /** A joint config: a node set is a quorum iff it is a majority of every config in it. */
  type Joint = seq<set<NodeId>>

  ghost predicate Majority(config: set<NodeId>, nodes: set<NodeId>) {
    2 * |config * nodes| > |config|
  }

  ghost predicate IsQuorum(joint: Joint, nodes: set<NodeId>) {
    forall i | 0 <= i < |joint| :: Majority(joint[i], nodes)
  }

  /** Every quorum of `a` meets every quorum of `b`. */
  ghost predicate Coherent(a: Joint, b: Joint) {
    forall p: set<NodeId>, q: set<NodeId> | IsQuorum(a, p) && IsQuorum(b, q) :: p * q != {}
  }

  ghost function Elements(ids: seq<NodeId>): set<NodeId> {
    set id | id in ids
  }

  ghost predicate Distinct(ids: seq<NodeId>) {
    forall i, j | 0 <= i < j < |ids| :: ids[i] != ids[j]
  }

  /** All voters of a joint config. */
  function Ids(joint: Joint): (ids: set<NodeId>)
    ensures forall id :: id in ids <==> exists i :: 0 <= i < |joint| && id in joint[i]
  {
    if joint == [] then {} else
      assert forall i | 1 <= i < |joint| :: joint[1..][i - 1] == joint[i];
      joint[0] + Ids(joint[1..])
  }

  /** How many positions of `ids` hold a member of `config`. */
  ghost function CountIn(config: set<NodeId>, ids: seq<NodeId>): (n: nat) {
    if ids == [] then 0
    else CountIn(config, ids[..|ids| - 1]) + if ids[|ids| - 1] in config then 1 else 0
  }

  lemma {:induction false} CountGrows(config: set<NodeId>, ids: seq<NodeId>, k: nat)
    requires k <= |ids|
    ensures CountIn(config, ids[..k]) <= CountIn(config, ids)
    decreases |ids| - k
  {
    if k == |ids| {
      assert ids[..k] == ids;
    } else {
      CountGrows(config, ids, k + 1);
      assert ids[..k + 1][..k] == ids[..k];
    }
  }

  lemma ElementsSnoc(init: seq<NodeId>, last: NodeId)
    ensures Elements(init + [last]) == Elements(init) + {last}
  {
  }

  lemma {:induction false} CountDistinct(config: set<NodeId>, ids: seq<NodeId>)
    requires Distinct(ids)
    ensures CountIn(config, ids) == |config * Elements(ids)|
  {
    if ids == [] {
      assert config * Elements(ids) == {};
    } else {
      var init, last := ids[..|ids| - 1], ids[|ids| - 1];
      CountDistinct(config, init);
      assert ids == init + [last];
      ElementsSnoc(init, last);
      CountNew(config, Elements(init), last);
    }
  }

  lemma CountNew(config: set<NodeId>, seen: set<NodeId>, id: NodeId)
    requires id !in seen
    ensures |config * (seen + {id})| == |config * seen| + if id in config then 1 else 0
  {
    var c := config * seen;
    assert config * (seen + {id}) == if id in config then c + {id} else c;
  }

  /**
   * The counting loop of a majority config. It counts iterator items, so it decides the majority
   * question only for distinct ids.
   */
  method IsMajority(config: set<NodeId>, ids: seq<NodeId>) returns (granted: bool)
    ensures granted <==> 2 * CountIn(config, ids) > |config|
    ensures Distinct(ids) ==> (granted <==> Majority(config, Elements(ids)))
  {
    if Distinct(ids) { CountDistinct(config, ids); }
    var count := 0;
    var limit := |config|;
    for i := 0 to |ids|
      invariant count == 2 * CountIn(config, ids[..i])
      invariant count <= limit
    {
      assert ids[..i + 1][..i] == ids[..i];
      if ids[i] in config {
        count := count + 2;
        if count > limit {
          CountGrows(config, ids, i + 1);
          return true;
        }
      }
    }
    assert ids[..|ids|] == ids;
    return false;
  }

  /** With a repeated id the loop may accept a set that is no majority: one voter of three, twice. */
  lemma RepeatedIdsOvercount()
    ensures 2 * CountIn({1, 2, 3}, [1, 1]) > |{1, 2, 3}|
    ensures !Majority({1, 2, 3}, Elements([1, 1]))
  {
    assert [1, 1][..1] == [1] && [1][..0] == [];
    assert CountIn({1, 2, 3}, [1]) == 1;
    assert {1, 2, 3} * Elements([1, 1]) == {1};
    assert |{1, 2, 3}| == 3;
  }

  lemma {:induction false} BoundExists(ids: seq<NodeId>) returns (m: NodeId)
    ensures forall i | 0 <= i < |ids| :: ids[i] < m
  {
    m := 0;
    if ids != [] {
      var last := ids[|ids| - 1];
      m := BoundExists(ids[..|ids| - 1]);
      m := if m <= last then last + 1 else m;
    }
  }

  /** An id at two positions is counted twice. */
  lemma RepeatedIsCounted(config: set<NodeId>, ids: seq<NodeId>, i: nat, j: nat)
    requires i < j < |ids| && ids[i] == ids[j] && ids[i] in config
    ensures 2 <= CountIn(config, ids)
  {
    assert ids[..i + 1][..i] == ids[..i] && ids[..j + 1][..j] == ids[..j] && ids[..j][..i + 1] == ids[..i + 1];
    CountGrows(config, ids[..j], i + 1);
    CountGrows(config, ids, j + 1);
  }

  /** Some config of three, of which only the repeated id is given, is taken for granted. */
  lemma RepeatedIsOvercounted(ids: seq<NodeId>, i: nat, j: nat) returns (config: set<NodeId>)
    requires i < j < |ids| && ids[i] == ids[j]
    ensures 2 * CountIn(config, ids) > |config| && !Majority(config, Elements(ids))
  {
    hide CountIn;
    var m := BoundExists(ids);
    config := {ids[i], m, m + 1};
    RepeatedIsCounted(config, ids, i, j);
    assert |config| == 3 && config * Elements(ids) == {ids[i]};
  }

  /** The counting loop decides the majority question for every config exactly when the ids are distinct. */
  lemma CountsRightIffDistinct(ids: seq<NodeId>)
    ensures Distinct(ids) <==>
              forall config: set<NodeId> :: 2 * CountIn(config, ids) > |config| <==> Majority(config, Elements(ids))
  {
    if Distinct(ids) {
      forall config: set<NodeId> ensures 2 * CountIn(config, ids) > |config| <==> Majority(config, Elements(ids)) {
        CountDistinct(config, ids);
      }
    } else {
      var i, j :| 0 <= i < j < |ids| && ids[i] == ids[j];
      var config := RepeatedIsOvercounted(ids, i, j);
    }
  }

  method IsJointQuorum(joint: Joint, ids: seq<NodeId>) returns (granted: bool)
    ensures Distinct(ids) ==> (granted <==> IsQuorum(joint, Elements(ids)))
    ensures granted <==> forall i | 0 <= i < |joint| :: 2 * CountIn(joint[i], ids) > |joint[i]|
  {
    for i := 0 to |joint|
      invariant Distinct(ids) ==> forall k | 0 <= k < i :: Majority(joint[k], Elements(ids))
      invariant forall k | 0 <= k < i :: 2 * CountIn(joint[k], ids) > |joint[k]|
    {
      var ok := IsMajority(joint[i], ids);
      if !ok {
        return false;
      }
    }
    return true;
  }

  /** Adding ids to a quorum leaves a quorum. */
  lemma UpwardClosed(joint: Joint, p: set<NodeId>, q: set<NodeId>)
    requires p <= q && IsQuorum(joint, p)
    ensures IsQuorum(joint, q)
  {
    forall i | 0 <= i < |joint| ensures Majority(joint[i], q) {
      assert joint[i] * p <= joint[i] * q;
      SubsetCard(joint[i] * p, joint[i] * q);
    }
  }

  lemma DownwardClosed(joint: Joint, p: set<NodeId>, q: set<NodeId>)
    requires p <= q && !IsQuorum(joint, q)
    ensures !IsQuorum(joint, p)
  {
    if IsQuorum(joint, p) { UpwardClosed(joint, p, q); }
  }

  lemma SubsetCard(a: set<NodeId>, b: set<NodeId>)
    requires a <= b
    ensures |a| <= |b|
  {
    assert b == a + (b - a);
  }

  /** Only voters matter for a quorum. */
  lemma QuorumOfVoters(joint: Joint, p: set<NodeId>)
    ensures IsQuorum(joint, p) <==> IsQuorum(joint, p * Ids(joint))
  {
    forall i | 0 <= i < |joint| ensures Majority(joint[i], p) <==> Majority(joint[i], p * Ids(joint)) {
      assert joint[i] * p == joint[i] * (p * Ids(joint));
    }
  }

  lemma EmptyIsNoQuorum(joint: Joint)
    requires joint != []
    ensures !IsQuorum(joint, {})
  {
    assert joint[0] * {} == {};
    assert !Majority(joint[0], {});
  }

  /** Two majorities overlap when their configs differ by at most one id. */
  lemma MajoritiesMeet(a: set<NodeId>, b: set<NodeId>, p: set<NodeId>, q: set<NodeId>)
    requires |(a - b) + (b - a)| <= 1
    requires Majority(a, p) && Majority(b, q)
    ensures p * q != {}
  {
    if a <= b {
      HalvesOverlap(a, b, p, q);
    } else {
      var x :| x in a - b;
      if y :| y in b - a {
        SubsetCard({x, y}, (a - b) + (b - a));
        assert false;
      }
      HalvesOverlap(b, a, q, p);
      assert p * q == q * p;
    }
  }

  lemma HalvesOverlap(a: set<NodeId>, b: set<NodeId>, p: set<NodeId>, q: set<NodeId>)
    requires a <= b && |(a - b) + (b - a)| <= 1
    requires Majority(a, p) && Majority(b, q)
    ensures p * q != {}
  {
    assert (a - b) + (b - a) == b - a;
    assert b == a + (b - a);
    assert |b| == |a| + |b - a|;
    assert b * q == (a * q) + ((b - a) * q);
    SubsetCard((b - a) * q, b - a);
    SubsetCard((a * p) + (a * q), a);
    assert |(a * p) * (a * q)| > 0;
    assert (a * p) * (a * q) == a * (p * q);
  }

  /** Two joint configs that share a config are coherent. */
  lemma SharedConfigMeets(a: Joint, b: Joint, i: nat, j: nat)
    requires i < |a| && j < |b| && a[i] == b[j]
    ensures Coherent(a, b)
  {
    forall p: set<NodeId>, q: set<NodeId> | IsQuorum(a, p) && IsQuorum(b, q) ensures p * q != {} {
      assert (a[i] - b[j]) + (b[j] - a[i]) == {};
      MajoritiesMeet(a[i], b[j], p, q);
    }
  }

  /** A membership with no config at all has every set as a quorum, so it is not even self-coherent. */
  lemma SelfCoherentIffDefined(joint: Joint)
    ensures Coherent(joint, joint) <==> joint != []
  {
    if joint == [] {
      var none: set<NodeId> := {};
      assert IsQuorum(joint, none) && none * none == {};
    } else {
      SharedConfigMeets(joint, joint, 0, 0);
    }
  }
}
