/** Vote counting by a candidate, and the quorum-acknowledged clock of a leader. */
module Proposer {
  import opened Quorum
  import opened Acceptance
  import opened Progress

  /** A granted vote as a progress value; not granted is the default. */
  const YES := Value(0, 1)

  /** An optional instant as a progress value; none is the default. */
  function OfInstant(t: nat): Value {
    Value(1, t)
  }

  /** With values limited to "granted" and the default, the accepted value answers one question. */
  lemma TallyMeansQuorum(joint: Joint, votes: map<NodeId, Value>, grants: set<NodeId>)
    requires votes.Keys == Ids(joint)
    requires forall id | id in votes :: votes[id] == if id in grants then YES else ZERO
    ensures QuorumAccepted(joint, votes) in {ZERO, YES}
    ensures QuorumAccepted(joint, votes) == YES <==> joint != [] && IsQuorum(joint, grants)
  {
    hide IsQuorum;
    var q := QuorumAccepted(joint, votes);
    QuorumOfVoters(joint, grants);
    assert Reached(votes, YES) == grants * Ids(joint);
    if joint != [] {
      EmptyIsNoQuorum(joint);
      assert Lt(YES, q) ==> Reached(votes, q) == {};
      if IsQuorum(joint, grants) { assert Accepts(joint, votes, YES); }
    }
  }

  class Candidate {
    const progress: VecProgress
    ghost var grants: seq<NodeId>

    ghost predicate Valid()
      reads this, progress
    {
      && progress.Valid()
      && progress.learners == map[]
      && progress.accepted == QuorumAccepted(progress.joint, progress.voters)
      && forall id | id in progress.voters :: progress.voters[id] == if id in grants then YES else ZERO
    }

    constructor (joint: Joint)
      ensures Valid() && progress.joint == joint && grants == [] && fresh(progress)
    {
      progress := new VecProgress(joint, []);
      grants := [];
      new;
      forall id | id in progress.voters ensures progress.voters[id] == ZERO {
        assert progress.View().Of(id) == ZERO;
      }
      assert progress.learners.Keys == {};
      NothingReported(joint, progress.voters);
    }

    /**
     * Count a grant. For every sequence of grants, with repeats and strangers, the answer to a
     * voter is whether all distinct grants so far form a joint quorum; a stranger gets no.
     */
    method GrantBy(target: NodeId) returns (granted: bool)
      requires Valid()
      modifies this, progress
      ensures Valid() && grants == old(grants) + [target]
      ensures granted <==> target in Ids(progress.joint) && IsQuorum(progress.joint, Elements(grants))
    {
      hide Tracked;
      hide IsGreatestAccepted;
      hide IsQuorum;
      ghost var was := progress.View();
      var r := progress.Update(target, YES);
      grants := grants + [target];
      if was.Tracks(target) { RaiseKeepsExact(progress.joint, was, target, YES); }
      assert progress.voters.Keys == Ids(progress.joint) by {
        VotersAreIds(progress.joint, progress.voterCount, progress.entries, progress.View());
      }
      TallyMeansQuorum(progress.joint, progress.voters, Elements(grants));
      granted := r.Updated? && progress.accepted == YES;
    }
  }

  lemma VotersAreIds(joint: Joint, voterCount: nat, es: seq<Entry>, view: ProgressView)
    requires Tracked(joint, voterCount, es, view)
    ensures view.voters.Keys == Ids(joint) && voterCount == |Ids(joint)|
  {
  }

  /** The voters that acknowledged an RPC sent at `t` or later. */
  ghost function AckedSince(clock: map<NodeId, Value>, t: nat): set<NodeId> {
    set id | id in clock && Le(OfInstant(t), clock[id])
  }

  /** Some instant, less than a lease ago, is acknowledged by a quorum. */
  ghost predicate LeaseHolds(joint: Joint, clock: map<NodeId, Value>, now: nat, lease: nat) {
    joint != [] && exists t: nat :: IsQuorum(joint, AckedSince(clock, t)) && now < t + lease
  }

  lemma AckedMeansLease(joint: Joint, clock: map<NodeId, Value>, now: nat, lease: nat)
    requires forall id | id in clock :: clock[id] == ZERO || clock[id].major == 1
    ensures var q := QuorumAccepted(joint, clock);
            && (q == ZERO || q.major == 1)
            && (LeaseHolds(joint, clock, now, lease) <==> q.major == 1 && now < q.minor + lease)
  {
    hide IsQuorum;
    var q := QuorumAccepted(joint, clock);
    if joint != [] {
      EmptyIsNoQuorum(joint);
      if q != ZERO {
        var least := LeastOf(clock, Reached(clock, q));
        assert Reached(clock, clock[least]) == Reached(clock, q);
        assert Accepts(joint, clock, clock[least]);
        assert q == clock[least];
        assert AckedSince(clock, q.minor) == Reached(clock, q);
      }
      forall t: nat | IsQuorum(joint, AckedSince(clock, t)) ensures Le(OfInstant(t), q) {
        assert AckedSince(clock, t) == Reached(clock, OfInstant(t));
        assert Accepts(joint, clock, OfInstant(t));
      }
    }
  }

  class Leader {
    const node: NodeId
    const clock: VecProgress

    ghost predicate Valid()
      reads this, clock
    {
      && clock.Valid()
      && clock.accepted == QuorumAccepted(clock.joint, clock.voters)
      && forall id | id in clock.voters :: clock.voters[id] == ZERO || clock.voters[id].major == 1
    }

    /** A new leader has acknowledged its own clock and nobody else's. */
    constructor (node: NodeId, joint: Joint, learnerIds: seq<NodeId>, now: nat)
      requires Distinct(learnerIds) && Elements(learnerIds) !! Ids(joint)
      ensures Valid() && this.node == node && clock.joint == joint && fresh(clock)
      ensures clock.voters.Keys == Ids(joint) && clock.learners.Keys == Elements(learnerIds)
      ensures forall id | clock.View().Tracks(id) ::
                clock.View().Of(id) == if id == node then OfInstant(now) else ZERO
    {
      hide Tracked;
      hide IsGreatestAccepted;
      this.node := node;
      clock := new VecProgress(joint, learnerIds);
      new;
      forall id | id in clock.voters ensures clock.voters[id] == ZERO { assert clock.View().Of(id) == ZERO; }
      NothingReported(joint, clock.voters);
      ghost var was := clock.View();
      var r := clock.IncreaseTo(node, OfInstant(now));
      if was.Tracks(node) {
        RaiseKeepsExact(joint, was, node, OfInstant(now));
        assert Max(was.Of(node), OfInstant(now)) == OfInstant(now);
      }
      forall id | clock.View().Tracks(id)
        ensures clock.View().Of(id) == if id == node then OfInstant(now) else ZERO
      {
        assert was.Tracks(id) && was.Of(id) == ZERO;
      }
    }

    /** Raise one node's acknowledged instant, if the node is tracked. */
    method Acknowledge(id: NodeId, t: nat)
      requires Valid()
      modifies clock
      ensures Valid()
      ensures clock.View() == old(
        if clock.View().Tracks(id) then
          clock.View().Raise(clock.joint, id, Max(clock.View().Of(id), OfInstant(t)))
        else clock.View())
    {
      hide Tracked;
      hide IsGreatestAccepted;
      ghost var was := clock.View();
      var r := clock.IncreaseTo(id, OfInstant(t));
      if was.Tracks(id) { RaiseKeepsExact(clock.joint, was, id, Max(was.Of(id), OfInstant(t))); }
    }

    /**
     * An RPC sent at `t` was acknowledged by `target`. Both the target and this leader are now
     * known to have seen `t`; the result is the latest instant that a quorum has acknowledged.
     */
    method UpdateClock(target: NodeId, t: nat) returns (acked: Value)
      requires Valid() && clock.View().Tracks(target)
      modifies clock
      ensures Valid()
      ensures forall id | old(clock.View()).Tracks(id) ::
                && clock.View().Tracks(id)
                && clock.View().Of(id) == if id == target || id == node then Max(old(clock.View()).Of(id), OfInstant(t))
                                          else old(clock.View()).Of(id)
      ensures acked == QuorumAccepted(clock.joint, clock.voters)
    {
      hide Tracked;
      hide IsGreatestAccepted;
      Acknowledge(node, t);
      Acknowledge(target, t);
      acked := clock.accepted;
    }

    /** Whether the only voter is this leader. */
    method IsSelfQuorum() returns (alone: bool)
      requires Valid()
      ensures alone <==> Ids(clock.joint) == {node}
    {
      VotersAreIds(clock.joint, clock.voterCount, clock.entries, clock.View());
      if clock.voterCount != 1 {
        return false;
      }
      EntryIn(clock.joint, clock.voterCount, clock.entries, clock.View(), 0);
      assert clock.entries[0].id in Ids(clock.joint);
      assert Ids(clock.joint) == {clock.entries[0].id};
      alone := clock.entries[0].id == node;
    }

    /** The lease holds for a sole voter, or while a quorum acknowledged an RPC less than a lease ago. */
    method IsLeaseValid(now: nat, lease: nat) returns (valid: bool)
      requires Valid()
      ensures valid <==> Ids(clock.joint) == {node} || LeaseHolds(clock.joint, clock.voters, now, lease)
    {
      var alone := IsSelfQuorum();
      if alone {
        return true;
      }
      AckedMeansLease(clock.joint, clock.voters, now, lease);
      valid := clock.accepted.major == 1 && now < clock.accepted.minor + lease;
    }
  }

  lemma SoleMajority(config: set<NodeId>, node: NodeId)
    requires config != {}
    ensures Majority(config, {node}) <==> config == {node}
  {
    SubsetCard(config * {node}, {node});
    if Majority(config, {node}) {
      assert config * {node} == {node};
      assert |config - {node}| == |config| - |config * {node}|;
      assert config - {node} == {};
    } else {
      assert {node} * {node} == {node};
    }
  }

  /** A sole voter is exactly a node that is a quorum by itself, as long as no config is empty. */
  lemma SoleVoterIsQuorum(joint: Joint, node: NodeId)
    requires {} !in joint
    ensures Ids(joint) == {node} <==> joint != [] && IsQuorum(joint, {node})
  {
    forall i | 0 <= i < |joint| ensures Majority(joint[i], {node}) <==> joint[i] == {node} {
      SoleMajority(joint[i], node);
    }
    hide Majority;
    if Ids(joint) == {node} {
      forall i | 0 <= i < |joint| ensures joint[i] == {node} {
        var x :| x in joint[i];
        assert forall y | y in joint[i] :: y in Ids(joint);
      }
    }
    if joint != [] && IsQuorum(joint, {node}) {
      assert joint[0] == {node};
      assert Ids(joint) == {node};
    }
  }

  /**
   * Being the sole voter tells whether the node is a quorum, except exactly when it has an empty config
   * beside its own.
   */
  lemma SoleVoterIsQuorumIff(joint: Joint, node: NodeId)
    ensures (Ids(joint) == {node} <==> joint != [] && IsQuorum(joint, {node}))
       <==> !({} in joint && Ids(joint) == {node})
  {
    if {} in joint {
      var i :| 0 <= i < |joint| && joint[i] == {};
      assert joint[i] * {node} == {};
      assert !Majority(joint[i], {node});
    } else {
      SoleVoterIsQuorum(joint, node);
    }
  }

  /** With an empty config beside its own, a sole voter is taken for a quorum although it is none. */
  lemma EmptyConfigMisleadsSoleVoter(node: NodeId)
    ensures Ids([{node}, {}]) == {node} && !IsQuorum([{node}, {}], {node})
  {
    var joint: Joint := [{node}, {}];
    assert joint[1] * {node} == {};
    assert !Majority(joint[1], {node});
    assert node in joint[0];
  }
}
