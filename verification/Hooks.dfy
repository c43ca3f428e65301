/** The leader-change hooks: a node is told when its own leadership starts and stops. */
module Hooks {
  import opened Common
  import opened Quorum
  import opened Votes

  datatype LeaderId = LeaderId(term: nat, node: NodeId)

  datatype Call = Start(id: LeaderId) | Stop(id: LeaderId)

  function LeaderOf(v: Vote): LeaderId {
    LeaderId(v.term, v.node)
  }

  /** The i-th call: even ones start a leadership, odd ones stop the leadership that started right before. */
  ghost predicate InTurn(calls: seq<Call>, i: nat)
    requires i < |calls|
  {
    if i % 2 == 0 then calls[i].Start? else calls[i] == Stop(calls[i - 1].id)
  }

  ghost predicate Alternating(calls: seq<Call>) {
    forall i | 0 <= i < |calls| :: InTurn(calls, i)
  }

  lemma AlternatingPush(calls: seq<Call>, c: Call)
    requires Alternating(calls) && (if |calls| % 2 == 0 then c.Start? else c == Stop(calls[|calls| - 1].id))
    ensures Alternating(calls + [c])
  {
    var after := calls + [c];
    forall i | 0 <= i < |after| ensures InTurn(after, i) {
      if i < |calls| {
        assert InTurn(calls, i);
      }
    }
  }

  /**
   * The leadership that is on after observing `votes`: the last own committed one, unless another node's
   * vote came since.
   */
  ghost function Current(me: NodeId, votes: seq<Vote>): Option<LeaderId> {
    if votes == [] then None
    else
      var init, v := votes[..|votes| - 1], votes[|votes| - 1];
      if v.node != me then None else if v.committed then Some(LeaderOf(v)) else Current(me, init)
  }

  /** The `i`-th vote is an own committed one, and no other leader or own leadership came since. */
  ghost predicate IsOpen(me: NodeId, votes: seq<Vote>, i: nat) {
    && i < |votes| && votes[i].node == me && votes[i].committed
    && forall j | i < j < |votes| :: votes[j].node == me && !votes[j].committed
  }

  /** A leadership is on exactly when the last own committed vote has it and no other node's vote came since. */
  lemma {:induction false} CurrentIsOpenIff(me: NodeId, votes: seq<Vote>, id: LeaderId)
    ensures Current(me, votes) == Some(id) <==> exists i: nat :: IsOpen(me, votes, i) && LeaderOf(votes[i]) == id
  {
    if votes != [] {
      var last := |votes| - 1;
      var init, v := votes[..last], votes[last];
      CurrentIsOpenIff(me, init, id);
      if v.node == me && v.committed {
        assert IsOpen(me, votes, last);
      } else if v.node == me {
        forall i: nat ensures IsOpen(me, votes, i) <==> IsOpen(me, init, i) {
          if IsOpen(me, votes, i) {
            assert i < last;
            forall j | i < j < last ensures init[j] == votes[j] {}
          }
          if IsOpen(me, init, i) {
            forall j | i < j < |votes| ensures votes[j].node == me && !votes[j].committed {
              if j < last { assert init[j] == votes[j]; }
            }
          }
        }
        forall i: nat | IsOpen(me, votes, i) || IsOpen(me, init, i) ensures init[i] == votes[i] {}
      } else {
        forall i: nat ensures !IsOpen(me, votes, i) {
          if i < last { assert votes[last].node != me; }
        }
      }
    }
  }

  class LeaderHooks {
    const me: NodeId
    var prev: Option<LeaderId>
    ghost var votes: seq<Vote>
    ghost var calls: seq<Call>

    ghost predicate Valid()
      reads this
    {
      && Alternating(calls)
      && prev == Current(me, votes)
      && (prev.Some? <==> |calls| % 2 == 1)
      && (prev.Some? ==> calls[|calls| - 1] == Start(prev.value))
    }

    constructor (me: NodeId)
      ensures Valid() && this.me == me && votes == [] && calls == []
    {
      this.me, prev, votes, calls := me, None, [], [];
    }

    ghost method Record(c: Call)
      requires Alternating(calls) && (if |calls| % 2 == 0 then c.Start? else c == Stop(calls[|calls| - 1].id))
      modifies this`calls
      ensures Alternating(calls) && calls == old(calls) + [c]
    {
      AlternatingPush(calls, c);
      calls := calls + [c];
    }

    /** Observe a vote. A new own leadership stops the old one before it starts; another node's vote stops it. */
    method Observe(v: Vote)
      requires Valid()
      modifies this
      ensures Valid() && votes == old(votes) + [v]
      ensures calls == old(calls)
                + (if old(prev).Some? && prev != old(prev) then [Stop(old(prev).value)] else [])
                + (if prev.Some? && prev != old(prev) then [Start(prev.value)] else [])
    {
      assert (votes + [v])[..|votes|] == votes;
      votes := votes + [v];
      var id := LeaderOf(v);
      if v.node == me {
        if v.committed && prev != Some(id) {
          if prev.Some? {
            Record(Stop(prev.value));
          }
          Record(Start(id));
          prev := Some(id);
        }
      } else if prev.Some? {
        Record(Stop(prev.value));
        prev := None;
      }
    }
  }
}
