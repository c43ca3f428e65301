/**
 * Leases are never stuck: once the leases that run are over, any node that does not lead can still become
 * leader and hold a lease, if a quorum of voters takes part. And what an ack adds is never taken away.
 */
module LeaseProgress {
  import opened Common
  import opened Quorum
  import opened Votes
  import opened Leases

  // ---- Reachability ----

  ghost predicate Leads(cfg: Config, s: State, steps: seq<Step>, t: State) {
    IsRun(cfg, s, steps) && Run(cfg, s, steps) == t
  }

  ghost predicate Reaches(cfg: Config, s: State, t: State) {
    exists steps :: Leads(cfg, s, steps, t)
  }

  lemma ReachesItself(cfg: Config, s: State)
    ensures Reaches(cfg, s, s)
  {
    assert Leads(cfg, s, [], s);
  }

  lemma {:induction false} LeadsOn(cfg: Config, s: State, steps: seq<Step>, mid: State, more: seq<Step>, t: State)
    requires Leads(cfg, s, steps, mid) && Leads(cfg, mid, more, t)
    ensures Leads(cfg, s, steps + more, t)
    decreases |steps|
  {
    hide Apply;
    hide Enabled;
    if steps == [] {
      assert steps + more == more;
    } else {
      assert (steps + more)[1..] == steps[1..] + more;
      LeadsOn(cfg, Apply(cfg, s, steps[0]), steps[1..], mid, more, t);
    }
  }

  lemma ReachesOn(cfg: Config, s: State, mid: State, t: State)
    requires Reaches(cfg, s, mid) && Reaches(cfg, mid, t)
    ensures Reaches(cfg, s, t)
  {
    var steps :| Leads(cfg, s, steps, mid);
    var more :| Leads(cfg, mid, more, t);
    LeadsOn(cfg, s, steps, mid, more, t);
  }

  lemma StepReaches(cfg: Config, s: State, step: Step)
    requires Enabled(cfg, s, step)
    ensures Reaches(cfg, s, Apply(cfg, s, step))
  {
    hide Apply;
    hide Enabled;
    assert [step][1..] == [];
    assert IsRun(cfg, Apply(cfg, s, step), []) && Run(cfg, Apply(cfg, s, step), []) == Apply(cfg, s, step);
    assert Leads(cfg, s, [step], Apply(cfg, s, step));
  }

  lemma StepsTo(cfg: Config, s: State, t: State) returns (steps: seq<Step>)
    requires Reaches(cfg, s, t)
    ensures IsRun(cfg, s, steps) && Run(cfg, s, steps) == t
  {
    steps :| Leads(cfg, s, steps, t);
  }

  // ---- Leases end ----

  /** A quorum of at least two voters has a node besides any given one. */
  lemma NotAlone(joint: Joint, quorum: set<NodeId>, x: NodeId)
    requires 2 <= |Ids(joint)| && IsQuorum(joint, quorum)
    ensures !(quorum <= {x})
  {
    if quorum <= {x} {
      UpwardClosed(joint, quorum, {x});
      forall i | 0 <= i < |joint| ensures joint[i] != {} { assert Majority(joint[i], {x}); }
      assert joint != [];
      Proposer.SoleVoterIsQuorum(joint, x);
      assert false;
    }
  }

  /** From this time on, the node may campaign and vote. */
  ghost predicate IsCalm(cfg: Config, n: Node, x: NodeId, now: nat) {
    Expired(n, now, 0) && !LeaderLeaseValid(cfg, x, n, now)
  }

  lemma LeaseEnds(cfg: Config, s: State, x: NodeId, now: nat)
    requires 2 <= |Ids(cfg.joint)| && Inv(cfg, s) && x in s.nodes && s.now + cfg.lease <= now
    ensures !LeaderLeaseValid(cfg, x, s.nodes[x], now)
  {
    hide IsQuorum;
    hide WinOk;
    hide PromiseOk;
    var n := s.nodes[x];
    assert NodeOk(s, x, n);
    if n.leader.Some? && Proposer.LeaseHolds(cfg.joint, n.leader.value.clock, now, cfg.lease) {
      var clock := n.leader.value.clock;
      var t: nat :| IsQuorum(cfg.joint, Proposer.AckedSince(clock, t)) && now < t + cfg.lease;
      NotAlone(cfg.joint, Proposer.AckedSince(clock, t), x);
      assert false;
    }
  }

  lemma {:induction false} VotesExpire(s: State, ids: set<NodeId>) returns (time: nat)
    requires ids <= s.nodes.Keys
    ensures forall y, now: nat | y in ids && time <= now :: Expired(s.nodes[y], now, 0)
    decreases |ids|
  {
    time := 0;
    if ids != {} {
      var y :| y in ids;
      time := VotesExpire(s, ids - {y});
      var n := s.nodes[y];
      var end := if n.lastUpdate.Some? then n.lastUpdate.value + n.lease + 1 else 0;
      time := if time < end then end else time;
    }
  }

  /** When enough time has passed, every node is calm. */
  lemma TimePasses(cfg: Config, s: State) returns (t: State)
    requires 2 <= |Ids(cfg.joint)| && Inv(cfg, s)
    ensures Reaches(cfg, s, t) && t == s.(now := t.now)
    ensures forall y, now: nat | y in t.nodes && t.now <= now :: IsCalm(cfg, t.nodes[y], y, now)
  {
    hide Inv;
    hide LeaderLeaseValid;
    hide Expired;
    var time := VotesExpire(s, s.nodes.Keys);
    var elapsed := time + cfg.lease;
    StepReaches(cfg, s, Tick(elapsed));
    t := Apply(cfg, s, Tick(elapsed));
    forall y, now: nat | y in t.nodes && t.now <= now ensures IsCalm(cfg, t.nodes[y], y, now) {
      LeaseEnds(cfg, s, y, now);
    }
  }

  // ---- A campaign ----

  /** Only `x` and the time changed; nothing that was sent or granted is taken back. */
  ghost predicate OnlyMoves(s: State, t: State, x: NodeId) {
    && t.nodes.Keys == s.nodes.Keys && (forall y | y in s.nodes && y != x :: t.nodes[y] == s.nodes[y])
    && s.now <= t.now && s.sends <= t.sends && s.acks <= t.acks
    && (forall g | g in s.grants :: g in t.grants)
  }

  ghost predicate Campaigns(s: State, x: NodeId, v: Vote) {
    && x in s.nodes && v.node == x && !v.committed && s.nodes[x].vote == v && s.nodes[x].leader.None?
    && s.nodes[x].candidate == Some(Campaign(v, {})) && (x, v) in s.grants
  }

  lemma ElectReaches(cfg: Config, s: State, x: NodeId) returns (t: State)
    requires x in s.nodes && s.nodes[x].leader.None? && x in Ids(cfg.joint) && Expired(s.nodes[x], s.now, 0)
    ensures Reaches(cfg, s, t) && OnlyMoves(s, t, x) && t.now == s.now
    ensures Campaigns(t, x, Vote(s.nodes[x].vote.term + 1, x, false))
    ensures t.nodes[x].lastUpdate == Some(t.now) && t.nodes[x].lease == 0
  {
    var v := Vote(s.nodes[x].vote.term + 1, x, false);
    VotesArePartiallyOrdered(s.nodes[x].vote, v, v);
    StepReaches(cfg, s, Elect(x, 0));
    t := Apply(cfg, s, Elect(x, 0));
  }

  /** By campaigning often enough, each time after a tick, a node gets above any term. */
  lemma {:induction false} CampaignAbove(cfg: Config, s: State, x: NodeId, term: nat) returns (t: State, v: Vote)
    requires x in s.nodes && s.nodes[x].leader.None? && x in Ids(cfg.joint) && Expired(s.nodes[x], s.now, 0)
    ensures Reaches(cfg, s, t) && OnlyMoves(s, t, x) && Campaigns(t, x, v) && term < v.term
    decreases term - s.nodes[x].vote.term
  {
    hide Reaches;
    t := ElectReaches(cfg, s, x);
    v := Vote(s.nodes[x].vote.term + 1, x, false);
    if v.term <= term {
      var s1 := t;
      StepReaches(cfg, s1, Tick(1));
      var s2 := Apply(cfg, s1, Tick(1));
      t, v := CampaignAbove(cfg, s2, x, term);
      ReachesOn(cfg, s1, s2, t);
      ReachesOn(cfg, s, s1, t);
    }
  }

  // ---- Votes ----

  /** A calm node with an earlier vote grants a request. */
  lemma VoterGrants(cfg: Config, s: State, y: NodeId, v: Vote) returns (t: State)
    requires y in s.nodes && !v.committed && v.node != y && Issued(s, v) && s.nodes[y].vote.term < v.term
    requires IsCalm(cfg, s.nodes[y], y, s.now)
    ensures Reaches(cfg, s, t) && OnlyMoves(s, t, y) && t.now == s.now
    ensures (y, v) in t.grants && t.nodes[y].vote == v
  {
    VotesArePartiallyOrdered(s.nodes[y].vote, v, v);
    StepReaches(cfg, s, VoteRequest(y, v, false));
    t := Apply(cfg, s, VoteRequest(y, v, false));
  }

  lemma {:induction false} VotersGrant(cfg: Config, s: State, v: Vote, voters: set<NodeId>) returns (t: State)
    requires !v.committed && v.node !in voters && v.node in s.nodes && s.nodes[v.node].vote == v
    requires forall y | y in voters :: y in s.nodes && s.nodes[y].vote.term < v.term
    requires forall y | y in voters :: IsCalm(cfg, s.nodes[y], y, s.now)
    ensures Reaches(cfg, s, t) && t.now == s.now && t.nodes.Keys == s.nodes.Keys
    ensures t.nodes[v.node] == s.nodes[v.node] && forall g | g in s.grants :: g in t.grants
    ensures forall y | y in voters :: (y, v) in t.grants && t.nodes[y].vote == v
    ensures forall y | y in s.nodes && y !in voters :: t.nodes[y] == s.nodes[y]
    decreases |voters|
  {
    hide Reaches;
    hide IsCalm;
    if voters == {} {
      ReachesItself(cfg, s);
      t := s;
    } else {
      var y :| y in voters;
      VotesArePartiallyOrdered(v, v, v);
      var mid := VoterGrants(cfg, s, y, v);
      t := VotersGrant(cfg, mid, v, voters - {y});
      ReachesOn(cfg, s, mid, t);
    }
  }

  /** A candidate that counts the grants of a quorum leads. */
  lemma {:induction false} CountsToWin(
      cfg: Config, s: State, c: Campaign, quorum: set<NodeId>, left: set<NodeId>) returns (t: State)
    requires var x := c.vote.node; x in s.nodes && s.nodes[x].candidate == Some(c) && s.nodes[x].vote == c.vote
    requires !c.vote.committed && IsQuorum(cfg.joint, quorum) && quorum <= Ids(cfg.joint)
    requires quorum <= c.grants + left
    requires left != {} && left <= quorum && forall y | y in left :: (y, c.vote) in s.grants
    ensures Reaches(cfg, s, t) && OnlyMoves(s, t, c.vote.node) && c.vote.node in t.nodes && t.now == s.now
    ensures var n := t.nodes[c.vote.node];
            && n.vote == c.vote.Committed()
            && n.leader == Some(Leader(c.vote.Committed(), FirstClock(cfg, c.vote.node, t.now)))
    decreases |left|
  {
    hide Reaches;
    hide IsQuorum;
    var y :| y in left;
    var x := c.vote.node;
    var mid := Apply(cfg, s, CountGrant(x, y));
    StepReaches(cfg, s, CountGrant(x, y));
    VotesArePartiallyOrdered(c.vote, c.vote.Committed(), c.vote);
    if Wins(cfg, c, y) {
      t := mid;
    } else {
      var more := left - {y};
      if more == {} {
        assert quorum <= c.grants + {y};
        UpwardClosed(cfg.joint, quorum, c.grants + {y});
        assert false;
      }
      t := CountsToWin(cfg, mid, c.(grants := c.grants + {y}), quorum, more);
      ReachesOn(cfg, s, mid, t);
    }
  }

  // ---- Acks ----

  /** Who acknowledged since an instant: a new leader itself, from the moment it leads. */
  lemma FirstClockAcks(cfg: Config, x: NodeId, now: nat, t: nat)
    ensures Proposer.AckedSince(FirstClock(cfg, x, now), t) == if x in Ids(cfg.joint) && t <= now then {x} else {}
  {}

  /** An ack adds its node to those that acknowledged since any instant up to it, and takes nobody away. */
  lemma RaiseAcks(clock: Clock, id: NodeId, t: nat, since: nat)
    ensures Raise(clock, id, t).Keys == clock.Keys
    ensures Proposer.AckedSince(Raise(clock, id, t), since)
         == Proposer.AckedSince(clock, since) + if id in clock && since <= t then {id} else {}
  {}

  /** A lease that is valid stays valid when an ack is counted. */
  lemma AckKeepsLease(cfg: Config, s: State, x: NodeId, ack: Ack)
    requires Enabled(cfg, s, HandleAck(x, ack)) && LeaderLeaseValid(cfg, x, s.nodes[x], s.now)
    ensures var t := Apply(cfg, s, HandleAck(x, ack)); LeaderLeaseValid(cfg, x, t.nodes[x], t.now)
  {
    hide IsQuorum;
    var l := s.nodes[x].leader.value;
    if Proposer.LeaseHolds(cfg.joint, l.clock, s.now, cfg.lease) {
      var since: nat :| IsQuorum(cfg.joint, Proposer.AckedSince(l.clock, since)) && s.now < since + cfg.lease;
      var mid := Raise(l.clock, x, ack.sentAt);
      var clock := Raise(mid, ack.voter, ack.sentAt);
      RaiseAcks(l.clock, x, ack.sentAt, since);
      RaiseAcks(mid, ack.voter, ack.sentAt, since);
      UpwardClosed(cfg.joint, Proposer.AckedSince(l.clock, since), Proposer.AckedSince(clock, since));
    }
  }

  /** A node keeps its campaign and its leadership when its own vote is confirmed, and gives both up for another's. */
  lemma OwnVoteKeepsRole(cfg: Config, x: NodeId, n: Node, v: Vote, now: nat)
    requires Le(n.vote, v)
    ensures var m := UpdateVote(cfg, x, n, v, now);
            && (v.node == x ==> m.leader == n.leader && m.candidate == n.candidate)
            && (v.node != x ==> m.leader == None && m.candidate == None)
  {}

  /** The leader of `v` has sent an RPC now, and the followers have not gone beyond its vote. */
  ghost predicate HasSent(s: State, v: Vote, followers: set<NodeId>) {
    && v.committed && v.node in s.nodes && v.node !in followers && (v, s.now) in s.sends
    && s.nodes[v.node].leader.Some? && s.nodes[v.node].leader.value.vote == v
    && forall y | y in followers :: y in s.nodes && Le(s.nodes[y].vote, v)
  }

  /** A follower acks the RPC and the leader counts the ack. */
  lemma FollowerAcks(cfg: Config, s: State, v: Vote, followers: set<NodeId>, y: NodeId) returns (t: State)
    requires HasSent(s, v, followers) && y in followers
    ensures Reaches(cfg, s, t) && t.now == s.now && HasSent(t, v, followers)
    ensures var was, clock := s.nodes[v.node].leader.value.clock, t.nodes[v.node].leader.value.clock;
            && clock.Keys == was.Keys && Proposer.AckedSince(was, s.now) <= Proposer.AckedSince(clock, s.now)
            && (y in clock ==> y in Proposer.AckedSince(clock, s.now))
  {
    hide Reaches;
    VotesArePartiallyOrdered(v, v, v);
    var ack, clock := Ack(y, v, s.now), s.nodes[v.node].leader.value.clock;
    var mid := Apply(cfg, s, Deliver(y, v, s.now));
    StepReaches(cfg, s, Deliver(y, v, s.now));
    StepReaches(cfg, mid, HandleAck(v.node, ack));
    t := Apply(cfg, mid, HandleAck(v.node, ack));
    ReachesOn(cfg, s, mid, t);
    RaiseAcks(clock, v.node, s.now, s.now);
    RaiseAcks(Raise(clock, v.node, s.now), y, s.now, s.now);
  }

  lemma {:induction false} FollowersAck(cfg: Config, s: State, v: Vote, followers: set<NodeId>, left: set<NodeId>)
    returns (t: State)
    requires HasSent(s, v, followers) && left <= followers
    ensures Reaches(cfg, s, t) && t.now == s.now && HasSent(t, v, followers)
    ensures var was, clock := s.nodes[v.node].leader.value.clock, t.nodes[v.node].leader.value.clock;
            && clock.Keys == was.Keys && Proposer.AckedSince(was, s.now) <= Proposer.AckedSince(clock, s.now)
            && left * clock.Keys <= Proposer.AckedSince(clock, s.now)
    decreases |left|
  {
    hide Reaches;
    hide HasSent;
    assert v.node in s.nodes && s.nodes[v.node].leader.Some? by { SentIsByLeader(s, v, followers); }
    if left == {} {
      ReachesItself(cfg, s);
      t := s;
    } else {
      var y :| y in left;
      var mid := FollowerAcks(cfg, s, v, followers, y);
      t := FollowersAck(cfg, mid, v, followers, left - {y});
      ReachesOn(cfg, s, mid, t);
    }
  }

  lemma SentIsByLeader(s: State, v: Vote, followers: set<NodeId>)
    requires HasSent(s, v, followers)
    ensures v.node in s.nodes && s.nodes[v.node].leader.Some?
  {}

  // ---- The theorem ----

  lemma {:induction false} TermsAreBounded(s: State, ids: set<NodeId>) returns (term: nat)
    requires ids <= s.nodes.Keys
    ensures forall y | y in ids :: s.nodes[y].vote.term <= term
    decreases |ids|
  {
    term := 0;
    if ids != {} {
      var y :| y in ids;
      term := TermsAreBounded(s, ids - {y});
      term := if term < s.nodes[y].vote.term then s.nodes[y].vote.term else term;
    }
  }

  /** A leader whose followers are at its vote can send an RPC and get a lease for it. */
  lemma LeaderGetsLease(cfg: Config, s: State, x: NodeId, quorum: set<NodeId>) returns (t: State)
    requires x in s.nodes && s.nodes[x].leader.Some? && cfg.joint != [] && 0 < cfg.lease
    requires IsQuorum(cfg.joint, quorum) && quorum <= Ids(cfg.joint)
    requires var l := s.nodes[x].leader.value;
             && l.vote.committed && l.vote.node == x && l.clock == FirstClock(cfg, x, s.now)
             && forall y | y in quorum :: y in s.nodes && Le(s.nodes[y].vote, l.vote)
    ensures Reaches(cfg, s, t) && x in t.nodes && LeaderLeaseValid(cfg, x, t.nodes[x], t.now)
  {
    hide Reaches;
    hide IsQuorum;
    var v := s.nodes[x].leader.value.vote;
    StepReaches(cfg, s, Send(x));
    var mid := Apply(cfg, s, Send(x));
    FirstClockAcks(cfg, x, s.now, s.now);
    t := FollowersAck(cfg, mid, v, quorum - {x}, quorum - {x});
    ReachesOn(cfg, s, mid, t);
    var acked := Proposer.AckedSince(t.nodes[x].leader.value.clock, t.now);
    assert quorum <= acked;
    UpwardClosed(cfg.joint, quorum, acked);
  }

  lemma LeaseCanBeHeld(cfg: Config, s: State, x: NodeId, quorum: set<NodeId>) returns (steps: seq<Step>)
    requires 2 <= |Ids(cfg.joint)| && 0 < cfg.lease && Inv(cfg, s)
    requires x in s.nodes && s.nodes[x].leader.None? && x in Ids(cfg.joint)
    requires quorum <= s.nodes.Keys && IsQuorum(cfg.joint, quorum) && quorum <= Ids(cfg.joint)
    ensures IsRun(cfg, s, steps)
    ensures var t := Run(cfg, s, steps); x in t.nodes && LeaderLeaseValid(cfg, x, t.nodes[x], t.now)
  {
    hide Reaches;
    hide IsQuorum;
    hide Inv;
    hide LeaderLeaseValid;
    assert cfg.joint != [];
    var s1 := TimePasses(cfg, s);
    var term := TermsAreBounded(s1, s1.nodes.Keys);
    assert IsCalm(cfg, s1.nodes[x], x, s1.now);
    var s2, v := CampaignAbove(cfg, s1, x, term);
    ReachesOn(cfg, s, s1, s2);
    var s3 := VotersGrant(cfg, s2, v, quorum - {x});
    ReachesOn(cfg, s, s2, s3);
    assert quorum != {} by { EmptyIsNoQuorum(cfg.joint); }
    var s4 := CountsToWin(cfg, s3, Campaign(v, {}), quorum, quorum);
    ReachesOn(cfg, s, s3, s4);
    VotesArePartiallyOrdered(v, v.Committed(), v);
    var s5 := LeaderGetsLease(cfg, s4, x, quorum);
    ReachesOn(cfg, s, s4, s5);
    steps := StepsTo(cfg, s, s5);
  }

  /**
   * After every run, a voter that does not lead can become leader and hold a valid lease, if the nodes of some
   * quorum exist.
   */
  lemma LeaseCanAlwaysBeHeld(cfg: Config, s: State, before: seq<Step>, x: NodeId, quorum: set<NodeId>)
    returns (after: seq<Step>)
    requires 2 <= |Ids(cfg.joint)| && 0 < cfg.lease && Init(s) && IsRun(cfg, s, before)
    requires var mid := Run(cfg, s, before);
             && x in mid.nodes && mid.nodes[x].leader.None? && x in Ids(cfg.joint)
             && quorum <= mid.nodes.Keys && IsQuorum(cfg.joint, quorum) && quorum <= Ids(cfg.joint)
    ensures IsRun(cfg, Run(cfg, s, before), after)
    ensures var t := Run(cfg, Run(cfg, s, before), after);
            x in t.nodes && LeaderLeaseValid(cfg, x, t.nodes[x], t.now)
  {
    hide Inv;
    hide Apply;
    hide Enabled;
    InitIsSafe(cfg, s);
    RunKeepsInv(cfg, s, before);
    after := LeaseCanBeHeld(cfg, Run(cfg, s, before), x, quorum);
  }
}
