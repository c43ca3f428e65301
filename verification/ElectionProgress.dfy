/**
 * Elections are never stuck: from every state of the election machine, whatever is stored, queued or on its
 * way, any node can still win, if a quorum of its voters takes part.
 */
module ElectionProgress {
  import opened Common
  import opened Quorum
  import opened Votes
  import opened Election

  // ---- Reachability ----

  ghost predicate Leads(s: State, fits: (nat, Joint) -> bool, steps: seq<Step>, t: State) {
    IsRun(s, fits, steps) && Run(s, fits, steps) == t
  }

  ghost predicate Reaches(s: State, fits: (nat, Joint) -> bool, t: State) {
    exists steps :: Leads(s, fits, steps, t)
  }

  lemma ReachesItself(s: State, fits: (nat, Joint) -> bool)
    ensures Reaches(s, fits, s)
  {
    assert Leads(s, fits, [], s);
  }

  lemma {:induction false} LeadsOn(
      s: State, fits: (nat, Joint) -> bool, steps: seq<Step>, mid: State, more: seq<Step>, t: State)
    requires Leads(s, fits, steps, mid) && Leads(mid, fits, more, t)
    ensures Leads(s, fits, steps + more, t)
    decreases |steps|
  {
    hide Apply;
    hide Enabled;
    if steps == [] {
      assert steps + more == more;
    } else {
      assert (steps + more)[1..] == steps[1..] + more;
      LeadsOn(Apply(s, steps[0]), fits, steps[1..], mid, more, t);
    }
  }

  lemma ReachesOn(s: State, fits: (nat, Joint) -> bool, mid: State, t: State)
    requires Reaches(s, fits, mid) && Reaches(mid, fits, t)
    ensures Reaches(s, fits, t)
  {
    var steps :| Leads(s, fits, steps, mid);
    var more :| Leads(mid, fits, more, t);
    LeadsOn(s, fits, steps, mid, more, t);
  }

  lemma StepReaches(s: State, fits: (nat, Joint) -> bool, step: Step)
    requires Allowed(s, fits, step)
    ensures Reaches(s, fits, Apply(s, step))
  {
    hide Apply;
    hide Enabled;
    assert [step][1..] == [];
    assert IsRun(Apply(s, step), fits, []) && Run(Apply(s, step), fits, []) == Apply(s, step);
    assert Leads(s, fits, [step], Apply(s, step));
  }

  /** Only `x` changed; messages and wins are not taken back. */
  ghost predicate OnlyMoves(s: State, t: State, x: NodeId) {
    && t.nodes.Keys == s.nodes.Keys && (forall y | y in s.nodes && y != x :: t.nodes[y] == s.nodes[y])
    && s.net <= t.net && t.won == s.won
  }

  // ---- Running a queue ----

  /** A node without queued commands, all of which have run. */
  ghost predicate HasRun(x: NodeId, n: Node, m: Node, net: set<Message>) {
    && m.queue == [] && m.vote == n.vote && m.candidate == n.candidate && m.waiting == n.waiting
    && m.flushed == n.flushed && n.saved <= m.saved
    && (forall c | c in n.queue :: Sent(x, c) <= net && (c.SaveVote? ==> c.vote in m.saved))
  }

  lemma {:induction false} QueueRuns(s: State, fits: (nat, Joint) -> bool, x: NodeId) returns (t: State)
    requires x in s.nodes
    ensures Reaches(s, fits, t) && OnlyMoves(s, t, x) && HasRun(x, s.nodes[x], t.nodes[x], t.net)
    decreases |s.nodes[x].queue|
  {
    hide Reaches;
    var n := s.nodes[x];
    if n.queue == [] {
      ReachesItself(s, fits);
      t := s;
    } else {
      var mid := Apply(s, RunCommand(x));
      StepReaches(s, fits, RunCommand(x));
      t := QueueRuns(mid, fits, x);
      ReachesOn(s, fits, mid, t);
      forall c | c in n.queue ensures Sent(x, c) <= t.net && (c.SaveVote? ==> c.vote in t.nodes[x].saved) {
        if c != n.queue[0] { assert c in n.queue[1..]; }
      }
    }
  }

  // ---- A campaign ----

  /** The candidate has started a campaign for `v` that nobody else is part of yet. */
  ghost predicate Campaigns(s: State, x: NodeId, v: Vote, joint: Joint) {
    && x in s.nodes && v.node == x && !v.committed && s.nodes[x].vote == v
    && s.nodes[x].candidate == Some(Campaign(v, joint, {}))
  }

  lemma ElectReaches(s: State, fits: (nat, Joint) -> bool, x: NodeId, joint: Joint) returns (t: State)
    requires x in s.nodes && fits(s.nodes[x].vote.term + 1, joint)
    ensures Reaches(s, fits, t) && OnlyMoves(s, t, x)
    ensures var v := Vote(s.nodes[x].vote.term + 1, x, false);
            && Campaigns(t, x, v, joint) && SaveVote(v) in t.nodes[x].queue && SendVote(v) in t.nodes[x].queue
  {
    StepReaches(s, fits, Elect(x, joint));
    t := Apply(s, Elect(x, joint));
    var v := Vote(s.nodes[x].vote.term + 1, x, false);
    assert t.nodes[x].queue == s.nodes[x].queue + [SaveVote(v), SendVote(v)];
    assert [SaveVote(v), SendVote(v)][0] == SaveVote(v) && [SaveVote(v), SendVote(v)][1] == SendVote(v);
  }

  /** By campaigning often enough a node gets above any term. */
  lemma {:induction false} CampaignAbove(s: State, fits: (nat, Joint) -> bool, x: NodeId, joint: Joint, term: nat)
    returns (t: State, v: Vote)
    requires x in s.nodes && forall k: nat :: fits(k, joint)
    ensures Reaches(s, fits, t) && OnlyMoves(s, t, x)
    ensures Campaigns(t, x, v, joint) && term < v.term
    ensures SaveVote(v) in t.nodes[x].queue && SendVote(v) in t.nodes[x].queue
    decreases term - s.nodes[x].vote.term
  {
    hide Reaches;
    t := ElectReaches(s, fits, x, joint);
    v := Vote(s.nodes[x].vote.term + 1, x, false);
    if v.term <= term {
      var mid := t;
      t, v := CampaignAbove(mid, fits, x, joint, term);
      ReachesOn(s, fits, mid, t);
    }
  }

  // ---- A vote ----

  /** The vote of `y` for `v` is on its way to the candidate. */
  ghost predicate Granted(s: State, v: Vote, y: NodeId) {
    Reply(y, v.node, v, true) in s.net
  }

  /** A node whose votes are all of earlier terms grants a request, and sends that once it is flushed. */
  lemma VoterGrants(s: State, fits: (nat, Joint) -> bool, y: NodeId, v: Vote) returns (t: State)
    requires y in s.nodes && Request(v) in s.net && v.node != y
    requires s.nodes[y].vote.term < v.term && s.nodes[y].flushed.term < v.term
    ensures Reaches(s, fits, t) && OnlyMoves(s, t, y) && Granted(t, v, y)
  {
    hide Reaches;
    var r := Reply(y, v.node, v, true);
    VotesArePartiallyOrdered(s.nodes[y].vote, v, v);
    VotesArePartiallyOrdered(s.nodes[y].flushed, v, v);
    var s1 := Apply(s, VoteRequest(y, v, false));
    StepReaches(s, fits, VoteRequest(y, v, false));
    assert s1.nodes[y].vote == v && r in s1.nodes[y].waiting && SaveVote(v) in s1.nodes[y].queue by {
      assert s1.nodes[y].queue[|s.nodes[y].queue|] == SaveVote(v);
    }
    var s2 := QueueRuns(s1, fits, y);
    ReachesOn(s, fits, s1, s2);
    GrantIsSent(s2, fits, y, r);
    t := Apply(Apply(s2, LocalIO(y, v)), SendReply(y, r));
    ReachesOn(s, fits, s2, t);
  }

  lemma GrantIsSent(s: State, fits: (nat, Joint) -> bool, y: NodeId, r: Message)
    requires y in s.nodes && r.Reply? && r in s.nodes[y].waiting && r.vote in s.nodes[y].saved
    requires Lt(s.nodes[y].flushed, r.vote)
    ensures Enabled(s, LocalIO(y, r.vote)) && Enabled(Apply(s, LocalIO(y, r.vote)), SendReply(y, r))
    ensures var t := Apply(Apply(s, LocalIO(y, r.vote)), SendReply(y, r));
            Reaches(s, fits, t) && OnlyMoves(s, t, y) && r in t.net
  {
    hide Reaches;
    VotesArePartiallyOrdered(r.vote, r.vote, r.vote);
    var mid := Apply(s, LocalIO(y, r.vote));
    StepReaches(s, fits, LocalIO(y, r.vote));
    StepReaches(mid, fits, SendReply(y, r));
    ReachesOn(s, fits, mid, Apply(mid, SendReply(y, r)));
  }

  /** All votes of `y` that matter are of terms before `term`. */
  ghost predicate Behind(s: State, y: NodeId, term: nat) {
    y in s.nodes && s.nodes[y].vote.term < term && s.nodes[y].flushed.term < term
  }

  lemma {:induction false} VotersGrant(
      s: State, fits: (nat, Joint) -> bool, v: Vote, voters: set<NodeId>) returns (t: State)
    requires v.node in s.nodes && v.node !in voters && Request(v) in s.net
    requires forall y | y in voters :: Behind(s, y, v.term)
    ensures Reaches(s, fits, t) && t.won == s.won && s.net <= t.net
    ensures v.node in t.nodes && t.nodes[v.node] == s.nodes[v.node]
    ensures forall y | y in voters :: Granted(t, v, y)
    decreases |voters|
  {
    hide Reaches;
    if voters == {} {
      ReachesItself(s, fits);
      t := s;
    } else {
      var y :| y in voters;
      var mid := VoterGrants(s, fits, y, v);
      t := VotersGrant(mid, fits, v, voters - {y});
      ReachesOn(s, fits, mid, t);
    }
  }

  // ---- Counting ----

  /** A candidate that counts the grants of a quorum wins. */
  lemma {:induction false} CountsToWin(
      s: State, fits: (nat, Joint) -> bool, c: Campaign, quorum: set<NodeId>, left: set<NodeId>) returns (t: State)
    requires var x := c.vote.node; x in s.nodes && s.nodes[x].candidate == Some(c) && s.nodes[x].vote == c.vote
    requires !c.vote.committed && IsQuorum(c.joint, quorum) && quorum <= Ids(c.joint) && quorum <= c.grants + left
    requires left != {} && left <= quorum && forall y | y in left :: Granted(s, c.vote, y)
    ensures Reaches(s, fits, t) && c.vote in t.won && c.vote.node in t.nodes
    ensures t.nodes[c.vote.node].vote == c.vote.Committed()
    decreases |left|
  {
    hide Reaches;
    hide IsQuorum;
    var y :| y in left;
    var x, r := c.vote.node, Reply(y, c.vote.node, c.vote, true);
    var mid := Apply(s, VoteReply(x, r));
    StepReaches(s, fits, VoteReply(x, r));
    VotesArePartiallyOrdered(c.vote, c.vote.Committed(), c.vote);
    if Wins(c, r) {
      t := mid;
    } else {
      var more := left - {y};
      if more == {} {
        assert quorum <= c.grants + {y};
        UpwardClosed(c.joint, quorum, c.grants + {y});
        assert false;
      }
      t := CountsToWin(mid, fits, c.(grants := c.grants + {y}), quorum, more);
      ReachesOn(s, fits, mid, t);
    }
  }

  // ---- The theorem ----

  lemma {:induction false} TermsAreBounded(s: State, ids: set<NodeId>) returns (term: nat)
    requires ids <= s.nodes.Keys
    ensures forall y | y in ids :: s.nodes[y].vote.term <= term && s.nodes[y].flushed.term <= term
    decreases |ids|
  {
    term := 0;
    if ids != {} {
      var y :| y in ids;
      term := TermsAreBounded(s, ids - {y});
      var n := s.nodes[y];
      term := if term < n.vote.term then n.vote.term else term;
      term := if term < n.flushed.term then n.flushed.term else term;
    }
  }

  /**
   * From every state, a node can win a campaign for a quorum set that may be used in every term, if the nodes
   * of some quorum exist. Its vote is above all votes that were in memory before.
   */
  lemma ElectionCanSucceed(s: State, fits: (nat, Joint) -> bool, x: NodeId, joint: Joint, quorum: set<NodeId>)
    returns (steps: seq<Step>, v: Vote)
    requires x in s.nodes && quorum <= s.nodes.Keys && joint != []
    requires IsQuorum(joint, quorum) && quorum <= Ids(joint) && forall k: nat :: fits(k, joint)
    ensures IsRun(s, fits, steps) && v.node == x && v in Run(s, fits, steps).won
    ensures x in Run(s, fits, steps).nodes && Run(s, fits, steps).nodes[x].vote == v.Committed()
    ensures forall y | y in s.nodes :: s.nodes[y].vote.term < v.term
  {
    hide Reaches;
    hide IsQuorum;
    var term := TermsAreBounded(s, s.nodes.Keys);
    var s1;
    s1, v := CampaignAbove(s, fits, x, joint, term);
    var s2 := QueueRuns(s1, fits, x);
    ReachesOn(s, fits, s1, s2);
    assert Request(v) in s2.net by { assert Sent(x, SendVote(v)) <= s2.net; }
    assert Granted(s2, v, x) by { assert Sent(x, SaveVote(v)) <= s2.net; }
    var s3 := VotersGrant(s2, fits, v, quorum - {x});
    ReachesOn(s, fits, s2, s3);
    assert quorum != {} by { EmptyIsNoQuorum(joint); }
    var s4 := CountsToWin(s3, fits, Campaign(v, joint, {}), quorum, quorum);
    ReachesOn(s, fits, s3, s4);
    steps := StepsTo(s, fits, s4);
  }

  lemma StepsTo(s: State, fits: (nat, Joint) -> bool, t: State) returns (steps: seq<Step>)
    requires Reaches(s, fits, t)
    ensures IsRun(s, fits, steps) && Run(s, fits, steps) == t
  {
    steps :| Leads(s, fits, steps, t);
  }

  // ---- Catching up ----

  /** A node answers a request, granted exactly if it does not refuse and the vote is at least its own. */
  lemma RequestIsAnswered(x: NodeId, n: Node, v: Vote, refuse: bool) returns (r: Message)
    ensures r in HandleRequest(x, n, v, refuse).waiting && r.Reply? && r.from == x && r.to == v.node
    ensures r.granted <==> !refuse && Le(n.vote, v)
    ensures r.vote == HandleRequest(x, n, v, refuse).vote
    ensures r.vote == if r.granted then v else n.vote
  {
    VotesArePartiallyOrdered(n.vote, v, v);
    r := Reply(x, v.node, HandleRequest(x, n, v, refuse).vote, !refuse && Le(n.vote, v));
  }

  /**
   * A candidate that is behind catches up: what a node with a vote of a later term answers makes it give up
   * its campaign and take over that term, so that its next campaign is above it.
   */
  lemma CandidateCatchesUp(x: NodeId, n: Node, y: NodeId, m: Node, refuse: bool) returns (r: Message)
    requires n.candidate.Some? && !n.vote.committed && n.vote.node == x && n.candidate.value.vote == n.vote
    requires n.vote.term < m.vote.term && m.vote.node != x
    ensures r in HandleRequest(y, m, n.vote, refuse).waiting && r.Reply? && r.to == x && !r.granted
    ensures var after := HandleReply(x, n, r);
            && after.vote == m.vote.Uncommitted() && after.candidate.None? && SaveVote(after.vote) in after.queue
            && forall joint :: m.vote.term < StartCampaign(x, after, joint).vote.term
  {
    r := RequestIsAnswered(y, m, n.vote, refuse);
    VotesArePartiallyOrdered(n.vote, m.vote, m.vote.Uncommitted());
    VotesArePartiallyOrdered(n.vote, m.vote.Uncommitted(), m.vote);
    var after := HandleReply(x, n, r);
    assert after.queue[|n.queue|] == SaveVote(after.vote);
  }

  /** A node can restart at any time. It loses nothing that was stored, leaves nothing else and moves nobody else. */
  lemma RestartKeepsStored(s: State, x: NodeId, restore: bool)
    requires x in s.nodes
    ensures Enabled(s, Restart(x, restore))
    ensures var n, t := s.nodes[x], Apply(s, Restart(x, restore));
            var m := Reboot(x, n, restore);
            && t == s.(nodes := s.nodes[x := m])
            && m.durable == n.durable && m.saved == n.saved && m.flushed == n.durable
            && m.queue == [] && m.waiting == {} && m.candidate == None
            && m.vote.term == n.durable.term && m.vote.node == n.durable.node
            && (m.vote.committed <==> n.durable.committed && (restore || n.durable.node != x))
  {}
}
