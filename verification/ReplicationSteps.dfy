/** Runs of log replication, built up one step at a time, and what single steps lead to. */
module ReplicationSteps {
  import opened Quorum
  import opened Votes
  import opened Memberships
  import opened Replication

  // ---- Runs, one step at a time ----

  ghost predicate Leads(s: State, steps: seq<Step>, t: State, forwards: bool) {
    IsRun(s, steps) && Run(s, steps) == t && (forwards ==> IsForward(s, steps))
  }

  ghost predicate Reaches(o: State, t: State, forwards: bool) {
    exists steps :: Leads(o, steps, t, forwards)
  }

  /** A run that takes one more step. */
  lemma {:induction false} LeadsOn(s: State, steps: seq<Step>, t: State, step: Step, forwards: bool)
    requires Leads(s, steps, t, forwards) && Enabled(t, step) && (forwards ==> GoesForward(t, step))
    ensures Leads(s, steps + [step], Apply(t, step), forwards)
    decreases |steps|
  {
    hide Apply;
    hide Enabled;
    hide GoesForward;
    if steps == [] {
      assert s == t && steps + [step] == [step] && [step][1..] == [];
      assert IsRun(s, [step]) && Run(s, [step]) == Apply(s, step);
      assert forwards ==> IsForward(s, [step]);
    } else {
      assert (steps + [step])[1..] == steps[1..] + [step];
      LeadsOn(Apply(s, steps[0]), steps[1..], t, step, forwards);
    }
  }

  lemma ReachesItself(o: State)
    ensures Reaches(o, o, true)
  {
    assert Leads(o, [], o, true);
  }

  lemma StepReaches(o: State, s: State, step: Step, t: State, forwards: bool)
    requires Reaches(o, s, forwards) && Enabled(s, step) && t == Apply(s, step) && (forwards ==> GoesForward(s, step))
    ensures Reaches(o, t, forwards)
  {
    hide Apply;
    hide Enabled;
    hide GoesForward;
    var steps :| Leads(o, steps, s, forwards);
    LeadsOn(o, steps, s, step, forwards);
  }

  lemma StepsTo(o: State, t: State, forwards: bool) returns (steps: seq<Step>)
    requires Reaches(o, t, forwards)
    ensures Leads(o, steps, t, forwards)
  {
    steps :| Leads(o, steps, t, forwards);
  }

  lemma ConfigSnoc(log: Log, e: Entry)
    ensures ConfigEnd(log + [e]) == if e.configs != [] then |log| + 1 else ConfigEnd(log)
    ensures Effective(log + [e]) == if e.configs != [] then e.configs else Effective(log)
  {
    assert (log + [e])[..|log|] == log;
  }

  /** A follower whose whole log is a prefix of the leader's gets the entries after it. */
  lemma AppendsAfter(n: Node, leader: Log, end: nat)
    requires |n.log| < end <= |leader| && n.log == leader[..|n.log|] && n.purged <= n.committed <= |n.log|
    ensures AppendedLog(n, leader, |n.log|, end) == leader[..end] && Consecutive(n, leader, |n.log|)
  {
    var k := |n.log|;
    assert forall i | 0 <= i < k :: n.log[i] == leader[..k][i] == leader[i];
    assert FirstConflict(n, leader, k, end) == k;
    assert leader[..k] + leader[k..end] == leader[..end];
  }

  // ---- One step of each kind ----

  lemma ElectReaches(o: State, s: State, x: NodeId, f: bool)
    requires Reaches(o, s, f) && x in s.nodes && !s.nodes[x].leading && Effective(s.nodes[x].log) != []
    ensures var n := s.nodes[x];
            var v := Vote(n.vote.term + 1, x, false);
            Reaches(o, s.(nodes := s.nodes[x := n.(vote := v, campaigning := true)],
                         requests := s.requests[v := n.log], grants := s.grants[(x, v) := n.log]), f)
  {
    hide Reaches;
    StepReaches(o, s, Elect(x), Apply(s, Elect(x)), f);
  }

  lemma GrantReaches(o: State, s: State, x: NodeId, v: Vote, f: bool)
    requires Reaches(o, s, f) && x in s.nodes && !s.nodes[x].leading && v.node != x && Le(s.nodes[x].vote, v)
    requires v in s.requests && NotBehind(s.requests[v], s.nodes[x].log)
    ensures var n := s.nodes[x];
            Reaches(o, s.(nodes := s.nodes[x := n.(vote := v, campaigning := false)],
                         grants := if (x, v) in s.grants then s.grants else s.grants[(x, v) := n.log]), f)
  {
    hide Reaches;
    assert Follow(s.nodes[x], v) == s.nodes[x].(vote := v, campaigning := false);
    StepReaches(o, s, GrantVote(x, v), Apply(s, GrantVote(x, v)), f);
  }

  /** A candidate wins and stores its committed vote. */
  lemma WinReaches(o: State, s: State, x: NodeId, voters: set<NodeId>, f: bool)
    requires Reaches(o, s, f) && x in s.nodes && s.nodes[x].campaigning && Elected(s, s.nodes[x].vote, voters)
    ensures var n := s.nodes[x];
            Reaches(o, s.(nodes := s.nodes[x := n.(vote := n.vote.Committed(), campaigning := false, leading := true)],
                         leaders := s.leaders[n.vote.term := Leader(x, n.log, n.log, voters)]), f)
  {
    hide Reaches;
    hide Elected;
    var t := Apply(s, Win(x, voters));
    StepReaches(o, s, Win(x, voters), t, f);
    StepReaches(o, t, SaveCommitted(x), Apply(t, SaveCommitted(x)), f);
    assert Apply(t, SaveCommitted(x)).nodes
        == s.nodes[x := s.nodes[x].(vote := s.nodes[x].vote.Committed(), campaigning := false, leading := true)];
  }

  /** A leader proposes an entry and stores it. */
  lemma ProposeReaches(o: State, s: State, x: NodeId, e: Entry, step: Step, f: bool)
    requires Reaches(o, s, f) && IsLeader(s, x) && s.nodes[x].vote.committed
    requires var n := s.nodes[x];
             var l := s.leaders[n.vote.term].log;
             && n.log == l && e.term == n.vote.term
             && match step
                case Propose(y, payload) => y == x && e == Entry(e.term, payload, [])
                case ChangeMembership(y, goal) =>
                  && y == x && 0 < ConfigEnd(l) <= n.committed
                  && e == Entry(e.term, 0, FindCoherent(Effective(l), goal)) && (f ==> Forward(Effective(l), e.configs))
                case _ => false
    ensures var n := s.nodes[x];
            var t := n.vote.term;
            var log := n.log + [e];
            Reaches(o, s.(nodes := s.nodes[x := n.(log := log)], acks := Acked(s.acks, x, t, |log|),
                         leaders := s.leaders[t := s.leaders[t].(log := log)]), f)
  {
    hide Reaches;
    hide FindCoherent;
    hide Effective;
    hide ConfigEnd;
    hide Acked;
    var n := s.nodes[x];
    var log := n.log + [e];
    var t := Apply(s, step);
    assert t == s.(leaders := s.leaders[n.vote.term := s.leaders[n.vote.term].(log := log)]);
    StepReaches(o, s, step, t, f);
    FlushReaches(o, t, x, f);
  }

  /** A leader stores its whole log. */
  lemma FlushReaches(o: State, s: State, x: NodeId, f: bool)
    requires Reaches(o, s, f) && IsLeader(s, x) && s.nodes[x].vote.committed
    requires |s.nodes[x].log| <= |s.leaders[s.nodes[x].vote.term].log|
    ensures var n := s.nodes[x];
            var log := s.leaders[n.vote.term].log;
            Reaches(o, s.(nodes := s.nodes[x := n.(log := log)], acks := Acked(s.acks, x, n.vote.term, |log|)), f)
  {
    hide Reaches;
    hide Acked;
    var n := s.nodes[x];
    var log := s.leaders[n.vote.term].log;
    assert log[..|log|] == log;
    StepReaches(o, s, LocalFlush(x, |log|), Apply(s, LocalFlush(x, |log|)), f);
  }

  /** A follower whose log is a prefix of the leader's stores the rest. */
  lemma AppendReaches(o: State, s: State, x: NodeId, t: nat, f: bool)
    requires Reaches(o, s, f) && x in s.nodes && t in s.leaders && !s.nodes[x].leading && s.leaders[t].node != x
    requires Le(s.nodes[x].vote, Vote(t, s.leaders[t].node, true))
    requires var n, l := s.nodes[x], s.leaders[t].log;
             |n.log| < |l| && n.log == l[..|n.log|] && n.purged <= n.committed <= |n.log|
    ensures var n, l := s.nodes[x], s.leaders[t];
            var m := n.(vote := Vote(t, l.node, true), log := l.log, campaigning := false);
            Reaches(o, s.(nodes := s.nodes[x := m], acks := Acked(s.acks, x, t, |l.log|)), f)
  {
    hide Reaches;
    hide Acked;
    hide AppendedLog;
    hide Consecutive;
    var n, l := s.nodes[x], s.leaders[t].log;
    AppendsAfter(n, l, |l|);
    assert l[..|l|] == l;
    var step := Append(x, t, |n.log|, |l| - |n.log|);
    StepReaches(o, s, step, Apply(s, step), f);
  }

  /** A leader commits its whole log. */
  lemma CommitReaches(o: State, s: State, x: NodeId, quorum: set<NodeId>, f: bool)
    requires Reaches(o, s, f) && IsLeader(s, x)
    requires var t := s.nodes[x].vote.term;
             var l := s.leaders[t].log;
             && l != [] && l[|l| - 1].term == t && IsQuorum(Effective(l), quorum)
             && Committed(s, t) < |l| && s.nodes[x].committed < |l|
             && forall y | y in quorum :: (y, t) in s.acks && |l| <= s.acks[(y, t)]
    ensures var n := s.nodes[x];
            var t := n.vote.term;
            var k := |s.leaders[t].log|;
            Reaches(o, s.(nodes := s.nodes[x := n.(committed := k, source := t)],
                         commits := s.commits[t := Commits(s, t) + [Commit(k, k, quorum)]]), f)
  {
    hide Reaches;
    hide IsQuorum;
    hide Effective;
    var step := LeaderCommit(x, |s.leaders[s.nodes[x].vote.term].log|, quorum);
    StepReaches(o, s, step, Apply(s, step), f);
  }
}
