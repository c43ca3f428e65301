/**
 * Replication is never stuck: after every run that goes forward, a node whose stored log is not behind those of a
 * quorum of its own membership can become leader and commit a new entry, together with all of its log.
 */
module CommitProgress {
  import opened Quorum
  import opened Votes
  import opened Replication
  import opened ReplicationSteps
  import opened Completeness
  import opened Preservation

  lemma ReachedIsSafe(o: State, t: State)
    requires Inv(o) && Reaches(o, t, true)
    ensures Inv(t)
  {
    hide Inv;
    var steps := StepsTo(o, t, true);
    RunIsSafe(o, steps);
  }

  // ---- Restarts ----

  /** A node that has restarted with what it stores. */
  function Restarted(n: Node): Node {
    n.(committed := n.purged, campaigning := false, leading := false)
  }

  lemma {:induction false} AllRestart(o: State, s: State, ids: set<NodeId>) returns (t: State)
    requires Inv(o) && Reaches(o, s, true) && ids <= s.nodes.Keys
    ensures Reaches(o, t, true) && t == s.(nodes := t.nodes) && t.nodes.Keys == s.nodes.Keys
    ensures forall y | y in s.nodes :: t.nodes[y] == if y in ids then Restarted(s.nodes[y]) else s.nodes[y]
    decreases |ids|
  {
    hide Reaches;
    hide Inv;
    t := s;
    if ids != {} {
      var y :| y in ids;
      var mid := s.(nodes := s.nodes[y := Restarted(s.nodes[y])]);
      ReachedIsSafe(o, s);
      RestartIsEnabled(s, y);
      StepReaches(o, s, Restart(y, s.nodes[y].purged), mid, true);
      t := AllRestart(o, mid, ids - {y});
    }
  }

  // ---- A campaign ----

  /** The candidate has started a campaign for `v`. */
  ghost predicate Campaigns(s: State, x: NodeId, v: Vote) {
    && x in s.nodes && v.node == x && !v.committed && s.nodes[x].vote == v && s.nodes[x].campaigning
    && v in s.requests && s.requests[v] == s.nodes[x].log && (x, v) in s.grants
  }

  /** Only votes, campaigns and grants changed. */
  ghost predicate OnlyVotes(s: State, t: State) {
    && t.nodes.Keys == s.nodes.Keys && t.leaders == s.leaders && t.acks == s.acks && t.commits == s.commits
    && (forall y | y in s.nodes ::
          t.nodes[y] == s.nodes[y].(vote := t.nodes[y].vote, campaigning := t.nodes[y].campaigning))
  }

  lemma {:induction false} CampaignAbove(o: State, s: State, x: NodeId, term: nat) returns (t: State, v: Vote)
    requires Reaches(o, s, true) && x in s.nodes && !s.nodes[x].leading && Effective(s.nodes[x].log) != []
    ensures Reaches(o, t, true) && OnlyVotes(s, t) && Campaigns(t, x, v) && term < v.term
    ensures forall y | y in s.nodes && y != x :: t.nodes[y] == s.nodes[y]
    decreases term - s.nodes[x].vote.term
  {
    hide Reaches;
    hide Effective;
    var n := s.nodes[x];
    v := Vote(n.vote.term + 1, x, false);
    ElectReaches(o, s, x, true);
    t := s.(nodes := s.nodes[x := n.(vote := v, campaigning := true)],
            requests := s.requests[v := n.log], grants := s.grants[(x, v) := n.log]);
    if v.term <= term {
      t, v := CampaignAbove(o, t, x, term);
    }
  }

  lemma VoterGrants(o: State, s: State, x: NodeId, v: Vote, y: NodeId) returns (t: State)
    requires Reaches(o, s, true) && Campaigns(s, x, v) && y in s.nodes && y != x
    requires !s.nodes[y].leading && s.nodes[y].vote.term < v.term && NotBehind(s.nodes[x].log, s.nodes[y].log)
    ensures Reaches(o, t, true) && OnlyVotes(s, t) && Campaigns(t, x, v) && (y, v) in t.grants && t.nodes[y].vote == v
    ensures forall z | z in s.nodes && z != y :: t.nodes[z] == s.nodes[z]
    ensures forall g | g in s.grants :: g in t.grants
  {
    hide Reaches;
    hide NotBehind;
    var n := s.nodes[y];
    VotesArePartiallyOrdered(n.vote, v, v);
    GrantReaches(o, s, y, v, true);
    t := s.(nodes := s.nodes[y := n.(vote := v, campaigning := false)],
            grants := if (y, v) in s.grants then s.grants else s.grants[(y, v) := n.log]);
  }

  /** A node whose stored log is not ahead, and whose vote is of an earlier term, may vote. */
  ghost predicate MayVote(s: State, x: NodeId, v: Vote, y: NodeId) {
    && x in s.nodes && y in s.nodes && y != x && !s.nodes[y].leading && s.nodes[y].vote.term < v.term
    && NotBehind(s.nodes[x].log, s.nodes[y].log)
  }

  lemma {:induction false} VotersGrant(o: State, s: State, x: NodeId, v: Vote, voters: set<NodeId>) returns (t: State)
    requires Reaches(o, s, true) && Campaigns(s, x, v) && forall y | y in voters :: MayVote(s, x, v, y)
    ensures Reaches(o, t, true) && OnlyVotes(s, t) && Campaigns(t, x, v)
    ensures forall y | y in voters :: (y, v) in t.grants && y in t.nodes && t.nodes[y].vote == v
    ensures forall y | y in s.nodes && y !in voters :: t.nodes[y] == s.nodes[y]
    ensures forall g | g in s.grants :: g in t.grants
    decreases |voters|
  {
    hide Reaches;
    hide NotBehind;
    if voters == {} {
      t := s;
    } else {
      var y :| y in voters;
      assert MayVote(s, x, v, y);
      var mid := VoterGrants(o, s, x, v, y);
      var others := voters - {y};
      forall z | z in others ensures MayVote(mid, x, v, z) {
        assert MayVote(s, x, v, z) && mid.nodes[z] == s.nodes[z];
      }
      hide MayVote;
      hide Campaigns;
      t := VotersGrant(o, mid, x, v, others);
    }
  }

  // ---- A leader ----

  /** Node `x` leads term `t` with the log `log`, all of which it has stored, and nothing of which is committed. */
  ghost predicate LeadsWith(s: State, x: NodeId, t: nat, log: Log) {
    && IsLeader(s, x) && s.nodes[x].vote == Vote(t, x, true) && s.nodes[x].log == log && s.leaders[t].node == x
    && s.leaders[t].log == log && s.nodes[x].committed < |log| && Committed(s, t) == 0
    && (x, t) in s.acks && |log| <= s.acks[(x, t)]
  }

  /** A candidate with a quorum of votes leads, and proposes and stores an entry. */
  lemma LeaderProposes(o: State, s: State, x: NodeId, v: Vote, quorum: set<NodeId>, payload: nat) returns (t: State)
    requires Inv(o) && Reaches(o, s, true) && Campaigns(s, x, v) && Elected(s, v, quorum)
    requires s.nodes[x].committed <= |s.nodes[x].log|
    ensures Reaches(o, t, true) && t.nodes.Keys == s.nodes.Keys
    ensures LeadsWith(t, x, v.term, s.nodes[x].log + [Entry(v.term, payload, [])])
    ensures forall y | y in s.nodes && y != x :: t.nodes[y] == s.nodes[y]
  {
    hide Reaches;
    hide Inv;
    hide Elected;
    var n := s.nodes[x];
    var e := Entry(v.term, payload, []);
    ReachedIsSafe(o, s);
    NothingCommitted(s, x, quorum);
    WinReaches(o, s, x, quorum, true);
    var mid := s.(nodes := s.nodes[x := n.(vote := v.Committed(), campaigning := false, leading := true)],
                  leaders := s.leaders[v.term := Leader(x, n.log, n.log, quorum)]);
    ProposeReaches(o, mid, x, e, Propose(x, payload), true);
    var log := n.log + [e];
    t := mid.(nodes := mid.nodes[x := mid.nodes[x].(log := log)], acks := Acked(mid.acks, x, v.term, |log|),
              leaders := mid.leaders[v.term := mid.leaders[v.term].(log := log)]);
  }

  lemma NothingCommitted(s: State, x: NodeId, voters: set<NodeId>)
    requires Inv(s) && Enabled(s, Win(x, voters))
    ensures Committed(s, s.nodes[x].vote.term) == 0
  {
    hide Inv;
    hide Elected;
    var t := s.nodes[x].vote.term;
    TermIsNew(s, x, voters);
    if Commits(s, t) != [] {
      CommitFact(s, t, 0);
    }
  }

  /** A follower that voted for the leader. */
  ghost predicate HasVoted(s: State, x: NodeId, t: nat, y: NodeId) {
    y in s.nodes && y != x && !s.nodes[y].leading && s.nodes[y].vote == Vote(t, x, false)
  }

  /** A follower has stored and acknowledged the log. */
  ghost predicate HasStored(s: State, t: nat, log: Log, y: NodeId) {
    y in s.nodes && Agree(s.nodes[y].log, log, |log|) && (y, t) in s.acks && |log| <= s.acks[(y, t)]
  }

  lemma FollowerStores(o: State, s: State, x: NodeId, t: nat, log: Log, y: NodeId) returns (s': State)
    requires Inv(o) && Reaches(o, s, true) && LeadsWith(s, x, t, log) && HasVoted(s, x, t, y)
    ensures Reaches(o, s', true) && LeadsWith(s', x, t, log) && HasStored(s', t, log, y)
    ensures s' == s.(nodes := s'.nodes, acks := s'.acks) && s'.nodes.Keys == s.nodes.Keys
    ensures forall z | z in s.nodes && z != y :: s'.nodes[z] == s.nodes[z]
    ensures forall a | a in s.acks :: a in s'.acks && s.acks[a] <= s'.acks[a]
  {
    hide Reaches;
    hide Inv;
    hide Agree;
    ReachedIsSafe(o, s);
    VotesArePartiallyOrdered(Vote(t, x, false), Vote(t, x, true), Vote(t, x, true));
    s' := FollowerCatchesUp(s, y, t);
    StepReaches(o, s, Append(y, t, 0, |log|), s', true);
    AcksGrow(s.acks, y, t, |log|);
  }

  /** The followers store and acknowledge the whole log. */
  lemma {:induction false} FollowersStore(o: State, s: State, x: NodeId, t: nat, log: Log, followers: set<NodeId>)
    returns (s': State)
    requires Inv(o) && Reaches(o, s, true) && LeadsWith(s, x, t, log)
    requires forall y | y in followers :: HasVoted(s, x, t, y)
    ensures Reaches(o, s', true) && LeadsWith(s', x, t, log) && s'.nodes.Keys == s.nodes.Keys
    ensures forall y | y in followers || HasStored(s, t, log, y) :: HasStored(s', t, log, y)
    decreases |followers|
  {
    hide Reaches;
    hide Inv;
    hide Agree;
    if followers == {} {
      s' := s;
    } else {
      var y :| y in followers;
      var mid := FollowerStores(o, s, x, t, log, y);
      hide LeadsWith;
      s' := FollowersStore(o, mid, x, t, log, followers - {y});
    }
  }

  // ---- The theorem ----

  lemma {:induction false} TermsAreBounded(s: State, ids: set<NodeId>) returns (term: nat)
    requires ids <= s.nodes.Keys
    ensures forall y | y in ids :: s.nodes[y].vote.term <= term
    decreases |ids|
  {
    term := 0;
    if ids != {} {
      var y :| y in ids;
      term := TermsAreBounded(s, ids - {y});
      term := if term < s.nodes[y].vote.term then s.nodes[y].vote.term else term;
    }
  }

  /** The leader of term `t` has committed exactly this log, and the nodes of a quorum have stored it. */
  ghost predicate HasCommitted(s: State, x: NodeId, t: nat, log: Log, quorum: set<NodeId>) {
    && IsLeader(s, x) && s.nodes[x].vote.term == t && s.leaders[t].node == x && s.leaders[t].log == log
    && Committed(s, t) == |log| == s.nodes[x].committed
    && forall y | y in quorum :: y in s.nodes && Agree(s.nodes[y].log, log, |log|)
  }

  lemma LeaderIsElected(o: State, s: State, x: NodeId, quorum: set<NodeId>, payload: nat) returns (t: State, v: Vote)
    requires Inv(o) && Reaches(o, s, true) && x in s.nodes && quorum <= s.nodes.Keys && Effective(s.nodes[x].log) != []
    requires IsQuorum(Effective(s.nodes[x].log), quorum) && s.nodes[x].committed <= |s.nodes[x].log|
    requires forall y | y in quorum + {x} :: !s.nodes[y].leading && NotBehind(s.nodes[x].log, s.nodes[y].log)
    ensures Reaches(o, t, true) && t.nodes.Keys == s.nodes.Keys
    ensures LeadsWith(t, x, v.term, s.nodes[x].log + [Entry(v.term, payload, [])])
    ensures forall y | y in quorum && y != x :: HasVoted(t, x, v.term, y)
  {
    hide Reaches;
    hide Inv;
    hide NotBehind;
    hide IsQuorum;
    hide Effective;
    var term := TermsAreBounded(s, s.nodes.Keys);
    var s1;
    s1, v := CampaignAbove(o, s, x, term);
    forall y | y in quorum - {x} ensures MayVote(s1, x, v, y) {
      assert s1.nodes[y] == s.nodes[y];
    }
    var s2 := VotersGrant(o, s1, x, v, quorum - {x});
    assert Elected(s2, v, quorum);
    t := LeaderProposes(o, s2, x, v, quorum, payload);
  }

  /**
   * After every forward run, if the stored logs of a quorum of the membership of node `x` are not ahead of its
   * own, it can become leader and commit its log with a new entry.
   */
  lemma CommitCanSucceed(s: State, before: seq<Step>, x: NodeId, quorum: set<NodeId>, payload: nat)
    returns (after: seq<Step>, t: nat)
    requires Init(s) && IsRun(s, before) && IsForward(s, before)
    requires var mid := Run(s, before);
             && x in mid.nodes && quorum <= mid.nodes.Keys && Effective(mid.nodes[x].log) != []
             && IsQuorum(Effective(mid.nodes[x].log), quorum)
             && forall y | y in quorum :: NotBehind(mid.nodes[x].log, mid.nodes[y].log)
    ensures IsRun(Run(s, before), after) && IsForward(Run(s, before), after)
    ensures HasCommitted(Run(Run(s, before), after), x, t,
                         Run(s, before).nodes[x].log + [Entry(t, payload, [])], quorum)
  {
    hide Inv;
    hide Reaches;
    hide NotBehind;
    hide IsQuorum;
    hide Effective;
    hide Enabled;
    hide Apply;
    hide GoesForward;
    hide HasCommitted;
    InitIsSafe(s);
    RunIsSafe(s, before);
    var mid := Run(s, before);
    ReachesItself(mid);
    var s1 := AllRestart(mid, mid, quorum + {x});
    StoredIsEnough(mid, x);
    NotBehindItself(mid.nodes[x].log);
    var s2, v := LeaderIsElected(mid, s1, x, quorum, payload);
    t := v.term;
    var log := mid.nodes[x].log + [Entry(t, payload, [])];
    ConfigSnoc(mid.nodes[x].log, Entry(t, payload, []));
    var s3 := FollowersStore(mid, s2, x, t, log, quorum - {x});
    var s4 := LeaderCommitsAll(mid, s3, x, t, log, quorum);
    after := StepsTo(mid, s4, true);
  }

  lemma StoredIsEnough(s: State, x: NodeId)
    requires Inv(s) && x in s.nodes
    ensures s.nodes[x].purged <= |s.nodes[x].log|
  {
    hide Inv;
    NodeFact(s, x);
  }

  lemma NotBehindItself(log: Log)
    ensures NotBehind(log, log)
  {}

  lemma LeaderCommitsAll(o: State, s: State, x: NodeId, t: nat, log: Log, quorum: set<NodeId>) returns (s': State)
    requires Reaches(o, s, true) && LeadsWith(s, x, t, log) && quorum <= s.nodes.Keys
    requires log != [] && log[|log| - 1].term == t && IsQuorum(Effective(log), quorum)
    requires forall y | y in quorum && y != x :: HasStored(s, t, log, y)
    ensures Reaches(o, s', true) && HasCommitted(s', x, t, log, quorum)
  {
    hide Reaches;
    hide IsQuorum;
    hide Effective;
    CommitReaches(o, s, x, quorum, true);
    var n := s.nodes[x];
    var c := Commit(|log|, |log|, quorum);
    s' := s.(nodes := s.nodes[x := n.(committed := |log|, source := t)],
             commits := s.commits[t := Commits(s, t) + [c]]);
    CommitIsAdded(s, s', t, c);
  }

  // ---- Catching up ----

  /** A leader stores its vote and its log. */
  lemma LeaderSettles(o: State, s: State, x: NodeId) returns (s': State)
    requires Inv(o) && Reaches(o, s, true) && IsLeader(s, x)
    ensures Reaches(o, s', true) && x in s'.nodes && s' == s.(nodes := s.nodes[x := s'.nodes[x]], acks := s'.acks)
    ensures var n := s.nodes[x];
            s'.nodes[x] == n.(vote := n.vote.Committed(), log := s.leaders[n.vote.term].log)
    ensures s.leaders[s.nodes[x].vote.term].node == x && s.nodes[x].vote.node == x
  {
    hide Inv;
    hide Reaches;
    hide Acked;
    ReachedIsSafe(o, s);
    NodeFact(s, x);
    var n := s.nodes[x];
    var mid := s.(nodes := s.nodes[x := n.(vote := n.vote.Committed())]);
    StepReaches(o, s, SaveCommitted(x), mid, true);
    FlushReaches(o, mid, x, true);
    var log := s.leaders[n.vote.term].log;
    s' := mid.(nodes := mid.nodes[x := mid.nodes[x].(log := log)], acks := Acked(mid.acks, x, n.vote.term, |log|));
  }

  /** A node that is not ahead of a leader can come to follow it, even if it still leads itself. */
  lemma NodeStepsDown(o: State, s: State, x: NodeId, t: nat) returns (s': State)
    requires Inv(o) && Reaches(o, s, true) && x in s.nodes && t in s.leaders && s.leaders[t].node != x
    requires Le(s.nodes[x].vote, Vote(t, s.leaders[t].node, true))
    ensures Reaches(o, s', true) && x in s'.nodes && s' == s.(nodes := s.nodes[x := s'.nodes[x]], acks := s'.acks)
    ensures var n := s'.nodes[x];
            !n.leading && n.vote == Vote(t, s.leaders[t].node, true) && n.committed == s.nodes[x].committed
    ensures Follows(s', x, t)
  {
    hide Inv;
    hide Reaches;
    var v := Vote(t, s.leaders[t].node, true);
    var mid := s;
    if IsLeader(s, x) {
      mid := LeaderSettles(o, s, x);
    }
    assert Settled(mid, mid.nodes[x]) && Le(mid.nodes[x].vote, v);
    s' := mid.(nodes := mid.nodes[x := Follow(mid.nodes[x], v)]);
    StepReaches(o, mid, Observe(x, v), s', true);
  }

  /** It has all that the leader has, and knows what the leader has committed. */
  ghost predicate HasCaughtUp(s: State, s': State, x: NodeId, t: nat) {
    && x in s.nodes && x in s'.nodes && t in s.leaders && s'.leaders == s.leaders
    && Agree(s'.nodes[x].log, s.leaders[t].log, |s.leaders[t].log|)
    && s'.nodes[x].committed == Max(s.nodes[x].committed, Committed(s, t))
  }

  lemma FollowerHasCaughtUp(o: State, s: State, x: NodeId, t: nat) returns (s': State)
    requires Inv(o) && Reaches(o, s, true) && Follows(s, x, t) && s.leaders[t].node != x
    ensures Reaches(o, s', true) && HasCaughtUp(s, s', x, t)
  {
    hide Inv;
    hide Reaches;
    hide Agree;
    hide AppendedLog;
    hide LesserById;
    hide IsQuorum;
    hide Consecutive;
    ReachedIsSafe(o, s);
    var mid := FollowerCatchesUp(s, x, t);
    StepReaches(o, s, Append(x, t, 0, |s.leaders[t].log|), mid, true);
    s' := mid;
    if 0 < Committed(s, t) {
      CommitFact(s, t, |Commits(s, t)| - 1);
      s' := AllIsCommitted(mid, x, t);
      StepReaches(o, mid, FollowerCommit(x, t), s', true);
    }
  }

  /**
   * After every forward run, a node that is not ahead of a leader can get all of the leader's log and learn what
   * is committed of it, whatever it has stored and even if it still leads itself.
   */
  lemma NodeCanCatchUp(s: State, before: seq<Step>, x: NodeId, t: nat) returns (after: seq<Step>)
    requires Init(s) && IsRun(s, before) && IsForward(s, before)
    requires var mid := Run(s, before);
             && x in mid.nodes && t in mid.leaders && mid.leaders[t].node != x
             && Le(mid.nodes[x].vote, Vote(t, mid.leaders[t].node, true))
    ensures IsRun(Run(s, before), after) && IsForward(Run(s, before), after)
    ensures HasCaughtUp(Run(s, before), Run(Run(s, before), after), x, t)
  {
    hide Inv;
    hide Reaches;
    hide Agree;
    hide Enabled;
    hide Apply;
    hide GoesForward;
    InitIsSafe(s);
    RunIsSafe(s, before);
    var mid := Run(s, before);
    ReachesItself(mid);
    var s1 := NodeStepsDown(mid, mid, x, t);
    var s2 := FollowerHasCaughtUp(mid, s1, x, t);
    after := StepsTo(mid, s2, true);
  }
}
