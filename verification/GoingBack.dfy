/**
 * One run of log replication with four nodes. Up to a point it goes forward: a leader is elected, commits an
 * entry, and changes the membership to a joint one, which is committed. Then the leader goes back to the
 * config it came from, another leader goes on to the new one, and both commit different entries.
 */
module GoingBack {
  import opened Quorum
  import opened Votes
  import opened Memberships
  import opened Replication
  import opened ReplicationSteps

  const OLD: set<NodeId> := {1, 2, 3}

  const NEW: set<NodeId> := {4}

  /** The entries: the initial one, one of the first leader, the joint membership, and what follows it. */
  const E0 := Entry(0, 0, [OLD])
  const E1 := Entry(1, 7, [])
  const JOINT := Entry(1, 0, [OLD, NEW])
  const BACK := Entry(1, 0, [OLD])
  const AHEAD := Entry(2, 0, [NEW])
  const LAST := Entry(3, 9, [])

  const L1: Log := [E0]
  const L2: Log := [E0, E1]
  const L3: Log := [E0, E1, JOINT]
  const L4: Log := [E0, E1, JOINT, BACK]
  const L5: Log := [E0, E1, JOINT, BACK, LAST]
  const M4: Log := [E0, E1, JOINT, AHEAD]

  const V1 := Vote(1, 1, false)
  const V2 := Vote(2, 4, false)
  const V3 := Vote(3, 1, false)

  const CLUSTER := State([OLD], map[1 := FRESH, 2 := FRESH, 3 := FRESH, 4 := FRESH], map[], map[], map[], map[], map[])

  // ---- Memberships and appends in these logs ----

  lemma ConfigsOfLogs()
    ensures ConfigEnd(L1) == 1 && Effective(L1) == [OLD]
    ensures ConfigEnd(L2) == 1 && Effective(L2) == [OLD]
    ensures ConfigEnd(L3) == 3 && Effective(L3) == [OLD, NEW]
    ensures ConfigEnd(L4) == 4 && Effective(L4) == [OLD]
    ensures ConfigEnd(L5) == 4 && Effective(L5) == [OLD]
    ensures ConfigEnd(M4) == 4 && Effective(M4) == [NEW]
  {
    ConfigSnoc([], E0);
    ConfigSnoc(L1, E1);
    ConfigSnoc(L2, JOINT);
    ConfigSnoc(L3, BACK);
    ConfigSnoc(L3, AHEAD);
    ConfigSnoc(L4, LAST);
    assert [] + [E0] == L1 && L1 + [E1] == L2 && L2 + [JOINT] == L3;
    assert L3 + [BACK] == L4 && L3 + [AHEAD] == M4 && L4 + [LAST] == L5;
  }

  lemma Quorums()
    ensures IsQuorum([OLD], {1, 2}) && IsQuorum([OLD, NEW], {1, 2, 4})
    ensures IsQuorum([OLD, NEW], {2, 3, 4}) && IsQuorum([NEW], {4})
    ensures FindCoherent([OLD], NEW) == [OLD, NEW] && FindCoherent([OLD, NEW], OLD) == [OLD]
    ensures FindCoherent([OLD, NEW], NEW) == [NEW]
  {
    assert OLD * {1, 2} == {1, 2} && OLD * {1, 2, 4} == {1, 2} && OLD * {2, 3, 4} == {2, 3};
    assert NEW * {1, 2, 4} == {4} && NEW * {2, 3, 4} == {4} && NEW * {4} == {4} && 4 !in OLD;
  }

  // ---- The run ----

  /** The nodes of a state. */
  ghost predicate Nodes(t: State, a: Node, b: Node, c: Node, d: Node) {
    && t.boot == [OLD] && t.nodes.Keys == {1, 2, 3, 4}
    && t.nodes[1] == a && t.nodes[2] == b && t.nodes[3] == c && t.nodes[4] == d
  }

  ghost predicate Leading(t: State, term: nat, l: Leader) {
    term in t.leaders && t.leaders[term] == l
  }

  /** Node 1 is initialized and starts a campaign. */
  lemma ACampaignStarts() returns (t: State)
    ensures Reaches(CLUSTER, t, true) && Nodes(t, Node(V1, L1, 0, 0, 0, true, false), FRESH, FRESH, FRESH)
    ensures t.leaders == map[] && t.acks == map[] && t.commits == map[]
    ensures t.requests == map[V1 := L1] && t.grants == map[(1, V1) := L1]
  {
    ConfigsOfLogs();
    hide Effective;
    assert Leads(CLUSTER, [], CLUSTER, true);
    hide Reaches;
    var s := CLUSTER.(nodes := CLUSTER.nodes[1 := FRESH.(log := L1)]);
    StepReaches(CLUSTER, CLUSTER, Initialize(1), s, true);
    ElectReaches(CLUSTER, s, 1, true);
    t := s.(nodes := s.nodes[1 := Node(V1, L1, 0, 0, 0, true, false)],
            requests := map[V1 := L1], grants := map[(1, V1) := L1]);
  }

  /** Node 2 grants its vote, and node 1 leads term 1. */
  lemma ALeaderIsElected() returns (t: State)
    ensures Reaches(CLUSTER, t, true)
    ensures Nodes(t, Node(V1.Committed(), L1, 0, 0, 0, false, true),
                  Node(V1, [], 0, 0, 0, false, false),
                  FRESH,
                  FRESH)
    ensures Leading(t, 1, Leader(1, L1, L1, {1, 2}))
    ensures t.acks == map[] && t.commits == map[]
  {
    ConfigsOfLogs();
    Quorums();
    hide IsQuorum;
    hide Effective;
    hide ConfigEnd;
    hide FindCoherent;
    hide Reaches;
    t := ACampaignStarts();
    GrantReaches(CLUSTER, t, 2, V1, true);
    t := t.(nodes := t.nodes[2 := t.nodes[2].(vote := V1, campaigning := false)],
            grants := if (2, V1) in t.grants then t.grants else t.grants[(2, V1) := t.nodes[2].log]);
    WinReaches(CLUSTER, t, 1, {1, 2}, true);
    var n := t.nodes[1];
    t := t.(nodes := t.nodes[1 := n.(vote := n.vote.Committed(), campaigning := false, leading := true)],
            leaders := t.leaders[n.vote.term := Leader(1, n.log, n.log, {1, 2})]);
  }

  /** The leader proposes an entry and stores it, and so does node 2. */
  lemma AnEntryIsProposed() returns (t: State)
    ensures Reaches(CLUSTER, t, true)
    ensures Nodes(t, Node(V1.Committed(), L2, 0, 0, 0, false, true),
                  Node(V1.Committed(), L2, 0, 0, 0, false, false),
                  FRESH,
                  FRESH)
    ensures Leading(t, 1, Leader(1, L1, L2, {1, 2}))
    ensures t.acks == map[(1, 1) := 2, (2, 1) := 2] && t.commits == map[]
  {
    ConfigsOfLogs();
    Quorums();
    hide IsQuorum;
    hide Effective;
    hide ConfigEnd;
    hide FindCoherent;
    hide Reaches;
    t := ALeaderIsElected();
    ProposeReaches(CLUSTER, t, 1, E1, Propose(1, 7), true);
    assert t.nodes[1].log + [E1] == L2;
    t := t.(nodes := t.nodes[1 := t.nodes[1].(log := L2)], acks := Acked(t.acks, 1, 1, |L2|),
            leaders := t.leaders[1 := t.leaders[1].(log := L2)]);
    assert L2[..0] == [];
    AppendReaches(CLUSTER, t, 2, 1, true);
    t := t.(nodes := t.nodes[2 := t.nodes[2].(vote := Vote(1, 1, true), log := L2, campaigning := false)],
            acks := Acked(t.acks, 2, 1, |L2|));
  }

  /** The leader commits the entry. */
  lemma AnEntryIsCommitted() returns (t: State)
    ensures Reaches(CLUSTER, t, true)
    ensures Nodes(t, Node(V1.Committed(), L2, 2, 1, 0, false, true),
                  Node(V1.Committed(), L2, 0, 0, 0, false, false),
                  FRESH,
                  FRESH)
    ensures Leading(t, 1, Leader(1, L1, L2, {1, 2}))
    ensures t.acks == map[(1, 1) := 2, (2, 1) := 2]
    ensures Committed(t, 1) == 2 && Committed(t, 2) == 0 && Committed(t, 3) == 0
  {
    ConfigsOfLogs();
    Quorums();
    hide IsQuorum;
    hide Effective;
    hide ConfigEnd;
    hide FindCoherent;
    hide Reaches;
    t := AnEntryIsProposed();
    CommitReaches(CLUSTER, t, 1, {1, 2}, true);
    t := t.(nodes := t.nodes[1 := t.nodes[1].(committed := 2, source := 1)],
            commits := t.commits[1 := Commits(t, 1) + [Commit(2, 2, {1, 2})]]);
  }

  /** Node 3 gets it by a snapshot. */
  lemma ASnapshotIsInstalled() returns (t: State)
    ensures Reaches(CLUSTER, t, true)
    ensures Nodes(t, Node(V1.Committed(), L2, 2, 1, 0, false, true),
                  Node(V1.Committed(), L2, 0, 0, 0, false, false),
                  Node(V1.Committed(), L2, 2, 1, 2, false, false),
                  FRESH)
    ensures Leading(t, 1, Leader(1, L1, L2, {1, 2}))
    ensures t.acks == map[(1, 1) := 2, (2, 1) := 2, (3, 1) := 2]
    ensures Committed(t, 1) == 2 && Committed(t, 2) == 0 && Committed(t, 3) == 0
  {
    ConfigsOfLogs();
    Quorums();
    hide IsQuorum;
    hide Effective;
    hide ConfigEnd;
    hide FindCoherent;
    hide Reaches;
    t := AnEntryIsCommitted();
    var s := t;
    assert L2[..2] == L2 && FRESH.log == [];
    t := s.(nodes := s.nodes[3 := Node(V1.Committed(), L2, 2, 1, 2, false, false)], acks := Acked(s.acks, 3, 1, 2));
    StepReaches(CLUSTER, s, InstallSnapshot(3, 1, 1, 2), t, true);
  }

  /** The leader proposes the joint membership and stores it, and so does node 2. */
  lemma AMembershipIsProposed() returns (t: State)
    ensures Reaches(CLUSTER, t, true)
    ensures Nodes(t, Node(V1.Committed(), L3, 2, 1, 0, false, true),
                  Node(V1.Committed(), L3, 0, 0, 0, false, false),
                  Node(V1.Committed(), L2, 2, 1, 2, false, false),
                  FRESH)
    ensures Leading(t, 1, Leader(1, L1, L3, {1, 2}))
    ensures t.acks == map[(1, 1) := 3, (2, 1) := 3, (3, 1) := 2]
    ensures Committed(t, 1) == 2 && Committed(t, 2) == 0 && Committed(t, 3) == 0
  {
    ConfigsOfLogs();
    Quorums();
    hide IsQuorum;
    hide Effective;
    hide ConfigEnd;
    hide FindCoherent;
    hide Reaches;
    t := ASnapshotIsInstalled();
    ProposeReaches(CLUSTER, t, 1, JOINT, ChangeMembership(1, NEW), true);
    assert t.nodes[1].log + [JOINT] == L3;
    t := t.(nodes := t.nodes[1 := t.nodes[1].(log := L3)], acks := Acked(t.acks, 1, 1, |L3|),
            leaders := t.leaders[1 := t.leaders[1].(log := L3)]);
    assert L3[..2] == L2;
    AppendReaches(CLUSTER, t, 2, 1, true);
    t := t.(nodes := t.nodes[2 := t.nodes[2].(vote := Vote(1, 1, true), log := L3, campaigning := false)],
            acks := Acked(t.acks, 2, 1, |L3|));
  }

  /** So do nodes 3 and 4. */
  lemma AMembershipIsStored() returns (t: State)
    ensures Reaches(CLUSTER, t, true)
    ensures Nodes(t, Node(V1.Committed(), L3, 2, 1, 0, false, true),
                  Node(V1.Committed(), L3, 0, 0, 0, false, false),
                  Node(V1.Committed(), L3, 2, 1, 2, false, false),
                  Node(V1.Committed(), L3, 0, 0, 0, false, false))
    ensures Leading(t, 1, Leader(1, L1, L3, {1, 2}))
    ensures t.acks == map[(1, 1) := 3, (2, 1) := 3, (3, 1) := 3, (4, 1) := 3]
    ensures Committed(t, 1) == 2 && Committed(t, 2) == 0 && Committed(t, 3) == 0
  {
    ConfigsOfLogs();
    Quorums();
    hide IsQuorum;
    hide Effective;
    hide ConfigEnd;
    hide FindCoherent;
    hide Reaches;
    t := AMembershipIsProposed();
    assert L3[..2] == L2;
    AppendReaches(CLUSTER, t, 3, 1, true);
    t := t.(nodes := t.nodes[3 := t.nodes[3].(vote := Vote(1, 1, true), log := L3, campaigning := false)],
            acks := Acked(t.acks, 3, 1, |L3|));
    assert L3[..0] == [];
    AppendReaches(CLUSTER, t, 4, 1, true);
    t := t.(nodes := t.nodes[4 := t.nodes[4].(vote := Vote(1, 1, true), log := L3, campaigning := false)],
            acks := Acked(t.acks, 4, 1, |L3|));
  }

  /** The leader commits the joint membership. */
  lemma AMembershipIsCommitted() returns (t: State)
    ensures Reaches(CLUSTER, t, true)
    ensures Nodes(t, Node(V1.Committed(), L3, 3, 1, 0, false, true),
                  Node(V1.Committed(), L3, 0, 0, 0, false, false),
                  Node(V1.Committed(), L3, 2, 1, 2, false, false),
                  Node(V1.Committed(), L3, 0, 0, 0, false, false))
    ensures Leading(t, 1, Leader(1, L1, L3, {1, 2}))
    ensures t.acks == map[(1, 1) := 3, (2, 1) := 3, (3, 1) := 3, (4, 1) := 3]
    ensures Committed(t, 1) == 3 && Committed(t, 2) == 0 && Committed(t, 3) == 0
  {
    ConfigsOfLogs();
    Quorums();
    hide IsQuorum;
    hide Effective;
    hide ConfigEnd;
    hide FindCoherent;
    hide Reaches;
    t := AMembershipIsStored();
    CommitReaches(CLUSTER, t, 1, {1, 2, 4}, true);
    t := t.(nodes := t.nodes[1 := t.nodes[1].(committed := 3, source := 1)],
            commits := t.commits[1 := Commits(t, 1) + [Commit(3, 3, {1, 2, 4})]]);
  }

  /** Node 4 learns of it. */
  lemma ANewVoterCommits() returns (t: State)
    ensures Reaches(CLUSTER, t, true)
    ensures Nodes(t, Node(V1.Committed(), L3, 3, 1, 0, false, true),
                  Node(V1.Committed(), L3, 0, 0, 0, false, false),
                  Node(V1.Committed(), L3, 2, 1, 2, false, false),
                  Node(V1.Committed(), L3, 3, 1, 0, false, false))
    ensures Leading(t, 1, Leader(1, L1, L3, {1, 2}))
    ensures Committed(t, 1) == 3 && Committed(t, 2) == 0 && Committed(t, 3) == 0
    ensures forall a | a in t.acks :: a.1 == 1
  {
    ConfigsOfLogs();
    Quorums();
    hide IsQuorum;
    hide Effective;
    hide ConfigEnd;
    hide FindCoherent;
    hide Reaches;
    t := AMembershipIsCommitted();
    var s := t;
    assert L3[..3] == L3 && NotBehind(L3, L3);
    t := s.(nodes := s.nodes[4 := s.nodes[4].(committed := 3, source := 1)]);
    StepReaches(CLUSTER, s, FollowerCommit(4, 1), t, true);
  }

  /** A forward run in which a membership is changed and committed, on the leader and on a new voter. */
  lemma AMembershipGetsCommitted() returns (steps: seq<Step>)
    ensures Init(CLUSTER) && IsRun(CLUSTER, steps) && IsForward(CLUSTER, steps)
    ensures var t := Run(CLUSTER, steps);
            && 1 in t.nodes && 4 in t.nodes && t.nodes[1].committed == 3 && t.nodes[4].committed == 3
            && t.nodes[4].log == L3
  {
    var t := ANewVoterCommits();
    steps := StepsTo(CLUSTER, t, true);
  }

  lemma AnyRun(t: State)
    requires Reaches(CLUSTER, t, true)
    ensures Reaches(CLUSTER, t, false)
  {
    var steps := StepsTo(CLUSTER, t, true);
    assert Leads(CLUSTER, steps, t, false);
  }

  /** The leader proposes to go back, and stores that alone. */
  lemma TheLeaderGoesBack() returns (t: State)
    ensures Reaches(CLUSTER, t, false)
    ensures Nodes(t, Node(V1.Committed(), L4, 3, 1, 0, false, true),
                  Node(V1.Committed(), L3, 0, 0, 0, false, false),
                  Node(V1.Committed(), L3, 2, 1, 2, false, false),
                  Node(V1.Committed(), L3, 3, 1, 0, false, false))
    ensures Leading(t, 1, Leader(1, L1, L4, {1, 2}))
    ensures Committed(t, 1) == 3 && Committed(t, 2) == 0 && Committed(t, 3) == 0
    ensures forall a | a in t.acks :: a.1 == 1
  {
    ConfigsOfLogs();
    Quorums();
    hide IsQuorum;
    hide Effective;
    hide ConfigEnd;
    hide FindCoherent;
    hide Reaches;
    t := ANewVoterCommits();
    AnyRun(t);
    ProposeReaches(CLUSTER, t, 1, BACK, ChangeMembership(1, OLD), false);
    assert t.nodes[1].log + [BACK] == L4;
    t := t.(nodes := t.nodes[1 := t.nodes[1].(log := L4)], acks := Acked(t.acks, 1, 1, |L4|),
            leaders := t.leaders[1 := t.leaders[1].(log := L4)]);
  }

  /** Node 4 starts a campaign in term 2, and node 2 grants its vote. */
  lemma AnotherCampaignStarts() returns (t: State)
    ensures Reaches(CLUSTER, t, false)
    ensures Nodes(t, Node(V1.Committed(), L4, 3, 1, 0, false, true),
                  Node(V2, L3, 0, 0, 0, false, false),
                  Node(V1.Committed(), L3, 2, 1, 2, false, false),
                  Node(V2, L3, 3, 1, 0, true, false))
    ensures Leading(t, 1, Leader(1, L1, L4, {1, 2}))
    ensures Committed(t, 1) == 3 && Committed(t, 2) == 0 && Committed(t, 3) == 0
    ensures forall a | a in t.acks :: a.1 == 1
    ensures V2 in t.requests && t.requests[V2] == L3 && (4, V2) in t.grants && (2, V2) in t.grants
  {
    ConfigsOfLogs();
    Quorums();
    hide IsQuorum;
    hide Effective;
    hide ConfigEnd;
    hide FindCoherent;
    hide Reaches;
    t := TheLeaderGoesBack();
    ElectReaches(CLUSTER, t, 4, false);
    t := t.(nodes := t.nodes[4 := t.nodes[4].(vote := V2, campaigning := true)],
            requests := t.requests[V2 := L3], grants := t.grants[(4, V2) := L3]);
    GrantReaches(CLUSTER, t, 2, V2, false);
    t := t.(nodes := t.nodes[2 := t.nodes[2].(vote := V2, campaigning := false)],
            grants := if (2, V2) in t.grants then t.grants else t.grants[(2, V2) := t.nodes[2].log]);
  }

  /** With the vote of node 3 it leads term 2. */
  lemma AnotherLeaderIsElected() returns (t: State)
    ensures Reaches(CLUSTER, t, false)
    ensures Nodes(t, Node(V1.Committed(), L4, 3, 1, 0, false, true),
                  Node(V2, L3, 0, 0, 0, false, false),
                  Node(V2, L3, 2, 1, 2, false, false),
                  Node(V2.Committed(), L3, 3, 1, 0, false, true))
    ensures Leading(t, 1, Leader(1, L1, L4, {1, 2}))
    ensures Leading(t, 2, Leader(4, L3, L3, {2, 3, 4}))
    ensures Committed(t, 1) == 3 && Committed(t, 2) == 0 && Committed(t, 3) == 0
    ensures forall a | a in t.acks :: a.1 == 1
  {
    ConfigsOfLogs();
    Quorums();
    hide IsQuorum;
    hide Effective;
    hide ConfigEnd;
    hide FindCoherent;
    hide Reaches;
    t := AnotherCampaignStarts();
    GrantReaches(CLUSTER, t, 3, V2, false);
    t := t.(nodes := t.nodes[3 := t.nodes[3].(vote := V2, campaigning := false)],
            grants := if (3, V2) in t.grants then t.grants else t.grants[(3, V2) := t.nodes[3].log]);
    WinReaches(CLUSTER, t, 4, {2, 3, 4}, false);
    var n := t.nodes[4];
    t := t.(nodes := t.nodes[4 := n.(vote := n.vote.Committed(), campaigning := false, leading := true)],
            leaders := t.leaders[n.vote.term := Leader(4, n.log, n.log, {2, 3, 4})]);
  }

  /** It goes on to the new config and stores that. */
  lemma AnotherLeaderGoesAhead() returns (t: State)
    ensures Reaches(CLUSTER, t, false)
    ensures Nodes(t, Node(V1.Committed(), L4, 3, 1, 0, false, true),
                  Node(V2, L3, 0, 0, 0, false, false),
                  Node(V2, L3, 2, 1, 2, false, false),
                  Node(V2.Committed(), M4, 3, 1, 0, false, true))
    ensures Leading(t, 1, Leader(1, L1, L4, {1, 2}))
    ensures Leading(t, 2, Leader(4, L3, M4, {2, 3, 4}))
    ensures Committed(t, 1) == 3 && Committed(t, 2) == 0 && Committed(t, 3) == 0
    ensures (4, 2) in t.acks && t.acks[(4, 2)] == 4 && forall a | a in t.acks :: a.1 <= 2
  {
    ConfigsOfLogs();
    Quorums();
    hide IsQuorum;
    hide Effective;
    hide ConfigEnd;
    hide FindCoherent;
    hide Reaches;
    t := AnotherLeaderIsElected();
    ProposeReaches(CLUSTER, t, 4, AHEAD, ChangeMembership(4, NEW), false);
    assert t.nodes[4].log + [AHEAD] == M4;
    t := t.(nodes := t.nodes[4 := t.nodes[4].(log := M4)], acks := Acked(t.acks, 4, 2, |M4|),
            leaders := t.leaders[2 := t.leaders[2].(log := M4)]);
  }

  /** It alone is a quorum of the new config, and commits. */
  lemma AnotherLeaderCommits() returns (t: State)
    ensures Reaches(CLUSTER, t, false)
    ensures Nodes(t, Node(V1.Committed(), L4, 3, 1, 0, false, true),
                  Node(V2, L3, 0, 0, 0, false, false),
                  Node(V2, L3, 2, 1, 2, false, false),
                  Node(V2.Committed(), M4, 4, 2, 0, false, true))
    ensures Leading(t, 1, Leader(1, L1, L4, {1, 2}))
    ensures Leading(t, 2, Leader(4, L3, M4, {2, 3, 4}))
    ensures Committed(t, 3) == 0
    ensures forall a | a in t.acks :: a.1 <= 2
  {
    ConfigsOfLogs();
    Quorums();
    hide IsQuorum;
    hide Effective;
    hide ConfigEnd;
    hide FindCoherent;
    hide Reaches;
    t := AnotherLeaderGoesAhead();
    CommitReaches(CLUSTER, t, 4, {4}, false);
    t := t.(nodes := t.nodes[4 := t.nodes[4].(committed := 4, source := 2)],
            commits := t.commits[2 := Commits(t, 2) + [Commit(4, 4, {4})]]);
  }

  /** Node 1 purges its log and restarts. */
  lemma TheLeaderRestarts() returns (t: State)
    ensures Reaches(CLUSTER, t, false)
    ensures Nodes(t, Node(V1.Committed(), L4, 3, 1, 2, false, false),
                  Node(V2, L3, 0, 0, 0, false, false),
                  Node(V2, L3, 2, 1, 2, false, false),
                  Node(V2.Committed(), M4, 4, 2, 0, false, true))
    ensures Leading(t, 2, Leader(4, L3, M4, {2, 3, 4}))
    ensures Committed(t, 3) == 0
    ensures forall a | a in t.acks :: a.1 <= 2
  {
    ConfigsOfLogs();
    Quorums();
    hide IsQuorum;
    hide Effective;
    hide ConfigEnd;
    hide FindCoherent;
    hide Reaches;
    t := AnotherLeaderCommits();
    var s := t;
    t := s.(nodes := s.nodes[1 := s.nodes[1].(purged := 2)]);
    StepReaches(CLUSTER, s, Purge(1, 2), t, false);
    s := t;
    t := s.(nodes := s.nodes[1 := s.nodes[1].(leading := false)]);
    StepReaches(CLUSTER, s, Restart(1, 3), t, false);
  }

  /** It campaigns in term 2, which it was not part of, and then in term 3. */
  lemma TheLeaderCampaigns() returns (t: State)
    ensures Reaches(CLUSTER, t, false)
    ensures Nodes(t, Node(V3, L4, 3, 1, 2, true, false),
                  Node(V2, L3, 0, 0, 0, false, false),
                  Node(V2, L3, 2, 1, 2, false, false),
                  Node(V2.Committed(), M4, 4, 2, 0, false, true))
    ensures Leading(t, 2, Leader(4, L3, M4, {2, 3, 4}))
    ensures Committed(t, 3) == 0
    ensures forall a | a in t.acks :: a.1 <= 2
    ensures V3 in t.requests && t.requests[V3] == L4 && (1, V3) in t.grants
  {
    ConfigsOfLogs();
    Quorums();
    hide IsQuorum;
    hide Effective;
    hide ConfigEnd;
    hide FindCoherent;
    hide Reaches;
    t := TheLeaderRestarts();
    var v := Vote(2, 1, false);
    ElectReaches(CLUSTER, t, 1, false);
    t := t.(nodes := t.nodes[1 := t.nodes[1].(vote := v, campaigning := true)],
            requests := t.requests[v := L4], grants := t.grants[(1, v) := L4]);
    ElectReaches(CLUSTER, t, 1, false);
    t := t.(nodes := t.nodes[1 := t.nodes[1].(vote := V3, campaigning := true)],
            requests := t.requests[V3 := L4], grants := t.grants[(1, V3) := L4]);
  }

  /** With the vote of node 2 it leads term 3. */
  lemma TheLeaderIsBack() returns (t: State)
    ensures Reaches(CLUSTER, t, false)
    ensures Nodes(t, Node(V3.Committed(), L4, 3, 1, 2, false, true),
                  Node(V3, L3, 0, 0, 0, false, false),
                  Node(V2, L3, 2, 1, 2, false, false),
                  Node(V2.Committed(), M4, 4, 2, 0, false, true))
    ensures Leading(t, 2, Leader(4, L3, M4, {2, 3, 4}))
    ensures Leading(t, 3, Leader(1, L4, L4, {1, 2}))
    ensures Committed(t, 3) == 0
    ensures forall a | a in t.acks :: a.1 <= 2
  {
    ConfigsOfLogs();
    Quorums();
    hide IsQuorum;
    hide Effective;
    hide ConfigEnd;
    hide FindCoherent;
    hide Reaches;
    t := TheLeaderCampaigns();
    GrantReaches(CLUSTER, t, 2, V3, false);
    t := t.(nodes := t.nodes[2 := t.nodes[2].(vote := V3, campaigning := false)],
            grants := if (2, V3) in t.grants then t.grants else t.grants[(2, V3) := t.nodes[2].log]);
    WinReaches(CLUSTER, t, 1, {1, 2}, false);
    var n := t.nodes[1];
    t := t.(nodes := t.nodes[1 := n.(vote := n.vote.Committed(), campaigning := false, leading := true)],
            leaders := t.leaders[n.vote.term := Leader(1, n.log, n.log, {1, 2})]);
  }

  /** It proposes an entry and stores it, and so does node 2. */
  lemma TheLeaderProposes() returns (t: State)
    ensures Reaches(CLUSTER, t, false)
    ensures Nodes(t, Node(V3.Committed(), L5, 3, 1, 2, false, true),
                  Node(V3.Committed(), L5, 0, 0, 0, false, false),
                  Node(V2, L3, 2, 1, 2, false, false),
                  Node(V2.Committed(), M4, 4, 2, 0, false, true))
    ensures Leading(t, 2, Leader(4, L3, M4, {2, 3, 4}))
    ensures Leading(t, 3, Leader(1, L4, L5, {1, 2}))
    ensures Committed(t, 3) == 0 && (1, 3) in t.acks && t.acks[(1, 3)] == 5 && (2, 3) in t.acks && t.acks[(2, 3)] == 5
  {
    ConfigsOfLogs();
    Quorums();
    hide IsQuorum;
    hide Effective;
    hide ConfigEnd;
    hide FindCoherent;
    hide Reaches;
    t := TheLeaderIsBack();
    ProposeReaches(CLUSTER, t, 1, LAST, Propose(1, 9), false);
    assert t.nodes[1].log + [LAST] == L5;
    t := t.(nodes := t.nodes[1 := t.nodes[1].(log := L5)], acks := Acked(t.acks, 1, 3, |L5|),
            leaders := t.leaders[3 := t.leaders[3].(log := L5)]);
    assert L5[..3] == L3;
    AppendReaches(CLUSTER, t, 2, 3, false);
    t := t.(nodes := t.nodes[2 := t.nodes[2].(vote := Vote(3, 1, true), log := L5, campaigning := false)],
            acks := Acked(t.acks, 2, 3, |L5|));
  }

  /** The two are a quorum of the old config, and it commits. */
  lemma TheLeaderCommits() returns (t: State)
    ensures Reaches(CLUSTER, t, false)
    ensures Nodes(t, Node(V3.Committed(), L5, 5, 3, 2, false, true),
                  Node(V3.Committed(), L5, 0, 0, 0, false, false),
                  Node(V2, L3, 2, 1, 2, false, false),
                  Node(V2.Committed(), M4, 4, 2, 0, false, true))
    ensures Leading(t, 2, Leader(4, L3, M4, {2, 3, 4}))
    ensures Leading(t, 3, Leader(1, L4, L5, {1, 2}))
  {
    ConfigsOfLogs();
    Quorums();
    hide IsQuorum;
    hide Effective;
    hide ConfigEnd;
    hide FindCoherent;
    hide Reaches;
    t := TheLeaderProposes();
    CommitReaches(CLUSTER, t, 1, {1, 2}, false);
    t := t.(nodes := t.nodes[1 := t.nodes[1].(committed := 5, source := 3)],
            commits := t.commits[3 := Commits(t, 3) + [Commit(5, 5, {1, 2})]]);
  }

  /** A run that goes back once from a joint membership, in which two nodes have committed different entries. */
  lemma GoingBackLosesACommit() returns (steps: seq<Step>)
    ensures Init(CLUSTER) && IsRun(CLUSTER, steps)
    ensures var t := Run(CLUSTER, steps);
            && 1 in t.nodes && 4 in t.nodes && 3 < t.nodes[1].committed && 3 < t.nodes[4].committed
            && WorkLog(t, t.nodes[1]) == L5 && WorkLog(t, t.nodes[4]) == M4 && L5[3] != M4[3]
  {
    var t := TheLeaderCommits();
    steps := StepsTo(CLUSTER, t, false);
  }
}
