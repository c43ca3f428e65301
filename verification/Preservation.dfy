/** Every step of log replication keeps the invariant, and so committed entries are permanent in every run. */
module Preservation {
  import opened Quorum
  import opened Votes
  import opened Memberships
  import opened Replication
  import opened Completeness

  // ---- Preservation ----

  ghost predicate LeadersGrow(s: State, s': State) {
    s'.boot == s.boot && forall t | t in s.leaders ::
      t in s'.leaders && s'.leaders[t].node == s.leaders[t].node && s'.leaders[t].initial == s.leaders[t].initial
      && s'.leaders[t].voters == s.leaders[t].voters && Agree(s'.leaders[t].log, s.leaders[t].log, |s.leaders[t].log|)
  }

  /** What no step takes back. */
  ghost predicate Grows(s: State, s': State) {
    && LeadersGrow(s, s')
    && s.nodes.Keys == s'.nodes.Keys && (forall x | x in s.nodes :: Le(s.nodes[x].vote, s'.nodes[x].vote))
    && (forall v | v in s.requests :: v in s'.requests && s'.requests[v] == s.requests[v])
    && (forall g | g in s.grants :: g in s'.grants && s'.grants[g] == s.grants[g])
    && (forall a | a in s.acks :: a in s'.acks && s.acks[a] <= s'.acks[a])
    && CommitsGrow(s, s')
  }

  ghost predicate CommitsGrow(s: State, s': State) {
    forall t: nat :: Commits(s, t) <= Commits(s', t) && Committed(s, t) <= Committed(s', t)
  }

  /** Every commit is an old one or a proper new one. */
  ghost predicate CommitsFit(s: State, s': State) {
    && (forall t: nat, k: nat | IsCommit(s', t, k) :: CommitOk(s', t, k) || IsCommit(s, t, k))
    && (forall t: nat :: CommitsAscend(s', t) || Commits(s', t) == Commits(s, t))
  }

  lemma CommitsStay(s: State, s': State)
    requires s'.commits == s.commits
    ensures CommitsGrow(s, s') && CommitsFit(s, s')
  {}

  lemma LogKept(s: State, s': State, log: Log)
    requires LeadersGrow(s, s') && LogOk(s, log)
    ensures LogOk(s', log)
  {
    forall i | 0 <= i < |log| ensures EntryOk(s', log, i) {
      assert EntryOk(s, log, i);
    }
  }

  lemma ReachedRises(u: nat, v: Vote, v': Vote)
    requires Reached(u, v) && Le(v, v')
    ensures Reached(u, v') && (!v'.committed ==> u < v'.term)
  {}

  lemma MissesKept(s: State, s': State, t: nat, k: nat, u: nat)
    requires LeadersGrow(s, s') && Misses(s, t, k, u) && k <= |s.leaders[t].log|
    ensures Misses(s', t, k, u)
  {}

  lemma BrokenKept(s: State, s': State, t: nat, k: nat, vote: Vote, vote': Vote)
    requires LeadersGrow(s, s') && Broken(s, t, k, vote) && Le(vote, vote') && t in s.leaders && k <= |s.leaders[t].log|
    ensures Broken(s', t, k, vote')
  {
    hide Misses;
    var u: nat :| Misses(s, t, k, u) && Reached(u, vote);
    MissesKept(s, s', t, k, u);
    ReachedRises(u, vote, vote');
  }

  lemma LeaderKept(s: State, s': State, t: nat)
    requires Grows(s, s') && LeaderOk(s, t) && s'.leaders[t] == s.leaders[t]
    ensures LeaderOk(s', t)
  {
    hide LogOk;
    hide IsQuorum;
    var l := s.leaders[t];
    LogKept(s, s', l.log);
    VotesArePartiallyOrdered(Vote(t, l.node, false), s.nodes[l.node].vote, s'.nodes[l.node].vote);
  }

  lemma RequestKept(s: State, s': State, v: Vote)
    requires Grows(s, s') && RequestOk(s, v)
    ensures RequestOk(s', v)
  {
    hide LogOk;
    LogKept(s, s', s.requests[v]);
    VotesArePartiallyOrdered(v, s.nodes[v.node].vote, s'.nodes[v.node].vote);
  }

  lemma GrantKept(s: State, s': State, g: (NodeId, Vote))
    requires Grows(s, s') && GrantOk(s, g)
    ensures GrantOk(s', g)
  {
    hide LogOk;
    LogKept(s, s', s.grants[g]);
    VotesArePartiallyOrdered(g.1, s.nodes[g.0].vote, s'.nodes[g.0].vote);
  }

  /** An acknowledgement survives a step that keeps what the log has of it, or meets a leader without it. */
  lemma AckKept(s: State, s': State, a: (NodeId, nat))
    requires Grows(s, s') && AckOk(s, a) && s'.acks[a] == s.acks[a]
    requires forall k: nat | k <= s.acks[a] && Agree(s.nodes[a.0].log, s.leaders[a.1].log, k) ::
               Agree(s'.nodes[a.0].log, s.leaders[a.1].log, k) || Broken(s', a.1, k, s'.nodes[a.0].vote)
    ensures AckOk(s', a)
  {
    hide Broken;
    var n, n' := s.nodes[a.0], s'.nodes[a.0];
    ReachedRises(a.1, n.vote, n'.vote);
    forall k: nat | k <= s.acks[a] ensures Agree(n'.log, s'.leaders[a.1].log, k) || Broken(s', a.1, k, n'.vote) {
      if !Agree(n.log, s.leaders[a.1].log, k) {
        BrokenKept(s, s', a.1, k, n.vote, n'.vote);
      }
    }
  }

  lemma VoterKept(s: State, s': State, a: (NodeId, nat), g: (NodeId, Vote))
    requires Grows(s, s') && VoterOk(s, a, g) && AckOk(s, a) && g in s.grants && s'.acks[a] == s.acks[a]
    ensures VoterOk(s', a, g)
  {
    if a.0 == g.0 && a.1 < g.1.term {
      forall k: nat | k <= s.acks[a]
        ensures Agree(s'.grants[g], s'.leaders[a.1].log, k) || BrokenBefore(s', a.1, k, g.1.term)
      {
        if !Agree(s.grants[g], s.leaders[a.1].log, k) {
          var u: nat :| Misses(s, a.1, k, u) && u < g.1.term;
          MissesKept(s, s', a.1, k, u);
        }
      }
    }
  }

  lemma CommitKept(s: State, s': State, t: nat, k: nat)
    requires Grows(s, s') && CommitOk(s, t, k)
    ensures CommitOk(s', t, k)
  {
    hide IsQuorum;
    var c := Commits(s, t)[k];
    assert c == Commits(s', t)[k];
    assert s'.leaders[t].log[..c.size] == s.leaders[t].log[..c.size];
  }

  lemma ConfigKept(s: State, s': State, t: nat, i: nat)
    requires LeadersGrow(s, s') && CommitsGrow(s, s') && ConfigOk(s, t, i)
    ensures ConfigOk(s', t, i)
  {
    hide ConfigEnd;
    hide ByChange;
    hide DirectlyAppendable;
    hide Forward;
    var l, l' := s.leaders[t].log, s'.leaders[t].log;
    assert l'[..i] == l[..i] && l'[i] == l[i];
    var end := ConfigEnd(l[..i]);
    var u: nat, k: nat :| CommittedBy(s, t, end, i, u, k);
    assert CommittedBy(s', t, end, i, u, k) by { CommittedByKept(s, s', t, end, i, u, k); }
    if HasOwnCommit(s, t, i) {
      var j: nat :| IsCommit(s, t, j) && Commits(s, t)[j].size <= i;
      assert IsCommit(s', t, j) && Commits(s', t)[j] == Commits(s, t)[j];
    }
  }

  lemma CommittedByKept(s: State, s': State, t: nat, end: nat, i: nat, u: nat, k: nat)
    requires LeadersGrow(s, s') && CommitsGrow(s, s') && CommittedBy(s, t, end, i, u, k)
    ensures CommittedBy(s', t, end, i, u, k)
  {
    assert Commits(s', u)[k] == Commits(s, u)[k];
  }

  lemma ConfigsKept(s: State, s': State, t: nat)
    requires LeadersGrow(s, s') && CommitsGrow(s, s') && ConfigsOk(s, t) && s'.leaders[t] == s.leaders[t]
    ensures ConfigsOk(s', t)
  {
    hide ConfigOk;
    forall i | |s.leaders[t].initial| <= i < |s.leaders[t].log| && s.leaders[t].log[i].configs != []
      ensures ConfigOk(s', t, i)
    {
      ConfigKept(s, s', t, i);
    }
  }


  /** No leader that is new in `s'` is `x`. */
  ghost predicate NotElected(s: State, s': State, x: NodeId) {
    forall t | t in s'.leaders && t !in s.leaders :: s'.leaders[t].node != x
  }

  lemma NodeKept(s: State, s': State, x: NodeId, n: Node)
    requires Grows(s, s') && NodeOk(s, x, n) && NotElected(s, s', x)
    ensures NodeOk(s', x, n)
  {
    hide LogOk;
    LogKept(s, s', n.log);
  }

  /** A step keeps the invariant if it keeps it for whatever it adds or changes. */
  lemma StepKeeps(s: State, s': State)
    requires Inv(s) && Grows(s, s')
    requires forall x | x in s'.nodes ::
               NodeOk(s', x, s'.nodes[x]) || (s'.nodes[x] == s.nodes[x] && NotElected(s, s', x))
    requires forall t | t in s'.leaders ::
               (LeaderOk(s', t) && ConfigsOk(s', t)) || (t in s.leaders && s'.leaders[t] == s.leaders[t])
    requires forall v | v in s'.requests && v !in s.requests :: RequestOk(s', v)
    requires forall g | g in s'.grants && g !in s.grants :: GrantOk(s', g)
    requires forall g, h | g in s'.grants && h in s'.grants && g !in s.grants :: SameVote(g, h)
    requires forall a | a in s'.acks ::
               AckOk(s', a) || (a in s.acks && s'.acks[a] == s.acks[a] && s'.nodes[a.0].log == s.nodes[a.0].log)
    requires forall a, g | a in s'.acks && g in s'.grants ::
               VoterOk(s', a, g) || (a in s.acks && g in s.grants && s'.acks[a] == s.acks[a])
    requires CommitsFit(s, s')
    ensures Inv(s')
  {
    hide NodeOk;
    hide LeaderOk;
    hide RequestOk;
    hide GrantOk;
    hide AckOk;
    hide VoterOk;
    hide CommitOk;
    hide ConfigsOk;
    hide Broken;
    forall x | x in s'.nodes ensures NodeOk(s', x, s'.nodes[x]) {
      if !NodeOk(s', x, s'.nodes[x]) { NodeKept(s, s', x, s.nodes[x]); }
    }
    forall t | t in s'.leaders ensures LeaderOk(s', t) && ConfigsOk(s', t) {
      if !(LeaderOk(s', t) && ConfigsOk(s', t)) {
        LeaderKept(s, s', t);
        ConfigsKept(s, s', t);
      }
    }
    forall v | v in s'.requests ensures RequestOk(s', v) {
      if v in s.requests { RequestKept(s, s', v); }
    }
    forall g | g in s'.grants ensures GrantOk(s', g) {
      if g in s.grants { GrantKept(s, s', g); }
    }
    forall g, h | g in s'.grants && h in s'.grants ensures SameVote(g, h) {
      assert SameVote(h, g) ==> SameVote(g, h);
    }
    forall a | a in s'.acks ensures AckOk(s', a) {
      if !AckOk(s', a) { AckKept(s, s', a); }
    }
    forall a, g | a in s'.acks && g in s'.grants ensures VoterOk(s', a, g) {
      if !VoterOk(s', a, g) { VoterKept(s, s', a, g); }
    }
    forall t: nat, k: nat | IsCommit(s', t, k) ensures CommitOk(s', t, k) {
      if !CommitOk(s', t, k) { CommitKept(s, s', t, k); }
    }
    forall t: nat ensures CommitsAscend(s', t) {
      if Commits(s', t) == Commits(s, t) { assert CommitsAscend(s, t); }
    }
  }

  // ---- Votes ----

  lemma VotesRise(s: State, s': State, x: NodeId)
    requires x in s.nodes && s'.nodes.Keys == s.nodes.Keys && Le(s.nodes[x].vote, s'.nodes[x].vote)
    requires forall y | y in s.nodes && y != x :: s'.nodes[y] == s.nodes[y]
    ensures forall y | y in s.nodes :: Le(s.nodes[y].vote, s'.nodes[y].vote)
  {
    forall y | y in s.nodes ensures Le(s.nodes[y].vote, s'.nodes[y].vote) {
      VotesArePartiallyOrdered(s.nodes[y].vote, s.nodes[y].vote, s.nodes[y].vote);
    }
  }

  lemma LeadersStay(s: State, s': State)
    requires s'.leaders == s.leaders && s'.boot == s.boot
    ensures LeadersGrow(s, s')
  {}

  /** A settled node that takes over a vote keeps its log and what it knows to be committed. */
  lemma NodeWithVote(s: State, x: NodeId, n: Node, v: Vote)
    requires NodeOk(s, x, n) && Settled(s, n) && Le(n.vote, v)
    requires v.committed ==> v.term in s.leaders && s.leaders[v.term].node == v.node
    ensures NodeOk(s, x, Follow(n, v))
  {
    hide LogOk;
    hide Agree;
    forall i | 0 <= i < |n.log| ensures n.log[i].term == 0 || Reached(n.log[i].term, v) {
      if n.log[i].term != 0 { ReachedRises(n.log[i].term, n.vote, v); }
    }
  }

  /** A node that starts a campaign with the log it has. */
  lemma CandidateIsOk(s: State, x: NodeId, n: Node)
    requires NodeOk(s, x, n) && !n.leading && n.vote.node == x && n.vote in s.requests && s.requests[n.vote] == n.log
    requires n.vote.term in s.leaders ==> s.leaders[n.vote.term].node != x
    ensures NodeOk(s, x, n.(campaigning := true))
  {
    hide LogOk;
    hide Agree;
  }

  /** What a node acknowledged is in the log it votes with, unless a leader without it had come along before. */
  lemma VoterIsOk(s: State, s': State, a: (NodeId, nat), g: (NodeId, Vote))
    requires AckOk(s, a) && LeadersGrow(s, s') && s'.acks == s.acks
    requires !g.1.committed && g.0 in s.nodes && Le(s.nodes[g.0].vote, g.1)
    requires g in s'.grants && s'.grants[g] == s.nodes[g.0].log
    ensures VoterOk(s', a, g)
  {
    if a.0 == g.0 && a.1 < g.1.term {
      var n := s.nodes[a.0];
      forall k: nat | k <= s.acks[a]
        ensures Agree(s'.grants[g], s'.leaders[a.1].log, k) || BrokenBefore(s', a.1, k, g.1.term)
      {
        if !Agree(n.log, s.leaders[a.1].log, k) {
          var u: nat :| Misses(s, a.1, k, u) && Reached(u, n.vote);
          MissesKept(s, s', a.1, k, u);
          ReachedRises(u, n.vote, g.1);
        }
      }
    }
  }

  /** A voter grants one vote per term. */
  lemma NewGrantIsOnly(s: State, x: NodeId, v: Vote, h: (NodeId, Vote))
    requires GrantOk(s, h) && x in s.nodes && Le(s.nodes[x].vote, v) && !v.committed
    ensures SameVote((x, v), h)
  {
    if h.0 == x {
      VotesArePartiallyOrdered(h.1, s.nodes[x].vote, v);
    }
  }

  lemma SameIsSame(g: (NodeId, Vote))
    ensures SameVote(g, g)
  {}

  /** A step in which `x` takes over vote `v`, and may start a campaign for it or grant it. */
  lemma VoteStepKeeps(s: State, s': State, x: NodeId, v: Vote, m: Node)
    requires Inv(s) && x in s.nodes && Le(s.nodes[x].vote, v) && m.vote == v && m.log == s.nodes[x].log
    requires s' == s.(nodes := s.nodes[x := m], requests := s'.requests, grants := s'.grants)
    requires forall w | w in s.requests :: w in s'.requests && s'.requests[w] == s.requests[w]
    requires forall w | w in s'.requests && w !in s.requests :: RequestOk(s', w)
    requires forall g | g in s.grants :: g in s'.grants && s'.grants[g] == s.grants[g]
    requires forall g | g in s'.grants && g !in s.grants ::
               g == (x, v) && !v.committed && s'.grants[g] == m.log && GrantOk(s', g)
    requires NodeOk(s', x, m)
    ensures Inv(s')
  {
    hide Inv;
    hide NodeOk;
    hide LeaderOk;
    hide RequestOk;
    hide GrantOk;
    hide AckOk;
    hide VoterOk;
    hide CommitOk;
    hide SameVote;
    hide Agree;
    hide CommitsFit;
    hide ConfigsOk;
    LeadersStay(s, s');
    CommitsStay(s, s');
    hide LeadersGrow;
    hide CommitsGrow;
    VotesRise(s, s', x);
    assert Grows(s, s');
    AcksAreByNodes(s);
    forall g, h | g in s'.grants && h in s'.grants && g !in s.grants ensures SameVote(g, h) {
      if h in s.grants {
        GrantFact(s, h);
        NewGrantIsOnly(s, x, v, h);
      } else {
        SameIsSame(g);
      }
    }
    forall a, g | a in s'.acks && g in s'.grants && g !in s.grants ensures VoterOk(s', a, g) {
      AckFact(s, a);
      VoterIsOk(s, s', a, g);
    }
    StepKeeps(s, s');
  }

  lemma AcksAreByNodes(s: State)
    requires Inv(s)
    ensures forall a | a in s.acks :: a.0 in s.nodes
  {
    hide Inv;
    forall a | a in s.acks ensures a.0 in s.nodes { AckFact(s, a); }
  }

  /** A campaign is new: nobody has seen a vote of a later term of this node. */
  lemma CampaignIsNew(s: State, x: NodeId, v: Vote)
    requires Inv(s) && x in s.nodes && v == Vote(s.nodes[x].vote.term + 1, x, false)
    ensures v !in s.requests && (x, v) !in s.grants
    ensures v.term in s.leaders ==> s.leaders[v.term].node != x
  {
    hide Inv;
    hide IsQuorum;
    hide LogOk;
    if v in s.requests { RequestFact(s, v); assert false; }
    if (x, v) in s.grants { GrantFact(s, (x, v)); assert false; }
    if v.term in s.leaders { LeaderFact(s, v.term); }
  }

  lemma ElectKeeps(s: State, x: NodeId)
    requires Inv(s) && Enabled(s, Elect(x))
    ensures Inv(Apply(s, Elect(x)))
  {
    hide Inv;
    hide NodeOk;
    CampaignIsNew(s, x, Vote(s.nodes[x].vote.term + 1, x, false));
    NodeFact(s, x);
    ElectStep(s, Apply(s, Elect(x)), x, Vote(s.nodes[x].vote.term + 1, x, false));
  }

  lemma ElectStep(s: State, s': State, x: NodeId, v: Vote)
    requires Inv(s) && x in s.nodes && NodeOk(s, x, s.nodes[x]) && Settled(s, s.nodes[x])
    requires Effective(s.nodes[x].log) != []
    requires v == Vote(s.nodes[x].vote.term + 1, x, false) && v !in s.requests && (x, v) !in s.grants
    requires v.term in s.leaders ==> s.leaders[v.term].node != x
    requires var n := s.nodes[x];
             s' == s.(nodes := s.nodes[x := Follow(n, v).(campaigning := true)],
                      requests := s.requests[v := n.log], grants := s.grants[(x, v) := n.log])
    ensures Inv(s')
  {
    hide Inv;
    hide LogOk;
    hide Agree;
    var n := s.nodes[x];
    NodeWithVote(s, x, n, v);
    LeadersStay(s, s');
    LogKept(s, s', n.log);
    VotesArePartiallyOrdered(v, v, v);
    assert NodeOk(s', x, Follow(n, v)) by { SameHistory(s, s', x, Follow(n, v)); }
    assert RequestOk(s', v);
    assert GrantOk(s', (x, v));
    hide NodeOk;
    CandidateIsOk(s', x, Follow(n, v));
    VoteStepKeeps(s, s', x, v, s'.nodes[x]);
  }

  /** What is said of a node does not depend on other nodes, grants or acknowledgements. */
  lemma SameHistory(s: State, s': State, x: NodeId, n: Node)
    requires NodeOk(s, x, n) && s'.leaders == s.leaders && s'.boot == s.boot
    requires forall v | v in s.requests :: v in s'.requests && s'.requests[v] == s.requests[v]
    requires CommitsGrow(s, s')
    ensures NodeOk(s', x, n)
  {
    hide LogOk;
    hide Agree;
    LeadersStay(s, s');
    LogKept(s, s', n.log);
  }

  lemma GrantVoteKeeps(s: State, x: NodeId, v: Vote)
    requires Inv(s) && Enabled(s, GrantVote(x, v))
    ensures Inv(Apply(s, GrantVote(x, v)))
  {
    hide Inv;
    hide LogOk;
    hide Agree;
    var n, s' := s.nodes[x], Apply(s, GrantVote(x, v));
    NodeFact(s, x);
    RequestFact(s, v);
    LeadersStay(s, s');
    LogKept(s, s', n.log);
    VotesArePartiallyOrdered(v, v, v);
    NodeWithVote(s, x, n, v);
    SameHistory(s, s', x, Follow(n, v));
    VoteStepKeeps(s, s', x, v, Follow(n, v));
  }

  lemma ObserveKeeps(s: State, x: NodeId, v: Vote)
    requires Inv(s) && Enabled(s, Observe(x, v))
    ensures Inv(Apply(s, Observe(x, v)))
  {
    hide Inv;
    hide NodeOk;
    var n, s' := s.nodes[x], Apply(s, Observe(x, v));
    NodeFact(s, x);
    NodeWithVote(s, x, n, v);
    SameHistory(s, s', x, Follow(n, v));
    VoteStepKeeps(s, s', x, v, Follow(n, v));
  }

  // ---- Steps of one node ----

  /** Everything that is not about `x`, its leadership or its acknowledgements stays as it is. */
  ghost predicate OnlyChanges(s: State, s': State, x: NodeId) {
    && x in s.nodes && s'.nodes.Keys == s.nodes.Keys
    && (forall y | y in s.nodes && y != x :: s'.nodes[y] == s.nodes[y])
    && s'.requests == s.requests && s'.grants == s.grants && Grows(s, s')
    && (forall t | t in s'.leaders && t !in s.leaders :: s'.leaders[t].node == x)
    && (forall a | a in s'.acks && a.0 != x :: a in s.acks && s'.acks[a] == s.acks[a])
  }

  /** A step of `x` that starts no campaign and grants no vote keeps the invariant if it keeps it for `x`. */
  lemma NodeStepKeeps(s: State, s': State, x: NodeId)
    requires Inv(s) && OnlyChanges(s, s', x) && NodeOk(s', x, s'.nodes[x])
    requires forall t | t in s'.leaders ::
               (LeaderOk(s', t) && ConfigsOk(s', t)) || (t in s.leaders && s'.leaders[t] == s.leaders[t])
    requires forall a | a in s'.acks && a.0 == x ::
               AckOk(s', a) || (a in s.acks && s'.acks[a] == s.acks[a] && s'.nodes[x].log == s.nodes[x].log)
    requires forall a, g | a in s'.acks && g in s.grants ::
               VoterOk(s', a, g) || (a in s.acks && s'.acks[a] == s.acks[a])
    requires CommitsFit(s, s')
    ensures Inv(s')
  {
    hide Inv;
    hide NodeOk;
    hide LeaderOk;
    hide AckOk;
    hide VoterOk;
    hide CommitOk;
    hide CommitsFit;
    hide ConfigsOk;
    hide Agree;
    AcksAreByNodes(s);
    StepKeeps(s, s');
  }

  /** A step in which only the node `x` changes, and its log only grows. */
  lemma LocalStepKeeps(s: State, x: NodeId, m: Node)
    requires Inv(s) && x in s.nodes && Le(s.nodes[x].vote, m.vote)
    requires Agree(m.log, s.nodes[x].log, |s.nodes[x].log|)
    requires NodeOk(s.(nodes := s.nodes[x := m]), x, m)
    ensures Inv(s.(nodes := s.nodes[x := m]))
  {
    hide Inv;
    hide NodeOk;
    hide LeaderOk;
    hide AckOk;
    hide VoterOk;
    hide CommitOk;
    hide CommitsFit;
    hide ConfigsOk;
    var s' := s.(nodes := s.nodes[x := m]);
    LeadersStay(s, s');
    CommitsStay(s, s');
    hide LeadersGrow;
    hide CommitsGrow;
    VotesRise(s, s', x);
    assert OnlyChanges(s, s', x);
    forall a | a in s'.acks ensures AckOk(s', a) {
      AckFact(s, a);
      LongerLogKeepsAck(s, s', x, a);
    }
    hide Agree;
    NodeStepKeeps(s, s', x);
  }

  lemma LongerLogKeepsAck(s: State, s': State, x: NodeId, a: (NodeId, nat))
    requires Grows(s, s') && AckOk(s, a) && a in s'.acks && s'.acks[a] == s.acks[a] && x in s.nodes
    requires forall y | y in s.nodes && y != x :: s'.nodes[y] == s.nodes[y]
    requires Agree(s'.nodes[x].log, s.nodes[x].log, |s.nodes[x].log|)
    ensures AckOk(s', a)
  {
    hide Broken;
    AckKept(s, s', a);
  }

  /** A node that has no vote of a term yet is neither campaigning nor leading, and knows nothing to be committed. */
  lemma FreshNode(s: State, x: NodeId)
    requires Inv(s) && x in s.nodes && s.nodes[x].vote.term == 0
    ensures !s.nodes[x].campaigning && !s.nodes[x].leading && s.nodes[x].committed == 0
  {
    hide Inv;
    hide LogOk;
    hide IsQuorum;
    hide Agree;
    var n := s.nodes[x];
    NodeFact(s, x);
    if n.campaigning { RequestFact(s, n.vote); }
    if n.leading { LeaderFact(s, 0); }
    if 0 < n.committed { LeaderFact(s, n.source); }
  }

  lemma InitializeKeeps(s: State, x: NodeId)
    requires Inv(s) && Enabled(s, Initialize(x))
    ensures Inv(Apply(s, Initialize(x)))
  {
    hide Inv;
    var n := s.nodes[x];
    NodeFact(s, x);
    FreshNode(s, x);
    VotesArePartiallyOrdered(n.vote, n.vote, n.vote);
    LocalStepKeeps(s, x, n.(log := [Boot(s)]));
  }

  lemma PurgeKeeps(s: State, x: NodeId, upto: nat)
    requires Inv(s) && Enabled(s, Purge(x, upto))
    ensures Inv(Apply(s, Purge(x, upto)))
  {
    hide Inv;
    hide LogOk;
    var n := s.nodes[x];
    var m := n.(purged := upto);
    NodeFact(s, x);
    SameHistory(s, s.(nodes := s.nodes[x := m]), x, n);
    VotesArePartiallyOrdered(n.vote, n.vote, n.vote);
    LocalStepKeeps(s, x, m);
  }

  /** A restart keeps what is stored; of what the node knew to be committed it keeps a part that it stores. */
  lemma RestartKeeps(s: State, x: NodeId, committed: nat)
    requires Inv(s) && Enabled(s, Restart(x, committed))
    ensures Inv(Apply(s, Restart(x, committed)))
  {
    hide Inv;
    hide LogOk;
    var n := s.nodes[x];
    var m := n.(committed := committed, campaigning := false, leading := false);
    NodeFact(s, x);
    SameHistory(s, s.(nodes := s.nodes[x := m]), x, n);
    VotesArePartiallyOrdered(n.vote, n.vote, n.vote);
    LocalStepKeeps(s, x, m);
  }

  /** A node can always restart. */
  lemma RestartIsEnabled(s: State, x: NodeId)
    requires Inv(s) && x in s.nodes
    ensures Enabled(s, Restart(x, s.nodes[x].purged))
  {
    hide Inv;
    NodeFact(s, x);
  }

  lemma SaveCommittedKeeps(s: State, x: NodeId)
    requires Inv(s) && Enabled(s, SaveCommitted(x))
    ensures Inv(Apply(s, SaveCommitted(x)))
  {
    hide Inv;
    hide LogOk;
    var n := s.nodes[x];
    var m := n.(vote := n.vote.Committed());
    NodeFact(s, x);
    SameHistory(s, s.(nodes := s.nodes[x := m]), x, n);
    VotesArePartiallyOrdered(n.vote, m.vote, m.vote);
    LocalStepKeeps(s, x, m);
  }

  // ---- Leaders ----

  lemma LeaderIsAdded(s: State, s': State, t: nat)
    requires t !in s.leaders && t in s'.leaders && s'.leaders == s.leaders[t := s'.leaders[t]] && s'.boot == s.boot
    ensures LeadersGrow(s, s')
  {}

  lemma WinKeeps(s: State, x: NodeId, voters: set<NodeId>)
    requires Inv(s) && Enabled(s, Win(x, voters))
    ensures Inv(Apply(s, Win(x, voters)))
  {
    hide Inv;
    hide NodeOk;
    hide RequestOk;
    hide Elected;
    TermIsNew(s, x, voters);
    NodeFact(s, x);
    CampaignLog(s, x);
    RequestFact(s, s.nodes[x].vote);
    WinStep(s, Apply(s, Win(x, voters)), x, voters);
  }

  lemma WinStep(s: State, s': State, x: NodeId, voters: set<NodeId>)
    requires Inv(s) && x in s.nodes && NodeOk(s, x, s.nodes[x]) && RequestOk(s, s.nodes[x].vote)
    requires var n := s.nodes[x];
             && n.campaigning && Elected(s, n.vote, voters) && n.vote.term !in s.leaders
             && s' == s.(nodes := s.nodes[x := n.(campaigning := false, leading := true)],
                         leaders := s.leaders[n.vote.term := Leader(x, n.log, n.log, voters)])
    ensures Inv(s')
  {
    hide Inv;
    hide AckOk;
    hide VoterOk;
    hide LeaderOk;
    hide NodeOk;
    hide RequestOk;
    hide Elected;
    hide CommitsFit;
    hide ConfigsOk;
    var n := s.nodes[x];
    CommitsStay(s, s');
    LeaderIsAdded(s, s', n.vote.term);
    hide CommitsGrow;
    hide LeadersGrow;
    VotesArePartiallyOrdered(n.vote, n.vote, n.vote);
    VotesRise(s, s', x);
    assert OnlyChanges(s, s', x);
    NewLeaderIsOk(s, s', x, voters);
    WinnerIsOk(s, s', x);
    NodeStepKeeps(s, s', x);
  }

  lemma NewLeaderIsOk(s: State, s': State, x: NodeId, voters: set<NodeId>)
    requires x in s.nodes && NodeOk(s, x, s.nodes[x]) && RequestOk(s, s.nodes[x].vote) && Grows(s, s')
    requires var n := s.nodes[x];
             && n.campaigning && Elected(s, n.vote, voters) && x in s'.nodes && s'.nodes[x].vote == n.vote
             && n.vote.term in s'.leaders && s'.leaders[n.vote.term] == Leader(x, n.log, n.log, voters)
    ensures LeaderOk(s', s.nodes[x].vote.term) && ConfigsOk(s', s.nodes[x].vote.term)
  {
    hide LogOk;
    hide IsQuorum;
    hide NodeOk;
    var n := s.nodes[x];
    CampaignLog(s, x);
    LogKept(s, s', n.log);
    VotesArePartiallyOrdered(n.vote, n.vote, n.vote);
  }

  lemma CampaignLog(s: State, x: NodeId)
    requires x in s.nodes && NodeOk(s, x, s.nodes[x]) && s.nodes[x].campaigning
    ensures var n := s.nodes[x];
            && n.vote in s.requests && s.requests[n.vote] == n.log && LogOk(s, n.log)
            && n.vote.node == x && !n.leading
  {}

  lemma WinnerIsOk(s: State, s': State, x: NodeId)
    requires x in s.nodes && NodeOk(s, x, s.nodes[x]) && Grows(s, s') && s.nodes[x].campaigning
    requires var n := s.nodes[x];
             && s'.nodes[x] == n.(campaigning := false, leading := true)
             && n.vote.term in s'.leaders && s'.leaders[n.vote.term].node == x && s'.leaders[n.vote.term].log == n.log
    ensures NodeOk(s', x, s'.nodes[x])
  {
    hide LogOk;
    LogKept(s, s', s.nodes[x].log);
  }

  /** A leader's log after it proposed an entry. */
  lemma ProposedLogIsOk(s: State, s': State, t: nat, e: Entry)
    requires LeaderOk(s, t) && LeadersGrow(s, s') && e.term == t
    requires s'.leaders[t] == s.leaders[t].(log := s.leaders[t].log + [e])
    ensures LogOk(s', s'.leaders[t].log)
  {
    var before, after := s.leaders[t].log, s'.leaders[t].log;
    forall i | 0 <= i < |after| ensures EntryOk(s', after, i) {
      if i < |before| { assert EntryOk(s, before, i); }
    }
  }

  lemma ProposerIsOk(s: State, s': State, t: nat, e: Entry)
    requires LeaderOk(s, t) && Grows(s, s') && e.term == t
    requires s'.leaders[t] == s.leaders[t].(log := s.leaders[t].log + [e])
    ensures LeaderOk(s', t)
  {
    hide LogOk;
    hide IsQuorum;
    var l := s.leaders[t];
    ProposedLogIsOk(s, s', t, e);
    VotesArePartiallyOrdered(Vote(t, l.node, false), s.nodes[l.node].vote, s'.nodes[l.node].vote);
  }

  lemma ProposedConfigsAreOk(s: State, s': State, t: nat, e: Entry)
    requires ConfigsOk(s, t) && LeadersGrow(s, s') && CommitsGrow(s, s')
    requires s'.leaders[t] == s.leaders[t].(log := s.leaders[t].log + [e])
    requires e.configs != [] ==> ConfigOk(s', t, |s.leaders[t].log|)
    ensures ConfigsOk(s', t)
  {
    hide ConfigOk;
    var before, after := s.leaders[t].log, s'.leaders[t].log;
    forall i | |s.leaders[t].initial| <= i < |after| && after[i].configs != [] ensures ConfigOk(s', t, i) {
      if i < |before| { ConfigKept(s, s', t, i); }
    }
  }

  /** A leader appends an entry to its log; a membership has to be one it may propose. */
  lemma ProposedStepKeeps(s: State, s': State, x: NodeId, e: Entry)
    requires Inv(s) && IsLeader(s, x) && e.term == s.nodes[x].vote.term
    requires var t := s.nodes[x].vote.term;
             s' == s.(leaders := s.leaders[t := s.leaders[t].(log := s.leaders[t].log + [e])])
    requires e.configs != [] ==> ConfigOk(s', s.nodes[x].vote.term, |s.leaders[s.nodes[x].vote.term].log|)
    ensures Inv(s')
  {
    hide Inv;
    hide VoterOk;
    hide LogOk;
    hide LeaderOk;
    hide ConfigOk;
    hide AckOk;
    hide NodeOk;
    var n := s.nodes[x];
    NodeFact(s, x);
    LeaderFact(s, n.vote.term);
    VotesArePartiallyOrdered(n.vote, n.vote, n.vote);
    hide CommitsFit;
    hide ConfigsOk;
    CommitsStay(s, s');
    hide CommitsGrow;
    VotesRise(s, s', x);
    assert OnlyChanges(s, s', x);
    ProposerIsOk(s, s', n.vote.term, e);
    ConfigsFact(s, n.vote.term);
    ProposedConfigsAreOk(s, s', n.vote.term, e);
    NodeKept(s, s', x, n);
    hide Agree;
    NodeStepKeeps(s, s', x);
  }

  lemma ConfigsFact(s: State, t: nat)
    requires Inv(s) && t in s.leaders
    ensures ConfigsOk(s, t)
  {}

  lemma ProposeKeeps(s: State, x: NodeId, payload: nat)
    requires Inv(s) && Enabled(s, Propose(x, payload))
    ensures Inv(Apply(s, Propose(x, payload)))
  {
    hide Inv;
    ProposedStepKeeps(s, Apply(s, Propose(x, payload)), x, Entry(s.nodes[x].vote.term, payload, []));
  }

  /** The effective membership of a leader that may propose another one is committed, by it or before it. */
  lemma ParentWasCommitted(s: State, x: NodeId)
    requires Inv(s) && MayChange(s, x)
    ensures var t := s.nodes[x].vote.term;
            var l := s.leaders[t].log;
            Effective(l) != [] && WasCommitted(s, t, ConfigEnd(l), |l|)
  {
    hide Inv;
    hide LogOk;
    hide IsQuorum;
    hide ConfigEnd;
    var n := s.nodes[x];
    var t := n.vote.term;
    var l, u := s.leaders[t].log, n.source;
    NodeFact(s, x);
    var k := |Commits(s, u)| - 1;
    CommitFact(s, u, k);
    assert CommittedBy(s, t, ConfigEnd(l), |l|, u, k);
  }

  /** A membership proposed on the effective one. */
  lemma ProposedConfigIsOk(s: State, s': State, t: nat, e: Entry)
    requires t in s.leaders && LeadersGrow(s, s') && CommitsGrow(s, s')
    requires s'.leaders[t] == s.leaders[t].(log := s.leaders[t].log + [e])
    requires var l := s.leaders[t].log;
             && Effective(l) != [] && WasCommitted(s, t, ConfigEnd(l), |l|) && Forward(Effective(l), e.configs)
             && (ByChange(Effective(l), e.configs)
                 || (DirectlyAppendable(Effective(l), e.configs) && HasOwnCommit(s', t, |l|)))
    ensures ConfigOk(s', t, |s.leaders[t].log|)
  {
    hide ConfigEnd;
    hide ByChange;
    hide DirectlyAppendable;
    hide Forward;
    var l, l' := s.leaders[t].log, s'.leaders[t].log;
    assert l'[..|l|] == l;
    var u: nat, k: nat :| CommittedBy(s, t, ConfigEnd(l), |l|, u, k);
    CommittedByKept(s, s', t, ConfigEnd(l), |l|, u, k);
  }

  lemma LogGrows(s: State, t: nat, e: Entry)
    requires t in s.leaders
    ensures var s' := s.(leaders := s.leaders[t := s.leaders[t].(log := s.leaders[t].log + [e])]);
            LeadersGrow(s, s') && CommitsGrow(s, s')
  {}

  /** A change of the membership keeps the invariant if it goes forward. */
  lemma ChangeMembershipKeeps(s: State, x: NodeId, goal: set<NodeId>)
    requires Inv(s) && Enabled(s, ChangeMembership(x, goal)) && GoesForward(s, ChangeMembership(x, goal))
    ensures Inv(Apply(s, ChangeMembership(x, goal)))
  {
    hide Inv;
    hide ConfigEnd;
    hide Forward;
    hide FindCoherent;
    hide ConfigOk;
    hide WasCommitted;
    var s', t := Apply(s, ChangeMembership(x, goal)), s.nodes[x].vote.term;
    var l := s.leaders[t].log;
    var e := Entry(t, 0, FindCoherent(Effective(l), goal));
    ParentWasCommitted(s, x);
    LogGrows(s, t, e);
    assert ByChange(Effective(l), e.configs);
    hide ByChange;
    ProposedConfigIsOk(s, s', t, e);
    ProposedStepKeeps(s, s', x, e);
  }

  /** So does appending one directly. */
  lemma AppendMembershipKeeps(s: State, x: NodeId, configs: Joint)
    requires Inv(s) && Enabled(s, AppendMembership(x, configs)) && GoesForward(s, AppendMembership(x, configs))
    ensures Inv(Apply(s, AppendMembership(x, configs)))
  {
    hide Inv;
    hide ConfigEnd;
    hide Forward;
    hide DirectlyAppendable;
    hide ByChange;
    hide ConfigOk;
    hide WasCommitted;
    hide IsQuorum;
    var s', t := Apply(s, AppendMembership(x, configs)), s.nodes[x].vote.term;
    var l := s.leaders[t].log;
    var k := |Commits(s, t)| - 1;
    CommitFact(s, t, k);
    ParentWasCommitted(s, x);
    LogGrows(s, t, Entry(t, 0, configs));
    assert IsCommit(s', t, k) && Commits(s', t)[k].size <= |l|;
    ProposedConfigIsOk(s, s', t, Entry(t, 0, configs));
    ProposedStepKeeps(s, s', x, Entry(t, 0, configs));
  }

  // ---- Acknowledgements ----

  /** A node that follows the leader of term `t` has granted no later vote. */
  lemma NoLaterGrant(s: State, s': State, a: (NodeId, nat), g: (NodeId, Vote), vote: Vote)
    requires GrantOk(s, g) && a.0 in s.nodes && Le(s.nodes[a.0].vote, vote) && vote.term == a.1
    ensures VoterOk(s', a, g)
  {
    if a.0 == g.0 { VotesArePartiallyOrdered(g.1, s.nodes[g.0].vote, vote); }
  }

  /** Nothing that a node acknowledged to the leader whose vote it has can be missing. */
  lemma NotYetBroken(s: State, t: nat, k: nat, vote: Vote)
    requires vote.term <= t
    ensures !Broken(s, t, k, vote)
  {}

  lemma AcksGrow(acks: map<(NodeId, nat), nat>, x: NodeId, t: nat, len: nat)
    ensures var after := Acked(acks, x, t, len);
            && (forall a | a in acks :: a in after && acks[a] <= after[a])
            && (forall a | a in after && a != (x, t) :: a in acks && after[a] == acks[a])
  {}

  /** A leader's stored log grows, and with it what it acknowledges to itself. */
  lemma FlushedIsOk(s: State, s': State, x: NodeId, len: nat)
    requires IsLeader(s, x) && NodeOk(s, x, s.nodes[x]) && s.nodes[x].vote.committed
    requires LeaderOk(s, s.nodes[x].vote.term)
    requires var n := s.nodes[x];
             var l := s.leaders[n.vote.term].log;
             |n.log| <= len <= |l| && s' == s.(nodes := s.nodes[x := n.(log := l[..len])], acks := s'.acks)
    ensures NodeOk(s', x, s'.nodes[x]) && Agree(s'.nodes[x].log, s.nodes[x].log, |s.nodes[x].log|)
  {
    hide LogOk;
    hide IsQuorum;
    var n, n' := s.nodes[x], s'.nodes[x];
    var l := s.leaders[n.vote.term];
    LeadersStay(s, s');
    PrefixIsOk(s, n'.log, l.log);
    LogKept(s, s', n'.log);
    forall i | 0 <= i < |n'.log| ensures n'.log[i].term == 0 || Reached(n'.log[i].term, n.vote) {
      if i < |l.initial| { assert l.initial[i] == n'.log[i]; }
    }
  }

  lemma LocalFlushKeeps(s: State, x: NodeId, len: nat)
    requires Inv(s) && Enabled(s, LocalFlush(x, len))
    ensures Inv(Apply(s, LocalFlush(x, len)))
  {
    hide Inv;
    hide LeaderOk;
    hide NodeOk;
    hide Acked;
    NodeFact(s, x);
    LeaderFact(s, s.nodes[x].vote.term);
    LocalFlushStep(s, Apply(s, LocalFlush(x, len)), x, len);
  }

  lemma LocalFlushStep(s: State, s': State, x: NodeId, len: nat)
    requires Inv(s) && IsLeader(s, x) && NodeOk(s, x, s.nodes[x]) && s.nodes[x].vote.committed
    requires LeaderOk(s, s.nodes[x].vote.term)
    requires var n := s.nodes[x];
             var l := s.leaders[n.vote.term].log;
             && |n.log| <= len <= |l|
             && s' == s.(nodes := s.nodes[x := n.(log := l[..len])], acks := Acked(s.acks, x, n.vote.term, len))
    ensures Inv(s')
  {
    hide Inv;
    hide LogOk;
    hide VoterOk;
    hide LeaderOk;
    hide GrantOk;
    hide NodeOk;
    hide AckOk;
    hide Acked;
    var n := s.nodes[x];
    AcksGrow(s.acks, x, n.vote.term, len);
    VotesArePartiallyOrdered(n.vote, n.vote, n.vote);
    VotesRise(s, s', x);
    FlushedIsOk(s, s', x, len);
    hide CommitsFit;
    hide ConfigsOk;
    LeadersStay(s, s');
    CommitsStay(s, s');
    hide LeadersGrow;
    hide CommitsGrow;
    assert OnlyChanges(s, s', x);
    forall a | a in s'.acks && a.0 == x ensures AckOk(s', a) {
      if a in s.acks { AckFact(s, a); }
      FlushedAckIsOk(s, s', x, len, a);
    }
    forall a, g | a in s'.acks && g in s'.grants && a == (x, n.vote.term) ensures VoterOk(s', a, g) {
      GrantFact(s, g);
      NoLaterGrant(s, s', a, g, n.vote);
    }
    hide Agree;
    NodeStepKeeps(s, s', x);
  }

  lemma FlushedAckIsOk(s: State, s': State, x: NodeId, len: nat, a: (NodeId, nat))
    requires IsLeader(s, x) && s.nodes[x].vote.committed && Grows(s, s') && s'.leaders == s.leaders
    requires forall y | y in s.nodes && y != x :: s'.nodes[y] == s.nodes[y]
    requires a.0 == x && a in s'.acks && (a in s.acks ==> AckOk(s, a))
    requires var n := s.nodes[x];
             var l := s.leaders[n.vote.term].log;
             && |n.log| <= len <= |l| && s'.nodes[x] == n.(log := l[..len])
             && Agree(l[..len], n.log, |n.log|) && s'.acks == Acked(s.acks, x, n.vote.term, len)
    ensures AckOk(s', a)
  {
    hide Broken;
    var n := s.nodes[x];
    if a == (x, n.vote.term) {
      if a in s.acks {
        NotYetBroken(s, a.1, s.acks[a], n.vote);
        assert s.acks[a] <= len;
      }
    } else {
      LongerLogKeepsAck(s, s', x, a);
    }
  }

  // ---- Followers ----

  /** A node follows the leader of term `t`: its log is stored and its vote gives way. */
  ghost predicate Follows(s: State, x: NodeId, t: nat) {
    && x in s.nodes && t in s.leaders && Settled(s, s.nodes[x])
    && Le(s.nodes[x].vote, Vote(t, s.leaders[t].node, true))
  }

  /** What a node knows to be committed is in the log of every leader it follows from then on. */
  lemma CommittedIsInLeader(s: State, x: NodeId, t: nat)
    requires Inv(s) && Follows(s, x, t)
    ensures Agree(s.nodes[x].log, s.leaders[t].log, s.nodes[x].committed)
  {
    hide Inv;
    hide LogOk;
    hide IsQuorum;
    var n := s.nodes[x];
    NodeFact(s, x);
    LeaderFact(s, t);
    if 0 < n.committed { CommitIsInLeader(s, n.source, t); }
  }

  /** An entry that the follower has, by id or because it is committed, stands for the whole log before it. */
  lemma HasLogIdMeansAgree(s: State, x: NodeId, t: nat, i: nat)
    requires Inv(s) && Follows(s, x, t)
    requires i < |s.leaders[t].log| && HasLogId(s.nodes[x], i, s.leaders[t].log[i].term)
    ensures Agree(s.nodes[x].log, s.leaders[t].log, i + 1)
  {
    hide Inv;
    hide LogOk;
    hide IsQuorum;
    NodeFact(s, x);
    LeaderFact(s, t);
    if i < s.nodes[x].committed {
      CommittedIsInLeader(s, x, t);
    } else {
      LogMatching(s, s.nodes[x].log, s.leaders[t].log, i);
    }
  }

  lemma PurgedIsCommitted(s: State, x: NodeId)
    requires Inv(s) && x in s.nodes
    ensures s.nodes[x].purged <= s.nodes[x].committed
  {
    hide Inv;
    NodeFact(s, x);
  }

  /** A log that is part of the old one or of the leader's, and keeps all that agreed with the leader. */
  ghost predicate Adopts(before: Log, leader: Log, log: Log) {
    && (log <= before || log <= leader)
    && forall k: nat | Agree(before, leader, k) :: Agree(log, leader, k)
  }

  /**
   * After an append the log is a prefix of the old one or of the leader's and keeps all that agreed with the
   * leader. A consecutive append leaves a log alone that has its entries, and otherwise gives the leader's
   * log up to its end; any other one cuts the log before the entry that does not match.
   */
  lemma AppendedLogAgrees(s: State, x: NodeId, t: nat, prev: nat, end: nat)
    requires Inv(s) && Follows(s, x, t) && prev <= end <= |s.leaders[t].log|
    ensures var n, l := s.nodes[x], s.leaders[t].log;
            var log := AppendedLog(n, l, prev, end);
            && Adopts(n.log, l, log)
            && (Consecutive(n, l, prev) <==> Agree(n.log, l, prev))
            && (Agree(n.log, l, prev) ==> Agree(log, l, end))
            && (Agree(n.log, l, prev) ==> log == if Agree(n.log, l, end) then n.log else l[..end])
            && (!Agree(n.log, l, prev) ==> log <= n.log && |log| < prev && (log == n.log || |log| == prev - 1))
  {
    hide Inv;
    hide NodeOk;
    var n, l := s.nodes[x], s.leaders[t].log;
    PurgedIsCommitted(s, x);
    if Consecutive(n, l, prev) {
      if 0 < prev { HasLogIdMeansAgree(s, x, t, prev - 1); }
      var since := FirstConflict(n, l, prev, end);
      if prev < since { HasLogIdMeansAgree(s, x, t, since - 1); }
      assert Agree(n.log, l, since);
      if since < end {
        assert Cut(n.log, since) + l[since..end] == l[..end];
      }
    }
  }

  /** After a snapshot the log stays if it has the leader's entries up to the end, and is replaced by them otherwise. */
  lemma SnapshotLogAgrees(s: State, x: NodeId, t: nat, len: nat)
    requires Inv(s) && Follows(s, x, t) && 0 < len <= |s.leaders[t].log|
    ensures var n, l := s.nodes[x], s.leaders[t].log;
            var log := SnapshotLog(n, l, len);
            && Adopts(n.log, l, log) && Agree(log, l, len)
            && log == if Agree(n.log, l, len) then n.log else l[..len]
  {
    hide Inv;
    hide NodeOk;
    var n, l := s.nodes[x], s.leaders[t].log;
    if HasLogId(n, len - 1, l[len - 1].term) {
      HasLogIdMeansAgree(s, x, t, len - 1);
    } else {
      PurgedIsCommitted(s, x);
      assert !Agree(n.log, l, len);
    }
  }

  lemma AdoptedTerms(s: State, x: NodeId, t: nat, log: Log)
    requires Follows(s, x, t) && NodeOk(s, x, s.nodes[x]) && LeaderOk(s, t)
    requires log <= s.nodes[x].log || log <= s.leaders[t].log
    ensures LogOk(s, log)
    ensures forall i | 0 <= i < |log| :: log[i].term == 0 || Reached(log[i].term, Vote(t, s.leaders[t].node, true))
  {
    hide LogOk;
    hide IsQuorum;
    var n, l := s.nodes[x], s.leaders[t];
    if log <= n.log { PrefixIsOk(s, log, n.log); } else { PrefixIsOk(s, log, l.log); }
    forall i | 0 <= i < |log| ensures log[i].term == 0 || Reached(log[i].term, Vote(t, l.node, true)) {
      if log <= n.log {
        if n.log[i].term != 0 { ReachedRises(n.log[i].term, n.vote, Vote(t, l.node, true)); }
      } else if i < |l.initial| {
        assert l.initial[i] == log[i];
      }
    }
  }

  /** The follower's node after it adopted entries of the leader of term `t`. */
  lemma FollowerIsOk(s: State, x: NodeId, t: nat, log: Log)
    requires Inv(s) && Follows(s, x, t) && Adopts(s.nodes[x].log, s.leaders[t].log, log)
    ensures NodeOk(s, x, Follow(s.nodes[x], Vote(t, s.leaders[t].node, true)).(log := log))
  {
    hide Inv;
    hide LogOk;
    hide IsQuorum;
    var n, l := s.nodes[x], s.leaders[t].log;
    NodeFact(s, x);
    LeaderFact(s, t);
    AdoptedTerms(s, x, t, log);
    CommittedIsInLeader(s, x, t);
    hide LeaderOk;
    if 0 < n.committed {
      AgreeTransitive(log, l, n.log, n.committed) by { AgreeSymmetric(n.log, l, n.committed); }
      AgreeTransitive(log, n.log, s.leaders[n.source].log, n.committed);
    }
  }

  /** A follower keeps what it acknowledged to an earlier leader, unless the leader it follows does not have it. */
  lemma FollowerKeepsAck(s: State, s': State, x: NodeId, t: nat, a: (NodeId, nat))
    requires Follows(s, x, t) && LeaderOk(s, t) && AckOk(s, a)
    requires s'.leaders == s.leaders && s'.boot == s.boot && x in s'.nodes
    requires Adopts(s.nodes[x].log, s.leaders[t].log, s'.nodes[x].log) && a.0 == x
    requires s'.nodes[x].vote == Vote(t, s.leaders[t].node, true)
    ensures Reached(a.1, s'.nodes[x].vote)
    ensures forall k: nat | k <= s.acks[a] ::
              Agree(s'.nodes[x].log, s.leaders[a.1].log, k) || Broken(s', a.1, k, s'.nodes[x].vote)
  {
    hide LogOk;
    hide IsQuorum;
    var n, n', l := s.nodes[x], s'.nodes[x], s.leaders[t];
    LeadersStay(s, s');
    ReachedRises(a.1, n.vote, n'.vote);
    forall k: nat | k <= s.acks[a] ensures Agree(n'.log, s.leaders[a.1].log, k) || Broken(s', a.1, k, n'.vote) {
      if !Agree(n.log, s.leaders[a.1].log, k) {
        BrokenKept(s, s', a.1, k, n.vote, n'.vote);
      } else if a.1 < t && !Agree(l.initial, s.leaders[a.1].log, k) {
        assert Misses(s', a.1, k, t) && Reached(t, n'.vote);
      } else {
        AgreeWithLeader(n.log, s.leaders[a.1].log, l, k, a.1 == t);
        assert Agree(n'.log, l.log, k);
      }
    }
  }

  lemma AgreeWithLeader(log: Log, earlier: Log, l: Leader, k: nat, same: bool)
    requires Agree(log, earlier, k) && Agree(l.log, l.initial, |l.initial|)
    requires if same then earlier == l.log else Agree(l.initial, earlier, k)
    ensures Agree(log, l.log, k) && Agree(l.log, earlier, k)
  {}

  lemma FollowerAckIsOk(s: State, s': State, x: NodeId, t: nat, len: nat, a: (NodeId, nat))
    requires Follows(s, x, t) && LeaderOk(s, t) && s'.leaders == s.leaders && s'.boot == s.boot && x in s'.nodes
    requires Adopts(s.nodes[x].log, s.leaders[t].log, s'.nodes[x].log) && a.0 == x
    requires s'.nodes[x].vote == Vote(t, s.leaders[t].node, true) && (a in s.acks ==> AckOk(s, a))
    requires a in s'.acks && (s'.acks == s.acks || s'.acks == Acked(s.acks, x, t, len))
    requires s'.acks == s.acks || Agree(s'.nodes[x].log, s.leaders[t].log, len)
    ensures AckOk(s', a)
  {
    hide LeaderOk;
    hide Broken;
    hide Adopts;
    if a in s.acks {
      FollowerKeepsAck(s, s', x, t, a);
    }
  }

  /** A step in which `x` adopts entries of the leader of term `t` and may acknowledge the first `len` of them. */
  lemma FollowStepKeeps(s: State, s': State, x: NodeId, t: nat, len: nat, m: Node)
    requires Inv(s) && Follows(s, x, t) && Adopts(s.nodes[x].log, s.leaders[t].log, m.log)
    requires m.vote == Vote(t, s.leaders[t].node, true) && NodeOk(s, x, m)
    requires s' == s.(nodes := s.nodes[x := m], acks := s'.acks)
    requires s'.acks == s.acks || (s'.acks == Acked(s.acks, x, t, len) && Agree(m.log, s.leaders[t].log, len))
    ensures Inv(s')
  {
    hide Inv;
    hide NodeOk;
    hide AckOk;
    hide VoterOk;
    hide GrantOk;
    hide LeaderOk;
    hide Adopts;
    hide Agree;
    hide Acked;
    hide CommitsFit;
    hide ConfigsOk;
    AcksGrow(s.acks, x, t, len);
    LeadersStay(s, s');
    CommitsStay(s, s');
    hide LeadersGrow;
    hide CommitsGrow;
    VotesRise(s, s', x);
    assert OnlyChanges(s, s', x);
    SameHistory(s, s', x, m);
    LeaderFact(s, t);
    forall a | a in s'.acks && a.0 == x ensures AckOk(s', a) {
      if a in s.acks { AckFact(s, a); }
      FollowerAckIsOk(s, s', x, t, len, a);
    }
    forall a, g | a in s'.acks && g in s'.grants && a == (x, t) ensures VoterOk(s', a, g) {
      GrantFact(s, g);
      NoLaterGrant(s, s', a, g, m.vote);
    }
    NodeStepKeeps(s, s', x);
  }

  lemma AppendKeeps(s: State, x: NodeId, t: nat, prev: nat, count: nat)
    requires Inv(s) && Enabled(s, Append(x, t, prev, count))
    ensures Inv(Apply(s, Append(x, t, prev, count)))
  {
    hide Inv;
    hide AppendedLog;
    hide Consecutive;
    hide NodeOk;
    hide Adopts;
    hide Agree;
    hide Acked;
    var n, s' := s.nodes[x], Apply(s, Append(x, t, prev, count));
    AppendedLogAgrees(s, x, t, prev, prev + count);
    FollowerIsOk(s, x, t, AppendedLog(n, s.leaders[t].log, prev, prev + count));
    FollowStepKeeps(s, s', x, t, prev + count, s'.nodes[x]);
  }

  lemma InstallSnapshotKeeps(s: State, x: NodeId, t: nat, source: nat, len: nat)
    requires Inv(s) && Enabled(s, InstallSnapshot(x, t, source, len))
    ensures Inv(Apply(s, InstallSnapshot(x, t, source, len)))
  {
    hide Inv;
    hide SnapshotLog;
    hide NodeOk;
    hide Adopts;
    hide Agree;
    hide Acked;
    var n, s' := s.nodes[x], Apply(s, InstallSnapshot(x, t, source, len));
    var m := Follow(n, Vote(t, s.leaders[t].node, true)).(log := SnapshotLog(n, s.leaders[t].log, len));
    SnapshotLogAgrees(s, x, t, len);
    FollowerIsOk(s, x, t, m.log);
    CommitIsInLeader(s, source, t);
    if n.committed < len { SnapshotNodeIsOk(s, x, m, t, source, len); }
    FollowStepKeeps(s, s', x, t, len, s'.nodes[x]);
  }

  lemma SnapshotNodeIsOk(s: State, x: NodeId, m: Node, t: nat, source: nat, len: nat)
    requires NodeOk(s, x, m) && !m.leading && m.vote.term == t && t in s.leaders && source <= t
    requires source in s.leaders && len <= Committed(s, source)
    requires Agree(m.log, s.leaders[t].log, len)
    requires Agree(s.leaders[t].log, s.leaders[source].log, Committed(s, source))
    ensures NodeOk(s, x, m.(committed := len, source := source, purged := len))
  {
    hide LogOk;
  }

  /**
   * A snapshot never contradicts the follower: its last entry is of no later term than the leader's, and
   * by log id it is behind what the follower knows to be committed exactly when it is not longer.
   */
  lemma SnapshotFits(s: State, x: NodeId, t: nat, len: nat)
    requires Inv(s) && Follows(s, x, t) && 0 < len <= |s.leaders[t].log|
    ensures s.leaders[t].log[len - 1].term <= t
    ensures var n := s.nodes[x];
            NotBehind(Cut(n.log, n.committed), Cut(s.leaders[t].log, len)) <==> len <= n.committed
  {
    hide Inv;
    hide LogOk;
    hide NotBehind;
    hide NodeOk;
    hide IsQuorum;
    var n, l := s.nodes[x], s.leaders[t];
    LeaderFact(s, t);
    CommittedIsInLeader(s, x, t);
    assert Cut(n.log, n.committed) == l.log[..n.committed];
    if len - 1 < |l.initial| { assert l.initial[len - 1].term < t; }
    PrefixesOrderByLength(s, l.log, len, n.committed);
  }

  // ---- Commits ----

  lemma LeaderCommitKeeps(s: State, x: NodeId, len: nat, quorum: set<NodeId>)
    requires Inv(s) && Enabled(s, LeaderCommit(x, len, quorum))
    ensures Inv(Apply(s, LeaderCommit(x, len, quorum)))
  {
    hide Inv;
    hide LogOk;
    hide IsQuorum;
    var n := s.nodes[x];
    var t := n.vote.term;
    NodeFact(s, x);
    if Committed(s, t) < len {
      LeaderCommitStep(s, Apply(s, LeaderCommit(x, len, quorum)), x, Commit(len, |s.leaders[t].log|, quorum));
    }
  }

  lemma LeaderCommitStep(s: State, s': State, x: NodeId, c: Commit)
    requires Inv(s) && IsLeader(s, x) && NodeOk(s, x, s.nodes[x])
    requires var n := s.nodes[x];
             var t := n.vote.term;
             var l := s.leaders[t].log;
             && Committed(s, t) < c.len
             && s' == s.(commits := s.commits[t := Commits(s, t) + [c]], nodes := s.nodes[x := WithCommit(n, t, c.len)])
             && 0 < c.len <= c.size == |l| && l[c.len - 1].term == t
             && IsQuorum(Effective(l), c.quorum)
             && forall y | y in c.quorum :: (y, t) in s.acks && c.len <= s.acks[(y, t)]
    ensures Inv(s')
  {
    hide Inv;
    hide LogOk;
    hide IsQuorum;
    hide AckOk;
    hide VoterOk;
    hide LeaderOk;
    hide NodeOk;
    hide CommitOk;
    hide CommitsAscend;
    hide Effective;
    var n := s.nodes[x];
    assert LeadersGrow(s, s') by { LeadersStay(s, s'); }
    hide LeadersGrow;
    NewCommitIsOk(s, s', n.vote.term, c);
    CommittedNodeIsOk(s, s', x, n, n.vote.term, c.len) by {
      assert Agree(s.leaders[n.vote.term].log, s.leaders[n.vote.term].log, c.len);
    }
    VotesArePartiallyOrdered(n.vote, n.vote, n.vote);
    VotesRise(s, s', x);
    hide Agree;
    hide CommitsGrow;
    hide CommitsFit;
    NodeStepKeeps(s, s', x);
  }

  lemma NewCommitIsOk(s: State, s': State, t: nat, c: Commit)
    requires Inv(s) && t in s.leaders && s'.leaders == s.leaders && s'.acks == s.acks && Committed(s, t) < c.len
    requires s'.commits == s.commits[t := Commits(s, t) + [c]]
    requires var l := s.leaders[t].log;
             && 0 < c.len <= c.size == |l| && l[c.len - 1].term == t
             && IsQuorum(Effective(l), c.quorum)
             && forall y | y in c.quorum :: (y, t) in s.acks && c.len <= s.acks[(y, t)]
    ensures CommitsGrow(s, s') && CommitsFit(s, s') && Committed(s', t) == c.len
  {
    hide Inv;
    hide IsQuorum;
    hide Effective;
    hide CommitsAscend;
    assert s.leaders[t].log[..c.size] == s.leaders[t].log;
    CommitIsAdded(s, s', t, c);
    NewCommitIsLonger(s, s', t, c);
  }

  lemma CommitIsAdded(s: State, s': State, t: nat, c: Commit)
    requires s'.commits == s.commits[t := Commits(s, t) + [c]]
    ensures Commits(s', t) == Commits(s, t) + [c]
    ensures forall u: nat | u != t :: Commits(s', u) == Commits(s, u)
    ensures forall u: nat, k: nat | IsCommit(s', u, k) && !(u == t && k == |Commits(s, t)|) :: IsCommit(s, u, k)
  {}

  lemma NewCommitIsLonger(s: State, s': State, t: nat, c: Commit)
    requires Inv(s) && t in s.leaders && Committed(s, t) < c.len && c.size == |s.leaders[t].log|
    requires Commits(s', t) == Commits(s, t) + [c]
    ensures CommitsAscend(s', t)
  {
    hide Inv;
    hide IsQuorum;
    hide Effective;
    if Commits(s, t) != [] {
      CommitFact(s, t, |Commits(s, t)| - 1);
    }
  }

  /** A node that learns that its first `len` entries are committed. */
  lemma CommittedNodeIsOk(s: State, s': State, x: NodeId, n: Node, t: nat, len: nat)
    requires NodeOk(s, x, n) && s'.leaders == s.leaders && s'.requests == s.requests && s'.boot == s.boot
    requires CommitsGrow(s, s') && t in s.leaders && len <= Committed(s', t) && t <= n.vote.term
    requires Agree(WorkLog(s, n), s.leaders[t].log, len)
    ensures NodeOk(s', x, WithCommit(n, t, len))
  {
    hide LogOk;
    hide Agree;
    SameHistory(s, s', x, n);
  }

  /** What a leader committed is in the log of a follower that acknowledged as much to it or to a later leader. */
  lemma AckedIsCommitted(s: State, x: NodeId, t: nat)
    requires Inv(s) && Enabled(s, FollowerCommit(x, t))
    ensures Agree(s.nodes[x].log, s.leaders[t].log, Min(Committed(s, t), s.acks[(x, s.nodes[x].vote.term)]))
  {
    hide Inv;
    hide LogOk;
    hide IsQuorum;
    hide NodeOk;
    var n := s.nodes[x];
    var u := n.vote.term;
    var k := Min(Committed(s, t), s.acks[(x, u)]);
    AckFact(s, (x, u));
    NotYetBroken(s, u, k, n.vote);
    CommitIsInLeader(s, t, u);
  }

  /** The lesser log id of the leader's commit and what the follower acknowledged stands for the lesser length. */
  lemma LesserIdIsLesserLength(s: State, x: NodeId, t: nat)
    requires Inv(s) && Enabled(s, FollowerCommit(x, t))
    ensures var u := s.nodes[x].vote.term;
            LesserById(Cut(s.leaders[t].log, Committed(s, t)), Cut(s.leaders[u].log, s.acks[(x, u)]))
              == Min(Committed(s, t), s.acks[(x, u)])
  {
    hide Inv;
    hide LogOk;
    hide IsQuorum;
    hide NodeOk;
    hide NotBehind;
    hide Broken;
    var u := s.nodes[x].vote.term;
    var c, k, l := Committed(s, t), s.acks[(x, u)], s.leaders[u].log;
    AckFact(s, (x, u));
    CommitFact(s, t, |Commits(s, t)| - 1);
    LeaderFact(s, u);
    CommitIsInLeader(s, t, u);
    assert Cut(s.leaders[t].log, c) == l[..c];
    PrefixesOrderByLength(s, l, c, k);
  }

  lemma FollowerCommitKeeps(s: State, x: NodeId, t: nat)
    requires Inv(s) && Enabled(s, FollowerCommit(x, t))
    ensures Inv(Apply(s, FollowerCommit(x, t)))
  {
    hide Inv;
    hide LogOk;
    hide LesserById;
    hide NodeOk;
    hide Agree;
    var n := s.nodes[x];
    var len := Min(Committed(s, t), s.acks[(x, n.vote.term)]);
    var m := WithCommit(n, t, len);
    NodeFact(s, x);
    AckedIsCommitted(s, x, t);
    LesserIdIsLesserLength(s, x, t);
    VotesArePartiallyOrdered(n.vote, n.vote, n.vote);
    CommittedNodeIsOk(s, s.(nodes := s.nodes[x := m]), x, n, t, len);
    assert Agree(m.log, n.log, |n.log|) by { AgreeReflexive(n.log); }
    LocalStepKeeps(s, x, m);
  }

  lemma AgreeReflexive(log: Log)
    ensures Agree(log, log, |log|)
  {}

  // ---- What the steps achieve ----

  /** A node can purge all that it has stored and knows to be committed, and keeps the rest. */
  lemma PurgeAchieves(s: State, x: NodeId) returns (s': State)
    requires Inv(s) && x in s.nodes
    ensures var n := s.nodes[x];
            var step := Purge(x, Min(n.committed, |n.log|));
            Enabled(s, step) && s' == Apply(s, step) && s' == s.(nodes := s.nodes[x := n.(purged := step.upto)])
  {
    hide Inv;
    NodeFact(s, x);
    s' := Apply(s, Purge(x, Min(s.nodes[x].committed, |s.nodes[x].log|)));
  }

  /** A snapshot brings a follower up to its end: what it knows to be committed, its log and its acknowledgement. */
  lemma SnapshotAchieves(s: State, x: NodeId, t: nat, source: nat, len: nat) returns (s': State)
    requires Inv(s) && Follows(s, x, t) && s.leaders[t].node != x
    requires 0 < len <= |s.leaders[t].log| && source <= t && len <= Committed(s, source)
    ensures var step := InstallSnapshot(x, t, source, len); Enabled(s, step) && s' == Apply(s, step)
    ensures x in s'.nodes
    ensures var n, m := s.nodes[x], s'.nodes[x];
            && m.committed == Max(n.committed, len) && m.purged == (if n.committed < len then len else n.purged)
            && Agree(m.log, s.leaders[t].log, len) && m.vote == Vote(t, s.leaders[t].node, true)
            && (x, t) in s'.acks && len <= s'.acks[(x, t)]
  {
    hide Inv;
    hide SnapshotLog;
    SnapshotLogAgrees(s, x, t, len);
    s' := Apply(s, InstallSnapshot(x, t, source, len));
  }

  /** A follower commits all of what is committed that it has acknowledged, and never less than before. */
  lemma FollowerCommitAchieves(s: State, x: NodeId, t: nat)
    requires Inv(s) && Enabled(s, FollowerCommit(x, t))
    ensures Apply(s, FollowerCommit(x, t)).nodes[x].committed
         == Max(s.nodes[x].committed, Min(Committed(s, t), s.acks[(x, s.nodes[x].vote.term)]))
  {
    hide Inv;
    hide LesserById;
    LesserIdIsLesserLength(s, x, t);
  }

  /** A leader commits as far as it is asked to, and never takes a commit back. */
  lemma LeaderCommitAchieves(s: State, x: NodeId, len: nat, quorum: set<NodeId>) returns (s': State)
    requires Inv(s) && Enabled(s, LeaderCommit(x, len, quorum))
    ensures s' == Apply(s, LeaderCommit(x, len, quorum)) && x in s'.nodes
    ensures Committed(s', s.nodes[x].vote.term) == Max(Committed(s, s.nodes[x].vote.term), len)
    ensures Committed(s, s.nodes[x].vote.term) < len ==> s'.nodes[x].committed == Max(s.nodes[x].committed, len)
  {
    hide Inv;
    hide IsQuorum;
    hide Effective;
    s' := Apply(s, LeaderCommit(x, len, quorum));
    var t := s.nodes[x].vote.term;
    if Committed(s, t) < len {
      CommitIsAdded(s, s', t, Commit(len, |WorkLog(s, s.nodes[x])|, quorum));
    }
  }

  /** A follower can always catch up: one append gives it the leader's log, whatever its own log was before. */
  lemma FollowerCatchesUp(s: State, x: NodeId, t: nat) returns (s': State)
    requires Inv(s) && Follows(s, x, t) && s.leaders[t].node != x
    ensures var step := Append(x, t, 0, |s.leaders[t].log|); Enabled(s, step) && s' == Apply(s, step) && Inv(s')
    ensures x in s'.nodes
         && s' == s.(nodes := s.nodes[x := s'.nodes[x]], acks := Acked(s.acks, x, t, |s.leaders[t].log|))
    ensures Agree(s'.nodes[x].log, s.leaders[t].log, |s.leaders[t].log|)
    ensures s'.nodes[x].committed == s.nodes[x].committed && s'.nodes[x].vote == Vote(t, s.leaders[t].node, true)
    ensures !s'.nodes[x].leading && (x, t) in s'.acks && |s.leaders[t].log| <= s'.acks[(x, t)]
  {
    hide Inv;
    hide AppendedLog;
    var l := s.leaders[t].log;
    AppendedLogAgrees(s, x, t, 0, |l|);
    AppendKeeps(s, x, t, 0, |l|);
    s' := Apply(s, Append(x, t, 0, |l|));
  }

  /** After that it can commit everything that the leader has committed. */
  lemma FollowerCommitsAll(s: State, x: NodeId, t: nat) returns (steps: seq<Step>)
    requires Inv(s) && Follows(s, x, t) && s.leaders[t].node != x && 0 < Committed(s, t)
    ensures IsRun(s, steps)
    ensures x in Run(s, steps).nodes
         && Run(s, steps).nodes[x].committed == Max(s.nodes[x].committed, Committed(s, t))
  {
    hide Inv;
    hide Agree;
    hide IsQuorum;
    hide LesserById;
    var step := Append(x, t, 0, |s.leaders[t].log|);
    var s' := FollowerCatchesUp(s, x, t);
    CommitFact(s, t, |Commits(s, t)| - 1);
    var s'' := AllIsCommitted(s', x, t);
    steps := [step, FollowerCommit(x, t)];
    TwoSteps(s, step, FollowerCommit(x, t));
  }

  lemma AllIsCommitted(s: State, x: NodeId, t: nat) returns (s': State)
    requires Inv(s) && x in s.nodes && t in s.leaders && 0 < Committed(s, t) <= |s.leaders[t].log|
    requires !s.nodes[x].leading && s.nodes[x].vote.committed && s.nodes[x].vote.term == t
    requires (x, t) in s.acks && |s.leaders[t].log| <= s.acks[(x, t)]
    ensures Enabled(s, FollowerCommit(x, t)) && s' == Apply(s, FollowerCommit(x, t))
    ensures x in s'.nodes && s'.nodes[x].committed == Max(s.nodes[x].committed, Committed(s, t))
  {
    hide Inv;
    hide LesserById;
    FollowerCommitAchieves(s, x, t);
    s' := Apply(s, FollowerCommit(x, t));
  }

  lemma TwoSteps(s: State, a: Step, b: Step)
    requires Enabled(s, a) && Enabled(Apply(s, a), b)
    ensures IsRun(s, [a, b]) && Run(s, [a, b]) == Apply(Apply(s, a), b)
  {
    hide Enabled;
    hide Apply;
    assert [a, b][1..] == [b] && [b][1..] == [];
    assert IsRun(Apply(s, a), [b]) && Run(Apply(s, a), [b]) == Apply(Apply(s, a), b);
  }

  // ---- Runs ----

  lemma StepIsSafe(s: State, step: Step)
    requires Inv(s) && Enabled(s, step) && GoesForward(s, step)
    ensures Inv(Apply(s, step))
  {
    hide Inv;
    hide Apply;
    match step
    case Initialize(x) => InitializeKeeps(s, x);
    case Elect(x) => ElectKeeps(s, x);
    case GrantVote(x, v) => GrantVoteKeeps(s, x, v);
    case Observe(x, v) => ObserveKeeps(s, x, v);
    case Win(x, voters) => WinKeeps(s, x, voters);
    case SaveCommitted(x) => SaveCommittedKeeps(s, x);
    case Propose(x, payload) => ProposeKeeps(s, x, payload);
    case ChangeMembership(x, goal) => ChangeMembershipKeeps(s, x, goal);
    case AppendMembership(x, configs) => AppendMembershipKeeps(s, x, configs);
    case LocalFlush(x, len) => LocalFlushKeeps(s, x, len);
    case Append(x, t, prev, count) => AppendKeeps(s, x, t, prev, count);
    case InstallSnapshot(x, t, source, len) => InstallSnapshotKeeps(s, x, t, source, len);
    case Purge(x, upto) => PurgeKeeps(s, x, upto);
    case LeaderCommit(x, len, quorum) => LeaderCommitKeeps(s, x, len, quorum);
    case FollowerCommit(x, t) => FollowerCommitKeeps(s, x, t);
    case Restart(x, committed) => RestartKeeps(s, x, committed);
  }

  /** Leaders' logs only grow, and what they committed stays committed. */
  ghost predicate HistoryGrows(s: State, s': State) {
    LeadersGrow(s, s') && CommitsGrow(s, s')
  }

  lemma StepGrows(s: State, step: Step)
    requires Inv(s) && Enabled(s, step)
    ensures HistoryGrows(s, Apply(s, step))
  {
    hide Inv;
    hide LeadersGrow;
    hide CommitsGrow;
    hide AppendedLog;
    hide Consecutive;
    hide SnapshotLog;
    hide LesserById;
    hide FindCoherent;
    hide Effective;
    hide Elected;
    hide IsQuorum;
    var s' := Apply(s, step);
    if step.Win? {
      TermIsNew(s, step.x, step.voters);
      CommitsStay(s, s');
      LeaderIsAdded(s, s', s.nodes[step.x].vote.term);
    } else if step.Propose? || step.ChangeMembership? || step.AppendMembership? {
      var t := s.nodes[step.x].vote.term;
      LogGrows(s, t, s'.leaders[t].log[|s.leaders[t].log|]);
    } else {
      LeadersStay(s, s');
      if step.LeaderCommit? && s' != s {
        var t := s.nodes[step.x].vote.term;
        NewCommitIsOk(s, s', t, Commit(step.len, |s.leaders[t].log|, step.quorum));
      } else {
        CommitsStay(s, s');
      }
    }
  }

  lemma HistoryIsTransitive(a: State, b: State, c: State)
    requires HistoryGrows(a, b) && HistoryGrows(b, c)
    ensures HistoryGrows(a, c)
  {}

  lemma {:induction false} RunIsSafe(s: State, steps: seq<Step>)
    requires Inv(s) && IsRun(s, steps) && IsForward(s, steps)
    ensures Inv(Run(s, steps)) && HistoryGrows(s, Run(s, steps))
    decreases |steps|
  {
    hide Inv;
    hide Apply;
    hide Enabled;
    hide GoesForward;
    if steps != [] {
      var s' := Apply(s, steps[0]);
      StepIsSafe(s, steps[0]);
      StepGrows(s, steps[0]);
      RunIsSafe(s', steps[1..]);
      HistoryIsTransitive(s, s', Run(s', steps[1..]));
    }
  }

  lemma InitIsSafe(s: State)
    requires Init(s)
    ensures Inv(s)
  {}

  /** Both logs have an entry at this index, and it is the same one. */
  ghost predicate SameEntry(a: Log, b: Log, i: nat) {
    i < |a| && i < |b| && a[i] == b[i]
  }

  /** An entry that some node knew to be committed earlier is the one any node has committed at that index later. */
  lemma CommittedStays(s: State, s': State, x: NodeId, y: NodeId, i: nat)
    requires Inv(s) && Inv(s') && HistoryGrows(s, s')
    requires x in s.nodes && i < s.nodes[x].committed && y in s'.nodes && i < s'.nodes[y].committed
    ensures SameEntry(WorkLog(s, s.nodes[x]), WorkLog(s', s'.nodes[y]), i)
  {
    hide Inv;
    hide LogOk;
    hide IsQuorum;
    hide WorkLog;
    NodeFact(s, x);
    NodeFact(s', y);
    var t, u := s.nodes[x].source, s'.nodes[y].source;
    CommitFact(s, t, |Commits(s, t)| - 1);
    if t <= u { CommitsAgree(s', t, u); } else { CommitsAgree(s', u, t); }
  }

  /**
   * Committed entries are permanent: in every run, an entry that any node knew to be committed at some
   * point is the entry at that index on every node that ever commits that far.
   */
  lemma CommittedEntriesArePermanent(
      s: State, before: seq<Step>, after: seq<Step>, x: NodeId, y: NodeId, i: nat)
    requires Init(s) && IsRun(s, before) && IsForward(s, before)
    requires IsRun(Run(s, before), after) && IsForward(Run(s, before), after)
    requires var s1 := Run(s, before);
             var s2 := Run(s1, after);
             x in s1.nodes && i < s1.nodes[x].committed && y in s2.nodes && i < s2.nodes[y].committed
    ensures var s1 := Run(s, before);
            var s2 := Run(s1, after);
            SameEntry(WorkLog(s1, s1.nodes[x]), WorkLog(s2, s2.nodes[y]), i)
  {
    hide Inv;
    hide Enabled;
    hide Apply;
    hide GoesForward;
    var s1 := Run(s, before);
    InitIsSafe(s);
    RunIsSafe(s, before);
    RunIsSafe(s1, after);
    CommittedStays(s1, Run(s1, after), x, y, i);
  }

  /** Every later leader has it too: an entry known to be committed is in the log of each leader of a later term. */
  lemma LaterLeadersHaveCommitted(
      s: State, before: seq<Step>, after: seq<Step>, x: NodeId, y: NodeId, i: nat)
    requires Init(s) && IsRun(s, before) && IsForward(s, before)
    requires IsRun(Run(s, before), after) && IsForward(Run(s, before), after)
    requires var s1 := Run(s, before);
             var s2 := Run(s1, after);
             && x in s1.nodes && i < s1.nodes[x].committed
             && IsLeader(s2, y) && s1.nodes[x].source <= s2.nodes[y].vote.term
    ensures var s1 := Run(s, before);
            var s2 := Run(s1, after);
            SameEntry(WorkLog(s1, s1.nodes[x]), WorkLog(s2, s2.nodes[y]), i)
  {
    hide Inv;
    hide Enabled;
    hide Apply;
    hide GoesForward;
    var s1 := Run(s, before);
    InitIsSafe(s);
    RunIsSafe(s, before);
    RunIsSafe(s1, after);
    LeaderHasCommitted(s1, Run(s1, after), x, y, i);
  }

  lemma LeaderHasCommitted(s: State, s': State, x: NodeId, y: NodeId, i: nat)
    requires Inv(s) && Inv(s') && HistoryGrows(s, s')
    requires x in s.nodes && i < s.nodes[x].committed && IsLeader(s', y) && s.nodes[x].source <= s'.nodes[y].vote.term
    ensures SameEntry(WorkLog(s, s.nodes[x]), WorkLog(s', s'.nodes[y]), i)
  {
    hide Inv;
    hide LogOk;
    hide IsQuorum;
    NodeFact(s, x);
    var t, u := s.nodes[x].source, s'.nodes[y].vote.term;
    CommitFact(s, t, |Commits(s, t)| - 1);
    CommitIsInLeader(s', t, u);
  }
}
