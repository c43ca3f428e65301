/**
 * The invariant of log replication, and what follows from it in one state: log matching, quorums of the
 * memberships in two logs that meet, leader completeness, and at most one leader per term.
 */
module Completeness {
  import opened Quorum
  import opened Votes
  import opened Memberships
  import opened Replication

  // ---- Invariant ----

  /**
   * The entry at `i` is the initial one, or it was written by the leader of its term and everything
   * before it is as in that leader's log.
   */
  ghost predicate EntryOk(s: State, log: Log, i: nat)
    requires i < |log|
  {
    var u := log[i].term;
    if u == 0 then i == 0 && log[i] == Boot(s)
    else u in s.leaders && |s.leaders[u].initial| <= i && Agree(log, s.leaders[u].log, i + 1)
  }

  ghost predicate LogOk(s: State, log: Log) {
    forall i | 0 <= i < |log| :: EntryOk(s, log, i)
  }

  ghost predicate TermsBelow(log: Log, t: nat) {
    forall i | 0 <= i < |log| :: log[i].term < t
  }

  ghost predicate LeaderOk(s: State, t: nat) {
    t in s.leaders && 0 < t &&
    var l := s.leaders[t];
    var v := Vote(t, l.node, false);
    && l.node in s.nodes && Le(v, s.nodes[l.node].vote)
    && LogOk(s, l.log) && Agree(l.log, l.initial, |l.initial|) && TermsBelow(l.initial, t)
    && (forall i | |l.initial| <= i < |l.log| :: l.log[i].term == t)
    && v in s.requests && s.requests[v] == l.initial && Effective(l.initial) != []
    && Elected(s, v, l.voters)
  }

  ghost predicate RequestOk(s: State, v: Vote) {
    && v in s.requests && !v.committed && 0 < v.term && v.node in s.nodes && Le(v, s.nodes[v.node].vote)
    && LogOk(s, s.requests[v]) && TermsBelow(s.requests[v], v.term) && Effective(s.requests[v]) != []
  }

  ghost predicate GrantOk(s: State, g: (NodeId, Vote)) {
    && g in s.grants && g.0 in s.nodes && !g.1.committed && Le(g.1, s.nodes[g.0].vote)
    && g.1 in s.requests && NotBehind(s.requests[g.1], s.grants[g]) && LogOk(s, s.grants[g])
  }

  ghost predicate SameVote(g: (NodeId, Vote), h: (NodeId, Vote)) {
    g.0 == h.0 && g.1.term == h.1.term ==> g.1 == h.1
  }

  /** A node with this vote may have taken entries from the leader of term `u`. */
  predicate Reached(u: nat, vote: Vote) {
    u < vote.term || (u == vote.term && vote.committed)
  }

  /** A leader after term `t` started without the first `k` entries of the leader of term `t`. */
  ghost predicate Misses(s: State, t: nat, k: nat, u: nat) {
    t in s.leaders && u in s.leaders && t < u && !Agree(s.leaders[u].initial, s.leaders[t].log, k)
  }

  ghost predicate Broken(s: State, t: nat, k: nat, vote: Vote) {
    exists u: nat :: Misses(s, t, k, u) && Reached(u, vote)
  }

  ghost predicate BrokenBefore(s: State, t: nat, k: nat, end: nat) {
    exists u: nat :: Misses(s, t, k, u) && u < end
  }

  /** What a node acknowledged is still in its log, unless a leader without it came along. */
  ghost predicate AckOk(s: State, a: (NodeId, nat)) {
    a in s.acks && a.0 in s.nodes && a.1 in s.leaders && s.acks[a] <= |s.leaders[a.1].log| &&
    var n := s.nodes[a.0];
    Reached(a.1, n.vote) &&
    forall k: nat | k <= s.acks[a] :: Agree(n.log, s.leaders[a.1].log, k) || Broken(s, a.1, k, n.vote)
  }

  /**
   * What a node had acknowledged was in its log when it granted a later vote, unless a leader without
   * it had come along.
   */
  ghost predicate VoterOk(s: State, a: (NodeId, nat), g: (NodeId, Vote)) {
    a in s.acks && g in s.grants && a.0 == g.0 && a.1 < g.1.term && a.1 in s.leaders ==>
      forall k: nat | k <= s.acks[a] ::
        Agree(s.grants[g], s.leaders[a.1].log, k) || BrokenBefore(s, a.1, k, g.1.term)
  }

  ghost predicate IsCommit(s: State, t: nat, k: nat) {
    k < |Commits(s, t)|
  }

  ghost predicate CommitOk(s: State, t: nat, k: nat) {
    IsCommit(s, t, k) && t in s.leaders &&
    var c, l := Commits(s, t)[k], s.leaders[t];
    && 0 < c.len <= c.size <= |l.log| && l.log[c.len - 1].term == t
    && IsQuorum(Effective(l.log[..c.size]), c.quorum)
    && forall y | y in c.quorum :: (y, t) in s.acks && c.len <= s.acks[(y, t)]
  }

  /** The commits of one leader are of ever longer logs. */
  ghost predicate CommitsAscend(s: State, t: nat) {
    forall j, k | 0 <= j < k < |Commits(s, t)| ::
      Commits(s, t)[j].len < Commits(s, t)[k].len && Commits(s, t)[j].size <= Commits(s, t)[k].size
  }

  /**
   * The first `end` entries of the leader of term `t` are committed, by a commit of this leader from before
   * it wrote entry `i`, or of an earlier leader.
   */
  ghost predicate CommittedBy(s: State, t: nat, end: nat, i: nat, u: nat, k: nat) {
    && IsCommit(s, u, k) && t in s.leaders && u in s.leaders && u <= t && end <= Commits(s, u)[k].len
    && Agree(s.leaders[t].log, s.leaders[u].log, end) && (u == t ==> Commits(s, u)[k].size <= i)
  }

  ghost predicate WasCommitted(s: State, t: nat, end: nat, i: nat) {
    exists u: nat, k: nat :: CommittedBy(s, t, end, i, u, k)
  }

  /** The leader of term `t` had committed an entry of its own before it wrote entry `i`. */
  ghost predicate HasOwnCommit(s: State, t: nat, i: nat) {
    exists k: nat :: IsCommit(s, t, k) && Commits(s, t)[k].size <= i
  }

  /** The membership at `i` was proposed on a committed one, forward, by a change or after an own commit. */
  ghost predicate ConfigOk(s: State, t: nat, i: nat) {
    t in s.leaders && i < |s.leaders[t].log| &&
    var l := s.leaders[t].log;
    var parent := Effective(l[..i]);
    && parent != [] && Forward(parent, l[i].configs) && WasCommitted(s, t, ConfigEnd(l[..i]), i)
    && (ByChange(parent, l[i].configs) || (DirectlyAppendable(parent, l[i].configs) && HasOwnCommit(s, t, i)))
  }

  ghost predicate ConfigsOk(s: State, t: nat) {
    t in s.leaders &&
    forall i | |s.leaders[t].initial| <= i < |s.leaders[t].log| && s.leaders[t].log[i].configs != [] ::
      ConfigOk(s, t, i)
  }

  /** What a node knows to be committed is what the leader of term `source` committed. */
  ghost predicate KnowsCommitted(s: State, n: Node) {
    0 < n.committed ==>
      && n.source in s.leaders && n.committed <= Committed(s, n.source)
      && n.source <= n.vote.term && Agree(WorkLog(s, n), s.leaders[n.source].log, n.committed)
  }

  ghost predicate NodeOk(s: State, x: NodeId, n: Node) {
    && LogOk(s, n.log)
    && (forall i | 0 <= i < |n.log| :: n.log[i].term == 0 || Reached(n.log[i].term, n.vote))
    && (n.vote.committed ==> n.vote.term in s.leaders && s.leaders[n.vote.term].node == n.vote.node)
    && (n.leading ==>
          && n.vote.node == x && n.vote.term in s.leaders && s.leaders[n.vote.term].node == x
          && Agree(n.log, s.leaders[n.vote.term].log, |n.log|))
    && (n.campaigning ==>
          && !n.leading && n.vote.node == x && n.vote in s.requests && s.requests[n.vote] == n.log
          && (n.vote.term in s.leaders ==> s.leaders[n.vote.term].node != x))
    && n.purged <= n.committed && n.purged <= |n.log| && KnowsCommitted(s, n)
  }

  ghost predicate Inv(s: State) {
    && s.boot != []
    && (forall x | x in s.nodes :: NodeOk(s, x, s.nodes[x]))
    && (forall t | t in s.leaders :: LeaderOk(s, t))
    && (forall t | t in s.leaders :: ConfigsOk(s, t))
    && (forall v | v in s.requests :: RequestOk(s, v))
    && (forall g | g in s.grants :: GrantOk(s, g))
    && (forall g, h | g in s.grants && h in s.grants :: SameVote(g, h))
    && (forall a | a in s.acks :: AckOk(s, a))
    && (forall a, g | a in s.acks && g in s.grants :: VoterOk(s, a, g))
    && (forall t: nat, k: nat | IsCommit(s, t, k) :: CommitOk(s, t, k))
    && (forall t: nat :: CommitsAscend(s, t))
  }

  // ---- What the invariant says of each part ----

  lemma NodeFact(s: State, x: NodeId)
    requires Inv(s) && x in s.nodes
    ensures NodeOk(s, x, s.nodes[x])
  {}

  lemma LeaderFact(s: State, t: nat)
    requires Inv(s) && t in s.leaders
    ensures LeaderOk(s, t)
  {}

  lemma RequestFact(s: State, v: Vote)
    requires Inv(s) && v in s.requests
    ensures RequestOk(s, v)
  {}

  lemma GrantFact(s: State, g: (NodeId, Vote))
    requires Inv(s) && g in s.grants
    ensures GrantOk(s, g)
  {}

  lemma AckFact(s: State, a: (NodeId, nat))
    requires Inv(s) && a in s.acks
    ensures AckOk(s, a)
  {}

  lemma VoterFact(s: State, a: (NodeId, nat), g: (NodeId, Vote))
    requires Inv(s) && a in s.acks && g in s.grants
    ensures VoterOk(s, a, g)
  {}

  lemma CommitFact(s: State, t: nat, k: nat)
    requires Inv(s) && IsCommit(s, t, k)
    ensures CommitOk(s, t, k) && CommitsAscend(s, t)
  {}

  lemma ConfigFact(s: State, t: nat, i: nat)
    requires Inv(s) && t in s.leaders && |s.leaders[t].initial| <= i < |s.leaders[t].log|
    requires s.leaders[t].log[i].configs != []
    ensures ConfigOk(s, t, i)
  {}

  // ---- Log matching ----

  /** Terms never go down along a log. */
  lemma TermsAscend(s: State, log: Log, i: nat, j: nat)
    requires Inv(s) && LogOk(s, log) && i <= j < |log|
    ensures log[i].term <= log[j].term
  {
    hide Inv;
    hide Elected;
    assert EntryOk(s, log, j);
    var u := log[j].term;
    if 0 < u {
      LeaderFact(s, u);
      var l := s.leaders[u];
      assert log[i] == l.log[i];
      if i < |l.initial| {
        assert l.initial[i].term < u;
      }
    }
  }

  /** Log matching: two logs with an entry of the same term at the same index agree up to it. */
  lemma LogMatching(s: State, a: Log, b: Log, i: nat)
    requires LogOk(s, a) && LogOk(s, b) && i < |a| && i < |b| && a[i].term == b[i].term
    ensures Agree(a, b, i + 1)
  {
    assert EntryOk(s, a, i) && EntryOk(s, b, i);
  }

  /** Among the prefixes of one log, log ids order by length. */
  lemma PrefixesOrderByLength(s: State, log: Log, i: nat, j: nat)
    requires Inv(s) && LogOk(s, log) && 0 < i <= |log| && j <= |log|
    ensures NotBehind(log[..j], log[..i]) <==> i <= j
  {
    hide Inv;
    hide LogOk;
    if i <= j {
      TermsAscend(s, log, i - 1, j - 1);
    } else if 0 < j {
      TermsAscend(s, log, j - 1, i - 1);
    }
  }

  lemma AgreeMeansPrefix(a: Log, b: Log, k: nat)
    ensures Agree(a, b, k) <==> k <= |a| && k <= |b| && a[..k] == b[..k]
  {
    if k <= |a| && k <= |b| && a[..k] == b[..k] {
      forall i | 0 <= i < k ensures a[i] == b[i] { assert a[..k][i] == b[..k][i]; }
    }
  }

  lemma AgreeSymmetric(a: Log, b: Log, k: nat)
    requires Agree(a, b, k)
    ensures Agree(b, a, k)
  {}

  lemma AgreeTransitive(a: Log, b: Log, c: Log, k: nat)
    requires Agree(a, b, k) && Agree(b, c, k)
    ensures Agree(a, c, k)
  {}

  lemma AgreeLess(a: Log, b: Log, j: nat, k: nat)
    requires Agree(a, b, k) && j <= k
    ensures Agree(a, b, j)
  {}

  // ---- Memberships in logs ----

  lemma FirstIsBoot(s: State, log: Log)
    requires Inv(s) && LogOk(s, log) && log != []
    ensures log[0] == Boot(s)
  {
    hide Inv;
    hide Elected;
    assert EntryOk(s, log, 0);
    if log[0].term != 0 { LeaderFact(s, log[0].term); }
  }

  /** A membership in a log, other than the first, was proposed by the leader of its term on a committed one. */
  lemma ConfigHistory(s: State, log: Log, i: nat) returns (u: nat, k: nat)
    requires Inv(s) && LogOk(s, log) && 0 < i < |log| && log[i].configs != []
    ensures var w, end := log[i].term, ConfigEnd(log[..i]);
            && w in s.leaders && Agree(log, s.leaders[w].log, i + 1) && s.leaders[w].log[..i] == log[..i]
            && ConfigOk(s, w, i) && |s.leaders[w].initial| <= i && 0 < end <= i
            && CommittedBy(s, w, end, i, u, k) && Agree(log, s.leaders[u].log, end)
  {
    hide Inv;
    hide ByChange;
    hide Forward;
    hide DirectlyAppendable;
    hide HasOwnCommit;
    var w, end := log[i].term, ConfigEnd(log[..i]);
    assert EntryOk(s, log, i);
    ConfigFact(s, w, i);
    assert s.leaders[w].log[..i] == log[..i];
    u, k :| CommittedBy(s, w, end, i, u, k);
    AgreeTransitive(log, s.leaders[w].log, s.leaders[u].log, end);
  }

  /** A log that has the membership at the end of another one's prefix has its last membership there or later. */
  lemma ConfigIsBelowEnd(a: Log, b: Log, end: nat)
    requires Agree(a, b, end) && 0 < end && a[end - 1].configs != []
    ensures end <= ConfigEnd(b)
  {}

  lemma ConfigEndOfPrefix(log: Log, k: nat)
    requires k <= |log|
    ensures ConfigEnd(log[..k]) <= k
    ensures forall i | 0 <= i < k && log[i].configs != [] :: i < ConfigEnd(log[..k])
    ensures 0 < ConfigEnd(log[..k]) ==> log[ConfigEnd(log[..k]) - 1].configs != []
  {
    forall i | 0 <= i < k && log[i].configs != [] ensures i < ConfigEnd(log[..k]) {
      assert log[..k][i] == log[i];
    }
  }

  /** The log has every commit that the leader of term `w` made before it wrote entry `i`. */
  ghost predicate HasCommitsBefore(s: State, w: nat, i: nat, log: Log) {
    w in s.leaders &&
    forall j: nat | IsCommit(s, w, j) && Commits(s, w)[j].size <= i ::
      Agree(log, s.leaders[w].log, Commits(s, w)[j].len)
  }

  /**
   * Of two memberships proposed on the same one, the later proposer cannot have had a commit of its own
   * before, since the other log has all such commits.
   */
  lemma NoCommitBetween(s: State, a: Log, b: Log, i: nat, j: nat)
    requires Inv(s) && LogOk(s, a) && LogOk(s, b) && 0 < i < |a| && 0 < j < |b|
    requires a[i].configs != [] && b[j].configs != [] && a[i].term < b[j].term
    requires ConfigEnd(a[..i]) == ConfigEnd(b[..j]) && HasCommitsBefore(s, b[j].term, j, a)
    ensures !HasOwnCommit(s, b[j].term, j)
  {
    hide Inv;
    hide LogOk;
    hide Elected;
    hide ConfigOk;
    hide CommittedBy;
    hide ConfigEnd;
    hide IsQuorum;
    var w := b[j].term;
    ConfigEndOfPrefix(a, i);
    ConfigEndOfPrefix(b, j);
    if HasOwnCommit(s, w, j) {
      var k: nat :| IsCommit(s, w, k) && Commits(s, w)[k].size <= j;
      var u, e := ConfigHistory(s, b, j);
      CommitFact(s, w, k);
      var len := Commits(s, w)[k].len;
      assert a[len - 1].term == w;
      if len - 1 <= i { TermsAscend(s, a, len - 1, i); }
      assert false;
    }
  }

  /** Two memberships that one leader proposed on the same one are the same. */
  lemma OneProposalPerLeader(s: State, a: Log, b: Log, i: nat, j: nat)
    requires Inv(s) && LogOk(s, a) && LogOk(s, b) && 0 < i < |a| && 0 < j < |b|
    requires a[i].configs != [] && b[j].configs != [] && a[i].term == b[j].term
    requires ConfigEnd(a[..i]) == ConfigEnd(b[..j])
    ensures i == j && a[i] == b[j]
  {
    hide Inv;
    hide LogOk;
    var u, k := ConfigHistory(s, a, i);
    var v, l := ConfigHistory(s, b, j);
    ConfigEndOfPrefix(a, i);
    ConfigEndOfPrefix(b, j);
  }

  /** Two memberships that were proposed on the same one, in logs that have each other's commits. */
  lemma SiblingsMeet(s: State, a: Log, b: Log, i: nat, j: nat)
    requires Inv(s) && LogOk(s, a) && LogOk(s, b) && 0 < i < |a| && 0 < j < |b|
    requires a[i].configs != [] && b[j].configs != []
    requires ConfigEnd(a[..i]) == ConfigEnd(b[..j]) && Agree(a, b, ConfigEnd(a[..i]))
    requires a[i].term < b[j].term ==> HasCommitsBefore(s, b[j].term, j, a)
    requires b[j].term < a[i].term ==> HasCommitsBefore(s, a[i].term, i, b)
    ensures Coherent(a[i].configs, b[j].configs)
  {
    hide Inv;
    hide LogOk;
    hide Coherent;
    hide HasOwnCommit;
    hide ByChange;
    hide Forward;
    hide DirectlyAppendable;
    var u, k := ConfigHistory(s, a, i);
    var v, l := ConfigHistory(s, b, j);
    ConfigEndOfPrefix(a, i);
    ConfigEndOfPrefix(b, j);
    assert Effective(a[..i]) == Effective(b[..j]);
    if a[i].term == b[j].term {
      OneProposalPerLeader(s, a, b, i, j);
      SelfCoherentIffDefined(a[i].configs);
    } else if a[i].term < b[j].term {
      NoCommitBetween(s, a, b, i, j);
      ProposalsMeet(Effective(a[..i]), a[i].configs, b[j].configs);
    } else {
      NoCommitBetween(s, b, a, j, i);
      ProposalsMeet(Effective(a[..i]), b[j].configs, a[i].configs);
    }
  }

  /** A membership and the one it was proposed on. */
  lemma ParentMeets(s: State, a: Log, b: Log)
    requires Inv(s) && LogOk(s, b) && 1 < ConfigEnd(b)
    requires ConfigEnd(b[..ConfigEnd(b) - 1]) == ConfigEnd(a) && Agree(a, b, ConfigEnd(a))
    ensures Coherent(Effective(a), Effective(b)) && Coherent(Effective(b), Effective(a))
  {
    hide Inv;
    hide LogOk;
    hide Coherent;
    var i := ConfigEnd(b) - 1;
    var u, k := ConfigHistory(s, b, i);
    ConfigEndOfPrefix(b, i);
    assert Effective(b[..i]) == Effective(a);
    ProposalMeetsParent(Effective(a), b[i].configs);
  }

  /**
   * Two logs of which each has the parent of the other's last membership, and the commits that came before
   * it: quorums of their effective memberships meet.
   */
  lemma LastConfigsMeet(s: State, a: Log, b: Log)
    requires Inv(s) && LogOk(s, a) && LogOk(s, b) && Effective(a) != [] && Effective(b) != []
    requires var i, j := ConfigEnd(a), ConfigEnd(b);
             && (1 < i ==> Agree(a, b, ConfigEnd(a[..i - 1])))
             && (1 < j ==> Agree(a, b, ConfigEnd(b[..j - 1])))
             && (1 < i && 1 < j && a[i - 1].term < b[j - 1].term ==> HasCommitsBefore(s, b[j - 1].term, j - 1, a))
             && (1 < i && 1 < j && b[j - 1].term < a[i - 1].term ==> HasCommitsBefore(s, a[i - 1].term, i - 1, b))
    ensures Coherent(Effective(a), Effective(b))
  {
    hide Inv;
    hide LogOk;
    hide Coherent;
    hide HasCommitsBefore;
    hide Agree;
    hide ConfigEnd;
    var i, j := ConfigEnd(a), ConfigEnd(b);
    if i == 1 && j == 1 {
      FirstIsBoot(s, a);
      FirstIsBoot(s, b);
      SelfCoherentIffDefined(Effective(a));
    } else if 1 < j && ConfigEnd(b[..j - 1]) == i {
      ParentMeets(s, a, b);
    } else if 1 < i && ConfigEnd(a[..i - 1]) == j {
      AgreeSymmetric(a, b, j);
      ParentMeets(s, b, a);
    } else {
      SameParent(s, a, b);
      SiblingsMeet(s, a, b, i - 1, j - 1);
    }
  }

  lemma SameParent(s: State, a: Log, b: Log)
    requires Inv(s) && LogOk(s, a) && LogOk(s, b) && 0 < ConfigEnd(a) && 0 < ConfigEnd(b)
    requires 1 < ConfigEnd(a) || 1 < ConfigEnd(b)
    requires var i, j := ConfigEnd(a), ConfigEnd(b);
             && (1 < i ==> Agree(a, b, ConfigEnd(a[..i - 1])) && ConfigEnd(a[..i - 1]) != j)
             && (1 < j ==> Agree(a, b, ConfigEnd(b[..j - 1])) && ConfigEnd(b[..j - 1]) != i)
    ensures 1 < ConfigEnd(a) && 1 < ConfigEnd(b)
    ensures ConfigEnd(a[..ConfigEnd(a) - 1]) == ConfigEnd(b[..ConfigEnd(b) - 1])
  {
    hide Inv;
    hide LogOk;
    hide ConfigEnd;
    hide Agree;
    if 1 < ConfigEnd(a) { ParentIsBelow(s, a, b); }
    if 1 < ConfigEnd(b) {
      AgreeSymmetric(a, b, ConfigEnd(b[..ConfigEnd(b) - 1]));
      ParentIsBelow(s, b, a);
      ParentIsBelow(s, a, b);
    }
  }

  lemma ParentIsBelow(s: State, a: Log, b: Log)
    requires Inv(s) && LogOk(s, a) && 1 < ConfigEnd(a) && 0 < ConfigEnd(b)
    requires var p := ConfigEnd(a[..ConfigEnd(a) - 1]); Agree(a, b, p) && p != ConfigEnd(b)
    ensures 1 < ConfigEnd(b) && ConfigEnd(a[..ConfigEnd(a) - 1]) <= ConfigEnd(b[..ConfigEnd(b) - 1])
  {
    hide Inv;
    hide LogOk;
    hide ConfigOk;
    hide CommittedBy;
    hide ConfigEnd;
    var i, j := ConfigEnd(a), ConfigEnd(b);
    var u, k := ConfigHistory(s, a, i - 1);
    ConfigEndOfPrefix(a, i - 1);
    ConfigIsBelowEnd(a, b, ConfigEnd(a[..i - 1]));
    ConfigEndOfPrefix(b, j - 1);
  }

  // ---- Leader completeness ----

  /** The candidate of term `u` has the first `k` entries of leader `t` if a voter had and all leaders between did. */
  lemma CandidateHasCommitted(s: State, t: nat, k: nat, v: Vote, w: Log)
    requires Inv(s) && t in s.leaders && v in s.requests && t < v.term
    requires 0 < k <= |s.leaders[t].log| && s.leaders[t].log[k - 1].term == t
    requires LeadersHave(s, t, k, v.term)
    requires LogOk(s, w) && Agree(w, s.leaders[t].log, k) && NotBehind(s.requests[v], w)
    ensures Agree(s.requests[v], s.leaders[t].log, k)
  {
    hide Inv;
    hide Elected;
    var c := s.requests[v];
    RequestFact(s, v);
    LeaderFact(s, t);
    TermsAscend(s, w, k - 1, |w| - 1);
    var last := |c| - 1;
    var m := c[last].term;
    assert EntryOk(s, c, last);
    if t < m {
      LeaderFact(s, m);
      assert Agree(c, s.leaders[m].log, |c|) && Agree(s.leaders[m].initial, s.leaders[t].log, k);
    }
  }

  /** All leaders after `t` and before `end` started with the first `k` entries of leader `t`. */
  ghost predicate LeadersHave(s: State, t: nat, k: nat, end: nat) {
    t in s.leaders && forall m | m in s.leaders && t < m < end :: Agree(s.leaders[m].initial, s.leaders[t].log, k)
  }

  /** The log has all commits of leaders before `t`, and the first `k` commits of leader `t`. */
  ghost predicate HasEarlierCommits(s: State, t: nat, k: nat, log: Log) {
    forall r: nat, j: nat | IsCommit(s, r, j) && (r < t || (r == t && j < k)) ::
      r in s.leaders && Agree(log, s.leaders[r].log, Commits(s, r)[j].len)
  }

  /**
   * What a log of a candidate has of a leader `r`, as far as it is committed, is in the log with which leader
   * `t` made its `k`-th commit, unless the candidate has that commit.
   */
  lemma CommittedIsShared(s: State, t: nat, k: nat, u: nat, log: Log, r: nat, j: nat, end: nat)
    requires Inv(s) && IsCommit(s, t, k) && IsCommit(s, r, j) && r < u && t in s.leaders && r in s.leaders
    requires LeadersHave(s, t, Commits(s, t)[k].len, u) && HasEarlierCommits(s, t, 0, s.leaders[t].initial)
    requires end <= Commits(s, r)[j].len && Agree(log, s.leaders[r].log, end)
    ensures var c, l := Commits(s, t)[k], s.leaders[t].log;
            Agree(log, l, c.len) || (end <= c.size && Agree(log, l, end))
  {
    hide Inv;
    hide LogOk;
    hide Elected;
    hide IsQuorum;
    CommitFact(s, t, k);
    LeaderFact(s, t);
    if t < r {
      LeaderFact(s, r);
    }
  }

  /** A quorum that committed and a quorum that elected meet, or the candidate has the commit anyway. */
  lemma CommitMeetsElection(s: State, t: nat, k: nat, u: nat, log: Log)
    requires Inv(s) && IsCommit(s, t, k) && t in s.leaders && t < u
    requires LogOk(s, log) && TermsBelow(log, u) && Effective(log) != []
    requires LeadersHave(s, t, Commits(s, t)[k].len, u) && HasEarlierCommits(s, t, 0, s.leaders[t].initial)
    requires HasEarlierCommits(s, t, k, log) && Commits(s, t)[k].size <= |s.leaders[t].log|
    ensures var c, l := Commits(s, t)[k], s.leaders[t].log;
            Agree(log, l, c.len) || Coherent(Effective(l[..c.size]), Effective(log))
  {
    hide Inv;
    hide LogOk;
    hide Elected;
    hide IsQuorum;
    hide Coherent;
    var c, l := Commits(s, t)[k], s.leaders[t].log;
    var a := l[..c.size];
    if !Agree(log, l, c.len) {
      CommittedLogIsOk(s, t, k);
      LogHasParent(s, t, k, u, log);
      CommittedLogHasParent(s, t, k, log);
      if 1 < ConfigEnd(a) && 1 < ConfigEnd(log) {
        LogHasCommitsBefore(s, t, k, u, log);
      }
      LastConfigsMeet(s, a, log);
    }
  }

  /** The log with which a leader made a commit. */
  lemma CommittedLogIsOk(s: State, t: nat, k: nat)
    requires Inv(s) && IsCommit(s, t, k)
    ensures CommitOk(s, t, k)
    ensures var a := s.leaders[t].log[..Commits(s, t)[k].size]; LogOk(s, a) && Effective(a) != []
  {
    hide Inv;
    hide LogOk;
    hide Elected;
    hide IsQuorum;
    CommitFact(s, t, k);
    LeaderFact(s, t);
    var a := s.leaders[t].log[..Commits(s, t)[k].size];
    PrefixIsOk(s, a, s.leaders[t].log);
    FirstIsBoot(s, a);
    BootIsDefined(s);
  }

  lemma BootIsDefined(s: State)
    requires Inv(s)
    ensures s.boot != []
  {}

  lemma LogHasParent(s: State, t: nat, k: nat, u: nat, log: Log)
    requires Inv(s) && IsCommit(s, t, k) && t in s.leaders && LogOk(s, log) && TermsBelow(log, u)
    requires LeadersHave(s, t, Commits(s, t)[k].len, u) && HasEarlierCommits(s, t, 0, s.leaders[t].initial)
    requires Commits(s, t)[k].size <= |s.leaders[t].log|
    ensures var c, l, j := Commits(s, t)[k], s.leaders[t].log, ConfigEnd(log);
            Agree(log, l, c.len) || (1 < j ==> Agree(l[..c.size], log, ConfigEnd(log[..j - 1])))
  {
    hide Inv;
    hide LogOk;
    hide ConfigOk;
    hide ConfigEnd;
    var j := ConfigEnd(log);
    if 1 < j {
      var r, e := ConfigHistory(s, log, j - 1);
      CommittedIsShared(s, t, k, u, log, r, e, ConfigEnd(log[..j - 1]));
    }
  }

  lemma CommittedLogHasParent(s: State, t: nat, k: nat, log: Log)
    requires Inv(s) && IsCommit(s, t, k) && t in s.leaders && HasEarlierCommits(s, t, k, log) && CommitOk(s, t, k)
    requires LogOk(s, s.leaders[t].log[..Commits(s, t)[k].size])
    ensures var a := s.leaders[t].log[..Commits(s, t)[k].size];
            var i := ConfigEnd(a);
            1 < i ==> Agree(a, log, ConfigEnd(a[..i - 1]))
  {
    hide Inv;
    hide LogOk;
    hide IsQuorum;
    var a := s.leaders[t].log[..Commits(s, t)[k].size];
    var i := ConfigEnd(a);
    if 1 < i {
      var r, e := ConfigHistory(s, a, i - 1);
      var end := ConfigEnd(a[..i - 1]);
      TermIsNotLater(s, t, a, i - 1);
      EarlierCommit(s, t, k, r, e, i - 1);
      AgreeLess(log, s.leaders[r].log, end, Commits(s, r)[e].len);
      AgreeSymmetric(log, s.leaders[r].log, end);
      AgreeTransitive(a, s.leaders[r].log, log, end);
    }
  }

  lemma TermIsNotLater(s: State, t: nat, a: Log, i: nat)
    requires Inv(s) && t in s.leaders && a <= s.leaders[t].log && i < |a|
    ensures a[i].term <= t
  {
    hide Inv;
    hide LogOk;
    hide Elected;
    LeaderFact(s, t);
    var l := s.leaders[t];
    if i < |l.initial| { assert l.initial[i].term < t; }
  }

  /** A commit that leader `t` made before it wrote an entry below the size of its `k`-th one came before that. */
  lemma EarlierCommit(s: State, t: nat, k: nat, r: nat, e: nat, i: nat)
    requires Inv(s) && IsCommit(s, t, k) && IsCommit(s, r, e) && i < Commits(s, t)[k].size
    requires r == t ==> Commits(s, t)[e].size <= i
    ensures r == t ==> e < k
  {
    hide Inv;
    CommitFact(s, t, k);
  }

  lemma LogHasCommitsBefore(s: State, t: nat, k: nat, u: nat, log: Log)
    requires Inv(s) && IsCommit(s, t, k) && CommitOk(s, t, k) && LogOk(s, log) && TermsBelow(log, u)
    requires LogOk(s, s.leaders[t].log[..Commits(s, t)[k].size])
    requires LeadersHave(s, t, Commits(s, t)[k].len, u) && HasEarlierCommits(s, t, 0, s.leaders[t].initial)
    requires HasEarlierCommits(s, t, k, log) && !Agree(log, s.leaders[t].log, Commits(s, t)[k].len)
    requires 1 < ConfigEnd(s.leaders[t].log[..Commits(s, t)[k].size]) && 1 < ConfigEnd(log)
    ensures var a := s.leaders[t].log[..Commits(s, t)[k].size];
            var i, j := ConfigEnd(a), ConfigEnd(log);
            && HasCommitsBefore(s, log[j - 1].term, j - 1, a)
            && HasCommitsBefore(s, a[i - 1].term, i - 1, log)
  {
    hide Inv;
    hide LogOk;
    hide IsQuorum;
    var a := s.leaders[t].log[..Commits(s, t)[k].size];
    var i, j := ConfigEnd(a), ConfigEnd(log);
    var w := log[j - 1].term;
    var r, e := ConfigHistory(s, log, j - 1);
    var q, f := ConfigHistory(s, a, i - 1);
    TermIsNotLater(s, t, a, i - 1);
    var x := a[i - 1].term;
    forall m: nat | IsCommit(s, x, m) && Commits(s, x)[m].size <= i - 1
      ensures Agree(log, s.leaders[x].log, Commits(s, x)[m].len)
    {
      EarlierCommit(s, t, k, x, m, i - 1);
    }
    forall m: nat | IsCommit(s, w, m) && Commits(s, w)[m].size <= j - 1
      ensures Agree(a, s.leaders[w].log, Commits(s, w)[m].len)
    {
      CommitFact(s, w, m);
      CommitBeforeIsIn(s, t, k, u, log, j - 1, m);
    }
  }

  lemma CommitBeforeIsIn(s: State, t: nat, k: nat, u: nat, log: Log, i: nat, m: nat)
    requires Inv(s) && CommitOk(s, t, k) && i < |log| && log[i].term < u
    requires var w := log[i].term;
             && CommitOk(s, w, m) && Commits(s, w)[m].size <= i && |s.leaders[w].initial| <= i
             && Agree(log, s.leaders[w].log, i + 1)
    requires LeadersHave(s, t, Commits(s, t)[k].len, u) && HasEarlierCommits(s, t, 0, s.leaders[t].initial)
    requires !Agree(log, s.leaders[t].log, Commits(s, t)[k].len)
    ensures var w := log[i].term;
            Agree(s.leaders[t].log[..Commits(s, t)[k].size], s.leaders[w].log, Commits(s, w)[m].len)
  {
    hide Inv;
    hide LogOk;
    hide IsQuorum;
    hide Elected;
    LeaderFact(s, t);
    LeaderFact(s, log[i].term);
  }

  /**
   * Leader completeness: a candidate that a quorum of its own membership voted for, and so every leader, has
   * everything that leaders of earlier terms had committed, each by a quorum of its membership then.
   */
  lemma {:induction false} LeaderCompleteness(s: State, t: nat, k: nat, v: Vote, voters: set<NodeId>)
    requires Inv(s) && IsCommit(s, t, k) && Elected(s, v, voters) && t < v.term
    ensures t in s.leaders && Agree(s.requests[v], s.leaders[t].log, Commits(s, t)[k].len)
    decreases v.term, t, k
  {
    hide Inv;
    hide Agree;
    hide LogOk;
    hide IsQuorum;
    hide NotBehind;
    hide VoterOk;
    hide CommitsAscend;
    var log := s.requests[v];
    CommitFact(s, t, k);
    RequestFact(s, v);
    var c := Commits(s, t)[k];
    forall m | m in s.leaders && t < m < v.term ensures Agree(s.leaders[m].initial, s.leaders[t].log, c.len) {
      LeaderFact(s, m);
      LeaderCompleteness(s, t, k, Vote(m, s.leaders[m].node, false), s.leaders[m].voters);
    }
    forall r: nat, j: nat | IsCommit(s, r, j) && (r < t || (r == t && j < k))
      ensures r in s.leaders && Agree(log, s.leaders[r].log, Commits(s, r)[j].len)
    {
      LeaderCompleteness(s, r, j, v, voters);
    }
    LeaderFact(s, t);
    forall r: nat, j: nat | IsCommit(s, r, j) && r < t
      ensures r in s.leaders && Agree(s.leaders[t].initial, s.leaders[r].log, Commits(s, r)[j].len)
    {
      LeaderCompleteness(s, r, j, Vote(t, s.leaders[t].node, false), s.leaders[t].voters);
    }
    CommitMeetsElection(s, t, k, v.term, log);
    if !Agree(log, s.leaders[t].log, c.len) {
      VoterHasCommit(s, t, k, v, voters);
    }
  }

  /** A node that took part in both has the commit in the log it voted with. */
  lemma VoterHasCommit(s: State, t: nat, k: nat, v: Vote, voters: set<NodeId>)
    requires Inv(s) && CommitOk(s, t, k) && Elected(s, v, voters) && t < v.term
    requires LeadersHave(s, t, Commits(s, t)[k].len, v.term)
    requires Coherent(Effective(s.leaders[t].log[..Commits(s, t)[k].size]), Effective(s.requests[v]))
    ensures Agree(s.requests[v], s.leaders[t].log, Commits(s, t)[k].len)
  {
    hide Inv;
    hide Agree;
    hide LogOk;
    hide IsQuorum;
    hide NotBehind;
    var c := Commits(s, t)[k];
    assert c.quorum * voters != {};
    var y :| y in c.quorum * voters;
    VoterFact(s, (y, t), (y, v));
    GrantFact(s, (y, v));
    assert !BrokenBefore(s, t, c.len, v.term);
    CandidateHasCommitted(s, t, c.len, v, s.grants[(y, v)]);
  }

  /** Every leader has what leaders of earlier terms, and it itself, had committed. */
  lemma CommitIsInLeader(s: State, source: nat, t: nat)
    requires Inv(s) && t in s.leaders && source <= t && 0 < Committed(s, source)
    ensures source in s.leaders && Agree(s.leaders[t].log, s.leaders[source].log, Committed(s, source))
  {
    hide Inv;
    hide LogOk;
    hide IsQuorum;
    hide Elected;
    var k := |Commits(s, source)| - 1;
    CommitFact(s, source, k);
    LeaderFact(s, t);
    if source < t {
      LeaderCompleteness(s, source, k, Vote(t, s.leaders[t].node, false), s.leaders[t].voters);
    }
  }

  /** What one leader committed agrees with what any other leader committed. */
  lemma CommitsAgree(s: State, t: nat, u: nat)
    requires Inv(s) && 0 < Committed(s, t) && 0 < Committed(s, u) && t <= u
    ensures t in s.leaders && u in s.leaders
    ensures Agree(s.leaders[u].log, s.leaders[t].log, Min(Committed(s, t), Committed(s, u)))
  {
    hide Inv;
    hide LogOk;
    hide IsQuorum;
    CommitFact(s, u, |Commits(s, u)| - 1);
    CommitIsInLeader(s, t, u);
  }

  lemma PrefixIsOk(s: State, log: Log, whole: Log)
    requires LogOk(s, whole) && log <= whole
    ensures LogOk(s, log)
  {
    forall i | 0 <= i < |log| ensures EntryOk(s, log, i) {
      assert EntryOk(s, whole, i);
    }
  }

  // ---- One leader per term ----

  /** Two candidates of one term that quorums of their own memberships voted for have memberships that meet. */
  lemma ElectionsMeet(s: State, v: Vote, p: set<NodeId>, w: Vote, q: set<NodeId>)
    requires Inv(s) && Elected(s, v, p) && Elected(s, w, q) && v.term == w.term
    ensures Coherent(Effective(s.requests[v]), Effective(s.requests[w]))
  {
    hide Inv;
    hide LogOk;
    hide Agree;
    hide Coherent;
    hide IsQuorum;
    hide ConfigEnd;
    hide ConfigOk;
    var a, b := s.requests[v], s.requests[w];
    RequestFact(s, v);
    RequestFact(s, w);
    if 1 < ConfigEnd(a) {
      CandidateHasParent(s, a, w, q);
      CandidateHasCommits(s, a, ConfigEnd(a) - 1, w, q);
    }
    if 1 < ConfigEnd(b) {
      CandidateHasParent(s, b, v, p);
      AgreeSymmetric(b, a, ConfigEnd(b[..ConfigEnd(b) - 1]));
      CandidateHasCommits(s, b, ConfigEnd(b) - 1, v, p);
    }
    LastConfigsMeet(s, a, b);
  }

  lemma CandidateHasParent(s: State, log: Log, v: Vote, voters: set<NodeId>)
    requires Inv(s) && LogOk(s, log) && TermsBelow(log, v.term) && Elected(s, v, voters) && 1 < ConfigEnd(log)
    ensures Agree(log, s.requests[v], ConfigEnd(log[..ConfigEnd(log) - 1]))
  {
    hide Inv;
    hide LogOk;
    hide Elected;
    hide ConfigEnd;
    hide ConfigOk;
    var i := ConfigEnd(log) - 1;
    var u, k := ConfigHistory(s, log, i);
    LeaderCompleteness(s, u, k, v, voters);
  }

  lemma CandidateHasCommits(s: State, log: Log, i: nat, v: Vote, voters: set<NodeId>)
    requires Inv(s) && LogOk(s, log) && 0 < i < |log| && log[i].configs != []
    requires TermsBelow(log, v.term) && Elected(s, v, voters)
    ensures HasCommitsBefore(s, log[i].term, i, s.requests[v])
  {
    hide Inv;
    hide LogOk;
    hide IsQuorum;
    hide ConfigEnd;
    hide ConfigOk;
    hide Agree;
    var w := log[i].term;
    var u, k := ConfigHistory(s, log, i);
    forall j: nat | IsCommit(s, w, j) && Commits(s, w)[j].size <= i
      ensures Agree(s.requests[v], s.leaders[w].log, Commits(s, w)[j].len)
    {
      LeaderCompleteness(s, w, j, v, voters);
    }
  }

  /** Two campaigns of one term that quorums granted are run by the same node. */
  lemma OneWinner(s: State, v: Vote, p: set<NodeId>, w: Vote, q: set<NodeId>)
    requires Inv(s) && Elected(s, v, p) && Elected(s, w, q) && v.term == w.term
    ensures v == w
  {
    hide Inv;
    hide IsQuorum;
    ElectionsMeet(s, v, p, w, q);
    assert p * q != {};
    var y :| y in p * q;
    SameVoteFact(s, (y, v), (y, w));
  }

  lemma SameVoteFact(s: State, g: (NodeId, Vote), h: (NodeId, Vote))
    requires Inv(s) && g in s.grants && h in s.grants
    ensures SameVote(g, h)
  {}

  /** A term has one leader: a campaign with a quorum of grants is the first one of its term to win. */
  lemma TermIsNew(s: State, x: NodeId, voters: set<NodeId>)
    requires Inv(s) && Enabled(s, Win(x, voters))
    ensures s.nodes[x].vote.term !in s.leaders
  {
    hide Inv;
    hide LogOk;
    hide Elected;
    var v := s.nodes[x].vote;
    NodeFact(s, x);
    if v.term in s.leaders {
      LeaderFact(s, v.term);
      var l := s.leaders[v.term];
      OneWinner(s, v, voters, Vote(v.term, l.node, false), l.voters);
      assert false;
    }
  }
}
