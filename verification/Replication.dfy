/**
 * Log replication as a multi-node step machine whose membership is in the log: initialization, votes,
 * leaders, membership changes, appends, snapshots, acknowledgements, commits, purges and restarts. Messages
 * may be lost, delayed or repeated.
 *
 * The vote and the log of a node are the stored ones. A node answers only once its writes are stored, so
 * a handler is one step, taken when its writes are stored; a crash before that is a run without the step.
 * Only a leader's own entries go out earlier: they are in the leader's log, and reach its stored log later.
 */
module Replication {
  import opened Quorum
  import opened Votes
  import opened Memberships

  /** A log entry. `configs` is the membership it carries, and empty for every other entry. */
  datatype Entry = Entry(term: nat, payload: nat, configs: Joint)

  type Log = seq<Entry>

  /**
   * One node. `committed` entries at the front of its log are committed, as the leader of term `source`
   * said, and of these `purged` are no longer stored. It may be campaigning, or leading, with its vote.
   */
  datatype Node = Node(
    vote: Vote,
    log: Log,
    committed: nat,
    source: nat,
    purged: nat,
    campaigning: bool,
    leading: bool
  )

  /** An established leader: its log when it was elected, its log now, and the nodes that voted for it. */
  datatype Leader = Leader(node: NodeId, initial: Log, log: Log, voters: set<NodeId>)

  /** A commit of the first `len` entries, by a quorum of the membership in a log of `size` entries. */
  datatype Commit = Commit(len: nat, size: nat, quorum: set<NodeId>)

  /**
   * A cluster. `boot` is the membership that every initialized node starts with. `requests` holds the log
   * of each candidate when it started its campaign, `grants` the log of each voter when it granted a vote,
   * `leaders` the leader of each term, `acks` how many entries a node has acknowledged to the leader of a
   * term, and `commits` the commits of each leader, in order.
   */
  datatype State = State(
    boot: Joint,
    nodes: map<NodeId, Node>,
    requests: map<Vote, Log>,
    grants: map<(NodeId, Vote), Log>,
    leaders: map<nat, Leader>,
    acks: map<(NodeId, nat), nat>,
    commits: map<nat, seq<Commit>>
  )

  datatype Step =
    | Initialize(x: NodeId)
    | Elect(x: NodeId)
    | GrantVote(x: NodeId, vote: Vote)
    | Observe(x: NodeId, vote: Vote)
    | Win(x: NodeId, voters: set<NodeId>)
    | SaveCommitted(x: NodeId)
    | Propose(x: NodeId, payload: nat)
    | ChangeMembership(x: NodeId, goal: set<NodeId>)
    | AppendMembership(x: NodeId, configs: Joint)
    | LocalFlush(x: NodeId, len: nat)
    | Append(x: NodeId, term: nat, prev: nat, count: nat)
    | InstallSnapshot(x: NodeId, term: nat, source: nat, len: nat)
    | Purge(x: NodeId, upto: nat)
    | LeaderCommit(x: NodeId, len: nat, quorum: set<NodeId>)
    | FollowerCommit(x: NodeId, term: nat)
    | Restart(x: NodeId, committed: nat)

  const FRESH := Node(NO_VOTE, [], 0, 0, 0, false, false)

  // ---- Logs ----

  /** The two logs have the same first `k` entries. */
  ghost predicate Agree(a: Log, b: Log, k: nat) {
    k <= |a| && k <= |b| && forall i | 0 <= i < k :: a[i] == b[i]
  }

  /** Log ids order logs by the term of the last entry and then by length. */
  predicate NotBehind(a: Log, b: Log) {
    b == [] || (a != [] &&
      (b[|b| - 1].term < a[|a| - 1].term || (b[|b| - 1].term == a[|a| - 1].term && |b| <= |a|)))
  }

  /** The length that goes with the lesser of the last log ids of two logs. */
  function LesserById(a: Log, b: Log): nat {
    if NotBehind(b, a) then |a| else |b|
  }

  /** How many entries there are up to the last one that carries a membership. */
  function ConfigEnd(log: Log): (end: nat)
    ensures end <= |log| && (0 < end ==> log[end - 1].configs != [])
    ensures forall i | end <= i < |log| :: log[i].configs == []
  {
    if log == [] then 0
    else if log[|log| - 1].configs != [] then |log|
    else ConfigEnd(log[..|log| - 1])
  }

  /** The effective membership: the last one in the log, committed or not. */
  function Effective(log: Log): Joint {
    if ConfigEnd(log) == 0 then [] else log[ConfigEnd(log) - 1].configs
  }

  function Cut(log: Log, k: nat): Log {
    if k <= |log| then log[..k] else log
  }

  // ---- A follower ----

  /** Whether a node has the entry with this id. Below its committed index it takes that for granted. */
  predicate HasLogId(n: Node, index: nat, term: nat) {
    index < n.committed || (n.purged <= index < |n.log| && n.log[index].term == term)
  }

  /** The first of the leader's entries in `[start, end)` that the node does not have. */
  function FirstConflict(n: Node, leader: Log, start: nat, end: nat): (k: nat)
    requires start <= end <= |leader|
    ensures start <= k <= end
    ensures forall i | start <= i < k :: HasLogId(n, i, leader[i].term)
    ensures k < end ==> !HasLogId(n, k, leader[k].term)
    decreases end - start
  {
    if start == end || !HasLogId(n, start, leader[start].term) then start
    else FirstConflict(n, leader, start + 1, end)
  }

  predicate Consecutive(n: Node, leader: Log, prev: nat)
    requires prev <= |leader|
  {
    prev == 0 || HasLogId(n, prev - 1, leader[prev - 1].term)
  }

  /** The follower's log after an append of the leader's entries `[prev, end)`. */
  function AppendedLog(n: Node, leader: Log, prev: nat, end: nat): Log
    requires prev <= end <= |leader|
  {
    if !Consecutive(n, leader, prev) then Cut(n.log, prev - 1)
    else
      var since := FirstConflict(n, leader, prev, end);
      if since < end then Cut(n.log, since) + leader[since..end] else n.log
  }

  /**
   * The follower's log after a snapshot of the leader's first `len` entries: if the log has the last of
   * them it stays, otherwise it is replaced.
   */
  function SnapshotLog(n: Node, leader: Log, len: nat): Log
    requires 0 < len <= |leader|
  {
    if HasLogId(n, len - 1, leader[len - 1].term) then n.log else leader[..len]
  }

  /** A node that takes over another vote gives up its campaign or its leadership. */
  function Follow(n: Node, v: Vote): Node {
    n.(vote := v, campaigning := false, leading := false)
  }

  // ---- The cluster ----

  ghost predicate IsLeader(s: State, x: NodeId) {
    x in s.nodes && s.nodes[x].leading && s.nodes[x].vote.term in s.leaders
  }

  /** The log that a node works with: a leader's own entries are in it before they are stored. */
  ghost function WorkLog(s: State, n: Node): Log {
    if n.leading && n.vote.term in s.leaders then s.leaders[n.vote.term].log else n.log
  }

  /** A node takes over another vote only after the writes before it are stored. */
  ghost predicate Settled(s: State, n: Node) {
    WorkLog(s, n) == n.log
  }

  ghost function Boot(s: State): Entry {
    Entry(0, 0, s.boot)
  }

  ghost function Commits(s: State, t: nat): seq<Commit> {
    if t in s.commits then s.commits[t] else []
  }

  /** How many entries a leader has committed. */
  ghost function Committed(s: State, t: nat): nat {
    if Commits(s, t) == [] then 0 else Commits(s, t)[|Commits(s, t)| - 1].len
  }

  /** A leader may propose a membership once it knows that its effective one is committed. */
  ghost predicate MayChange(s: State, x: NodeId) {
    IsLeader(s, x) && 0 < ConfigEnd(WorkLog(s, s.nodes[x])) <= s.nodes[x].committed
  }

  /** A campaign of which a quorum of the candidate's own effective membership granted the vote. */
  ghost predicate Elected(s: State, v: Vote, voters: set<NodeId>) {
    && v in s.requests && IsQuorum(Effective(s.requests[v]), voters)
    && forall y | y in voters :: (y, v) in s.grants
  }

  ghost predicate Enabled(s: State, step: Step) {
    step.x in s.nodes &&
    var n := s.nodes[step.x];
    match step
    case Initialize(_) => n.vote.term == 0 && n.log == []
    case Elect(_) => Settled(s, n) && Effective(n.log) != []
    case GrantVote(x, v) =>
      v in s.requests && v.node != x && Le(n.vote, v) && Settled(s, n) && NotBehind(s.requests[v], n.log)
    case Observe(x, v) =>
      && v.node != x && Le(n.vote, v) && Settled(s, n)
      && (v.committed ==> v.term in s.leaders && s.leaders[v.term].node == v.node)
    case Win(x, voters) => n.campaigning && Elected(s, n.vote, voters)
    case SaveCommitted(x) => IsLeader(s, x)
    case Propose(x, _) => IsLeader(s, x)
    case ChangeMembership(x, _) => MayChange(s, x)
    case AppendMembership(x, configs) =>
      && MayChange(s, x) && DirectlyAppendable(Effective(WorkLog(s, n)), configs)
      && 0 < Committed(s, n.vote.term)
    case LocalFlush(x, len) => IsLeader(s, x) && n.vote.committed && |n.log| <= len <= |WorkLog(s, n)|
    case Append(x, t, prev, count) =>
      && t in s.leaders && s.leaders[t].node != x && prev + count <= |s.leaders[t].log|
      && Le(n.vote, Vote(t, s.leaders[t].node, true)) && Settled(s, n)
    case InstallSnapshot(x, t, source, len) =>
      && t in s.leaders && s.leaders[t].node != x && 0 < len <= |s.leaders[t].log|
      && source <= t && len <= Committed(s, source)
      && Le(n.vote, Vote(t, s.leaders[t].node, true)) && Settled(s, n)
    case Purge(_, upto) => n.purged <= upto <= n.committed && upto <= |n.log|
    case LeaderCommit(x, len, quorum) =>
      && IsLeader(s, x) && 0 < len <= |WorkLog(s, n)| && WorkLog(s, n)[len - 1].term == n.vote.term
      && IsQuorum(Effective(WorkLog(s, n)), quorum)
      && forall y | y in quorum :: (y, n.vote.term) in s.acks && len <= s.acks[(y, n.vote.term)]
    case FollowerCommit(x, t) =>
      && !n.leading && n.vote.committed && n.vote.term in s.leaders && (x, n.vote.term) in s.acks
      && 0 < Committed(s, t) && t in s.leaders && t <= n.vote.term
    case Restart(_, committed) => n.purged <= committed <= n.committed && committed <= |n.log|
  }

  function Max(a: nat, b: nat): nat { if a < b then b else a }

  function Min(a: nat, b: nat): nat { if a < b then a else b }

  function Acked(acks: map<(NodeId, nat), nat>, x: NodeId, t: nat, len: nat): map<(NodeId, nat), nat> {
    acks[(x, t) := if (x, t) in acks then Max(acks[(x, t)], len) else len]
  }

  /** A node learns that its first `len` entries are committed; it does not forget a longer commit. */
  function WithCommit(n: Node, t: nat, len: nat): Node {
    if n.committed < len then n.(committed := len, source := t) else n
  }

  /** A leader appends an entry to its own log. */
  ghost function Proposed(s: State, n: Node, payload: nat, configs: Joint): State
    requires n.vote.term in s.leaders
  {
    var t := n.vote.term;
    var l := s.leaders[t];
    s.(leaders := s.leaders[t := l.(log := l.log + [Entry(t, payload, configs)])])
  }

  ghost function Apply(s: State, step: Step): State
    requires Enabled(s, step)
  {
    var x := step.x;
    var n := s.nodes[x];
    match step
    case Initialize(_) => s.(nodes := s.nodes[x := n.(log := [Boot(s)])])
    case Elect(_) =>
      var v := Vote(n.vote.term + 1, x, false);
      s.(nodes := s.nodes[x := Follow(n, v).(campaigning := true)],
         requests := s.requests[v := n.log], grants := s.grants[(x, v) := n.log])
    case GrantVote(_, v) =>
      s.(nodes := s.nodes[x := Follow(n, v)],
         grants := if (x, v) in s.grants then s.grants else s.grants[(x, v) := n.log])
    case Observe(_, v) => s.(nodes := s.nodes[x := Follow(n, v)])
    case Win(_, voters) =>
      s.(nodes := s.nodes[x := n.(campaigning := false, leading := true)],
         leaders := s.leaders[n.vote.term := Leader(x, n.log, n.log, voters)])
    case SaveCommitted(_) => s.(nodes := s.nodes[x := n.(vote := n.vote.Committed())])
    case Propose(_, payload) => Proposed(s, n, payload, [])
    case ChangeMembership(_, goal) => Proposed(s, n, 0, FindCoherent(Effective(WorkLog(s, n)), goal))
    case AppendMembership(_, configs) => Proposed(s, n, 0, configs)
    case LocalFlush(_, len) =>
      s.(nodes := s.nodes[x := n.(log := Cut(WorkLog(s, n), len))], acks := Acked(s.acks, x, n.vote.term, len))
    case Append(_, t, prev, count) =>
      var l := s.leaders[t];
      var m := Follow(n, Vote(t, l.node, true)).(log := AppendedLog(n, l.log, prev, prev + count));
      s.(nodes := s.nodes[x := m],
         acks := if Consecutive(n, l.log, prev) then Acked(s.acks, x, t, prev + count) else s.acks)
    case InstallSnapshot(_, t, source, len) =>
      var l := s.leaders[t];
      var m := Follow(n, Vote(t, l.node, true)).(log := SnapshotLog(n, l.log, len));
      s.(nodes := s.nodes[x := if n.committed < len then WithCommit(m, source, len).(purged := len) else m],
         acks := Acked(s.acks, x, t, len))
    case Purge(_, upto) => s.(nodes := s.nodes[x := n.(purged := upto)])
    case LeaderCommit(_, len, quorum) =>
      var t := n.vote.term;
      var c := Commit(len, |WorkLog(s, n)|, quorum);
      if len <= Committed(s, t) then s
      else s.(commits := s.commits[t := Commits(s, t) + [c]], nodes := s.nodes[x := WithCommit(n, t, len)])
    case FollowerCommit(_, t) =>
      var u := n.vote.term;
      var len := LesserById(Cut(s.leaders[t].log, Committed(s, t)), Cut(s.leaders[u].log, s.acks[(x, u)]));
      s.(nodes := s.nodes[x := WithCommit(n, t, len)])
    case Restart(_, committed) =>
      s.(nodes := s.nodes[x := n.(committed := committed, campaigning := false, leading := false)])
  }

  /** If the step proposes a membership, that does not go back from a joint one. */
  ghost predicate GoesForward(s: State, step: Step)
    requires Enabled(s, step)
  {
    match step
    case ChangeMembership(x, goal) =>
      var configs := Effective(WorkLog(s, s.nodes[x]));
      Forward(configs, FindCoherent(configs, goal))
    case AppendMembership(x, configs) => Forward(Effective(WorkLog(s, s.nodes[x])), configs)
    case _ => true
  }

  ghost predicate Init(s: State) {
    && s.boot != [] && s.requests == map[] && s.grants == map[]
    && s.leaders == map[] && s.acks == map[] && s.commits == map[]
    && forall x | x in s.nodes :: s.nodes[x] == FRESH
  }

  // ---- Runs ----

  ghost predicate IsRun(s: State, steps: seq<Step>)
    decreases |steps|
  {
    steps != [] ==> Enabled(s, steps[0]) && IsRun(Apply(s, steps[0]), steps[1..])
  }

  /** A run in which no membership goes back from a joint one. */
  ghost predicate IsForward(s: State, steps: seq<Step>)
    requires IsRun(s, steps)
    decreases |steps|
  {
    steps != [] ==> GoesForward(s, steps[0]) && IsForward(Apply(s, steps[0]), steps[1..])
  }

  ghost function Run(s: State, steps: seq<Step>): State
    requires IsRun(s, steps)
    decreases |steps|
  {
    if steps == [] then s else Run(Apply(s, steps[0]), steps[1..])
  }
}
