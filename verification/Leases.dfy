/**
 * Leader leases as a multi-node step machine over one clock: a fixed membership of at least two
 * voters, one lease length, elections started by timers only, no restart and no leadership transfer.
 */
module Leases {
  import opened Common
  import opened Quorum
  import Acceptance
  import Proposer
  import opened Votes

  type Clock = map<NodeId, Acceptance.Value>

  datatype Config = Config(joint: Joint, lease: nat)

  datatype Leader = Leader(vote: Vote, clock: Clock)

  datatype Campaign = Campaign(vote: Vote, grants: set<NodeId>)

  /** One node: its vote with the time it was last confirmed and the lease that comes with it. */
  datatype Node = Node(
    vote: Vote,
    lastUpdate: Option<nat>,
    lease: nat,
    leader: Option<Leader>,
    candidate: Option<Campaign>
  )

  /** A follower accepted the RPC that the leader of `vote` sent at `sentAt`. */
  datatype Ack = Ack(voter: NodeId, vote: Vote, sentAt: nat)

  /**
   * A cluster at time `now`. `sends` and `acks` are the messages so far. `grants` records each grant
   * with the number of leaders established before it, `established` the established leaders in
   * order and `quorums` the nodes that granted each.
   */
  datatype State = State(
    now: nat,
    nodes: map<NodeId, Node>,
    sends: set<(Vote, nat)>,
    acks: set<Ack>,
    grants: map<(NodeId, Vote), nat>,
    established: seq<Vote>,
    quorums: seq<set<NodeId>>
  )

  datatype Step =
    | Tick(elapsed: nat)
    | Initialize(x: NodeId)
    | Elect(x: NodeId, timeout: nat)
    | VoteRequest(x: NodeId, vote: Vote, behind: bool)
    | CountGrant(x: NodeId, from: NodeId)
    | Send(x: NodeId)
    | Deliver(x: NodeId, vote: Vote, sentAt: nat)
    | HandleAck(x: NodeId, ack: Ack)
    | Rejected(x: NodeId, vote: Vote)
    | HigherVote(x: NodeId, vote: Vote)

  const FRESH := Node(NO_VOTE, None, 0, None, None)

  // ---- One node ----

  predicate Expired(n: Node, now: nat, timeout: nat) {
    n.lastUpdate.Some? ==> n.lastUpdate.value + n.lease + timeout < now
  }

  /** Accept a vote iff it is at least the local one; only a committed vote comes with a lease. */
  function UpdateVote(cfg: Config, x: NodeId, n: Node, v: Vote, now: nat): Node {
    if !Le(n.vote, v) then n
    else
      var m := n.(vote := v, lastUpdate := Some(now), lease := if v.committed then cfg.lease else 0);
      if v.node == x then m else m.(leader := None, candidate := None)
  }

  /** The vote of a node, with the time it was last confirmed and its lease, updated in place. */
  class LeasedVote {
    var data: Vote
    var lastUpdate: Option<nat>
    var lease: nat
    var leaseEnabled: bool

    /** A disabled lease stays at zero until the vote changes. */
    ghost predicate Valid()
      reads this
    {
      leaseEnabled || lease == 0
    }

    /** This vote as part of a node of the cluster. */
    ghost predicate Is(n: Node)
      reads this
    {
      data == n.vote && lastUpdate == n.lastUpdate && lease == n.lease
    }

    constructor (data: Vote)
      ensures Valid() && this.data == data && lastUpdate == None && lease == 0 && leaseEnabled
    {
      this.data, lastUpdate, lease, leaseEnabled := data, None, 0, true;
    }

    method Update(now: nat, lease: nat, data: Vote)
      modifies this
      ensures Valid() && this.data == data && lastUpdate == Some(now) && this.lease == lease && leaseEnabled
    {
      this.data, lastUpdate, this.lease, leaseEnabled := data, Some(now), lease, true;
    }

    method Touch(now: nat, lease: nat)
      requires Valid() && (lastUpdate.Some? ==> lastUpdate.value <= now)
      modifies this`lastUpdate, this`lease
      ensures Valid() && lastUpdate == Some(now) && this.lease == if leaseEnabled then lease else 0
    {
      lastUpdate := Some(now);
      if leaseEnabled {
        this.lease := lease;
      }
    }

    method DisableLease()
      modifies this`lease, this`leaseEnabled
      ensures Valid() && !leaseEnabled
    {
      lease, leaseEnabled := 0, false;
    }

    /** Whether the vote is expired at time `t`, for an election timeout. */
    ghost predicate ExpiredAt(t: nat, timeout: nat)
      reads this
    {
      lastUpdate.None? || lastUpdate.value + lease + timeout < t
    }

    method IsExpired(now: nat, timeout: nat) returns (expired: bool)
      requires Valid()
      ensures expired <==> lastUpdate.None? || lastUpdate.value + lease + timeout < now
      ensures expired <==> ExpiredAt(now, timeout)
      ensures forall n: Node | Is(n) :: expired <==> Expired(n, now, timeout)
      ensures !leaseEnabled && lastUpdate.Some? && lastUpdate.value + timeout < now ==> expired
    {
      expired := lastUpdate.None? || lastUpdate.value + lease + timeout < now;
    }

    /**
     * Accept a vote at `now` iff it is at least this one, as `UpdateVote` says of a node. Only the vote of a
     * leader comes with a lease, so that of a candidate holds back an election for its timeout only.
     */
    method Accept(cfg: Config, x: NodeId, v: Vote, now: nat) returns (accepted: bool)
      requires Valid() && (lastUpdate.Some? ==> lastUpdate.value <= now)
      modifies this
      ensures Valid() && (accepted <==> Le(old(data), v))
      ensures !accepted ==> unchanged(this)
      ensures accepted ==> data == v && lastUpdate == Some(now) && leaseEnabled == (old(leaseEnabled) || v != old(data))
      ensures accepted && !v.committed ==> lease == 0
      ensures accepted && !v.committed ==> forall t, timeout :: ExpiredAt(t, timeout) <==> now + timeout < t
      ensures accepted && v.committed && leaseEnabled ==> lease == cfg.lease
      ensures accepted && v.committed && leaseEnabled ==>
                forall t, timeout :: ExpiredAt(t, timeout) <==> now + cfg.lease + timeout < t
      ensures old(leaseEnabled) ==> leaseEnabled && forall n: Node | old(Is(n)) :: Is(UpdateVote(cfg, x, n, v, now))
    {
      if !Le(data, v) { return false; }
      VotesArePartiallyOrdered(data, v, v);
      var term := if v.committed then cfg.lease else 0;
      if Lt(data, v) {
        Update(now, term, v);
      } else {
        Touch(now, term);
      }
      accepted := true;
    }
  }

  /** Whether a leader holds its lease: it is the only voter, or a quorum acknowledged an RPC less than a lease ago. */
  ghost predicate LeaderLeaseValid(cfg: Config, x: NodeId, n: Node, now: nat) {
    n.leader.Some? && (Ids(cfg.joint) == {x} || Proposer.LeaseHolds(cfg.joint, n.leader.value.clock, now, cfg.lease))
  }

  /** A node refuses to vote while it follows a leader whose lease runs, or while its own lease is valid. */
  ghost predicate LeaseRuns(cfg: Config, x: NodeId, n: Node, now: nat) {
    (n.vote.committed && !Expired(n, now, 0)) || LeaderLeaseValid(cfg, x, n, now)
  }

  function FirstClock(cfg: Config, x: NodeId, now: nat): Clock {
    map id | id in Ids(cfg.joint) :: if id == x then Proposer.OfInstant(now) else Acceptance.ZERO
  }

  function Raise(clock: Clock, id: NodeId, t: nat): Clock {
    if id in clock then clock[id := Acceptance.Max(clock[id], Proposer.OfInstant(t))] else clock
  }

  // ---- The cluster ----

  /** A vote that exists: the node it names has held it, or has gone beyond it. */
  ghost predicate Issued(s: State, v: Vote) {
    v.node in s.nodes && Le(v, s.nodes[v.node].vote)
  }

  ghost predicate Enabled(cfg: Config, s: State, step: Step) {
    step.Tick? ||
    (step.x in s.nodes &&
     var n := s.nodes[step.x];
     match step
     case Initialize(_) => n.vote.term == 0
     case Elect(x, timeout) => n.leader.None? && x in Ids(cfg.joint) && Expired(n, s.now, timeout)
     case VoteRequest(x, v, _) => !v.committed && v.node != x && Issued(s, v)
     case CountGrant(_, from) => n.candidate.Some? && (from, n.candidate.value.vote) in s.grants
     case Send(_) => n.leader.Some?
     case Deliver(x, v, t) => (v, t) in s.sends && v.node != x
     case HandleAck(_, ack) => ack in s.acks && n.leader.Some? && n.leader.value.vote == ack.vote
     case Rejected(_, v) => n.candidate.Some? && !v.committed && Issued(s, v)
     case HigherVote(_, v) => n.leader.Some? && Issued(s, v) && (v.committed ==> v in s.established))
  }

  ghost predicate Wins(cfg: Config, c: Campaign, from: NodeId) {
    from in Ids(cfg.joint) && IsQuorum(cfg.joint, c.grants + {from})
  }

  ghost function Apply(cfg: Config, s: State, step: Step): State
    requires Enabled(cfg, s, step)
  {
    if step.Tick? then s.(now := s.now + step.elapsed)
    else
      var x := step.x;
      var n := s.nodes[x];
      match step
      case Initialize(_) =>
        s.(nodes := s.nodes[x := n.(vote := Vote(0, x, true), lastUpdate := Some(s.now), lease := 0)])
      case Elect(_, _) =>
        var v := Vote(n.vote.term + 1, x, false);
        var m := UpdateVote(cfg, x, n, v, s.now).(candidate := Some(Campaign(v, {})));
        s.(nodes := s.nodes[x := m], grants := s.grants[(x, v) := |s.established|])
      case VoteRequest(_, v, behind) =>
        if behind || LeaseRuns(cfg, x, n, s.now) || !Le(n.vote, v) then s
        else
          s.(nodes := s.nodes[x := UpdateVote(cfg, x, n, v, s.now)],
             grants := if (x, v) in s.grants then s.grants else s.grants[(x, v) := |s.established|])
      case CountGrant(_, from) =>
        var c := n.candidate.value;
        if Wins(cfg, c, from) then
          var v := c.vote.Committed();
          var leader := Some(Leader(v, FirstClock(cfg, x, s.now)));
          var m := UpdateVote(cfg, x, n, v, s.now).(candidate := None, leader := leader);
          s.(nodes := s.nodes[x := m], established := s.established + [v], quorums := s.quorums + [c.grants + {from}])
        else s.(nodes := s.nodes[x := n.(candidate := Some(c.(grants := c.grants + {from})))])
      case Send(_) => s.(sends := s.sends + {(n.leader.value.vote, s.now)})
      case Deliver(_, v, t) =>
        if !Le(n.vote, v) then s
        else s.(nodes := s.nodes[x := UpdateVote(cfg, x, n, v, s.now)], acks := s.acks + {Ack(x, v, t)})
      case HandleAck(_, ack) =>
        var l := n.leader.value;
        var clock := Raise(Raise(l.clock, x, ack.sentAt), ack.voter, ack.sentAt);
        s.(nodes := s.nodes[x := n.(leader := Some(l.(clock := clock)))])
      case Rejected(_, v) => s.(nodes := s.nodes[x := UpdateVote(cfg, x, n, v, s.now)])
      case HigherVote(_, v) => s.(nodes := s.nodes[x := UpdateVote(cfg, x, n, v, s.now)])
  }

  ghost predicate Init(s: State) {
    && s.sends == {} && s.acks == {} && s.grants == map[] && s.established == [] && s.quorums == []
    && forall x | x in s.nodes :: s.nodes[x] == FRESH
  }

  // ---- Invariant ----

  /** Among the first `k` established leaders, one has gone beyond `v`. */
  ghost predicate Overtaken(established: seq<Vote>, v: Vote, k: nat) {
    exists i :: 0 <= i < |established| && i < k && Lt(v, established[i])
  }

  /** The promise made by an ack sent for time `t` is over, or a later leader was established among the first `k`. */
  ghost predicate Released(cfg: Config, s: State, v: Vote, t: nat, k: nat) {
    t + cfg.lease < s.now || Overtaken(s.established, v, k)
  }

  ghost predicate ClockOk(s: State, x: NodeId, l: Leader) {
    forall y | y in l.clock && y != x && l.clock[y] != Acceptance.ZERO ::
      l.clock[y].major == 1 && Ack(y, l.vote, l.clock[y].minor) in s.acks
  }

  ghost predicate NodeOk(s: State, x: NodeId, n: Node) {
    && (n.vote.committed ==> n.vote in s.established || n.vote == Vote(0, x, true))
    && (n.vote.term == 0 ==> n.vote == NO_VOTE || n.vote == Vote(0, x, true))
    && (n.leader.Some? ==> n.leader.value.vote == n.vote && n.vote in s.established && n.vote.committed)
    && (n.leader.Some? ==> n.vote.node == x && 0 < n.vote.term && ClockOk(s, x, n.leader.value))
    && (n.candidate.Some? ==>
      n.candidate.value.vote == n.vote && !n.vote.committed && n.vote.node == x && 0 < n.vote.term)
    && (n.candidate.Some? ==> forall g | g in n.candidate.value.grants :: (g, n.vote) in s.grants)
  }

  ghost predicate AckOk(cfg: Config, s: State, a: Ack) {
    a.voter in s.nodes && a.vote in s.established && a.vote.node != a.voter && a.sentAt <= s.now &&
    var n := s.nodes[a.voter];
    && Le(a.vote, n.vote)
    && (n.vote == a.vote ==> n.lastUpdate.Some? && a.sentAt <= n.lastUpdate.value && n.lease == cfg.lease)
    && (n.vote != a.vote ==> Released(cfg, s, a.vote, a.sentAt, |s.established|))
  }

  /** A node that acked a leader grants a higher vote only once its promise is over. */
  ghost predicate PromiseOk(cfg: Config, s: State, a: Ack, g: (NodeId, Vote)) {
    g in s.grants && g.0 == a.voter && Lt(a.vote, g.1) ==> Released(cfg, s, a.vote, a.sentAt, s.grants[g])
  }

  ghost predicate GrantOk(s: State, g: (NodeId, Vote)) {
    g in s.grants && s.grants[g] <= |s.established| && g.0 in s.nodes && !g.1.committed && Le(g.1, s.nodes[g.0].vote)
  }

  ghost predicate WinOk(cfg: Config, s: State, i: nat) {
    i < |s.established| && i < |s.quorums| &&
    var v := s.established[i];
    && v.committed && 0 < v.term && Issued(s, v) && IsQuorum(cfg.joint, s.quorums[i])
    && forall y | y in s.quorums[i] :: (y, v.Uncommitted()) in s.grants && s.grants[(y, v.Uncommitted())] <= i
  }

  ghost predicate Inv(cfg: Config, s: State) {
    && |s.quorums| == |s.established|
    && (forall x | x in s.nodes :: NodeOk(s, x, s.nodes[x]))
    && (forall m | m in s.sends :: m.0 in s.established && m.1 <= s.now)
    && (forall a | a in s.acks :: AckOk(cfg, s, a))
    && (forall a, g | a in s.acks && g in s.grants :: PromiseOk(cfg, s, a, g))
    && (forall g | g in s.grants :: GrantOk(s, g))
    && (forall i | 0 <= i < |s.established| :: WinOk(cfg, s, i))
  }

  // ---- A valid lease excludes a higher vote ----

  lemma FirstOvertaker(established: seq<Vote>, v: Vote, k: nat) returns (i: nat)
    requires k <= |established|
    ensures i <= k && !Overtaken(established, v, i)
    ensures i < k ==> Lt(v, established[i])
  {
    i := 0;
    while i < k && !Lt(v, established[i])
      invariant i <= k && !Overtaken(established, v, i)
    {
      i := i + 1;
    }
  }

  /** A node that acked a leader within a lease has not granted a higher vote before a later leader was established. */
  lemma AckedDidNotGrant(cfg: Config, s: State, x: NodeId, t: nat, y: NodeId, w: Vote, k: nat)
    requires Inv(cfg, s) && x in s.nodes && s.nodes[x].leader.Some? && s.now < t + cfg.lease
    requires y in Proposer.AckedSince(s.nodes[x].leader.value.clock, t)
    requires Lt(s.nodes[x].vote, w) && !Overtaken(s.established, s.nodes[x].vote, k)
    ensures (y, w) in s.grants ==> k < s.grants[(y, w)]
  {
    hide WinOk;
    hide AckOk;
    var n := s.nodes[x];
    var l := n.leader.value;
    assert NodeOk(s, x, n);
    VotesArePartiallyOrdered(n.vote, w, n.vote);
    assert (y, w) in s.grants ==> GrantOk(s, (y, w));
    if y != x {
      var a := Ack(y, l.vote, l.clock[y].minor);
      assert a in s.acks;
      assert (y, w) in s.grants ==> PromiseOk(cfg, s, a, (y, w));
    }
  }

  lemma RecentAcksExclude(cfg: Config, s: State, x: NodeId, w: Vote, k: nat, grants: set<NodeId>)
    requires cfg.joint != [] && Inv(cfg, s) && x in s.nodes && s.nodes[x].leader.Some?
    requires Proposer.LeaseHolds(cfg.joint, s.nodes[x].leader.value.clock, s.now, cfg.lease)
    requires Lt(s.nodes[x].vote, w) && !Overtaken(s.established, s.nodes[x].vote, k)
    requires forall y | y in grants :: (y, w) in s.grants && s.grants[(y, w)] <= k
    ensures !IsQuorum(cfg.joint, grants)
  {
    hide Inv;
    hide IsQuorum;
    var l := s.nodes[x].leader.value;
    var t: nat :| IsQuorum(cfg.joint, Proposer.AckedSince(l.clock, t)) && s.now < t + cfg.lease;
    var acked := Proposer.AckedSince(l.clock, t);
    forall y | y in acked ensures y !in grants {
      AckedDidNotGrant(cfg, s, x, t, y, w, k);
    }
    assert acked * grants == {};
    SharedConfigMeets(cfg.joint, cfg.joint, 0, 0);
  }

  lemma LeaderVote(s: State, x: NodeId)
    requires x in s.nodes && NodeOk(s, x, s.nodes[x]) && s.nodes[x].leader.Some?
    ensures s.nodes[x].vote.committed && s.nodes[x].leader.value.vote == s.nodes[x].vote
  {}

  /** While a quorum's acks are recent, no later leader has been established. */
  lemma NoLaterLeader(cfg: Config, s: State, x: NodeId)
    requires cfg.joint != [] && Inv(cfg, s) && x in s.nodes && s.nodes[x].leader.Some?
    requires Proposer.LeaseHolds(cfg.joint, s.nodes[x].leader.value.clock, s.now, cfg.lease)
    ensures !Overtaken(s.established, s.nodes[x].vote, |s.established|)
  {
    hide NodeOk;
    hide AckOk;
    hide PromiseOk;
    hide IsQuorum;
    hide Proposer.LeaseHolds;
    var v := s.nodes[x].vote;
    assert NodeOk(s, x, s.nodes[x]);
    LeaderVote(s, x);
    var i := FirstOvertaker(s.established, v, |s.established|);
    if i < |s.established| {
      assert WinOk(cfg, s, i);
      RecentAcksExclude(cfg, s, x, s.established[i].Uncommitted(), i, s.quorums[i]);
      assert false;
    }
  }

  /**
   * Lease exclusion: while a leader's lease is valid, no higher vote is granted by a quorum, whether
   * or not its candidate has learned of it.
   */
  lemma ValidLeaseExcludes(cfg: Config, s: State, x: NodeId, w: Vote, grants: set<NodeId>)
    requires 2 <= |Ids(cfg.joint)| && Inv(cfg, s)
    requires x in s.nodes && LeaderLeaseValid(cfg, x, s.nodes[x], s.now) && Lt(s.nodes[x].vote, w)
    requires forall y | y in grants :: (y, w) in s.grants
    ensures !IsQuorum(cfg.joint, grants)
    ensures w.Committed() !in s.established && 0 < w.term
  {
    hide NodeOk;
    hide AckOk;
    hide PromiseOk;
    hide WinOk;
    hide IsQuorum;
    hide Proposer.LeaseHolds;
    assert |{x}| == 1;
    assert NodeOk(s, x, s.nodes[x]);
    LeaderVote(s, x);
    NoLaterLeader(cfg, s, x);
    assert forall y | y in grants :: GrantOk(s, (y, w));
    RecentAcksExclude(cfg, s, x, w, |s.established|, grants);
    assert Lt(s.nodes[x].vote, w.Committed());
  }

  // ---- Preservation ----

  /** What no step takes back. */
  ghost predicate Grows(s: State, t: State) {
    && s.now <= t.now && s.nodes.Keys == t.nodes.Keys && s.acks <= t.acks && s.established <= t.established
    && s.quorums <= t.quorums
    && (forall g | g in s.grants :: g in t.grants && t.grants[g] == s.grants[g])
    && (forall y | y in s.nodes :: Le(s.nodes[y].vote, t.nodes[y].vote))
  }

  lemma ReleasedGrows(cfg: Config, s: State, t: State, v: Vote, at: nat, k: nat, k': nat)
    requires Grows(s, t) && k <= k' && Released(cfg, s, v, at, k)
    ensures Released(cfg, t, v, at, k')
  {
    if Overtaken(s.established, v, k) {
      var i :| 0 <= i < |s.established| && i < k && Lt(v, s.established[i]);
      assert t.established[i] == s.established[i];
    }
  }

  lemma NodeKept(s: State, t: State, y: NodeId, n: Node)
    requires Grows(s, t) && NodeOk(s, y, n)
    ensures NodeOk(t, y, n)
  {}

  lemma AckKept(cfg: Config, s: State, t: State, a: Ack)
    requires Grows(s, t) && AckOk(cfg, s, a) && t.nodes[a.voter] == s.nodes[a.voter]
    ensures AckOk(cfg, t, a)
  {
    hide Released;
    if s.nodes[a.voter].vote != a.vote {
      ReleasedGrows(cfg, s, t, a.vote, a.sentAt, |s.established|, |t.established|);
    }
  }

  lemma PromiseKept(cfg: Config, s: State, t: State, a: Ack, g: (NodeId, Vote))
    requires Grows(s, t) && g in s.grants && PromiseOk(cfg, s, a, g)
    ensures PromiseOk(cfg, t, a, g)
  {
    hide Released;
    if g.0 == a.voter && Lt(a.vote, g.1) {
      ReleasedGrows(cfg, s, t, a.vote, a.sentAt, s.grants[g], t.grants[g]);
    }
  }

  lemma GrantKept(s: State, t: State, g: (NodeId, Vote))
    requires Grows(s, t) && GrantOk(s, g)
    ensures GrantOk(t, g)
  {
    VotesArePartiallyOrdered(g.1, s.nodes[g.0].vote, t.nodes[g.0].vote);
  }

  lemma WinKept(cfg: Config, s: State, t: State, i: nat)
    requires Grows(s, t) && WinOk(cfg, s, i)
    ensures WinOk(cfg, t, i)
  {
    hide IsQuorum;
    var v := s.established[i];
    assert t.established[i] == v && t.quorums[i] == s.quorums[i];
    VotesArePartiallyOrdered(v, s.nodes[v.node].vote, t.nodes[v.node].vote);
  }

  lemma AcksAreByNodes(cfg: Config, s: State)
    requires Inv(cfg, s)
    ensures forall a | a in s.acks :: a.voter in s.nodes
  {}

  /** A step keeps the invariant if it keeps it for whatever it adds or changes. */
  lemma StepKeeps(cfg: Config, s: State, t: State)
    requires Inv(cfg, s) && Grows(s, t) && |t.quorums| == |t.established|
    requires forall y | y in t.nodes && t.nodes[y] != s.nodes[y] :: NodeOk(t, y, t.nodes[y])
    requires forall m | m in t.sends && m !in s.sends :: m.0 in t.established && m.1 <= t.now
    requires forall a | a in t.acks && (a !in s.acks || t.nodes[a.voter] != s.nodes[a.voter]) :: AckOk(cfg, t, a)
    requires forall a, g | a in t.acks && g in t.grants && (a !in s.acks || g !in s.grants) :: PromiseOk(cfg, t, a, g)
    requires forall g | g in t.grants && g !in s.grants :: GrantOk(t, g)
    requires forall i | |s.established| <= i < |t.established| :: WinOk(cfg, t, i)
    ensures Inv(cfg, t)
  {
    hide NodeOk;
    hide AckOk;
    hide PromiseOk;
    hide GrantOk;
    hide WinOk;
    AcksAreByNodes(cfg, s);
    forall y | y in t.nodes ensures NodeOk(t, y, t.nodes[y]) {
      if t.nodes[y] == s.nodes[y] { NodeKept(s, t, y, s.nodes[y]); }
    }
    forall a | a in t.acks ensures AckOk(cfg, t, a) {
      if a in s.acks && t.nodes[a.voter] == s.nodes[a.voter] { AckKept(cfg, s, t, a); }
    }
    forall a, g | a in t.acks && g in t.grants ensures PromiseOk(cfg, t, a, g) {
      if a in s.acks && g in s.grants { PromiseKept(cfg, s, t, a, g); }
    }
    forall g | g in t.grants ensures GrantOk(t, g) {
      if g in s.grants { GrantKept(s, t, g); }
    }
    forall i | 0 <= i < |t.established| ensures WinOk(cfg, t, i) {
      if i < |s.established| { WinKept(cfg, s, t, i); }
    }
  }

  /**
   * Why a node may leave its vote: it follows no other leader, its lease has run out, or the new
   * vote is that of an established leader.
   */
  ghost predicate MayLeave(cfg: Config, s: State, t: State, x: NodeId, v: Vote) {
    x in s.nodes && (s.nodes[x].vote.node == x || Expired(s.nodes[x], s.now, 0) || v in t.established)
  }

  lemma AcksSurviveVoteChange(cfg: Config, s: State, t: State, x: NodeId, a: Ack)
    requires Grows(s, t) && a.voter == x && AckOk(cfg, s, a) && x in s.nodes
    requires s.nodes[x].vote != t.nodes[x].vote && MayLeave(cfg, s, t, x, t.nodes[x].vote)
    ensures AckOk(cfg, t, a)
  {
    var n, m := s.nodes[x], t.nodes[x];
    VotesArePartiallyOrdered(a.vote, n.vote, m.vote);
    VotesArePartiallyOrdered(n.vote, a.vote, m.vote);
    VotesArePartiallyOrdered(a.vote, m.vote, m.vote);
    VotesArePartiallyOrdered(m.vote, n.vote, m.vote);
    if n.vote != a.vote {
      ReleasedGrows(cfg, s, t, a.vote, a.sentAt, |s.established|, |t.established|);
    }
  }

  /** A node that grants a vote has left, or may leave, every promise it made to a lower leader. */
  lemma PromisesAllowGrant(cfg: Config, s: State, t: State, x: NodeId, w: Vote, a: Ack)
    requires Grows(s, t) && AckOk(cfg, s, a) && x in s.nodes && a.vote.committed
    requires s.nodes[x].vote.committed && s.nodes[x].vote.node != x ==> Expired(s.nodes[x], s.now, 0)
    requires (x, w) in t.grants && t.grants[(x, w)] == |s.established|
    ensures PromiseOk(cfg, t, a, (x, w))
  {
    if a.voter == x && s.nodes[x].vote != a.vote {
      ReleasedGrows(cfg, s, t, a.vote, a.sentAt, |s.established|, |s.established|);
    }
  }

  lemma NewAckIsSafe(cfg: Config, s: State, t: State, a: Ack, g: (NodeId, Vote))
    requires GrantOk(s, g) && a.voter in s.nodes && Le(s.nodes[a.voter].vote, a.vote)
    ensures PromiseOk(cfg, t, a, g)
  {
    if g.0 == a.voter {
      VotesArePartiallyOrdered(g.1, s.nodes[g.0].vote, a.vote);
      VotesArePartiallyOrdered(a.vote, g.1, a.vote);
    }
  }

  /** A node takes over an observed vote, leaving its campaign or its leadership. */
  lemma ObserveKeeps(cfg: Config, s: State, x: NodeId, v: Vote)
    requires Inv(cfg, s) && x in s.nodes && Issued(s, v) && (v.committed ==> v in s.established)
    requires s.nodes[x].vote.node == x
    ensures Inv(cfg, s.(nodes := s.nodes[x := UpdateVote(cfg, x, s.nodes[x], v, s.now)]))
  {
    hide WinOk;
    hide PromiseOk;
    hide GrantOk;
    hide Released;
    if v.committed { EstablishedIsCommitted(cfg, s, v); }
    var n := s.nodes[x];
    var m := UpdateVote(cfg, x, n, v, s.now);
    var t := s.(nodes := s.nodes[x := m]);
    VotesArePartiallyOrdered(n.vote, v, n.vote);
    forall y | y in s.nodes ensures Le(s.nodes[y].vote, t.nodes[y].vote) {
      VotesArePartiallyOrdered(s.nodes[y].vote, v, v);
    }
    assert Grows(s, t);
    assert NodeOk(s, x, n) && NodeOk(t, x, m);
    forall a | a in t.acks && t.nodes[a.voter] != s.nodes[a.voter] ensures AckOk(cfg, t, a) {
      assert AckOk(cfg, s, a);
      if m.vote != n.vote {
        AcksSurviveVoteChange(cfg, s, t, x, a);
      } else {
        ReleasedGrows(cfg, s, t, a.vote, a.sentAt, |s.established|, |t.established|);
      }
    }
    StepKeeps(cfg, s, t);
  }

  /** A node that is initialized has followed nobody yet, so it has acked and promised nothing. */
  lemma InitializeKeeps(cfg: Config, s: State, x: NodeId)
    requires Inv(cfg, s) && Enabled(cfg, s, Initialize(x))
    ensures Inv(cfg, Apply(cfg, s, Initialize(x)))
  {
    hide WinOk;
    hide PromiseOk;
    hide GrantOk;
    hide Released;
    var n, t := s.nodes[x], Apply(cfg, s, Initialize(x));
    assert NodeOk(s, x, n);
    forall y | y in s.nodes ensures Le(s.nodes[y].vote, t.nodes[y].vote) {
      VotesArePartiallyOrdered(s.nodes[y].vote, s.nodes[y].vote, s.nodes[y].vote);
    }
    assert Grows(s, t);
    assert NodeOk(t, x, t.nodes[x]);
    forall a | a in s.acks ensures a.voter != x {
      assert AckOk(cfg, s, a);
      EstablishedIsCommitted(cfg, s, a.vote);
    }
    StepKeeps(cfg, s, t);
  }

  lemma ElectKeeps(cfg: Config, s: State, x: NodeId, timeout: nat)
    requires Inv(cfg, s) && Enabled(cfg, s, Elect(x, timeout))
    ensures Inv(cfg, Apply(cfg, s, Elect(x, timeout)))
  {
    hide WinOk;
    var n, t := s.nodes[x], Apply(cfg, s, Elect(x, timeout));
    var v := Vote(n.vote.term + 1, x, false);
    assert (x, v) !in s.grants by { assert (x, v) in s.grants ==> GrantOk(s, (x, v)); }
    GrantStepKeeps(cfg, s, t, x, v);
  }

  /** A step in which `x` takes over `w` and grants it. */
  lemma GrantStepKeeps(cfg: Config, s: State, t: State, x: NodeId, w: Vote)
    requires Inv(cfg, s) && x in s.nodes && Le(s.nodes[x].vote, w) && !w.committed && (x, w) !in s.grants
    requires Expired(s.nodes[x], s.now, 0) || !s.nodes[x].vote.committed || s.nodes[x].vote.node == x
    requires t.nodes.Keys == s.nodes.Keys && t.nodes == s.nodes[x := t.nodes[x]]
    requires t == s.(nodes := t.nodes, grants := s.grants[(x, w) := |s.established|])
    requires t.nodes[x].vote == w && NodeOk(t, x, t.nodes[x])
    ensures Inv(cfg, t)
  {
    hide WinOk;
    var n := s.nodes[x];
    forall y | y in s.nodes ensures Le(s.nodes[y].vote, t.nodes[y].vote) {
      VotesArePartiallyOrdered(s.nodes[y].vote, w, w);
    }
    assert Grows(s, t);
    forall a | a in s.acks ensures a.vote.committed && PromiseOk(cfg, t, a, (x, w)) {
      EstablishedIsCommitted(cfg, s, a.vote);
      PromisesAllowGrant(cfg, s, t, x, w, a);
    }
    forall a | a in t.acks && t.nodes[a.voter] != s.nodes[a.voter] ensures AckOk(cfg, t, a) {
      AckSurvivesGrant(cfg, s, t, x, w, a);
    }
    VotesArePartiallyOrdered(w, w, w);
    StepKeeps(cfg, s, t);
  }

  lemma EstablishedIsCommitted(cfg: Config, s: State, v: Vote)
    requires Inv(cfg, s) && v in s.established
    ensures v.committed && 0 < v.term
  {
    var i :| 0 <= i < |s.established| && s.established[i] == v;
    assert WinOk(cfg, s, i);
  }

  lemma AckSurvivesGrant(cfg: Config, s: State, t: State, x: NodeId, w: Vote, a: Ack)
    requires Grows(s, t) && a.voter == x && AckOk(cfg, s, a) && x in s.nodes && a.vote.committed && !w.committed
    requires t.nodes[x].vote == w
    requires Expired(s.nodes[x], s.now, 0) || !s.nodes[x].vote.committed || s.nodes[x].vote.node == x
    ensures AckOk(cfg, t, a)
  {
    hide Released;
    var n := s.nodes[x];
    VotesArePartiallyOrdered(a.vote, n.vote, w);
    if n.vote == a.vote {
      AcksSurviveVoteChange(cfg, s, t, x, a);
    } else {
      ReleasedGrows(cfg, s, t, a.vote, a.sentAt, |s.established|, |t.established|);
    }
  }

  lemma VoteRequestKeeps(cfg: Config, s: State, x: NodeId, v: Vote, behind: bool)
    requires Inv(cfg, s) && Enabled(cfg, s, VoteRequest(x, v, behind))
    ensures Inv(cfg, Apply(cfg, s, VoteRequest(x, v, behind)))
  {
    hide WinOk;
    var n, t := s.nodes[x], Apply(cfg, s, VoteRequest(x, v, behind));
    if t != s {
      if (x, v) in s.grants {
        RepeatedGrantKeeps(cfg, s, x, v);
      } else {
        GrantStepKeeps(cfg, s, t, x, v);
      }
    }
  }

  /** Granting a vote again only moves its time stamp. */
  lemma RepeatedGrantKeeps(cfg: Config, s: State, x: NodeId, v: Vote)
    requires Inv(cfg, s) && x in s.nodes && (x, v) in s.grants && Le(s.nodes[x].vote, v) && v.node != x
    ensures Inv(cfg, s.(nodes := s.nodes[x := UpdateVote(cfg, x, s.nodes[x], v, s.now)]))
  {
    hide WinOk;
    hide PromiseOk;
    var n := s.nodes[x];
    var t := s.(nodes := s.nodes[x := UpdateVote(cfg, x, n, v, s.now)]);
    assert GrantOk(s, (x, v)) && NodeOk(s, x, n);
    VotesArePartiallyOrdered(n.vote, v, n.vote);
    forall y | y in s.nodes ensures Le(s.nodes[y].vote, t.nodes[y].vote) {
      VotesArePartiallyOrdered(s.nodes[y].vote, v, v);
    }
    forall a | a in t.acks && t.nodes[a.voter] != s.nodes[a.voter] ensures AckOk(cfg, t, a) {
      EstablishedIsCommitted(cfg, s, a.vote);
      assert AckOk(cfg, s, a);
    }
    StepKeeps(cfg, s, t);
  }

  /** A quorum of counted grants establishes a leader. */
  lemma WinIsOk(cfg: Config, s: State, t: State, x: NodeId, from: NodeId)
    requires Inv(cfg, s) && Enabled(cfg, s, CountGrant(x, from)) && Wins(cfg, s.nodes[x].candidate.value, from)
    requires t == Apply(cfg, s, CountGrant(x, from))
    ensures WinOk(cfg, t, |s.established|)
  {
    hide IsQuorum;
    hide AckOk;
    hide PromiseOk;
    hide FirstClock;
    var c := s.nodes[x].candidate.value;
    assert NodeOk(s, x, s.nodes[x]);
    VotesArePartiallyOrdered(c.vote.Committed(), c.vote, c.vote);
    forall y | y in c.grants + {from} ensures (y, c.vote) in s.grants && s.grants[(y, c.vote)] <= |s.established| {
      assert GrantOk(s, (y, c.vote));
    }
  }

  lemma WinKeeps(cfg: Config, s: State, x: NodeId, from: NodeId)
    requires Inv(cfg, s) && Enabled(cfg, s, CountGrant(x, from)) && Wins(cfg, s.nodes[x].candidate.value, from)
    ensures Inv(cfg, Apply(cfg, s, CountGrant(x, from)))
  {
    hide WinOk;
    hide PromiseOk;
    hide GrantOk;
    hide Wins;
    var n, t := s.nodes[x], Apply(cfg, s, CountGrant(x, from));
    var v := n.candidate.value.vote.Committed();
    assert NodeOk(s, x, n);
    WinIsOk(cfg, s, t, x, from);
    forall y | y in s.nodes ensures Le(s.nodes[y].vote, t.nodes[y].vote) {
      VotesArePartiallyOrdered(s.nodes[y].vote, v, v);
    }
    assert Grows(s, t);
    forall a | a in t.acks && t.nodes[a.voter] != s.nodes[a.voter] ensures AckOk(cfg, t, a) {
      assert AckOk(cfg, s, a);
      AcksSurviveVoteChange(cfg, s, t, x, a);
    }
    assert NodeOk(t, x, t.nodes[x]);
    StepKeeps(cfg, s, t);
  }

  /** A step that keeps every vote and its time stamp, and records no grant, ack or leader. */
  lemma QuietStepKeeps(cfg: Config, s: State, x: NodeId, m: Node)
    requires Inv(cfg, s) && x in s.nodes && NodeOk(s, x, m)
    requires m.(leader := s.nodes[x].leader, candidate := s.nodes[x].candidate) == s.nodes[x]
    ensures Inv(cfg, s.(nodes := s.nodes[x := m]))
  {
    hide WinOk;
    hide PromiseOk;
    hide GrantOk;
    hide NodeOk;
    var t := s.(nodes := s.nodes[x := m]);
    forall y | y in s.nodes ensures Le(s.nodes[y].vote, t.nodes[y].vote) {
      VotesArePartiallyOrdered(s.nodes[y].vote, m.vote, m.vote);
    }
    assert Grows(s, t);
    NodeKept(s, t, x, m);
    forall a | a in t.acks ensures AckOk(cfg, t, a) {
      assert AckOk(cfg, s, a);
    }
    StepKeeps(cfg, s, t);
  }

  lemma DeliverKeeps(cfg: Config, s: State, x: NodeId, v: Vote, at: nat)
    requires Inv(cfg, s) && Enabled(cfg, s, Deliver(x, v, at))
    ensures Inv(cfg, Apply(cfg, s, Deliver(x, v, at)))
  {
    hide WinOk;
    hide PromiseOk;
    hide GrantOk;
    hide Released;
    var n, t := s.nodes[x], Apply(cfg, s, Deliver(x, v, at));
    if Le(n.vote, v) {
      EstablishedIsCommitted(cfg, s, v);
      forall y | y in s.nodes ensures Le(s.nodes[y].vote, t.nodes[y].vote) {
        VotesArePartiallyOrdered(s.nodes[y].vote, v, v);
      }
      assert Grows(s, t);
      assert NodeOk(s, x, n) && NodeOk(t, x, t.nodes[x]);
      forall a | a in t.acks && (a !in s.acks || t.nodes[a.voter] != s.nodes[a.voter]) ensures AckOk(cfg, t, a) {
        DeliveredAckIsOk(cfg, s, t, x, v, at, a);
      }
      forall g | g in t.grants ensures PromiseOk(cfg, t, Ack(x, v, at), g) {
        NewAckIsSafe(cfg, s, t, Ack(x, v, at), g);
      }
      StepKeeps(cfg, s, t);
    }
  }

  lemma DeliveredAckIsOk(cfg: Config, s: State, t: State, x: NodeId, v: Vote, at: nat, a: Ack)
    requires Inv(cfg, s) && Enabled(cfg, s, Deliver(x, v, at)) && t == Apply(cfg, s, Deliver(x, v, at)) && Grows(s, t)
    requires Le(s.nodes[x].vote, v) && v.committed && a.voter == x && (a in s.acks || a == Ack(x, v, at))
    ensures AckOk(cfg, t, a)
  {
    hide WinOk;
    hide PromiseOk;
    hide GrantOk;
    VotesArePartiallyOrdered(v, v, v);
    if a != Ack(x, v, at) {
      assert AckOk(cfg, s, a);
      if s.nodes[x].vote != v {
        AcksSurviveVoteChange(cfg, s, t, x, a);
      } else if a.vote != v {
        ReleasedGrows(cfg, s, t, a.vote, a.sentAt, |s.established|, |t.established|);
      }
    }
  }

  lemma HandleAckKeeps(cfg: Config, s: State, x: NodeId, ack: Ack)
    requires Inv(cfg, s) && Enabled(cfg, s, HandleAck(x, ack))
    ensures Inv(cfg, Apply(cfg, s, HandleAck(x, ack)))
  {
    hide WinOk;
    hide PromiseOk;
    hide GrantOk;
    var n, t := s.nodes[x], Apply(cfg, s, HandleAck(x, ack));
    assert NodeOk(s, x, n) && AckOk(cfg, s, ack);
    var l, l' := n.leader.value, t.nodes[x].leader.value;
    forall y | y in l'.clock && y != x && l'.clock[y] != Acceptance.ZERO
      ensures l'.clock[y].major == 1 && Ack(y, l'.vote, l'.clock[y].minor) in s.acks
    {
      assert l'.clock[y] == l.clock[y] || (y == ack.voter && l'.clock[y] == Proposer.OfInstant(ack.sentAt));
    }
    assert ClockOk(s, x, l');
    QuietStepKeeps(cfg, s, x, t.nodes[x]);
  }

  lemma StepIsSafe(cfg: Config, s: State, step: Step)
    requires Inv(cfg, s) && Enabled(cfg, s, step)
    ensures Inv(cfg, Apply(cfg, s, step))
  {
    hide WinOk;
    hide PromiseOk;
    hide AckOk;
    hide GrantOk;
    match step
    case Tick(elapsed) => TickKeeps(cfg, s, elapsed);
    case Initialize(x) => InitializeKeeps(cfg, s, x);
    case Elect(x, timeout) => ElectKeeps(cfg, s, x, timeout);
    case VoteRequest(x, v, behind) => VoteRequestKeeps(cfg, s, x, v, behind);
    case CountGrant(x, from) =>
      if Wins(cfg, s.nodes[x].candidate.value, from) {
        WinKeeps(cfg, s, x, from);
      } else {
        assert NodeOk(s, x, s.nodes[x]);
        QuietStepKeeps(cfg, s, x, Apply(cfg, s, step).nodes[x]);
      }
    case Send(x) =>
      assert NodeOk(s, x, s.nodes[x]);
      SendKeeps(cfg, s, x);
    case Deliver(x, v, at) => DeliverKeeps(cfg, s, x, v, at);
    case HandleAck(x, ack) => HandleAckKeeps(cfg, s, x, ack);
    case Rejected(x, v) =>
      assert NodeOk(s, x, s.nodes[x]);
      ObserveKeeps(cfg, s, x, v);
    case HigherVote(x, v) =>
      assert NodeOk(s, x, s.nodes[x]);
      ObserveKeeps(cfg, s, x, v);
  }

  lemma AllVotesAreAtLeastThemselves(s: State)
    ensures forall y | y in s.nodes :: Le(s.nodes[y].vote, s.nodes[y].vote)
  {
    forall y | y in s.nodes ensures Le(s.nodes[y].vote, s.nodes[y].vote) {
      VotesArePartiallyOrdered(s.nodes[y].vote, s.nodes[y].vote, s.nodes[y].vote);
    }
  }

  lemma TickKeeps(cfg: Config, s: State, elapsed: nat)
    requires Inv(cfg, s)
    ensures Inv(cfg, Apply(cfg, s, Tick(elapsed)))
  {
    hide WinOk;
    hide PromiseOk;
    hide GrantOk;
    hide NodeOk;
    AllVotesAreAtLeastThemselves(s);
    StepKeeps(cfg, s, Apply(cfg, s, Tick(elapsed)));
  }

  lemma SendKeeps(cfg: Config, s: State, x: NodeId)
    requires Inv(cfg, s) && Enabled(cfg, s, Send(x)) && NodeOk(s, x, s.nodes[x])
    ensures Inv(cfg, Apply(cfg, s, Send(x)))
  {
    hide WinOk;
    hide PromiseOk;
    hide GrantOk;
    AllVotesAreAtLeastThemselves(s);
    StepKeeps(cfg, s, Apply(cfg, s, Send(x)));
  }

  // ---- Runs ----

  ghost predicate IsRun(cfg: Config, s: State, steps: seq<Step>)
    decreases |steps|
  {
    steps != [] ==> Enabled(cfg, s, steps[0]) && IsRun(cfg, Apply(cfg, s, steps[0]), steps[1..])
  }

  ghost function Run(cfg: Config, s: State, steps: seq<Step>): State
    requires IsRun(cfg, s, steps)
    decreases |steps|
  {
    if steps == [] then s else Run(cfg, Apply(cfg, s, steps[0]), steps[1..])
  }

  lemma {:induction false} RunKeepsInv(cfg: Config, s: State, steps: seq<Step>)
    requires Inv(cfg, s) && IsRun(cfg, s, steps)
    ensures Inv(cfg, Run(cfg, s, steps))
    decreases |steps|
  {
    hide Inv;
    hide Apply;
    hide Enabled;
    if steps != [] {
      StepIsSafe(cfg, s, steps[0]);
      RunKeepsInv(cfg, Apply(cfg, s, steps[0]), steps[1..]);
    }
  }

  lemma InitIsSafe(cfg: Config, s: State)
    requires Init(s)
    ensures Inv(cfg, s)
  {}

  /**
   * In every run, while some leader's lease is valid no higher vote is granted by a quorum and no node
   * holds a higher vote as committed.
   */
  lemma LeaseExclusion(cfg: Config, s: State, steps: seq<Step>, x: NodeId, w: Vote, grants: set<NodeId>)
    requires 2 <= |Ids(cfg.joint)| && Init(s) && IsRun(cfg, s, steps)
    requires var t := Run(cfg, s, steps);
             && x in t.nodes && LeaderLeaseValid(cfg, x, t.nodes[x], t.now) && Lt(t.nodes[x].vote, w)
             && forall y | y in grants :: (y, w) in t.grants
    ensures !IsQuorum(cfg.joint, grants)
    ensures forall y | y in Run(cfg, s, steps).nodes :: Run(cfg, s, steps).nodes[y].vote != w.Committed()
  {
    hide Apply;
    hide Enabled;
    hide IsQuorum;
    hide LeaderLeaseValid;
    var t := Run(cfg, s, steps);
    InitIsSafe(cfg, s);
    hide Inv;
    RunKeepsInv(cfg, s, steps);
    ValidLeaseExcludes(cfg, t, x, w, grants);
    HeldIsEstablished(cfg, t, w);
  }

  /** A committed vote above term 0 that somebody holds is that of an established leader. */
  lemma HeldIsEstablished(cfg: Config, s: State, w: Vote)
    requires Inv(cfg, s) && w.Committed() !in s.established && 0 < w.term
    ensures forall y | y in s.nodes :: s.nodes[y].vote != w.Committed()
  {
    hide AckOk;
    hide PromiseOk;
    hide GrantOk;
    hide WinOk;
    forall y | y in s.nodes ensures s.nodes[y].vote != w.Committed() {
      assert NodeOk(s, y, s.nodes[y]);
    }
  }
}
