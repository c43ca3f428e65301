/**
 * Elections as a multi-node step machine with message loss, delay and duplication and with restarts
 * to the durable vote. A grant leaves a node only once its vote is flushed, and a self-vote counts
 * only once it is saved.
 */
module Election {
  import opened Common
  import opened Quorum
  import opened Votes

  datatype Command = SaveVote(vote: Vote) | SendVote(vote: Vote)

  datatype Message =
    | Request(vote: Vote)
    | Reply(from: NodeId, to: NodeId, vote: Vote, granted: bool)

  datatype Campaign = Campaign(vote: Vote, joint: Joint, grants: set<NodeId>)

  /**
   * One node. `vote` is the vote in memory and `durable` the stored one; `queue` holds the commands
   * still to run, `waiting` the replies that wait for a flush. `saved` is history: every vote that
   * was ever durable here.
   */
  datatype Node = Node(
    vote: Vote,
    durable: Vote,
    saved: set<Vote>,
    flushed: Vote,
    queue: seq<Command>,
    waiting: set<Message>,
    candidate: Option<Campaign>
  )

  /** How a campaign was won: the quorum set it was run for and the nodes that granted it. */
  datatype Win = Win(joint: Joint, grants: set<NodeId>)

  /** A cluster. Messages are never taken out of `net`: a lost one is just never handled. */
  datatype State = State(nodes: map<NodeId, Node>, net: set<Message>, won: map<Vote, Win>)

  datatype Step =
    | Initialize(x: NodeId)
    | Elect(x: NodeId, joint: Joint)
    | RunCommand(x: NodeId)
    | LocalIO(x: NodeId, vote: Vote)
    | VoteRequest(x: NodeId, vote: Vote, refuse: bool)
    | SendReply(x: NodeId, reply: Message)
    | VoteReply(x: NodeId, reply: Message)
    | Observe(x: NodeId, vote: Vote)
    | Restart(x: NodeId, restore: bool)

  // ---- One node ----

  const FRESH := Node(NO_VOTE, NO_VOTE, {NO_VOTE}, NO_VOTE, [], {}, None)

  /** Accept a vote iff it is at least the local one; a greater one is queued to be saved. */
  function UpdateVote(x: NodeId, n: Node, v: Vote): Node {
    if !Le(n.vote, v) then n
    else
      var accepted := if v == n.vote then n else n.(vote := v, queue := n.queue + [SaveVote(v)]);
      if v.node == x then accepted else accepted.(candidate := None)
  }

  function StartCampaign(x: NodeId, n: Node, joint: Joint): Node {
    var v := Vote(n.vote.term + 1, x, false);
    n.(vote := v, queue := n.queue + [SaveVote(v), SendVote(v)], candidate := Some(Campaign(v, joint, {})))
  }

  function HandleRequest(x: NodeId, n: Node, v: Vote, refuse: bool): Node {
    var updated := if refuse then n else UpdateVote(x, n, v);
    updated.(waiting := updated.waiting + {Reply(x, v.node, updated.vote, !refuse && Le(n.vote, v))})
  }

  function Reboot(x: NodeId, n: Node, restore: bool): Node {
    var v := if n.durable.node == x && !restore then n.durable.Uncommitted() else n.durable;
    Node(v, n.durable, n.saved, n.durable, [], {}, None)
  }

  /** Whether counting `reply` gives the campaign its quorum. */
  ghost predicate Wins(c: Campaign, reply: Message) {
    reply.Reply? && reply.granted && reply.vote == c.vote && reply.from in Ids(c.joint)
      && IsQuorum(c.joint, c.grants + {reply.from})
  }

  ghost function HandleReply(x: NodeId, n: Node, r: Message): Node
    requires r.Reply?
  {
    if n.candidate.None? then n
    else
      var c := n.candidate.value;
      if r.granted && r.vote == c.vote then
        if Wins(c, r) then UpdateVote(x, n.(candidate := None), c.vote.Committed())
        else n.(candidate := Some(c.(grants := c.grants + {r.from})))
      else UpdateVote(x, n, r.vote.Uncommitted())
  }

  function RunHead(n: Node): Node
    requires n.queue != []
  {
    match n.queue[0]
    case SaveVote(v) => n.(queue := n.queue[1..], durable := v, saved := n.saved + {v})
    case SendVote(v) => n.(queue := n.queue[1..])
  }

  /** What running a command sends: a saved campaign vote is granted to itself, a campaign asks the others. */
  function Sent(x: NodeId, command: Command): set<Message> {
    match command
    case SaveVote(v) => if v.committed then {} else {Reply(x, x, v, true)}
    case SendVote(v) => {Request(v)}
  }

  // ---- The cluster ----

  ghost predicate Enabled(s: State, step: Step) {
    step.x in s.nodes &&
    var n := s.nodes[step.x];
    match step
    case Initialize(_) => n.vote.term == 0
    case Elect(_, _) => true
    case RunCommand(_) => n.queue != []
    case LocalIO(_, v) => v in n.saved
    case VoteRequest(_, v, _) => Request(v) in s.net
    case SendReply(_, r) => r in n.waiting && Le(r.vote, n.flushed)
    case VoteReply(x, r) => r in s.net && r.Reply? && r.to == x
    case Observe(_, v) => v.committed ==> v.Uncommitted() in s.won
    case Restart(_, _) => true
  }

  ghost function Apply(s: State, step: Step): State
    requires Enabled(s, step)
  {
    var x := step.x;
    var n := s.nodes[x];
    match step
    case Initialize(_) => s.(nodes := s.nodes[x := n.(vote := Vote(0, x, true))])
    case Elect(_, joint) => s.(nodes := s.nodes[x := StartCampaign(x, n, joint)])
    case RunCommand(_) => s.(nodes := s.nodes[x := RunHead(n)], net := s.net + Sent(x, n.queue[0]))
    case LocalIO(_, v) => s.(nodes := s.nodes[x := n.(flushed := if Lt(n.flushed, v) then v else n.flushed)])
    case VoteRequest(_, v, refuse) => s.(nodes := s.nodes[x := HandleRequest(x, n, v, refuse)])
    case SendReply(_, r) => s.(nodes := s.nodes[x := n.(waiting := n.waiting - {r})], net := s.net + {r})
    case VoteReply(_, r) =>
      var nodes := s.nodes[x := HandleReply(x, n, r)];
      if n.candidate.Some? && Wins(n.candidate.value, r) then
        var c := n.candidate.value;
        s.(nodes := nodes, won := s.won[c.vote := Win(c.joint, c.grants + {r.from})])
      else s.(nodes := nodes)
    case Observe(_, v) => s.(nodes := s.nodes[x := UpdateVote(x, n, v)])
    case Restart(_, restore) => s.(nodes := s.nodes[x := Reboot(x, n, restore)])
  }

  ghost predicate Init(s: State) {
    s.net == {} && s.won == map[] && forall x | x in s.nodes :: s.nodes[x] == FRESH
  }

  // ---- Invariant of one node ----

  /** The saves in `queue` go up from `lo` to `hi`, and a campaign of `x` is sent right after it is saved. */
  ghost predicate Chain(x: NodeId, lo: Vote, queue: seq<Command>, hi: Vote)
    decreases |queue|
  {
    if queue == [] then lo == hi
    else match queue[0]
      case SaveVote(v) => Le(lo, v) && Chain(x, v, queue[1..], hi)
      case SendVote(v) => v == lo && v.node == x && !v.committed && Chain(x, lo, queue[1..], hi)
  }

  ghost predicate Known(n: Node, v: Vote) {
    v in n.saved || SaveVote(v) in n.queue
  }

  /** A node that was initialized holds a committed vote of term 0 in memory, without having saved it. */
  predicate Bootstrapped(x: NodeId, n: Node) {
    n.vote == Vote(0, x, true)
  }

  /** The vote that the queued saves lead up to. */
  function Top(x: NodeId, n: Node): Vote {
    if Bootstrapped(x, n) then NO_VOTE else n.vote
  }

  /** A restarted leader holds its own vote uncommitted in memory, while the committed one stays stored. */
  ghost predicate Demoted(x: NodeId, n: Node) {
    n.queue == [] && n.durable.node == x && n.vote == n.durable.Uncommitted()
  }

  ghost predicate OneVotePerTerm(saved: set<Vote>) {
    forall a, b | a in saved && b in saved && !a.committed && !b.committed && a.term == b.term :: a.node == b.node
  }

  ghost predicate Origin(won: map<Vote, Win>, v: Vote) {
    v.committed ==> v.Uncommitted() in won
  }

  ghost predicate Storage(x: NodeId, n: Node) {
    && NO_VOTE in n.saved && n.durable in n.saved && n.flushed in n.saved
    && (forall v | v in n.saved :: Le(v, n.durable))
    && OneVotePerTerm(n.saved)
    && (Chain(x, n.durable, n.queue, Top(x, n)) || Demoted(x, n))
    && (Bootstrapped(x, n) || Known(n, n.vote))
    && (n.candidate.Some? ==> var v := n.candidate.value.vote; !v.committed && v.node == x && 0 < v.term)
  }

  ghost predicate Origins(x: NodeId, n: Node, won: map<Vote, Win>) {
    && (Bootstrapped(x, n) || Origin(won, n.vote))
    && (forall v | v in n.saved :: Origin(won, v))
    && (forall v | SaveVote(v) in n.queue :: Origin(won, v))
  }

  // ---- Invariant of the cluster ----

  ghost predicate SavedAt(s: State, y: NodeId, v: Vote) {
    y in s.nodes && v in s.nodes[y].saved
  }

  ghost predicate WaitingOk(s: State, x: NodeId, n: Node) {
    forall r | r in n.waiting ::
      r.Reply? && r.from == x && (r.granted ==> Known(n, r.vote) && SavedAt(s, r.vote.node, r.vote))
  }

  ghost predicate CandidateOk(s: State, fits: (nat, Joint) -> bool, n: Node) {
    n.candidate.Some? ==>
      var c := n.candidate.value;
      && fits(c.vote.term, c.joint)
      && (forall g | g in c.grants :: SavedAt(s, g, c.vote))
  }

  ghost predicate MessageOk(s: State, m: Message) {
    match m
    case Request(v) => !v.committed && SavedAt(s, v.node, v)
    case Reply(from, to, v, granted) => granted ==> SavedAt(s, from, v) && (from == to || SavedAt(s, v.node, v))
  }

  ghost predicate WinOk(s: State, fits: (nat, Joint) -> bool, v: Vote) {
    v in s.won && !v.committed && 0 < v.term && SavedAt(s, v.node, v) &&
    var w := s.won[v];
    fits(v.term, w.joint) && IsQuorum(w.joint, w.grants) && forall g | g in w.grants :: SavedAt(s, g, v)
  }

  ghost predicate NodeOk(s: State, fits: (nat, Joint) -> bool, x: NodeId, n: Node) {
    Storage(x, n) && Origins(x, n, s.won) && WaitingOk(s, x, n) && CandidateOk(s, fits, n)
  }

  ghost predicate Inv(s: State, fits: (nat, Joint) -> bool) {
    && (forall x | x in s.nodes :: NodeOk(s, fits, x, s.nodes[x]))
    && (forall m | m in s.net :: MessageOk(s, m))
    && (forall v | v in s.won :: WinOk(s, fits, v))
  }

  /** The quorum sets that campaigns of one term may use are pairwise coherent. */
  ghost predicate CoherentPerTerm(fits: (nat, Joint) -> bool) {
    forall t, a, b | fits(t, a) && fits(t, b) :: Coherent(a, b)
  }

  // ---- At most one winner per term ----

  /** Any two campaigns of one term that were granted by a quorum are the same campaign. */
  lemma OneWinner(s: State, fits: (nat, Joint) -> bool, a: Vote, b: Vote)
    requires CoherentPerTerm(fits) && Inv(s, fits)
    requires a in s.won && b in s.won && a.term == b.term
    ensures a == b
  {
    assert WinOk(s, fits, a) && WinOk(s, fits, b);
    var p, q := s.won[a].grants, s.won[b].grants;
    assert Coherent(s.won[a].joint, s.won[b].joint);
    assert p * q != {};
    var g :| g in p * q;
    assert SavedAt(s, g, a) && SavedAt(s, g, b);
    assert NodeOk(s, fits, g, s.nodes[g]);
  }

  // ---- Preservation: one node ----

  lemma {:induction false} ChainExtends(x: NodeId, lo: Vote, queue: seq<Command>, hi: Vote, c: Command)
    requires Chain(x, lo, queue, hi)
    requires match c case SaveVote(v) => Le(hi, v) case SendVote(v) => v == hi && v.node == x && !v.committed
    ensures Chain(x, lo, queue + [c], c.vote)
    decreases |queue|
  {
    if queue != [] {
      assert (queue + [c])[1..] == queue[1..] + [c];
      ChainExtends(x, queue[0].vote, queue[1..], hi, c);
    } else {
      assert (queue + [c])[1..] == [];
    }
  }

  lemma {:induction false} ChainBounds(x: NodeId, lo: Vote, queue: seq<Command>, hi: Vote, v: Vote)
    requires Chain(x, lo, queue, hi) && (SaveVote(v) in queue || v == hi)
    ensures Le(lo, v)
    decreases |queue|
  {
    if queue != [] && queue[0] != SaveVote(v) {
      ChainBounds(x, queue[0].vote, queue[1..], hi, v);
    }
  }

  /** A vote that is known and not above the flushed one has been durable. */
  lemma FlushedMeansSaved(x: NodeId, n: Node, v: Vote)
    requires Storage(x, n) && Known(n, v) && Le(v, n.flushed)
    ensures v in n.saved
  {
    if SaveVote(v) in n.queue {
      ChainBounds(x, n.durable, n.queue, Top(x, n), v);
      VotesArePartiallyOrdered(n.flushed, n.durable, v);
      VotesArePartiallyOrdered(n.flushed, v, v);
    }
  }

  /** A vote above the one in memory is above the stored one, even after a demotion. */
  lemma AboveMemoryIsAboveStorage(s: State, fits: (nat, Joint) -> bool, x: NodeId, n: Node, v: Vote)
    requires CoherentPerTerm(fits) && Inv(s, fits)
    requires Storage(x, n) && Origins(x, n, s.won) && Origin(s.won, v) && Lt(n.vote, v) && Demoted(x, n)
    ensures Le(n.durable, v)
  {
    hide Inv;
    hide OneVotePerTerm;
    NothingBetween(n.durable, v);
    assert Origin(s.won, n.durable);
    if n.durable.committed && v.committed && v.term == n.durable.term {
      OneWinner(s, fits, n.durable.Uncommitted(), v.Uncommitted());
    }
  }

  lemma SaveIsQueued(s: State, fits: (nat, Joint) -> bool, x: NodeId, n: Node, v: Vote)
    requires CoherentPerTerm(fits) && Inv(s, fits)
    requires Storage(x, n) && Origins(x, n, s.won) && Origin(s.won, v) && Lt(n.vote, v)
    ensures Chain(x, n.durable, n.queue + [SaveVote(v)], v)
  {
    hide Inv;
    hide OneVotePerTerm;
    if Chain(x, n.durable, n.queue, Top(x, n)) {
      ChainExtends(x, n.durable, n.queue, Top(x, n), SaveVote(v));
    } else {
      AboveMemoryIsAboveStorage(s, fits, x, n, v);
      ChainExtends(x, n.durable, n.queue, n.durable, SaveVote(v));
    }
  }

  lemma WonVotesHaveATerm(s: State, fits: (nat, Joint) -> bool, v: Vote)
    requires Inv(s, fits) && Origin(s.won, v)
    ensures v.committed ==> 0 < v.term
  {
    hide NodeOk;
    hide IsQuorum;
    assert v.committed ==> WinOk(s, fits, v.Uncommitted());
  }

  lemma UpdateVoteKeeps(s: State, fits: (nat, Joint) -> bool, x: NodeId, n: Node, v: Vote)
    requires CoherentPerTerm(fits) && Inv(s, fits) && NodeOk(s, fits, x, n) && Origin(s.won, v)
    ensures NodeOk(s, fits, x, UpdateVote(x, n, v))
    ensures UpdateVote(x, n, v).saved == n.saved
    ensures Le(n.vote, v) ==> UpdateVote(x, n, v).vote == v
  {
    hide Inv;
    hide Chain;
    hide OneVotePerTerm;
    WonVotesHaveATerm(s, fits, v);
    if Le(n.vote, v) && n.vote != v {
      SaveIsQueued(s, fits, x, n, v);
    }
  }

  lemma CampaignKeeps(s: State, fits: (nat, Joint) -> bool, x: NodeId, n: Node, joint: Joint)
    requires CoherentPerTerm(fits) && Inv(s, fits) && NodeOk(s, fits, x, n) && fits(n.vote.term + 1, joint)
    ensures NodeOk(s, fits, x, StartCampaign(x, n, joint))
  {
    hide Inv;
    hide Chain;
    hide OneVotePerTerm;
    var v := Vote(n.vote.term + 1, x, false);
    SaveIsQueued(s, fits, x, n, v);
    ChainExtends(x, n.durable, n.queue + [SaveVote(v)], v, SendVote(v));
    assert n.queue + [SaveVote(v), SendVote(v)] == n.queue + [SaveVote(v)] + [SendVote(v)];
  }

  lemma RequestKeeps(s: State, fits: (nat, Joint) -> bool, x: NodeId, n: Node, v: Vote, refuse: bool)
    requires CoherentPerTerm(fits) && Inv(s, fits) && NodeOk(s, fits, x, n) && MessageOk(s, Request(v))
    ensures NodeOk(s, fits, x, HandleRequest(x, n, v, refuse))
  {
    hide Inv;
    hide Chain;
    hide OneVotePerTerm;
    UpdateVoteKeeps(s, fits, x, n, v);
  }

  lemma RebootKeeps(s: State, fits: (nat, Joint) -> bool, x: NodeId, n: Node, restore: bool)
    requires Inv(s, fits) && NodeOk(s, fits, x, n) && x in s.nodes && s.nodes[x] == n
    ensures NodeOk(s, fits, x, Reboot(x, n, restore))
  {
    hide OneVotePerTerm;
    hide IsQuorum;
    if n.durable.committed {
      assert WinOk(s, fits, n.durable.Uncommitted());
    }
  }

  // ---- Preservation: the cluster ----

  ghost predicate Grows(s: State, t: State) {
    && s.nodes.Keys == t.nodes.Keys && s.won.Keys <= t.won.Keys
    && forall y | y in s.nodes :: s.nodes[y].saved <= t.nodes[y].saved
  }

  lemma GrowthKeepsNode(s: State, t: State, fits: (nat, Joint) -> bool, x: NodeId, n: Node)
    requires Grows(s, t) && NodeOk(s, fits, x, n)
    ensures NodeOk(t, fits, x, n)
  {
    hide Storage;
    hide Known;
  }

  lemma GrowthKeepsWin(s: State, t: State, fits: (nat, Joint) -> bool, v: Vote)
    requires Grows(s, t) && WinOk(s, fits, v) && v in t.won && t.won[v] == s.won[v]
    ensures WinOk(t, fits, v)
  {
    hide IsQuorum;
  }

  lemma StepKeeps(s: State, t: State, fits: (nat, Joint) -> bool, x: NodeId)
    requires Inv(s, fits) && Grows(s, t) && x in s.nodes
    requires t.nodes == s.nodes[x := t.nodes[x]] && NodeOk(t, fits, x, t.nodes[x])
    requires forall m | m in t.net && m !in s.net :: MessageOk(t, m)
    requires forall v | v in t.won :: (v in s.won && t.won[v] == s.won[v]) || WinOk(t, fits, v)
    ensures Inv(t, fits)
  {
    hide NodeOk;
    hide WinOk;
    forall y | y in t.nodes ensures NodeOk(t, fits, y, t.nodes[y]) {
      if y != x { GrowthKeepsNode(s, t, fits, y, s.nodes[y]); }
    }
    forall v | v in t.won ensures WinOk(t, fits, v) {
      if v in s.won && t.won[v] == s.won[v] { GrowthKeepsWin(s, t, fits, v); }
    }
  }

  lemma RunCommandKeeps(s: State, fits: (nat, Joint) -> bool, x: NodeId)
    requires Inv(s, fits) && Enabled(s, RunCommand(x))
    ensures Inv(Apply(s, RunCommand(x)), fits)
  {
    hide Storage;
    hide WaitingOk;
    hide CandidateOk;
    hide WinOk;
    var n, t := s.nodes[x], Apply(s, RunCommand(x));
    assert NodeOk(s, fits, x, n);
    RunHeadKeeps(s, fits, x, n);
    GrowthKeepsNode(s, t, fits, x, RunHead(n));
    StepKeeps(s, t, fits, x);
  }

  lemma RunHeadKeeps(s: State, fits: (nat, Joint) -> bool, x: NodeId, n: Node)
    requires NodeOk(s, fits, x, n) && n.queue != []
    ensures NodeOk(s, fits, x, RunHead(n))
    ensures n.queue[0].vote in RunHead(n).saved
    ensures n.queue[0].SendVote? ==> n.queue[0].vote.node == x && !n.queue[0].vote.committed
  {
    var v, m := n.queue[0].vote, RunHead(n);
    assert forall w | w in n.saved :: Le(w, m.durable) by {
      forall w | w in n.saved ensures Le(w, m.durable) { VotesArePartiallyOrdered(w, n.durable, v); }
    }
    assert forall w | Known(n, w) :: Known(m, w);
  }

  /** A step that saves nothing and wins nothing only has to keep its own node and its new messages right. */
  lemma QuietStepKeeps(s: State, t: State, fits: (nat, Joint) -> bool, x: NodeId, n: Node)
    requires Inv(s, fits) && x in s.nodes && n.saved == s.nodes[x].saved && NodeOk(s, fits, x, n)
    requires t.nodes == s.nodes[x := n] && t.won == s.won
    requires forall m | m in t.net && m !in s.net :: MessageOk(s, m)
    ensures Inv(t, fits)
  {
    hide NodeOk;
    hide WinOk;
    GrowthKeepsNode(s, t, fits, x, n);
    StepKeeps(s, t, fits, x);
  }

  lemma SendReplyKeeps(s: State, fits: (nat, Joint) -> bool, x: NodeId, r: Message)
    requires Inv(s, fits) && Enabled(s, SendReply(x, r))
    ensures Inv(Apply(s, SendReply(x, r)), fits)
  {
    hide Chain;
    hide OneVotePerTerm;
    hide WinOk;
    var n := s.nodes[x];
    assert NodeOk(s, fits, x, n);
    if r.granted { FlushedMeansSaved(x, n, r.vote); }
    assert NodeOk(s, fits, x, n.(waiting := n.waiting - {r}));
    QuietStepKeeps(s, Apply(s, SendReply(x, r)), fits, x, n.(waiting := n.waiting - {r}));
  }

  /** A grant that completes a quorum makes a correct win. */
  lemma WinIsOk(s: State, fits: (nat, Joint) -> bool, x: NodeId, n: Node, r: Message)
    requires NodeOk(s, fits, x, n) && n.candidate.Some? && Wins(n.candidate.value, r)
    requires MessageOk(s, r) && r.to == x
    ensures var c := n.candidate.value;
            !c.vote.committed && WinOk(s.(won := s.won[c.vote := Win(c.joint, c.grants + {r.from})]), fits, c.vote)
  {
    hide Chain;
    hide OneVotePerTerm;
    hide IsQuorum;
    hide WaitingOk;
    var c := n.candidate.value;
    var t := s.(won := s.won[c.vote := Win(c.joint, c.grants + {r.from})]);
    forall g | g in t.won[c.vote].grants ensures SavedAt(t, g, c.vote) {
      assert SavedAt(s, g, c.vote);
    }
  }

  lemma WinKeeps(s: State, fits: (nat, Joint) -> bool, x: NodeId, r: Message)
    requires Inv(s, fits) && Enabled(s, VoteReply(x, r))
    requires s.nodes[x].candidate.Some? && Wins(s.nodes[x].candidate.value, r)
    ensures var c := s.nodes[x].candidate.value;
            !c.vote.committed && Inv(s.(won := s.won[c.vote := Win(c.joint, c.grants + {r.from})]), fits)
  {
    hide NodeOk;
    hide MessageOk;
    hide WinOk;
    hide Wins;
    var n := s.nodes[x];
    var c := n.candidate.value;
    var t := s.(won := s.won[c.vote := Win(c.joint, c.grants + {r.from})]);
    assert NodeOk(s, fits, x, n) && MessageOk(s, r);
    WinIsOk(s, fits, x, n, r);
    GrowthKeepsNode(s, t, fits, x, n);
    StepKeeps(s, t, fits, x);
  }

  lemma NoCandidateKeeps(s: State, fits: (nat, Joint) -> bool, x: NodeId, n: Node)
    requires NodeOk(s, fits, x, n)
    ensures NodeOk(s, fits, x, n.(candidate := None))
  {
    hide Chain;
    hide OneVotePerTerm;
  }

  lemma ReplyKeeps(s: State, fits: (nat, Joint) -> bool, x: NodeId, n: Node, r: Message)
    requires CoherentPerTerm(fits) && Inv(s, fits) && NodeOk(s, fits, x, n) && MessageOk(s, r) && r.Reply?
    requires n.candidate.Some? ==> !Wins(n.candidate.value, r)
    ensures NodeOk(s, fits, x, HandleReply(x, n, r)) && HandleReply(x, n, r).saved == n.saved
  {
    hide Inv;
    hide Chain;
    hide OneVotePerTerm;
    hide Wins;
    UpdateVoteKeeps(s, fits, x, n, r.vote.Uncommitted());
  }

  lemma VoteReplyKeeps(s: State, fits: (nat, Joint) -> bool, x: NodeId, r: Message)
    requires CoherentPerTerm(fits) && Inv(s, fits) && Enabled(s, VoteReply(x, r))
    ensures Inv(Apply(s, VoteReply(x, r)), fits)
  {
    hide NodeOk;
    hide MessageOk;
    hide WinOk;
    var n, t := s.nodes[x], Apply(s, VoteReply(x, r));
    assert NodeOk(s, fits, x, n) && MessageOk(s, r);
    if n.candidate.Some? && Wins(n.candidate.value, r) {
      var c, u, m := n.candidate.value, s.(won := t.won), n.(candidate := None);
      WinKeeps(s, fits, x, r);
      NoCandidateKeeps(u, fits, x, n);
      UpdateVoteKeeps(u, fits, x, m, c.vote.Committed());
      QuietStepKeeps(u, t, fits, x, UpdateVote(x, m, c.vote.Committed()));
    } else {
      ReplyKeeps(s, fits, x, n, r);
      QuietStepKeeps(s, t, fits, x, HandleReply(x, n, r));
    }
  }

  lemma StepIsSafe(s: State, fits: (nat, Joint) -> bool, step: Step)
    requires CoherentPerTerm(fits) && Inv(s, fits) && Allowed(s, fits, step)
    ensures Inv(Apply(s, step), fits)
  {
    hide WinOk;
    hide Storage;
    hide WaitingOk;
    hide CandidateOk;
    var x, t := step.x, Apply(s, step);
    var n := s.nodes[x];
    assert NodeOk(s, fits, x, n);
    match step
    case Initialize(_) =>
      InitializeKeeps(s, fits, x, n);
      QuietStepKeeps(s, t, fits, x, t.nodes[x]);
    case Elect(_, joint) =>
      CampaignKeeps(s, fits, x, n, joint);
      QuietStepKeeps(s, t, fits, x, StartCampaign(x, n, joint));
    case RunCommand(_) => RunCommandKeeps(s, fits, x);
    case LocalIO(_, v) =>
      FlushKeeps(s, fits, x, n, v);
      QuietStepKeeps(s, t, fits, x, t.nodes[x]);
    case VoteRequest(_, v, refuse) =>
      RequestKeeps(s, fits, x, n, v, refuse);
      QuietStepKeeps(s, t, fits, x, HandleRequest(x, n, v, refuse));
    case SendReply(_, r) => SendReplyKeeps(s, fits, x, r);
    case VoteReply(_, r) => VoteReplyKeeps(s, fits, x, r);
    case Observe(_, v) =>
      UpdateVoteKeeps(s, fits, x, n, v);
      QuietStepKeeps(s, t, fits, x, UpdateVote(x, n, v));
    case Restart(_, restore) =>
      RebootKeeps(s, fits, x, n, restore);
      QuietStepKeeps(s, t, fits, x, Reboot(x, n, restore));
  }

  /** A node that has seen no term yet has nothing but the initial vote saved or queued. */
  lemma NoTermNoVote(s: State, fits: (nat, Joint) -> bool, x: NodeId, n: Node)
    requires Inv(s, fits) && NodeOk(s, fits, x, n) && n.vote.term == 0
    ensures Chain(x, n.durable, n.queue, NO_VOTE) && (Bootstrapped(x, n) || n.vote == NO_VOTE)
  {
    hide OneVotePerTerm;
    hide WaitingOk;
    hide CandidateOk;
    hide MessageOk;
    hide IsQuorum;
    assert n.durable.committed && n.durable.term == 0 ==> WinOk(s, fits, n.durable.Uncommitted());
    assert n.vote.committed && !Bootstrapped(x, n) ==> WinOk(s, fits, n.vote.Uncommitted());
    if Chain(x, n.durable, n.queue, Top(x, n)) {
      ChainBounds(x, n.durable, n.queue, Top(x, n), Top(x, n));
      VotesArePartiallyOrdered(NO_VOTE, n.durable, Top(x, n));
    }
  }

  lemma InitializeKeeps(s: State, fits: (nat, Joint) -> bool, x: NodeId, n: Node)
    requires Inv(s, fits) && NodeOk(s, fits, x, n) && n.vote.term == 0
    ensures NodeOk(s, fits, x, n.(vote := Vote(0, x, true)))
  {
    hide Inv;
    hide Chain;
    hide OneVotePerTerm;
    NoTermNoVote(s, fits, x, n);
  }

  lemma FlushKeeps(s: State, fits: (nat, Joint) -> bool, x: NodeId, n: Node, v: Vote)
    requires NodeOk(s, fits, x, n) && v in n.saved
    ensures NodeOk(s, fits, x, n.(flushed := v))
  {
    hide Chain;
    hide OneVotePerTerm;
  }

  // ---- Runs ----

  /** A step may happen, and a campaign uses a quorum set that fits its term. */
  ghost predicate Allowed(s: State, fits: (nat, Joint) -> bool, step: Step) {
    Enabled(s, step) && (step.Elect? ==> fits(s.nodes[step.x].vote.term + 1, step.joint))
  }

  ghost predicate IsRun(s: State, fits: (nat, Joint) -> bool, steps: seq<Step>)
    decreases |steps|
  {
    steps != [] ==> Allowed(s, fits, steps[0]) && IsRun(Apply(s, steps[0]), fits, steps[1..])
  }

  ghost function Run(s: State, fits: (nat, Joint) -> bool, steps: seq<Step>): State
    requires IsRun(s, fits, steps)
    decreases |steps|
  {
    if steps == [] then s else Run(Apply(s, steps[0]), fits, steps[1..])
  }

  lemma {:induction false} RunKeepsInv(s: State, fits: (nat, Joint) -> bool, steps: seq<Step>)
    requires CoherentPerTerm(fits) && Inv(s, fits) && IsRun(s, fits, steps)
    ensures Inv(Run(s, fits, steps), fits)
    decreases |steps|
  {
    hide Inv;
    hide Apply;
    if steps != [] {
      StepIsSafe(s, fits, steps[0]);
      RunKeepsInv(Apply(s, steps[0]), fits, steps[1..]);
    }
  }

  lemma InitIsSafe(s: State, fits: (nat, Joint) -> bool)
    requires Init(s)
    ensures Inv(s, fits)
  {}

  /**
   * Crash-safe elections: in every run, no two votes of one term are both granted by a quorum; the
   * committed votes in memory of one term are equal exactly if the term is above 0 or they are of one node; and
   * all committed votes of one term that were ever stored anywhere are equal.
   */
  lemma AtMostOneLeaderPerTerm(s: State, fits: (nat, Joint) -> bool, steps: seq<Step>)
    requires CoherentPerTerm(fits) && Init(s) && IsRun(s, fits, steps)
    ensures var t := Run(s, fits, steps);
      && (forall a, b | a in t.won && b in t.won && a.term == b.term :: a == b)
      && (forall x, y | x in t.nodes && y in t.nodes && t.nodes[x].vote.committed && t.nodes[y].vote.committed
            && t.nodes[x].vote.term == t.nodes[y].vote.term ::
            t.nodes[x].vote == t.nodes[y].vote <==> 0 < t.nodes[x].vote.term || x == y)
      && (forall x, y, v, w | SavedAt(t, x, v) && SavedAt(t, y, w) && v.committed && w.committed && v.term == w.term ::
            v == w)
  {
    InitIsSafe(s, fits);
    RunKeepsInv(s, fits, steps);
    OneCommittedPerTerm(Run(s, fits, steps), fits);
  }

  lemma OneCommittedPerTerm(t: State, fits: (nat, Joint) -> bool)
    requires CoherentPerTerm(fits) && Inv(t, fits)
    ensures forall a, b | a in t.won && b in t.won && a.term == b.term :: a == b
    ensures forall x, y | x in t.nodes && y in t.nodes && t.nodes[x].vote.committed && t.nodes[y].vote.committed
              && t.nodes[x].vote.term == t.nodes[y].vote.term ::
              t.nodes[x].vote == t.nodes[y].vote <==> 0 < t.nodes[x].vote.term || x == y
    ensures forall x, y, v, w |
              SavedAt(t, x, v) && SavedAt(t, y, w) && v.committed && w.committed && v.term == w.term :: v == w
  {
    hide Storage;
    hide WaitingOk;
    hide CandidateOk;
    hide WinOk;
    hide MessageOk;
    forall a, b | a in t.won && b in t.won && a.term == b.term ensures a == b {
      OneWinner(t, fits, a, b);
    }
    forall x, y | x in t.nodes && y in t.nodes && t.nodes[x].vote.committed && t.nodes[y].vote.committed
        && t.nodes[x].vote.term == t.nodes[y].vote.term
      ensures t.nodes[x].vote == t.nodes[y].vote <==> 0 < t.nodes[x].vote.term || x == y
    {
      assert NodeOk(t, fits, x, t.nodes[x]) && NodeOk(t, fits, y, t.nodes[y]);
      if 0 < t.nodes[x].vote.term {
        OneWinner(t, fits, t.nodes[x].vote.Uncommitted(), t.nodes[y].vote.Uncommitted());
      } else {
        BootstrapVoteIsOwn(t, fits, x);
        BootstrapVoteIsOwn(t, fits, y);
      }
    }
    forall x, y, v, w | SavedAt(t, x, v) && SavedAt(t, y, w) && v.committed && w.committed && v.term == w.term
      ensures v == w
    {
      assert NodeOk(t, fits, x, t.nodes[x]) && NodeOk(t, fits, y, t.nodes[y]);
      OneWinner(t, fits, v.Uncommitted(), w.Uncommitted());
    }
  }

  /** A committed vote of term 0 is the node's own, from its initialization. */
  lemma BootstrapVoteIsOwn(t: State, fits: (nat, Joint) -> bool, x: NodeId)
    requires Inv(t, fits) && x in t.nodes && t.nodes[x].vote.committed && t.nodes[x].vote.term == 0
    ensures t.nodes[x].vote == Vote(0, x, true)
  {
    hide Storage;
    hide WaitingOk;
    hide CandidateOk;
    hide MessageOk;
    var v := t.nodes[x].vote;
    assert NodeOk(t, fits, x, t.nodes[x]);
    assert v.Uncommitted() in t.won ==> WinOk(t, fits, v.Uncommitted());
  }

  /** The stored vote never goes back, not even after a leader restarts with its vote demoted in memory. */
  lemma {:induction false} StoredVoteOnlyRises(s: State, fits: (nat, Joint) -> bool, steps: seq<Step>, y: NodeId)
    requires CoherentPerTerm(fits) && Inv(s, fits) && IsRun(s, fits, steps) && y in s.nodes
    ensures y in Run(s, fits, steps).nodes && Le(s.nodes[y].durable, Run(s, fits, steps).nodes[y].durable)
    decreases |steps|
  {
    hide Inv;
    hide Apply;
    VotesArePartiallyOrdered(s.nodes[y].durable, s.nodes[y].durable, s.nodes[y].durable);
    if steps != [] {
      var t := Apply(s, steps[0]);
      StepIsSafe(s, fits, steps[0]);
      StepRaisesStored(s, fits, steps[0], y);
      StoredVoteOnlyRises(t, fits, steps[1..], y);
      VotesArePartiallyOrdered(s.nodes[y].durable, t.nodes[y].durable, Run(t, fits, steps[1..]).nodes[y].durable);
    }
  }

  lemma StepRaisesStored(s: State, fits: (nat, Joint) -> bool, step: Step, y: NodeId)
    requires Inv(s, fits) && Enabled(s, step) && y in s.nodes
    ensures y in Apply(s, step).nodes && Le(s.nodes[y].durable, Apply(s, step).nodes[y].durable)
  {
    hide Inv;
    hide Wins;
    hide Le;
    assert Le(s.nodes[y].durable, s.nodes[y].durable) by {
      VotesArePartiallyOrdered(s.nodes[y].durable, s.nodes[y].durable, s.nodes[y].durable);
    }
    if step.RunCommand? { CommandRaisesStored(s, fits, step.x); }
  }

  lemma CommandRaisesStored(s: State, fits: (nat, Joint) -> bool, x: NodeId)
    requires Inv(s, fits) && x in s.nodes && s.nodes[x].queue != []
    ensures Le(s.nodes[x].durable, RunHead(s.nodes[x]).durable)
  {
    hide OneVotePerTerm;
    hide WaitingOk;
    hide CandidateOk;
    hide WinOk;
    hide MessageOk;
    hide Origins;
    VotesArePartiallyOrdered(s.nodes[x].durable, s.nodes[x].durable, s.nodes[x].durable);
    assert NodeOk(s, fits, x, s.nodes[x]);
  }
}
