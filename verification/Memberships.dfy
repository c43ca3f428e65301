/** Membership configs, membership changes and the joint-consensus step between two of them. */
module Memberships {
  import opened Common
  import opened Quorum

  datatype MembershipError = EmptyMembership | NodeNotFound(id: NodeId)

  datatype Membership<N> = Membership(configs: Joint, nodes: map<NodeId, N>) {
    /** No empty config, and a node for every voter. */
    ghost predicate Valid() {
      (forall i | 0 <= i < |configs| :: configs[i] != {}) && Ids(configs) <= nodes.Keys
    }
  }

  datatype ChangeMembers<N> =
    | AddVoterIds(ids: set<NodeId>)
    | AddVoters(add: map<NodeId, N>)
    | RemoveVoters(ids: set<NodeId>)
    | ReplaceAllVoters(ids: set<NodeId>)
    | AddNodes(add: map<NodeId, N>)
    | SetNodes(add: map<NodeId, N>)
    | RemoveNodes(ids: set<NodeId>)
    | ReplaceAllNodes(add: map<NodeId, N>)
    | Batch(changes: seq<ChangeMembers<N>>)

  /** The last config: the one a joint membership is moving to. */
  function Last(configs: Joint): set<NodeId> {
    if configs == [] then {} else configs[|configs| - 1]
  }

  // ---- The target of a change ----

  function Target<N>(m: Membership<N>, change: ChangeMembers<N>): Membership<N>
    decreases change
  {
    var last := Last(m.configs);
    match change
    case AddVoterIds(ids) => m.(configs := [last + ids])
    case AddVoters(add) => Membership([last + add.Keys], add + m.nodes)
    case RemoveVoters(ids) => m.(configs := [last - ids])
    case ReplaceAllVoters(ids) => m.(configs := [ids])
    case AddNodes(add) => m.(nodes := add + m.nodes)
    case SetNodes(add) => m.(nodes := m.nodes + add)
    case RemoveNodes(ids) => m.(nodes := m.nodes - ids)
    case ReplaceAllNodes(add) => m.(nodes := add)
    case Batch(changes) => TargetOfAll(m, changes)
  }

  function TargetOfAll<N>(m: Membership<N>, changes: seq<ChangeMembers<N>>): Membership<N>
    decreases changes
  {
    if changes == [] then m else TargetOfAll(Target(m, changes[0]), changes[1..])
  }

  /** What a change does to an id set: start over or drop some ids, then add some. */
  datatype Effect = Effect(reset: bool, drop: set<NodeId>, add: set<NodeId>) {
    function On(ids: set<NodeId>): set<NodeId> {
      (if reset then {} else ids - drop) + add
    }

    function Then(next: Effect): Effect {
      Effect(reset || next.reset, drop + next.drop, (if next.reset then {} else add - next.drop) + next.add)
    }

    lemma ThenIsComposition(next: Effect, ids: set<NodeId>)
      ensures Then(next).On(ids) == next.On(On(ids))
    {}

    /** Applied again, an effect gives back every id that it had left and that was not dropped since. */
    lemma Again(ids: set<NodeId>, dropped: set<NodeId>)
      ensures On(On(ids)) == On(ids)
      ensures On(ids) - dropped <= On(On(ids) - dropped)
    {}
  }

  const NOTHING := Effect(false, {}, {})

  ghost function OnVoters<N>(change: ChangeMembers<N>): Effect
    decreases change
  {
    match change
    case AddVoterIds(ids) => Effect(false, {}, ids)
    case AddVoters(add) => Effect(false, {}, add.Keys)
    case RemoveVoters(ids) => Effect(false, ids, {})
    case ReplaceAllVoters(ids) => Effect(true, {}, ids)
    case AddNodes(_) => NOTHING
    case SetNodes(_) => NOTHING
    case RemoveNodes(_) => NOTHING
    case ReplaceAllNodes(_) => NOTHING
    case Batch(changes) => OnVotersAll(changes)
  }

  ghost function OnVotersAll<N>(changes: seq<ChangeMembers<N>>): Effect
    decreases changes
  {
    if changes == [] then NOTHING else OnVoters(changes[0]).Then(OnVotersAll(changes[1..]))
  }

  ghost function OnNodes<N>(change: ChangeMembers<N>): Effect
    decreases change
  {
    match change
    case AddVoterIds(_) => NOTHING
    case AddVoters(add) => Effect(false, {}, add.Keys)
    case RemoveVoters(_) => NOTHING
    case ReplaceAllVoters(_) => NOTHING
    case AddNodes(add) => Effect(false, {}, add.Keys)
    case SetNodes(add) => Effect(false, {}, add.Keys)
    case RemoveNodes(ids) => Effect(false, ids, {})
    case ReplaceAllNodes(add) => Effect(true, {}, add.Keys)
    case Batch(changes) => OnNodesAll(changes)
  }

  ghost function OnNodesAll<N>(changes: seq<ChangeMembers<N>>): Effect
    decreases changes
  {
    if changes == [] then NOTHING else OnNodes(changes[0]).Then(OnNodesAll(changes[1..]))
  }

  /** Every change, nested batches included, acts on the voters and on the node ids by a fixed effect. */
  lemma {:induction false} TargetHasEffect<N>(m: Membership<N>, change: ChangeMembers<N>)
    ensures Last(Target(m, change).configs) == OnVoters(change).On(Last(m.configs))
    ensures Target(m, change).nodes.Keys == OnNodes(change).On(m.nodes.Keys)
    ensures m.configs != [] ==> Target(m, change).configs != []
    decreases change
  {
    match change
    case Batch(changes) => BatchHasEffect(m, changes);
    case _ =>
  }

  lemma {:induction false} BatchHasEffect<N>(m: Membership<N>, changes: seq<ChangeMembers<N>>)
    ensures Last(TargetOfAll(m, changes).configs) == OnVotersAll(changes).On(Last(m.configs))
    ensures TargetOfAll(m, changes).nodes.Keys == OnNodesAll(changes).On(m.nodes.Keys)
    ensures m.configs != [] ==> TargetOfAll(m, changes).configs != []
    decreases changes
  {
    if changes != [] {
      var next := Target(m, changes[0]);
      TargetHasEffect(m, changes[0]);
      BatchHasEffect(next, changes[1..]);
      OnVoters(changes[0]).ThenIsComposition(OnVotersAll(changes[1..]), Last(m.configs));
      OnNodes(changes[0]).ThenIsComposition(OnNodesAll(changes[1..]), m.nodes.Keys);
    }
  }

  /** The node of an id, if it has one. */
  function NodeOf<N>(nodes: map<NodeId, N>, id: NodeId): Option<N> {
    if id in nodes then Some(nodes[id]) else None
  }

  /** Whether a change may remove or replace the node that `id` has. */
  ghost predicate Replaces<N>(change: ChangeMembers<N>, id: NodeId)
    decreases change
  {
    match change
    case SetNodes(add) => id in add
    case RemoveNodes(ids) => id in ids
    case ReplaceAllNodes(_) => true
    case Batch(changes) => exists i :: 0 <= i < |changes| && Replaces(changes[i], id)
    case _ => false
  }

  /** A node that no part of a change sets, removes or replaces stays as it is; nodes are only added to it. */
  lemma {:induction false} OtherNodesStay<N>(m: Membership<N>, change: ChangeMembers<N>, id: NodeId)
    requires id in m.nodes && !Replaces(change, id)
    ensures NodeOf(Target(m, change).nodes, id) == Some(m.nodes[id])
    decreases change
  {
    match change
    case Batch(changes) => OtherNodesStayInBatch(m, changes, id);
    case _ =>
  }

  lemma {:induction false} OtherNodesStayInBatch<N>(m: Membership<N>, changes: seq<ChangeMembers<N>>, id: NodeId)
    requires id in m.nodes && forall i | 0 <= i < |changes| :: !Replaces(changes[i], id)
    ensures NodeOf(TargetOfAll(m, changes).nodes, id) == Some(m.nodes[id])
    decreases changes
  {
    if changes != [] {
      OtherNodesStay(m, changes[0], id);
      OtherNodesStayInBatch(Target(m, changes[0]), changes[1..], id);
    }
  }

  /** What a change that is no batch gives an id: adding keeps a node that is there, setting does not. */
  lemma NodeAfter<N>(m: Membership<N>, change: ChangeMembers<N>, id: NodeId)
    requires !change.Batch?
    ensures var before, after := NodeOf(m.nodes, id), NodeOf(Target(m, change).nodes, id);
            match change
            case AddVoters(add) => after == if before.Some? then before else NodeOf(add, id)
            case AddNodes(add) => after == if before.Some? then before else NodeOf(add, id)
            case SetNodes(add) => after == if id in add then Some(add[id]) else before
            case RemoveNodes(ids) => after == if id in ids then None else before
            case ReplaceAllNodes(add) => after == NodeOf(add, id)
            case _ => after == before
  {}

  // ---- The next coherent config ----

  /** Whether two joint configs share a config. */
  ghost predicate ShareConfig(a: Joint, b: Joint) {
    exists i, j :: 0 <= i < |a| && 0 <= j < |b| && a[i] == b[j]
  }

  method IsCoherentWith(a: Joint, b: Joint) returns (shared: bool)
    ensures shared <==> ShareConfig(a, b)
    ensures shared ==> Coherent(a, b)
  {
    for i := 0 to |a|
      invariant forall k, j | 0 <= k < i && 0 <= j < |b| :: a[k] != b[j]
    {
      for j := 0 to |b|
        invariant forall l | 0 <= l < j :: a[i] != b[l]
      {
        if a[i] == b[j] {
          SharedConfigMeets(a, b, i, j);
          return true;
        }
      }
    }
    return false;
  }

  function FindCoherent(configs: Joint, goal: set<NodeId>): (r: Joint)
    ensures r != [] && Last(r) == goal && |r| <= 2
  {
    if goal in configs then [goal] else if configs != [] then [Last(configs), goal] else [goal]
  }

  lemma FoundIsCoherent(configs: Joint, goal: set<NodeId>)
    ensures configs != [] ==> Coherent(configs, FindCoherent(configs, goal))
    ensures Coherent(FindCoherent(configs, goal), [goal])
    ensures FindCoherent(FindCoherent(configs, goal), goal) == [goal]
  {
    var found := FindCoherent(configs, goal);
    if goal in configs {
      var i :| 0 <= i < |configs| && configs[i] == goal;
      SharedConfigMeets(configs, found, i, 0);
    } else if configs != [] {
      SharedConfigMeets(configs, found, |configs| - 1, 0);
    }
    SharedConfigMeets(found, [goal], |found| - 1, 0);
  }

  function NextCoherent<N>(m: Membership<N>, goal: set<NodeId>, retain: bool): Membership<N> {
    var configs := FindCoherent(m.configs, goal);
    Membership(configs, if retain then m.nodes else m.nodes - (Ids(m.configs) - Ids(configs)))
  }

  ghost predicate IsLeast(s: set<NodeId>, m: NodeId) {
    m in s && forall x | x in s :: m <= x
  }

  lemma {:induction false} LeastExists(s: set<NodeId>)
    requires s != {}
    ensures exists m :: IsLeast(s, m)
    decreases |s|
  {
    var x :| x in s;
    var rest := s - {x};
    assert forall y | y in s :: y == x || y in rest;
    if rest == {} {
      assert IsLeast(s, x);
    } else {
      LeastExists(rest);
      var m :| IsLeast(rest, m);
      assert IsLeast(s, if x < m then x else m);
    }
  }

  ghost function Least(s: set<NodeId>): (m: NodeId)
    requires s != {}
    ensures IsLeast(s, m)
  {
    LeastExists(s);
    var m :| IsLeast(s, m);
    m
  }

  ghost function EnsureValid<N>(m: Membership<N>): (r: Option<MembershipError>)
    ensures r.None? <==> m.Valid()
    ensures r == Some(EmptyMembership) <==> {} in m.configs
    ensures r.Some? && r.value.NodeNotFound? ==> r.value.id in Ids(m.configs) && r.value.id !in m.nodes
  {
    var missing := Ids(m.configs) - m.nodes.Keys;
    assert forall id | id in Ids(m.configs) && id !in m.nodes.Keys :: id in missing;
    if {} in m.configs then Some(EmptyMembership)
    else if missing != {} then Some(NodeNotFound(Least(missing)))
    else None
  }

  ghost function Change<N>(m: Membership<N>, change: ChangeMembers<N>, retain: bool)
    : (r: Result<Membership<N>, MembershipError>)
    requires m.configs != []
    ensures r.Ok? ==> r.value.Valid()
  {
    var target := Target(m, change);
    var next := NextCoherent(m.(nodes := target.nodes), Last(target.configs), retain);
    var error := EnsureValid(next);
    if error.Some? then Err(error.value) else Ok(next)
  }

  // ---- What a change guarantees ----

  /** Every quorum before a change meets every quorum after it. */
  lemma ChangeKeepsQuorumsMeeting<N>(m: Membership<N>, change: ChangeMembers<N>, retain: bool)
    requires m.configs != [] && Change(m, change, retain).Ok?
    ensures Coherent(m.configs, Change(m, change, retain).value.configs)
    ensures Change(m, change, retain).value.configs != []
  {
    FoundIsCoherent(m.configs, Last(Target(m, change).configs));
  }

  /** The configs that a change steps through: the joint one, if the target is new, then the target. */
  lemma ChangeGoesToTarget<N>(m: Membership<N>, change: ChangeMembers<N>, retain: bool)
    requires m.configs != [] && Change(m, change, retain).Ok?
    ensures var target := OnVoters(change).On(Last(m.configs));
            && target != {}
            && Change(m, change, retain).value.configs
                 == if target in m.configs then [target] else [Last(m.configs), target]
  {
    TargetHasEffect(m, change);
    var next := Change(m, change, retain).value;
    assert next.configs[|next.configs| - 1] != {};
  }

  /** The configs that a change leads to, by what it does to the voters. */
  ghost function NextConfigs<N>(m: Membership<N>, change: ChangeMembers<N>): Joint {
    var target := OnVoters(change).On(Last(m.configs));
    if target in m.configs then [target] else [Last(m.configs), target]
  }

  /**
   * The node ids that are left, by what it does to the nodes; of those that are no voters any more, the nodes are
   * dropped or retained.
   */
  ghost function NextNodes<N>(m: Membership<N>, change: ChangeMembers<N>, retain: bool): set<NodeId> {
    OnNodes(change).On(m.nodes.Keys) - if retain then {} else Ids(m.configs) - Ids(NextConfigs(m, change))
  }

  /** A voter of some config that has no node. */
  ghost predicate LacksNode(configs: Joint, nodes: set<NodeId>, id: NodeId) {
    id !in nodes && exists i :: 0 <= i < |configs| && id in configs[i]
  }

  /**
   * A change succeeds exactly when no resulting config is empty and every resulting voter has a node. The
   * error says which of the two it is, the empty config first, and names the least voter without a node.
   * On success the voters, node ids and nodes are those of the change.
   */
  lemma ChangeSucceedsIff<N>(m: Membership<N>, change: ChangeMembers<N>, retain: bool)
    requires m.configs != []
    ensures var r := Change(m, change, retain);
            var configs, nodes := NextConfigs(m, change), NextNodes(m, change, retain);
            && (r.Ok? <==> {} !in configs && forall i | 0 <= i < |configs| :: configs[i] <= nodes)
            && (r == Err(EmptyMembership) <==> {} in configs)
            && (forall id :: r == Err(NodeNotFound(id)) <==>
                  {} !in configs && LacksNode(configs, nodes, id) && forall x | x < id :: !LacksNode(configs, nodes, x))
            && (r.Ok? ==> r.value.configs == configs && r.value.nodes.Keys == nodes)
            && (r.Ok? ==> forall id | id in nodes :: r.value.nodes[id] == Target(m, change).nodes[id])
  {
    TargetHasEffect(m, change);
    var configs, nodes := NextConfigs(m, change), NextNodes(m, change, retain);
    var next := NextCoherent(m.(nodes := Target(m, change).nodes), Last(Target(m, change).configs), retain);
    assert next.configs == configs && next.nodes.Keys == nodes;
    assert Ids(configs) <= nodes <==> forall i | 0 <= i < |configs| :: configs[i] <= nodes;
    forall id ensures id in Ids(configs) - nodes <==> LacksNode(configs, nodes, id) {}
    var r := Change(m, change, retain);
    if r.Err? && r.error.NodeNotFound? {
      ErrorIsLeast(next);
    }
  }

  lemma ErrorIsLeast<N>(m: Membership<N>)
    ensures var r := EnsureValid(m);
            r.Some? && r.value.NodeNotFound? ==> IsLeast(Ids(m.configs) - m.nodes.Keys, r.value.id)
  {}

  /** The node ids that a change leaves. */
  lemma ChangeNodes<N>(m: Membership<N>, change: ChangeMembers<N>, retain: bool)
    requires m.configs != [] && Change(m, change, retain).Ok?
    ensures var next := Change(m, change, retain).value;
            next.nodes.Keys
              == OnNodes(change).On(m.nodes.Keys) - if retain then {} else Ids(m.configs) - Ids(next.configs)
  {
    TargetHasEffect(m, change);
  }

  lemma ShortIds(a: set<NodeId>, b: set<NodeId>)
    ensures Ids([a]) == a && Ids([a, b]) == a + b
  {
    assert [a, b][0] == a && [a, b][1] == b && [a][0] == a;
  }

  /** Moving to a config that is already part of the joint config ends in that config alone. */
  lemma FlattensToGoal<N>(m: Membership<N>, goal: set<NodeId>, retain: bool)
    requires goal in m.configs && {} < goal <= m.nodes.Keys
    ensures var next := NextCoherent(m, goal, retain); next.configs == [goal] && next.Valid()
  {
    ShortIds(goal, goal);
  }

  /**
   * Once a change is made, a second change whose target is the same voter set and that drops none
   * of their nodes succeeds and ends in the uniform config.
   */
  lemma SecondStep<N>(m: Membership<N>, change: ChangeMembers<N>, again: ChangeMembers<N>, retain: bool)
    requires m.configs != [] && Change(m, change, retain).Ok?
    requires var next := Change(m, change, retain).value;
             && OnVoters(again).On(Last(next.configs)) == Last(next.configs)
             && Last(next.configs) <= OnNodes(again).On(next.nodes.Keys)
    ensures var next := Change(m, change, retain).value;
            next.configs != [] && Change(next, again, retain).Ok?
              && Change(next, again, retain).value.configs == [Last(next.configs)]
  {
    var next := Change(m, change, retain).value;
    ChangeGoesToTarget(m, change, retain);
    TargetHasEffect(next, again);
    var goal := Last(next.configs);
    assert goal in next.configs && {} < goal;
    ChangeToGoal(next, again, goal, retain);
  }

  lemma ChangeToGoal<N>(m: Membership<N>, change: ChangeMembers<N>, goal: set<NodeId>, retain: bool)
    requires goal in m.configs && {} < goal <= Target(m, change).nodes.Keys && Last(Target(m, change).configs) == goal
    ensures Change(m, change, retain) == Ok(NextCoherent(m.(nodes := Target(m, change).nodes), goal, retain))
    ensures Change(m, change, retain).value.configs == [goal]
  {
    FlattensToGoal(m.(nodes := Target(m, change).nodes), goal, retain);
  }

  /** Applying the same change again succeeds and yields the uniform target. */
  lemma SameChangeTwice<N>(m: Membership<N>, change: ChangeMembers<N>, retain: bool)
    requires m.configs != [] && Change(m, change, retain).Ok?
    ensures var last := Change(Change(m, change, retain).value, change, retain);
            last.Ok? && last.value.configs == [OnVoters(change).On(Last(m.configs))]
  {
    ChangeGoesToTarget(m, change, retain);
    ChangeNodes(m, change, retain);
    var next := Change(m, change, retain).value;
    var target := Last(next.configs);
    ShortIds(target, target);
    ShortIds(Last(m.configs), target);
    OnVoters(change).Again(Last(m.configs), {});
    OnNodes(change).Again(m.nodes.Keys, if retain then {} else Ids(m.configs) - Ids(next.configs));
    assert target <= Ids(next.configs) <= next.nodes.Keys;
    SecondStep(m, change, change, retain);
  }

  /** The empty change that the second step sends flattens a joint config, whatever made it joint. */
  lemma EmptyChangeFlattens<N>(m: Membership<N>, change: ChangeMembers<N>, retain: bool)
    requires m.configs != [] && Change(m, change, retain).Ok?
    ensures var next := Change(m, change, retain).value;
            && next.configs != []
            && Change(next, AddVoterIds({}), retain) == Ok(NextCoherent(next, Last(next.configs), retain))
            && NextCoherent(next, Last(next.configs), retain).configs == [OnVoters(change).On(Last(m.configs))]
  {
    ChangeGoesToTarget(m, change, retain);
    var next := Change(m, change, retain).value;
    var goal := Last(next.configs);
    ShortIds(goal, goal);
    ShortIds(Last(m.configs), goal);
    assert Target(next, AddVoterIds({})) == next.(configs := [goal]);
    ChangeToGoal(next, AddVoterIds({}), goal, retain);
    assert next.(nodes := next.nodes) == next;
  }

  // ---- Appending a membership directly ----

  ghost predicate QuorumDefined(configs: Joint) {
    configs != [] && forall i | 0 <= i < |configs| :: configs[i] != {}
  }

  method EnsureQuorumDefined(configs: Joint) returns (ok: bool)
    ensures ok <==> QuorumDefined(configs)
  {
    if configs == [] { return false; }
    for i := 0 to |configs|
      invariant forall k | 0 <= k < i :: configs[k] != {}
    {
      if configs[i] == {} { return false; }
    }
    return true;
  }

  ghost predicate DirectlyAppendable(a: Joint, b: Joint) {
    && QuorumDefined(a) && QuorumDefined(b)
    && if |a| == 1 && |b| == 1 then |(a[0] - b[0]) + (b[0] - a[0])| <= 1 else ShareConfig(a, b)
  }

  method IsDirectAppendCompatibleWith(a: Joint, b: Joint) returns (ok: bool)
    ensures ok <==> DirectlyAppendable(a, b)
    ensures ok ==> Coherent(a, b)
  {
    var defined := EnsureQuorumDefined(a);
    if !defined { return false; }
    defined := EnsureQuorumDefined(b);
    if !defined { return false; }
    if |a| == 1 && |b| == 1 {
      ok := |(a[0] - b[0]) + (b[0] - a[0])| <= 1;
      if ok { UniformMeets(a, b); }
      return ok;
    }
    ok := IsCoherentWith(a, b);
  }

  lemma UniformMeets(a: Joint, b: Joint)
    requires a != [] && b != [] && |(a[0] - b[0]) + (b[0] - a[0])| <= 1
    ensures Coherent(a, b)
  {
    forall p: set<NodeId>, q: set<NodeId> | IsQuorum(a, p) && IsQuorum(b, q) ensures p * q != {} {
      MajoritiesMeet(a[0], b[0], p, q);
    }
  }

  /** The voters are the same but for one. */
  ghost predicate OneApart(a: set<NodeId>, b: set<NodeId>, id: NodeId) {
    b == a + {id} || a == b + {id}
  }

  /** Uniform memberships can be appended directly iff both have voters, and one has at most one voter more. */
  lemma UniformAppendIff(a: set<NodeId>, b: set<NodeId>)
    ensures DirectlyAppendable([a], [b]) <==> a != {} && b != {} && (a == b || exists id :: OneApart(a, b, id))
  {
    hide OneApart;
    var d := (a - b) + (b - a);
    if |d| <= 1 && a != b {
      var id := SmallDifference(a, b);
    }
    if id :| OneApart(a, b, id) {
      OneApartDiffers(a, b, id);
    }
    assert a == b ==> d == {};
  }

  lemma SmallDifference(a: set<NodeId>, b: set<NodeId>) returns (id: NodeId)
    requires |(a - b) + (b - a)| <= 1 && a != b
    ensures OneApart(a, b, id)
  {
    var d := (a - b) + (b - a);
    assert d != {} by { assert !(a <= b && b <= a); }
    id :| id in d;
    assert d - {id} == {} by { assert |d - {id}| == |d| - 1; }
    assert forall x :: x in d ==> x == id;
    if id in b {
      assert b == a + {id};
    } else {
      assert a == b + {id};
    }
  }

  lemma OneApartDiffers(a: set<NodeId>, b: set<NodeId>, id: NodeId)
    requires OneApart(a, b, id)
    ensures |(a - b) + (b - a)| <= 1
  {
    assert (a - b) + (b - a) <= {id};
    SubsetCard((a - b) + (b - a), {id});
  }

  lemma DirectAppendIsSymmetric(a: Joint, b: Joint)
    requires DirectlyAppendable(a, b)
    ensures DirectlyAppendable(b, a)
  {
    assert (a[0] - b[0]) + (b[0] - a[0]) == (b[0] - a[0]) + (a[0] - b[0]);
  }

  // ---- Two changes of one membership ----

  /** `b` is what some change makes of the configs `a`. */
  ghost predicate ByChange(a: Joint, b: Joint) {
    exists goal: set<NodeId> :: b == FindCoherent(a, goal)
  }

  /** A joint membership is left only towards its last config, the one it was made for. */
  ghost predicate Forward(a: Joint, b: Joint) {
    a != [] && (|a| == 1 || Last(a) in b)
  }

  /** A change goes forward exactly when its target is new or the last config, or the membership is not joint. */
  lemma ForwardIff(configs: Joint, goal: set<NodeId>)
    requires configs != []
    ensures Forward(configs, FindCoherent(configs, goal)) <==>
              |configs| == 1 || goal !in configs || goal == Last(configs)
  {
    assert goal !in configs ==> FindCoherent(configs, goal)[0] == Last(configs);
  }

  /**
   * Two changes of one membership have a config in common exactly when they have the same target or neither
   * goes back to a config before the last.
   */
  lemma ChangesShareIff(configs: Joint, a: set<NodeId>, b: set<NodeId>)
    requires configs != []
    ensures ShareConfig(FindCoherent(configs, a), FindCoherent(configs, b)) <==>
              a == b || ((a in configs ==> a == Last(configs)) && (b in configs ==> b == Last(configs)))
  {
    var p, q := FindCoherent(configs, a), FindCoherent(configs, b);
    assert p[|p| - 1] == a && q[|q| - 1] == b;
    if a == b || ((a in configs ==> a == Last(configs)) && (b in configs ==> b == Last(configs))) {
      assert p[0] == q[0];
    }
  }

  /** Any two changes of a membership have a config in common exactly when the membership is not really joint. */
  lemma AllChangesShareIff(configs: Joint)
    requires configs != []
    ensures (forall a: set<NodeId>, b: set<NodeId> :: ShareConfig(FindCoherent(configs, a), FindCoherent(configs, b)))
       <==> (forall i | 0 <= i < |configs| :: configs[i] == Last(configs))
  {
    forall a: set<NodeId>, b: set<NodeId> {
      ChangesShareIff(configs, a, b);
    }
    if i :| 0 <= i < |configs| && configs[i] != Last(configs) {
      assert !ShareConfig(FindCoherent(configs, configs[i]), FindCoherent(configs, Last(configs)));
    }
  }

  /** A change and any other proposal on one membership have intersecting quorums, if both go forward. */
  lemma ProposalsMeet(configs: Joint, a: Joint, b: Joint)
    requires Forward(configs, a) && Forward(configs, b) && ByChange(configs, b)
    requires ByChange(configs, a) || DirectlyAppendable(configs, a)
    ensures Coherent(a, b) && Coherent(b, a)
  {
    var last := Last(configs);
    assert last in b;
    var j :| 0 <= j < |b| && b[j] == last;
    if last in a {
      var i :| 0 <= i < |a| && a[i] == last;
      SharedConfigMeets(a, b, i, j);
    } else {
      assert DirectlyAppendable(configs, a) && |configs| == 1;
      UniformMeetsJoint(configs, a, b, j);
    }
    CoherentIsSymmetric(a, b);
  }

  lemma UniformMeetsJoint(configs: Joint, a: Joint, b: Joint, j: nat)
    requires |configs| == 1 && DirectlyAppendable(configs, a) && configs[0] !in a
    requires j < |b| && b[j] == configs[0]
    ensures Coherent(a, b)
  {
    forall p: set<NodeId>, q: set<NodeId> | IsQuorum(a, p) && IsQuorum(b, q) ensures p * q != {} {
      assert Majority(a[0], p) && Majority(b[j], q);
      assert (a[0] - b[j]) + (b[j] - a[0]) == (configs[0] - a[0]) + (a[0] - configs[0]);
      MajoritiesMeet(a[0], b[j], p, q);
    }
  }

  lemma CoherentIsSymmetric(a: Joint, b: Joint)
    requires Coherent(a, b)
    ensures Coherent(b, a)
  {
    forall p: set<NodeId>, q: set<NodeId> | IsQuorum(b, p) && IsQuorum(a, q) ensures p * q != {} {
      assert q * p != {} && q * p == p * q;
    }
  }

  /** What is proposed on a membership has quorums that meet those of the membership itself. */
  lemma ProposalMeetsParent(configs: Joint, a: Joint)
    requires configs != [] && (ByChange(configs, a) || DirectlyAppendable(configs, a))
    ensures a != [] && Coherent(configs, a) && Coherent(a, configs)
  {
    if ByChange(configs, a) {
      var goal: set<NodeId> :| a == FindCoherent(configs, goal);
      FoundIsCoherent(configs, goal);
    } else if |configs| == 1 && |a| == 1 {
      UniformMeets(configs, a);
    } else {
      var i, j :| 0 <= i < |configs| && 0 <= j < |a| && configs[i] == a[j];
      SharedConfigMeets(configs, a, i, j);
    }
    CoherentIsSymmetric(configs, a);
  }

  // ---- The loops that build the maps ----

  method ExtendNodes<N>(nodes: map<NodeId, N>, add: map<NodeId, N>) returns (res: map<NodeId, N>)
    ensures res == add + nodes
  {
    res := nodes;
    var todo := add.Keys;
    while todo != {}
      invariant todo <= add.Keys && res.Keys == nodes.Keys + (add.Keys - todo)
      invariant forall k | k in res :: res[k] == if k in nodes then nodes[k] else add[k]
      decreases |todo|
    {
      var k :| k in todo;
      todo := todo - {k};
      if k !in res {
        res := res[k := add[k]];
      }
    }
  }

  method OverwriteNodes<N>(nodes: map<NodeId, N>, add: map<NodeId, N>) returns (res: map<NodeId, N>)
    ensures res == nodes + add
  {
    res := nodes;
    var todo := add.Keys;
    while todo != {}
      invariant todo <= add.Keys && res.Keys == nodes.Keys + (add.Keys - todo)
      invariant forall k | k in res :: res[k] == if k in add && k !in todo then add[k] else nodes[k]
      decreases |todo|
    {
      var k :| k in todo;
      todo := todo - {k};
      res := res[k := add[k]];
    }
  }

  method DropNodes<N>(nodes: map<NodeId, N>, ids: set<NodeId>) returns (res: map<NodeId, N>)
    ensures res == nodes - ids
  {
    res := nodes;
    var todo := ids;
    while todo != {}
      invariant todo <= ids && res.Keys == nodes.Keys - (ids - todo)
      invariant forall k | k in res :: res[k] == nodes[k]
      decreases |todo|
    {
      var k :| k in todo;
      todo := todo - {k};
      res := res - {k};
    }
  }

  method ComputeTargetMembership<N>(m: Membership<N>, change: ChangeMembers<N>) returns (r: Membership<N>)
    ensures r == Target(m, change)
    decreases change
  {
    var last := Last(m.configs);
    match change {
      case AddVoterIds(ids) => r := m.(configs := [last + ids]);
      case AddVoters(add) =>
        var nodes := ExtendNodes(m.nodes, add);
        r := Membership([last + add.Keys], nodes);
      case RemoveVoters(ids) => r := m.(configs := [last - ids]);
      case ReplaceAllVoters(ids) => r := m.(configs := [ids]);
      case AddNodes(add) =>
        var nodes := ExtendNodes(m.nodes, add);
        r := m.(nodes := nodes);
      case SetNodes(add) =>
        var nodes := OverwriteNodes(m.nodes, add);
        r := m.(nodes := nodes);
      case RemoveNodes(ids) =>
        var nodes := DropNodes(m.nodes, ids);
        r := m.(nodes := nodes);
      case ReplaceAllNodes(add) => r := m.(nodes := add);
      case Batch(changes) =>
        r := m;
        for i := 0 to |changes|
          invariant TargetOfAll(r, changes[i..]) == TargetOfAll(m, changes)
        {
          assert changes[i..][1..] == changes[i + 1..];
          r := ComputeTargetMembership(r, changes[i]);
        }
    }
  }

  /** The least voter without a node, if there is one. */
  method EnsureVoterNodes<N>(m: Membership<N>, voters: seq<NodeId>) returns (missing: Option<NodeId>)
    requires forall i, j | 0 <= i < j < |voters| :: voters[i] < voters[j]
    requires Ids(m.configs) == set id | id in voters
    ensures missing.None? <==> Ids(m.configs) <= m.nodes.Keys
    ensures missing.Some? ==> IsLeast(Ids(m.configs) - m.nodes.Keys, missing.value)
  {
    for i := 0 to |voters|
      invariant forall k | 0 <= k < i :: voters[k] in m.nodes
    {
      if voters[i] !in m.nodes {
        return Some(voters[i]);
      }
    }
    return None;
  }
}
