/** Client responders: each waits in a queue at the log index of its entry until that index is settled. */
module Responders {
  import opened Common
  import opened LogIds

  /** A responder of type `R` that waits for the entry at `index`. */
  datatype Waiting<R> = Waiting(index: nat, responder: R)

  ghost predicate Increasing<R>(queue: seq<Waiting<R>>) {
    forall i, j | 0 <= i < j < |queue| :: queue[i].index < queue[j].index
  }

  ghost predicate AllBelow<R>(queue: seq<Waiting<R>>, end: nat) {
    forall i | 0 <= i < |queue| :: queue[i].index < end
  }

  ghost predicate AllFrom<R>(queue: seq<Waiting<R>>, start: nat) {
    forall i | 0 <= i < |queue| :: start <= queue[i].index
  }

  /** Where the responders below `end` stop. */
  method PartitionPoint<R>(queue: seq<Waiting<R>>, end: nat) returns (k: nat)
    requires Increasing(queue)
    ensures k <= |queue| && AllBelow(queue[..k], end) && AllFrom(queue[k..], end)
  {
    var lo, hi := 0, |queue|;
    while lo < hi
      invariant 0 <= lo <= hi <= |queue|
      invariant forall i | 0 <= i < lo :: queue[i].index < end
      invariant forall i | hi <= i < |queue| :: end <= queue[i].index
    {
      var mid := (lo + hi) / 2;
      if queue[mid].index < end { lo := mid + 1; } else { hi := mid; }
    }
    k := lo;
  }

  /** The log ids of one leader in a range of indexes, handed out from both ends. */
  class LeaderLogIdsIter<L> {
    const leader: L
    var start: nat
    var end: nat

    ghost function Remaining(): seq<LogId<L>>
      reads this
    {
      var first, l := start, leader;
      if start < end then seq(end - start, i requires 0 <= i => LogId(l, first + i)) else []
    }

    constructor (leader: L, start: nat, end: nat)
      ensures this.leader == leader && this.start == start && this.end == end
    {
      this.leader, this.start, this.end := leader, start, end;
    }

    method Next() returns (id: Option<LogId<L>>)
      modifies this
      ensures id.None? ==> old(Remaining()) == [] && Remaining() == []
      ensures id.Some? ==> old(Remaining()) == [id.value] + Remaining()
      ensures end == old(end) && (id.Some? <==> old(start) < end)
      ensures id.Some? ==> start == old(start) + 1 && id.value.index == old(start)
    {
      if start >= end { return None; }
      id := Some(LogId(leader, start));
      start := start + 1;
    }

    method NextBack() returns (id: Option<LogId<L>>)
      modifies this
      ensures id.None? ==> old(Remaining()) == [] && Remaining() == []
      ensures id.Some? ==> old(Remaining()) == Remaining() + [id.value]
      ensures start == old(start) && (id.Some? ==> end == old(end) - 1)
    {
      if start >= end { return None; }
      end := end - 1;
      id := Some(LogId(leader, end));
    }
  }

  /** Every responder was queued once and is either still queued or was completed, at the index it was queued for. */
  ghost predicate Settled<R>(completed: seq<Waiting<R>>, queue: seq<Waiting<R>>, queued: seq<Waiting<R>>) {
    multiset(completed) + multiset(queue) == multiset(queued)
  }

  lemma QueueSettles<R>(completed: seq<Waiting<R>>, queue: seq<Waiting<R>>, queued: seq<Waiting<R>>, w: Waiting<R>)
    requires Settled(completed, queue, queued)
    ensures Settled(completed, queue + [w], queued + [w])
  {}

  lemma DrainSettles<R>(completed: seq<Waiting<R>>, queue: seq<Waiting<R>>, queued: seq<Waiting<R>>, k: nat)
    requires Settled(completed, queue, queued) && k <= |queue|
    ensures Settled(completed + queue[..k], queue[k..], queued)
    ensures Settled(completed + queue[k..], queue[..k], queued)
  {
    assert queue == queue[..k] + queue[k..];
  }

  /** The responders of a batch of entries that starts at log index `first`. */
  ghost function Assigned<R>(first: nat, responders: seq<Option<R>>): seq<Waiting<R>> {
    if responders == [] then []
    else
      var init, last := responders[..|responders| - 1], responders[|responders| - 1];
      Assigned(first, init) + if last.Some? then [Waiting(first + |init|, last.value)] else []
  }

  /** `places` are the entries with a responder, in order, and `values` are their responders. */
  ghost predicate ArePresent<R>(responders: seq<Option<R>>, places: seq<nat>, values: seq<R>) {
    && |places| == |values| && (forall i, j | 0 <= i < j < |places| :: places[i] < places[j])
    && (forall i | 0 <= i < |places| :: places[i] < |responders| && responders[places[i]] == Some(values[i]))
    && (forall i | 0 <= i < |responders| && responders[i].Some? :: i in places)
  }

  lemma OneMoreIsPresent<R>(responders: seq<Option<R>>, places: seq<nat>, values: seq<R>, last: Option<R>)
    requires ArePresent(responders, places, values)
    ensures last.None? ==> ArePresent(responders + [last], places, values)
    ensures last.Some? ==> ArePresent(responders + [last], places + [|responders|], values + [last.value])
  {
    var all := responders + [last];
    forall i | 0 <= i < |all| && all[i].Some? ensures i in places + [|responders|] && (last.None? ==> i in places) {
      if i < |responders| { assert all[i] == responders[i]; }
    }
  }

  /** Every responder is handed in as often as it is taken over. */
  ghost predicate Taken<R>(given: seq<Option<R>>, taken: seq<R>) {
    && (forall o | o in given && o.Some? :: multiset(given)[o] == multiset(taken)[o.value])
    && (forall r | r in taken :: multiset(given)[Some(r)] == multiset(taken)[r])
  }

  lemma OneMoreIsTaken<R>(given: seq<Option<R>>, taken: seq<R>, last: Option<R>)
    requires Taken(given, taken)
    ensures Taken(given + [last], if last.Some? then taken + [last.value] else taken)
  {
    TakenTogether(given, taken, [last], if last.Some? then [last.value] else []);
    assert taken + [] == taken;
  }

  lemma NoneIsTaken<R>()
    ensures ArePresent<R>([], [], []) && Taken<R>([], [])
  {}

  lemma TakenTogether<R>(given: seq<Option<R>>, taken: seq<R>, more: seq<Option<R>>, others: seq<R>)
    requires Taken(given, taken) && Taken(more, others)
    ensures Taken(given + more, taken + others)
  {
    forall o | o in given + more && o.Some?
      ensures multiset(given + more)[o] == multiset(taken + others)[o.value]
    {
      TakenCount(given, taken, o);
      TakenCount(more, others, o);
    }
    forall r | r in taken + others ensures multiset(given + more)[Some(r)] == multiset(taken + others)[r] {
      TakenCount(given, taken, Some(r));
      TakenCount(more, others, Some(r));
    }
  }

  lemma TakenCount<R>(given: seq<Option<R>>, taken: seq<R>, o: Option<R>)
    requires Taken(given, taken) && o.Some?
    ensures multiset(given)[o] == multiset(taken)[o.value]
  {
    if o !in given && o.value !in taken {
      assert multiset(given)[o] == 0 && multiset(taken)[o.value] == 0;
    }
  }

  function Values<R>(queue: seq<Waiting<R>>): seq<R> {
    seq(|queue|, i requires 0 <= i < |queue| => queue[i].responder)
  }

  /** The responders of a batch of entries are those that wait afterwards. */
  lemma {:induction false} AssignedAreTaken<R>(first: nat, responders: seq<Option<R>>)
    ensures Taken(responders, Values(Assigned(first, responders)))
  {
    if responders != [] {
      var init, last := responders[..|responders| - 1], responders[|responders| - 1];
      AssignedAreTaken(first, init);
      OneMoreIsTaken(init, Values(Assigned(first, init)), last);
      assert responders == init + [last];
      assert Values(Assigned(first, responders))
          == Values(Assigned(first, init)) + if last.Some? then [last.value] else [];
    }
  }

  /** Every responder that was handed in was refused or queued, once. */
  ghost predicate AllTaken<R>(given: seq<Option<R>>, refused: seq<R>, queued: seq<Waiting<R>>) {
    Taken(given, refused + Values(queued))
  }

  lemma RefusedAreTaken<R>(given: seq<Option<R>>, refused: seq<R>, queued: seq<Waiting<R>>, more: seq<Option<R>>,
      others: seq<R>)
    requires AllTaken(given, refused, queued) && Taken(more, others)
    ensures AllTaken(given + more, refused + others, queued)
  {
    TakenTogether(given, refused + Values(queued), more, others);
    assert multiset(refused + Values(queued) + others) == multiset(refused + others + Values(queued));
    SameAreTaken(given + more, refused + Values(queued) + others, refused + others + Values(queued));
  }

  lemma SameAreTaken<R>(given: seq<Option<R>>, a: seq<R>, b: seq<R>)
    requires Taken(given, a) && multiset(a) == multiset(b)
    ensures Taken(given, b)
  {
    forall r | r in b ensures r in a { assert r in multiset(b); }
  }

  lemma QueuedAreTaken<R>(given: seq<Option<R>>, refused: seq<R>, queued: seq<Waiting<R>>, first: nat,
      more: seq<Option<R>>)
    requires AllTaken(given, refused, queued)
    ensures AllTaken(given + more, refused, queued + Assigned(first, more))
  {
    AssignedAreTaken(first, more);
    var others := Assigned(first, more);
    TakenTogether(given, refused + Values(queued), more, Values(others));
    assert refused + Values(queued + others) == refused + Values(queued) + Values(others);
  }

  /** The responders of the entries that have one, in order. */
  method Present<R>(responders: seq<Option<R>>) returns (present: seq<R>, ghost places: seq<nat>)
    ensures ArePresent(responders, places, present) && Taken(responders, present)
  {
    hide ArePresent;
    hide Taken;
    NoneIsTaken<R>();
    present, places := [], [];
    assert responders[..0] == [];
    for i := 0 to |responders|
      invariant ArePresent(responders[..i], places, present) && Taken(responders[..i], present)
    {
      assert responders[..i + 1] == responders[..i] + [responders[i]];
      OneMoreIsPresent(responders[..i], places, present, responders[i]);
      OneMoreIsTaken(responders[..i], present, responders[i]);
      if responders[i].Some? {
        present, places := present + [responders[i].value], places + [i];
      }
    }
    assert responders[..|responders|] == responders;
  }

  /** What the engine has decided and the runtime has still to run: a truncation, or saving a campaign's vote. */
  datatype Task = Truncate(from: nat) | SaveVote(term: nat)

  ghost predicate NoTruncation(tasks: seq<Task>) {
    forall i | 0 <= i < |tasks| :: tasks[i].SaveVote?
  }

  /** Every responder waits below the end of the log, or at or after the start of a queued truncation. */
  ghost predicate Placed<R>(queue: seq<Waiting<R>>, next: nat, tasks: seq<Task>) {
    forall i | 0 <= i < |queue| :: queue[i].index < next || Truncated(queue[i].index, tasks)
  }

  ghost predicate Truncated(index: nat, tasks: seq<Task>) {
    exists t: nat :: Truncate(t) in tasks && t <= index
  }

  /**
   * How far a node is towards leading. A campaign counts votes only once its own vote is saved, and tasks
   * run in order, so no truncation is queued behind that save, and none at all once it has run.
   */
  datatype Role = Following | Campaigning(saved: bool) | Leading

  ghost predicate Ready(role: Role, term: nat, tasks: seq<Task>) {
    && (forall i | 0 <= i < |tasks| && tasks[i].SaveVote? :: tasks[i].term <= term)
    && match role
       case Following => true
       case Campaigning(saved) =>
         if saved then NoTruncation(tasks)
         else forall i | 0 <= i < |tasks| && tasks[i] == SaveVote(term) :: NoTruncation(tasks[i..])
       case Leading => NoTruncation(tasks)
  }

  /**
   * The writing side of a node: the end of its log, the responders that wait on it, its role and the tasks
   * that are still to run.
   */
  class ClientWrites<R, L> {
    var next: nat
    var queue: seq<Waiting<R>>
    var tasks: seq<Task>
    var term: nat
    var role: Role
    var refused: seq<R>
    ghost var given: seq<Option<R>>
    ghost var queued: seq<Waiting<R>>
    ghost var completed: seq<Waiting<R>>

    ghost predicate Valid()
      reads this
    {
      && Increasing(queue) && Placed(queue, next, tasks) && Ready(role, term, tasks)
      && Settled(completed, queue, queued) && AllTaken(given, refused, queued)
    }

    constructor (next: nat, term: nat)
      ensures Valid() && this.next == next && this.term == term && role == Following
      ensures queue == [] && tasks == [] && refused == [] && given == [] && queued == [] && completed == []
    {
      this.next, this.term, role := next, term, Following;
      queue, tasks, refused, given, queued, completed := [], [], [], [], [], [];
    }

    /** Start a campaign in a later term; its vote is queued to be saved. */
    method Elect(term: nat)
      requires Valid() && this.term < term
      modifies this`term, this`role, this`tasks
      ensures Valid() && this.term == term && role == Campaigning(false) && tasks == old(tasks) + [SaveVote(term)]
    {
      hide Settled;
      hide Increasing;
      TaskPlaces(queue, next, tasks, SaveVote(term));
      this.term, role, tasks := term, Campaigning(false), tasks + [SaveVote(term)];
    }

    /** With its vote saved and granted by a quorum, a campaign makes the node lead. */
    method Establish()
      requires Valid() && role == Campaigning(true)
      modifies this`role
      ensures Valid() && role == Leading
    {
      role := Leading;
    }

    /** The vote of another node is accepted. */
    method Follow(term: nat)
      requires Valid() && this.term <= term
      modifies this`term, this`role
      ensures Valid() && this.term == term && role == Following
    {
      this.term, role := term, Following;
    }

    /** A queued vote is saved; if it is that of the campaign, the campaign may win from now on. */
    method RunSaveVote()
      requires Valid() && tasks != [] && tasks[0].SaveVote?
      modifies this`tasks, this`role
      ensures Valid() && tasks == old(tasks)[1..]
      ensures role == if old(role.Campaigning? && tasks[0].term == term) then Campaigning(true) else old(role)
    {
      hide Settled;
      hide Increasing;
      SavePlaces(queue, next, tasks);
      SaveReadies(role, term, tasks);
      if role.Campaigning? && tasks[0].term == term {
        role := Campaigning(true);
      }
      tasks := tasks[1..];
    }

    /** Queue one responder; the index must be above every queued one. */
    method Push(index: nat, responder: R)
      requires Increasing(queue) && AllBelow(queue, index) && Settled(completed, queue, queued)
      modifies this`queue, this`queued
      ensures Increasing(queue) && AllBelow(queue, index + 1) && Settled(completed, queue, queued)
      ensures queue == old(queue) + [Waiting(index, responder)] && queued == old(queued) + [Waiting(index, responder)]
    {
      QueueSettles(completed, queue, queued, Waiting(index, responder));
      queue := queue + [Waiting(index, responder)];
      queued := queued + [Waiting(index, responder)];
    }

    /** Without a leader that may write, all responders are refused. */
    method Refuse(responders: seq<Option<R>>) returns (ghost places: seq<nat>)
      requires Valid()
      modifies this`refused, this`given
      ensures Valid() && given == old(given) + responders
      ensures old(refused) <= refused && ArePresent(responders, places, refused[|old(refused)|..])
    {
      hide AllTaken;
      hide ArePresent;
      hide Taken;
      var present;
      present, places := Present(responders);
      RefusedAreTaken(given, refused, queued, responders, present);
      refused, given := refused + present, given + responders;
      assert refused[|old(refused)|..] == present;
    }

    /** Queue the responders of entries that take the indexes from `next` on, each at the index of its entry. */
    method QueueAll(leader: L, responders: seq<Option<R>>)
      requires Increasing(queue) && AllBelow(queue, next) && Settled(completed, queue, queued)
      modifies this`queue, this`queued
      ensures Increasing(queue) && AllBelow(queue, next + |responders|) && Settled(completed, queue, queued)
      ensures queued == old(queued) + Assigned(next, responders) && queue == old(queue) + Assigned(next, responders)
    {
      hide Settled;
      hide Assigned;
      hide Increasing;
      hide LeaderLogIdsIter.Remaining;
      assert Assigned(next, responders[..0]) == [] by { NoneAssigned<R>(next); }
      assert old(queue) + [] == old(queue) && old(queued) + [] == old(queued);
      var it := new LeaderLogIdsIter(leader, next, next + |responders|);
      for i := 0 to |responders|
        invariant fresh(it) && it.start == next + i && it.end == next + |responders|
        invariant Increasing(queue) && AllBelow(queue, next + i) && Settled(completed, queue, queued)
        invariant queued == old(queued) + Assigned(next, responders[..i])
        invariant queue == old(queue) + Assigned(next, responders[..i])
      {
        AssignedSnoc(next, responders, i);
        var id := it.Next();
        if responders[i].Some? {
          Push(id.value.index, responders[i].value);
        }
      }
      assert responders[..|responders|] == responders;
    }

    /**
     * Write entries as `leader`: they take consecutive log ids, and each responder waits at the index
     * of its entry. Without a leader that may write, all responders are refused and nothing else changes.
     */
    method WriteEntries(leader: Option<L>, responders: seq<Option<R>>)
      returns (ids: Option<(nat, nat)>, ghost places: seq<nat>)
      requires Valid() && (leader.Some? ==> role == Leading)
      modifies this`next, this`queue, this`queued, this`refused, this`given
      ensures Valid() && completed == old(completed) && given == old(given) + responders
      ensures leader.None? ==>
                && old(refused) <= refused && ArePresent(responders, places, refused[|old(refused)|..])
                && ids == None && next == old(next) && queue == old(queue) && queued == old(queued)
      ensures leader.Some? ==> next == old(next) + |responders| && refused == old(refused)
      ensures leader.Some? ==>
                && queued == old(queued) + Assigned(old(next), responders)
                && queue == old(queue) + Assigned(old(next), responders)
      ensures leader.Some? ==> ids == if responders == [] then None else Some((old(next), next - 1))
    {
      hide Settled;
      hide Assigned;
      hide Increasing;
      hide Truncated;
      hide AllTaken;
      hide ArePresent;
      if leader.None? {
        places := Refuse(responders);
        return None, places;
      }
      PlacedIsBelow(queue, next, tasks);
      QueuedAreTaken(given, refused, queued, next, responders);
      QueueAll(leader.value, responders);
      given := given + responders;
      next := next + |responders|;
      PlacedIsBelow(queue, next, tasks);
      return if responders == [] then None else Some((next - |responders|, next - 1)), [];
    }

    /** Entries of another leader are appended: no one here waits for them. */
    method AppendFromLeader(count: nat)
      requires Valid()
      modifies this`next
      ensures Valid() && next == old(next) + count
    {
      next := next + count;
    }

    method DrainUpto(last: nat) returns (drained: seq<Waiting<R>>)
      requires Valid()
      modifies this`queue, this`completed
      ensures Valid() && drained + queue == old(queue) && completed == old(completed) + drained
      ensures AllBelow(drained, last + 1) && AllFrom(queue, last + 1)
    {
      var k := PartitionPoint(queue, last + 1);
      DrainSettles(completed, queue, queued, k);
      drained := queue[..k];
      assert drained + queue[k..] == queue;
      completed := completed + drained;
      queue := queue[k..];
    }

    method DrainFrom(from: nat) returns (drained: seq<Waiting<R>>)
      requires Valid()
      modifies this`queue, this`completed
      ensures Valid() && queue + drained == old(queue) && completed == old(completed) + drained
      ensures AllBelow(queue, from) && AllFrom(drained, from)
    {
      var k := PartitionPoint(queue, from);
      DrainSettles(completed, queue, queued, k);
      drained := queue[k..];
      assert queue[..k] + drained == queue;
      completed := completed + drained;
      queue := queue[..k];
    }

    /** Entries up to `last` go to the state machine, together with the responders waiting for them. */
    method ApplyUpto(last: nat) returns (drained: seq<Waiting<R>>)
      requires Valid()
      modifies this`queue, this`completed
      ensures Valid() && drained + queue == old(queue) && completed == old(completed) + drained
      ensures AllBelow(drained, last + 1) && AllFrom(queue, last + 1)
    {
      drained := DrainUpto(last);
    }

    /**
     * A follower's engine removes the entries from `from` on; failing the responders that wait for them is
     * queued.
     */
    method TruncateFrom(from: nat)
      requires Valid() && role == Following
      modifies this`next, this`tasks
      ensures Valid() && next == (if from < old(next) then from else old(next))
          && tasks == old(tasks) + [Truncate(from)]
    {
      TaskPlaces(queue, next, tasks, Truncate(from));
      tasks := tasks + [Truncate(from)];
      if from < next { next := from; }
    }

    /** Run a queued truncation: the responders waiting from its start on fail. */
    method RunTruncate() returns (drained: seq<Waiting<R>>)
      requires Valid() && tasks != [] && tasks[0].Truncate?
      modifies this`queue, this`completed, this`tasks
      ensures Valid() && tasks == old(tasks)[1..]
      ensures queue + drained == old(queue) && completed == old(completed) + drained
      ensures AllBelow(queue, old(tasks)[0].from) && AllFrom(drained, old(tasks)[0].from)
    {
      drained := DrainFrom(tasks[0].from);
      RunTruncationPlaces(queue, next, tasks);
      TruncationReadies(role, term, tasks);
      tasks := tasks[1..];
    }

    /** Entries up to `upto` are purged, possibly beyond the end of the log: responders still waiting for them fail. */
    method PurgeUpto(upto: nat) returns (drained: seq<Waiting<R>>)
      requires Valid()
      modifies this`next, this`queue, this`completed
      ensures Valid() && next == (if old(next) <= upto then upto + 1 else old(next))
      ensures drained + queue == old(queue) && completed == old(completed) + drained
      ensures AllBelow(drained, upto + 1) && AllFrom(queue, upto + 1)
    {
      drained := DrainUpto(upto);
      if next <= upto { next := upto + 1; }
    }
  }

  lemma TaskPlaces<R>(queue: seq<Waiting<R>>, next: nat, tasks: seq<Task>, task: Task)
    requires Placed(queue, next, tasks)
    ensures Placed(queue, if task.Truncate? && task.from < next then task.from else next, tasks + [task])
  {
    forall i | 0 <= i < |queue|
      ensures queue[i].index < (if task.Truncate? && task.from < next then task.from else next)
          || Truncated(queue[i].index, tasks + [task])
    {
      assert task in tasks + [task];
      if Truncated(queue[i].index, tasks) {
        var t: nat :| Truncate(t) in tasks && t <= queue[i].index;
        assert Truncate(t) in tasks + [task];
      }
    }
  }

  lemma SavePlaces<R>(queue: seq<Waiting<R>>, next: nat, tasks: seq<Task>)
    requires tasks != [] && tasks[0].SaveVote? && Placed(queue, next, tasks)
    ensures Placed(queue, next, tasks[1..])
  {
    forall i | 0 <= i < |queue| ensures queue[i].index < next || Truncated(queue[i].index, tasks[1..]) {
      if Truncated(queue[i].index, tasks) {
        var t: nat :| Truncate(t) in tasks && t <= queue[i].index;
        assert Truncate(t) in tasks[1..];
      }
    }
  }

  lemma RunTruncationPlaces<R>(queue: seq<Waiting<R>>, next: nat, tasks: seq<Task>)
    requires tasks != [] && tasks[0].Truncate? && Placed(queue, next, tasks) && AllBelow(queue, tasks[0].from)
    ensures Placed(queue, next, tasks[1..])
  {
    forall i | 0 <= i < |queue| ensures queue[i].index < next || Truncated(queue[i].index, tasks[1..]) {
      if Truncated(queue[i].index, tasks) {
        var t: nat :| Truncate(t) in tasks && t <= queue[i].index;
        assert Truncate(t) in tasks[1..];
      }
    }
  }

  lemma SaveReadies(role: Role, term: nat, tasks: seq<Task>)
    requires Ready(role, term, tasks) && tasks != [] && tasks[0].SaveVote?
    ensures Ready(if role.Campaigning? && tasks[0].term == term then Campaigning(true) else role, term, tasks[1..])
  {
    assert tasks[0..] == tasks;
    forall i | 0 <= i < |tasks| - 1 ensures tasks[1..][i..] == tasks[i + 1..] {}
  }

  lemma TruncationReadies(role: Role, term: nat, tasks: seq<Task>)
    requires Ready(role, term, tasks) && tasks != [] && tasks[0].Truncate?
    ensures Ready(role, term, tasks[1..])
  {
    forall i | 0 <= i < |tasks| - 1 ensures tasks[1..][i..] == tasks[i + 1..] {}
  }

  /** With no truncation queued, every responder waits below the end of the log. */
  lemma PlacedIsBelow<R>(queue: seq<Waiting<R>>, next: nat, tasks: seq<Task>)
    requires NoTruncation(tasks)
    ensures Placed(queue, next, tasks) <==> AllBelow(queue, next)
  {
    forall i | 0 <= i < |queue| ensures !Truncated(queue[i].index, tasks) {}
  }

  lemma NoneAssigned<R>(first: nat)
    ensures Assigned<R>(first, []) == []
  {}

  lemma AssignedSnoc<R>(first: nat, responders: seq<Option<R>>, i: nat)
    requires i < |responders|
    ensures Assigned(first, responders[..i + 1])
         == Assigned(first, responders[..i])
           + if responders[i].Some? then [Waiting(first + i, responders[i].value)] else []
  {
    assert responders[..i + 1][..i] == responders[..i];
  }

  /** In one batch the responder of the i-th entry, and only it, waits at the i-th index. */
  lemma {:induction false} AssignedAtOwnIndex<R>(first: nat, responders: seq<Option<R>>, w: Waiting<R>)
    ensures w in Assigned(first, responders)
       <==> first <= w.index < first + |responders| && responders[w.index - first] == Some(w.responder)
  {
    if responders != [] {
      var init := responders[..|responders| - 1];
      AssignedAtOwnIndex(first, init, w);
    }
  }
}
