/**
 * The command queue between the engine and its runtime: commands run in push order, adjacent
 * appends are merged, and responses that wait for I/O are set aside until it is done.
 */
module CommandQueue {
  import opened Common
  import opened Votes

  // ---- I/O progress ----

  datatype Position = Position(term: nat, index: nat)

  datatype IOId = IOId(vote: Vote, last: Option<Position>)

  datatype IOState = IOState(flushed: Option<IOId>, snapshot: Option<Position>)

  datatype Condition = IOFlushed(io: IOId) | Snapshot(upto: Position)

  predicate PositionLe(a: Position, b: Position) {
    a.term < b.term || (a.term == b.term && a.index <= b.index)
  }

  predicate LastLe(a: Option<Position>, b: Option<Position>) {
    a.None? || (b.Some? && PositionLe(a.value, b.value))
  }

  /** I/O ids compare by vote and then by log position, so like votes they are only partially ordered. */
  predicate IOLe(a: IOId, b: IOId) {
    Lt(a.vote, b.vote) || (a.vote == b.vote && LastLe(a.last, b.last))
  }

  lemma IOIdsArePartiallyOrdered(a: IOId, b: IOId, c: IOId)
    ensures IOLe(a, a)
    ensures IOLe(a, b) && IOLe(b, c) ==> IOLe(a, c)
    ensures IOLe(a, b) && IOLe(b, a) ==> a == b
  {
    VotesArePartiallyOrdered(a.vote, b.vote, c.vote);
    VotesArePartiallyOrdered(a.vote, c.vote, b.vote);
    VotesArePartiallyOrdered(b.vote, a.vote, c.vote);
    VotesArePartiallyOrdered(b.vote, c.vote, a.vote);
  }

  predicate IsMet(when: Condition, io: IOState) {
    match when
    case IOFlushed(id) => io.flushed.Some? && IOLe(id, io.flushed.value)
    case Snapshot(upto) => io.snapshot.Some? && PositionLe(upto, io.snapshot.value)
  }

  /** `b` waits for at least what `a` waits for. */
  predicate WaitLe(a: Condition, b: Condition) {
    match a
    case IOFlushed(id) => b.IOFlushed? && IOLe(id, b.io)
    case Snapshot(upto) => b.Snapshot? && PositionLe(upto, b.upto)
  }

  lemma MetDownward(a: Condition, b: Condition, io: IOState)
    requires WaitLe(a, b) && IsMet(b, io)
    ensures IsMet(a, io)
  {
    if a.IOFlushed? { IOIdsArePartiallyOrdered(a.io, b.io, io.flushed.value); }
  }

  /** A log, as the terms of its entries. */
  ghost predicate OnLog(log: seq<nat>, id: Option<Position>) {
    id.Some? ==> id.value.index < |log| && log[id.value.index] == id.value.term
  }

  ghost predicate TermsAscend(log: seq<nat>) {
    forall i, j | 0 <= i < j < |log| :: log[i] <= log[j]
  }

  /** On one log, a wait is met exactly when the flushed I/O, or the snapshot, is at least at its index. */
  lemma MetOnOneLogIff(log: seq<nat>, vote: Vote, p: Position, q: Position, io: IOState)
    requires TermsAscend(log) && OnLog(log, Some(p)) && OnLog(log, Some(q))
    ensures io.flushed == Some(IOId(vote, Some(q))) ==>
              (IsMet(IOFlushed(IOId(vote, Some(p))), io) <==> p.index <= q.index)
    ensures io.snapshot == Some(q) ==> (IsMet(Snapshot(p), io) <==> p.index <= q.index)
  {
    VotesArePartiallyOrdered(vote, vote, vote);
  }

  /** Log I/O of another leader meets a wait exactly when that leader's vote is greater; without any, none is met. */
  lemma MetByOtherLeaderIff(id: IOId, io: IOState)
    ensures io.flushed.None? ==> !IsMet(IOFlushed(id), io)
    ensures io.flushed.Some? && io.flushed.value.vote.term < id.vote.term ==> !IsMet(IOFlushed(id), io)
    ensures io.flushed.Some? && id.vote.term < io.flushed.value.vote.term ==> IsMet(IOFlushed(id), io)
    ensures io.flushed.Some? && io.flushed.value.vote != id.vote && io.flushed.value.vote.term == id.vote.term ==>
              (IsMet(IOFlushed(id), io) <==> io.flushed.value.vote.committed && !id.vote.committed)
    ensures io.flushed == Some(IOId(id.vote, None)) ==> (IsMet(IOFlushed(id), io) <==> id.last.None?)
    ensures io.snapshot.None? ==> forall p: Position :: !IsMet(Snapshot(p), io)
  {
    VotesArePartiallyOrdered(id.vote, id.vote, id.vote);
  }

  predicate MayRun(when: Option<Condition>, io: IOState) {
    when.Some? ==> IsMet(when.value, io)
  }

  // ---- Commands ----

  /** `Other` stands for every further command that waits for nothing. */
  datatype Command<E> =
    | AppendEntries(vote: Vote, entries: seq<E>)
    | SaveVote(saved: Vote)
    | UpdateIOProgress(when: Option<Condition>, io: IOId)
    | PurgeLog(upto: Position)
    | Respond(when: Option<Condition>, response: nat)
    | Other(kind: nat)

  function ConditionOf<E>(c: Command<E>): Option<Condition> {
    match c
    case UpdateIOProgress(when, _) => when
    case PurgeLog(upto) => Some(Snapshot(upto))
    case Respond(when, _) => when
    case _ => None
  }

  /** A unit of work: one entry written under one leader's vote, or any other command that is no response. */
  datatype Unit<E> = Write(vote: Vote, entry: E) | Do(command: Command<E>)

  function Units<E>(c: Command<E>): seq<Unit<E>> {
    match c
    case AppendEntries(v, entries) => seq(|entries|, i requires 0 <= i < |entries| => Write(v, entries[i]))
    case Respond(_, _) => []
    case _ => [Do(c)]
  }

  /** A response with what it waits for. */
  datatype Reply = Reply(when: Option<Condition>, response: nat)

  function Responses<E>(c: Command<E>): seq<Reply> {
    if c.Respond? then [Reply(c.when, c.response)] else []
  }

  function LogWaits<E>(c: Command<E>): seq<Condition> {
    if c.Respond? && c.when.Some? && c.when.value.IOFlushed? then [c.when.value] else []
  }

  function SnapshotWaits<E>(c: Command<E>): seq<Condition> {
    if c.Respond? && c.when.Some? && c.when.value.Snapshot? then [c.when.value] else []
  }

  lemma RespondIsNoWork<E>(c: Command<E>)
    requires c.Respond?
    ensures Units(c) == []
  {}

  /** Two appends under one vote write what one append of both writes. */
  lemma MergedUnits<E>(v: Vote, a: seq<E>, b: seq<E>)
    ensures Units(AppendEntries(v, a + b)) == Units(AppendEntries(v, a)) + Units(AppendEntries(v, b))
  {}

  // ---- Waiting responses ----

  datatype Pending = Pending(wait: Condition, response: nat)

  function Waits(queue: seq<Pending>): seq<Condition> {
    seq(|queue|, i requires 0 <= i < |queue| => queue[i].wait)
  }

  function Replies(queue: seq<Pending>): seq<Reply> {
    seq(|queue|, i requires 0 <= i < |queue| => Reply(Some(queue[i].wait), queue[i].response))
  }

  ghost predicate Ascending(waits: seq<Condition>) {
    forall i, j | 0 <= i < j < |waits| :: WaitLe(waits[i], waits[j])
  }

  ghost predicate NoneMet(queue: seq<Pending>, io: IOState) {
    forall i | 0 <= i < |queue| :: !IsMet(queue[i].wait, io)
  }

  /** The first `k` waits are met and the next one, if any, is not. */
  ghost predicate DrainsTo(queue: seq<Pending>, io: IOState, k: nat) {
    k <= |queue| && (forall i | 0 <= i < k :: IsMet(queue[i].wait, io)) && (k < |queue| ==> !IsMet(queue[k].wait, io))
  }

  /** All waits are of one kind, as each queue of waiting responses has them. */
  ghost predicate OfOneKind(queue: seq<Pending>) {
    forall i, j | 0 <= i < j < |queue| :: queue[i].wait.IOFlushed? <==> queue[j].wait.IOFlushed?
  }

  /** Waits pushed in ascending order are drained completely. */
  lemma AscendingDrainsCompletely(queue: seq<Pending>, io: IOState, k: nat)
    requires DrainsTo(queue, io, k) && Ascending(Waits(queue))
    ensures NoneMet(queue[k..], io)
  {
    forall j | k <= j < |queue| ensures !IsMet(queue[j].wait, io) {
      if k < j && IsMet(queue[j].wait, io) {
        assert WaitLe(Waits(queue)[k], Waits(queue)[j]);
        MetDownward(queue[k].wait, queue[j].wait, io);
        assert false;
      }
    }
  }

  /** The least I/O state that meets a wait. */
  function JustMet(when: Condition): (io: IOState)
    ensures forall w: Condition | (w.IOFlushed? <==> when.IOFlushed?) :: IsMet(w, io) <==> WaitLe(w, when)
  {
    match when
    case IOFlushed(id) => IOState(Some(id), None)
    case Snapshot(upto) => IOState(None, Some(upto))
  }

  lemma DrainStops(queue: seq<Pending>, io: IOState) returns (k: nat)
    ensures DrainsTo(queue, io, k)
  {
    k := 0;
    while k < |queue| && IsMet(queue[k].wait, io)
      invariant k <= |queue| && forall i | 0 <= i < k :: IsMet(queue[i].wait, io)
    {
      k := k + 1;
    }
  }

  /** Two waits out of order: once the I/O of the later one is just done, it stays behind the earlier one. */
  lemma OutOfOrderStays(queue: seq<Pending>, i: nat, j: nat) returns (io: IOState, k: nat)
    requires OfOneKind(queue) && i < j < |queue| && !WaitLe(queue[i].wait, queue[j].wait)
    ensures DrainsTo(queue, io, k) && !NoneMet(queue[k..], io)
  {
    io := JustMet(queue[j].wait);
    k := DrainStops(queue, io);
    WaitsForItself(queue[j].wait);
    assert k <= i;
    assert queue[k..][j - k] == queue[j];
  }

  lemma WaitsForItself(w: Condition)
    ensures WaitLe(w, w)
  {
    if w.IOFlushed? { IOIdsArePartiallyOrdered(w.io, w.io, w.io); }
  }

  /**
   * A drain leaves no satisfied response behind, whatever I/O is done, exactly when the waits were pushed
   * in ascending order.
   */
  lemma DrainIsCompleteIff(queue: seq<Pending>)
    requires OfOneKind(queue)
    ensures (forall io: IOState, k: nat | DrainsTo(queue, io, k) :: NoneMet(queue[k..], io))
        <==> Ascending(Waits(queue))
  {
    hide NoneMet;
    if Ascending(Waits(queue)) {
      forall io: IOState, k: nat | DrainsTo(queue, io, k) ensures NoneMet(queue[k..], io) {
        AscendingDrainsCompletely(queue, io, k);
      }
    } else {
      var i, j :| 0 <= i < j < |Waits(queue)| && !WaitLe(Waits(queue)[i], Waits(queue)[j]);
      var io, k := OutOfOrderStays(queue, i, j);
    }
  }

  /** Out of order, a response whose I/O is done stays behind one whose I/O is not. */
  lemma OutOfOrderWaitStays()
    ensures var queue := [Pending(Snapshot(Position(1, 9)), 0), Pending(Snapshot(Position(1, 3)), 1)];
            var io := IOState(None, Some(Position(1, 5)));
            DrainsTo(queue, io, 0) && IsMet(queue[1].wait, io) && !Ascending(Waits(queue))
  {
    var queue := [Pending(Snapshot(Position(1, 9)), 0), Pending(Snapshot(Position(1, 3)), 1)];
    assert !WaitLe(Waits(queue)[0], Waits(queue)[1]);
  }

  lemma SubsequenceAscends(a: seq<Condition>, w: Condition, b: seq<Condition>)
    requires Ascending(a + [w] + b)
    ensures Ascending(a + b)
  {
    var all := a + [w] + b;
    forall i, j | 0 <= i < j < |a + b| ensures WaitLe((a + b)[i], (a + b)[j]) {
      var i', j' := if i < |a| then i else i + 1, if j < |a| then j else j + 1;
      assert all[i'] == (a + b)[i] && all[j'] == (a + b)[j];
    }
  }

  /** A response that was sent, with what it waited for and the I/O state at that moment. */
  datatype Sent = Sent(response: nat, when: Option<Condition>, io: IOState)

  ghost function SentReplies(sent: seq<Sent>): seq<Reply> {
    seq(|sent|, i requires 0 <= i < |sent| => Reply(sent[i].when, sent[i].response))
  }

  ghost predicate Gated(sent: seq<Sent>) {
    forall i | 0 <= i < |sent| :: MayRun(sent[i].when, sent[i].io)
  }

  /** No work is lost, duplicated or reordered: what was executed, then what is queued, is what was pushed. */
  ghost predicate Conserved<E>(executed: seq<Command<E>>, commands: seq<Command<E>>, pushed: seq<Command<E>>) {
    Collect(executed, Units) + Collect(commands, Units) == Collect(pushed, Units)
  }

  ghost function ResponsesIn<E>(commands: seq<Command<E>>): multiset<Reply> {
    multiset(Collect(commands, Responses))
  }

  /** Every pushed response, with what it waits for, is in exactly one place: sent, set aside, or still queued. */
  ghost predicate Accounted<E>(
      sent: seq<Reply>, aside: multiset<Reply>, commands: seq<Command<E>>, pushed: seq<Command<E>>)
  {
    multiset(sent) + aside + ResponsesIn(commands) == ResponsesIn(pushed)
  }

  lemma PushConserves<E>(executed: seq<Command<E>>, commands: seq<Command<E>>, pushed: seq<Command<E>>, c: Command<E>)
    requires Conserved(executed, commands, pushed)
    ensures Conserved(executed, commands + [c], pushed + [c])
  {
    hide Collect;
    CollectPush(commands, c, Units);
    CollectPush(pushed, c, Units);
  }

  lemma PushAccounts<E>(
      sent: seq<Reply>, aside: multiset<Reply>, commands: seq<Command<E>>, pushed: seq<Command<E>>, c: Command<E>)
    requires Accounted(sent, aside, commands, pushed)
    ensures Accounted(sent, aside, commands + [c], pushed + [c])
  {
    hide Collect;
    CollectPush(commands, c, Responses);
    CollectPush(pushed, c, Responses);
  }

  /** Running the head of the queue moves its work from the queue to what was executed. */
  lemma ExecuteConserves<E>(executed: seq<Command<E>>, commands: seq<Command<E>>, pushed: seq<Command<E>>)
    requires Conserved(executed, commands, pushed) && commands != []
    ensures Conserved(executed + [commands[0]], commands[1..], pushed)
    ensures commands[0].Respond? ==> Conserved(executed, commands[1..], pushed)
  {
    hide Collect;
    hide Units;
    var c, rest := commands[0], commands[1..];
    CollectHead(commands, Units);
    CollectPush(executed, c, Units);
    if c.Respond? { RespondIsNoWork(c); }
    assert Collect(executed, Units) + (Units(c) + Collect(rest, Units))
      == Collect(executed, Units) + Units(c) + Collect(rest, Units);
  }

  lemma DequeueAccounts<E>(sent: seq<Reply>, aside: multiset<Reply>, commands: seq<Command<E>>, pushed: seq<Command<E>>)
    requires Accounted(sent, aside, commands, pushed) && commands != []
    ensures !commands[0].Respond? ==> Accounted(sent, aside, commands[1..], pushed)
    ensures commands[0].Respond? ==>
              var r := Reply(commands[0].when, commands[0].response);
              && Accounted(sent + [r], aside, commands[1..], pushed)
              && Accounted(sent, aside + multiset{r}, commands[1..], pushed)
  {}

  /** The two queues hold the same work, responses and waits in the same order. */
  ghost predicate SameWork<E>(a: seq<Command<E>>, b: seq<Command<E>>) {
    && Collect(a, Units) == Collect(b, Units) && Collect(a, Responses) == Collect(b, Responses)
    && Collect(a, LogWaits) == Collect(b, LogWaits) && Collect(a, SnapshotWaits) == Collect(b, SnapshotWaits)
  }

  lemma SameWorkIsTransitive<E>(a: seq<Command<E>>, b: seq<Command<E>>, c: seq<Command<E>>)
    ensures SameWork(a, a) && (SameWork(a, b) && SameWork(b, c) ==> SameWork(a, c))
    ensures SameWork(a, b) ==> SameWork(b, a)
  {}

  lemma SameWorkIsValid<E>(
      before: seq<Command<E>>, after: seq<Command<E>>, executed: seq<Command<E>>, sent: seq<Reply>,
      aside: multiset<Reply>, pushed: seq<Command<E>>)
    requires SameWork(after, before) && Conserved(executed, before, pushed) && Accounted(sent, aside, before, pushed)
    ensures Conserved(executed, after, pushed) && Accounted(sent, aside, after, pushed)
  {}

  lemma MergesNothing<E>(commands: seq<Command<E>>)
    requires commands != [] && commands[0].AppendEntries?
    ensures Merges(commands, 1, commands)
  {
    assert commands[..1] == [commands[0]] && [commands[0]][..0] == [];
    assert EntriesOf([commands[0]]) == EntriesOf<E>([]) + commands[0].entries == commands[0].entries;
    assert commands == [commands[0]] + commands[1..];
  }

  lemma MergesOneMore<E>(before: seq<Command<E>>, k: nat, v: Vote, entries: seq<E>, rest: seq<Command<E>>)
    requires Merges(before, k, [AppendEntries(v, entries)] + rest)
    requires rest != [] && rest[0].AppendEntries? && rest[0].vote == v
    ensures Merges(before, k + 1, [AppendEntries(v, entries + rest[0].entries)] + rest[1..])
  {
    var after := [AppendEntries(v, entries)] + rest;
    assert after[0] == AppendEntries(before[0].vote, EntriesOf(before[..k])) && after[1..] == rest;
    assert ([AppendEntries(before[0].vote, EntriesOf(before[..k]))] + before[k..])[1..] == before[k..];
    assert before[..k + 1][..k] == before[..k];
  }

  /** What merging the front of a queue gives: the same work, merged as far as `max` allows. */
  ghost predicate MergedFront<E>(before: seq<Command<E>>, max: nat, after: seq<Command<E>>, merged: nat) {
    && SameWork(after, before) && |after| <= |before| && (after == [] <==> before == []) && !CanMerge(after, max)
    && (after != before ==> Merges(before, merged, after) && |after[0].entries| <= max)
  }

  method MergeFront<E>(commands: seq<Command<E>>, max: nat) returns (after: seq<Command<E>>, ghost merged: nat)
    ensures MergedFront(commands, max, after, merged)
  {
    hide Collect;
    hide SameWork;
    hide Merges;
    SameWorkIsTransitive(commands, commands, commands);
    if commands == [] || !commands[0].AppendEntries? {
      return commands, 0;
    }
    var v, entries, rest := commands[0].vote, commands[0].entries, commands[1..];
    merged := 1;
    MergesNothing(commands);
    assert [AppendEntries(v, entries)] + rest == commands;
    while rest != [] && rest[0].AppendEntries? && rest[0].vote == v && |entries| + |rest[0].entries| <= max
      invariant |rest| < |commands| && SameWork([AppendEntries(v, entries)] + rest, commands)
      invariant [AppendEntries(v, entries)] + rest == commands || |entries| <= max
      invariant Merges(commands, merged, [AppendEntries(v, entries)] + rest)
      decreases |rest|
    {
      MergeStep(v, entries, rest, commands);
      MergesOneMore(commands, merged, v, entries, rest);
      entries, rest, merged := entries + rest[0].entries, rest[1..], merged + 1;
    }
    after := [AppendEntries(v, entries)] + rest;
  }

  lemma MergeStep<E>(v: Vote, entries: seq<E>, rest: seq<Command<E>>, commands: seq<Command<E>>)
    requires rest != [] && rest[0].AppendEntries? && rest[0].vote == v
    requires SameWork([AppendEntries(v, entries)] + rest, commands)
    ensures SameWork([AppendEntries(v, entries + rest[0].entries)] + rest[1..], commands)
  {
    hide SameWork;
    var a, b := [AppendEntries(v, entries)] + rest, [AppendEntries(v, entries + rest[0].entries)] + rest[1..];
    assert a == [AppendEntries(v, entries), AppendEntries(v, rest[0].entries)] + rest[1..];
    MergeTwo(v, entries, rest[0].entries, rest[1..]);
    SameWorkIsTransitive(b, a, commands);
    SameWorkIsTransitive(a, b, commands);
  }

  lemma MergeTwo<E>(v: Vote, a: seq<E>, b: seq<E>, rest: seq<Command<E>>)
    ensures SameWork([AppendEntries(v, a), AppendEntries(v, b)] + rest, [AppendEntries(v, a + b)] + rest)
  {
    var c, d, m := AppendEntries(v, a), AppendEntries(v, b), AppendEntries(v, a + b);
    MergedUnits(v, a, b);
    TwoHeads(c, d, rest, Units);
    TwoHeads(c, d, rest, Responses);
    TwoHeads(c, d, rest, LogWaits);
    TwoHeads(c, d, rest, SnapshotWaits);
    assert ([m] + rest)[1..] == rest;
  }

  lemma TwoHeads<E, T>(c: Command<E>, d: Command<E>, rest: seq<Command<E>>, f: Command<E> -> seq<T>)
    ensures Collect([c, d] + rest, f) == f(c) + f(d) + Collect(rest, f)
  {
    CollectConcat([c, d], rest, f);
    assert [c, d] == [c] + [d];
    CollectConcat([c], [d], f);
    CollectOne(c, f);
    CollectOne(d, f);
  }

  lemma SendPendingAccounts<E>(
      sent: seq<Reply>, queue: seq<Pending>, other: multiset<Reply>, commands: seq<Command<E>>, pushed: seq<Command<E>>)
    requires Accounted(sent, multiset(Replies(queue)) + other, commands, pushed) && queue != []
    ensures Accounted(sent + [Replies(queue)[0]], multiset(Replies(queue[1..])) + other, commands, pushed)
  {
    hide Collect;
    assert Replies(queue) == [Replies(queue)[0]] + Replies(queue[1..]);
  }

  lemma SendSnapshotAccounts<E>(
      sent: seq<Reply>, other: multiset<Reply>, queue: seq<Pending>, commands: seq<Command<E>>, pushed: seq<Command<E>>)
    requires Accounted(sent, other + multiset(Replies(queue)), commands, pushed) && queue != []
    ensures Accounted(sent + [Replies(queue)[0]], other + multiset(Replies(queue[1..])), commands, pushed)
  {
    hide Accounted;
    assert other + multiset(Replies(queue)) == multiset(Replies(queue)) + other;
    assert other + multiset(Replies(queue[1..])) == multiset(Replies(queue[1..])) + other;
    SendPendingAccounts(sent, queue, other, commands, pushed);
  }

  lemma SentSnoc(sent: seq<Sent>, s: Sent)
    requires Gated(sent) && MayRun(s.when, s.io)
    ensures Gated(sent + [s]) && SentReplies(sent + [s]) == SentReplies(sent) + [Reply(s.when, s.response)]
  {}

  /** What draining the first `k` responses of a queue sends. */
  ghost function Drained(queue: seq<Pending>, k: nat, io: IOState): seq<Sent>
    requires k <= |queue|
  {
    seq(k, i requires 0 <= i < k => Sent(queue[i].response, Some(queue[i].wait), io))
  }

  datatype Outcome = Ran | Blocked | Failed

  /** Every executed command that waits for something ran in an I/O state in which that was done. */
  ghost predicate RanInTime<E>(executed: seq<Command<E>>, ranAt: seq<IOState>) {
    |ranAt| == |executed| &&
    forall i | 0 <= i < |executed| ::
      match executed[i]
      case UpdateIOProgress(when, _) => when.None? || IsMet(when.value, ranAt[i])
      case PurgeLog(upto) => ranAt[i].snapshot.Some? && PositionLe(upto, ranAt[i].snapshot.value)
      case _ => true
  }

  /** The command waits for I/O that is not done. Only these two kinds do, besides responses. */
  ghost predicate IsBlocked<E>(c: Command<E>, io: IOState) {
    match c
    case UpdateIOProgress(when, _) => when.Some? && !IsMet(when.value, io)
    case PurgeLog(upto) => io.snapshot.None? || !PositionLe(upto, io.snapshot.value)
    case _ => false
  }

  /** The first `k` commands are appends of one leader, and are one append of all their entries afterwards. */
  ghost predicate Merges<E>(before: seq<Command<E>>, k: nat, after: seq<Command<E>>) {
    && 0 < k <= |before| && before[0].AppendEntries?
    && (forall i | 0 <= i < k :: before[i].AppendEntries? && before[i].vote == before[0].vote)
    && after == [AppendEntries(before[0].vote, EntriesOf(before[..k]))] + before[k..]
  }

  /** The first two commands are appends of one leader that fit into one. */
  ghost predicate CanMerge<E>(commands: seq<Command<E>>, max: nat) {
    && 1 < |commands| && commands[0].AppendEntries? && commands[1].AppendEntries?
    && commands[0].vote == commands[1].vote && |commands[0].entries| + |commands[1].entries| <= max
  }

  ghost function EntriesOf<E>(commands: seq<Command<E>>): seq<E> {
    if commands == [] then []
    else
      var last := commands[|commands| - 1];
      EntriesOf(commands[..|commands| - 1]) + if last.AppendEntries? then last.entries else []
  }

  /** What went out to storage, to the state machine and to callers. */
  datatype Output<E> = Output(executed: seq<Command<E>>, ranAt: seq<IOState>, sent: seq<Sent>) {
    /** What went out since goes after what went out before, in the I/O state `io`. */
    ghost predicate GoesOn(after: Output<E>, io: IOState) {
      && executed <= after.executed && ranAt <= after.ranAt && sent <= after.sent
      && (forall i | |ranAt| <= i < |after.ranAt| :: after.ranAt[i] == io)
      && (forall i | |sent| <= i < |after.sent| :: after.sent[i].io == io)
    }

    lemma GoesOnItself(io: IOState)
      ensures GoesOn(this, io)
    {}

    lemma GoesOnIsTransitive(mid: Output<E>, after: Output<E>, io: IOState)
      requires GoesOn(mid, io) && mid.GoesOn(after, io)
      ensures GoesOn(after, io)
    {}
  }

  /** What went out is `executed` and `sent`, each with the I/O state at that moment, and `failed`. */
  class EngineOutput<E> {
    var commands: seq<Command<E>>
    var onLogIO: seq<Pending>
    var onSnapshot: seq<Pending>
    var executed: seq<Command<E>>
    var ranAt: seq<IOState>
    var failed: seq<Command<E>>
    var sent: seq<Sent>
    ghost var pushed: seq<Command<E>>

    ghost function Aside(): multiset<Reply>
      reads this
    {
      multiset(Replies(onLogIO)) + multiset(Replies(onSnapshot))
    }

    ghost predicate Valid()
      reads this
    {
      && Conserved(executed + failed, commands, pushed) && |failed| <= 1
      && Accounted(SentReplies(sent), Aside(), commands, pushed) && Gated(sent) && RanInTime(executed, ranAt)
      && (forall i | 0 <= i < |onLogIO| :: onLogIO[i].wait.IOFlushed?)
      && (forall i | 0 <= i < |onSnapshot| :: onSnapshot[i].wait.Snapshot?)
    }

    ghost function Out(): Output<E>
      reads this
    {
      Output(executed, ranAt, sent)
    }

    /** The waits of each kind that are still open, in the order they will be looked at. */
    ghost function OpenLogWaits(): seq<Condition>
      reads this
    {
      Waits(onLogIO) + Collect(commands, LogWaits)
    }

    ghost function OpenSnapshotWaits(): seq<Condition>
      reads this
    {
      Waits(onSnapshot) + Collect(commands, SnapshotWaits)
    }

    constructor ()
      ensures Valid() && commands == [] && onLogIO == [] && onSnapshot == []
      ensures pushed == [] && executed == [] && failed == [] && sent == []
    {
      commands, onLogIO, onSnapshot := [], [], [];
      executed, ranAt, failed, sent, pushed := [], [], [], [], [];
    }

    method Push(c: Command<E>)
      requires Valid()
      modifies this
      ensures Valid() && pushed == old(pushed) + [c]
      ensures executed == old(executed) && failed == old(failed) && sent == old(sent)
      ensures OpenLogWaits() == old(OpenLogWaits()) + LogWaits(c)
      ensures OpenSnapshotWaits() == old(OpenSnapshotWaits()) + SnapshotWaits(c)
    {
      hide Collect;
      hide Conserved;
      hide Accounted;
      hide RanInTime;
      hide Gated;
      PushConserves(executed + failed, commands, pushed, c);
      PushAccounts(SentReplies(sent), Aside(), commands, pushed, c);
      CollectPush(commands, c, LogWaits);
      CollectPush(commands, c, SnapshotWaits);
      commands := commands + [c];
      pushed := pushed + [c];
    }

    /** Merge the appends of one leader at the front of the queue, up to `max` entries. */
    method MergeFrontAppendEntries(max: nat) returns (ghost merged: nat)
      requires Valid()
      modifies this`commands
      ensures Valid() && MergedFront(old(commands), max, commands, merged)
      ensures OpenLogWaits() == old(OpenLogWaits()) && OpenSnapshotWaits() == old(OpenSnapshotWaits())
    {
      hide Collect;
      hide Conserved;
      hide Accounted;
      hide Gated;
      hide RanInTime;
      hide CanMerge;
      hide Merges;
      commands, merged := MergeFront(commands, max);
      SameWorkIsValid(old(commands), commands, executed + failed, SentReplies(sent), Aside(), pushed);
    }

    /** Send the front of a queue of waiting responses. */
    method RecordSent(response: nat, when: Option<Condition>, io: IOState)
      requires Gated(sent) && MayRun(when, io)
      modifies this`sent
      ensures sent == old(sent) + [Sent(response, when, io)] && Gated(sent)
          && SentReplies(sent) == old(SentReplies(sent)) + [Reply(when, response)]
    {
      SentSnoc(sent, Sent(response, when, io));
      sent := sent + [Sent(response, when, io)];
    }

    /** Send the responses at the front of the log queue whose I/O is done. */
    method DrainLogIO(io: IOState) returns (ghost k: nat)
      requires Valid()
      modifies this`onLogIO, this`sent
      ensures Valid() && DrainsTo(old(onLogIO), io, k)
      ensures onLogIO == old(onLogIO)[k..] && sent == old(sent) + Drained(old(onLogIO), k, io)
    {
      hide Collect;
      hide Conserved;
      hide Accounted;
      hide Gated;
      hide RanInTime;
      k := 0;
      while onLogIO != [] && IsMet(onLogIO[0].wait, io)
        invariant Valid() && k <= |old(onLogIO)| && onLogIO == old(onLogIO)[k..]
        invariant forall i | 0 <= i < k :: IsMet(old(onLogIO)[i].wait, io)
        invariant sent == old(sent) + Drained(old(onLogIO), k, io)
        decreases |onLogIO|
      {
        SendPendingAccounts(SentReplies(sent), onLogIO, multiset(Replies(onSnapshot)), commands, pushed);
        RecordSent(onLogIO[0].response, Some(onLogIO[0].wait), io);
        onLogIO := onLogIO[1..];
        k := k + 1;
      }
    }

    method DrainSnapshot(io: IOState) returns (ghost k: nat)
      requires Valid()
      modifies this`onSnapshot, this`sent
      ensures Valid() && DrainsTo(old(onSnapshot), io, k)
      ensures onSnapshot == old(onSnapshot)[k..] && sent == old(sent) + Drained(old(onSnapshot), k, io)
    {
      hide Collect;
      hide Conserved;
      hide Accounted;
      hide Gated;
      hide RanInTime;
      k := 0;
      while onSnapshot != [] && IsMet(onSnapshot[0].wait, io)
        invariant Valid() && k <= |old(onSnapshot)| && onSnapshot == old(onSnapshot)[k..]
        invariant forall i | 0 <= i < k :: IsMet(old(onSnapshot)[i].wait, io)
        invariant sent == old(sent) + Drained(old(onSnapshot), k, io)
        decreases |onSnapshot|
      {
        SendSnapshotAccounts(SentReplies(sent), multiset(Replies(onLogIO)), onSnapshot, commands, pushed);
        RecordSent(onSnapshot[0].response, Some(onSnapshot[0].wait), io);
        onSnapshot := onSnapshot[1..];
        k := k + 1;
      }
    }

    /** Send the responses whose I/O is done, first those that wait for the log, then those that wait for a snapshot. */
    method SendSatisfiedResponds(io: IOState) returns (ghost k: nat, ghost l: nat)
      requires Valid()
      modifies this`onLogIO, this`onSnapshot, this`sent
      ensures Valid()
      ensures DrainsTo(old(onLogIO), io, k) && onLogIO == old(onLogIO)[k..]
      ensures DrainsTo(old(onSnapshot), io, l) && onSnapshot == old(onSnapshot)[l..]
      ensures sent == old(sent) + Drained(old(onLogIO), k, io) + Drained(old(onSnapshot), l, io)
    {
      hide Collect;
      hide Conserved;
      hide Accounted;
      hide Gated;
      hide RanInTime;
      hide DrainsTo;
      k := DrainLogIO(io);
      l := DrainSnapshot(io);
    }

    /** Run the first command, whose condition is met. A storage error leaves it neither executed nor queued. */
    method Execute(io: IOState, fails: bool)
      requires Valid() && commands != [] && failed == [] && MayRun(ConditionOf(commands[0]), io)
      modifies this`commands, this`executed, this`ranAt, this`failed, this`sent
      ensures Valid() && commands == old(commands)[1..] && old(Out()).GoesOn(Out(), io)
      ensures var c := old(commands)[0];
              && executed == old(executed) + (if c.Respond? || fails then [] else [c])
              && ranAt == old(ranAt) + (if c.Respond? || fails then [] else [io])
              && failed == (if c.Respond? || !fails then [] else [c])
              && sent == old(sent) + (if c.Respond? then [Sent(c.response, c.when, io)] else [])
    {
      hide Collect;
      hide Conserved;
      hide Accounted;
      var c := commands[0];
      assert executed + [] == executed && executed + [c] + [] == executed + [c];
      ExecuteConserves(executed, commands, pushed);
      DequeueAccounts(SentReplies(sent), Aside(), commands, pushed);
      commands := commands[1..];
      if c.Respond? {
        RecordSent(c.response, c.when, io);
      } else if fails {
        failed := [c];
      } else {
        executed := executed + [c];
        ranAt := ranAt + [io];
      }
    }

    /** Set a response aside until its condition is met. */
    method PostponeRespond()
      requires Valid() && commands != [] && commands[0].Respond? && commands[0].when.Some?
      modifies this`commands, this`onLogIO, this`onSnapshot
      ensures Valid() && commands == old(commands)[1..]
      ensures var c := old(commands)[0];
              var p := Pending(c.when.value, c.response);
              if c.when.value.IOFlushed? then onLogIO == old(onLogIO) + [p] && onSnapshot == old(onSnapshot)
              else onSnapshot == old(onSnapshot) + [p] && onLogIO == old(onLogIO)
    {
      hide Collect;
      hide Conserved;
      hide Accounted;
      hide Gated;
      hide RanInTime;
      var c := commands[0];
      var p := Pending(c.when.value, c.response);
      ExecuteConserves(executed + failed, commands, pushed);
      DequeueAccounts(SentReplies(sent), Aside(), commands, pushed);
      commands := commands[1..];
      if c.when.value.IOFlushed? {
        PendingSnoc(onLogIO, p);
        onLogIO := onLogIO + [p];
      } else {
        PendingSnoc(onSnapshot, p);
        onSnapshot := onSnapshot + [p];
      }
      assert Aside() == old(Aside()) + multiset{Reply(c.when, c.response)};
    }

    /** Run the first command if its condition is met; otherwise set a response aside, or stop. */
    method RunFront(io: IOState, fails: bool) returns (outcome: Outcome)
      requires Valid() && commands != [] && failed == []
      modifies this
      ensures Valid() && pushed == old(pushed) && old(Out()).GoesOn(Out(), io)
      ensures outcome.Blocked? ==> commands == old(commands) && IsBlocked(commands[0], io)
      ensures !outcome.Blocked? ==> commands == old(commands)[1..]
      ensures outcome.Failed? <==> failed != []
      ensures outcome.Failed? <==> fails && !old(commands)[0].Respond? && !IsBlocked(old(commands)[0], io)
      ensures fails ==> executed == old(executed)
      ensures NoneMet(old(onLogIO), io) ==> NoneMet(onLogIO, io)
      ensures NoneMet(old(onSnapshot), io) ==> NoneMet(onSnapshot, io)
      ensures Ascending(old(OpenLogWaits())) ==> Ascending(OpenLogWaits())
      ensures Ascending(old(OpenSnapshotWaits())) ==> Ascending(OpenSnapshotWaits())
    {
      hide Collect;
      hide Conserved;
      hide Accounted;
      hide Ascending;
      hide Gated;
      hide RanInTime;
      hide Output.GoesOn;
      old(Out()).GoesOnItself(io);
      DequeueWaits(onLogIO, commands, LogWaits);
      DequeueWaits(onSnapshot, commands, SnapshotWaits);
      if MayRun(ConditionOf(commands[0]), io) {
        outcome := if fails && !commands[0].Respond? then Failed else Ran;
        Execute(io, fails);
      } else if commands[0].Respond? {
        PostponedWaits(onLogIO, commands, LogWaits, Pending(commands[0].when.value, commands[0].response));
        PostponedWaits(onSnapshot, commands, SnapshotWaits, Pending(commands[0].when.value, commands[0].response));
        PostponeRespond();
        outcome := Ran;
      } else {
        outcome := Blocked;
      }
    }

    /**
     * Run as many commands as possible; `fails` says which attempts hit a storage error, and the first
     * such error ends the run. What is left otherwise is headed by a command whose condition is not met,
     * and if the open waits ascend, no response is left whose I/O is done.
     */
    method RunEngineCommands(max: nat, io: IOState, fails: nat -> bool) returns (ok: bool)
      requires Valid() && failed == []
      modifies this
      ensures Valid() && pushed == old(pushed) && old(Out()).GoesOn(Out(), io)
      ensures ok <==> failed == []
      ensures !ok ==> exists n :: fails(n)
      ensures (forall n :: fails(n)) ==> executed == old(executed)
      ensures ok && commands != [] ==> IsBlocked(commands[0], io)
      ensures Ascending(old(OpenLogWaits())) ==> Ascending(OpenLogWaits()) && NoneMet(onLogIO, io)
      ensures Ascending(old(OpenSnapshotWaits())) ==> Ascending(OpenSnapshotWaits()) && NoneMet(onSnapshot, io)
    {
      hide Collect;
      hide Conserved;
      hide Accounted;
      hide Ascending;
      hide NoneMet;
      hide Gated;
      hide RanInTime;
      hide SameWork;
      hide Merges;
      hide CanMerge;
      var k, l := SendSatisfiedResponds(io);
      assert old(Out()).GoesOn(Out(), io);
      DrainKeepsOrder(old(onLogIO), k, Collect(commands, LogWaits), io);
      DrainKeepsOrder(old(onSnapshot), l, Collect(commands, SnapshotWaits), io);
      hide Output.GoesOn;
      var outcome, n := Ran, 0;
      var _ := MergeFrontAppendEntries(max);
      while outcome == Ran && commands != []
        invariant Valid() && pushed == old(pushed) && old(Out()).GoesOn(Out(), io)
        invariant outcome.Failed? <==> failed != []
        invariant outcome.Failed? ==> exists i :: fails(i)
        invariant (forall i :: fails(i)) ==> executed == old(executed)
        invariant outcome.Blocked? ==> commands != [] && IsBlocked(commands[0], io)
        invariant Ascending(old(OpenLogWaits())) ==> Ascending(OpenLogWaits()) && NoneMet(onLogIO, io)
        invariant Ascending(old(OpenSnapshotWaits())) ==> Ascending(OpenSnapshotWaits()) && NoneMet(onSnapshot, io)
        decreases outcome == Ran, |commands|
      {
        ghost var mid := Out();
        outcome := RunFront(io, fails(n));
        old(Out()).GoesOnIsTransitive(mid, Out(), io);
        n := n + 1;
        if outcome == Ran {
          var _ := MergeFrontAppendEntries(max);
        }
      }
      ok := !outcome.Failed?;
    }
  }

  /** The responses among some commands are the `Respond` commands, each with its own condition. */
  lemma {:induction false} ResponsesAreRespondCommands<E>(commands: seq<Command<E>>, r: Reply)
    ensures ResponsesIn(commands)[r] == multiset(commands)[Respond(r.when, r.response)]
  {
    if commands != [] {
      ResponsesAreRespondCommands(commands[1..], r);
      assert commands == [commands[0]] + commands[1..];
    }
  }

  /**
   * Each response that was pushed is sent, waits or is queued, as often as it was pushed and with the
   * condition it was pushed with; and if it was sent, that condition was met.
   */
  lemma EachResponseIsInOnePlace<E>(
      sent: seq<Sent>, log: seq<Pending>, snapshot: seq<Pending>, commands: seq<Command<E>>, pushed: seq<Command<E>>,
      r: Reply)
    requires Gated(sent)
    requires Accounted(SentReplies(sent), multiset(Replies(log)) + multiset(Replies(snapshot)), commands, pushed)
    ensures var c: Command<E> := Respond(r.when, r.response);
            multiset(SentReplies(sent))[r] + multiset(Replies(log))[r] + multiset(Replies(snapshot))[r]
              + multiset(commands)[c] == multiset(pushed)[c]
    ensures forall i | 0 <= i < |sent| && sent[i].response == r.response && sent[i].when == r.when ::
              Respond(r.when, r.response) in pushed && (r.when.Some? ==> IsMet(r.when.value, sent[i].io))
  {
    ResponsesAreRespondCommands(commands, r);
    ResponsesAreRespondCommands(pushed, r);
    var all := multiset(SentReplies(sent)) + (multiset(Replies(log)) + multiset(Replies(snapshot)));
    assert (all + ResponsesIn(commands))[r] == ResponsesIn(pushed)[r];
    forall i | 0 <= i < |sent| && sent[i].response == r.response && sent[i].when == r.when
      ensures Respond(r.when, r.response) in pushed
    {
      assert SentReplies(sent)[i] == r;
      assert multiset(pushed)[Respond(r.when, r.response)] > 0;
    }
  }

  /** A response pushed once is sent at most once, and while it waits or is queued it is not sent. */
  lemma SentAtMostOnce<E>(
      sent: seq<Reply>, aside: multiset<Reply>, commands: seq<Command<E>>, pushed: seq<Command<E>>, r: Reply)
    requires Accounted(sent, aside, commands, pushed) && multiset(pushed)[Respond(r.when, r.response)] == 1
    ensures multiset(sent)[r] + aside[r] + multiset(commands)[Respond(r.when, r.response)] == 1
  {
    ResponsesAreRespondCommands(commands, r);
    ResponsesAreRespondCommands(pushed, r);
    hide ResponsesIn;
    var all := multiset(sent) + aside + ResponsesIn(commands);
    assert all[r] == 1;
  }

  /**
   * The units of work tell the commands apart: every command that is neither an append nor a response is
   * one unit of its own, and an append writes its entries, one after the other, under its vote.
   */
  lemma {:induction false} UnitsAreWork<E>(commands: seq<Command<E>>, c: Command<E>)
    requires !c.AppendEntries? && !c.Respond?
    ensures multiset(Collect(commands, Units))[Do(c)] == multiset(commands)[c]
    ensures Written(Collect(commands, Units)) == EntriesWithVotes(commands)
    decreases |commands|
  {
    if commands != [] {
      var head, rest := commands[0], commands[1..];
      UnitsAreWork(rest, c);
      assert commands == [head] + rest;
      WrittenConcat(Units(head), Collect(rest, Units));
      HeadIsWritten(head);
    }
  }

  /** The writes among some units, in order. */
  ghost function Written<E>(units: seq<Unit<E>>): seq<(Vote, E)> {
    if units == [] then []
    else (if units[0].Write? then [(units[0].vote, units[0].entry)] else []) + Written(units[1..])
  }

  ghost function WithVote<E>(v: Vote, entries: seq<E>): seq<(Vote, E)> {
    seq(|entries|, i requires 0 <= i < |entries| => (v, entries[i]))
  }

  /** The entries of all appends, in order, each with its vote. */
  ghost function EntriesWithVotes<E>(commands: seq<Command<E>>): seq<(Vote, E)> {
    if commands == [] then []
    else
      var c := commands[0];
      (if c.AppendEntries? then WithVote(c.vote, c.entries) else []) + EntriesWithVotes(commands[1..])
  }

  lemma {:induction false} WrittenConcat<E>(a: seq<Unit<E>>, b: seq<Unit<E>>)
    ensures Written(a + b) == Written(a) + Written(b)
  {
    if a == [] {
      assert a + b == b;
    } else {
      assert (a + b)[1..] == a[1..] + b;
      WrittenConcat(a[1..], b);
    }
  }

  lemma HeadIsWritten<E>(c: Command<E>)
    ensures Written(Units(c)) == if c.AppendEntries? then WithVote(c.vote, c.entries) else []
    ensures forall d: Command<E> | !d.AppendEntries? && !d.Respond? ::
              multiset(Units(c))[Do(d)] == if c == d then 1 else 0
  {
    if c.AppendEntries? {
      AppendIsWritten(c.vote, c.entries);
      forall d: Command<E> ensures Do(d) !in Units(c) {}
    }
  }

  lemma {:induction false} AppendIsWritten<E>(v: Vote, entries: seq<E>)
    ensures Written(Units(AppendEntries(v, entries))) == WithVote(v, entries)
  {
    if entries != [] {
      AppendIsWritten(v, entries[1..]);
      assert Units(AppendEntries(v, entries))[1..] == Units(AppendEntries(v, entries[1..]));
      assert WithVote(v, entries) == [(v, entries[0])] + WithVote(v, entries[1..]);
    }
  }

  lemma PendingSnoc(queue: seq<Pending>, p: Pending)
    ensures multiset(Replies(queue + [p])) == multiset(Replies(queue)) + multiset{Reply(Some(p.wait), p.response)}
    ensures Waits(queue + [p]) == Waits(queue) + [p.wait]
  {
    assert Replies(queue + [p]) == Replies(queue) + [Reply(Some(p.wait), p.response)];
  }

  /** Taking the head off the queue moves its wait to the end of those set aside, or drops it. */
  lemma DequeueWaits<E>(queue: seq<Pending>, commands: seq<Command<E>>, f: Command<E> -> seq<Condition>)
    requires commands != [] && |f(commands[0])| <= 1
    ensures Ascending(Waits(queue) + Collect(commands, f)) ==> Ascending(Waits(queue) + Collect(commands[1..], f))
  {
    var head, rest := f(commands[0]), Collect(commands[1..], f);
    assert Collect(commands, f) == head + rest;
    hide Collect;
    hide Ascending;
    if head == [] {
      assert head + rest == rest;
    } else if Ascending(Waits(queue) + (head + rest)) {
      assert Waits(queue) + (head + rest) == Waits(queue) + [head[0]] + rest;
      SubsequenceAscends(Waits(queue), head[0], rest);
    }
  }

  lemma PostponedWaits<E>(queue: seq<Pending>, commands: seq<Command<E>>, f: Command<E> -> seq<Condition>, p: Pending)
    requires commands != []
    ensures f(commands[0]) == [p.wait] ==>
        Waits(queue + [p]) + Collect(commands[1..], f) == Waits(queue) + Collect(commands, f)
  {
    PendingSnoc(queue, p);
  }

  lemma DrainKeepsOrder(queue: seq<Pending>, k: nat, rest: seq<Condition>, io: IOState)
    requires DrainsTo(queue, io, k)
    ensures Ascending(Waits(queue) + rest) ==> Ascending(Waits(queue[k..]) + rest) && NoneMet(queue[k..], io)
  {
    var all, tail := Waits(queue) + rest, Waits(queue[k..]) + rest;
    if Ascending(all) {
      forall i, j | 0 <= i < j < |tail| ensures WaitLe(tail[i], tail[j]) {
        assert tail[i] == all[k + i] && tail[j] == all[k + j];
      }
      forall i, j | 0 <= i < j < |queue| ensures WaitLe(Waits(queue)[i], Waits(queue)[j]) {
        assert Waits(queue)[i] == all[i] && Waits(queue)[j] == all[j];
      }
      AscendingDrainsCompletely(queue, io, k);
    }
  }
}
