/** Applying committed entries: ranges are generated from I/O progress, each from where the last one ended. */
module Apply {
  import opened Common
  import opened CommandQueue
  import Replication
  import Completeness
  import Preservation

  function NextIndex(id: Option<Position>): nat {
    if id.Some? then id.value.index + 1 else 0
  }

  /** The lesser of two optional positions, in the order of log ids. */
  function Lesser(a: Option<Position>, b: Option<Position>): Option<Position> {
    if LastLe(a, b) then a else b
  }

  /** Two positions of one log: the later index has no smaller term. */
  predicate OfOneLog(a: Option<Position>, b: Option<Position>) {
    a.Some? && b.Some? ==>
      && (a.value.index < b.value.index ==> a.value.term <= b.value.term)
      && (b.value.index < a.value.index ==> b.value.term <= a.value.term)
  }

  /** The lesser log id is at the lesser index exactly when both could be of one log. */
  lemma LesserIsLowerIff(a: Option<Position>, b: Option<Position>)
    ensures NextIndex(Lesser(a, b)) <= NextIndex(a) && NextIndex(Lesser(a, b)) <= NextIndex(b) <==> OfOneLog(a, b)
  {}

  /** What reached the state machine: a range of entries, or a snapshot that covers everything up to an index. */
  datatype Event = Applied(first: nat, last: nat) | Installed(last: nat)

  ghost function End(events: seq<Event>): nat {
    if events == [] then 0 else events[|events| - 1].last + 1
  }

  /** Each range starts where the event before it ended; a snapshot never goes back. */
  ghost predicate Gapless(events: seq<Event>) {
    events != [] ==>
      var init, e := events[..|events| - 1], events[|events| - 1];
      Gapless(init) &&
      match e
      case Applied(first, last) => first == End(init) <= last
      case Installed(last) => End(init) <= last + 1
  }

  lemma GaplessPush(events: seq<Event>, e: Event)
    requires Gapless(events)
    requires match e
             case Applied(first, last) => first == End(events) <= last
             case Installed(last) => End(events) <= last + 1
    ensures Gapless(events + [e]) && End(events + [e]) == e.last + 1
  {
    assert (events + [e])[..|events|] == events;
  }

  /** No index is applied twice: every range lies wholly above whatever came before it. */
  lemma {:induction false} AppliedAtMostOnce(events: seq<Event>, i: nat, j: nat)
    requires Gapless(events) && i < j < |events|
    ensures events[i].last <= events[j].last
    ensures events[j].Applied? ==> events[i].last < events[j].first
    decreases |events|
  {
    var init := events[..|events| - 1];
    if j < |init| {
      AppliedAtMostOnce(init, i, j);
      assert init[i] == events[i] && init[j] == events[j];
    } else if i < |init| - 1 {
      AppliedAtMostOnce(init, i, |init| - 1);
      assert init[i] == events[i] && init[|init| - 1] == events[|init| - 1];
    }
  }

  /** No index is skipped: every index below the end was applied, or a snapshot covered it. */
  lemma {:induction false} NoIndexIsSkipped(events: seq<Event>, index: nat)
    requires Gapless(events) && index < End(events)
    ensures exists i ::
              0 <= i < |events| && index <= events[i].last && (events[i].Applied? ==> events[i].first <= index)
    decreases |events|
  {
    var init, e := events[..|events| - 1], events[|events| - 1];
    if index < End(init) {
      NoIndexIsSkipped(init, index);
      var i :| 0 <= i < |init| && index <= init[i].last && (init[i].Applied? ==> init[i].first <= index);
      assert events[i] == init[i];
    } else {
      assert index <= events[|events| - 1].last;
    }
  }

  lemma OnLogIsOfOneLog(log: seq<nat>, a: Option<Position>, b: Option<Position>)
    requires TermsAscend(log) && OnLog(log, a) && OnLog(log, b)
    ensures OfOneLog(a, b)
  {}

  /** The terms of a log that is replicated. */
  ghost function Terms(log: Replication.Log): seq<nat> {
    seq(|log|, i requires 0 <= i < |log| => log[i].term)
  }

  /** The last entry that a node knows to be committed. */
  ghost function LastCommitted(n: Replication.Node): Option<Position>
    requires n.committed <= |n.log|
  {
    if n.committed == 0 then None else Some(Position(n.log[n.committed - 1].term, n.committed - 1))
  }

  /** In every run, what a node knows to be committed is on the log of each leader it may follow. */
  lemma CommittedIsOnLeaderLog(s: Replication.State, steps: seq<Replication.Step>, x: nat, t: nat)
    requires Replication.Init(s) && Replication.IsRun(s, steps) && Replication.IsForward(s, steps)
    requires Preservation.Follows(Replication.Run(s, steps), x, t)
    ensures var end := Replication.Run(s, steps);
            && TermsAscend(Terms(end.leaders[t].log)) && end.nodes[x].committed <= |end.nodes[x].log|
            && OnLog(Terms(end.leaders[t].log), LastCommitted(end.nodes[x]))
  {
    hide Completeness.Inv;
    hide Completeness.LogOk;
    hide Replication.Elected;
    hide Replication.Apply;
    hide Replication.Enabled;
    hide Replication.GoesForward;
    var end := Replication.Run(s, steps);
    Preservation.InitIsSafe(s);
    Preservation.RunIsSafe(s, steps);
    Preservation.CommittedIsInLeader(end, x, t);
    Completeness.LeaderFact(end, t);
    var log := end.leaders[t].log;
    forall i, j | 0 <= i < j < |log| ensures Terms(log)[i] <= Terms(log)[j] {
      Completeness.TermsAscend(end, log, i, j);
    }
  }

  /** In every run, the log of a leader goes on from what it was before. */
  lemma LeaderLogGoesOn(s: Replication.State, before: seq<Replication.Step>, after: seq<Replication.Step>, t: nat)
    requires Replication.Init(s) && Replication.IsRun(s, before) && Replication.IsForward(s, before)
    requires var mid := Replication.Run(s, before);
             Replication.IsRun(mid, after) && Replication.IsForward(mid, after) && t in mid.leaders
    ensures var mid := Replication.Run(s, before);
            var end := Replication.Run(mid, after);
            t in end.leaders && Terms(mid.leaders[t].log) <= Terms(end.leaders[t].log)
  {
    hide Completeness.Inv;
    hide Replication.Apply;
    hide Replication.Enabled;
    hide Replication.GoesForward;
    Preservation.InitIsSafe(s);
    Preservation.RunIsSafe(s, before);
    Preservation.RunIsSafe(Replication.Run(s, before), after);
  }

  /**
   * The apply side of a node. `log` is the log of the leader whose I/O was accepted last: what is
   * committed is on it, and so is what was submitted for that leader.
   */
  class Applier {
    var accepted: Option<Position>
    var submitted: Option<Position>
    var logAccepted: Option<IOId>
    var logSubmitted: Option<IOId>
    ghost var log: seq<nat>
    ghost var events: seq<Event>

    ghost predicate Valid()
      reads this
    {
      && Gapless(events) && NextIndex(submitted) == End(events)
      && (logSubmitted.Some? ==> logAccepted.Some? && IOLe(logSubmitted.value, logAccepted.value))
      && TermsAscend(log) && OnLog(log, accepted) && (SameLeader() ==> OnLog(log, LogUpto()))
    }

    constructor (applied: Option<Position>, ghost log: seq<nat>)
      requires TermsAscend(log) && OnLog(log, applied)
      ensures Valid() && accepted == submitted == applied && logAccepted == logSubmitted == None && this.log == log
    {
      accepted, submitted, logAccepted, logSubmitted := applied, applied, None, None;
      this.log := log;
      events := if applied.Some? then [Installed(applied.value.index)] else [];
    }

    /** Entries up to `id` are committed; an older commit changes nothing. */
    method Commit(id: Option<Position>)
      requires Valid() && OnLog(log, id)
      modifies this`accepted
      ensures Valid() && accepted == if LastLe(id, old(accepted)) then old(accepted) else id
    {
      if !LastLe(id, accepted) {
        accepted := id;
      }
    }

    /**
     * Log I/O of a leader is accepted; its vote must not be behind, and if its log is, nothing changes. The
     * leader's log goes on from what it was before (`LeaderLogGoesOn`); the log of a new leader has everything
     * that is committed (`CommittedIsOnLeaderLog`).
     */
    method AcceptLog(io: IOId, ghost leaderLog: seq<nat>)
      requires Valid()
      requires logAccepted.Some? ==> logAccepted.value.vote == io.vote || IOLe(logAccepted.value, io)
      requires TermsAscend(leaderLog) && OnLog(leaderLog, accepted)
      requires logAccepted.Some? && logAccepted.value.vote == io.vote ==> log <= leaderLog
      modifies this`logAccepted, this`log
      ensures Valid() && log == leaderLog
      ensures logAccepted
        == if old(logAccepted).Some? && IOLe(io, old(logAccepted).value) then old(logAccepted) else Some(io)
    {
      log := leaderLog;
      if logAccepted.Some? {
        IOIdsArePartiallyOrdered(logAccepted.value, io, io);
        if IOLe(io, logAccepted.value) {
          return;
        }
        assert IOLe(logAccepted.value, io);
      }
      if logSubmitted.Some? {
        IOIdsArePartiallyOrdered(logSubmitted.value, logAccepted.value, io);
        if logSubmitted.value.vote == io.vote { SameVoteBetween(logSubmitted.value, logAccepted.value, io); }
      }
      logAccepted := Some(io);
    }

    /** Log I/O that was accepted is submitted to storage. */
    method SubmitLog(io: IOId)
      requires Valid() && (logSubmitted.Some? ==> IOLe(logSubmitted.value, io))
      requires logAccepted.Some? && IOLe(io, logAccepted.value)
      requires io.vote == logAccepted.value.vote ==> OnLog(log, io.last)
      modifies this`logSubmitted
      ensures Valid() && logSubmitted == Some(io)
    {
      logSubmitted := Some(io);
    }

    /** A snapshot goes to the state machine. It must not be behind what was applied. */
    method InstallSnapshot(id: Position)
      requires Valid() && NextIndex(submitted) <= id.index + 1
      modifies this`submitted, this`events
      ensures Valid() && submitted == Some(id) && events == old(events) + [Installed(id.index)]
    {
      GaplessPush(events, Installed(id.index));
      events := events + [Installed(id.index)];
      submitted := Some(id);
    }

    function LogUpto(): Option<Position>
      reads this
    {
      if logSubmitted.Some? then logSubmitted.value.last else None
    }

    /** Whether the submitted log I/O is of the leader whose I/O was last accepted. */
    predicate SameLeader()
      reads this
    {
      if logSubmitted.Some? && logAccepted.Some? then logSubmitted.value.vote == logAccepted.value.vote
      else logSubmitted.None? && logAccepted.None?
    }

    /**
     * The next range to apply, if the progress allows one: it starts at the next index, and it passes
     * neither what is committed nor what is submitted, by log id and by index.
     */
    function NextApply(): (upto: Option<Position>)
      requires Valid()
      reads this
      ensures upto.Some? ==> SameLeader() && NextIndex(submitted) <= upto.value.index && OnLog(log, upto)
      ensures upto.Some? ==> LastLe(upto, accepted) && LastLe(upto, LogUpto())
      ensures upto.Some? ==> NextIndex(upto) <= NextIndex(accepted) && NextIndex(upto) <= NextIndex(LogUpto())
      ensures upto.Some? <==>
                && logSubmitted.Some? && logAccepted.Some? && logSubmitted.value.vote == logAccepted.value.vote
                && NextIndex(submitted) < NextIndex(accepted)
                && NextIndex(submitted) < NextIndex(logSubmitted.value.last)
      ensures upto.Some? ==> upto == accepted || upto == logSubmitted.value.last
    {
      var upto := Lesser(LogUpto(), accepted);
      LesserIsLowerIff(LogUpto(), accepted);
      assert SameLeader() ==> OfOneLog(LogUpto(), accepted) by {
        if SameLeader() { OnLogIsOfOneLog(log, LogUpto(), accepted); }
      }
      if SameLeader() && NextIndex(submitted) < NextIndex(upto) then upto else None
    }

    /**
     * Apply whatever the progress allows. At most one range is emitted, it starts where the last
     * event ended, and nothing more can be applied afterwards.
     */
    method RunProgressDriven()
      requires Valid()
      modifies this`submitted, this`events
      ensures Valid() && NextApply().None?
      ensures var upto := old(NextApply());
              if upto.None? then events == old(events) && submitted == old(submitted)
              else submitted == upto && events == old(events) + [Applied(old(NextIndex(submitted)), upto.value.index)]
    {
      var upto := NextApply();
      while upto.Some?
        invariant Valid() && upto == NextApply()
        invariant upto.Some? ==> submitted == old(submitted) && events == old(events)
        invariant upto.None? && old(NextApply()).None? ==> submitted == old(submitted) && events == old(events)
        invariant upto.None? && old(NextApply()).Some? ==>
                    && submitted == old(NextApply())
                    && events == old(events) + [Applied(old(NextIndex(submitted)), submitted.value.index)]
        decreases NextIndex(Lesser(LogUpto(), accepted)) - NextIndex(submitted)
      {
        GaplessPush(events, Applied(NextIndex(submitted), upto.value.index));
        events := events + [Applied(NextIndex(submitted), upto.value.index)];
        submitted := upto;
        upto := NextApply();
      }
    }
  }

  /** If I/O of one vote lies at both ends, everything between is of that vote. */
  lemma SameVoteBetween(a: IOId, b: IOId, c: IOId)
    requires IOLe(a, b) && IOLe(b, c) && a.vote == c.vote
    ensures b.vote == a.vote
  {}
}
