/** The message receiver: consecutive client writes for one leader are merged into one message. */
module Batching {
  import opened Common

  /** `L` is the leader a client expects, `P` a payload, `R` a responder; `Other` is every other message. */
  datatype Message<P, R, L> =
    | ClientWrite(payloads: seq<P>, responders: seq<R>, leader: Option<L>)
    | Other(kind: nat)
  {
    ghost predicate Valid() {
      ClientWrite? ==> |payloads| == |responders|
    }
  }

  /** A unit of a message: one payload with its responder and expected leader, or a whole message. */
  datatype Unit<P, R, L> = Write(payload: P, responder: R, leader: Option<L>) | Whole(kind: nat)

  ghost function Units<P, R, L>(m: Message<P, R, L>): seq<Unit<P, R, L>> {
    match m
    case Other(kind) => [Whole(kind)]
    case ClientWrite(payloads, responders, leader) =>
      seq(|payloads|, i requires 0 <= i < |payloads| =>
        if i < |responders| then Write(payloads[i], responders[i], leader) else Whole(i))
  }

  /** The places in a message at which a payload comes with this responder. */
  ghost function Places<P, R, L>(m: Message<P, R, L>, payload: P, responder: R): set<nat> {
    if m.Other? then {}
    else set i | 0 <= i < |m.payloads| && i < |m.responders| && m.payloads[i] == payload && m.responders[i] == responder
  }

  /** The units of a message are its payloads, each with the responder at the same place and the expected leader. */
  lemma UnitsAreWrites<P, R, L>(m: Message<P, R, L>, payload: P, responder: R, leader: Option<L>)
    requires m.Valid()
    ensures m.ClientWrite? ==> |Units(m)| == |m.payloads|
    ensures multiset(Units(m))[Write(payload, responder, leader)]
         == if m.ClientWrite? && m.leader == leader then |Places(m, payload, responder)| else 0
    ensures forall kind :: multiset(Units(m))[Whole(kind)] == if m == Other(kind) then 1 else 0
  {
    if m.ClientWrite? {
      var unit := Write(payload, responder, leader);
      CountIsPlaces(Units(m), unit);
      assert PlacesOf(Units(m), unit) == if m.leader == leader then Places(m, payload, responder) else {};
      forall kind ensures multiset(Units(m))[Whole(kind)] == 0 {
        assert Whole(kind) !in Units(m);
      }
    } else {
      assert Units(m) == [Whole(m.kind)];
      assert Write(payload, responder, leader) !in Units(m);
    }
  }

  ghost function PlacesOf<T>(xs: seq<T>, x: T): set<nat> {
    set i | 0 <= i < |xs| && xs[i] == x
  }

  lemma {:induction false} CountIsPlaces<T>(xs: seq<T>, x: T)
    ensures multiset(xs)[x] == |PlacesOf(xs, x)|
  {
    if xs != [] {
      var init, last := xs[..|xs| - 1], |xs| - 1;
      CountIsPlaces(init, x);
      assert xs == init + [xs[last]];
      assert PlacesOf(xs, x) == PlacesOf(init, x) + if xs[last] == x then {last} else {};
    }
  }

  ghost predicate AllValid<P, R, L>(ms: seq<Message<P, R, L>>) {
    forall i | 0 <= i < |ms| :: ms[i].Valid()
  }

  /** What happens while the receiver waits for one more message. */
  datatype Poll<P, R, L> = Poll(arrived: seq<Message<P, R, L>>, closed: bool, timedOut: bool)

  ghost predicate AllPollsValid<P, R, L>(polls: seq<Poll<P, R, L>>) {
    forall i | 0 <= i < |polls| :: AllValid(polls[i].arrived)
  }

  lemma MergedWrites<P, R, L>(a: Message<P, R, L>, b: Message<P, R, L>)
    requires a.Valid() && b.Valid() && a.ClientWrite? && b.ClientWrite? && a.leader == b.leader
    ensures Units(ClientWrite(a.payloads + b.payloads, a.responders + b.responders, a.leader)) == Units(a) + Units(b)
  {}

  datatype Readiness = Ready | Waiting | Closed

  datatype Outcome<P, R, L> = Received(message: Message<P, R, L>) | Empty | Stopped

  /**
   * What was delivered, what was lost, what is held and what is in the channel are together what was sent,
   * in order.
   */
  ghost predicate Preserved<P, R, L>(
      delivered: seq<Message<P, R, L>>, held: seq<Message<P, R, L>>, channel: seq<Message<P, R, L>>,
      sent: seq<Message<P, R, L>>)
  {
    Collect(delivered, Units) + Collect(held, Units) + Collect(channel, Units) == Collect(sent, Units)
  }

  lemma SendPreserves<P, R, L>(
      delivered: seq<Message<P, R, L>>, held: seq<Message<P, R, L>>, channel: seq<Message<P, R, L>>,
      sent: seq<Message<P, R, L>>, more: seq<Message<P, R, L>>)
    requires Preserved(delivered, held, channel, sent)
    ensures Preserved(delivered, held, channel + more, sent + more)
  {
    hide Collect;
    hide Units;
    CollectConcat(channel, more, Units);
    CollectConcat(sent, more, Units);
  }

  lemma TakePreserves<P, R, L>(
      delivered: seq<Message<P, R, L>>, held: seq<Message<P, R, L>>, channel: seq<Message<P, R, L>>,
      sent: seq<Message<P, R, L>>)
    requires Preserved(delivered, held, channel, sent) && channel != []
    ensures Preserved(delivered, held + [channel[0]], channel[1..], sent)
  {
    hide Collect;
    hide Units;
    CollectHead(channel, Units);
    CollectPush(held, channel[0], Units);
    assert Collect(delivered, Units) + Collect(held, Units) + (Units(channel[0]) + Collect(channel[1..], Units))
        == Collect(delivered, Units) + (Collect(held, Units) + Units(channel[0])) + Collect(channel[1..], Units);
  }

  lemma DeliverPreserves<P, R, L>(
      delivered: seq<Message<P, R, L>>, m: Message<P, R, L>, held: seq<Message<P, R, L>>,
      channel: seq<Message<P, R, L>>, sent: seq<Message<P, R, L>>)
    requires Preserved(delivered, [m] + held, channel, sent)
    ensures Preserved(delivered + [m], held, channel, sent)
  {
    hide Collect;
    hide Units;
    CollectPush(delivered, m, Units);
    CollectConcat([m], held, Units);
    CollectOne(m, Units);
  }

  lemma MergePreserves<P, R, L>(
      delivered: seq<Message<P, R, L>>, a: Message<P, R, L>, b: Message<P, R, L>, channel: seq<Message<P, R, L>>,
      sent: seq<Message<P, R, L>>)
    requires Preserved(delivered, [a] + [b], channel, sent)
    requires a.Valid() && b.Valid() && a.ClientWrite? && b.ClientWrite? && a.leader == b.leader
    ensures Preserved(delivered, [ClientWrite(a.payloads + b.payloads, a.responders + b.responders, a.leader)],
        channel, sent)
  {
    var m := ClientWrite(a.payloads + b.payloads, a.responders + b.responders, a.leader);
    MergedWrites(a, b);
    hide Collect;
    hide Units;
    CollectConcat([a], [b], Units);
    CollectOne(a, Units);
    CollectOne(b, Units);
    CollectOne(m, Units);
  }

  class BatchReceiver<P, R, L(==)> {
    const capacity: nat
    var buffered: Option<Message<P, R, L>>
    var channel: seq<Message<P, R, L>>
    var closed: bool
    ghost var sent: seq<Message<P, R, L>>
    ghost var delivered: seq<Message<P, R, L>>

    ghost function Held(): seq<Message<P, R, L>>
      reads this
    {
      if buffered.Some? then [buffered.value] else []
    }

    ghost predicate Valid()
      reads this
    {
      Preserved(delivered, Held(), channel, sent) && AllValid(channel) && (buffered.Some? ==> buffered.value.Valid())
    }

    constructor (capacity: nat)
      ensures Valid() && this.capacity == capacity && buffered == None && channel == [] && sent == []
          && delivered == [] && !closed
    {
      this.capacity := capacity;
      buffered, channel, closed, sent, delivered := None, [], false, [], [];
    }

    /** Messages arrive in the channel, and the last sender may go away. */
    method Arrive(p: Poll<P, R, L>, ghost held: seq<Message<P, R, L>>)
      requires Preserved(delivered, held, channel, sent) && AllValid(channel) && AllValid(p.arrived)
      modifies this`channel, this`sent, this`closed
      ensures Preserved(delivered, held, channel, sent) && AllValid(channel)
      ensures channel == old(channel) + p.arrived && sent == old(sent) + p.arrived
          && closed == (old(closed) || p.closed)
    {
      SendPreserves(delivered, held, channel, sent, p.arrived);
      channel := channel + p.arrived;
      sent := sent + p.arrived;
      closed := closed || p.closed;
    }

    /**
     * Wait for one more message until a deadline. `held` is whatever the caller has taken out of the
     * channel already.
     */
    method ReceiveUntil(p: Poll<P, R, L>, ghost held: seq<Message<P, R, L>>) returns (r: Outcome<P, R, L>)
      requires Preserved(delivered, held, channel, sent) && AllValid(channel) && AllValid(p.arrived)
      modifies this`channel, this`sent, this`closed
      ensures AllValid(channel) && sent == old(sent) + p.arrived
      ensures Preserved(delivered, if r.Received? then held + [r.message] else held, channel, sent)
      ensures r.Received? ==> r.message.Valid()
      ensures r.Stopped? ==> channel == [] && closed
      ensures r.Empty? ==> p.timedOut || (channel == [] && !closed)
      ensures closed == (old(closed) || p.closed)
      ensures !r.Received? ==> channel == old(channel) + p.arrived
      ensures r.Received? ==> [r.message] + channel == old(channel) + p.arrived
    {
      Arrive(p, held);
      if channel != [] && !p.timedOut {
        TakePreserves(delivered, held, channel, sent);
        r := Received(channel[0]);
        channel := channel[1..];
      } else if channel == [] && closed {
        r := Stopped;
      } else {
        r := Empty;
      }
    }

    /** Wait until a message is buffered. While there is none and a sender is left, this goes on waiting. */
    method EnsureBuffered(p: Poll<P, R, L>) returns (r: Readiness)
      requires Valid() && AllValid(p.arrived)
      modifies this
      ensures Valid() && delivered == old(delivered)
      ensures r == Ready <==> buffered.Some?
      ensures r == Waiting <==> buffered.None? && channel == [] && !closed
      ensures r == Closed <==> buffered.None? && channel == [] && closed
      ensures old(buffered).Some? ==> buffered == old(buffered) && channel == old(channel)
      ensures old(buffered).None? && old(channel) + p.arrived != [] ==> buffered == Some((old(channel) + p.arrived)[0])
    {
      hide Preserved;
      if buffered.Some? {
        return Ready;
      }
      var next := ReceiveUntil(p.(timedOut := false), Held());
      if next.Stopped? {
        return Closed;
      }
      if next.Empty? {
        return Waiting;
      }
      assert [] + [next.message] == [next.message];
      buffered := Some(next.message);
      r := Ready;
    }

    /**
     * Receive the next message, merging the client writes that follow it. `polls` says what happens
     * while waiting for each further one; past its end the wait times out. On success the stream is
     * preserved; when the last sender goes away in the middle of a merge, the merged message is lost.
     */
    method TryRecv(polls: seq<Poll<P, R, L>>)
      returns (r: Outcome<P, R, L>, ghost merged: nat, ghost lost: seq<Message<P, R, L>>)
      requires Valid() && AllPollsValid(polls)
      modifies this
      ensures AllValid(channel) && (buffered.Some? ==> buffered.value.Valid())
      ensures Preserved(delivered, lost + Held(), channel, sent)
      ensures r.Received? ==>
                && delivered == old(delivered) + [r.message] && r.message.Valid()
                && 1 <= merged && (merged <= capacity || merged == 1)
      ensures !r.Received? ==> delivered == old(delivered)
      ensures |lost| <= 1 && (lost != [] <==> r.Stopped? && (old(buffered).Some? || old(channel) != []))
      ensures r.Stopped? ==> closed && channel == []
    {
      hide Preserved;
      merged, lost := 1, [];
      assert lost + Held() == Held();
      var first;
      if buffered.Some? {
        first := Received(buffered.value);
        buffered := None;
      } else {
        first := ReceiveUntil(Poll([], false, false), []);
      }
      if !first.Received? {
        assert lost + Held() == [];
        return first, merged, lost;
      }
      assert [] + [first.message] == [first.message];
      var msg, stopped;
      msg, stopped, merged := MergeClientWrites(first.message, polls);
      if stopped {
        assert [msg] + Held() == [msg];
        return Stopped, merged, [msg];
      }
      DeliverPreserves(delivered, msg, Held(), channel, sent);
      delivered := delivered + [msg];
      assert lost + Held() == Held();
      r := Received(msg);
    }

    method MergeClientWrites(start: Message<P, R, L>, polls: seq<Poll<P, R, L>>)
      returns (msg: Message<P, R, L>, stopped: bool, ghost merged: nat)
      requires buffered.None? && Preserved(delivered, [start], channel, sent)
      requires AllValid(channel) && start.Valid() && AllPollsValid(polls)
      modifies this`buffered, this`channel, this`closed, this`sent
      ensures AllValid(channel) && msg.Valid() && (buffered.Some? ==> buffered.value.Valid())
      ensures Preserved(delivered, [msg] + Held(), channel, sent)
      ensures 1 <= merged && (merged <= capacity || merged == 1)
      ensures stopped ==> buffered.None? && closed && channel == []
      ensures start.Other? ==> msg == start
      ensures start.Other? ==> buffered.None?
      ensures start.ClientWrite? ==> msg.ClientWrite? && msg.leader == start.leader
      ensures buffered.Some? ==> !(buffered.value.ClientWrite? && buffered.value.leader == start.leader)
      ensures start.ClientWrite? && !stopped && buffered.None? && merged < capacity ==>
                |polls| < merged || polls[merged - 1].timedOut || channel == []
    {
      hide Preserved;
      hide AllValid;
      msg, stopped, merged := start, false, 1;
      assert [msg] + Held() == [msg];
      if start.Other? { return; }
      var i := 1;
      while i < capacity
        invariant 1 <= i && (i <= capacity || i == 1) && buffered.None? && !stopped && merged == i && msg.Valid()
            && msg.ClientWrite? && msg.leader == start.leader
        invariant AllValid(channel) && Preserved(delivered, [msg], channel, sent)
      {
        var p := if i <= |polls| then polls[i - 1] else Poll([], false, true);
        assert AllValid(p.arrived) by { PollIsValid(polls, i); }
        var next := ReceiveUntil(p, [msg]);
        assert [msg] + Held() == [msg];
        if next.Stopped? { stopped := true; return; }
        if next.Empty? { return; }
        if !(next.message.ClientWrite? && next.message.leader == msg.leader) {
          buffered := Some(next.message);
          return;
        }
        MergePreserves(delivered, msg, next.message, channel, sent);
        msg := ClientWrite(msg.payloads + next.message.payloads, msg.responders + next.message.responders, msg.leader);
        merged := merged + 1;
        i := i + 1;
      }
      assert [msg] + Held() == [msg];
    }
  }

  lemma PollIsValid<P, R, L>(polls: seq<Poll<P, R, L>>, i: nat)
    requires AllPollsValid(polls) && 0 < i
    ensures AllValid((if i <= |polls| then polls[i - 1] else Poll([], false, true)).arrived)
  {}
}
