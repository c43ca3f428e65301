/** Votes and their partial order, in the form that allows one leader per term. */
module Votes {
  import opened Common
  import opened Quorum

  datatype Order = Less | Equal | Greater

  datatype Vote = Vote(term: nat, node: NodeId, committed: bool) {
    function Committed(): Vote { this.(committed := true) }

    function Uncommitted(): Vote { this.(committed := false) }
  }

  const NO_VOTE := Vote(0, 0, false)

  /** Leader ids of one term are comparable only when they name the same node. */
  function CompareLeaders(a: Vote, b: Vote): Option<Order> {
    if a.term < b.term then Some(Less)
    else if b.term < a.term then Some(Greater)
    else if a.node == b.node then Some(Equal)
    else None
  }

  function CompareFlags(a: bool, b: bool): Order {
    if a == b then Equal else if a then Greater else Less
  }

  /** Compare leaders first; the committed flag decides between equal or incomparable leaders. */
  function Compare(a: Vote, b: Vote): Option<Order> {
    match CompareLeaders(a, b)
    case Some(Equal) => Some(CompareFlags(a.committed, b.committed))
    case None => if a.committed == b.committed then None else Some(CompareFlags(a.committed, b.committed))
    case other => other
  }

  predicate Le(a: Vote, b: Vote) {
    Compare(a, b) == Some(Less) || Compare(a, b) == Some(Equal)
  }

  predicate Lt(a: Vote, b: Vote) {
    Compare(a, b) == Some(Less)
  }

  /** Votes are partially ordered, and two of them are incomparable iff only one could ever be committed. */
  lemma VotesArePartiallyOrdered(a: Vote, b: Vote, c: Vote)
    ensures Le(a, a)
    ensures Le(a, b) && Le(b, a) ==> a == b
    ensures Le(a, b) && Le(b, c) ==> Le(a, c)
    ensures Lt(a, b) <==> Le(a, b) && a != b
    ensures !Le(a, b) && !Le(b, a) <==> a.term == b.term && a.node != b.node && a.committed == b.committed
    ensures a.term < b.term ==> Lt(a, b)
    ensures a.term == b.term && !a.committed && b.committed ==> Lt(a, b)
  {}

  /** No vote fits between the uncommitted and the committed vote of one leader, other than a rival committed one. */
  lemma NothingBetween(v: Vote, w: Vote)
    requires Lt(v.Uncommitted(), w)
    ensures Le(v.Committed(), w) || (w.term == v.term && w.node != v.node && w.committed)
  {}
}
