/** The theorems on elections and leases are not vacuous: runs of two voters with a winner and with a valid lease. */
module Witnesses {
  import opened Quorum
  import opened Votes
  import Election
  import ElectionProgress
  import Leases
  import LeaseProgress

  const TWO: Joint := [{1, 2}]

  lemma TwoVoters()
    ensures Ids(TWO) == {1, 2} && |Ids(TWO)| == 2 && Coherent(TWO, TWO)
    ensures IsQuorum(TWO, {1, 2}) && !IsQuorum(TWO, {1})
  {
    var c := {1, 2};
    assert TWO[0] == c && |c| == 2 && c * {1, 2} == c && c * {1} == {1};
    assert Majority(TWO[0], {1, 2}) && !Majority(TWO[0], {1});
    SharedConfigMeets(TWO, TWO, 0, 0);
  }

  // ---- Elections ----

  const VOTERS := Election.State(map[1 := Election.FRESH, 2 := Election.FRESH], {}, map[])

  /** Every campaign is run for the two voters. */
  const FITS: (nat, Joint) -> bool := (t, joint) => joint == TWO

  /** Node 1 wins with its own vote and that of node 2. */
  lemma AVoteWins() returns (steps: seq<Election.Step>, v: Vote)
    ensures Election.CoherentPerTerm(FITS) && Election.Init(VOTERS) && Election.IsRun(VOTERS, FITS, steps)
    ensures v.node == 1 && v in Election.Run(VOTERS, FITS, steps).won
  {
    TwoVoters();
    hide IsQuorum;
    steps, v := ElectionProgress.ElectionCanSucceed(VOTERS, FITS, 1, TWO, {1, 2});
  }

  /** Two nodes that are both initialized hold different committed votes of term 0. */
  lemma BootstrapVotesDiffer() returns (steps: seq<Election.Step>)
    ensures Election.Init(VOTERS) && Election.IsRun(VOTERS, FITS, steps)
    ensures var t := Election.Run(VOTERS, FITS, steps);
            && 1 in t.nodes && 2 in t.nodes && t.nodes[1].vote.committed && t.nodes[2].vote.committed
            && t.nodes[1].vote.term == t.nodes[2].vote.term && t.nodes[1].vote != t.nodes[2].vote
  {
    hide ElectionProgress.Reaches;
    var s := Election.Apply(VOTERS, Election.Initialize(1));
    ElectionProgress.StepReaches(VOTERS, FITS, Election.Initialize(1));
    var t := Election.Apply(s, Election.Initialize(2));
    ElectionProgress.StepReaches(s, FITS, Election.Initialize(2));
    ElectionProgress.ReachesOn(VOTERS, FITS, s, t);
    steps := ElectionProgress.StepsTo(VOTERS, FITS, t);
  }

  // ---- Leases ----

  const LEASED: Leases.Config := Leases.Config(TWO, 10)

  const FOLLOWERS :=
    Leases.State(0, map[1 := Leases.FRESH, 2 := Leases.FRESH], {}, {}, map[], [], [])

  /** Node 1 of two voters becomes leader and holds a lease. */
  lemma ALeaseIsHeld() returns (steps: seq<Leases.Step>)
    ensures 2 <= |Ids(LEASED.joint)| && Leases.Init(FOLLOWERS) && Leases.IsRun(LEASED, FOLLOWERS, steps)
    ensures var t := Leases.Run(LEASED, FOLLOWERS, steps);
            1 in t.nodes && Leases.LeaderLeaseValid(LEASED, 1, t.nodes[1], t.now)
  {
    TwoVoters();
    hide IsQuorum;
    steps := LeaseProgress.LeaseCanAlwaysBeHeld(LEASED, FOLLOWERS, [], 1, {1, 2});
  }
}
