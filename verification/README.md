# Raft engine: a verified model

This project models the core of a Raft engine (the crate under `raft/`) in Dafny and proves what its
parts promise over all inputs and all runs. `dafny verify dfyconfig.toml` verifies all of it.

**Quorums and progress.** `Quorum` has majority and joint quorums and the counting loops that decide
them. `Acceptance` defines, by brute force, the greatest value that a quorum of voters has reached.
`Progress` has `VecProgress`, the partly sorted vector that keeps that value incrementally, and proves
it equal to the definition after any run of updates and resets. `Proposer` builds vote counting and the
leader's lease clock on it. A progress value is a lexicographic pair, which covers the three value types
in use: a granted flag, an optional instant, an optional log id.

**Logs.** `LogIds` and `LogIdLists` have the run-length index over the log and prove that it refines a
plain sequence of log ids with a purge point; `GetKeyLogIds` rebuilds it from storage by bisection.

**Membership.** `Memberships` has membership changes with nested batches, the joint step between two
configs, and the rule for appending a membership directly.

**Protocol.** `Votes` has the partial order of votes. `Election`, `Leases` and `Replication` are
multi-node step machines. `Election` covers storage: a grant leaves a node only after its vote is
flushed, a self-vote counts only after it is saved, and so no two candidates win one term. `Leases` covers
time: while a leader's lease is valid, no quorum grants a higher vote. `Replication` covers the log, with
the membership in it: initialization, membership changes, snapshots, purges and restarts. `Completeness`
has its invariant and what follows from it: log matching, one leader per term, and leader completeness,
although elections and commits each go by the membership of a log of their own. `Preservation` proves that
every step keeps the invariant and that committed entries are permanent. In all three machines, messages
may be lost, delayed and repeated, and the theorems are about every run.

None of the machines is safe by standing still. `ElectionProgress` proves that from every state any node can
still win an election, and `LeaseProgress` that after every run any voter can still become leader and hold a
lease. `CommitProgress` proves that after every run a node that is not behind a quorum can still become
leader and commit a new entry, and that a node that is behind a leader can still catch up with it.
`ReplicationSteps` has the single steps for this. `Witnesses` and `GoingBack` have concrete runs.

In `Replication` the vote and the log of a node are the stored ones. A node answers only when its writes
are stored, so a handler is one step, taken at that moment; a crash before it is a run without that step.
A leader sends its own entries before it has stored them, so its log and its stored log are kept apart.
A candidate needs a quorum of the last membership in its own log, and a leader commits by a quorum of the
last membership in its log at that time, committed or not.

**Runtime.** `CommandQueue` has the engine's command queue, the merging of appends and the gating of
responses on I/O; `Apply` the ranges that go to the state machine; `Responders` the client responders;
`Batching` the merging receiver; `Heartbeat` the tick grid and the heartbeat gap; `Hooks` the
leader-change callbacks. `Common` holds shared datatypes.

What the proofs brought out:

- The counting loop of a majority counts items, not ids: one id given twice can pass for a majority
  (`Quorum.RepeatedIdsOvercount`). The loop is right for every config exactly if the ids are distinct
  (`Quorum.CountsRightIffDistinct`), as they are in all calls.
- A membership without configs has every set as a quorum; it is not coherent even with itself
  (`Quorum.SelfCoherentIffDefined`).
- `is_self_quorum` looks at the number of voters only. With an empty config beside its own, a sole voter
  would be taken for a quorum although it is none (`Proposer.EmptyConfigMisleadsSoleVoter`), and in no
  other case (`Proposer.SoleVoterIsQuorumIff`). No leader gets such a membership: each way to a new one
  runs `ensure_valid`, which refuses an empty config (`raft/src/membership/membership_impl.rs:122`, `:437`,
  `raft/src/raft_state/membership_state/mod.rs:162`).
- A response whose I/O is done can stay behind one whose I/O is not. In a queue of one kind of wait this
  can happen exactly when the waits were not pushed in ascending order (`CommandQueue.DrainIsCompleteIff`,
  with an example in `CommandQueue.OutOfOrderWaitStays`).
- The apply range is bounded by the lesser log *id*; that bounds its *index* exactly when both ids can
  be of one log (`Apply.LesserIsLowerIff`). They always are, since what a node has accepted and what it
  knows to be committed are on its leader's log, and so the range is bounded by both indexes
  (`Apply.Applier.NextApply`).
- With heartbeat suppression off, `validate` accepts configs in which a follower waits longer than the
  least election timeout for its next heartbeat (`Heartbeat.UnsuppressedHeartbeatMayBeLate`). Heartbeats
  are in time exactly when the heartbeat interval, rounded up to whole ticks, is below that timeout
  (`Heartbeat.UnsuppressedInTimeIff`, `Heartbeat.UnsuppressedAlwaysInTimeIff`).
- `has_log_id` takes every index below the committed one for granted. That is sound because of leader
  completeness, so `Replication` proves the two together (`Preservation.HasLogIdMeansAgree`).
- An initialized node holds a committed vote of term 0 that nobody granted. In every run, the committed
  votes that two nodes hold in one term are equal exactly if the term is above 0 or it is the same node;
  those of term 0 are never stored, so of the votes that were ever stored, the committed ones of one term
  are equal without exception (`Election.AtMostOneLeaderPerTerm`, with a run in
  `Witnesses.BootstrapVotesDiffer`).
- The comment at `raft/src/core/raft_core.rs:514-516` says why `change_membership`, unlike a direct append,
  does not wait for a commit of the leader's own term: two proposals on one membership share a voter set. They
  do exactly when both have the same target or neither goes back to a config before the last one
  (`Memberships.ChangesShareIff`), so always exactly when the membership is not joint
  (`Memberships.AllChangesShareIff`). If a leader goes back from a committed joint membership while
  another goes ahead, two nodes can commit different entries at one index (`GoingBack.GoingBackLosesACommit`
  is such a run). If no proposal goes back from a joint membership, everything below holds
  (`Preservation.CommittedEntriesArePermanent`).
- A follower commits up to the lesser of two log *ids*, which is the lesser length because of leader
  completeness (`Preservation.LesserIdIsLesserLength`). For the same reason the assertions on an incoming
  snapshot never fail (`Preservation.SnapshotFits`).
- The comments on `ChangeMembers` speak of a missing-learner error; the code returns a node-not-found
  error, and so does the model.

## Model

| member | source | states |
|---|---|---|
| Quorum.IsMajority | raft/src/quorum/quorum_set_impl.rs:13-25 | the early-return counting loop counts positions; for distinct ids it decides whether they are a majority |
| Quorum.IsJointQuorum | raft/src/quorum/quorum_set_impl.rs:40-47 | the joint loop accepts iff the ids are a majority of every config |
| Quorum.RepeatedIdsOvercount | raft/src/quorum/quorum_set_impl.rs:13-25 | a repeated id can be counted into a majority that does not exist |
| Quorum.CountsRightIffDistinct | raft/src/quorum/quorum_set_impl.rs:13-25 | the loop decides the majority question for every config iff the ids are distinct |
| Quorum.Ids | raft/src/membership/membership_impl_quorum_set.rs:29-35 | an id is listed iff some config holds it |
| Quorum.UpwardClosed | raft/src/quorum/quorum_set_impl.rs:40-47 | more nodes keep a quorum a quorum |
| Quorum.QuorumOfVoters | raft/src/quorum/quorum_set_impl.rs:40-47 | only voters matter for being a quorum |
| Quorum.MajoritiesMeet | raft/src/membership/membership_impl.rs:360-366 | majorities of two configs that differ by at most one id overlap |
| Quorum.SharedConfigMeets | raft/src/quorum/coherent_impl.rs:15-25 | joint configs that share a config have intersecting quorums |
| Quorum.SelfCoherentIffDefined | raft/src/membership/membership_impl.rs:281-299 | a joint config is coherent with itself iff it has a config at all |
| Acceptance.QuorumAccepted | raft/src/progress/vec_progress.rs:378-380 | a greatest value reached by a quorum of voters exists |
| Acceptance.GreatestIsUnique | raft/src/progress/vec_progress.rs:378-380 | that value is unique |
| Acceptance.RaiseWithoutCrossing | raft/src/progress/vec_progress.rs:284-334 | an update that does not cross the accepted value needs no recomputation |
| Acceptance.RaiseAcrossIsBounded | raft/src/progress/vec_progress.rs:284-334 | an update that crosses it raises the accepted value at most to the new value |
| Acceptance.RaiseIsMonotone | raft/src/progress/vec_progress.rs:284-334 | raising a voter never lowers the accepted value |
| Progress.AcceptedIsRunningMaximum | raft/src/progress/vec_progress.rs:261-334 | after any run of raises and lowering resets the kept value is the running maximum of the brute-force value |
| Progress.AcceptedIsExactWithoutResets | raft/src/progress/vec_progress.rs:284-334 | without resets it is the brute-force value itself |
| Progress.RaiseKeepsExact | raft/src/progress/vec_progress.rs:284-334 | a raise keeps an exact value exact |
| Progress.SetsOne | raft/src/progress/vec_progress.rs:261-360 | an update or reset changes the progress of one id, if it is tracked, and of no other; only an update may raise the accepted value |
| Progress.FirstQuorum | raft/src/progress/vec_progress.rs:284-334 | the scan finds the first prefix of the descending voters that is a quorum |
| Progress.VecProgress.constructor | raft/src/progress/vec_progress.rs:75-93 | voters first, then learners, all at the default |
| Progress.VecProgress.IndexOf | raft/src/progress/vec_progress.rs:97-99 | finds the entry of an id iff it is tracked |
| Progress.VecProgress.MoveUp | raft/src/progress/vec_progress.rs:104-115 | the swaps restore the descending order and permute nothing else |
| Progress.VecProgress.MoveDown | raft/src/progress/vec_progress.rs:121-130 | the same for a lowered entry |
| Progress.VecProgress.UpdateAt | raft/src/progress/vec_progress.rs:284-334 | the incremental update agrees with the definition, and voters above the accepted value stay a descending prefix |
| Progress.VecProgress.Update | raft/src/progress/vec_progress.rs:339-345 | sets one progress, or reports an unknown id |
| Progress.VecProgress.IncreaseTo | raft/src/progress/vec_progress.rs:350-360 | raises one progress to the greater of old and new |
| Progress.VecProgress.ResetEntry | raft/src/progress/vec_progress.rs:261-282 | a lowering keeps the accepted value and the order |
| Progress.VecProgress.Replace | raft/src/progress/vec_progress.rs:418-433 | a surviving id takes its old progress along |
| Progress.VecProgress.UpgradeQuorumSet | raft/src/progress/vec_progress.rs:397-411 | surviving ids keep their progress, new ones start at the default, and the accepted value is the brute-force one for the new quorum set |
| Proposer.TallyMeansQuorum | raft/src/proposer/candidate.rs:100-114 | the tally accepts "granted" iff the granting voters are a joint quorum |
| Proposer.Candidate.GrantBy | raft/src/proposer/candidate.rs:100-114 | for any sequence of grants with repeats and strangers, true iff the caller is a voter and the distinct grants are a joint quorum |
| Proposer.AckedMeansLease | raft/src/proposer/leader.rs:262-271 | the quorum-acked instant is less than a lease old iff some quorum acked an RPC less than a lease ago |
| Proposer.Leader.constructor | raft/src/proposer/leader.rs:89-152 | a new leader has its own clock acked and no other |
| Proposer.Leader.UpdateClock | raft/src/proposer/leader.rs:207-222 | raises the target's and the leader's clock and returns the instant acked by a quorum |
| Proposer.Leader.IsLeaseValid | raft/src/proposer/leader.rs:262-271 | valid iff the leader is the only voter or a quorum acked less than a lease ago |
| Proposer.Leader.IsSelfQuorum | raft/src/proposer/leader.rs:274-281 | true iff the voters are exactly this leader |
| Proposer.SoleVoterIsQuorum | raft/src/proposer/leader.rs:274-281 | with no empty config, which is what a leader's membership always satisfies, a sole voter is exactly a node that is a quorum of a non-empty joint config by itself |
| Proposer.SoleVoterIsQuorumIff | raft/src/proposer/leader.rs:274-281 | over all joint configs and nodes, being the sole voter tells whether the node is a quorum of a non-empty joint config by itself, except exactly when the node is the sole voter and some config is empty |
| Proposer.EmptyConfigMisleadsSoleVoter | raft/src/proposer/leader.rs:274-281 | a joint config where it does not |
| LogIds.PlainLog.Append | raft/src/engine/log_id_list.rs:222-233 | meaning of an append on the plain log, index by index |
| LogIds.PlainLog.AppendAllGains | raft/src/engine/log_id_list.rs:207-215 | after appending several log ids, each of them is found at its index, the indexes skipped before one belong to its leader, and all earlier ones are as before |
| LogIds.PlainLog.Truncate | raft/src/engine/log_id_list.rs:241-283 | meaning of a truncation on the plain log |
| LogIds.PlainLog.Purge | raft/src/engine/log_id_list.rs:290-323 | meaning of a purge on the plain log, also below the purge point |
| LogIds.PushKeepsIndex | raft/src/engine/log_id_list.rs:57-74 | pushing one key keeps the index exact when a leader's log ids are appended |
| LogIds.CutKeepsIndex | raft/src/engine/log_id_list.rs:258-282 | keeping the keys below and shortening the run across the cut keeps it exact |
| LogIds.DropKeepsIndex | raft/src/engine/log_id_list.rs:306-322 | dropping the purged keys keeps it exact |
| LogIds.IndexIsKeysOf | raft/src/engine/log_id_list.rs:57-74 | a key list is exact iff it is the one got by appending every log id one at a time |
| LogIds.OneKeyPerLeader | raft/src/engine/log_id_list.rs:14-32 | on a log in which no leader comes back, each leader has one key and it is its last log id |
| LogIds.AppendKeepsGroupedIff | raft/src/engine/log_id_list.rs:222-233 | an append keeps a log one in which no leader comes back iff its leader is the last one or new |
| LogIds.CutsKeepGrouped | raft/src/engine/log_id_list.rs:241-323 | truncating and purging always do |
| LogIds.OneKeyPerLeaderOverRuns | raft/src/engine/log_id_list.rs:14-32 | after any run of appends by leaders that never go down, truncations and purges, each leader has one key and it is its last log id |
| LogIds.GetKeyLogIds | raft/src/engine/log_id_list.rs:101-155 | the bisection terminates and returns exactly that key list, or fails only if a read inside the range fails |
| LogIdLists.LogIdList.Append | raft/src/engine/log_id_list.rs:222-233 | refines the append of the plain log |
| LogIdLists.LogIdList.Extend | raft/src/engine/log_id_list.rs:207-215 | for any ids that ascend, consecutive or not: each is found at its index afterwards, the indexes skipped before one belong to its leader, and all earlier ones are as before |
| LogIdLists.LogIdList.ExtendFromSameLeader | raft/src/engine/log_id_list.rs:186-204 | looking at the first and last log id only does the same |
| LogIdLists.LogIdList.Truncate | raft/src/engine/log_id_list.rs:241-283 | refines truncation, also before the purge point and beyond the end |
| LogIdLists.LogIdList.Purge | raft/src/engine/log_id_list.rs:290-323 | refines purging, also beyond the end and below the purge point |
| LogIdLists.LogIdList.RefAt | raft/src/engine/log_id_list.rs:337-381 | agrees with the plain log at every index, purge point included |
| LogIdLists.LogIdList.First | raft/src/engine/log_id_list.rs:387-391 | the first unpurged log id |
| LogIdLists.LogIdList.Last | raft/src/engine/log_id_list.rs:394-396 | the last log id, or the purge point |
| LogIdLists.LogIdList.ByLastLeader | raft/src/engine/log_id_list.rs:416-436 | exactly the maximal suffix of the last leader, and it starts above the purge point when the log has entries |
| LogIdLists.LogIdList.KeysAreCanonical | raft/src/engine/log_id_list.rs:14-32 | after any run the key list is the one determined by the log |
| LogIdLists.LogIdList.OneEntryPerLeader | raft/src/engine/log_id_list.rs:14-32 | the same of the key list kept in place, whenever no leader came back in its log |
| Memberships.TargetHasEffect | raft/src/membership/membership_impl.rs:453-509 | every change, nested batches included, acts on voters and on node ids by a fixed drop-then-add effect |
| Memberships.NodeAfter | raft/src/membership/membership_impl.rs:246-257 | which node an id has after each kind of change: adding keeps a node that is there, setting replaces it |
| Memberships.OtherNodesStay | raft/src/membership/membership_impl.rs:453-509 | a node that no part of a change, nested batches included, sets, removes or replaces stays as it is |
| Memberships.Effect.Again | raft/src/change_members.rs:71-75 | such an effect is idempotent, also when ids were dropped in between |
| Memberships.ComputeTargetMembership | raft/src/membership/membership_impl.rs:453-509 | the loops over maps and batches compute that target |
| Memberships.ExtendNodes | raft/src/membership/membership_impl.rs:246-257 | adds missing nodes and replaces none |
| Memberships.IsCoherentWith | raft/src/quorum/coherent_impl.rs:15-25 | true iff a config is shared, and then all quorums intersect |
| Memberships.FoundIsCoherent | raft/src/quorum/coherent_impl.rs:32-41 | the found config is coherent with both sides, and from it the goal is one step away |
| Memberships.EnsureValid | raft/src/membership/membership_impl.rs:262-279 | no error iff valid; which error says which defect |
| Memberships.EnsureVoterNodes | raft/src/membership/membership_impl.rs:304-312 | reports the least voter without a node |
| Memberships.Change | raft/src/membership/membership_impl.rs:420-440 | a returned membership is valid |
| Memberships.ChangeSucceedsIff | raft/src/membership/membership_impl.rs:420-440 | a change succeeds iff no resulting config is empty and every resulting voter has a node left; otherwise the error says which, the empty config first, and names the least voter without a node; on success configs, node ids and nodes are those of the change |
| Memberships.ChangeGoesToTarget | raft/src/membership/membership_impl.rs:392-440 | a change ends in the target, or in the joint of the last config and the target |
| Memberships.ChangeKeepsQuorumsMeeting | raft/src/membership/membership_impl.rs:392-440 | every quorum before a change meets every quorum after it |
| Memberships.SameChangeTwice | raft/src/change_members.rs:71-75 | if a change succeeds, the same change again succeeds and yields the uniform target |
| Memberships.EmptyChangeFlattens | raft/src/raft/api/management.rs:174-175 | the empty second step succeeds and yields the uniform target |
| Memberships.EnsureQuorumDefined | raft/src/membership/membership_impl.rs:293-299 | true iff there is a config and none is empty |
| Memberships.IsDirectAppendCompatibleWith | raft/src/membership/membership_impl.rs:351-369 | decides the rule for direct appends, and an accepted pair has intersecting quorums |
| Memberships.UniformAppendIff | raft/src/membership/membership_impl.rs:360-366 | uniform memberships can be appended directly iff both have voters, and these are equal or one has exactly one voter more |
| Memberships.DirectAppendIsSymmetric | raft/src/membership/membership_impl.rs:337-350 | the rule is symmetric |
| Memberships.ForwardIff | raft/src/membership/membership_impl.rs:374-392 | a change goes forward iff its target is new or the last config, or the membership is not joint |
| Memberships.ChangesShareIff | raft/src/core/raft_core.rs:514-516 | two changes of one membership share a config iff they have one target or neither goes back to a config before the last |
| Memberships.AllChangesShareIff | raft/src/core/raft_core.rs:514-516 | any two changes of a membership share a config iff all its configs are equal |
| Memberships.ProposalsMeet | raft/src/core/raft_core.rs:503-516 | if neither goes back from a joint membership, a change and any other proposal on the same membership have intersecting quorums |
| Votes.VotesArePartiallyOrdered | raft/src/vote/ref_vote.rs:44-66 | the comparison is a partial order in which a later term and, in one term, a committed vote are greater; and it says exactly which votes are incomparable |
| Votes.NothingBetween | raft/src/engine/engine_impl.rs:166-175 | only a rival committed vote of the same term fits above an uncommitted vote without being above its committed form |
| Election.FlushedMeansSaved | raft/src/core/raft_core.rs:1584-1601 | a reply gated on the flush of its vote leaves only after that vote was durable |
| Election.AboveMemoryIsAboveStorage | raft/src/engine/engine_impl.rs:160-182 | after a demotion at startup, every accepted vote is still above the stored one |
| Election.UpdateVoteKeeps | raft/src/engine/handler/vote_handler/mod.rs:103-158 | accepting a vote keeps the storage, origin and promise invariants of a node |
| Election.InitializeKeeps | raft/src/engine/engine_impl.rs:212-233 | the committed vote of term 0 that initialization puts in memory, unsaved, keeps the cluster invariant |
| Election.CampaignKeeps | raft/src/engine/engine_impl.rs:247-284 | so does starting a campaign |
| Election.RequestKeeps | raft/src/engine/engine_impl.rs:364-421 | so does handling a vote request, granted or refused |
| Election.RunCommandKeeps | raft/src/core/raft_core.rs:2384-2415 | saving a vote and sending a campaign keep the cluster invariant; a self-vote is counted only once saved |
| Election.VoteReplyKeeps | raft/src/engine/engine_impl.rs:501-537 | counting, winning and being rejected keep the cluster invariant |
| Election.RebootKeeps | raft/src/engine/engine_impl.rs:140-198 | a restart to the durable vote, with or without demotion, keeps it |
| Election.OneWinner | raft/src/engine/engine_impl.rs:501-537 | two campaigns of one term that quorums granted are the same |
| Election.AtMostOneLeaderPerTerm | raft/src/vote/ref_vote.rs:53-61 | in every run with initialization, loss, delay, duplication and restarts: no two votes of one term both win; the committed votes that two nodes hold in one term are equal iff the term is above 0 or the node is the same; all committed votes of one term that were ever stored are equal |
| Election.StoredVoteOnlyRises | raft/src/engine/engine_impl.rs:166-175 | in every run the stored vote never goes back |
| ElectionProgress.QueueRuns | raft/src/core/raft_core.rs:2384-2415 | a node can run all it has queued; then every queued vote was saved, and every message of a queued command was sent |
| ElectionProgress.VoterGrants | raft/src/engine/engine_impl.rs:364-421 | a node with earlier votes can grant a request, and its grant leaves it once the vote is saved and flushed |
| ElectionProgress.ElectionCanSucceed | raft/src/engine/engine_impl.rs:247-284 | from every state, whatever is stored, queued or on its way, any node can win with a vote above all others, if a quorum exists |
| ElectionProgress.RequestIsAnswered | raft/src/engine/engine_impl.rs:364-421 | a request is answered with the node's vote, granted iff it is not refused and the vote is at least the local one |
| ElectionProgress.CandidateCatchesUp | raft/src/engine/engine_impl.rs:501-537 | what a node with a vote of a later term answers makes a candidate give up its campaign and take over that term, so that its next campaign is above it |
| ElectionProgress.RestartKeepsStored | raft/src/engine/engine_impl.rs:140-198 | a node can restart at any time; that keeps what was stored and nothing else, and a former leader leads again only if that is enabled |
| Leases.LeasedVote.Update | raft/src/utime.rs:127-132 | sets value, time and lease and enables the lease |
| Leases.LeasedVote.Touch | raft/src/utime.rs:151-163 | moves the time; a disabled lease stays zero |
| Leases.LeasedVote.DisableLease | raft/src/utime.rs:136-139 | the lease is zero from now on |
| Leases.LeasedVote.IsExpired | raft/src/utime.rs:143-148 | expired iff never updated or strictly past time, lease and timeout |
| Leases.LeasedVote.Accept | raft/src/engine/handler/vote_handler/mod.rs:103-158 | accepts iff at least the local vote; a candidate's vote comes without a lease, so it is expired exactly one timeout later, and a leader's with the configured lease unless leases were disabled for it; and it does what the cluster model's step does |
| Leases.AckedDidNotGrant | raft/src/engine/engine_impl.rs:478-494 | a node that acked a leader within a lease granted no higher vote before a later leader was established |
| Leases.NoLaterLeader | raft/src/proposer/leader.rs:262-271 | while a quorum's acks are recent, no later leader is established |
| Leases.ValidLeaseExcludes | raft/src/proposer/leader.rs:262-271 | in every state with the invariant a valid lease excludes a quorum of grants for a higher vote |
| Leases.VoteRequestKeeps | raft/src/engine/engine_impl.rs:376-421 | a vote request, refused under a lease or granted, keeps the invariant |
| Leases.InitializeKeeps | raft/src/engine/engine_impl.rs:212-233 | so does initialization |
| Leases.ElectKeeps | raft/src/core/raft_core.rs:2143-2159 | so does a timer-driven election |
| Leases.DeliverKeeps | raft/src/engine/engine_impl.rs:639-655 | so does accepting a leader's RPC and acking it |
| Leases.HandleAckKeeps | raft/src/proposer/leader.rs:207-222 | so does counting an ack |
| Leases.LeaseExclusion | raft/src/engine/time_state.rs:18-28 | in every run, while a leader's lease is valid no higher vote is granted by a quorum and no node holds it as committed |
| LeaseProgress.LeaseEnds | raft/src/proposer/leader.rs:262-271 | a lease length from now on, no leader's lease is valid without further acks |
| LeaseProgress.FirstClockAcks | raft/src/proposer/leader.rs:89-152 | a new leader alone has acknowledged, from the moment it leads |
| LeaseProgress.RaiseAcks | raft/src/proposer/leader.rs:207-222 | an ack adds its node to those that acknowledged since any instant up to it, and takes nobody away |
| LeaseProgress.AckKeepsLease | raft/src/proposer/leader.rs:207-222 | counting an ack never ends a valid lease |
| LeaseProgress.OwnVoteKeepsRole | raft/src/engine/handler/vote_handler/mod.rs:161-200 | a node keeps its campaign and leadership when its own vote is confirmed, and gives both up for another node's |
| LeaseProgress.LeaseCanAlwaysBeHeld | raft/src/proposer/leader.rs:262-271 | with two or more voters and after every run, any voter that does not lead can become leader and hold a valid lease, if a quorum exists |
| Replication.FirstConflict | raft/src/raft_state/mod.rs:365-382 | the first entry of the leader that the follower does not have |
| Completeness.LogMatching | raft/src/engine/handler/following_handler/mod.rs:119-139 | logs with an entry of one term at one index agree up to it, the initial entry included |
| Completeness.ConfigHistory | raft/src/raft_state/membership_state/mod.rs:130-200 | every membership in a log but the first was proposed by the leader of its term on one that was committed before |
| Completeness.SiblingsMeet | raft/src/core/raft_core.rs:503-534 | two memberships proposed on the same one, by leaders whose commits the other log has, have intersecting quorums |
| Completeness.LastConfigsMeet | raft/src/engine/handler/leader_handler/mod.rs:113-118 | two logs, each with the parent of the other's last membership, have effective memberships with intersecting quorums |
| Completeness.CommitMeetsElection | raft/src/engine/handler/leader_handler/mod.rs:113-118 | a quorum that committed and a quorum that elected later intersect, each of its own membership, or the candidate has the commit anyway |
| Preservation.CommittedIsInLeader | raft/src/engine/handler/following_handler/mod.rs:60-139 | what a node knows to be committed is in the log of every leader it follows |
| Preservation.HasLogIdMeansAgree | raft/src/raft_state/log_state_reader.rs:29-41 | an entry the follower has, by id or by being below its committed index, stands for the whole log before it |
| Preservation.AppendedLogAgrees | raft/src/engine/handler/following_handler/mod.rs:60-139 | an append never drops what agreed with the leader; a consecutive one leaves a log alone that has its entries and otherwise gives the leader's log up to its end; any other one cuts the log before the entry that does not match |
| Preservation.SnapshotLogAgrees | raft/src/engine/handler/following_handler/mod.rs:249-340 | a snapshot leaves a log alone that has the leader's entries up to its end, and otherwise replaces it by them |
| Preservation.SnapshotFits | raft/src/engine/handler/following_handler/mod.rs:257-295 | the assertions on an incoming snapshot hold: its last entry is of no later term than the leader's, and its log id is behind the committed one iff it is not longer |
| Completeness.CandidateHasCommitted | raft/src/engine/engine_impl.rs:388-407 | a candidate that is not behind a voter holding the committed entries holds them too |
| Completeness.LeaderCompleteness | raft/src/engine/handler/replication_handler/mod.rs:241-273 | a candidate elected by its own membership, and so every leader, has everything committed in earlier terms, whatever the memberships were |
| Completeness.ElectionsMeet | raft/src/engine/engine_impl.rs:104-116 | two elected candidates of one term have memberships with intersecting quorums, which `Election` takes as given |
| Completeness.TermIsNew | raft/src/engine/engine_impl.rs:911-946 | a campaign with a quorum of grants is the first of its term to win |
| Preservation.InitializeKeeps | raft/src/engine/engine_impl.rs:212-233 | writing the initial entry, on any number of nodes, keeps the invariant |
| Preservation.WinKeeps | raft/src/engine/engine_impl.rs:911-946 | so does establishing a leader, whose committed vote is not stored yet |
| Preservation.SaveCommittedKeeps | raft/src/core/raft_core.rs:2384-2404 | so does storing that vote |
| Preservation.GrantVoteKeeps | raft/src/engine/engine_impl.rs:388-421 | so does granting a vote to a candidate that is not behind |
| Preservation.ProposeKeeps | raft/src/engine/handler/leader_handler/mod.rs:76-119 | so does a leader's append, sent out before it is stored |
| Preservation.ChangeMembershipKeeps | raft/src/core/raft_core.rs:411-447 | so does a change of the membership that does not go back from a joint one |
| Preservation.AppendMembershipKeeps | raft/src/core/raft_core.rs:457-501 | so does a membership appended directly, after a commit of the leader's own term |
| Preservation.LocalFlushKeeps | raft/src/engine/handler/replication_handler/mod.rs:523-558 | so does storing any part of it and counting it for the leader |
| Preservation.AppendKeeps | raft/src/engine/engine_impl.rs:639-655 | so does a follower's append, truncation or rejection |
| Preservation.InstallSnapshotKeeps | raft/src/engine/engine_impl.rs:658-689 | so does installing a snapshot, in place of the log or in front of it, or skipping one that is not newer |
| Preservation.PurgeKeeps | raft/src/engine/handler/log_handler/mod.rs:46-64 | so does purging committed entries |
| Preservation.RestartKeeps | raft/src/engine/engine_impl.rs:140-198 | so does a restart, from the stored vote and log and any part of the known commit down to the purge point |
| Preservation.RestartIsEnabled | raft/src/engine/engine_impl.rs:140-198 | in every state each node can restart with its purge point as its commit |
| Preservation.LeaderCommitKeeps | raft/src/engine/handler/replication_handler/mod.rs:241-273 | so does committing an entry of the leader's own term by a quorum of its effective membership |
| Preservation.LesserIdIsLesserLength | raft/src/raft_state/io_state.rs:258-282 | the lesser log id of what a follower accepted and what its cluster committed stands for the lesser length |
| Preservation.FollowerCommitKeeps | raft/src/raft_state/io_state.rs:258-282 | a follower's commit up to the lesser of these log ids keeps the invariant |
| Preservation.PurgeAchieves | raft/src/engine/handler/log_handler/mod.rs:46-64 | a node can purge all that it has stored and knows to be committed, and nothing but the purge point changes |
| Preservation.SnapshotAchieves | raft/src/engine/handler/following_handler/mod.rs:249-340 | a snapshot raises the follower's commit to its end, purges the log up to there if the commit was behind it, and leaves a log that agrees with the leader's and is acknowledged up to there |
| Preservation.FollowerCommitAchieves | raft/src/raft_state/io_state.rs:258-282 | a follower commits all of the cluster's commit that it has acknowledged, and never less than before |
| Preservation.LeaderCommitAchieves | raft/src/engine/handler/replication_handler/mod.rs:241-273 | a leader's commit is the greater of the old and the new one |
| Preservation.FollowerCatchesUp | raft/src/engine/engine_impl.rs:639-655 | one append of the leader's whole log makes any follower agree with all of it, whatever its own log was |
| Preservation.FollowerCommitsAll | raft/src/raft_state/io_state.rs:258-282 | and then it can commit everything that the leader has committed |
| Preservation.CommittedEntriesArePermanent | raft/src/raft_state/io_state.rs:265-274 | in every run with initialization, elections, membership changes that do not go back from a joint one, appends, snapshots, purges and restarts, an entry that any node knew to be committed is the one every node ever has committed at that index |
| Preservation.LaterLeadersHaveCommitted | raft/src/raft_state/io_state.rs:265-274 | in every such run it is in the log of every later leader |
| CommitProgress.CommitCanSucceed | raft/src/engine/handler/replication_handler/mod.rs:241-273 | after every run that goes forward, a node whose stored log is not behind those of a quorum of its own membership can become leader and commit its log with a new entry, stored by that quorum |
| CommitProgress.NodeStepsDown | raft/src/engine/handler/vote_handler/mod.rs:103-170 | a node that is not ahead of a leader's vote can come to follow it, even if it still leads itself: it stores its vote and log first |
| CommitProgress.NodeCanCatchUp | raft/src/engine/handler/following_handler/mod.rs:60-139 | after every run that goes forward, a node that is not ahead of a leader's vote can get all of that leader's log, whatever it has stored, and learns all that the leader has committed |
| Witnesses.AVoteWins | raft/src/engine/engine_impl.rs:501-537 | a run of the election machine with two voters and a winner |
| Witnesses.BootstrapVotesDiffer | raft/src/engine/engine_impl.rs:212-233 | a run in which two initialized nodes hold different committed votes of term 0 |
| Witnesses.ALeaseIsHeld | raft/src/proposer/leader.rs:262-271 | some run of the lease machine with two voters has a valid lease |
| GoingBack.AMembershipGetsCommitted | raft/src/core/raft_core.rs:411-447 | a run in which a leader is elected, commits an entry, sends a snapshot, and changes the membership to a joint one that is committed, also on the new voter |
| GoingBack.GoingBackLosesACommit | raft/src/core/raft_core.rs:514-516 | a run that goes back from a joint membership once, in which two nodes have committed different entries at one index |
| CommandQueue.IOIdsArePartiallyOrdered | raft/src/raft_state/io_state/io_id.rs:51-63 | I/O ids are partially ordered, so waiting is monotone |
| CommandQueue.MetOnOneLogIff | raft/src/engine/command.rs:393-425 | on one log, a wait for log I/O of a leader or for a snapshot is met iff what is flushed is at least at its index |
| CommandQueue.MetByOtherLeaderIff | raft/src/engine/command.rs:393-425 | nothing flushed meets nothing; log I/O of another leader meets a wait iff that leader's vote is greater |
| CommandQueue.EngineOutput.Push | raft/src/engine/engine_output.rs:58-61 | a pushed command goes to the end; conservation, accounting and gating are kept |
| CommandQueue.EngineOutput.MergeFrontAppendEntries | raft/src/engine/command_scheduler.rs:42-89 | appends of one leader at the front become one append of their entries in order, as many as fit into the limit; everything else stays as it is |
| CommandQueue.EngineOutput.PostponeRespond | raft/src/engine/engine_output.rs:74-105 | a response is set aside in the queue of its condition, with that condition |
| CommandQueue.EngineOutput.Execute | raft/src/core/raft_core.rs:2644-2660 | a command runs only with its condition met: a response is sent with the condition it was pushed with, any other command is executed, or taken out as failed if storage fails |
| CommandQueue.EngineOutput.DrainLogIO | raft/src/engine/pending_responds.rs:51-117 | exactly the satisfied front of the log queue is sent, in order |
| CommandQueue.EngineOutput.DrainSnapshot | raft/src/engine/pending_responds.rs:51-127 | the same for the snapshot queue |
| CommandQueue.EngineOutput.SendSatisfiedResponds | raft/src/core/raft_core.rs:1210-1235 | both queues are drained, log first |
| CommandQueue.EngineOutput.RunEngineCommands | raft/src/core/raft_core.rs:1128-1184 | executed, failed and queued work is the pushed work in order; every response, with the condition it was pushed with, is in one place, and none was sent before that was met; a purge ran only with a snapshot at least as far; a storage error ends the run right after the one command that failed; without one, what is left is headed by a purge or a progress update that waits for I/O not done, and with ascending waits no satisfied response is left |
| CommandQueue.DrainIsCompleteIff | raft/src/engine/pending_responds.rs:51-65 | drains of a queue of one kind leave no satisfied response, whatever I/O is done, iff its waits were pushed in ascending order |
| CommandQueue.AscendingDrainsCompletely | raft/src/engine/pending_responds.rs:51-65 | ascending waits are drained completely |
| CommandQueue.OutOfOrderWaitStays | raft/src/engine/pending_responds.rs:51-65 | a queue where that fails |
| CommandQueue.EachResponseIsInOnePlace | raft/src/engine/command.rs:336-360 | a response with a condition is sent, waiting or queued as often as it was pushed with that condition, and if it was sent the condition was met |
| CommandQueue.UnitsAreWork | raft/src/engine/command_scheduler.rs:42-89 | the units of work that are conserved are the other commands themselves and the entries of all appends in order, each with its leader's vote |
| CommandQueue.SentAtMostOnce | raft/src/core/raft_core.rs:1210-1235 | a response pushed once with its condition is either sent once, or waiting, or queued |
| Apply.LesserIsLowerIff | raft/src/engine/engine_impl.rs:884-889 | the lesser log id is at the lesser index iff both can be of one log |
| Apply.CommittedIsOnLeaderLog | raft/src/engine/handler/following_handler/mod.rs:60-139 | in every run, what a node knows to be committed is on the log of each leader it may follow |
| Apply.LeaderLogGoesOn | raft/src/engine/handler/leader_handler/mod.rs:76-119 | in every run, the log of a leader goes on from what it was before |
| Apply.Applier.NextApply | raft/src/engine/engine_impl.rs:858-901 | a range is offered iff the submitted log is of the leader accepted last and both the committed and the submitted log go beyond what was applied; it starts at the next index and ends at the lesser of the two, by id and by index |
| Apply.Applier.RunProgressDriven | raft/src/core/raft_core.rs:1187-1204 | the loop terminates, emits at most one range, right after the last event, and leaves nothing to apply |
| Apply.Applier.Commit | raft/src/raft_state/mod.rs:317-323 | only a greater commit counts |
| Apply.Applier.AcceptLog | raft/src/raft_state/mod.rs:238-265 | accepted log I/O only rises, older I/O of the same leader changes nothing, and what is committed stays on the leader's log |
| Apply.Applier.SubmitLog | raft/src/raft_state/io_state/io_progress.rs:106-114 | what is submitted was accepted |
| Apply.Applier.InstallSnapshot | raft/src/core/raft_core.rs:2608-2622 | a snapshot moves the applied point forward |
| Apply.AppliedAtMostOnce | raft/src/core/raft_core.rs:2475-2496 | over a run every range lies above all before it |
| Apply.NoIndexIsSkipped | raft/src/core/raft_core.rs:2475-2496 | over a run every index below the end was applied or covered by a snapshot |
| Responders.LeaderLogIdsIter.Next | raft/src/engine/leader_log_ids_iter.rs:49-57 | hands out the first remaining log id |
| Responders.LeaderLogIdsIter.NextBack | raft/src/engine/leader_log_ids_iter.rs:69-79 | hands out the last remaining log id |
| Responders.Present | raft/src/core/raft_core.rs:595-601 | the responders of exactly the entries that have one, in order |
| Responders.ClientWrites.Refuse | raft/src/core/raft_core.rs:595-601 | all responders of a refused batch are answered, once and in order |
| Responders.ClientWrites.WriteEntries | raft/src/core/raft_core.rs:580-620 | a node that leads has no truncation queued; it gives consecutive log ids, and each responder is queued at its entry's index; without a leader all responders are refused; either way every responder ever handed in was refused or queued once |
| Responders.AssignedAtOwnIndex | raft/src/proposer/leader.rs:184-204 | a responder waits at an index iff it is the one of the entry there |
| Responders.ClientWrites.Elect | raft/src/engine/engine_impl.rs:247-284 | a campaign queues its vote to be saved, behind everything queued before |
| Responders.ClientWrites.RunSaveVote | raft/src/core/raft_core.rs:2384-2415 | only the save of its own vote lets a campaign win, and then no truncation is queued any more |
| Responders.ClientWrites.DrainUpto | raft/src/core/client_responder_queue.rs:61-66 | removes exactly the responders up to an index |
| Responders.ClientWrites.DrainFrom | raft/src/core/client_responder_queue.rs:72-79 | removes exactly the responders from an index on |
| Responders.ClientWrites.ApplyUpto | raft/src/core/raft_core.rs:1018-1033 | applied responders are completed once, at their own index |
| Responders.ClientWrites.TruncateFrom | raft/src/engine/handler/following_handler/mod.rs:169-188 | the engine's log is cut at once, while the responders above the cut wait for the queued truncation |
| Responders.ClientWrites.RunTruncate | raft/src/core/raft_core.rs:2452-2472 | the queued truncation completes exactly those, once, before their indexes are used again |
| Responders.ClientWrites.PurgeUpto | raft/src/core/raft_core.rs:2429-2449 | purged responders are completed once |
| Batching.BatchReceiver.EnsureBuffered | raft/src/core/merged_raft_msg_receiver.rs:93-102 | after any wait a message is buffered, or the channel is empty and open, or it is empty and closed; nothing is lost or reordered |
| Batching.UnitsAreWrites | raft/src/core/merged_raft_msg_receiver.rs:194-240 | the units of the stream are the payloads, each with the responder at its place and the expected leader, and the other messages |
| Batching.BatchReceiver.TryRecv | raft/src/core/merged_raft_msg_receiver.rs:111-121 | delivered, held and queued messages, flattened, are the sent stream in order; a message is lost iff the channel is disconnected in the middle of a merge |
| Batching.BatchReceiver.MergeClientWrites | raft/src/core/merged_raft_msg_receiver.rs:194-240 | one leader per batch, at most `capacity` messages, and merging stops only at a limit, a foreign message, a timeout or a disconnect |
| Heartbeat.NextDeadline | raft/src/core/tick.rs:134-137 | the next deadline is on the grid, after the wake and at most one step later |
| Heartbeat.DeadlineIsFirstAfterWake | raft/src/core/tick.rs:127-137 | it is the first grid point after the wake |
| Heartbeat.TickLoop | raft/src/core/tick.rs:102-153 | every deadline is on the grid, however late the wakes are |
| Heartbeat.Config.TickInterval | raft/src/config/config_impl.rs:561-564 | 13/64 of the heartbeat interval rounded down, and at least 1 |
| Heartbeat.Config.Validate | raft/src/config/config_impl.rs:567-608 | accepted iff the timeouts are apart, the gap bound holds when suppression is on, and the other settings are usable; the error names a check that fails |
| Heartbeat.HeartbeatTimer.HandleTick | raft/src/core/raft_core.rs:1989-2011 | when the timer is due it is set anew, and a follower gets a heartbeat iff it acked no RPC sent less than the least interval ago; before that nothing happens |
| Heartbeat.NextHeartbeatIsInTime | raft/src/proposer/leader.rs:294-305 | with a validated config and suppression on, the next heartbeat comes less than the least election timeout after the last acked RPC |
| Heartbeat.NextHeartbeatIs | raft/src/core/raft_core.rs:1989-2011 | after a tick that sent heartbeats, the next one that does is exactly the interval, rounded up to ticks, later |
| Heartbeat.UnsuppressedHeartbeatMayBeLate | raft/src/config/config_impl.rs:584-598 | a validated config without suppression where it does not |
| Heartbeat.UnsuppressedInTimeIff | raft/src/config/config_impl.rs:584-598 | without suppression, from any start and any tick that sent heartbeats, the next one is less than that timeout later iff the interval rounded up to ticks is below it |
| Heartbeat.UnsuppressedAlwaysInTimeIff | raft/src/config/config_impl.rs:584-598 | heartbeats of a config are always in time iff the same holds |
| Hooks.LeaderHooks.Observe | raft/src/raft/mod.rs:1746-1778 | calls alternate start and stop, each stop carries the id of its start, a re-election stops before it starts, and the open leadership is the last own committed vote since any foreign vote |
| Hooks.CurrentIsOpenIff | raft/src/raft/mod.rs:1746-1778 | a leadership is on iff it is that of the last own committed vote and no other node's vote came since |

## Left out

- The multi-node machines (`Election`, `Leases`, `Replication`) model the engine's handlers on values, one whole handler per step; update in place inside a handler is not modelled there.
- `Election` lets a campaign use any quorum set from a family that is pairwise coherent per term; that the memberships in logs give such a family is proved in `Completeness.ElectionsMeet`, on a machine without queued saves.
- `Leases` excludes, as the source's lease promise does, restarts, forced elections, leadership transfer and pre-vote; clock drift between nodes is not modelled.
- Preservation.CommittedEntriesArePermanent: assumes that no proposal goes back from a joint membership, since without that it fails (`GoingBack.GoingBackLosesACommit`); not every run that goes back loses a commit, and which ones do is not characterised.
- Preservation.RestartKeeps: a restarted leader follows; restoring it as leader at once (`enable_leader_restore`) is not modelled.
- Preservation.InstallSnapshotKeeps: takes the truncation and the installation of one snapshot as one write, so a crash between the two is not modelled.
- `Replication` leaves out a commit that a follower knew of entries it had not stored when it crashed, and node metadata and learners, which no quorum depends on.
- Leases.DeliverKeeps: the log checks of an append are left out, since only the accepted vote matters for a lease.
- Payloads carried by progress entries and the statistics kept beside them, because they do not affect the order.
- `VecProgress::iter_mut_without_reorder` and `EngineOutput::prepend_command`, which step outside the invariants on purpose.
- The quorum set over slices, whose size changes with repeated ids, and the load balancer: only easy bounds.
- The choice of the blank entry's log id by a new leader, server-state bookkeeping and rebuilding of replication streams.
- Pending linearizable reads, metrics, errors and display code, storage and network traits, transport, async runtime and shutdown.
- Overflow of 64-bit integers: indexes, terms and times are natural numbers.
- Heartbeat.NextHeartbeatIsInTime: ticks are handled on the grid without delay; a stalled runtime is not modelled there.
- CommandQueue.EngineOutput.RunEngineCommands: the I/O state is fixed during one call, since flush notifications are handled between calls.
