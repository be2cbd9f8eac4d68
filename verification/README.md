# Verified model of go-f3

go-f3 is the Go implementation of F3, the fast finality protocol of Filecoin (FIP-0086). Participants
hold storage power, run a sequence of GossiPBFT instances, and each instance finalizes a chain of
tipsets. This project models the logic that makes a finality certificate trustworthy and proves what
that logic is for:

* **One instance, all participants.** `Network` is a state machine of honest participants and an
  adversary that delivers any valid message, in any order and any number of times, and sounds any
  alarm at any time. The Byzantine actors hold less than a third of the scaled power. In every
  reachable state two decisions agree, a decision was legitimately proposed, every message sent is
  valid for the others, no participant has panicked, and (round, phase) never goes back. Every
  message that the validator accepts is valid in this sense, and it accepts what the honest send.
* **What every event leads to.** `Responses` says in terms of power heard, evidence held and messages
  sent what a start, a delivery and an alarm must lead to, and `Conformance` shows that each step of
  every run does just that. So a late COMMIT decides, a phase ends at its timeout once two thirds of
  the power were heard, a DECIDE is followed, and a round is skipped to only after somebody honest. With a
  common input and a strong quorum of honest power, every synchronous run votes for that input only,
  has decided it once all messages are delivered, and can always go on to there.
* **The code refines that machine.** `GpbftInstance` is the mutable object with its incremental
  tallies, justification maps, convergence state and round table. Each of its methods is proved equal
  to the corresponding step for some clock reading and some map iteration order.
* **From a decision to a certificate.** A decision of a reachable state yields a certificate that the
  validator accepts, that the store appends, and that moves the power table to the next one. Power
  table diffs are canonical, and the certificate chain validator is associative in its input. Two
  certificates that are accepted for an instance agree with each other and with every decision.
* **What survives a crash.** The certificate store agrees with a replay of its history after any
  sequence of partial writes and reopenings. Snapshots import to what was exported. A node that
  restarts from its write-ahead log does not publish a second signature, with an exact account, file
  by file, of when a signature is final, and of when the equivocation filter lets a second one
  through.
* **Optimisations change nothing.** Two-stage validation with stripped chains, the validation cache,
  the memoized batch Merkle tree, and the first-quorum signer selection are each equal to their
  simple form.

## How the system is modelled

* Go panics set a `panicked` flag; `Safety.NoPanic` shows that it is never set.
* The clock and the order of map iteration are an `Env` argument. The theorems hold for all of them,
  and the imperative methods return the one that they realised as a ghost result.
* A tally is the first vote of each sender. The incremental `QuorumState` is proved against it.
* Inside an instance a chain is its own map key; `ChainKeys.KeyInjective` shows that the Merkle key
  of the code separates exactly the same chains.
* Hashes are free constructors, so that collisions do not occur. A signature verifies if its actor is
  Byzantine or has signed that very payload. Codecs are injective functions.
* Ticket quality is an arbitrary rank; only the comparison of ranks matters to the protocol.
* Rounds and instances are natural numbers. The one place where the width shows is modelled: the
  largest round doubles as the wildcard of the justification rules (`Validators`). It is a parameter
  of `Network`, which delivers such messages too; a participant that is itself in the wildcard round
  takes no further step.
* A write that fails is a parameter: how many datastore writes succeed, and whether a log record is
  complete, written but not synced, cut short or not written at all.

Where the documentation in the code and the code differ, the model follows the code:

* `merkle/merkle.go` speaks of proofs for an index in the tree, but `VerifyProof` looks only at the
  low bits of the index, so that each leaf has a negative index that is accepted
  (`Merkle.IndexAcceptedExactly`), and it refuses trees of more than 31 levels
  (`Merkle.ProofsVerify`).
* `gpbft/validator.go` takes the largest round as "any round", so that a COMMIT of that round accepts
  evidence of every round (`Validators.LastRoundExactly`). `Validators.AcceptedExactly` gives the
  rules for all rounds. `Admission.AcceptedIsValid` shows that these are the only messages which
  ideal rules would refuse, and the protocol's theorems cover them too, as long as no honest
  participant moves in the largest round itself (`Admission.AcceptedIsDelivered`).
* `equivocation.go` means to stop a node from publishing two signatures in a slot, but it lets them
  through when another node's message was seen there first and the local node is the lowest origin
  (`Equivocation.TwoSignaturesExactly`, `Hosts.TakenSlotPublishesTwo`).
* `host.go` publishes a message also when it could not be appended to the write-ahead log, and
  `internal/writeaheadlog/wal.go` goes on appending behind a record that was cut short, where nothing
  can be read any more. A restart then forgets the signature (`Hosts.LostSlotPublishesTwo`).
  `Hosts.FinalExactly` and `WriteAheadLogs.WriteAheadLog.Append` give the exact conditions.
* `Purge` in `internal/writeaheadlog/wal.go` is to remove only files whose entries are all older than
  the epoch. A record that was written but not synced is readable and not counted in its file's
  largest epoch, so that its file may go too early, unless a record of the same or a later instance
  was then synced into the file (`Hosts.SyncSealsEarlier`). `WriteAheadLogs.PurgeRemovesExactly` says when a purge removes too
  much, and `WriteAheadLogs.SurvivesExactly` which entries no purge takes.
* `hasWeakQuorum` in `gpbft/gpbft.go` is to be true for more than a third of the power, but asks for more
  than a third rounded up: two of four equal actors are not enough (`Quorums.WeakQuorumMeaning`).
* `addCandidatePrefixes` in `gpbft/gpbft.go` adds, despite its name, only the longest prefix that is
  missing (`GpbftInstances.ExpandCandidates`).
* `certs/certs.go` returns an empty power table for an empty list of certificates
  (`Certificates.ValidateFinalityCertificates`).

## Files

| files | content |
|---|---|
| basics, weights, power, tally, messages | chains, power tables, quorums, the message rules |
| instance, evidence, steps, progress, network, synchrony | the step functions, their invariant, the protocol theorems |
| response, conformance, progression | what each event must lead to, and that every step of a run does so |
| sorting, quorum_state, converge_state, round_states, gpbft_instance, participant | the mutable objects that refine the steps |
| merkle, powertable, diffs, tables | chain keys, power tables and their diffs |
| certificates, saved_decisions, certstore, snapshot | certificates and their persistence |
| equivocation, wal, host | one signature per slot across restarts |
| validator, partial_messages, caching, validator_cache | validation, its two stages and its cache |

## Model

| member | source | states |
|---|---|---|
| Safety.Agreement | sim/ec.go:163-190 | In every reachable state, any two honest participants that have terminated hold the same value and decisions on the same payload, supplemental data included. |
| Safety.Validity | gpbft/gpbft.go:397-432 | A decided value is the base chain of some honest participant, or a prefix of its input for which that participant counted a strong quorum of QUALITY votes. |
| Safety.LegitimateWasProposed | gpbft/gpbft.go:1056-1065 | A legitimate value beyond a base chain is a prefix of the inputs of honest participants who, together with all Byzantine power, form a strong quorum. |
| Safety.Closure | gpbft/validator.go:194-292 | Every message that an honest participant with power has sent keeps the vote rules, without the wildcard, and is valid for the others: justification, signers and signatures. |
| Safety.NoPanic | gpbft/gpbft.go:551-786 | No panic branch (missing evidence for COMMIT, DECIDE, the next round or termination, or two quorums in one tally) is taken in any reachable state. |
| Safety.Monotone | gpbft/gpbft.go:353-371 | Each action leaves each participant's (round, phase) in place or moves it forward, and only extends what it has sent. |
| Safety.OneMessagePerPhase | sim/network.go:111-118 | What a participant sends is strictly increasing in (round, phase), hence never two messages for one slot. |
| Safety.NoFalseNegatives | gpbft/gpbft.go:1177-1200 | A tally of any honest participant never reports "cannot reach a quorum" (allowing for the adversary) for a value that has a strong quorum somewhere. |
| Safety.TallyCannotExclude | gpbft/gpbft.go:1182-1200 | The same for any tally of well-signed votes of one round and phase, not only those held by a participant. |
| Safety.SingleVote | gpbft/gpbft.go:792-815 | Two votes signed by one honest participant for the same round and phase are equal. |
| Safety.QuorumsAgree | gpbft/gpbft.go:1488-1492 | Two strong-quorum justifications for the same round and phase are for the same payload. |
| Safety.Locked | gpbft/gpbft.go:456-501 | Once a value has a quorum of COMMIT, every later PREPARE or CONVERGE that evidence supports is for that value. |
| Safety.NoBottomCommit | gpbft/gpbft.go:705-733 | After a quorum of COMMIT for a value, no later round can have a quorum of COMMIT for bottom. |
| Safety.NoHonestBottomCommit | gpbft/gpbft.go:516-549 | After a quorum of COMMIT for a value, no honest participant commits to bottom in a later round. |
| Safety.CommitsAgree | gpbft/gpbft.go:583-640 | Two quorums of COMMIT for values, in any rounds, are for the same value and supplemental data. |
| Safety.DecisionCommitted | gpbft/gpbft.go:642-692 | Behind every quorum of DECIDE there is a quorum of COMMIT for the same non-bottom value. |
| Safety.DecisionsAgree | gpbft/gpbft.go:642-692 | Any two quorums of DECIDE are for the same value and supplemental data. |
| Conformance.StepConforms | gpbft/gpbft.go:145-371 | In every reachable state, every enabled start, delivery or alarm takes its participant exactly where the rules of `Responses` say: what is ignored, what is counted, which phase ends when, for which value, and which message is sent. |
| Conformance.QualityEnds | gpbft/gpbft.go:397-432 | QUALITY ends exactly with two thirds of the power for the input or at its timeout, with the longest prefix of the input that two thirds voted for, which becomes a candidate. |
| Conformance.ConvergeEnds | gpbft/gpbft.go:456-501 | CONVERGE ends exactly at its timeout if some value is eligible, with an eligible value of the lowest rank. |
| Conformance.PrepareEnds | gpbft/gpbft.go:516-581 | PREPARE ends for the proposal exactly when a quorum for it was counted or came along, else for bottom exactly when there can be none or at the timeout with two thirds heard. |
| Conformance.CommitEnds | gpbft/gpbft.go:583-640 | COMMIT of any round decides a value with two thirds of the power; in the current round bottom leads to the next round with the same proposal, and the timeout with two thirds heard to the next round with a value that was committed to. |
| Conformance.DecideEnds | gpbft/gpbft.go:679-692 | DECIDE ends exactly with two thirds of the power for a value, which is then the decision. |
| Conformance.MessageTaken | gpbft/gpbft.go:250-313 | A message that is not ignored is counted once per sender in its phase and round, with the first justification of its value, and sets off just the phases that it may complete. |
| Conformance.IgnoredExactly | gpbft/gpbft.go:212-247 | A message is dropped exactly for a wrong instance, supplement or base, after termination, as a CONVERGE or PREPARE of an earlier round, or beyond the lookahead without justification. |
| Conformance.SkipHolds | gpbft/gpbft.go:316-350 | A skip enters the round with the lowest-ranked proposal if a PREPARE quorum brought it along, and with the own proposal otherwise. |
| Conformance.DeliveryConforms | gpbft/gpbft.go:149-164 | Counting, reaction and skip make up a delivery; after the error of an empty CONVERGE there is no skip. |
| Conformance.StartConforms | gpbft/gpbft.go:145-197 | A start sends QUALITY for the input, takes up the queue one by one and skips to the last round that it may. |
| Progression.LateCommitDecides | gpbft/gpbft.go:275-301 | In every reachable state, a valid COMMIT of any round that completes two thirds of the power for a value takes an undecided participant to DECIDE on that value. |
| Progression.PrepareEndsExactly | gpbft/gpbft.go:516-549 | On an alarm a participant leaves PREPARE if and only if its proposal is supported or cannot be, or it has timed out with two thirds heard; it commits to the proposal if and only if that is supported. |
| Progression.PrepareEndsOnDelivery | gpbft/gpbft.go:258-313 | The same on the delivery of a PREPARE or CONVERGE that is counted: the COMMIT is the next message sent. |
| Progression.CommitEndsExactly | gpbft/gpbft.go:583-640 | On an alarm in COMMIT: DECIDE if and only if a value has a quorum, the next round if and only if none has and bottom has, or at the timeout with two thirds heard. |
| Progression.CommitEndsOnDelivery | gpbft/gpbft.go:275-313 | The same on the delivery of a COMMIT of the round that is counted; in PREPARE, one for a value that does not decide ends PREPARE under the same conditions. |
| Progression.TimeoutMovesOn | gpbft/gpbft.go:353-371 | A participant that has started and not decided moves strictly forward on an alarm after its timeout if it has heard enough for its phase. |
| Progression.DecisionIsFollowed | gpbft/gpbft.go:302-313 | A DECIDE that is counted takes the participant to DECIDE at once, and it terminates if and only if it now has counted two thirds of the power for a value. |
| Progression.SkipFollowsHonest | gpbft/gpbft.go:326-350 | When a delivery takes a participant to a round that COMMIT does not lead to, an honest participant has signed a PREPARE of that round. |
| Synchrony.EverySynchronousRun | test/honest_test.go:14-53 | For honest participants with a common input and a strong quorum, after every run in which only their messages arrive, in any order, and QUALITY does not time out before a quorum was counted: all votes are for the input in round 0, nothing else is decided, all have decided once every message was delivered, and a continuation of the same kind ends with all decided. |
| Synchrony.CalmStep | gpbft/gpbft.go:212-371 | Every start, delivery and alarm of such a run keeps the unanimous tallies, the votes for the input, and that no participant waits in a phase whose quorum it has counted. |
| Synchrony.QuietDecides | gpbft/gpbft.go:516-692 | When all have started and counted all that was sent, all have terminated: nobody is stuck between two phases. |
| Synchrony.CanDecide | gpbft/gpbft.go:397-692 | From every such state some further steps of the same kind lead to the decision of all. |
| Synchrony.SynchronousDecision | test/honest_test.go:14-53 | In particular, from every initial state in which the honest participants share their input and supplement and hold a strong quorum, some run ends with all of them decided on that input in round 0. |
| Synchrony.TwoDecide | test/honest_test.go:38-53 | A concrete committee of two and a run that ends with both decided, so that the premises of the theorems above can be met. |
| Network.StepInv | gpbft/gpbft.go:149-204 | Start, delivery of any valid message, wildcard evidence included, and alarm of a participant below the wildcard round preserve the invariant of the whole system. |
| Network.RunInv | gpbft/gpbft.go:149-204 | The invariant holds after every finite sequence of enabled actions. |
| Network.ReachableInv | gpbft/gpbft.go:79-127 | The initial states satisfy the invariant, so every reachable state does. |
| Steps.TryCurrentPhaseOk | gpbft/gpbft.go:353-371 | Acting on the current phase preserves a participant's invariant and takes nothing back. |
| Steps.TryConvergeOk | gpbft/gpbft.go:456-501 | Leaving CONVERGE with the winning proposal preserves the invariant: what is then prepared is justified. |
| Steps.TryPrepareOk | gpbft/gpbft.go:516-581 | Leaving PREPARE commits to the proposal only with a quorum as evidence, and to bottom only when the proposal is disputed. |
| Steps.TryCommitOk | gpbft/gpbft.go:583-640 | Each outcome of COMMIT (decide, be swayed to another value, start the next round, wait) preserves the invariant. |
| Steps.TryDecideOk | gpbft/gpbft.go:679-692 | Terminating builds a decision whose signers are a strong quorum of DECIDE. |
| Steps.ReceiveOneOk | gpbft/gpbft.go:212-314 | Taking up one valid message of any phase and round preserves the invariant. |
| Progress.ReceiveOk | gpbft/gpbft.go:149-164 | Receiving a message, round skip included, preserves the invariant. |
| Progress.ReceiveManyOk | gpbft/gpbft.go:168-197 | So does a drained batch in round order, if it has no more messages than there are rounds to the wildcard. |
| Progress.OneRoundAtMost | gpbft/gpbft.go:212-314 | Taking up a message leaves the round in place or moves it on by one. |
| Progress.OnlyDecideTerminates | gpbft/gpbft.go:212-314 | A message of any other phase than DECIDE never terminates an instance. |
| Progress.TerminatedUnlessSkipped | gpbft/gpbft.go:316-350 | The post-receive step leaves a terminated instance alone if and only if none of the received rounds calls for a skip. |
| Progress.InvPersists | gpbft/gpbft.go:1005-1030 | What a participant has recorded stays justified as others sign more votes. |
| Chains.CheckChain | gpbft/chain.go:362-386 | Accepts exactly the chains of at most 128 tipsets with keys of 1 to 760 bytes, table identifiers of 1 to 38 bytes and strictly increasing, non-negative epochs. |
| Quorums.StrongQuorumMeaning | gpbft/gpbft.go:1479-1492 | The ceiling-division test is the inequality 3 * part >= 2 * whole. |
| Quorums.WeakQuorumMeaning | gpbft/gpbft.go:1494-1498 | The weak test is the inequality 3 * part >= whole + 3. |
| Quorums.WeakQuorumHasHonest | gpbft/gpbft.go:1494-1498 | A weak quorum contains an honest actor. |
| Quorums.QuorumHasHonest | gpbft/gpbft.go:1488-1492 | A strong quorum contains an honest member of the committee. |
| Quorums.QuorumsShareHonest | gpbft/gpbft.go:1488-1492 | Two strong quorums share an honest member of the committee. |
| Tallies.LongestQuorumPrefixMeaning | gpbft/gpbft.go:1268-1282 | The chosen prefix is the base chain or has a quorum, and no longer prefix has one. |
| Tallies.PrefixQuorumDown | gpbft/gpbft.go:1051-1065 | A quorum for a chain is a quorum for each of its proper prefixes beyond the base. |
| Tallies.QuorumsPersist | gpbft/gpbft.go:1069-1103 | Recording another vote never removes a quorum. |
| Tallies.QuorumValueUnique | gpbft/gpbft.go:1284-1300 | In a tally of first votes at most one value has a strong quorum. |
| Tallies.UnanimousTally | gpbft/gpbft.go:1182-1200 | If all votes heard agree, that value can reach a quorum, and has one once a strong quorum was heard. |
| Tallies.CouldReachExact | gpbft/gpbft.go:1177-1200 | Without an adversary, "could reach" holds if and only if some further votes of other senders give the value a strong quorum. |
| Tallies.CouldReachSound | gpbft/gpbft.go:1177-1200 | With an adversary, a value whose quorum contradicts no honest vote in the tally is never ruled out. |
| Tallies.QuorumSignersMeaning | gpbft/gpbft.go:1222-1266 | The selected signers are distinct increasing positions of supporters and carry a strong quorum. |
| Tallies.QuorumSignersSmallest | gpbft/gpbft.go:1237-1263 | With the table sorted by power, no set of supporters with a strong quorum is smaller than the selected one. |
| QuorumStates.QuorumState.constructor | gpbft/gpbft.go:1031-1039 | An empty tally. |
| QuorumStates.QuorumState.ReceiveSender | gpbft/gpbft.go:1067-1082 | Reports whether the sender is new and keeps the running total equal to the power of all senders. |
| QuorumStates.QuorumState.Receive | gpbft/gpbft.go:1041-1049 | The incremental sums and quorum flags stay those of the tally with the first vote of the sender recorded, and the stored signatures are those that came with the first votes; a second vote changes nothing. |
| QuorumStates.QuorumState.ReceiveEachPrefix | gpbft/gpbft.go:1051-1065 | The same where one vote supports each prefix of its chain. |
| QuorumStates.QuorumState.ReceiveJustification | gpbft/gpbft.go:1105-1115 | Keeps the first justification of each value. |
| QuorumStates.QuorumState.HasStrongQuorumFor | gpbft/gpbft.go:1138-1142 | The stored flag is the quorum test on the power of the value's supporters. |
| QuorumStates.QuorumState.HasReceivedFromStrongQuorum | gpbft/gpbft.go:1127-1130 | The running total decides whether senders of a strong quorum were heard. |
| QuorumStates.QuorumState.HasReceivedFromWeakQuorum | gpbft/gpbft.go:1132-1136 | The running total decides whether senders of a weak quorum were heard, in the sense of `Quorums.WeakQuorumMeaning`. |
| QuorumStates.QuorumState.CouldReachStrongQuorumFor | gpbft/gpbft.go:1177-1200 | The computation from running totals equals the definition on first votes. |
| QuorumStates.QuorumState.FindStrongQuorumFor | gpbft/gpbft.go:1222-1266 | Finds a quorum if and only if there is one, returns the shortest initial run of supporters in table order with the signatures that came with their votes, and panics exactly for an unknown supporter or an empty run. |
| QuorumStates.QuorumState.FindStrongQuorumValueForLongestPrefixOf | gpbft/gpbft.go:1268-1282 | Returns the longest prefix with a quorum, or the base chain. |
| QuorumStates.QuorumState.FindStrongQuorumValue | gpbft/gpbft.go:1284-1300 | Reports several quorums exactly when there are several; otherwise finds a value if and only if one has a quorum. |
| QuorumStates.QuorumState.ListAllValues | gpbft/gpbft.go:1117-1125 | Lists exactly the values voted for. |
| QuorumStates.QuorumState.GetJustificationOf | gpbft/gpbft.go:1151-1175 | Returns the stored justification of the value if it is of the phase asked for. |
| QuorumStates.QuorumState.GetJustificationOfBottom | gpbft/gpbft.go:1151-1175 | Returns some stored justification of bottom for the phase, or shows that there is none. |
| ConvergeStates.ConvergeState.SetSelfValue | gpbft/gpbft.go:1339-1353 | The own value is recorded with the worst rank unless it is already known. |
| ConvergeStates.ConvergeState.Receive | gpbft/gpbft.go:1355-1393 | Errors exactly for bottom or a missing justification; otherwise only a sender's first message counts, and each value keeps its first justification and its best rank. |
| ConvergeStates.ConvergeState.FindBestTicketProposal | gpbft/gpbft.go:1395-1413 | The result passes the filter and its rank is at most that of every other that does, a missing rank coming last, so that the own value wins only without admissible others; nothing is returned only if none passes. |
| ConvergeStates.BestExists | gpbft/gpbft.go:1395-1413 | A best proposal exists if and only if some proposal passes the filter. |
| ConvergeStates.NoValuesAtConverge | gpbft/gpbft.go:456-501 | Leaving CONVERGE reports an internal error if and only if the timeout has elapsed and no received value is admissible. |
| RoundStates.BuildFrom | gpbft/gpbft.go:974-991 | Builds a justification exactly when the value has a quorum and its signers can be found, over exactly the selected signers and the vote. |
| RoundStates.FindCommitEvidence | gpbft/gpbft.go:551-581 | The evidence for a COMMIT is the PREPARE quorum counted here, else one that came with a COMMIT of the round, else with a PREPARE or CONVERGE of the next. |
| RoundStates.FindBest | gpbft/gpbft.go:456-501 | Finds the best-ticket value among candidates and values that could have reached a quorum of COMMIT in the previous round. |
| RoundStates.CountCommits | gpbft/gpbft.go:583-640 | The counts that tryCommit branches on equal those of the first votes of the round. |
| RoundStates.FindNextJustification | gpbft/gpbft.go:705-733 | The search for a justification to leave a round: COMMIT quorum for bottom, then stored ones for bottom or for the proposal. |
| RoundStates.RoundTable.Get | gpbft/gpbft.go:694-701 | Creates the state of a round on first use, empty, and leaves all others as they are. |
| RoundStates.RoundTable.CountPrepare | gpbft/gpbft.go:271-276 | Records a PREPARE in its own round only. |
| RoundStates.RoundTable.CountCommit | gpbft/gpbft.go:277-297 | Records a COMMIT and its justification in its own round only. |
| RoundStates.RoundTable.CountConverge | gpbft/gpbft.go:265-270 | Records a CONVERGE in its own round only, or reports the error. |
| RoundStates.RoundTable.ShouldSkipTo | gpbft/gpbft.go:327-350 | Chooses a skip exactly for a later round with a weak quorum of PREPARE and a CONVERGE value, and then the best one. |
| GpbftInstances.GpbftInstance.constructor | gpbft/gpbft.go:79-127 | The new object is the initial state: base chain as only candidate, the input as proposal. |
| GpbftInstances.GpbftInstance.Start | gpbft/gpbft.go:382-394 | Refines the QUALITY step; starting twice is refused and changes nothing. |
| GpbftInstances.GpbftInstance.TryQuality | gpbft/gpbft.go:396-419 | Refines the end of QUALITY. |
| GpbftInstances.GpbftInstance.UpdateCandidatesFromQuality | gpbft/gpbft.go:421-432 | Refines the late update of the candidates. |
| GpbftInstances.GpbftInstance.BeginConverge | gpbft/gpbft.go:434-453 | Refines entry to CONVERGE, with the panic on a justification of another round. |
| GpbftInstances.GpbftInstance.TryConverge | gpbft/gpbft.go:455-501 | Refines the end of CONVERGE for some iteration order, error included. |
| GpbftInstances.GpbftInstance.BeginPrepare | gpbft/gpbft.go:503-513 | Refines entry to PREPARE. |
| GpbftInstances.GpbftInstance.TryPrepare | gpbft/gpbft.go:515-549 | Refines the end of PREPARE. |
| GpbftInstances.GpbftInstance.BeginCommit | gpbft/gpbft.go:551-581 | Refines entry to COMMIT, with the panic on missing evidence. |
| GpbftInstances.GpbftInstance.TryCommit | gpbft/gpbft.go:583-640 | Refines the end of COMMIT of the current or an earlier round. |
| GpbftInstances.GpbftInstance.BeginDecide | gpbft/gpbft.go:642-662 | Refines entry to DECIDE. |
| GpbftInstances.GpbftInstance.SkipToDecide | gpbft/gpbft.go:664-677 | Refines the jump to DECIDE on a received DECIDE. |
| GpbftInstances.GpbftInstance.TryDecide | gpbft/gpbft.go:679-692 | Refines the end of DECIDE. |
| GpbftInstances.GpbftInstance.Terminate | gpbft/gpbft.go:776-786 | Refines termination on a value with a quorum of DECIDE. |
| GpbftInstances.GpbftInstance.BeginNextRound | gpbft/gpbft.go:703-733 | Refines entry to the next round, with the panic on missing evidence. |
| GpbftInstances.GpbftInstance.TryCurrentPhase | gpbft/gpbft.go:353-371 | Refines the dispatch on the current phase. |
| GpbftInstances.GpbftInstance.ReceiveOne | gpbft/gpbft.go:212-314 | Refines the reception of one message: dropped, recorded or acted on. |
| GpbftInstances.GpbftInstance.SkipToRound | gpbft/gpbft.go:735-750 | Refines the jump to a later round. |
| GpbftInstances.GpbftInstance.PostReceive | gpbft/gpbft.go:316-325 | Refines the search for the latest round to skip to. |
| GpbftInstances.GpbftInstance.Receive | gpbft/gpbft.go:149-164 | The mutable object moves exactly as the delivery action of the network, for some clock and iteration order. |
| GpbftInstances.GpbftInstance.ReceiveMany | gpbft/gpbft.go:166-197 | The same for a batch, rounds collected in a set and sorted afterwards. |
| GpbftInstances.GpbftInstance.ReceiveAlarm | gpbft/gpbft.go:199-204 | The same for an alarm. |
| GpbftInstances.ExpandCandidates | gpbft/gpbft.go:759-774 | Adds the longest prefix, beyond the base, that is not yet a candidate, and stops there. |
| Participants.MessageQueue.Add | gpbft/participant.go:334-354 | A message is queued if and only if its round is within bounds or it is not spammable, and its sender has none of that round and phase; nothing else changes. |
| Participants.MessageQueue.Drain | gpbft/participant.go:356-371 | Hands out exactly the queued messages of the instance, one per sender, round and phase, in (round, phase) order, and keeps all others. |
| Participants.ChooseChain | gpbft/participant.go:213-226 | The host's chain cut to its first 128 tipsets; refused exactly when there is none, it is empty, or that much of it is not valid. |
| Participants.BeginInstance | gpbft/participant.go:213-250 | Succeeds exactly with a committee and a non-empty chain of which the first 128 tipsets are valid; the input of the instance is then that prefix. A failure leaves the queue alone, and a success moves the new instance as the start action of the network, on the drained queue. |
| Merkle.VerifyProof | merkle/merkle.go:42-69 | Accepts exactly if the path computed from the low bits of the index leads to the root within the size limits, and reports whether later leaves exist. |
| Merkle.ProofsLeadToRoot | merkle/merkle.go:99-134 | The proof of each leaf leads to the root. |
| Merkle.ProofsTellLast | merkle/merkle.go:42-69 | The flag read from the proof of a leaf is set exactly if the leaf is not the last. |
| Merkle.OnlyProofsLeadToRoot | merkle/merkle.go:99-134 | A path that leads to the root is the proof of the leaf at that index, with its value. |
| Merkle.ProofsVerify | merkle/merkle.go:42-69 | The proof of leaf i is accepted if and only if i and the depth are within the 32-bit limits. |
| Merkle.AcceptedIsMember | merkle/merkle.go:42-69 | An accepted proof is the tree's own proof for the leaf at the index's low bits; for a natural index that is the index itself. |
| Merkle.IndexAcceptedExactly | merkle/merkle.go:42-69 | For every list and every integer index, something is accepted at the index if and only if the list is not empty, index and depth are within the upper limits, and the low bits of the index are those of a leaf. |
| Merkle.NegativeIndexAccepted | merkle/merkle.go:42-69 | For every list of depth below 32, each leaf is accepted with its own proof at a negative index. |
| Merkle.TreeInjective | merkle/merkle.go:36-40 | Equal roots mean equal lists of values. |
| Merkle.TreeWithProofs | merkle/merkle.go:22-34 | Returns the root and the proof of every leaf, written in place during the recursion. |
| Merkle.FillProofs | merkle/merkle.go:105-134 | The in-place recursion appends to each leaf's slot its uncles in this subtree and touches no other slot. |
| Merkle.BuildTreeMemoized | merkle/merkle.go:172-203 | With a correct memo table, a range's root is that of the plain recursion, and the table stays correct. |
| Merkle.PrefixRoot | merkle/merkle.go:205-228 | The root of a prefix is built from the root of its largest power-of-two prefix and the remaining range. |
| Merkle.BatchTree | merkle/merkle.go:136-230 | The fast batch form returns, for every prefix of the values, the root of that prefix. |
| ChainKeys.KeyInjective | gpbft/chain.go:412-426 | Two chains have the same key if and only if they are equal, and only bottom has the zero key. |
| ChainKeys.AllPrefixes | gpbft/chain.go:447-471 | Every prefix comes with the key that it would compute itself. |
| PowerTables.Scaled | gpbft/powertable.go:87-107 | Fails exactly for a non-positive power; otherwise each power is scaled by the total. |
| PowerTables.ScaleMeaning | gpbft/powertable.go:261-270 | The scaled power is the share of the total in units of 1/65535, rounded down. |
| PowerTables.ScaledTotalBound | gpbft/powertable.go:261-270 | The scaled total is at most 0xffff, and above 0xffff less the number of entries. |
| PowerTables.SortedScalesDown | gpbft/powertable.go:69-79 | Scaling keeps the descending order of the table. |
| PowerTables.ValidatedMeaning | gpbft/powertable.go:206-259 | A table that passes validation is sorted, duplicate free, indexed both ways and scaled from its own entries. |
| PowerTables.NoStrayLookups | gpbft/powertable.go:216-259 | Equal sizes and correct forward lookups leave no stray lookup entry. |
| PowerTables.PowerTableObject.Add | gpbft/powertable.go:118-142 | On success the table validates, is ordered by decreasing power and then by actor, and holds the old and new entries; on failure it names the offending entry, with those before it added. |
| PowerTables.PowerTableObject.Rescale | gpbft/powertable.go:144-155 | Restores the scaled powers and their sum for all entries. |
| PowerTables.PowerTableObject.Swap | gpbft/powertable.go:198-204 | Exchanges two entries together with their scaled powers and keeps the lookup inverse. |
| PowerTables.PowerTableObject.SortEntries | gpbft/powertable.go:124-142 | Sorting by swaps permutes the entries and keeps the lookup inverse. |
| Diffs.DeltaCanonical | certs/certs.go:270-328 | For one participant, a non-zero delta is accepted from a to b if and only if it is the delta that the diff computes between them. |
| Diffs.ApplyDiffMeaning | certs/certs.go:270-328 | An accepted diff is strictly sorted, each delta leads its participant from old to new, and nobody else changes. |
| Diffs.ApplyIffDiff | certs/certs.go:198-328 | From a valid table, applying d gives b if and only if b is valid and d is the diff from a to b. |
| Diffs.DiffUnique | certs/certs.go:201-237 | There is one diff between two tables. |
| Tables.MakePowerTableDiff | certs/certs.go:198-237 | For tables with unique entries, as the code documents: the diff sorted by id, with one non-zero delta for exactly the participants that differ. |
| Tables.ApplyPowerTableDiffs | certs/certs.go:256-268 | Applies a list of diffs and returns the sorted table, or refuses. |
| Tables.ApplyPowerTableDiffsToMap | certs/certs.go:270-328 | The loops over diffs and deltas equal their fold, refusing at the first bad delta. |
| Tables.ArrayToMap | certs/certs.go:239-245 | Indexes the entries by id, the last one winning. |
| Tables.MapToArray | certs/certs.go:247-254 | Returns the one table of the entries, by decreasing power and then by actor, whatever the iteration order. |
| Tables.TableUnique | certs/certs.go:247-254 | A set of entries has only one sorted table. |
| Tables.DiffsCanonical | certs/certs.go:198-268 | Between valid sorted tables, a diff is accepted if and only if it is the computed one. |
| Certificates.NewCertificateExactly | certs/certs.go:58-83 | A certificate is made exactly from a DECIDE of round 0 for a proper chain, and holds its vote, signers and signature. |
| Certificates.VerifySignature | certs/certs.go:144-196 | Accepts exactly certificates whose signers are known, have a strong quorum of scaled power and whose aggregate signs the decided vote. |
| Certificates.ValidateFinalityCertificates | certs/certs.go:81-142 | Returns the position after the longest accepted prefix, and success exactly if all are accepted. |
| Certificates.ValidateSplit | certs/certs.go:91-142 | Validating two batches one after the other equals validating them together. |
| Certificates.AcceptedInOrder | certs/certs.go:91-142 | Accepted certificates are of consecutive instances, none empty, and the finalized chain is their concatenation. |
| Certificates.AcceptedLinked | certs/certs.go:91-142 | Each accepted chain starts at the head of the previous one. |
| Certificates.AcceptedMeans | certs/certs.go:91-196 | Each accepted certificate is signed by two thirds of the scaled power of the table that the deltas before it lead to, and its delta leads to the table that it names. |
| Decisions.TerminatedDecision | gpbft/gpbft.go:776-786 | A terminated participant of a reachable state holds a strong-quorum DECIDE on its value and supplement, aggregated from its signers. |
| Decisions.DecisionSigned | certs/certs.go:144-196 | Such a decision passes the certificate's signature check, although that rescales the table and reorders nothing. |
| Decisions.SameScaling | certs/certs.go:147-196 | The scaling recomputed by the certificate check equals that of the committee's validated table. |
| Decisions.DecisionCertified | certs/certs.go:58-79 | A decision of a reachable state yields a certificate that validates and leads exactly to the next power table. |
| Decisions.CertificatesAgree | certs/certs.go:91-196 | Two certificates that are accepted for an instance with its committee finalize the same chain and name the same next table. |
| Decisions.CertificateIsDecision | certs/certs.go:91-196 | An accepted certificate holds the value and supplemental data that every terminated participant has decided. |
| SavedDecisions.FormCertificate | host.go:812-833 | Forms only certificates that validate against the current table, and does form one for every decision of a terminated participant. |
| SavedDecisions.SaveDecision | host.go:812-840 | The store's history grows by at most this certificate, and does grow, to the next power table, for a decision of the next instance. |
| CertStore.ReplaySplit | certs/certs.go:256-268 | Replaying diffs in two parts equals replaying them at once. |
| CertStore.EmptyReplay | certstore/certstore.go:388-404 | Skipping an empty delta agrees with a replay if and only if the table is sorted and free of duplicates. |
| CertStore.PutAtomic | certstore/certstore.go:353-451 | Whatever number of the writes of a put succeeds, the disk holds either the old history or the extended one. |
| CertStore.RecoveredHistory | certstore/certstore.go:43-70 | What is read back from the disk is the history. |
| CertStore.RunHolds | certstore/certstore.go:353-451 | After any sequence of puts and partial puts, the disk agrees with a replay, the history is recovered, and it only grew. |
| CertStore.CreatedRunHolds | certstore/certstore.go:124-147 | The same from the creation of a store. |
| CertStore.NextPowerTable | certstore/certstore.go:388-404 | Accepts exactly the certificates whose delta applies and whose named table is the result. |
| CertStore.Store.GetRange | certstore/certstore.go:222-260 | Returns the stored certificates from the start up to the first missing one, and success exactly if none is missing. |
| CertStore.Store.GetPowerTable | certstore/certstore.go:284-343 | Refuses instances outside the history and otherwise returns what the disk gives from the nearest checkpoint; on a disk that holds a history, that is the replay of all deltas before the instance. |
| CertStore.Store.Put | certstore/certstore.go:353-451 | One step of the store's state machine, with the exact condition for success, old certificates included. |
| CertStore.Store.Write | certstore/certstore.go:405-445 | The disk after any number of successful writes, in the order certificate, checkpoint (at the multiples of the frequency), latest. |
| CertStore.OpenLatest | certstore/certstore.go:43-70 | Opens an empty store or one whose latest certificate is present. |
| CertStore.CreateStore | certstore/certstore.go:124-147 | Creates exactly where nothing exists and the table is not empty. |
| CertStore.OpenStore | certstore/certstore.go:149-173 | Opens exactly a disk with a first instance, a readable latest certificate and the table after it; on a disk that holds a history the store knows that history. |
| CertStore.OpenOrCreateStore | certstore/certstore.go:72-122 | Succeeds exactly if the given table is not empty, the first instance and table agree with what is stored, and the latest certificate and table can be read; then it opens or creates the store. |
| Framing.UvarintRoundTrip | certstore/snapshot.go:221-250 | Reading an encoded length gives it back, with the rest of the input untouched. |
| Framing.UvarintMeaning | certstore/snapshot.go:222-234 | The seven low bits of the bytes, lowest first, are the number, and the high bit says that more follow. |
| Framing.FrameRead | certstore/snapshot.go:236-250 | Reading a framed block gives back the block and the rest. |
| Framing.FramesRoundTrip | certstore/snapshot.go:213-250 | A stream of framed blocks is read back to exactly these blocks, ending cleanly. |
| Framing.FitsExactly | certstore/snapshot.go:221-234 | The length prefix of a block fits the eight bytes set aside for it if and only if the block is shorter than 2^56 bytes. |
| Snapshots.SnapshotParsed | certstore/snapshot.go:41-72 | The bytes of a snapshot parse to its header and certificates. |
| Snapshots.LoadedHolds | certstore/snapshot.go:98-188 | The disk that an import writes agrees with a replay of the imported history, checkpoints included. |
| Snapshots.RoundTrip | certstore/snapshot.go:41-188 | A snapshot of a history can be imported into an empty datastore and leaves a disk with that history. |
| Snapshots.ImportableMeans | certstore/snapshot.go:94-188 | What is imported has a certificate for each instance that its header names, leads to the table that the last one names, and agrees with the manifest and the datastore. |
| Snapshots.ExportSnapshot | certstore/snapshot.go:38-72 | Writes header and certificates of exactly the instances asked for, or fails on a missing one or a block that is too long, and returns the header and the hash that names the bytes; inside the history they are those of the history. |
| Snapshots.WriteBlocks | certstore/snapshot.go:52-63 | Writes the frames of the header and of each stored certificate in order, failing exactly on a missing one or an unframeable block. |
| Snapshots.ImportCertificates | certstore/snapshot.go:131-187 | Succeeds exactly for a stream that is complete, in order, and whose deltas lead to the named tables; a failure leaves no latest instance behind. |
| Snapshots.ImportOne | certstore/snapshot.go:146-172 | One certificate is accepted exactly if it continues the sequence, and then its table is kept at checkpoints. |
| Snapshots.ImportSnapshot | certstore/snapshot.go:98-188 | Succeeds if and only if the stream parses to a snapshot that matches the manifest, whose store opens and whose certificates are complete and lead to the named tables; then the disk is known exactly, and a failure leaves the latest marker alone. |
| Snapshots.ExportThenOpen | certstore/snapshot.go:38-188 | A store exported up to an instance, imported into a fresh datastore and opened again is a valid store with the same first instance, table and history up to there, if and only if all blocks are short enough to be framed. |
| Equivocation.AddSenderMeaning | equivocation.go:54-63 | Origins stay sorted and at most ten, none is lost, and a new one is left out if and only if ten are known. |
| Equivocation.FilterStaysOk | equivocation.go:65-142 | Tracked senders always have an origin, so reading the lowest is safe. |
| Equivocation.LowestPublishes | equivocation.go:105-115 | Once an identity is known to be shared, only the lowest origin publishes. |
| Equivocation.PublishesExactly | equivocation.go:65-115 | A message is published if and only if it is not of an earlier instance, this node has not signed otherwise for its sender, round and phase, and, once the sender is known to be shared, this node is the lowest known origin. |
| Equivocation.PublishedIsSeen | equivocation.go:65-115 | A published message is remembered under its sender, round and phase unless one was; a new instance forgets the others. |
| Equivocation.ReceivedExactly | equivocation.go:117-142 | A message of another node counts only in the current instance and for a sender that this node uses: it is remembered if nothing was seen in its place, and marks the sender as shared if its signature differs. |
| Equivocation.TwoSignaturesExactly | equivocation.go:65-115 | Two different signatures pass in one slot if and only if another node's message was seen there first and this node is the lowest origin. |
| Equivocation.EquivocationFilter.ProcessBroadcast | equivocation.go:65-115 | The object moves as the filter function and returns its verdict. |
| Equivocation.EquivocationFilter.ProcessReceive | equivocation.go:117-142 | The object moves as the filter function. |
| WriteAheadLogs.ReadLogFile | internal/writeaheadlog/wal.go:248-291 | Returns the records before the first torn one and their largest epoch. |
| WriteAheadLogs.Hydrate | internal/writeaheadlog/wal.go:218-246 | The statistics list every file once, with the largest epoch that can be read from it. |
| WriteAheadLogs.PurgedEntries | internal/writeaheadlog/wal.go:123-143 | Dropping old files, some of which cannot be removed, adds no entry and loses none in a file that lasts to the purge point or beyond. |
| WriteAheadLogs.PurgeRemovesExactly | internal/writeaheadlog/wal.go:123-143 | A purge removes an entry at or above the kept epoch if and only if some removable file holds a readable entry of such an epoch while its recorded largest epoch is below. |
| WriteAheadLogs.SurvivesExactly | internal/writeaheadlog/wal.go:95-216 | An entry can be read after every sequence of appends, closings, purges up to an epoch, failures and reopenings if and only if it is in a file whose recorded largest epoch is not below, or that is not listed, or that can never be closed. |
| WriteAheadLogs.WriteAheadLog.All | internal/writeaheadlog/wal.go:71-93 | Returns exactly the entries that can be read from the listed files, the active one included. |
| WriteAheadLogs.WriteAheadLog.Append | internal/writeaheadlog/wal.go:95-121 | Succeeds exactly if a file is writable and the record complete; the entry can be read afterwards if and only if it was written in full, synced or not, behind no record cut short; no other entry appears or is lost, and a completed entry that can be read is in a file that lasts to its epoch. |
| WriteAheadLogs.ReadableAppend | internal/writeaheadlog/wal.go:250-291 | An appended record is read if and only if it and all before it are whole. |
| WriteAheadLogs.WriteAheadLog.RotateTo | internal/writeaheadlog/wal.go:145-195 | Fails exactly if the active file cannot be synced and closed or the new name exists; either way it keeps every entry and every file that lasts. |
| WriteAheadLogs.WriteAheadLog.Flush | internal/writeaheadlog/wal.go:197-216 | Succeeds exactly if there is no active file or it is open, syncs and closes; a failure keeps the active file listed, and open only if it was the sync that failed. |
| WriteAheadLogs.WriteAheadLog.Purge | internal/writeaheadlog/wal.go:123-143 | Forgets exactly the closed files whose recorded epoch is below, removes those that can be removed, adds nothing, and keeps every entry in a file that lasts to the epoch or beyond. |
| Hosts.ReplayRemembers | host.go:105-132 | A filter rebuilt from the log, in whatever order, knows each slot of the log's last instance. |
| Hosts.StepKeeps | host.go:467-539 | Broadcast with each outcome of the log, rebroadcast, receive, finalization with its purge, restart and crash at any point of a broadcast preserve the invariant of the host. |
| Hosts.RunKeeps | host.go:467-539 | So does every sequence of them. |
| Hosts.SingleSignature | host.go:467-511 | Over any run with crashes and restarts, two published messages of one slot at or above the purge point have one signature, unless the message of another node took the slot first or a message of the slot was not logged in a file that lasts to its instance. |
| Hosts.FinalExactly | host.go:465-511 | A published signature stays the only one of its slot over all continuations above the purge point if and only if a file of the log that no purge at or below its instance removes holds it or an entry of a later instance. |
| Hosts.SyncSealsEarlier | internal/writeaheadlog/wal.go:95-121 | A readable message whose sync failed is in a file that lasts once a message of the same or a later instance was synced into that file. |
| Hosts.LostSlotPublishesTwo | host.go:472-475 | A concrete run in which a message that could not be logged is followed by a second signature after a restart. |
| Hosts.TakenSlotPublishesTwo | equivocation.go:82-96 | A concrete run in which a slot that another node's message took sees two published signatures. |
| Runners.Replay | host.go:105-132 | Rebuilds the filter from the log and keeps exactly the messages of the largest instance in it. |
| Runners.Runner.constructor | host.go:68-156 | The started object is a restarted host of the state machine. |
| Runners.Runner.BroadcastMessage | host.go:465-511 | Filter, log, remember, publish: one broadcast step of the state machine, with every outcome of the append. |
| Runners.Runner.RebroadcastMessage | host.go:513-539 | One rebroadcast step of the state machine. |
| Runners.Runner.Finalized | host.go:303-316 | Finalization purges the log five instances back, whatever files cannot be removed, and keeps exactly the own messages of later instances, as one finalization step. |
| Validators.AcceptedExactly | gpbft/validator.go:194-449 | For every 64-bit round, a message is accepted if and only if its sender has power, the vote rules hold (at the largest round with evidence of any round), ticket and signature verify, and the justification is signed by a strong quorum. |
| Validators.LastRoundExactly | gpbft/validator.go:359-425 | A COMMIT of the largest round for a value is accepted if and only if sender, chain and signature are good and a PREPARE of any round for the same instance, supplement and value is signed by a strong quorum. |
| Validators.DroppedForGood | gpbft/validator.go:294-331 | What is too old or not relevant at some progress is not accepted at any later one. |
| Validators.RelevanceExactly | gpbft/validator.go:294-331 | Progress accepts exactly, within the lookback, votes of later instances, DECIDE of the previous and the current one, and, before DECIDE, QUALITY and what is at most one round behind; it tells what is beyond the lookback, too old and not relevant. |
| Validators.SignedInputsDiffer | gpbft/types.go:194-222 | The bytes that are signed are equal if and only if the votes are. |
| Validators.SenderKey | gpbft/validator.go:213-216 | A vote is verified with the key of its sender's entry. |
| Validators.TwoStagesSound | gpbft/validator.go:94-192 | A message that passes the partial stage on its key and the full stage once completed is one that direct validation accepts. |
| Validators.TwoStagesComplete | gpbft/validator.go:94-192 | A message that direct validation accepts passes both stages after its chain is stripped and completed. |
| Validators.CompletedSame | pmsg/partial_msg.go:393-410 | Completion changes chains only, so that what the first stage checked still holds. |
| Admission.AcceptedIsValid | gpbft/validator.go:75-92 | A message of the instance that the validator accepts is one that the protocol theorems call valid; without the wildcard this would hold if and only if it is not a COMMIT of the largest round with evidence of another. Signatures of other instances may verify as they like. |
| Admission.AcceptedIsDelivered | gpbft/participant.go:151-182 | The network may deliver an accepted message to a started participant if and only if the participant is below the largest round. |
| Admission.TwoStagesAreValid | gpbft/validator.go:94-192 | The same for what the two stages accept. |
| Admission.HonestIsAccepted | gpbft/validator.go:72-292 | Whatever a powered honest participant has broadcast in any run, with signatures and ticket that verify, keeps every check of validation, so that a node with the same power table judges it by its relevance alone. |
| Admission.HonestAcceptedExactly | gpbft/validator.go:72-92 | Such a message is accepted at any progress of the node if and only if it is timely. |
| Admission.HonestIsHeard | gpbft/validator.go:294-331 | At the progress of a participant of the run it is accepted if and only if it is a DECIDE, or the participant is not in DECIDE and it is a QUALITY or of the round before or a later one. |
| PartialMessages.PartialGMessage.constructor | pmsg/partial_msg.go:314-344 | Strips exactly the chains: neither the vote nor the justification has one left, and the key of the vote stays. |
| PartialMessages.PartialGMessage.InferJustificationVoteValue | pmsg/partial_msg.go:412-441 | Restores the justification's value from the vote's, phase by phase. |
| PartialMessages.PartialGMessage.CompleteMessage | pmsg/partial_msg.go:393-410 | Completes exactly if no chain is missing or the chain is known. |
| PartialMessages.StripAndComplete | pmsg/partial_msg.go:314-441 | For every accepted message, stripping and completing gives the message back. |
| Caching.CacheSet.Contains | internal/caching/set.go:32-50 | Membership in either generation; an error exactly for an unusable namespace. |
| Caching.KeysDiffer | internal/caching/set.go:82-98 | Keys of different namespaces or values differ; a namespace of more than 64 characters is refused. |
| Caching.CacheSet.ContainsOrAdd | internal/caching/set.go:52-80 | The key is added, and the older generation is forgotten exactly when the newer one is full. |
| Caching.CacheSet.Clear | internal/caching/set.go:99-105 | Forgets everything. |
| Caching.GroupedSet.Contains | internal/caching/grouped_cache.go:46-57 | Membership in the group, which becomes the most recent; the others keep their order and their keys. |
| Caching.WithoutAt | internal/caching/grouped_cache.go:94-106 | Taking a group out of the order of recency leaves the others in their order. |
| Caching.GroupedSet.Add | internal/caching/grouped_cache.go:59-80 | Says whether the key was new to the group, which then has it; no group has a key that it did not have, at most the least recent group is lost, and only to make room, and the other groups lose no key. |
| Caching.GroupedSet.MakeRoom | internal/caching/grouped_cache.go:60-80 | Evicts exactly the least recently used group, and only at capacity. |
| Caching.GroupedSet.RemoveGroupsLessThan | internal/caching/grouped_cache.go:82-92 | Removes exactly the groups below, and reports whether there were any. |
| Caching.GroupedSet.Evict | internal/caching/grouped_cache.go:94-106 | Removes one group, recycles its set, and changes no other. |
| CachingValidators.CachedMessage | gpbft/validator.go:194-215 | Each message key stored stands only for messages that uncached validation accepts. |
| CachingValidators.CachedJustification | gpbft/validator.go:427-448 | Each justification key stored stands only for aggregates that verify for that value key. |
| CachingValidators.GetSigners | gpbft/types.go:96-121 | Succeeds exactly if every signer is in the table with power, and returns their total. |
| CachingValidators.CachingValidator.ValidateJustificationSignature | gpbft/validator.go:451-470 | Accepts exactly aggregates of a strong quorum over the payload with that value key. |
| CachingValidators.CachingValidator.ValidateJustification | gpbft/validator.go:333-449 | The verdict is the one of uncached validation, whatever the cache holds. |
| CachingValidators.CachingValidator.ValidateMessageWithVoteValueKey | gpbft/validator.go:194-292 | The same for a message with or without a value key; an accepted one that has a cache key is cached afterwards. |
| CachingValidators.CachingValidator.ValidateMessage | gpbft/validator.go:72-92 | The same for direct validation; the accepted message is cached. |
| CachingValidators.CachingValidator.PartiallyValidateMessage | gpbft/validator.go:94-115 | The same for the first stage. |

## Left out

- Liveness: alarms, timeouts, backoff and rebroadcast scheduling only appear as arbitrary clock readings. Decision is shown for a common input under synchrony; runs with different inputs or under asynchrony are covered by the safety theorems only.
- Cryptography: BLS signatures, aggregation, VRF tickets and hash functions are abstract, and collisions and forgeries are excluded.
- Ticket ranks: the floating point formula for a rank is an arbitrary value, only its comparison is modelled.
- CBOR and JSON codecs: assumed to be lossless and injective.
- Concurrency inside a node: goroutines, locks, publish/subscribe, metrics and tracing are not modelled; a node's steps are atomic except for the crashes that are modelled.
- Certificate exchange, chain exchange, EC backends, manifests, the observer and the simulator: they move data to the parts modelled here.
- Certificate store: deletion with tombstones, subscribers and the caching of autobatched writes are not modelled.
- Integer width: instances and rounds do not overflow; the largest round is modelled only as the validator's wildcard.
- Network.StepInv: what a participant does in the largest round itself, whose successor is 0 in the code, is not modelled.
- Snapshot reading: a length that exceeds memory is not modelled as an allocation failure.
- Actor identities: each honest actor of `Network` is one participant; `Hosts` covers several peers that share an actor.
- Participant: the switch to the next instance and the validation entry points around the queue only delegate.
- GpbftInstances.GpbftInstance.Receive: assumes that a DECIDE is not for bottom, which validation guarantees.
- GpbftInstances.GpbftInstance.ReceiveMany: the same assumption on each message.
- GpbftInstances.GpbftInstance.TryConverge: admissible values are collected first and then searched, where the code calls the filter during the search.
- GpbftInstances.GpbftInstance.Terminate: stated for a value with a quorum of DECIDE, which its only caller has established.
- Tables.MakePowerTableDiff: stated for unique entries, as the code documents (certs/certs.go, lines 198-200).
- Admission.AcceptedIsValid: signatures cannot be forged, for the votes of this instance; `Admission.Governs` states it.
- Hosts.SingleSignature: states one direction for whole runs; the exact conditions are those of `Hosts.FinalExactly` for the log and of `Equivocation.TwoSignaturesExactly` for the filter.
- Equivocation.EquivocationFilter.ProcessReceive: the filter offers it, but host.go does not call it, so that in the repository itself no slot is taken.
- Runners.Runner.BroadcastMessage: the message is already signed; encoding and topic errors are the case that it is not sent.
- WriteAheadLogs.WriteAheadLog.Append: a record that was written but not synced stays readable; that the machine stops before it reaches the disk is not modelled.
- Hosts.FinalExactly: that a record which was not synced is lost when the machine stops is not modelled here either; a crash stops the process only.
- Synchrony.EverySynchronousRun: Byzantine actors are silent in these runs; with them active only the safety theorems apply.
- RoundStates.BuildFrom: the aggregate is a function of the signers and the vote, as an actor has one valid signature for a vote; it is not computed from the stored signatures, which `QuorumState.FindStrongQuorumFor` returns.
- Decisions.DecisionCertified: availability of the committees of the two instances is assumed.
- Caching.GroupedSet.Add: the pool of recycled sets may hand out any of its sets or a new one.
