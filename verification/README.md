# Human Network: a verified model of its threshold-key protocol

The Human Network keeps secret keys that no single node knows. A quorum of provers
creates a key together, answers requests with it, and hands it over to a new quorum
at every re-election. This project models that protocol in Dafny and proves what it
promises: one key survives any number of hand-overs, the distributed rounds never
get mixed up or stuck, and any sufficient set of members gives the right answer.

## How the model is laid out

| file | what it models |
|---|---|
| `Field.dfy`, `Polynomial.dfy`, `Sums.dfy` | scalars modulo a prime, polynomials, Lagrange interpolation at zero, sums over hash maps in any order |
| `Vss.dfy` | Feldman's commitments and the share check |
| `Dkg.dfy`, `Resharing.dfy`, `Epochs.dfy` | the three rounds of key generation and of resharing, and whole histories of epochs |
| `DkgSoundness.dfy` | what the checks of rounds 2 and 3 are worth when the dealers may send anything |
| `Election.dfy` | the relay's election actor: who has finished a stage, when the next one starts |
| `DkgEngine.dfy`, `DkgActor.dfy` | the DKG engine of a prover: its handlers as functions, and the actor that updates its state in place, proved against them |
| `EngineSafety.dfy` | one engine among peers that may send it anything |
| `Protocol.dfy` | one resharing attempt as a state machine: relay, provers, mailboxes and a gossip network that delays, reorders and loses messages |
| `ProtocolSafety.dfy`, `Barriers.dfy` | the invariant of that state machine, and what it gives for every run |
| `ProtocolProgress.dfy`, `Termination.dfy` | every attempt ends, and without loss it ends with every new member prepared |
| `Generations.dfy` | the network's life: the key generation, then any number of attempts, each from the state the last one left, with provers that save and restart |
| `Dleq.dfy`, `Reconstruct.dfy`, `RelayCollection.dfy` | proofs of equal logarithms, reconstruction, the oblivious PRF, and the relay collecting answers |
| `Encryption.dfy` | ElGamal encryption with Koblitz's mapping |
| `NodeSelection.dfy` | the choice of nodes for a request and for an election |
| `GroupKeyVote.dfy` | how the relay settles the reported group keys |

Conventions. A scalar is an integer modulo an arbitrary prime above 2^32; inverses are
constructed by Bezout's identity. A point of the prime-order group is its logarithm:
the generator is 1, `scalar_mul` is multiplication and `add_self` is addition, so
"k times the point" and equality of points keep their meaning. Hash functions, random
coefficients and random streams are arguments. RSA is a channel whose messages only
their recipient opens. A hash map is iterated in any order. A failed Rust `assert!` is
the outcome `Panic`.

What an attempt assumes (`Protocol.SetupOk`, `Protocol.Start`). The relay has just
announced it; no message of an earlier attempt is in a mailbox, since the messages
carry no attempt number. T* and the new quorum are the provers that act, each with its
own index, the same in both maps and in its engine. What their engines otherwise hold
from earlier attempts is arbitrary, or they have none. A prover of T* holds its share,
in its engine or on disk, and the group keys are those the shares of T* amount to. No
gossip copy is delivered twice. `Generations.AttemptBegins` derives all that concerns
engines, shares and keys from what earlier attempts, and first of all the key
generation, left behind; what remains assumed there is that a prover's index never
changes, that T* comes from the current quorum and reaches its threshold, and that a
member does not restart with unsaved shares.

## What the code does and does not keep

Some properties one would expect hold only under a condition. The code is modelled as
it is, and the condition is exact in each case.

- The share check raises the index to powers in 128 bits. It is exact precisely when
  index^(t-1) stays below 2^128 (`Vss.VssExact`); above that the powers wrap around in
  a release build. The source does not say so.
- Interpolation needs distinct indices, precisely (`Polynomial.InterpolationExact`).
  The relay does not look for repeated indices (`RelayCollection.RepeatedIndices`).
- T* must be at least as large as the threshold of the quorum it comes from, precisely
  (`Epochs.TstarSize`). The relay compares it with the threshold of the first election,
  which no re-election updates; that guard is right precisely while the current
  threshold is not above the first one (`Epochs.FirstThresholdGuard`). With a T*
  that is too small, round 2 refuses unless its weighted shares happen to amount to
  the key (`Epochs.HonestAccepted`), so another key is never taken over.
- A report from a peer that was not asked for, arriving after a barrier has opened,
  makes the relay give the same signal again (`Election.BarrierOpens`).
- The barriers of the first key generation do not ask whether a report is a repetition,
  so after they have opened every further report repeats the signal
  (`Election.DkgBarrierOpens`).
- The relay stores an answer with the index zero, and panics precisely when one is among
  the first answers that suffice (`RelayCollection.PanicsExactly`).
- A zero mask is refused on secp256k1, while BabyJubJub unwraps the missing inverse
  first and panics (`Reconstruct.Unmask`).
- Decryption returns the message precisely when the mapped number is below the field's
  modulus and the point is not the identity (`Encryption.ElGamalRoundTrip`). The
  message that denotes one is mapped to the identity (`Encryption.IdentityMessage`).
- The weighted choice compares with "at least" where a draw starts at zero, so the first
  node has one draw too many and the last one with a positive weight one too few
  (`NodeSelection.DrawCounts`).
- A node without weight that comes first is chosen by a draw of exactly zero
  (`NodeSelection.WeightlessChosen`).
- Sampling without replacement builds a result when too few weighted nodes are left and
  drops it, so it goes on to the end of its loop; the result is the same
  (`NodeSelection.SampleNoReplace`).

## Model

| member | source | states |
|---|---|---|
| `Field.Invert` | network/crates/cryptography/src/polynomial.rs:73-92 | a scalar has an inverse exactly when it is not zero, and the inverse inverts it, so the unwrap in the Lagrange loop never fails |
| `Field.IndexDifference` | network/crates/cryptography/src/polynomial.rs:73-92 | two different 32-bit indices stay different modulo the prime |
| `Polynomial.EvalIsHorner` | network/crates/cryptography/src/polynomial.rs:56 | evaluation by powers is Horner evaluation reduced once at the end |
| `Polynomial.AddEval` | network/crates/cryptography/src/polynomial.rs:60-70 | the value of a coefficientwise sum is the sum of the values |
| `Polynomial.LagrangeBasisAt0` | network/crates/cryptography/src/polynomial.rs:73-92 | the loop yields the Lagrange coefficient at zero of an index among any list of indices, skipping equal ones |
| `Polynomial.Interpolation` | network/crates/cryptography/src/polynomial.rs:73-92 | for every polynomial and every list of distinct indices at least as long, the weighted values sum to the value at zero |
| `Polynomial.InterpolationExact` | network/crates/cryptography/src/polynomial.rs:73-92 | every polynomial with as many coefficients as indices is recovered if and only if the indices are distinct |
| `Sums.LagrangeAlong` | network/crates/cryptography/src/dkg.rs:223-241 | the coefficient does not depend on the order in which the hash map lists the indices |
| `Sums.Reconstruction` | network/crates/cryptography/src/resharing.rs:137-157 | additive shares made from any sufficient set of shares, summed in any order, give the value at zero |
| `Vss.FeldmanVss` | network/crates/cryptography/src/polynomial.rs:94-109 | every member gets the polynomial's value at its id, and the commitments are those of the coefficients |
| `Vss.VerifyVss` | network/crates/cryptography/src/polynomial.rs:110-123 | the check with 128-bit powers, as the comparison of the share with the wrapped sum of powers times commitments |
| `Vss.AcceptsMeans` | network/crates/cryptography/src/polynomial.rs:110-123 | without wrap-around a share is accepted exactly when it is the committed polynomial's value |
| `Vss.VssExact` | network/crates/cryptography/src/polynomial.rs:110-123 | for every index below the prime, the check is exact for all shares and commitments if and only if index^(t-1) is below 2^128 |
| `Vss.HonestShareAccepted` | network/crates/cryptography/src/polynomial.rs:94-123 | every share made by the dealer passes |
| `Dkg.NewNetwork` | network/crates/cryptography/src/dkg.rs:62-81 | a network is made exactly when 1 <= t <= n and n >= 2 for T*, and 1 <= t < n and n >= 3 for a new quorum |
| `Dkg.DkgRound1` | network/crates/cryptography/src/dkg.rs:141-166 | the other members' encrypted shares, the commitments and the own share; an error when the node is not a member |
| `Dkg.OpenShares` | network/crates/cryptography/src/dkg.rs:180-216 | succeeds exactly when every ciphertext is for this node and every share fits its dealer's commitments, and returns the shares |
| `Dkg.FoldValues` | network/crates/cryptography/src/dkg.rs:180-216 | folding over a hash map gives the sum whatever the order |
| `Dkg.DkgRound2` | network/crates/cryptography/src/dkg.rs:180-216 | share, public share and group key, or the first failure: wrong counts panic, then decryption, then the share check; when each happens is `DkgSoundness.Round2Exact` |
| `Dkg.DkgRound3` | network/crates/cryptography/src/dkg.rs:223-241 | the group key reconstructed from all public shares, compared with the stored one; when it passes is `DkgSoundness.Round3Exact` |
| `Dkg.SumPolyEval` | network/crates/cryptography/src/dkg.rs:180-216 | the sum of all dealers' polynomials has the sum of their values |
| `Dkg.HonestRound2` | network/crates/cryptography/src/dkg.rs:180-216 | among honest nodes every node accepts, with share F(i) and group key F(0) for F the sum of all polynomials |
| `Dkg.HonestRound3` | network/crates/cryptography/src/dkg.rs:223-241 | round 3 passes on evaluations of one polynomial at all members, when it has no more coefficients than there are members |
| `Dkg.DkgEndToEnd` | network/crates/cryptography/src/dkg.rs:141-241 | the three rounds together, for every choice of polynomials and every node |
| `DkgSoundness.Round2Exact` | network/crates/cryptography/src/dkg.rs:180-216 | for every input, round 2 panics exactly on wrong counts, fails to decrypt exactly with a share for another node, and accepts exactly when the shares come from those who committed and each is a value of its commitment |
| `DkgSoundness.DkgSound` | network/crates/cryptography/src/dkg.rs:180-216 | whatever the dealers sent, an accepted share is the value at the id, and the group key the value at zero, of the sum of all committed polynomials |
| `DkgSoundness.KeyGenerationSound` | network/crates/cryptography/src/dkg.rs:141-216 | if round 2 accepts at every member, whatever was sent, the shares lie on one polynomial with t coefficients and the group key is its constant |
| `DkgSoundness.ReshareExact` | network/crates/cryptography/src/resharing.rs:82-130 | the same classification for round 2 of a resharing, which also asks that the commitments amount to the group key |
| `DkgSoundness.Round3Outcome` | network/crates/cryptography/src/dkg.rs:223-241 | for every input, round 3 passes exactly with as many public shares as nodes, one of every member, whose weighted sum is the stored group key; a missing member is an error |
| `DkgSoundness.Round3Exact` | network/crates/cryptography/src/dkg.rs:223-241 | public shares on a polynomial pass if and only if the stored key is its value at zero, and panic otherwise |
| `DkgSoundness.Round3Refuses` | network/crates/cryptography/src/resharing.rs:137-157 | one changed public share makes a passing set panic, unless it is the same modulo p, since no Lagrange coefficient is zero |
| `Resharing.ResharingRound1` | network/crates/cryptography/src/resharing.rs:40-68 | the dealer shares its share times its Lagrange coefficient over T*, with the random coefficients as the others |
| `Resharing.ResharingRound2` | network/crates/cryptography/src/resharing.rs:82-130 | the new share, or the first failure: counts, decryption, share check, group key |
| `Resharing.AcceptedInputs` | network/crates/cryptography/src/resharing.rs:90-129 | acceptance pins down the dealers: shares and commitments come from the same ones, and each share is a value of its commitment |
| `Resharing.ResharingSound` | network/crates/cryptography/src/resharing.rs:90-129 | whatever the dealers sent and however few they were, an accepted share is a value of the one polynomial their commitments define, whose constant is the old group key |
| `Epochs.TransferKeepsSecret` | network/crates/cryptography/src/resharing.rs:82-130 | a transfer that every new member accepted shares the same secret among the new quorum |
| `Epochs.RunKeepsSecret` | network/crates/cryptography/src/resharing.rs:40-157 | over every sequence of completed resharings every epoch shares the first secret and the group key never changes |
| `Epochs.RunReconstructs` | network/crates/cryptography/src/resharing.rs:40-157 | after a key generation and any completed resharings, any threshold-many current members hold the secret of the key generation |
| `Epochs.HonestAccepted` | network/crates/cryptography/src/resharing.rs:82-130 | honest dealers are accepted if and only if the weighted shares of T* amount to the group key |
| `Epochs.HonestShare` | network/crates/cryptography/src/resharing.rs:82-130 | ... and then each share is a value of the sum of their polynomials |
| `Epochs.HonestTransferCompletes` | network/crates/cryptography/src/resharing.rs:40-157 | with T* of at least the old threshold, honest dealers always complete and round 3 passes at every new member |
| `Epochs.TstarSize` | network/crates/cryptography/src/resharing.rs:40-68 | every old secret survives a resharing by T* if and only if T* is at least as large as the old threshold |
| `Epochs.FirstThresholdGuard` | network/crates/actors/src/election_actor.rs:406 | comparing T* with the first election's threshold lets through only sufficient T* if and only if the current threshold is not above it |
| `Election.TstarMembers` | network/crates/actors/src/election_actor.rs:394-403 | T* is exactly the reachable part of the previous quorum, without repetition |
| `Election.ElectionEngine.constructor` | network/crates/actors/src/election_actor.rs:255-275 | nobody elected, nothing recorded |
| `Election.ElectionEngine.TriggerReElection` | network/crates/actors/src/election_actor.rs:281-480 | clears every status; starts an attempt exactly when enough peers are reachable, the sampling gave a result and T* reaches the stored threshold, and then with T* and the first `min_nodes` of the sample, which is all of a sample of that size; otherwise keeps the lists |
| `Election.ElectedFromSample` | network/crates/actors/src/election_actor.rs:414-430 | a sample without repetition elects provers without repetition, all from the sample, and all of it when it is not larger than asked for |
| `Election.ElectionEngine.RecordDKGInitNodeStatus` | network/crates/actors/src/election_actor.rs:599-633 | a stage of the first key generation: records an elected prover and starts round 1 whenever all are recorded |
| `Election.ElectionEngine.RecordDKGRound1NodeStatus` | network/crates/actors/src/election_actor.rs:691-725 | the same; starts round 2 |
| `Election.ElectionEngine.RecordDKGRound2NodeStatus` | network/crates/actors/src/election_actor.rs:765-799 | the same; starts round 3 |
| `Election.ElectionEngine.RecordRelectionNodeStatus` | network/crates/actors/src/election_actor.rs:558-596 | records a participant once and starts the initialisation when all participants are recorded |
| `Election.ElectionEngine.RecordResharingInitNodeStatus` | network/crates/actors/src/election_actor.rs:634-689 | the same over the distinct peers of both lists, which the loop collects; starts round 1 |
| `Election.ElectionEngine.RecordResharingRound1NodeStatus` | network/crates/actors/src/election_actor.rs:726-764 | records an elected prover once; starts round 2 |
| `Election.ElectionEngine.RecordResharingRound2NodeStatus` | network/crates/actors/src/election_actor.rs:800-838 | records an elected prover once; starts round 3 |
| `Election.RecordedAfter` | network/crates/actors/src/election_actor.rs:558-838 | after any reports exactly the required peers among them are on record |
| `Election.BarrierOpens` | network/crates/actors/src/election_actor.rs:558-838 | a report opens the next stage if and only if all required peers have reported by then and it is a required peer's first report or an outsider's |
| `Election.DkgBarrierOpens` | network/crates/actors/src/election_actor.rs:599-799 | in the key generation a report starts the next stage if and only if all elected provers have reported by then, whoever sends it and however often |
| `DkgActor.DkgEngineActor.constructor` | network/crates/actors/src/dkg_engine_actor.rs:1158 | an engine without a state |
| `DkgActor.DkgEngineActor.ClearNodes` | network/crates/actors/src/dkg_engine_actor.rs:682-708 | every node loses its inputs and public shares and nothing else |
| `DkgActor.DkgEngineActor.ClearShares` | network/crates/actors/src/dkg_engine_actor.rs:1183-1190 | clears if there is a state |
| `DkgActor.DkgEngineActor.TakePart` | network/crates/actors/src/dkg_engine_actor.rs:1305-1351 | an engine with a state clears its inputs, takes over the attempt and reports if it takes part |
| `DkgActor.DkgEngineActor.ResharingInit` | network/crates/actors/src/dkg_engine_actor.rs:1258-1398 | restores, takes part or starts afresh, or fails unchanged, by the sizes, the state and the membership |
| `DkgActor.DkgEngineActor.RegisterDeals` | network/crates/actors/src/dkg_engine_actor.rs:338-406 | every node with a share in the output registers it under the dealer |
| `DkgActor.DkgEngineActor.DealAll` | network/crates/actors/src/dkg_engine_actor.rs:1119-1151 | one dealer output for every key type |
| `DkgActor.DkgEngineActor.RunRound1` | network/crates/actors/src/dkg_engine_actor.rs:1575-1704 | publishes the outputs, registers the own one when re-elected, and reports when ready |
| `DkgActor.DkgEngineActor.StoreRound1Out` | network/crates/actors/src/dkg_engine_actor.rs:1768-1844 | a new member registers an output of T* and reports when it has as many as T* has provers for every key type |
| `DkgActor.DkgEngineActor.Round2Node` | network/crates/actors/src/dkg_engine_actor.rs:485-562 | round 2 of one key type: the node takes the new share, group key and own public share, or is unchanged |
| `DkgActor.DkgEngineActor.RunRound2` | network/crates/actors/src/dkg_engine_actor.rs:1914-1982 | round 2 of all key types, publishing the public shares and reporting when ready; when one fails, nothing is published and the key types before it, in some order of iteration, are updated |
| `DkgActor.DkgEngineActor.StorePubshares` | network/crates/actors/src/dkg_engine_actor.rs:2070-2146 | stores another new member's public shares and reports when complete |
| `DkgActor.DkgEngineActor.RunRound3` | network/crates/actors/src/dkg_engine_actor.rs:2151-2263 | fails or announces the new public shares, exactly as round 3 passes for all key types |
| `EngineSafety.HearsKeeps` | network/crates/actors/src/dkg_engine_actor.rs:1160-1217 | whatever message an engine handles, from anyone, it holds inputs only of T* and public shares only of the new quorum, none at all outside the new quorum, and under its own index its own public share |
| `EngineSafety.AlwaysGuarded` | network/crates/actors/src/dkg_engine_actor.rs:1160-1217 | ... so it does throughout its life, from its start without a state, in any order of any messages |
| `EngineSafety.ReadyExactly` | network/crates/actors/src/dkg_engine_actor.rs:1806-1822 | whoever sent what, as many inputs as T* has provers are those of exactly T*, and the same for public shares |
| `EngineSafety.SpeaksTruly` | network/crates/actors/src/dkg_engine_actor.rs:1258-2263 | what an engine publishes is about itself and true: it deals only in T*, publishes the shares it holds, reports only what is complete, and announces itself only when the public shares amount to the group key |
| `EngineSafety.ReportsAreComplete` | network/crates/actors/src/dkg_engine_actor.rs:1768-2146 | in every life of an engine, a report of round 1 means the inputs of exactly T*, and one of round 2 the public shares of exactly the new quorum |
| `EngineSafety.ReportsExactly` | network/crates/actors/src/dkg_engine_actor.rs:1768-2146 | ... and storing an output or public shares reports exactly when they are then complete |
| `EngineSafety.StartsOwnRound` | network/crates/actors/src/dkg_engine_actor.rs:1421-1521 | a start signal makes an engine tell itself a round exactly when the round is its own |
| `EngineSafety.StoresDeal` | network/crates/actors/src/dkg_engine_actor.rs:1768-1844 | a dealer's output goes under that dealer and nowhere else, in place of an earlier one |
| `EngineSafety.StoresPubshares` | network/crates/actors/src/dkg_engine_actor.rs:2070-2146 | public shares of another new member are stored under its index; a prover's own and those of outsiders are not |
| `EngineSafety.DealsAndFails` | network/crates/actors/src/dkg_engine_actor.rs:1575-1704 | a prover deals exactly as one of T* with accepted sizes, and fails exactly when it is re-elected under an index that the new quorum does not have |
| `EngineSafety.Round2Exactly` | network/crates/actors/src/dkg_engine_actor.rs:1914-1982 | whatever a new member was sent, its round 2 goes through exactly when for every key type the key is known, the inputs fit their commitments, and these amount to the key |
| `EngineSafety.Round3Exactly` | network/crates/actors/src/dkg_engine_actor.rs:2151-2263 | round 3 goes through exactly when the public shares amount to the group key for every key type |
| `EngineSafety.InitFails` | network/crates/actors/src/dkg_engine_actor.rs:1258-1398 | an initialisation fails exactly for the sizes, or for a share or key that a restarted prover of T* lacks, and then changes nothing |
| `EngineSafety.FirstEngine` | network/crates/actors/src/dkg_engine_actor.rs:896-1050 | a prover without a state starts with its shares from disk and the announced keys in T*, and with drawn shares otherwise |
| `ProtocolSafety.RecordKeeps` | network/crates/actors/src/election_actor.rs:558-838 | in an attempt the relay gives a signal only when everyone required has reported, and only once |
| `ProtocolSafety.DealsOnce` | network/crates/actors/src/dkg_engine_actor.rs:1421-1445 | a prover of T* deals at most once, and before round 2 starts |
| `ProtocolSafety.StartProverHandled` | network/crates/actors/src/dkg_engine_actor.rs:1421-1521 | a start signal never fails or publishes; after it at most the one round it starts is in the mailbox of a prover that may do it, and the invariant of an initialised prover holds |
| `ProtocolSafety.ReadyIsComplete` | network/crates/actors/src/dkg_engine_actor.rs:1806-1822 | counting the inputs is enough: as many as T* has provers means from exactly T* |
| `ProtocolSafety.Round2Computes` | network/crates/cryptography/src/resharing.rs:82-130 | on complete inputs round 2 passes with the value of the one new polynomial |
| `ProtocolSafety.InitEngine` | network/crates/actors/src/dkg_engine_actor.rs:1258-1398 | with accepted sizes every participant's initialisation succeeds and leaves an engine set up for this attempt with nothing received |
| `Barriers.RunInv` | network/crates/actors/src/dkg_engine_actor.rs:1160-1217 | every step of every run keeps the invariant of the attempt |
| `Barriers.InitBarrier` | network/crates/actors/src/election_actor.rs:634-666 | once a dealer's output is out, every participant has completed its initialisation and nothing that clears inputs is under way or in a mailbox |
| `Barriers.NothingWiped` | network/crates/actors/src/dkg_engine_actor.rs:1305-1346 | an initialised prover never loses a registered input |
| `Barriers.HandleKeepsInputs` | network/crates/actors/src/dkg_engine_actor.rs:1160-1217 | the two clearing messages are the only ones that lose inputs |
| `Barriers.Round1Barrier` | network/crates/actors/src/election_actor.rs:726-745 | when round 2 has started every new member holds, for every key type, inputs from exactly T*, of the sizes that the assertion of round 2 asks for |
| `Barriers.NeverFails` | network/crates/actors/src/dkg_engine_actor.rs:1914-2263 | with accepted sizes no handler of any engine ever fails or panics |
| `Barriers.NeverBlocked` | network/crates/actors/src/dkg_engine_actor.rs:1160-1217 | whatever is at the head of a mailbox can be handled |
| `Barriers.Reshared` | network/crates/actors/src/dkg_engine_actor.rs:2151-2263 | once round 3 has started the new quorum's shares are a sharing with the new threshold of the same secret, for every key type |
| `Barriers.NextAttempt` | network/crates/actors/src/election_actor.rs:393-420 | a sharing of the secret gives the next attempt what it needs, when its T* reaches the threshold |
| `Generations.AttemptBegins` | network/crates/actors/src/election_actor.rs:393-420 | whatever the relay elects from the quorum, the attempt starts from what an attempt assumes: the announced keys are those of the shares T* has, and every engine, restored or kept, is as it should be |
| `Generations.AttemptKeeps` | network/crates/actors/src/dkg_engine_actor.rs:1258-2263 | in a network whose quorum shares the secrets, every run of an attempt that has reached round 3 leaves a network whose new quorum shares the same secrets under the same keys |
| `Generations.KeyGenerationCompletes` | network/crates/cryptography/src/dkg.rs:141-241 | whatever polynomials a quorum deals, the key generation leaves a network of which the rest speaks |
| `Generations.AttemptFinishes` | network/crates/actors/src/election_actor.rs:281-480 | every election with valid sizes has a run that completes, so histories of any length exist |
| `Generations.AttemptsExist` | network/crates/actors/src/election_actor.rs:281-480 | the assumptions of an attempt can be met, by three provers that keep the quorum |
| `Generations.SecretEndures` | network/crates/actors/src/dkg_engine_actor.rs:1258-2263 | after the key generation and any number of finished attempts, saves and restarts, in any order of message delivery, any threshold-many members of the current quorum hold the secret of the key generation for every key type, and the announced key is its key |
| `ProtocolProgress.StageOpens` | network/crates/actors/src/election_actor.rs:558-838 | with no report under way, a stage that all required peers have reported has been followed by the next signal |
| `ProtocolProgress.InputsReportedWhenComplete` | network/crates/actors/src/dkg_engine_actor.rs:1806-1822 | inputs from exactly T* are reported as ready |
| `ProtocolProgress.Completes` | network/crates/actors/src/dkg_engine_actor.rs:1258-2263 | in a run without loss, when nothing is left to deliver or handle, every new member has gone through round 3 and announced its new public shares |
| `Termination.StepLoad` | network/crates/actors/src/dkg_engine_actor.rs:1160-1217 | every step of every kind, from any state, lowers a measure of what is left to do |
| `Termination.RunsEnd` | network/crates/actors/src/dkg_engine_actor.rs:1160-1217 | the number of steps of a run, with or without loss, is bounded by the number of participants alone |
| `Termination.StepExists` | network/crates/actors/src/dkg_engine_actor.rs:1160-1217 | as long as anything is under way, some step that loses nothing can be taken |
| `Termination.EndsPrepared` | network/crates/actors/src/dkg_engine_actor.rs:1258-2263 | every run without loss can be carried on to one in which every new member has announced its public shares, and one that cannot be carried on is already such a run |
| `Dleq.AcceptedFalseStatement` | network/crates/cryptography/src/lib.rs:177-186 | accepting a false statement takes a hash of the recomputed commitments that hits the one challenge they fit |
| `Dleq.HonestProofVerifies` | network/crates/cryptography/src/lib.rs:156-186 | an honest proof verifies and yields the secret times the input |
| `Dleq.HonestCommitments` | network/crates/cryptography/src/lib.rs:156-176 | the commitments recomputed from an honest proof are the nonce and the nonce times the input, and the challenge is the hash of all five points |
| `Dleq.TranscriptsDetermineScalar` | network/crates/cryptography/src/lib.rs:177-186 | two accepting transcripts with the same commitments and different challenges determine the scalar, which multiplies both points |
| `Dleq.FalseStatementFixesChallenge` | network/crates/cryptography/src/lib.rs:177-186 | for a false statement a pair of commitments fits at most one challenge |
| `Reconstruct.ThresholdUnchecked` | network/crates/cryptography/src/reconstruct.rs:54-63 | the answers weighted by their Lagrange coefficients, up to the shorter list; panics exactly when an index it works for is zero |
| `Reconstruct.Threshold` | network/crates/cryptography/src/reconstruct.rs:33-52 | at the first answer that does not pass, fails if its proof is invalid and panics if only its index is zero; otherwise agrees with the unchecked reconstruction from the proven outputs |
| `Reconstruct.AnyoneMayAnswer` | network/crates/cryptography/src/reconstruct.rs:54-63 | any members with distinct indices, enough of them and in any order, give the secret times the point |
| `Reconstruct.HonestThreshold` | network/crates/cryptography/src/reconstruct.rs:33-52 | on honest proofs all verify and the result is the secret times the point |
| `Reconstruct.MaskCancels` | network/crates/cryptography/src/lib.rs:86-102 | multiplying by the inverse of the mask removes it |
| `Reconstruct.OprfPipeline` | network/human-network-sdk/src/lib.rs:628-637 | masking, any sufficient answers, reconstruction and unmasking give the hash of the secret times the hashed input, for every non-zero mask |
| `Reconstruct.OprfWithServer` | network/crates/cryptography/src/lib.rs:86-108 | with one server the client ends with the hash of the secret times the hashed input, for every non-zero mask and every nonce |
| `Reconstruct.ClientAccepts` | network/crates/cryptography/src/lib.rs:95-102 | the client ends with a hash exactly when the proof verifies and the mask is not zero, and for a true proof it is the right one |
| `RelayCollection.RelayRecord.constructor` | network/crates/actors/src/app_state_actor.rs:2342-2347 | an empty collection |
| `RelayCollection.RelayRecord.ProcessVerification` | network/crates/actors/src/app_state_actor.rs:110-185 | with enough nodes the point is the reconstruction from all stored results, and the batch is marked; panics when an index is zero |
| `RelayCollection.RelayRecord.ProcessReceivedProof` | network/crates/actors/src/app_state_actor.rs:2258-2450 | an invalid proof changes nothing; a valid one is counted and stored, and processed unless the batch is marked |
| `RelayCollection.StoredWhenProven` | network/crates/actors/src/app_state_actor.rs:2325-2350 | over every order of arrivals, a result is added exactly when its proof verifies under the sender's key share, and is what the proof proves |
| `RelayCollection.CollectedAlways` | network/crates/actors/src/app_state_actor.rs:2334-2378 | over every order of arrivals the count is the number of stored results, the point is there exactly from the threshold on, unless the relay has panicked, and the status says so |
| `RelayCollection.PanicsExactly` | network/crates/actors/src/app_state_actor.rs:2349-2378 | the relay panics exactly when one of the first results that suffice has the index zero |
| `RelayCollection.PointIsFinal` | network/crates/actors/src/app_state_actor.rs:2373-2380 | no later arrival changes the point |
| `RelayCollection.CollectionAnswers` | network/crates/actors/src/app_state_actor.rs:126-178 | with distinct positive indices the point is the secret times the requested point once enough members have answered, and absent before |
| `RelayCollection.HonestArrival` | network/crates/actors/src/app_state_actor.rs:2325-2350 | an honest member's proof is accepted and stores its share times the point |
| `RelayCollection.RepeatedIndices` | network/crates/actors/src/app_state_actor.rs:2349-2350 | true answers give the right point for every secret polynomial of that many coefficients if and only if no index is repeated |
| `Encryption.KoblitzMap` | network/crates/cryptography/src/encryption.rs:59-80 | stops at the first counter with a point in the subgroup, or fails when there is none |
| `Encryption.MappedFrom` | network/crates/cryptography/src/encryption.rs:59-80 | the point has the coordinate that counter and message denote and the sign of the message, for the first counter that has a point |
| `Encryption.KoblitzRoundTrip` | network/crates/cryptography/src/encryption.rs:59-94 | the point gives the message back if and only if the number was below the modulus and the point is not the identity |
| `Encryption.SafeCounter` | network/crates/cryptography/src/encryption.rs:55-62 | a counter below 0x30644E72E131A029 never passes the modulus |
| `Encryption.IdentityMessage` | network/crates/cryptography/src/encryption.rs:59-94 | the message one is mapped to the identity and is not decoded |
| `Encryption.EncryptElgamal` | network/crates/cryptography/src/encryption.rs:96-108 | the mapped point hidden by the shared secret, with the ephemeral key, or the mapping's failure |
| `Encryption.SecretCancels` | network/crates/cryptography/src/encryption.rs:110-115 | subtracting the shared secret returns the message's point |
| `Encryption.ElGamalRoundTrip` | network/crates/cryptography/src/encryption.rs:96-115 | a message encrypted to the group key is decrypted with any sufficient members' answers for the ephemeral key in the ciphertext, exactly under the condition of the mapping |
| `NodeSelection.CalcNodesToSendTo` | network/crates/cryptography/src/node_selection.rs:34-55 | the nodes chosen one after the other without replacement, cut to 32 bits; reducing modulo zero exactly when there are too few |
| `NodeSelection.ChosenIs` | network/crates/cryptography/src/node_selection.rs:34-55 | the j-th node chosen is the one that the j-th number points to among those left, modulo how many they are |
| `NodeSelection.RemovedPositions` | network/crates/cryptography/src/node_selection.rs:50 | removing a node keeps the order of the others |
| `NodeSelection.ShouldBeSentToNode` | network/crates/cryptography/src/node_selection.rs:71-93 | true exactly for the members of the choice from the sorted list |
| `NodeSelection.FastCheckRefines` | network/crates/cryptography/src/node_selection.rs:34-93 | on any permutation of indices below 2^32 the fast check is true exactly for the members of the full choice on the sorted list, which has the right number of nodes, all distinct if the indices are |
| `NodeSelection.WeightedSample` | network/crates/cryptography/src/node_selection.rs:108-149 | chooses exactly when the total weight is positive, and then the first node whose running sum reaches the draw |
| `NodeSelection.DrawCounts` | network/crates/cryptography/src/node_selection.rs:108-149 | among all draws a node is chosen as often as its weight says, but for one draw that moves from the last weighted node to the first node |
| `NodeSelection.SampleOne` | network/crates/cryptography/src/node_selection.rs:152-181 | chooses nothing exactly when no node has weight; the fallback after the loop is never taken |
| `NodeSelection.SampleNoReplace` | network/crates/cryptography/src/node_selection.rs:331-364 | the k-th draw takes the k-th chosen node, on which it lands, out of the nodes left; chosen and remaining nodes are the given ones; a result has n nodes, or at least the minimum with only weightless nodes left; a valid request without a result has fewer weighted nodes than the minimum; n nodes of positive weight always give n |
| `NodeSelection.SampledOnce` | network/crates/cryptography/src/node_selection.rs:331-364 | the draws determine the sample |
| `NodeSelection.WeightlessChosen` | network/crates/cryptography/src/node_selection.rs:152-181 | a node without weight is chosen exactly when it is the first and the draw is zero |
| `GroupKeyVote.CountValues` | network/crates/actors/src/app_state_actor.rs:1938-1950 | the nested maps hold how often each value was reported for each name |
| `GroupKeyVote.ResolveConflicts` | network/crates/actors/src/app_state_actor.rs:1938-1962 | exactly the reported names are settled, each on a value reported most often, in any order of iteration |
| `GroupKeyVote.MajorityWins` | network/crates/actors/src/app_state_actor.rs:1952-1958 | a value that more than half of a name's reports give is the one chosen |
| `GroupKeyVote.SettledValue` | network/crates/actors/src/app_state_actor.rs:1938-1962 | a name is settled exactly when some report has it, on a value that some report gives and that no value is given more often than, counting reports |

## Left out

- Dkg.DkgRound1: the random polynomial is an argument, and RSA encryption cannot fail.
- NodeSelection.SampleOne: exact real weights, not the rounding of 64-bit floating point, in which the fallback could be taken.
- RelayCollection.RelayRecord.ProcessReceivedProof: the count of nodes is not bounded by 32 bits.
- Barriers.NeverFails: needs sizes that `Network::new` accepts; with others the handlers return errors, which the handlers of the model do too.
- ProtocolProgress.Completes: nothing is said when messages are lost, which the source repairs by a timer and a new election.
- Generations.SecretEndures: attempts that do not finish are not part of a history; the engine then keeps what it has, and the source elects again.
- The key generation is modelled by its rounds and by when its barriers open, not as a state machine of messages.
- EngineSafety.ReportsAreComplete: for announced indices that are distinct and, for the engine itself, its own; the source does not check either.
- Points and ciphertexts that do not decode are not modelled; the source rejects them where they are registered.
- Peers outside T* and the new quorum do not act in the state machine; what one of their reports does to the relay is stated by Election.BarrierOpens.
- An engine that has a state keeps the index it was created with; the model assumes that it is the announced one, since the register of provers gives each its index for good.
- Saving and rolling back state: the DKG engine is not part of it in the source, so statements about epochs are about resharings that complete.
- `Network::add_node`, `calculate_threshold` in floating point, `update_threshold`, `additive`, Schnorr signatures and the mask proof of JWTs would only add easy members.
- libp2p, Redis, Kafka, IPFS, drand, JWTs, the ingester and the command line are transport and storage; cache expiry is not modelled.
- Secrecy and security against attackers are not stated anywhere; the share check, the group-key check and the two DLEQ transcript facts are about what acceptance implies.
