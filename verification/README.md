# Proofs about the compliance pipeline

The program screens names against sanctions lists, issues and revokes credentials, publishes a roster of
current credentials, and keeps evidence under retention rules. This project models the parts of it whose
correctness is not visible in one function, and proves what they promise. `dafny verify dfyconfig.toml`
checks everything.

* **Retrieval.** `Prelude`, `Sorting`, `EditDistance`, `EditRetrieval`, `NameScores`, `NameIndex`: the restricted
  Damerau-Levenshtein distance against a definition by edit scripts; the deletion-key and bigram indexes lose
  no token within the supported edits; the indexed name lookup returns what scoring every name returns.
* **Authenticated data.** `Hashing`, `RosterTree`, `RosterProofs`, `MerkleClaims`, `Rlp`, `ReceiptTrie`: the
  sorted roster tree with its inclusion and adjacency proofs, the claim tree, and the Ethereum receipt trie
  (Yellow Paper appendices B, C and D; EIP-2718). Digests are a hash parameter; a theorem that needs collision
  freeness asks it of the finite set of strings the two sides hash, never of all strings.
* **Lifecycle replay.** `LifecycleReplay`: the fold over source events, its declarative meaning, and resumption
  from a checkpoint. `SourceReplay`: the checks of headers, receipts, log coordinates and receipts roots that a
  block passes before it is folded. `SourceRoster`: cutoff, scan, selection, tree and final rechecks as one run,
  and what a proof against the published root says about the events on the source chain.
* **Issuance.** `IssuanceJournal` is the Redis script as a class and as one atomic step; `IssuanceDelivery` runs
  any number of delivery workers over it, stopped at their awaits, with crashes, stalls and lost replies as
  actions; `IssuanceProgram` is the delivery function as a structured program, proved to move as such a worker
  does; `IssuanceBudget` is the daily gas ledger.
* **Evidence.** `EvidenceVault` is the vault as a class whose mutations are transactions; `VaultHistory` proves
  what holds over every sequence of mutations; `VaultFile` is the file between several writers, their lock, failed
  writes and deaths; `RevocationDelivery` is the outbox run over the class.
* **Publication and bank challenges.** `PublicationJournal` and `PublicationDelivery` (journal with its file,
  process restarts and unacknowledged writes), `BankState` (the Redis and the demonstration store, separately).

State that the source changes in place is a class here. Each of its methods is proved against a function from
the old state and the arguments to the new state and the answer; the invariants, the statements over whole runs
and the refinements are lemmas about that function.

Findings. The early return inside `boundedEditDistance` (aml/edit-distance.ts:40) never fires: it needs a row
further below the other token's end than the bound, and the length check on line 26 has refused such pairs. The
second error of `nonInclusionProof` (pipeline/roster.ts:191) is dead for trees that `buildRoster` makes. The
bundle's proof service (pipeline/roster-bundle.ts:83-102) returns an answer that verifies exactly for subjects
whose key is no sentinel: at the upper sentinel it throws, at the lower one it returns the lowest pair of
neighbours, which no verifier accepts. A record put already blocked has no revocation job until it is condemned
again or recovered. The two bank stores answer differently exactly on a call for a current challenge whose
record or flow window has run out unswept and whose state lets the demonstration store say more than that it is
unavailable. A publication step broadcasts bytes whose confirmation is already on file exactly when a call of its
process, in practice another step, confirmed the entry while it waited.

## Model

| member | source | states |
|---|---|---|
| EditDistance.OsaIsMinimum | aml/edit-distance.ts:30-39 | the recurrence of the matrix is the least cost of any script of non-overlapping insertions, deletions, substitutions and adjacent swaps, and some script attains it |
| EditDistance.StepAddsItsPrice | aml/edit-distance.ts:34-37 | one more edit step never raises the distance by more than its price, for each kind of step |
| EditDistance.OsaIsSymmetric | aml/edit-distance.ts:23-43 | the distance is symmetric, which the index lookup relies on in place of a triangle inequality |
| EditDistance.LengthGapBoundsOsa | aml/edit-distance.ts:26 | the length difference bounds the distance from below, so the length shortcut refuses only pairs that are too far apart |
| EditDistance.OsaZeroIffEqual | aml/edit-distance.ts:23-43 | distance zero means equal tokens and conversely |
| EditDistance.FillMatrix | aml/edit-distance.ts:27-41 | filling the array row by row leaves in its corner the value any solution of the recurrence has there |
| EditDistance.BoundedEditDistance | aml/edit-distance.ts:23-43 | for all inputs the result is the distance capped at one above the bound, and an unsafe or negative bound is refused |
| EditRetrieval.WithinOneEdit | aml/edit-distance.ts:53-56 | true exactly for equal tokens or two eligible tokens at distance at most one |
| EditRetrieval.WithinSupportedEdits | aml/edit-distance.ts:58-63 | true exactly for equal tokens or two within the smaller of their supported edit limits |
| EditRetrieval.SupportedEditsSymmetric | aml/edit-distance.ts:58-63 | being within the supported edits does not depend on which token is the query |
| EditRetrieval.OneEditSharesDeletionKey | aml/edit-distance.ts:11-15 | any two eligible tokens one edit apart share a deletion key |
| EditRetrieval.FewEditsShareBigram | aml/edit-distance.ts:46-51 | pigeonhole: a token of at least three code points per edit keeps a boundary bigram in common with the edited token |
| EditRetrieval.TwoEditsShareGram | aml/edit-distance.ts:46-51 | any two tokens that admit two edits and are at distance at most two share a gram of the index |
| EditRetrieval.ShorterTokensCanShareNothing | aml/edit-distance.ts:5 | one code point below that bound, k edits can destroy every shared bigram: a pair for every k |
| EditRetrieval.MinTwoEditTokenIsLeast | aml/edit-distance.ts:5 | the constant 6 is exactly the least length from which two edits always leave a shared bigram |
| EditRetrieval.RetrievalIsExact | aml/match.ts:128-140 | a token is found through the two indexes exactly when it is within the supported edits of the query token |
| NameScores.ComputeNameScore | aml/match.ts:97-111 | the counting loop computes the score of the two word sets |
| NameScores.NameScoreRange | aml/match.ts:97-111 | the score is a proportion, positive exactly when a word is shared, and full exactly when the word sets are equal and not empty |
| NameScores.NameScoreSymmetric | aml/match.ts:97-111 | word order and the side of the query do not matter |
| NameScores.ComputeEditNameScore | aml/edit-distance.ts:66-88 | exact words first, then the ranked pairs taken greedily: the loops compute the greedy assignment's score |
| NameScores.RankedIsDescending | aml/edit-distance.ts:79-81 | the candidate pairs are taken strongest first, ties broken by their words |
| NameScores.EditNameScoreRange | aml/edit-distance.ts:66-88 | the score is a proportion, positive exactly when some word pair is within the supported edits |
| NameScores.ComputeMissingTokenNameScore | aml/edit-distance.ts:90-106 | each word of the shorter name takes its best unused partner: the loop computes that pairing's score |
| NameScores.MissingTokenNameScoreRange | aml/edit-distance.ts:90-106 | never above 0.82; positive only for names one word apart in size, both of at least two words, where the words of the shorter have pairwise different partners |
| NameScores.MissingTokenPair | aml/edit-distance.ts:95-103 | a positive score comes with one word of each name within the supported edits |
| NameIndex.BuildCorpus | aml/match.ts:60-94 | the three indexes list exactly the names, deletion keys and grams of the usable list names; the names stand in entry order |
| NameIndex.IndexHoldsUsableNames | aml/match.ts:69-84 | as a set, the indexed names are all usable names of all entries |
| NameIndex.NearTokens | aml/match.ts:128-140 | the index lookup of one query token returns vocabulary tokens within the supported edits, and every one of them but the token itself |
| NameIndex.MatchingTokens | aml/match.ts:124-140 | the blocking step collects every indexed word that a query word reaches, for direct and romanized queries |
| NameIndex.CandidateNames | aml/match.ts:141-149 | the candidate names are exactly those that mention a matching word |
| NameIndex.KeepBest | aml/match.ts:150-163 | the scoring loop keeps, for each entry, a best name at or above the threshold and nothing else |
| NameIndex.ComputeScore | aml/match.ts:153-154 | the score is the greatest of the formulas that apply to the query type |
| NameIndex.PositiveScoreHasReach | aml/match.ts:153-154 | a positive score needs one query word that reaches one word of the name |
| NameIndex.DroppedNamesScoreNothing | aml/match.ts:121-149 | a name the blocking step drops scores nothing |
| NameIndex.CandidatesFor | aml/match.ts:121-166 | the indexed lookup returns the entries, best scores and names that scoring every corpus name would, strongest first and once per entry |
| NameIndex.Screen | aml/match.ts:60-166 | building the index and looking up equals scoring every usable list name |
| RosterTree.VerifyInclusion | pipeline/roster.ts:155-171 | the loop accepts exactly the well-formed proofs whose climb ends at the root with one node left |
| RosterTree.VerifyNonInclusion | pipeline/roster.ts:200-218 | accepts exactly two accepted neighbours whose keys enclose the target's |
| RosterTree.BuildRoster | pipeline/roster.ts:101-134 | succeeds exactly for distinct subjects whose keys are no sentinel, and returns the tree of the entries sorted by key between the two sentinels |
| RosterTree.SortEntries | pipeline/roster.ts:103-109 | the sorted entries are a permutation of the given ones with strictly ascending keys; repeated subjects and sentinel keys are the only errors |
| RosterTree.BuildLayers | pipeline/roster.ts:121-131 | the loop builds the layers of the binary tree, an odd tail paired with itself |
| RosterTree.SafeDepth | pipeline/roster.ts:158 | a tree with a safe-integer leaf count has at most 53 levels, so the limit of 256 siblings refuses no genuine proof |
| RosterProofs.AcceptedLeafIsAtIndex | pipeline/roster.ts:155-171 | an accepted inclusion proof carries the true leaf count and the leaf actually at its index |
| RosterProofs.AcceptedKeyIsAtIndex | pipeline/roster.ts:155-171 | and names the key and mark actually at that index |
| RosterProofs.AcceptedEntryWasCommitted | pipeline/roster.ts:56-72 | a proof accepted for a whole entry shows that exactly this entry was committed |
| RosterProofs.AcceptedGapIsAdjacent | pipeline/roster.ts:200-218 | both keys of an accepted gap are neighbours in the tree around the target |
| RosterProofs.AcceptedGapMeansAbsent | pipeline/roster.ts:200-218 | an accepted non-inclusion proof means the target is nowhere in the roster |
| RosterProofs.NeverBoth | pipeline/roster.ts:155-218 | no subject ever has both an accepted inclusion and an accepted non-inclusion proof |
| RosterProofs.InclusionProof | pipeline/roster.ts:142-153 | exists exactly for indices of leaves and lists the siblings on the way up |
| RosterProofs.GeneratedProofIsAccepted | pipeline/roster.ts:142-171 | every generated inclusion proof verifies, with at most 53 siblings |
| RosterProofs.NonInclusionProof | pipeline/roster.ts:186-198 | the linear search finds the adjacent pair exactly when the key is absent |
| RosterProofs.GapIsUnique | pipeline/roster.ts:186-198 | only one pair of neighbours encloses a missing key, so linear and binary search agree on it |
| RosterProofs.GeneratedGapIsAccepted | pipeline/roster.ts:186-218 | every generated non-inclusion proof verifies |
| RosterProofs.TreeIgnoresOrder | pipeline/roster.ts:101-134 | the tree, hence the root, does not depend on the order of the entries |
| RosterProofs.FirstNotBelow | pipeline/roster-bundle.ts:86-87 | the binary search stops at the first inner key not below the target |
| RosterProofs.FindProof | pipeline/roster-bundle.ts:83-102 | an answer comes back and verifies exactly when the key is no sentinel: inclusion for the listed subjects, otherwise the pair of the linear search; the upper sentinel throws, the lower one gets the lowest pair |
| RosterProofs.NoGapBelowSentinel | pipeline/roster.ts:200-218 | no non-inclusion proof at all is accepted for a key at the lower sentinel |
| MerkleClaims.MerkleRoot | pipeline/merkle.ts:15-26 | the level loop computes the root of the sorted leaves, zero for none |
| MerkleClaims.MerkleProof | pipeline/merkle.ts:29-46 | exists exactly for leaves of the tree and is the path from that leaf |
| MerkleClaims.VerifyProof | pipeline/merkle.ts:48-52 | accepts exactly when the fold of the proof from the leaf is the root |
| MerkleClaims.PathFoldsToTop | pipeline/merkle.ts:29-52 | the path of every leaf folds to the top of its level |
| MerkleClaims.RootIgnoresOrder | pipeline/merkle.ts:15-27 | the root depends on the leaves only as a multiset |
| MerkleClaims.DiscloseClaim | pipeline/claims.ts:37-41 | discloses the first claim of a name, exactly when there is one, with a proof that is accepted |
| MerkleClaims.VerifyDisclosure | pipeline/claims.ts:43-45 | accepts exactly the claims whose leaf folds to the root |
| MerkleClaims.ClaimsRootIgnoresOrder | pipeline/claims.ts:32-35 | the order of the claims leaves their root unchanged |
| MerkleClaims.ClaimPreimageInjective | pipeline/claims.ts:26-30 | a claim can be read back from the string its leaf hashes |
| MerkleClaims.LeafIsNoPair | pipeline/claims.ts:26-30 | leaf strings are at least 160 bytes, pair strings 64, so a leaf is never a node |
| MerkleClaims.AcceptedClaimWasCommitted | pipeline/claims.ts:32-45 | any claim accepted against a non-empty claims root is one of the committed claims |
| Rlp.PrefixFree | pipeline/roster-source.ts:97-100 | encodings of nodes are prefix-free: node and remainder can be read back |
| Rlp.EncodeInjective | pipeline/roster-source.ts:97-100 | different nodes have different encodings |
| ReceiptTrie.CompactPathInjective | pipeline/roster-source.ts:92-96 | a compact path determines its nibbles and whether it ends in a leaf |
| ReceiptTrie.NodeRefInjective | pipeline/roster-source.ts:97-100 | an inline or hashed reference determines its node |
| ReceiptTrie.TrieIgnoresOrder | pipeline/roster-source.ts:101-114 | the trie node depends on the items only as a set |
| ReceiptTrie.TrieBinds | pipeline/roster-source.ts:101-114 | equal trie nodes come from equal sets of keys and values |
| ReceiptTrie.EncodedReceiptInjective | pipeline/roster-source.ts:115-125 | the receipt encoding keeps type, status, cumulative gas, bloom and each log's address, topics and data |
| ReceiptTrie.IndexKeyInjective | pipeline/roster-source.ts:126-132 | distinct transaction indices have distinct trie keys |
| ReceiptTrie.RootIgnoresReceiptOrder | pipeline/roster-source.ts:126-132 | the receipts root does not depend on the order in which receipts are handed over |
| ReceiptTrie.ReceiptsRootBinds | pipeline/roster-source.ts:126-132 | equal receipts roots come from the same receipts at the same indices |
| ReceiptTrie.BlockReceiptsAreBound | pipeline/roster-source.ts:301-303 | a block's receipts root determines how many receipts there are and each one in its place |
| LifecycleReplay.ReplayLogs | pipeline/roster-source.ts:248-298 | a block's logs are accepted exactly when each is acceptable at its height and time, and fold into states, cutoffs, count and digest |
| LifecycleReplay.SelectEntries | pipeline/roster-source.ts:324-333 | the loop over states splits the subjects into the roster and the excluded, each with its reason |
| LifecycleReplay.ReplayComposes | pipeline/roster-source.ts:217-308 | replaying two stretches one after the other is replaying them together |
| LifecycleReplay.ResumeEqualsCold | pipeline/roster-source.ts:206-223 | replay from a checkpoint yields the same progress and roster as a cold replay whenever both succeed |
| LifecycleReplay.ResumeImpliesCold | pipeline/roster-source.ts:206-223 | a resumed replay that succeeds is the tail of a cold one |
| LifecycleReplay.DeniedIsDeclarative | pipeline/roster-source.ts:272-281 | a subject is denied exactly when a denial follows its last correction |
| LifecycleReplay.DecisionIsDeclarative | pipeline/roster-source.ts:281-296 | issuance and revocation follow the subject's latest issue, revoke or correction |
| LifecycleReplay.CutoffIsLeast | pipeline/roster-source.ts:260-268 | an issue is past an issuer key's cutoff exactly when some compromise event names an earlier last trusted block |
| LifecycleReplay.RosterIsDeclarative | pipeline/roster-source.ts:324-333 | an entry is in the roster exactly when the event history entitles it: no standing denial, latest decision an issue, within the key's cutoff, valid at the cutoff |
| LifecycleReplay.OwnCheckpointIsAdmissible | pipeline/roster-source.ts:143-166 | the checkpoint a replay writes passes every admission check of a later run |
| SourceReplay.CheckReceipts | pipeline/roster-source.ts:234-300 | the transaction loop accepts exactly complete receipts with right coordinates, statuses and gapless log indices whose source logs all parse, and collects bodies and events in order |
| SourceReplay.CheckBlock | pipeline/roster-source.ts:228-304 | a block passes exactly when both readers agree on a sound header, the deployment is where it should be, the receipts fit and they reproduce the receipts root |
| SourceReplay.ReplayVerified | pipeline/roster-source.ts:224-308 | the block loop checks and replays block after block: the result is the replay of the verified blocks, or nothing when one fails |
| SourceReplay.SameHeaderSameBlock | pipeline/roster-source.ts:301-303 | two accepted versions of a header carry the same events |
| SourceReplay.ReceiptsCannotBeAltered | pipeline/roster-source.ts:228-303 | whatever the main reader returns beside the same header reader, two scans that pass end in the same progress: no receipt or log can be left out, reordered or altered |
| SourceRoster.ChooseCutoff | pipeline/roster-source.ts:187-197 | the cutoff asked for, otherwise the greatest height that is final and confirmed for both readers; none exactly when there is no such height |
| SourceRoster.PublishTree | pipeline/roster-source.ts:324-334 | the selected entries have a tree exactly when their keys are distinct and no sentinels, in whatever order they are listed |
| SourceRoster.BuildSourceRoster | pipeline/roster-source.ts:181-348 | publishes for the cutoff the tree, exclusions and checkpoint of the verified replay when the rechecks at the end hold; nothing is published exactly when no cutoff, scan, recheck or tree succeeds |
| SourceRoster.ScanExtendsHistory | pipeline/roster-source.ts:204-308 | cold or resumed any number of times, the progress is the fold of the whole event history of the verified blocks |
| SourceRoster.ProvenIsEntitled | pipeline/roster-source.ts:324-334 | an inclusion proof accepted against the published root is of an entry that the event history entitles |
| SourceRoster.GapIsNotEntitled | pipeline/roster-source.ts:324-334 | an accepted non-inclusion proof is of a subject that the event history entitles to nothing |
| SourceRoster.EntitledIsProvable | pipeline/roster-source.ts:324-334 | every entitled entry has a proof that is accepted against the published root |
| SourceRoster.NotEntitledIsProvable | pipeline/roster-source.ts:324-334 | every other subject whose key is no sentinel has an accepted non-inclusion proof |
| IssuanceJournal.RedisJournal.Run | pipeline/issuance-journal.ts:66-160 | every script call changes the keys and answers as the one-step specification says |
| IssuanceJournal.RedisJournal.TakeLease | pipeline/issuance-journal.ts:129-140 | the acquire branch: lease, gate and active set, or the refusal that applies first |
| IssuanceJournal.RedisJournal.StoreEntry | pipeline/issuance-journal.ts:141-160 | the save branch: lease and revision checks, gate taken or dropped, one more revision, retention |
| IssuanceJournal.RedisJournal.Retain | pipeline/issuance-journal.ts:95-106 | a terminal row gets its deadline and leaves the queue, any other loses its expiry and is queued |
| IssuanceJournal.RedisJournal.Pending | pipeline/issuance-journal.ts:107-115 | the gate holders and the up to 1000 requests that have waited longest, each once |
| IssuanceJournal.RunKeepsInv | pipeline/issuance-journal.ts:66-160 | over every sequence of calls, gate, active set, queue, expiries and rows agree |
| IssuanceJournal.SignerGateExcludes | pipeline/issuance-journal.ts:130-155 | two requests of one signer never both hold a stored signed transaction whose outcome is open |
| IssuanceJournal.SaveExtendsLatest | pipeline/issuance-journal.ts:141-159 | a successful save extends exactly the revision stored immediately before it, under an unexpired lease of its owner |
| IssuanceJournal.SavesAreSequential | pipeline/issuance-journal.ts:116-160 | no update is lost: over every run of calls of any owners the stored revision counts the successful saves and the entry is the one saved last |
| IssuanceJournal.QueueIsComplete | pipeline/issuance-journal.ts:95-115 | active-signers is exactly the set of gate holders, the pending set exactly the unfinished requests, and those never expire |
| IssuanceJournal.DeadlineStep | pipeline/issuance-journal.ts:84-106 | one call sets the deadline of a request that just finished a day ahead and never postpones one already set |
| IssuanceJournal.EpisodeDeadline | pipeline/issuance-journal.ts:84-106 | within one completion episode no sequence of calls moves the deadline later |
| IssuanceJournal.FinishedWithinADay | pipeline/issuance-journal.ts:84-106 | the deadline never moves past the first terminal save plus 24 hours, whatever saves follow |
| IssuanceDelivery.RunKeepsWorld | pipeline/issuance-delivery.ts:35-150 | over every interleaving of workers, crashes, lost replies and clock moves, a worker that owns a row knows its revision and payload, and entries keep their shape |
| IssuanceDelivery.BroadcastWasStored | pipeline/issuance-delivery.ts:84-99 | over every run, whatever leaves for a request had been stored in that request's row before it left |
| IssuanceDelivery.BytesReplacedOnlyAfterRevert | pipeline/issuance-delivery.ts:62-69 | stored bytes stay, or go to the end of the list of reverted bytes after a receipt reported them reverted |
| IssuanceDelivery.GateGivenUpOnlyOnReceipt | pipeline/issuance-delivery.ts:105-122 | an entry with open signed bytes holds its gate until a receipt reported those very bytes confirmed or reverted |
| IssuanceDelivery.OnlyHeldBytesAreOpen | pipeline/issuance-delivery.ts:62-122 | all bytes ever stored for a request, except those its row holds now, were reported confirmed or reverted |
| IssuanceDelivery.OneOpenTransactionPerSigner | pipeline/issuance-delivery.ts:35-150 | over every run, of all bytes ever stored for one signer at most one transaction is without a report |
| IssuanceDelivery.EntryStep | pipeline/issuance-delivery.ts:44-47 | any action leaves a stored entry alone or saves a permitted change of exactly the entry its worker saw |
| IssuanceProgram.AdvanceIssuance | pipeline/issuance-delivery.ts:35-150 | the structured pass stands, after any inputs, exactly where the protocol's worker stands |
| IssuanceProgram.Pass.Body | pipeline/issuance-delivery.ts:48-134 | the try block, from the entry checks to completion |
| IssuanceProgram.Pass.Transmission | pipeline/issuance-delivery.ts:91-102 | the broadcast intent is saved and the fence rechecked before bytes leave; a thrown broadcast is noted, not retried |
| IssuanceProgram.Pass.Handler | pipeline/issuance-delivery.ts:134-145 | the handler leaves a note only on an entry that is still the one this pass knows |
| IssuanceProgram.DeliverIsStep | pipeline/issuance-delivery.ts:44-47 | an action of the protocol moves its worker as the input it brings moves the program |
| IssuanceBudget.RedisBudget.Run | pipeline/issuance-budget.ts:27-82 | every script call changes ledger and reservations and answers as the one-step specification says |
| IssuanceBudget.RedisBudget.Correct | pipeline/issuance-budget.ts:61-80 | the reconcile branch: today's ledger is corrected only for a reservation of today |
| IssuanceBudget.LedgerIsConserved | pipeline/issuance-budget.ts:36-60 | at any moment the ledger of today is the sum and the number of today's reservations, used gas where known, within both limits |
| IssuanceBudget.StateInvalidIsUnreachable | pipeline/issuance-budget.ts:71-76 | the script's own consistency failure never happens |
| IssuanceBudget.NothingOfTodayExpires | pipeline/issuance-budget.ts:54-58 | no reservation of the current day and no current ledger has expired |
| IssuanceBudget.ReserveReplays | pipeline/issuance-budget.ts:43-48 | for two days after a grant, asking again gets the first answer and changes nothing |
| IssuanceBudget.ReconcileReplays | pipeline/issuance-budget.ts:66-70 | for two days after the gas used was recorded, recording it again succeeds and changes nothing |
| IssuanceBudget.UnreconciledIsDurable | pipeline/issuance-budget.ts:56-58 | a reservation whose outcome is unknown stays on record untouched, however long that takes |
| EvidenceVault.Vault.Mutate | pipeline/vault.ts:790-792 | an operation that throws leaves the data unchanged, any other is the next revision of exactly what its operation specifies |
| EvidenceVault.Vault.PurgeExpired | pipeline/vault.ts:583-594 | the loop erases the automatic requests that are due and counts them |
| EvidenceVault.StepKeepsInv | pipeline/vault.ts:356-759 | every mutation keeps: one open job per record, erased ids distinct and gone, approvals by another operator |
| VaultHistory.ErasureWasAgreed | pipeline/vault.ts:517-641 | a record leaves only past its deadline, with no open hold, all its jobs confirmed, under a request one operator made and another approved later, both over the very record, holds, extensions and jobs erased now |
| VaultHistory.StoredIsLiveOrErasedOnce | pipeline/vault.ts:356-374 | every id ever put is for all time exactly one of live and erased once |
| VaultHistory.DeadlineNeverShrinks | pipeline/vault.ts:487-496 | the deadline of a retained record never moves earlier |
| VaultHistory.PurgeIsExact | pipeline/vault.ts:583-594 | a purge over all records erases exactly those due and reports how many |
| VaultHistory.OneOpenJob | pipeline/vault.ts:750-759 | a record never has two jobs that are not confirmed |
| VaultHistory.ConfirmedIsFinal | pipeline/vault.ts:717-748 | a confirmed job stays confirmed with the same transaction hash |
| VaultHistory.BytesChangeOnlyAfterRevert | pipeline/vault.ts:717-748 | a job's transaction changes only after a recorded mined revert of it |
| VaultHistory.CondemnedHasOpenJob | pipeline/vault.ts:432-484 | a blocking decision leaves the record blocked with a revocation under way |
| VaultHistory.StoredWithoutJob | pipeline/vault.ts:356-374 | after any history a record that `put` stores has no job, whatever state it is put in |
| VaultHistory.BlockedWithoutJob | pipeline/vault.ts:356-484 | over any history a blocked record is without a job exactly when it was stored already blocked and has since been neither condemned nor recovered |
| VaultHistory.RecoveryIsComplete | pipeline/vault.ts:707-715 | recovery never fails and leaves every blocked record with a job, however it came to be blocked |
| VaultFile.FileIsAHistory | pipeline/vault.ts:777-806 | whatever writers interleave, fail or die, the file is the result of one sequence of whole mutations |
| VaultFile.RevisionCountsWrites | pipeline/vault.ts:790-792 | the file's revision counts every write it ever took: none is lost to a stale instance |
| VaultFile.AnsweredIsOnFile | pipeline/vault.ts:780-806 | a mutation answered without an error is on file once, with the outcome it has after all earlier writes, and answers follow the order of the writes |
| VaultFile.NothingFollowsAnUnconfirmedWrite | pipeline/vault.ts:793-806 | after an unconfirmed write, an unreturned lock or a death under the lock nothing is written or answered until the operator clears the lock |
| RevocationDelivery.ListPending | pipeline/vault.ts:665-668 | exactly the unconfirmed jobs, in outbox order |
| RevocationDelivery.DeliverRevocations | pipeline/rescreen.ts:52-86 | whatever others do at each await, the jobs listed at the start are attempted in outbox order with none skipped, nothing is signed or sent after the first unresolved outcome, only stored bytes are sent, the counts are right, and the run is one more stretch of the vault's history |
| RevocationDelivery.OnlyListedJobs | pipeline/rescreen.ts:52-86 | every signature and broadcast of a run is for a job that was open when the run began |
| PublicationJournal.Journal.Begin | pipeline/epoch-publication-journal.ts:150-158 | one entry per intent, none behind an open one |
| PublicationJournal.Journal.Prepare | pipeline/epoch-publication-journal.ts:159-170 | bound to the intent, never replaced, with a nonce no other entry has |
| PublicationJournal.Journal.Confirm | pipeline/epoch-publication-journal.ts:171-182 | the first confirmation is kept, a different one refused |
| PublicationJournal.Journal.AbandonUnsigned | pipeline/epoch-publication-journal.ts:183-189 | only an entry without a signature |
| PublicationJournal.Journal.Validate | pipeline/epoch-publication-journal.ts:115-137 | the loop accepts exactly the valid journals |
| PublicationJournal.Journal.Save | pipeline/epoch-publication-journal.ts:138-148 | an invalid journal is not written; an unacknowledged write closes the journal to further calls |
| PublicationJournal.StepKeepsInv | pipeline/epoch-publication-journal.ts:115-189 | every call, restart and failed write keeps entries valid, nonces distinct and the file an extension of what it was |
| PublicationDelivery.HistoryIsWriteOnce | pipeline/epoch-publication-journal.ts:138-189 | intents, transactions, confirmations and abandonments on file are written once |
| PublicationDelivery.JournalReopens | pipeline/epoch-publication-journal.ts:79-96 | whatever happened, the file reads back; only its last entry can be unresolved and signed nonces are pairwise distinct |
| PublicationDelivery.OneTransactionPerNonce | pipeline/epoch-publication-delivery.ts:33-62 | no nonce is ever broadcast with two different byte strings, across all overlapping steps, calls and restarts |
| PublicationDelivery.ResentExactlyIfConfirmedMeanwhile | pipeline/epoch-publication-delivery.ts:33-62 | a broadcast is of bytes whose confirmation is on file if and only if an accepted confirmation of the entry came between the start of its step and the broadcast |
| PublicationDelivery.ConfirmedIsNeverResent | pipeline/epoch-publication-delivery.ts:33-62 | over a whole history nothing leaves after its confirmation is on file if and only if no step that sends was confirmed while it waited |
| PublicationDelivery.ConcurrentConfirmationResends | pipeline/epoch-publication-delivery.ts:43-62 | a history in which confirmed bytes do leave again |
| PublicationDelivery.AdvancePublication | pipeline/epoch-publication-delivery.ts:33-62 | whatever calls and other steps of the process do at each await, a step broadcasts at most once, only bytes on file and never for an entry confirmed before it began, its events extend a disciplined history, and it returns no confirmation that is not on record |
| PublicationDelivery.Finish | pipeline/epoch-publication-delivery.ts:37-45 | a recorded confirmation must be observed again at the same block, a first one is recorded |
| BankState.RedisBank.Run | pipeline/bank-state.ts:23-75 | every script call changes the keys and answers as the one-step specification says |
| BankState.DemoBank.Reserve | pipeline/bank-state.ts:136-156 | sweep, replay or refusal of a known request, limits, and the four counters |
| BankState.DemoBank.Verify | pipeline/bank-state.ts:157-176 | at most one success, and a lock at the fifth wrong answer |
| BankState.OncePerReservation | pipeline/bank-state.ts:52-74 | over every call sequence, each reservation since its own grant has verified at most once and taken at most five wrong answers, fewer when it verified |
| BankState.SupersededIsUnusable | pipeline/bank-state.ts:47-52 | once its flow has a newer reservation a challenge is refused |
| BankState.ExpiredIsUnusable | pipeline/bank-state.ts:48-53 | past its lifetime a reservation is refused |
| BankState.CountersRiseTogether | pipeline/bank-state.ts:39-47 | a granted start raises the flow, account, wallet and global counters together, any other call raises none |
| BankState.WindowsAreCounted | pipeline/bank-state.ts:39-46 | a counter is exactly the number of starts granted since its window opened and never above its limit |
| BankState.UnsweptAnswers | pipeline/bank-state.ts:157-176 | in one state a store that has not swept answers an activation or verification like one that has, except exactly for a current challenge whose record or flow window has run out and that has expired or is in the phase the call asks for |
| BankState.StoresAgreeExactly | pipeline/bank-state.ts:20-176 | over every call sequence the two stores give the same answers exactly when no call meets such a challenge |
| BankState.StoresDiffer | pipeline/bank-state.ts:136-162 | such a run exists: Redis refuses a challenge that the demonstration store verifies |

## Left out

- Unicode: tokens are sequences of code points after NFC; normalisation, transliteration, homoglyph and content-word rules are not modelled, and ties between equal pairs are broken by code point, not by UTF-16 unit.
- Capacity limits of the index, the queries, the replay and the file sizes: no error of theirs is raised; the thousand-entry limit of the publication journal is kept.
- Scores are real numbers; rounding of floating point is not modelled.
- Keccak, SHA-256, HMAC, AES-GCM, ECDSA and ABI coding: a hash parameter with collision freeness on the strings concerned, symbolic snapshots for keyed digests, ideal sealing, and signed bytes as values.
- Hexadecimal text is compared by value, so letter case never matters; malformed text is a parse flag or an absent value.
- The wallet index and `screenNames` around the name lookup: identity comparison and exclusions are single-pass rules.
- SourceRoster.BuildSourceRoster: the getLogs cross-check, network identities, blocks a reader does not have, scan budgets and the manifest are not modelled; they can only refuse. Event decoding is a parameter, the deployment receipt is given, and the header digest and the block digest are one running digest.
- Legacy roster format 1 and the metadata of proof bundles.
- The retained timestamps of acceptance and materialisation in an issuance entry; they decide nothing.
- Evidence and budget calls inside the delivery step are answers of an oracle; the ledger and the vault have their own modules.
- IssuanceDelivery.GateGivenUpOnlyOnReceipt: requests are created unsigned, as the issuance service does; a receipt is what the transport reported, not what the chain holds.
- EvidenceVault.Vault.Mutate: one instance and its data; lock, reload and failed writes are in VaultFile. Backups, restore, key rotation and a file that no longer decrypts are not modelled; the digest that a review was based on is not kept in the review; normalisation and freshness of revocation observations are one flag.
- RevocationDelivery.DeliverRevocations: the ordering holds within one run; the next run starts over at the first open job.
- RevocationDelivery.ListPending: the order of the jobs in the vault is an argument; that it is the insertion order of the stored object is not modelled.
- EvidenceVault.Vault.PurgeExpired: likewise takes the order of the records as an argument; which records a purge over all of them erases does not depend on it.
- PublicationDelivery.AdvancePublication: no other process opens the journal while a step of this one runs, as its exclusive lock file provides; the lock file itself is not modelled.
- BankState: clocks do not run backwards; the encrypted response is an opaque value.
- On-chain contracts, circuits, monitors, freshness gates, policy validators, exports and scripts.
