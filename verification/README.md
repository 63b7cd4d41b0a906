# Verified models of BotSquad's protocol cores

Dafny models of the parts of this repository whose correctness rests on an argument over whole
runs, with proofs of what those parts promise. Code that changes state step by step is a class or a
method with loops, proved equal to a specification function; the lemmas are about those functions.
Hashes, signatures, checksums, decompression, clocks and operating-system answers are parameters.

`dafny verify dfyconfig.toml` checks everything.

## What is modelled

**Paper-trading publication** (`scripts/investment-contracts`). A receiver judges batches of events
against an append-only history: a double-entry ledger, an order machine, decisions with an
independent review, amendments, portfolio snapshots and a hash chain.

| file | content |
|---|---|
| `Checks`, `Numerals`, `Decimals`, `Rounding` | results with error codes, number spellings, fixed-point amounts, half-even division |
| `Events`, `Ledger`, `Orders`, `Snapshots`, `Publication` | the records, every guard on them, and the batch verdict |
| `History` | what it means to have been accepted; batching, redelivery, unique keys, references |
| `Sums`, `Postings`, `Balance`, `Positions`, `Dividends`, `Equity` | the ledger identities |
| `Lifecycle`, `Chain` | orders and fills over whole histories; what a hash pins |
| `Example`, `Witness` | batches the receiver accepts, built event by event, in which listed properties fail |

**The root provisioner** (`deploy/provisioner`). Durable receipts, identity and project records,
child markers and Git clones. Every durable effect costs a unit of fuel and running out is a crash,
so one statement covers a crash between any two effects. A refused guard or a failed host command
stops in the same way.

| file | content |
|---|---|
| `Paths`, `GitRange` | repository paths and scopes; commit graphs and the range guard |
| `ProvisionerModel`, `Provisioner` | the operations as functions, and as a class that changes its state in place |
| `Frames`, `Receipts`, `Custody`, `Commits`, `Branches` | what runs of requests, crashes and retries keep |
| `Recovery` | exactly which crash points a retry gets past |
| `Outcomes` | over whole runs: when a lost commit response is recovered, and what a branch past its bound still takes |

**The two-process watchdog** (`scripts/yahoo-history.ts`, `adapters/yahoo/history_watchdog.py`).
`Watchdog` and `Supervisor` model the two programs; `Lifeguard` composes them with the children, the
pipe and the host, in every interleaving. `SupervisedRun` drives the supervisor's object through such
runs, and `CleanRun` exhibits the undisturbed one.

**Wire formats.** `Signatures` (the RFC 9421 profile), `Csv` and `Png` (uploaded content), `Pages`
(cursor pagination), `EventStream` (the incremental reader).

## Where the code does less than one might expect

These were found while proving, and each has a lemma.

- A correction entry is only required to leave capital alone and no balance negative; it need not
  balance (`Balance.CorrectionMayUnbalance`), and there is an accepted history whose one correction
  adds a unit of cash out of nowhere (`Witness.UnbalancedCorrectionIsAccepted`). The identities hold
  up to what corrections add.
- A split may round a held position down to nothing while its cost stays. There is an accepted
  history in which it does (`Witness.StrandingSplitIsAccepted`) and in which a complete snapshot then
  falls short of the equity identity by that cost (`Witness.EquityMayFallShort`). The identity
  holds exactly when no such cost is left on an empty position (`Equity.EquityIdentityExactly`).
- A pending order that already has its fill can still be published as expired
  (`Witness.FilledOrderMayExpire`): a posting has no influence on the verdict on any order revision
  other than "filled" (`Lifecycle.FillDoesNotBlockExpiry`).
- A commit request is judged once more after its commit has landed. At the manifest's commit bound,
  with two names equal but for case, or with a difference from the base over its limit, the commit
  stays on the branch and the request is refused (`Recovery.CommitAnswersExactly`,
  `Recovery.CollisionIsRefused`); from then on nothing changes the commits, the index or the sources
  of that project again (`Outcomes.BlockedIsFrozen`).
- A crash between creating and filling a child marker ends that operation: every retry fails. So
  does a crash inside `git add`, `git commit` or `git bundle`, which leaves a lock of Git's, a crash
  inside `git clone`, which leaves a directory that is no clone, a crash after a deletion unlinked
  its file, a crash between staging and committing a deletion, and a crash inside the filling of a
  seed file, wherever before its end it stops (`Recovery`, the lemmas named `...RetriesExactly`).
- An identity cut short while it was created can be finished only while nobody else has taken its
  reserved number for a group or account not yet made (`Recovery.CreateRecoversExactly`).
- After the supervisor dies, recovery may run beside a data or cleanup group that it had started but
  not yet announced (`Lifeguard.RecoveryMayJoinData`, `Lifeguard.RecoveryMayJoinCleanup`), and only
  then (`Lifeguard.GroupsTogether`).
- The guard's one failing command is the one that announces a cleanup child that never started
  (`Lifeguard.CommandsAreObeyed`). The count of wire permits reported at the end is of armed wires,
  which may be one more than permits given (`Lifeguard.PermitsAreArmed`).
- A signature input with times of thirteen digits or more can be spelled but not read back
  (`Signatures.SpelledInputParsesExactly`).
- The image reader does not look at the top bit of a chunk type's bytes, because text decoding as
  ASCII drops it; re-encoding by name reproduces the file exactly when none is set
  (`Png.ReencodesExactly`), and every accepted file has an accepted twin it fails for
  (`Png.MarkedTwin`).

## Model

| member | source | states |
|---|---|---|
| Rounding.HalfEvenCharacterised | scripts/investment-contracts/schema.ts:102-108 | v is the quotient if and only if it is a nearest integer, the even one of two |
| Rounding.HalfEvenOdd | scripts/investment-contracts/schema.ts:102-108 | negating the numerator negates the quotient |
| Rounding.HalfEvenMonotone | scripts/investment-contracts/schema.ts:102-108 | a larger numerator never gives a smaller quotient |
| Rounding.HalfEvenScales | scripts/investment-contracts/schema.ts:102-108 | scaling numerator and denominator alike changes nothing |
| Rounding.PartialReleaseWithinBasis | scripts/investment-contracts/publication.ts:115-121 | a partial release lies between nothing and the whole book cost, with a residual of at most half a unit |
| Rounding.SizeBenchmark | scripts/investment-contracts/publication.ts:179-197 | the sizing loop never iterates; its units are affordable and the cash left over is bounded by price and rounding |
| Decimals.TextRoundTrip | scripts/investment-contracts/schema.ts:96-101 | reading a spelled amount gives the parts and the number of millionths it was spelled from |
| Decimals.SpelledRoundTrip | scripts/investment-contracts/schema.ts:96-101 | every text the pattern admits is the spelling of the parts read from it |
| Decimals.TextInjective | scripts/investment-contracts/schema.ts:96-101 | two amounts have one text only if they have the same parts, so equal texts are equal decimals |
| Ledger.ComputeState | scripts/investment-contracts/publication.ts:58-75 | the accumulating loops give the totals of the selected transactions, or the first rejection |
| Snapshots.SumHoldings | scripts/investment-contracts/publication.ts:162-212 | the loop over holdings gives the sums, or the first rejection, that the specification gives |
| Publication.CheckPublicationBatch | scripts/investment-contracts/publication.ts:214-239 | the accepting loop gives the verdict, the acknowledged and duplicate identifiers and the history of the specification |
| History.JudgementKeepsAccepted | scripts/investment-contracts/publication.ts:214-239 | an accepted batch leaves an accepted history that extends the old one |
| History.KeysAreUnique | scripts/investment-contracts/publication.ts:333-337 | in an accepted history no two events register one record key |
| History.ReferencesPointBack | scripts/investment-contracts/publication.ts:39-45 | every reference of an accepted event resolves to a strictly earlier event |
| History.LookupIsUnique | scripts/investment-contracts/publication.ts:30-35 | the registry of an accepted history names the one event that registered a key |
| History.BatchingIsTransparent | scripts/investment-contracts/publication.ts:214-239 | a batch of distinct events is accepted if and only if its halves are accepted in turn, with the same history |
| History.RedeliveryChangesNothing | scripts/investment-contracts/publication.ts:225-228 | events accepted before leave the history as it was, under any batch |
| History.RedeliveredBatchIsAcknowledged | scripts/investment-contracts/publication.ts:214-239 | a redelivered batch is acknowledged in full and accepts nothing new |
| Balance.JournalIsSound | scripts/investment-contracts/publication.ts:76-161 | every transaction of an accepted history passed its guards on the ledger before it, and no balance is ever negative |
| Balance.TransactionBalances | scripts/investment-contracts/publication.ts:96-157 | fills, splits, dividends and the initialization each balance on their own, whatever rounding did |
| Balance.LedgerBalances | scripts/investment-contracts/publication.ts:58-161 | cash, book cost and receivable less liability are capital, realized result and income plus what corrections added |
| Balance.NoLiabilities | scripts/investment-contracts/publication.ts:76-161 | without corrections nothing is ever owed |
| Witness.UnbalancedCorrectionIsAccepted | scripts/investment-contracts/publication.ts:129-130 | whatever the hash, one batch of a run, its capital and a correction that posts one unit of cash is accepted whole and leaves an imbalance of that unit |
| Positions.ReleaseWithinBasis | scripts/investment-contracts/publication.ts:115-127 | the cost a sale releases is between nothing and what the position holds, and rounds by at most half a unit |
| Positions.BasisIsPaidLessReleased | scripts/investment-contracts/publication.ts:110-127 | book cost is what buys paid in less what sales released |
| Positions.ClosingReleasesEverything | scripts/investment-contracts/publication.ts:115-127 | buys and partial sells that close a position release exactly what was paid in, if no split of that instrument stranded cost, whatever splits of others did |
| Positions.StepKeepsFlatExactly | scripts/investment-contracts/publication.ts:115-144 | a transaction leaves empty positions free of cost if and only if it is no split of a costly position to nothing |
| Positions.ClosedPositionsCarryNoCost | scripts/investment-contracts/publication.ts:110-144 | without such splits and corrections an empty position never carries cost |
| Positions.ClosedPositionCarriesNoCost | scripts/investment-contracts/publication.ts:110-144 | the same for one instrument, whatever splits of others did |
| Witness.StrandingSplitIsAccepted | scripts/investment-contracts/publication.ts:135-144 | whatever the hash, one batch with a decision, an order, a fill and, last, a split is accepted whole and correction-free, and the ledger is flat before the split and not after it |
| Witness.EquityMayFallShort | scripts/investment-contracts/publication.ts:162-212 | with a complete snapshot after the split the batch is still accepted, and the equity reported is one unit short of the plain identity |
| Dividends.OutstandingIsAccruedNotPaid | scripts/investment-contracts/publication.ts:145-157 | what is outstanding is what was accrued and not paid, at its accrued amount |
| Dividends.ReceivableIsOutstanding | scripts/investment-contracts/publication.ts:145-157 | without corrections the receivable is the sum of outstanding dividends |
| Dividends.HistoryBalances | scripts/investment-contracts/publication.ts:76-161 | after every event of a correction-free history, cash, cost and receivable make up capital, realized result and income, nothing is owed, and the receivable is the dividends outstanding |
| Equity.SnapshotEquity | scripts/investment-contracts/publication.ts:162-212 | equity of every complete snapshot is capital, realized and unrealized results and income accrued up to its sequence, plus correction imbalance, less stranded cost |
| Equity.EquityIdentityExactly | scripts/investment-contracts/publication.ts:162-212 | without corrections the plain identity holds if and only if no empty position of the named prefix carries cost |
| Lifecycle.OrderLifecycle | scripts/investment-contracts/publication.ts:213 | an order has at most four revisions, numbered from one, on one set of terms, and a terminal status is the last |
| Lifecycle.AtMostOneFill | scripts/investment-contracts/publication.ts:97-102 | no order is filled twice |
| Lifecycle.FillsExecutePending | scripts/investment-contracts/publication.ts:97-102 | every fill executed a revision the order had, while it was pending |
| Lifecycle.FilledMeansFilled | scripts/investment-contracts/publication.ts:293-300 | "filled" is published only after the one fill, against the revision just before |
| Lifecycle.FillIsTraced | scripts/investment-contracts/publication.ts:96-114 | every fill traces to one earlier decision, approved on the same proposal by a rostered worker other than its author, with matching terms and no look-ahead in time |
| Witness.FilledOrderMayExpire | scripts/investment-contracts/publication.ts:293-300 | whatever the hash, there is a batch accepted whole in which an order is filled and its latest revision is expired |
| Chain.JournalIsChained | scripts/investment-contracts/publication.ts:76-83 | each transaction of an accepted history names the hash of the one before it and carries its own |
| Chain.LastHashPinsLedger | scripts/investment-contracts/publication.ts:77-83 | with a collision-free hash, two accepted histories that end in one journal hash have one journal and one ledger state |
| Chain.SnapshotPinsPrefix | scripts/investment-contracts/publication.ts:162-167 | a complete snapshot's journal hash pins the ledger prefix it was computed from, in whatever history |
| Witness.OpeningIsAccepted | scripts/investment-contracts/publication.ts:214-239 | a batch that publishes a run and pays its capital in is accepted whole, whatever the hash, so there are accepted histories with a ledger |
| Paths.AcceptedPathStaysInside | deploy/provisioner/provisioner.py:44-48 | an accepted path resolves strictly below the root it is joined to, and never through Git's own directory |
| Paths.ScopeCoversSubtree | deploy/provisioner/provisioner.py:50-51 | a path a directory scope covers lies below that directory, segment by segment |
| Paths.SubtreeIsCovered | deploy/provisioner/provisioner.py:50-51 | and every path below the directory is covered |
| GitRange.RangeIsAuthorizedChain | deploy/provisioner/provisioner.py:425-454 | an accepted range is a single-parent chain from base to head, made of exactly the range's commits and within the bound; every tree in it fits, with no two names equal but for case, and base and head differ on granted paths only and within the diff limit |
| Provisioner.CheckTree | deploy/provisioner/provisioner.py:425-439 | walking a tree's rows with the lower-case names seen so far decides whether the tree fits |
| Provisioner.CheckRange | deploy/provisioner/provisioner.py:442-454 | walking the listed commits decides the range guard |
| Provisioner.NextFree | deploy/provisioner/provisioner.py:207-212 | the number found is the first managed one that nothing holds; none is found only if all are taken |
| Provisioner.Server.Create | deploy/provisioner/provisioner.py:187-239 | the new durable state and the answer are those of the specification, for any crash point |
| Provisioner.Server.Disable | deploy/provisioner/provisioner.py:266-298 | likewise for disabling |
| Provisioner.Server.RevokeListed | deploy/provisioner/provisioner.py:293-297 | the loop over project files revokes the worker's projects one by one, stopping where a crash stops it |
| Provisioner.Server.Prepare | deploy/provisioner/provisioner.py:309-324 | likewise for preparing a project clone |
| Provisioner.Server.BuildClone | deploy/provisioner/provisioner.py:482-518 | likewise for the child's part of it |
| Provisioner.Server.Revoke | deploy/provisioner/provisioner.py:325-349 | likewise for withdrawing access |
| Provisioner.Server.Act | deploy/provisioner/provisioner.py:519-582 | likewise for source and commit actions and their markers |
| Provisioner.Server.CommitHead | deploy/provisioner/provisioner.py:548-573 | likewise for commits, with the recovery of a lost response |
| Provisioner.Server.Handle | deploy/provisioner/provisioner.py:353-368 | likewise for a whole request under its receipt |
| Provisioner.Server.ServeAll | deploy/provisioner/provisioner.py:353-368 | serving request after request, each with its own crash point, leaves the durable state and gives the answers of the run the theorems speak of |
| Receipts.AnswersAgree | deploy/provisioner/provisioner.py:353-368 | over any run of crashes and retries, all successful answers to one operation are to one request and carry one result |
| Receipts.DeliverKeepsReceipts | deploy/provisioner/provisioner.py:353-368 | a delivery keeps every digest and completed receipt |
| Receipts.AnswerIsFiled | deploy/provisioner/provisioner.py:353-368 | a delivery that answers leaves its operation's receipt completed with that answer |
| Custody.UidsNeverReused | deploy/provisioner/provisioner.py:187-239 | at any two times, managed numbers lie in 20000 to 59999 and two workers never have the same one |
| Custody.DisabledStaysDisabled | deploy/provisioner/provisioner.py:266-298 | a disabled identity is disabled for the rest of the run |
| Custody.ShutProjectIsFrozen | deploy/provisioner/provisioner.py:306-351 | from the moment a project is revoking or revoked, or its worker disabled, its clone never changes again |
| Custody.DisableClosesEverything | deploy/provisioner/provisioner.py:266-298 | a disabling that answers leaves the home with root and every project of the worker revoked |
| Commits.StackRange | deploy/provisioner/provisioner.py:442-454 | what lies between base and tip is exactly the commits added since |
| Commits.CommittingGrows | deploy/provisioner/provisioner.py:548-563 | a commit made under its guards keeps the branch a stack of granted commits within one of the bound |
| Branches.OneCommitPerOperation | deploy/provisioner/provisioner.py:523-526 | over any run, no two commits added to a branch are for the same operation |
| Branches.BranchIsStacked | deploy/provisioner/provisioner.py:548-581 | every added commit sits on exactly the head its request expected, and together they stack up from the persisted base |
| Branches.BranchStaysInScope | deploy/provisioner/provisioner.py:442-454 | whatever was accepted, refused or cut short, head differs from base on granted paths only and is at most one commit past the bound |
| Branches.CommitAnswerIsAccepted | deploy/provisioner/provisioner.py:548-581 | a commit answer names the operation's own commit on the head it expected, at the end of an authorized chain of fitting trees from base, for the rest of the run |
| Recovery.CommitAnswersExactly | deploy/provisioner/provisioner.py:548-581 | a request ready to commit leaves its commit on the branch, and answers if and only if the branch was below its bound, the tree committed and its difference from the base fit, the bundle fits, and no path whose worktree content is the head's was staged otherwise |
| Recovery.CollisionIsRefused | deploy/provisioner/provisioner.py:425-454 | a commit of two names equal but for case passes every guard before `git commit`, lands, is refused, and leaves a head the range guard refuses |
| Recovery.CollisionHappens | deploy/provisioner/provisioner.py:548-563 | two files written under their grants on a new clone are such an input |
| Outcomes.BlockedIsFrozen | deploy/provisioner/provisioner.py:442-454 | from the moment the range guard refuses the head some commit was added to reach, the clone's commits, head, index and sources never change again, over any run |
| Outcomes.BlockedExactly | deploy/provisioner/provisioner.py:442-454 | after any run the guard refuses such a head if and only if more was added than the bound, or an added tree or the difference from base does not fit |
| Outcomes.LostResponseRecoversExactly | deploy/provisioner/provisioner.py:548-581 | after any run in which a commit landed without its marker, a retry answers with that commit if and only if worker and project are open, the commit is still the head, the clone is clean, what was added is within bound and fits, and the bundle fits and was not cut short; otherwise it changes no clone |
| Recovery.CommitRetriesExactly | deploy/provisioner/provisioner.py:548-581 | a commit that would answer, cut after any effect and retried, ends with exactly one commit and names it, if and only if the crash left neither a lock of Git's nor a torn marker nor a deletion staged |
| Recovery.WriteRetriesExactly | deploy/provisioner/provisioner.py:527-547 | a write that passes its guards, sizes included, gets past every crash, even one inside its filling of the file, but the one that tears its marker |
| Recovery.DeleteRetriesExactly | deploy/provisioner/provisioner.py:534-537 | a deletion gets past a crash if and only if it came before the unlinking or after the marker was filled |
| Recovery.CreateRecoversExactly | deploy/provisioner/provisioner.py:187-239 | a creation cut after any effect past the reservation finishes with the number reserved first, if and only if each of the group and the account was made before or its number is still free |
| Recovery.RevokeAlwaysRecovers | deploy/provisioner/provisioner.py:326-349 | withdrawing access survives a crash after any effect |
| Recovery.DisableAlwaysRecovers | deploy/provisioner/provisioner.py:266-298 | disabling survives a crash after any effect: retried, it disables the identity, gives the home to root and revokes every project of the worker |
| Recovery.PrepareRetriesExactly | deploy/provisioner/provisioner.py:309-324 | a preparation cut after any effect, or anywhere inside the filling of its seed file or inside its clone, answers its retry if and only if the stored seed is absent or whole and so is the clone |
| Watchdog.Loop.Obey | adapters/yahoo/history_watchdog.py:67-94 | one command updates the guard as specified, or fails and changes nothing |
| Watchdog.Loop.DrainBuffer | adapters/yahoo/history_watchdog.py:67-94 | the inner loop obeys every complete line of the buffer |
| Watchdog.Loop.Run | adapters/yahoo/history_watchdog.py:51-98 | the command loop leaves at a deadline, at end of file, on too much unread text or a failed command, as specified |
| Watchdog.DrainInPieces | adapters/yahoo/history_watchdog.py:61-69 | reading commands in two pieces is reading them in one |
| Watchdog.RunIsOrdered | adapters/yahoo/history_watchdog.py:51-98 | over any input at all, at most the limit of wires is armed, in order, and the loop finishes cleanly only with no active group |
| SupervisedRun.Drive | scripts/yahoo-history.ts:24-75 | driving a supervisor object from its start through any sequence of events ends in the world of that run, its variables those of the object, so that every theorem about runs is about it |
| Lifeguard.EveryRun | scripts/yahoo-history.ts:24-75 | in every interleaving the two programs agree, give or take one command in the pipe |
| Lifeguard.CommandsAreObeyed | scripts/yahoo-history.ts:38-71 | a command the serving guard takes fails its assertion if and only if it announces a cleanup child that never started |
| Lifeguard.PermitsAreArmed | scripts/yahoo-history.ts:46-49 | permits are 1, 2, ... up to at most the limit, each given only after the guard armed that wire |
| Lifeguard.DataGroupIsAlone | adapters/yahoo/history_watchdog.py:100-110 | while a data group told to consume lives, it is the guard's charge and neither cleanup nor recovery has started |
| Lifeguard.GroupsTogether | scripts/yahoo-history.ts:38-71 | data and cleanup never live together; recovery lives beside data or cleanup only if the guard was never told of that group, and never beside data told to consume |
| Lifeguard.RecoveryMayJoinData | scripts/yahoo-history.ts:38-54 | there is a run in which recovery does live beside data |
| Lifeguard.RecoveryMayJoinCleanup | scripts/yahoo-history.ts:63-71 | and one in which it lives beside cleanup |
| Lifeguard.CleanExitMeansGone | adapters/yahoo/history_watchdog.py:88-91 | the guard exits with 0 only with no active group, and the supervisor returns only when data and cleanup groups are gone |
| CleanRun.CleanRunReturns | scripts/yahoo-history.ts:24-75 | undisturbed, with at least one wire allowed, the supervisor does return, its permit given and the guard finished with 0 |
| Signatures.CollectHeaders | scripts/investment-contracts/signatures.ts:19-28 | the loop gives the headers by lower-case name, or refuses, as specified |
| Signatures.SpelledInputParsesExactly | scripts/investment-contracts/signatures.ts:31-37 | a spelled signature input reads back as its parameters if and only if both times have at most twelve digits |
| Signatures.BaseIsInjective | scripts/investment-contracts/signatures.ts:38-59 | one signature base means one method, authority, path, generation, covered headers and parameters, and with a collision-free digest one body |
| Signatures.AcceptedWasSigned | scripts/investment-contracts/signatures.ts:60-81 | under a policy key nobody else can sign for and a collision-free digest, an accepted message is one the key holder signed: same method, authority, path, covered headers, parameters and body |
| Signatures.UsedKeysRefuseExactly | scripts/investment-contracts/signatures.ts:72-73 | the used nonce keys hold a key and nonce if and only if that pair was used: no two pairs share one |
| Signatures.NeverAcceptedTwice | scripts/investment-contracts/signatures.ts:72-80 | with nonces kept through their retention time and a clock that never goes back, no signed message is accepted twice in any run |
| Signatures.RetentionIsBounded | scripts/investment-contracts/signatures.ts:72-80 | a kept nonce lives from its acceptance at most 420 seconds |
| Csv.CsvCells | scripts/investment-contracts/content.ts:5-20 | the character loop reads the cells the specification reads |
| Csv.ParseRendered | scripts/investment-contracts/content.ts:5-20 | any writing of a non-empty cell list, quoted or bare, with any separators, reads back as the list |
| Csv.QuotedRoundTrip | scripts/investment-contracts/content.ts:5-20 | in particular the comma-joined, quote-doubled one |
| Csv.AcceptedIsRendering | scripts/investment-contracts/content.ts:5-20 | conversely every accepted text is such a writing of the cells read |
| Png.NormalizedPng | scripts/investment-contracts/content.ts:21-45 | the chunk loop and the pixel loop accept exactly the normalized files |
| Png.AcceptedIsFile | scripts/investment-contracts/content.ts:21-45 | accepted bytes are the signature, one header, one or more data chunks and the end, each chunk spelled out with its checksum |
| Png.FileIsAcceptedExactly | scripts/investment-contracts/content.ts:21-45 | a spelled-out chunk list is accepted if and only if it has that layout and its pixels fill the image with filter byte 0 |
| Png.EncodingIsInjective | scripts/investment-contracts/content.ts:24-37 | a run of bytes spells one chunk list |
| Png.ReencodesExactly | scripts/investment-contracts/content.ts:25-35 | re-encoding the chunks by name reproduces the bytes if and only if no type byte has its top bit set |
| Png.TopBitsAreIgnored | scripts/investment-contracts/content.ts:25-35 | setting top bits in chunk types never changes the verdict |
| Png.MarkedTwin | scripts/investment-contracts/content.ts:25-35 | every accepted file has an accepted twin that re-encoding by name does not reproduce |
| Pages.WalkIsSnapshotByNumber | src/client/dto.ts:25-42 | following cursors with any limits, while rows are appended and earlier ones change in place, yields the shown row numbers of the first page's snapshot once and in order, and ends |
| Pages.WalkListsOnce | src/client/dto.ts:25-42 | while earlier rows change in any way, even into or out of view, the walk lists rows of that snapshot with strictly increasing numbers, each as the visit that listed it found and showed it; once it ends, every row shown throughout was listed |
| Pages.CursorAdvances | src/client/dto.ts:29-41 | every cursor handed out stands strictly further within the same snapshot and is valid |
| Pages.SnapshotIsWhatIsShown | src/client/dto.ts:39-40 | the snapshot's selection is exactly the shown rows, in strictly increasing order |
| EventStream.Read | scripts/client-v1/client.ts:87-96 | the chunk loop gives the events, the pending text and the outcome of the specification |
| EventStream.CutsDoNotMatter | scripts/client-v1/client.ts:87-96 | every way of cutting a text that never overflows yields the events of the whole text |
| EventStream.DrainIsSplit | scripts/client-v1/client.ts:91-95 | they are the events of the blocks between leftmost blank lines |
| EventStream.BlocksRecompose | scripts/client-v1/client.ts:91-92 | those blocks and the rest put back together are the text, and none hides a blank line |
| EventStream.FramesSurviveAnyCut | src/http/client-api.ts:50-60 | the frames the server writes come out as its notices, however they are cut |

## Left out

Publication:

- Text screening (`checkPublicStrings`, `safeText`, `safeUrl`) and JSON parsing: content filters; the verdict of the screen is a parameter.
- Schema validation of single fields: its facts (positive quantities and prices, non-negative fees, positive denominators) are preconditions or subset types; the batches of `Witness` keep to the schema's fixed texts and minima.
- Canonical hashing is an abstract function; where a theorem needs it collision-free, it says so.
- `Date.parse` and local calendar dates: a time is its milliseconds with its spelling, and the date of an instant in the calendar's zone is a parameter.
- `latestSnapshot`: sorts complete snapshots by valuation sequence; an easy member.

Provisioner:

- Accounts, groups and homes are maps by worker; user names stand for workers, as if the truncated digest never collided.
- Commits are named by their position in order of creation instead of by object hash, so a request may guess a future one; the theorems hold all the same.
- File modes, symbolic and hard links, ownership, ACLs, hooks, Git configuration, the size of the `.git` directory, and directories (a path below a file, or in the place of a directory): the guards on these only refuse. The theorems over runs allow a refusal anywhere, as they do a crash; the lemmas named `...Exactly` and `...AlwaysRecovers` are about requests that none of these guards refuses and host commands that do not fail.
- How large Git finds a tree's files together, a difference and a bundle: parameters. A file's content is its bytes.
- `.gitignore`: every file that differs from the head counts as pending.
- The checkout of the branch, the rewriting of the clone's configuration and `atomic` are single effects. `git clone` makes its directory and then everything in it; `git add`, `git commit` and `git bundle` each take a lock and then change everything at once. A lock on a reference or a half-written index is not modelled.
- A crash ends processes; what a loss of power takes from files that were never synced is not modelled.
- Recovery.CreateRecoversExactly: a number is taken later only outside the managed records; managed ones are never handed out twice (`Custody.UidsNeverReused`).
- What the submission bundle holds (only whether it is whole), and a worker process altering its own files outside the provisioner.
- A grandchild process that outlives a timed-out child.
- Parsing of requests and manifests: requests arrive parsed.

Watchdog:

- Timers are events that may happen at any moment; that a deadline fires in time is not stated.
- Process numbers are not reused within one run.
- The line framing of acknowledgements from guard to supervisor: one command is outstanding at a time and its acknowledgement is an event.

Formats:

- Signatures.AcceptedWasSigned: that Ed25519 cannot be forged and SHA-256 has no collisions is its hypothesis, not proved.
- Ed25519, SHA-256, lower-casing, CRC and inflate are parameters; canonical base64 of a signature is modelled, its decoding is not.
- A cursor's base64 and JSON, and the SQL conditions behind which rows are shown.
- Pages.WalkIsSnapshotByNumber: during a walk a row may change its content but is neither hidden nor shown nor moved to another project; `Pages.WalkListsOnce` is about rows that are.
- UTF-8 decoding: the event stream is a sequence of decoded chunks.
