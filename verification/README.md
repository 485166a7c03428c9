# Verification of the market-making server and its web clients

A Dafny model of the stateful and algorithmic parts of the repository, with proofs
about them. One module models one source file (or one concern of a large file) and
carries its name. `Text`, `Decimal`, `Timestamps` and `Outcomes` are shared.

- `BalanceLedger` is the ledger service: an append-only list of entries with one
  running balance per order and asset. `LedgerRuns` is that service at work: mutations of
  different balances interleave between their checks and their two saves, rebuilds read entries and balance at two times without a lock, saves fail and
  the service restarts. `LedgerOutcomes` says in numbers what each of the fourteen types of
  command does. `LedgerBooks` gives, for every run, the exact account of how far a
  balance is from its entries; `LedgerRebuild` and `LedgerFees` say exactly what a rebuild
  sees and when it matches; `LedgerPauses` is about lost writes and paused reservations,
  and `LockKeys` about the keys they are paused under; `LedgerCases` holds runs that show each way the two can part. `LedgerOrderScope` and
  `LedgerBackfill` are the two implementations, TypeScript and SQL, of the rule that
  splits a ledger order id.
- `Web3Login` and `AdminAuth` are the two halves of the authentication service: nonces
  used by any number of interleaved logins, and the lockout and token versions of the
  administrator. `Timestamps` proves that comparing timestamp texts compares times.
- `Funding`, `MarketMaking`, `OrderLifecycle` and `SeedOrders` are the session stores of
  the Web3 client; `SearchHistory` and `ChartPrice` are helpers of the other client.
- `SetupConfig` and `Setup` are the configuration store and the setup wizard, and
  `SetupRaces` is the wizard with overlapping requests;
  `Campaigns` is paginated fetching and joining; `MixinFetcher` is asset selection;
  `SubscriptionKey` and `ClientOrderId` are printers and parsers of keys.

Classes hold the fields the source updates. Each method is proved equal to one step of a
state function, and the lemmas are about all sequences of those steps. Amounts and prices
are exact reals. The clock, random ids and nonces, results of signature checks and of
database seeding, and server responses are inputs. Hashing, upper- and lower-casing and
encryption are function parameters; the one thing assumed of them is that decryption
inverts encryption.

## Where the code does less than one might expect

Each of these is a lemma that says exactly when it happens.

- Repeating a gas debit is refused as a conflict, although repeating any other command is
  recognised: the amount compared for a gas debit is not negated, the stored one is
  (`RetryAppliesOnce`, `RepeatedGasDebitConflicts`).
- A rebuild takes no lock and its two reads may be torn. It then sees what is missing from
  the row less what the ledger gained in between, so it can report a match and lift a pause
  while a deposit is missing, and pause a sound balance between its two saves
  (`RebuildSees`, `TornRebuildLiftsPause`, `RebuildBetweenSavesMismatches`).
- A reader that finds no row saves a new one later, over whatever was written meanwhile
  (`NewRowOverwritesDeposit`).
- Rebuilding an undisturbed balance that lost nothing can still report a mismatch: it does
  not see entries of other orders that a reversal refers to, it compares the first user with
  the last one, and it may order entries of one millisecond either way, so that the same
  rows match in one order and not in another (`RebuildAgreesOnSums`,
  `RebuildMatchesExactly`, `EveryOrderMatches`, `ForeignReversalMismatches`,
  `TwoUsersMismatch`, `TiedRefundMatchesByOrder`).
- Two balances share a lock key when the asset id of one is a colon-suffix of the other's;
  a rebuild of one then lifts the pause of the other. Ids of EVM tokens stand apart
  (`LockKeysEqualExactly`, `AssetsShareAKeyExactly`, `TwinRebuildLiftsPause`,
  `EvmAssetsStandApart`).
- An entry is stored under the trimmed order id and its balance under the id as given, so a
  command with white space around its id puts both accounts out (`RunKeepsBooks`,
  `UntrimmedIdMovesTwoGaps`, `UntrimmedDepositBreaksBoth`).
- The SQL backfill ignores the case of `:maker` and `:taker`, the resolver does not, and
  labels of other names are cut off by the resolver only (`BackfillAgreesExactly`,
  `BackfillPartsOnCase`).
- Subscription keys of symbols with a colon, such as swaps, do not decode
  (`SymbolKeyRoundTrip`, `TickersKeyRoundTrip`, `SwapSymbolsDoNotDecode`), and keys of
  symbol lists can collide when names hold separators (`ColonsCollide`, `CommasCollide`).
- A client order id with a sequence above the largest safe integer is built and then not
  parsed (`ParseOfBuild`).
- Timestamp order breaks between years of four digits and later ones (`IsoOrderExactly`).
- A setup request that read the row before the wizard was completed and saves after it puts
  the uncompleted row back (`CompletionSurvivesExactly`, `OverlappingStepUndoesCompletion`).
- A withdrawal may exceed the exact balance by up to half of the last shown digit, because
  it is checked against the rounded one (`OverdraftNeedsRoundingUp`, `OverdraftBoundIsMet`).
- A configuration value set to the empty string is gone from the running configuration
  after a restart (`EmptyValueAfterRestart`).
- Joined campaigns are read to the end only when the server's pages are not shorter than
  the client's (`FetchAllJoinedCampaigns`).

## Model

| member | source | states |
|---|---|---|
| BalanceLedger.BalanceLedgerService.ApplyMutation | server/src/modules/market-making/ledger/balance-ledger.service.ts:288-691 | one command under its lock moves the whole ledger state as the step function `Apply` says, or leaves it alone and gives the reason |
| BalanceLedger.BalanceLedgerService.SettleFunds | server/src/modules/market-making/ledger/balance-ledger.service.ts:494-612 | the fourteen branches over available, locked and external funds: accepted with exactly the entry's effect when no part would go negative, else refused with the shortage of that type; LP amounts of the wrong sign are refused first |
| BalanceLedger.BalanceLedgerService.Admit | server/src/modules/market-making/ledger/balance-ledger.service.ts:446-612 | a new command is refused exactly when its amount is no non-zero number, has the wrong sign, its reservation is paused, or a part of the balance would go negative, the first reason in that order being the one given |
| BalanceLedger.BalanceLedgerService.SaveEntry | server/src/modules/market-making/ledger/balance-ledger.service.ts:614-691 | one entry is appended and one balance row replaced, by the row that posting the entry to the old books gives; nothing else changes |
| BalanceLedger.BalanceLedgerService.ProjectBalanceFromEntries | server/src/modules/market-making/ledger/balance-ledger.service.ts:790-929 | the projection loop computes the replay of the sorted entries, the same posting rule that live mutations follow |
| BalanceLedger.BalanceLedgerService.CreateBalanceRow | server/src/modules/market-making/ledger/balance-ledger.service.ts:751-788 | the save for a row that was not found puts the empty row there and changes nothing else |
| BalanceLedger.BalanceLedgerService.RebuildOrderBalance | server/src/modules/market-making/ledger/balance-ledger.service.ts:258-286 | for whatever entries and row its two queries returned: reports whether the seven compared fields agree with the replay, pauses reservations if not and lifts the pause if so; a blank order id is refused |
| LedgerRuns.StepsMakeApply | server/src/modules/market-making/ledger/balance-ledger.service.ts:417-691 | a mutation's start, entry save and balance save with nothing in between do what the method does |
| LedgerRuns.RunKeepsInv | server/src/modules/market-making/ledger/balance-ledger.service.ts:417-691 | in every run: idempotency keys and entry ids stay unique, no part of a balance is negative and the total is the sum of the parts |
| LedgerRuns.EntriesOnlyGrow | server/src/modules/market-making/ledger/balance-ledger.service.ts:614-659 | in every run entries are only added, at the end |
| LedgerRuns.RetryAppliesOnce | server/src/modules/market-making/ledger/balance-ledger.service.ts:931-997 | a command whose entry was saved at any point of any run, sent again at any later point, changes nothing and is reported as the first entry, except a gas debit, which is refused as a conflict |
| LedgerRuns.UsedKeyNeverApplies | server/src/modules/market-making/ledger/balance-ledger.service.ts:423-444 | once a key is used no event of any run adds another entry under it, and no command with it applies |
| LedgerRuns.DepositsAlwaysApply | server/src/modules/market-making/ledger/balance-ledger.service.ts:502-509 | in every reachable state a deposit under a new key and a non-blank order id is accepted, raises its own balance by its amount and touches no other |
| LedgerOutcomes.NoAmount | server/src/modules/market-making/ledger/balance-ledger.service.ts:446-448 | on every reachable ledger a command whose amount is no finite number or zero is refused for that reason, whatever its type |
| LedgerOutcomes.Credits | server/src/modules/market-making/ledger/balance-ledger.service.ts:502-509 | deposits, rewards and LP fees in numbers: when accepted, and available funds, initial deposit and realized delta after, else the reason |
| LedgerOutcomes.Debits | server/src/modules/market-making/ledger/balance-ledger.service.ts:511-534 | withdrawals, releases of allocations, fees and gas: out of available or locked funds, counted as fees or not, refused for a negative amount or a shortage |
| LedgerOutcomes.Locks | server/src/modules/market-making/ledger/balance-ledger.service.ts:536-551 | locks and releases move funds between available and locked, and locks are refused under a paused key |
| LedgerOutcomes.Settlements | server/src/modules/market-making/ledger/balance-ledger.service.ts:553-599 | fills and swaps spend locked funds or earn available ones, pool moves go to and from external funds, all are realized with their sign; each refusal with its reason |
| LedgerOutcomes.Reversals | server/src/modules/market-making/ledger/balance-ledger.service.ts:463-470 | reversals move available funds; the entry they undo decides, by its type, whether they are realized and how far fees are given back |
| LedgerOutcomes.OthersStay | server/src/modules/market-making/ledger/balance-ledger.service.ts:485-491 | no command changes another balance |
| LedgerOutcomes.SavedCarriesOrder | server/src/modules/market-making/ledger/balance-ledger.service.ts:615-637 | in every run a saved entry and the row written for it carry the trimmed user order id and label of the command that names one, and its user |
| LedgerOutcomes.NewRows | server/src/modules/market-making/ledger/balance-ledger.service.ts:767-782 | a row made for an order nobody wrote to is empty and is split into user order and label as the id alone says |
| LedgerBooks.StepMovesToBe | server/src/modules/market-making/ledger/balance-ledger.service.ts:614-691 | an event changes what a balance is going to be by saving an entry of it or by losing a write of it, and in no other way |
| LedgerBooks.RunKeepsGiven | server/src/modules/market-making/ledger/balance-ledger.service.ts:417-691 | as long as nothing is lost on it, a balance is what the entries given to it add up to, fees and user included, for any order id |
| LedgerBooks.GapIsAccounted | server/src/modules/market-making/ledger/balance-ledger.service.ts:614-691 | in every run and for every order id: the ledger's sums less the stored ones are exactly the strays, what a mutation in flight still has to write, and what was lost |
| LedgerBooks.RunKeepsBooks | server/src/modules/market-making/ledger/balance-ledger.service.ts:614-691 | without losses and between mutations: stored and ledger sums agree if and only if the strays (entries whose given id differs from the stored one) cancel out; without strays the whole books and the user agree |
| LedgerBooks.UntrimmedIdMovesTwoGaps | server/src/modules/market-making/ledger/balance-ledger.service.ts:616-618 | an entry under an untrimmed id moves the strays of the trimmed order and of the given one by its weight, in opposite directions, and never by nothing |
| LedgerBooks.InternalMovesCancel | server/src/modules/market-making/ledger/balance-ledger.service.ts:494-612 | locks, releases and LP moves do not change a balance's total; every other entry changes it by its signed amount |
| LedgerBooks.RunConservesTotals | server/src/modules/market-making/ledger/balance-ledger.service.ts:661-691 | conservation: without losses a total is the net flow of the entries given to the balance, for any order id |
| LedgerFees.FeesMeet | server/src/modules/market-making/ledger/balance-ledger.service.ts:697-718 | two histories of fees, one larger, meet again under the same entries if and only if a refund clears the larger |
| LedgerFees.FeesWithMisses | server/src/modules/market-making/ledger/balance-ledger.service.ts:907-917 | not finding some refunded entries never shows fewer fees, and shows the same if and only if each missed refund is followed by a known one that clears them |
| LedgerFees.TiedFeeRefund | server/src/modules/market-making/ledger/balance-ledger.service.ts:907-917 | a fee and any refund of the same time, with anything before and after, rebuild to the same fees in either order if and only if at least the refund was paid before or a later refund clears all |
| LedgerFees.ChargesFirstIsLeast | server/src/modules/market-making/ledger/balance-ledger.service.ts:795-797 | of all orders of the rows by time, the one with the charges of each time first gives the least fees |
| LedgerFees.RefundsFirstIsMost | server/src/modules/market-making/ledger/balance-ledger.service.ts:795-797 | the one with the refunds first gives the most |
| LedgerRebuild.SumOfPermutation | server/src/modules/market-making/ledger/balance-ledger.service.ts:790-797 | funds, initial deposit and realized delta of a projection do not depend on the order of the entries |
| LedgerRebuild.LookupInScope | server/src/modules/market-making/ledger/balance-ledger.service.ts:831-835 | the rebuild finds a reversed entry exactly when it belongs to the rebuilt order and asset |
| LedgerRebuild.SortIsUnique | server/src/modules/market-making/ledger/balance-ledger.service.ts:795-797 | with distinct times the sort by creation time gives back insertion order, whatever order the rows came in |
| LedgerRebuild.RebuildSees | server/src/modules/market-making/ledger/balance-ledger.service.ts:258-286 | for every run, every two times of reading, every order of rows: the row plus all that is missing from it is the replay plus what moved between the reads and what foreign reversals hide; the compared sums match if and only if missing and hidden are equal |
| LedgerRebuild.MovedIsSaved | server/src/modules/market-making/ledger/balance-ledger.service.ts:258-286 | what moved between two reads is the sum of the entries of this balance saved in between |
| LedgerRebuild.RebuildAgreesOnSums | server/src/modules/market-making/ledger/balance-ledger.service.ts:258-286 | an undisturbed rebuild of a sound balance agrees on funds, total and initial deposit; its realized delta is short by exactly the foreign reversals |
| LedgerRebuild.RebuildMatchesExactly | server/src/modules/market-making/ledger/balance-ledger.service.ts:258-286 | an undisturbed rebuild of a sound balance, in any order its sort may leave: matches if and only if the first entry in that order and the last one saved name the same user, foreign reversals add nothing to the realized delta, and the fees in that order are those in the order of saving |
| LedgerRebuild.RebuildMatchesAtDistinctTimes | server/src/modules/market-making/ledger/balance-ledger.service.ts:258-286 | with distinct times on the balance: if and only if first and last entry name the same user, foreign reversals add nothing, and each foreign fee refund that found fees is followed by an own one that clears them |
| LedgerRebuild.EveryOrderMatches | server/src/modules/market-making/ledger/balance-ledger.service.ts:790-929 | it matches in every order of tied rows if and only if all earliest entries name the last entry's user, foreign reversals add nothing, and the fees of the two extreme orders are those in the order of saving |
| LedgerRebuild.ForeignReversalsBreakRebuild | server/src/modules/market-making/ledger/balance-ledger.service.ts:894-905 | foreign reversals with a non-zero sum always make it report a mismatch, in any order of rows |
| BalanceLedger.BalanceLedgerService.PauseReservations | server/src/modules/market-making/ledger/balance-ledger.service.ts:227-250 | pauses the balance's key and nothing else |
| LedgerPauses.LossesAreFound | server/src/modules/market-making/ledger/balance-ledger.service.ts:639-688 | after any losses whose funds do not cancel out, every undisturbed rebuild reports a mismatch |
| LedgerPauses.LostWriteIsFound | server/src/modules/market-making/ledger/balance-ledger.service.ts:639-688 | after one entry saved without its balance, every later undisturbed rebuild reports the mismatch, whatever happens in between, retries and restarts included |
| LedgerPauses.PauseEndsOnlyBy | server/src/modules/market-making/ledger/balance-ledger.service.ts:275-283 | in every run and for every lock key, a pause ends only by a restart or by a rebuild under that key for which what was missing equalled what was hidden |
| LedgerPauses.ReservationNeedsSettling | server/src/modules/market-making/ledger/balance-ledger.service.ts:472-483 | a reservation started under a key once paused passes only if such an event came in between, whatever the asset id |
| LedgerPauses.LossesStopReservations | server/src/modules/market-making/ledger/balance-ledger.service.ts:472-483 | after a pause no reservation passes as long as no restart comes, no stray entry concerns the balance, and every rebuild under its key is its own and finds the loss |
| LedgerPauses.LostWriteStopsReservations | server/src/modules/market-making/ledger/balance-ledger.service.ts:472-483 | for one lost write and asset ids none of which is a colon-suffix of another it is enough that the balance's own rebuilds are undisturbed |
| LockKeys.LockKeysEqualExactly | server/src/modules/market-making/ledger/balance-ledger.service.ts:366-368 | two lock keys are equal if and only if the balances are the same or one is the other with the front of its asset id moved to the order id |
| LockKeys.AssetsShareAKeyExactly | server/src/modules/market-making/ledger/balance-ledger.service.ts:366-368 | balances of two assets can share a key if and only if one asset id is a colon-suffix of the other |
| LockKeys.TwinHasSameKey | server/src/modules/market-making/ledger/balance-ledger.service.ts:366-368 | then every order has a twin order that does |
| LockKeys.SuffixKeyCollides | server/src/modules/market-making/ledger/balance-ledger.service.ts:366-368 | `o1` with `x:a` and `o1:x` with `a` are such balances |
| LockKeys.EvmAssetsStandApart | server/src/modules/web3/deposit/web3-deposit.service.ts:15-82 | ids of EVM tokens are never colon-suffixes of each other |
| LockKeys.EvmAssetEndsInItsAddress | server/src/modules/web3/deposit/web3-deposit.service.ts:15-82 | an id without a colon shares a key with one only if it is its address |
| LockKeys.ShippedTokenIsEvmAsset | server/src/modules/web3/deposit/web3-deposit.service.ts:20-28 | the first token of the table is such an id |
| LedgerCases.TornRebuildLiftsPause | server/src/modules/market-making/ledger/balance-ledger.service.ts:258-286 | a lost deposit, a pause, and a rebuild with the same deposit made again between its two reads: the rebuild matches and the pause is lifted while the deposit is still missing |
| LedgerCases.RebuildBetweenSavesMismatches | server/src/modules/market-making/ledger/balance-ledger.service.ts:639-688 | a rebuild between the two saves of a sound deposit pauses reservations |
| LedgerCases.NewRowOverwritesDeposit | server/src/modules/market-making/ledger/balance-ledger.service.ts:751-788 | a reader that found no row saves an empty one over a deposit made meanwhile |
| LedgerCases.LostDepositIsFound | server/src/modules/market-making/ledger/balance-ledger.service.ts:639-688 | a lost deposit meets all that the statements about lost writes ask for |
| LedgerCases.RepeatedGasDebitConflicts | server/src/modules/market-making/ledger/balance-ledger.service.ts:982-997 | deposit, lock and gas debit of any amount, and the repeated gas debit is refused |
| LedgerCases.ForeignReversalMismatches | server/src/modules/market-making/ledger/balance-ledger.service.ts:258-286 | a reward reversed on another order makes every rebuild of that order mismatch |
| LedgerCases.TwoUsersMismatch | server/src/modules/market-making/ledger/balance-ledger.service.ts:258-286 | two deposits by different users on one balance make its rebuild mismatch |
| LedgerCases.UntrimmedDepositBreaksBoth | server/src/modules/market-making/ledger/balance-ledger.service.ts:616-618 | one deposit under an untrimmed id makes the rebuilds of that id and of the trimmed one mismatch |
| LedgerCases.SpacesAreSuchAnId | server/src/modules/market-making/ledger/balance-ledger.service.ts:616-618 | ` o1` is such an id |
| LedgerCases.TwinRebuildLiftsPause | server/src/modules/market-making/ledger/balance-ledger.service.ts:275-283 | a rebuild of an untouched balance with the same lock key lifts the pause set after a lost deposit |
| LedgerCases.TiedRefundMatchesByOrder | server/src/modules/market-making/ledger/balance-ledger.service.ts:795-797 | a fee and its refund in one millisecond: the rebuild matches with the rows in one order and not in the other |
| Text.TrimDropsOnlySpace | server/src/common/helpers/ledger-order-scope.ts:9-13 | what trimming drops is white space only, at the two ends |
| Text.SpaceCodes | server/src/common/helpers/ledger-order-scope.ts:9-13 | the characters trimmed, by their codes |
| LedgerOrderScope.BuiltIdResolvesWithItsLabel | server/src/common/helpers/ledger-order-scope.ts:15-93 | a built ledger order id, resolved with its label, gives back the trimmed user order id and the label, for any label |
| LedgerOrderScope.BuiltIdResolvesAlone | server/src/common/helpers/ledger-order-scope.ts:15-93 | resolved without its label it gives them back if and only if the label is maker or taker |
| LedgerOrderScope.ResolveIsStable | server/src/common/helpers/ledger-order-scope.ts:33-93 | resolving a result again with its own label changes nothing |
| LedgerOrderScope.ResolvedPartsSpellTheId | server/src/common/helpers/ledger-order-scope.ts:33-93 | the resolved parts spell the trimmed ledger order id, or it is kept whole |
| LedgerOrderScope.GivenOrderIsKept | server/src/common/helpers/ledger-order-scope.ts:46-52 | a user order id given by the caller is taken, trimmed, with the given label or the default one |
| LedgerOrderScope.ResolveWithBothIsStable | server/src/common/helpers/ledger-order-scope.ts:33-93 | resolving a result again with its own user order id and label returns it if and only if that id is trimmed, which it always is when the caller gave one |
| LedgerOrderScope.SpaceBeforeLabelIsSuchACase | server/src/common/helpers/ledger-order-scope.ts:33-93 | `u1 :maker` resolves to an id with a space at its end |
| LedgerOrderScope.BuiltIdResolvesWithBoth | server/src/common/helpers/ledger-order-scope.ts:15-93 | a built id resolved with its user order id and label gives the scope that the label alone gives |
| LedgerOrderScope.BuildsExactly | server/src/common/helpers/ledger-order-scope.ts:15-31 | when an id is built, what it is, and why it is refused |
| LedgerOrderScope.SuffixSplit | server/src/common/helpers/ledger-order-scope.ts:69-86 | looking at the last colon and looking at the suffix find the same dual-account label |
| LedgerBackfill.BackfillAgreesExactly | server/src/database/migrations/1780900000000-AddLedgerOrderIdentityFields.ts:22-36 | for every trimmed id and every stored label: if and only if when the CASE expressions and the resolver agree |
| LedgerBackfill.BackfillAgreesOnKnownLabels | server/src/database/migrations/1780900000000-AddLedgerOrderIdentityFields.ts:186-216 | for no label, default, maker and taker they agree if and only if no suffix matches in another case and the part before the suffix is not empty |
| LedgerBackfill.LikeMakerExactly | server/src/database/migrations/1780900000000-AddLedgerOrderIdentityFields.ts:22-36 | the SQL pattern for maker matches a colon and the five letters, each in either case |
| LedgerBackfill.BackfillPartsOnCase | server/src/database/migrations/1780900000000-AddLedgerOrderIdentityFields.ts:22-36 | they disagree on every id whose suffix differs in case only |
| LedgerBackfill.CapitalsAreSuchACase | server/src/database/migrations/1780900000000-AddLedgerOrderIdentityFields.ts:22-36 | `o1:MAKER` is such an id |
| Web3Login.NonceService.GetWeb3Nonce | server/src/modules/auth/auth.service.ts:218-246 | fails exactly for a blank address or chain; else stores one new row bound to the normalised address and chain, expiring five minutes after issue |
| Web3Login.NonceService.AssertActiveWeb3Nonce | server/src/modules/auth/auth.service.ts:590-620 | the first failing test of the read check, in the code's order |
| Web3Login.NonceService.ConsumeWeb3Nonce | server/src/modules/auth/auth.service.ts:622-648 | the conditional update sets the consumption time of exactly the row whose conditions hold, and fails otherwise without a change |
| Web3Login.NonceYieldsOneJwt | server/src/modules/auth/auth.service.ts:248-289 | for every interleaving of any number of logins, with clock reading, update and signing as separate steps and under any clock: a nonce yields at most one JWT, with the address and chain bound at issue and a recorded time before the expiry; a row is consumed if and only if it yielded its JWT or its one login is about to sign or was cut off |
| Web3Login.ConsumptionIsFinal | server/src/modules/auth/auth.service.ts:622-648 | rows stay, a set consumption time never changes, JWTs are only added |
| Web3Login.VerifiedLoginSucceedsUnlessBeaten | server/src/modules/auth/auth.service.ts:248-289 | a login with a valid signature that has read the clock consumes its nonce and signs its JWT if and only if the nonce is unused at the update and unexpired by the time read |
| Web3Login.FreshLoginSucceeds | server/src/modules/auth/auth.service.ts:218-289 | from every reachable state, a new nonce taken through all steps at once yields its JWT |
| Web3Login.NonceLivesFiveMinutes | server/src/modules/auth/auth.service.ts:622-648 | on every reachable table, an unused nonce can be used by its party for exactly five minutes |
| Web3Login.WhyRefused | server/src/modules/auth/auth.service.ts:590-620 | why the read check refuses, first reason first |
| Web3Login.AddressForms | server/src/modules/auth/auth.service.ts:484-492 | an address that starts with a small 0x loses its capitals letter by letter, any other is only trimmed |
| Web3Login.ChainForms | server/src/modules/auth/auth.service.ts:494-502 | chain ids are trimmed and must not be blank |
| Web3Login.ReadCheckMatchesUpdate | server/src/modules/auth/auth.service.ts:590-648 | on reachable tables the read check, by clock, and the update's condition, by text, ask for the same |
| Timestamps.IsoOrderIsTimeOrder | server/src/common/helpers/utils.ts:3-5 | on ISO timestamps of years up to 9999, text order is time order and equal texts are equal times |
| Timestamps.IsoOrderBreaksAfter9999 | server/src/common/helpers/utils.ts:3-5 | every later year's text is smaller than every earlier one's |
| Timestamps.IsoOrderExactly | server/src/common/helpers/utils.ts:3-5 | for any two times a Date can hold, text order is time order if and only if both or neither year has four digits |
| Timestamps.Calendar | server/src/common/helpers/utils.ts:3-5 | leap years by example of each rule, and the lengths of the months |
| Timestamps.EpochText | server/src/common/helpers/utils.ts:3-5 | the text of time zero |
| Timestamps.MillisOfCivil | server/src/common/helpers/utils.ts:3-5 | the calendar conversion, leap years included, is undone by counting milliseconds |
| Timestamps.GetTimeOfIso | server/src/modules/auth/auth.service.ts:610-612 | a printed time reads back as itself |
| AdminAuth.LoginAfterUpdate | server/src/modules/auth/auth.service.ts:115-159 | from a password update until the next, in every run: a login that no lock stops is granted if and only if it gives the trimmed password, its hash, or a text of the same hash |
| AdminAuth.LoginFromStart | server/src/modules/auth/auth.service.ts:179-185 | the same from the start for a configured password or a stored hash, and nobody is let in with neither |
| AdminAuth.LoginLeaves | server/src/modules/auth/auth.service.ts:742-759 | what a granted and a refused login leave: no failures and no lock, or one failure more, and from the fifth on fifteen minutes of lock and a new version |
| AdminAuth.StartIsClean | server/src/modules/auth/auth.service.ts:718-734 | the first row has version one, no failure and no lock |
| AdminAuth.AuthService.ValidateUser | server/src/modules/auth/auth.service.ts:115-159 | a password login ends as one of five outcomes and moves the state by exactly that outcome's step |
| AdminAuth.AuthService.UpdateAdminPassword | server/src/modules/auth/auth.service.ts:161-177 | sets the trimmed password and its hash, clears failures and lock, and raises the token version by one |
| AdminAuth.AuthService.RecordFailedLogin | server/src/modules/auth/auth.service.ts:742-752 | one more failure; from the fifth on also a new lock and a new token version |
| AdminAuth.AuthService.EndSession | server/src/modules/auth/auth.service.ts:210-216 | an administrator's logout raises the token version, any other changes nothing |
| AdminAuth.AuthService.AssertAdminTokenVersion | server/src/modules/auth/auth.service.ts:306-312 | a token is valid if and only if it carries the current, non-zero version |
| AdminAuth.CounterAndLock | server/src/modules/auth/auth.service.ts:132-155 | in every run the counter is the number of failures since the last reset, and a lock exists exactly from five on, ending one lockout after the last of them |
| AdminAuth.LockoutRateBound | server/src/modules/auth/auth.service.ts:736-759 | the k-th failed check since a reset comes at least k-5 lockouts after the fifth, under any clock and whatever else is tried |
| AdminAuth.VersionCountsRevocations | server/src/modules/auth/auth.service.ts:742-772 | over every run the version grows by exactly the password updates, admin logouts and threshold-reaching failures |
| AdminAuth.TokenLivesUntilRevocation | server/src/modules/auth/auth.service.ts:306-312 | a token is accepted later if and only if nothing was revoked since it was signed, and once refused it is refused for ever |
| SearchHistory.HistoryStore.AddSearchHistory | interface/src/lib/helpers/searchHistory.ts:7-25 | moves a known symbol's stored item to the end or appends the new one, and keeps the last six; no symbol twice |
| SearchHistory.TruncationCommutes | interface/src/lib/helpers/searchHistory.ts:13-23 | truncating before a move makes no difference to truncating after it |
| SearchHistory.HistoryIsLastDistinct | interface/src/lib/helpers/searchHistory.ts:7-25 | for every sequence of additions and every capacity, the list holds the last distinct symbols in order of last occurrence |
| SearchHistory.SmallerListIsIncluded | interface/src/lib/helpers/searchHistory.ts:7-25 | the inclusion theorem: a smaller list is the end of a larger one |
| SearchHistory.AddAll | interface/src/lib/helpers/searchHistory.ts:7-25 | adding any items one by one to the store ends with the last six distinct symbols |
| Funding.FundingStore.CompleteMockDeposit | web3-interface/src/lib/stores/funding.ts:360-403 | appends one delta and one activity with the next id and saves, or changes nothing and gives the first error |
| Funding.FundingStore.SubmitMockWithdrawal | web3-interface/src/lib/stores/funding.ts:405-454 | the same for withdrawals, checked against the balance it is given |
| Funding.FundingStore.Reload | web3-interface/src/lib/stores/funding.ts:135-165 | reads back whatever storage holds through the guards on amounts, texts and lists; a snapshot this store wrote gives back exactly the state in memory |
| Funding.SnapshotRestores | web3-interface/src/lib/stores/funding.ts:135-165 | what is persisted reads back as the state it was written of |
| Funding.ReadsAllExactly | web3-interface/src/lib/stores/funding.ts:94-115 | of a stored list all items are read if and only if each passes the guard |
| Funding.EvmDestinations | web3-interface/src/lib/stores/funding.ts:306-309 | an EVM destination is `0x` and forty hexadecimal digits, by their codes |
| Funding.SolanaDestinations | web3-interface/src/lib/stores/funding.ts:310-312 | a Solana destination is 32 to 44 letters and digits without zero, capital I and O and small l |
| Funding.DepositAccepted | web3-interface/src/lib/stores/funding.ts:199-223 | a deposit is accepted if and only if it is at least 0.01 of a native asset or 25 of another, with no more decimals than the asset has; an empty amount is the suggested one |
| Funding.WithdrawalAccepted | web3-interface/src/lib/stores/funding.ts:291-330 | a withdrawal is accepted if and only if its destination is valid and it is at least 0.01 or 10, at most what is shown, with no more decimals than the asset has |
| Funding.WhyRefused | web3-interface/src/lib/stores/funding.ts:291-330 | the reason a request is refused for, in the order of the checks |
| Funding.AcceptedWrites | web3-interface/src/lib/stores/funding.ts:360-454 | what an accepted request writes |
| Funding.FundingIdsDiffer | web3-interface/src/lib/stores/funding.ts:373-374 | requests of different kinds, chains or numbers have different ids |
| Funding.ShownDecimals | web3-interface/src/lib/stores/funding.ts:347-355 | balances are shown with four decimals for assets of more than six and two for others |
| Funding.PendingShown | web3-interface/src/lib/stores/funding.ts:353-355 | pending withdrawals are shown, rounded, if they come to more than nothing |
| Funding.ActivityGuard | web3-interface/src/lib/stores/funding.ts:100-109 | which stored activities are read back |
| Funding.OddStorage | web3-interface/src/lib/stores/funding.ts:151-165 | what storage without a snapshot, or with a broken one, restores |
| Funding.AcceptedWithdrawal | web3-interface/src/lib/stores/funding.ts:291-330 | an accepted withdrawal is positive, at least the minimum and at most the shown balance, and adds one delta only |
| Funding.StepMovesOneBalance | web3-interface/src/lib/stores/funding.ts:337-454 | a step moves the exact balance of its own account and asset by exactly the amount asked for or not at all, no other balance, and takes at most what was shown |
| Funding.RunConservesBalances | web3-interface/src/lib/stores/funding.ts:337-454 | conservation: in every run a balance is its seed plus accepted deposits less accepted withdrawals |
| Funding.NoOverdrawBeyondRounding | web3-interface/src/lib/stores/funding.ts:316-358 | in every run every exact balance is at least minus half a shown unit |
| Funding.RoundedIsNear | web3-interface/src/lib/stores/funding.ts:347-355 | the shown balance is within half a shown unit of the exact one |
| Funding.OverdraftNeedsRoundingUp | web3-interface/src/lib/stores/funding.ts:316-358 | no accepted withdrawal exceeds the exact balance if and only if the shown amount is not rounded up or is below the minimum |
| Funding.OverdraftBoundIsMet | web3-interface/src/lib/stores/funding.ts:316-358 | a deposit of 0.01005 ether on 4.25 and a withdrawal of what is shown reach the bound |
| MarketMaking.MarketMakingStore.TransitionOrderLifecycle | web3-interface/src/lib/stores/market-making.ts:489-546 | looks the order up in session, then seeds; if the action is allowed, prepends or replaces the updated order, logs it and saves; else changes nothing |
| MarketMaking.MarketMakingStore.CreateMockOrder | web3-interface/src/lib/stores/market-making.ts:548-611 | prepends a new active order with the next number and five log entries, drops the draft and saves |
| MarketMaking.MarketMakingStore.CreateMockCampaign | web3-interface/src/lib/stores/market-making.ts:328-387 | prepends a campaign with the next number and its activity, and saves |
| MarketMaking.MarketMakingStore.Reload | web3-interface/src/lib/stores/market-making.ts:244-262 | reads back what the type guards let through of the snapshot |
| OrderLifecycle.AllOrdersIsOverlay | web3-interface/src/lib/stores/market-making.ts:195-201 | the derived list has distinct ids and is the seed map overridden by the session map |
| OrderLifecycle.CurrentOrderIsOverlay | web3-interface/src/lib/stores/market-making.ts:493-496 | the two-step lookup reads that overlay |
| OrderLifecycle.PutIsMapUpdate | web3-interface/src/lib/stores/market-making.ts:524-528 | prepend-or-replace is one update of the overlay |
| OrderLifecycle.HistoryFacts | web3-interface/src/lib/stores/market-making.ts:463-522 | for every legal history of actions: the log extends the earlier one by one entry an action and ends in the status, holds and resumes alternate, stops are counted, no other field changes |
| OrderLifecycle.StepRefines | web3-interface/src/lib/stores/market-making.ts:489-611 | each store operation is one step on the overlay map, and a new order's id is fresh in it |
| OrderLifecycle.ActionAcceptedExactly | web3-interface/src/lib/stores/market-making.ts:481-546 | in every session an action on an order is accepted if and only if the order is shown and active, or paused or stopped for a resume; the order is then shown with the new status and one log entry, and a refused action changes nothing |
| OrderLifecycle.StopThenResume | web3-interface/src/lib/stores/market-making.ts:481-546 | a new order that is stopped and resumed is active, with one stop counted |
| OrderLifecycle.CreatedOrder | web3-interface/src/lib/stores/market-making.ts:548-611 | a new order is shown active, with its five log entries in order, nothing counted, under the next number |
| OrderLifecycle.CreatedCampaign | web3-interface/src/lib/stores/market-making.ts:328-387 | a new campaign comes first under the next number with one participant |
| OrderLifecycle.FirstNumbers | web3-interface/src/lib/stores/market-making.ts:62-68 | a session starts empty, with order 3001 and campaign 1 next |
| OrderLifecycle.OrderIdsDiffer | web3-interface/src/lib/stores/market-making.ts:561-561 | order ids of different chains or numbers differ |
| OrderLifecycle.OrdersAreReplays | web3-interface/src/lib/stores/market-making.ts:489-611 | in every session each shown order is its origin with its accepted actions replayed |
| OrderLifecycle.LifecycleInEverySession | web3-interface/src/lib/stores/market-making.ts:445-546 | in every session: log prefix and last status, pauses and stops balance resumes, cancel count grew by the stops, and orders of any other first status never changed |
| OrderLifecycle.RestoreGivesBackExactly | web3-interface/src/lib/stores/market-making.ts:184-262 | a snapshot restores its state if and only if all its numbers are finite |
| OrderLifecycle.SessionsAreSound | web3-interface/src/lib/stores/market-making.ts:195-262 | in every session the shown ids are distinct and restoring the saved state gives it back |
| OrderLifecycle.PlaySession | web3-interface/src/lib/stores/market-making.ts:226-262 | the store goes through the states of every run, reloads included, and storage always holds the state |
| SeedOrders.MockOrdersAreSeeds | web3-interface/src/lib/helpers/mock-web3.ts:342-516 | the shipped orders meet what the session theorems ask of seeds |
| MixinFetcher.GroupBySymbol | server/src/database/seeder/mixin-fetcher.ts:88-114 | groups hold the versions of each upper-cased symbol in response order; chains are the native assets, the last of several for one chain |
| MixinFetcher.PickVersion | server/src/database/seeder/mixin-fetcher.ts:121-151 | picks the first native version, else the first of least chain priority, else the first |
| MixinFetcher.SelectVersions | server/src/database/seeder/mixin-fetcher.ts:116-152 | the result has exactly the upper-cased symbols as keys and the selected version of each |
| MixinFetcher.AssetSource.FetchMixinAssets | server/src/database/seeder/mixin-fetcher.ts:76-164 | a cached result is returned unchanged; otherwise the result meets the specification and is cached |
| MixinFetcher.SelectionIsUnique | server/src/database/seeder/mixin-fetcher.ts:127-151 | the selection rule picks one version |
| MixinFetcher.SingleVersionIsSelected | server/src/database/seeder/mixin-fetcher.ts:122-124 | the shortcut for one version is what the full rule gives |
| MixinFetcher.SpecificationIsExact | server/src/database/seeder/mixin-fetcher.ts:88-152 | two results that meet the specification are equal |
| MixinFetcher.GroupsPartition | server/src/database/seeder/mixin-fetcher.ts:88-114 | every item is in exactly one group, as often as in the response |
| ChartPrice.SlicingIsTruncation | interface/src/lib/helpers/utils.ts:42-71 | cutting the digit text is rounding the value down to 2, 3 or 8 decimals by its size, and the identity below 0.0001 |
| ChartPrice.SliceIsFloor | interface/src/lib/helpers/utils.ts:69-69 | cutting a fraction after n digits is a floor, for every n and every digit text |
| ChartPrice.SmallPricesStay | interface/src/lib/helpers/utils.ts:45-48 | negative prices and those below 0.0001 are shown in full |
| ChartPrice.FormatError | interface/src/lib/helpers/utils.ts:42-71 | the error is at least zero and less than one step |
| ChartPrice.FormatIsMonotone | interface/src/lib/helpers/utils.ts:42-71 | larger prices never show smaller, across the changes of precision too |
| ChartPrice.FormatIsIdempotent | interface/src/lib/helpers/utils.ts:42-71 | the formatted price is itself a price, and formatting it changes nothing |
| SetupConfig.SetupConfigService.SetValues | server/src/modules/setup-config/setup-config.service.ts:59-69 | saves and applies the values in order and lists their keys |
| SetupConfig.SetupConfigService.OnModuleInit | server/src/modules/setup-config/setup-config.service.ts:43-57 | whatever order the entries are read in, the running configuration becomes the one startup specifies |
| SetupConfig.SetupConfigService.GetValue | server/src/modules/setup-config/setup-config.service.ts:96-114 | the decrypted or plain stored value; the running configuration only for keys not stored |
| SetupConfig.SetupConfigService.SetAdminPassword | server/src/modules/setup-config/setup-config.service.ts:71-78 | stores the hash unencrypted and sets the running password |
| SetupConfig.SecretKeys | server/src/modules/setup-config/setup-config.service.ts:168-175 | a key is secret if and only if one of four words is part of it |
| SetupConfig.SecretsAreEncrypted | server/src/modules/setup-config/setup-config.service.ts:134-153 | in every run of writes and restarts, secret keys are stored encrypted if there is an encryption key, all others as they are |
| SetupConfig.RuntimeValues | server/src/modules/setup-config/setup-config.service.ts:155-166 | the gas multiplier runs as a number, one where the text is none or zero; all else as text |
| SetupConfig.UnwrittenReads | server/src/modules/setup-config/setup-config.service.ts:96-114 | a key that is not stored reads as what is running, unless that is empty or zero |
| SetupConfig.ShippedDeploymentIsSound | server/src/modules/setup-config/setup-config.service.ts:16-33 | what the statements ask of a deployment holds of the shipped table |
| SetupConfig.SetAllAgrees | server/src/modules/setup-config/setup-config.service.ts:59-69 | after any list of writes store and running configuration agree with the last value of each key |
| SetupConfig.RestartAgrees | server/src/modules/setup-config/setup-config.service.ts:43-57 | a restart restores that agreement from the store alone |
| SetupConfig.ConfigFollowsStore | server/src/modules/setup-config/setup-config.service.ts:43-166 | in every run of writes, password changes and restarts, a written key reads as its last value and every mapped key with a non-empty one is running with it |
| SetupConfig.EmptyValueAfterRestart | server/src/modules/setup-config/setup-config.service.ts:43-57 | for an empty value that holds after a restart if and only if the process environment has the same |
| SetupConfig.ShippedTableIsInjective | server/src/modules/setup-config/setup-config.service.ts:16-33 | no two keys share a configuration path, none uses the password's |
| Setup.SetupService.DoSetPassword | server/src/modules/setup/setup.service.ts:75-99 | refusal reason and new state of setPassword in every state |
| Setup.SetupService.DoSeedDatabase | server/src/modules/setup/setup.service.ts:101-119 | the same for seedDatabase, failed seeding included |
| Setup.SetupService.DoCompleteStep | server/src/modules/setup/setup.service.ts:134-153 | the same for completeStep |
| Setup.SetupService.DoCompleteSetup | server/src/modules/setup/setup.service.ts:155-185 | the same for completeSetup |
| Setup.SetupService.DoWriteEnvValues | server/src/modules/setup/setup.service.ts:187-223 | the same for writeEnvValues, and the values passed on are exactly the non-empty ones |
| Setup.StepFacts | server/src/modules/setup/setup.service.ts:75-277 | every step keeps the order of the stages, takes nothing back, and completes only on seeded tables |
| Setup.CompletesExactly | server/src/modules/setup/setup.service.ts:155-185 | completeSetup is accepted if and only if initialized, uncompleted, with password and exchange steps and rows in each of the five tables; `seed` is among the missing steps if and only if one of the tables is empty |
| Setup.AcceptsExactly | server/src/modules/setup/setup.service.ts:75-223 | the same for every other request: when it is refused, in which order, and the row it leaves |
| Setup.StepNames | server/src/modules/setup/setup.service.ts:137-139 | a step name is one to sixty-four small letters, digits, underscores and hyphens, by their codes |
| Setup.PasswordIsKept | server/src/modules/setup/setup.service.ts:75-99 | a password is configured after a request if and only if one was before or the request set it |
| Setup.StateRead | server/src/modules/setup/setup.service.ts:229-258 | getState changes the row only for a configured password the row does not know |
| Setup.RunIsOrdered | server/src/modules/setup/setup.service.ts:75-289 | in every run: initialized implies the password step, completed implies initialized and the password, exchange and complete steps |
| Setup.SetupIsMonotoneAndAbsorbing | server/src/modules/setup/setup.service.ts:75-289 | over every run split in two: steps are never removed, initialization never reverts, and a completed row never changes |
| Setup.CompletionWasSeeded | server/src/modules/setup/setup.service.ts:155-185 | a completed run has a completing step before which all five tables held rows |
| Setup.PasswordIsSetOnce | server/src/modules/setup/setup.service.ts:75-99 | once initialized, setPassword is refused for ever |
| SetupRaces.AloneIsHandle | server/src/modules/setup/setup.service.ts:134-153 | a request that nothing overlaps does what its handler does as one step |
| SetupRaces.OverlapsKeepOrder | server/src/modules/setup/setup.service.ts:229-258 | however requests overlap, a completed row is initialized and has the password, exchange and complete steps |
| SetupRaces.CompletionSurvivesExactly | server/src/modules/setup/setup.service.ts:134-185 | completion survives if and only if no request that holds an uncompleted row saves after it, except to complete again |
| SetupRaces.CompletedRowStays | server/src/modules/setup/setup.service.ts:279-289 | a completed row stays exactly as it is as long as every request that saves read the row after the completion |
| SetupRaces.OverlappingStepUndoesCompletion | server/src/modules/setup/setup.service.ts:134-185 | a completeStep that overlaps completeSetup puts the uncompleted row back |
| Campaigns.FetchAllJoinedCampaigns | server/src/modules/campaign/campaign.service.ts:315-347 | the loop ends, and returns the server's whole list in order if and only if its pages are long enough or one holds the list |
| Campaigns.KeysIdentify | server/src/modules/campaign/campaign.service.ts:166-177 | keys are equal if and only if chain and lower-cased address are |
| Campaigns.EscrowAddressWins | server/src/modules/campaign/campaign.service.ts:166-177 | of two addresses the escrow address is the one compared, then the other, then the empty one |
| Campaigns.JoinCampaigns | server/src/modules/campaign/campaign.service.ts:604-633 | posts, in order, the ready running campaigns whose key is not joined, and all of them if fetching failed |
| Campaigns.FetchAndJoin | server/src/modules/campaign/campaign.service.ts:564-633 | after a whole fetch, exactly the ready running campaigns that the server does not list are posted |
| Campaigns.ListedMeansKeyed | server/src/modules/campaign/campaign.service.ts:166-177 | a key is in the joined set if and only if the server lists that chain and address |
| SubscriptionKey.NormalizedList | server/src/common/helpers/subscriptionKey.ts:19-23 | the list in a key is ascending and holds exactly the trimmed non-empty symbols |
| SubscriptionKey.TypesNeverCollide | server/src/common/helpers/subscriptionKey.ts:11-34 | equal keys have equal types, whatever the other parts hold |
| SubscriptionKey.KeyTexts | server/src/common/helpers/subscriptionKey.ts:11-34 | the text of each of the four kinds of key |
| SubscriptionKey.SymbolKeyRoundTrip | server/src/common/helpers/subscriptionKey.ts:11-58 | order-book and ticker keys decode to their parts if and only if exchange and symbol have no colon |
| SubscriptionKey.CandleKeyRoundTrip | server/src/common/helpers/subscriptionKey.ts:11-58 | the same for candles and the time frame |
| SubscriptionKey.TickersKeyRoundTrip | server/src/common/helpers/subscriptionKey.ts:11-58 | a symbol-list key decodes to the sorted duplicate-free list if and only if no part has a separator |
| SubscriptionKey.TickersKeysEqual | server/src/common/helpers/subscriptionKey.ts:11-34 | for exchanges without colons and symbols without commas, two such keys are equal if and only if exchanges and sets of trimmed symbols are |
| SubscriptionKey.SameSetsSameKey | server/src/common/helpers/subscriptionKey.ts:11-34 | equal sets of trimmed symbols give equal keys, whatever they hold |
| SubscriptionKey.ColonsCollide | server/src/common/helpers/subscriptionKey.ts:11-34 | with a colon, different exchanges can share a key |
| SubscriptionKey.CommasCollide | server/src/common/helpers/subscriptionKey.ts:11-34 | one symbol with a comma has the key of two |
| SubscriptionKey.SwapSymbolsDoNotDecode | server/src/common/helpers/subscriptionKey.ts:35-58 | a swap symbol's key does not decode to it |
| ClientOrderId.ParseOfBuild | server/src/common/helpers/client-order-id.ts:3-56 | a built id parses back exactly up to the largest safe integer and is refused above it |
| ClientOrderId.BuildIsInjective | server/src/common/helpers/client-order-id.ts:3-12 | different accepted pairs build different ids |
| ClientOrderId.BuildsExactly | server/src/common/helpers/client-order-id.ts:3-12 | an id is built if and only if it is not empty and has no colon and the sequence is a non-negative integer |
| ClientOrderId.ParsesExactly | server/src/common/helpers/client-order-id.ts:37-56 | a text is parsed if and only if it has one colon, something before it, and digits after it up to the largest safe integer |
| ClientOrderId.BuildOfParse | server/src/common/helpers/client-order-id.ts:3-56 | what was parsed builds the same text if and only if its digits have no superfluous leading zero |
| Decimal.DigitsOfValue | server/src/common/helpers/client-order-id.ts:41-52 | reading then printing digits gives them back if and only if they are canonical |

## Left out

- Strategy engine, quote builder, intent workers, dual-account planner, trackers, market-data streams, exchange adapters, withdrawals on chain, and the user interfaces: other subsystems, not part of this model.
- HTTP, RPC, JWT signing and verification, WebAuthn passkeys, signature checks, encryption and hashing themselves: their results are inputs or function parameters. The content hash of a ledger command is modelled as the content itself, which assumes no collisions.
- Ledger getters, outbox events, trading account and chain columns: copied or read without a rule. A getter that creates a missing row is the event that creates it.
- LedgerRuns.RunKeepsInv: one service process on one database; mutations of one balance queue up in it, and new random entry ids are not in use.
- LedgerRebuild.RebuildMatchesExactly: when something disturbs the rebuild, `LedgerRebuild.RebuildSees` gives the exact condition for the compared sums; fees and user are then left open.
- LedgerRuns.StepsMakeApply: the lookups and checks before a mutation's first save are one step; the module's header says why several make no difference.
- Web3Login.NonceYieldsOneJwt: extracting address, chain and nonce from the signed message and deriving the user id are outside; a login starts from the extracted values. Random nonces are assumed new, and the clock stays in years up to 9999. The time of signing itself is not recorded anywhere and may be later than the recorded one.
- AdminAuth.LockoutRateBound: handlers are atomic steps; two password checks that interleave inside their database calls are outside.
- Passkey registration and deletion, audit lines, session reads: passkey login appears only as a step that reads the row.
- Funding.StepMovesOneBalance: dollar values, timelines and detail texts are outside; the balance checked is the one shown at that moment.
- OrderLifecycle.LifecycleInEverySession: fee estimates, form validators, campaign details and activity texts are outside; the unchanged text fields of an order are one field.
- ChartPrice.SlicingIsTruncation: prices are exact decimals; conversion to binary floating point and exponent notation from 10^21 on are outside.
- ClientOrderId.ParseOfBuild: integers are printed in full; above 10^21 JavaScript prints an exponent, which the parser refuses too.
- LedgerBackfill.BackfillAgreesExactly: text is a sequence of characters of one length in both languages; SQLite's substr counts code points and JavaScript UTF-16 units.
- Campaigns.FetchAllJoinedCampaigns: the server's list does not change during a fetch and its has_more flag is truthful; the access-token cache is outside.
- SetupConfig.ConfigFollowsStore: the encryption key stays the same over the run.
- Setup.StepFacts: handlers are atomic steps; `SetupRaces` is about overlapping ones. Configuration status and seed status are only read.
