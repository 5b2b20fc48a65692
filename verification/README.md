# Exchange operator: verified model

A Dafny model of the operator side of an event-sourced exchange. One append-only
log is folded into state and dispatched by several concurrent goroutines, durable
sidecars survive crashes, and a fleet of members is admitted, revoked, paid and
lent to through messages on that log.

| file | what it models |
|---|---|
| `Cursors.dfy` | the fold and dispatch cursors under poll, rebuild, ingest, operator and relay appends |
| `Membership.dfy` | the allowlist, its tombstones and the parent/child graph of delegated admission |
| `Admission.dfy` | redeems, adds and removes as their goroutines interleave over one configuration file |
| `Roster.dfy` | the live key set under the allowlist controller and the latest-wins roster fold with its anti-rollback floor |
| `Redeem.dfy` | single-use invites across crashes |
| `RelaySeed.dfy` | deduplication and wire-id aliases of one relay leg across restarts |
| `Credit.dfy` | the scrip ledger: mints, deliver-on-credit loans, holds, repayment and the pay of labour |
| `CreditRuns.dfy` | credits, holds, pay and restarts as their goroutines interleave |
| `AutoAccept.dfy` | assigns from posting to pay, and the gates of the auto-accept ticker |
| `Auction.dfy` | the bids of an auctioned assign, its winner and its clearing price |
| `ReplayWindow.dfy` | the windows of a replay, shared by the cursors and the assign state |
| `Versioning.dfy` | the version-bump checker |
| `Session.dfy` | a buyer's bounded session window |
| `Climb.dfy` | the egress watermark and its reconstruction |
| `Ranking.dfy` | ranking and merging of buy candidates |
| `Reconnect.dfy` | the reconnect loop and the publisher it unblocks |

Protocols are step systems: a state, one function per atomic step, and theorems
over every run, where a step that is not enabled does nothing. Code that changes
fields, slices and files in place is also given as classes and methods, each
proved against the step functions, so the theorems about runs are about that code.

`dafny verify dfyconfig.toml` checks everything.

## Where the code does less than its comments say

- Supply equals the sum of the live balances only until labour is paid: the bounty reaches the live balance without a matching fold, and only a replay debits the operator (`CreditRuns.RunConserves`, `Credit.LabourIsUncountedUntilRestart`).
- The paid mark of an assign is not in the log, so a rebuild makes a paid completion payable again (`AutoAccept.PaysAgainExactlyAfterRebuild`, `AutoAccept.PaidTwice`).
- The cap on a buyer's debt holds only while its buyer-accepts do not overlap, and only where the sum it is tested on fits an int64 (`CreditRuns.OneAtATimeConserves`, `CreditRuns.OverlappingCreditsPassTheCap`, `Credit.CapIsTestedExactlyWhenItFits`).
- Overlapping holds of one buyer can overdraw it on a restart, and a purchase in the middle of a pay drops the repayment from the live ledger only (`CreditRuns.OverlappingHoldsOverdraw`, `CreditRuns.HoldDuringPayDropsRepayment`).
- The issuer gate is read before the redeem takes its lock, so redeems that overlap can make two keys each other's parent (`Admission.OverlappingRedeemsCloseACycle`, `Admission.RunIsAcyclicExactly`).
- The edge of a delegated admission is recorded outside the controller's lock: a remove in between is missed or undone (`Admission.RemoveBeforeTheEdgeIsMissed`, `Admission.StaleEdgeUndoesARemove`).
- A cascade of revocation reaches direct children only (`Membership.CascadeReachesAllExactlyWhenShallow`, `Membership.GrandchildIsReached`).
- A membership change that is committed and made live but fails to publish is undone in the live set by the next roster delivery, and two rosters of equal created_at can undo each other (`FleetRoster.AbandonedChangeIsUndone`, `FleetRoster.StaysConvergedExactlyWithoutATie`, `FleetRoster.TieIsReached`).
- A relay batch that fails to persist still counts as seen, so its events are dropped on every redelivery until a restart (`RelaySeed.FailedPersistIsMissed`, `RelaySeed.RestartTakesMissed`).
- A grant id holding a newline is not single-use across a restart (`Redeem.SingleUseNeedsOneLine`).
- An operator record that inlines plaintext after the climb, as a delivery may, moves the watermark when it is recomputed (`Climb.RecomputedIsUnchangedExactlyWithoutPlaintext`).
- Accepted version bumps do not compose into a declaration that hides a required arg behind a later optional one of the same name (`Versioning.NotComposable`).
- A worker who wins an auction while holding a claim can hold two, and only so (`AutoAccept.OneClaimEachExactlyUnlessHolderWins`, `AutoAccept.TwoClaimsReached`).
- The half withheld from a credit is computed in 64-bit arithmetic, so a credit past a fiftieth of the largest integer may retire less than half, and the largest none (`Credit.WithheldIsHalfExactlyWhenCharged`, `Credit.NothingWithheldAtMax`).
- Turning a required arg optional counts as breaking although no caller breaks (`Versioning.CallsBreakExactly`).

## Model

| member | source | states |
|---|---|---|
| `Cursors.StepKeepsInv` | pkg/exchange/engine_core.go:1316-1394 | Every atomic step of every goroutine keeps the cursor, ownership, fold and delivery invariants, position by position. |
| `Cursors.CursorsAgree` | pkg/exchange/engine_core.go:1021-1025 | From the seeded cursors, startup <= localDispatched <= localSeen <= log length in every reachable state, with equality of the cursors whenever localMu is free. |
| `Cursors.RunOnlyGrows` | pkg/exchange/engine_core.go:1388-1394 | Over any run the log and both cursors only grow and a claimed position never changes claimant; a stale snapshot cannot regress a cursor. |
| `Cursors.ClaimsTile` | pkg/exchange/engine_core.go:1376-1394 | The claimed gaps tile the range from the startup cursor to localDispatched, each position with one claimant, and no two goroutines hold the same position. |
| `Cursors.PendingAfter` | pkg/exchange/engine_core.go:1388-1394 | A step adds to a goroutine's pending positions exactly the gap it claims and removes exactly the position it dispatches. |
| `Cursors.OwnersAfter` | pkg/exchange/engine_core.go:1388-1394 | The set of claimed positions moves with the dispatch cursor, each new position going to the goroutine whose step moved it. |
| `Cursors.DeliveryAfter` | pkg/exchange/engine_core.go:1363-1374 | A step dispatches at most the next position of the goroutine taking it, and never a record whose sender is the operator. |
| `Cursors.ExactlyOnce` | pkg/exchange/engine_core.go:1308-1394 | In every reachable state a position has been dispatched at most once, and once if and only if it lies in the swept range, was not sent by the operator (or there is no operator key), and no claim on it is pending. |
| `Cursors.WhoIsDispatched` | pkg/exchange/engine_core.go:1363-1374 | In every reachable state a swept position whose record was sent by the operator (with a key) has been dispatched no time, any other with no pending claim exactly once, and with no operator key every such position once. |
| `Cursors.NoLostFold` | pkg/exchange/engine_core.go:1316-1339 | Every position below localSeen is in State, or in the poll goroutine's claimed-but-unapplied interval, or still to be folded by the holder of localMu, although a rebuild resets State. |
| `Cursors.FoldBeforeDispatch` | pkg/exchange/engine_core.go:1331-1343 | On the poll, rebuild and ingest paths alike a record was folded before its own dispatch; it can be out of State then only while a rebuild is mid-replay. |
| `Cursors.QuiescentPollEqualsColdReplay` | pkg/exchange/engine_core.go:1421-1442 | Once the poll loop has folded the whole log and nobody holds the lock, State's folded set is that of a cold replay. |
| `Cursors.PollIsARun` | pkg/exchange/engine_core.go:1316-1344 | Left alone from any state, a poll folds exactly what localSeen had not reached, dispatches exactly what localDispatched had not reached other than the operator's own, and leaves both cursors at the end of the log. |
| `Cursors.RebuildIsARun` | pkg/exchange/engine_core.go:1421-1451 | Left alone, a rebuild folds State again from nothing if its snapshot is past localSeen and leaves it alone otherwise, and dispatches the same gap. |
| `Cursors.IngestIsARun` | pkg/exchange/engine_core.go:872-915 | Left alone, an ingest appends its record, folds up to it, and dispatches up to it. |
| `Cursors.AppendsMoveNoCursor` | pkg/exchange/engine_core.go:1682-1726 | Appends of either kind move no cursor and fold nothing, an emitter's own application folds its one position, and only the operator's append waits for the lock. |
| `Cursors.SweepExactly` | pkg/exchange/engine_core.go:1363-1374 | A sweep hands over exactly the records of its range not sent by the operator, after whatever was handed over before. |
| `Cursors.SweepInOrder` | pkg/exchange/engine_core.go:1363-1374 | A sweep hands its records over in log order, each once. |
| `Cursors.Engine.constructor` | pkg/exchange/engine_core.go:1021-1025 | The state Start leaves: both cursors at the replayed length, that prefix folded, nothing dispatched. |
| `Cursors.Engine.Snapshot` | pkg/exchange/engine_core.go:1421-1426 | A snapshot captured outside localMu is the whole log of that moment, held until its goroutine uses it. |
| `Cursors.Engine.BatchAppend` | pkg/relay/intake.go:151-163 | A relay append extends the log under the store mutex and touches neither cursor nor State. |
| `Cursors.Engine.AppendLocalRecord` | pkg/exchange/engine_core.go:1689-1726 | An operator append extends the log if the store accepts it and touches no cursor. |
| `Cursors.Engine.ApplyOwn` | pkg/exchange/engine_core.go:1682-1688 | An emitter's early application adds its own position to State and nothing else. |
| `Cursors.Engine.ClaimDispatchGap` | pkg/exchange/engine_core.go:1388-1394 | The claim returns the old cursor and leaves the larger of it and the snapshot length. |
| `Cursors.Engine.DispatchLocalGap` | pkg/exchange/engine_core.go:1363-1374 | The loop hands over, after what was handed over before and in log order, exactly the positions of its gap whose sender is not the operator, and ends its goroutine's claim. |
| `Cursors.Engine.ClaimForPoll` | pkg/exchange/engine_core.go:1316-1331 | One hold of localMu claims the fold gap and the dispatch gap of the same snapshot, monotonically. |
| `Cursors.Engine.ApplyGap` | pkg/exchange/engine_core.go:1337-1339 | The poll's fold outside the lock adds exactly the claimed fold gap to State. |
| `Cursors.Engine.FoldAndDispatchLocalSnapshot` | pkg/exchange/engine_core.go:1316-1344 | The whole poll pass over a possibly stale snapshot: new cursors, new State, what was dispatched, and every other goroutine's claim untouched. |
| `Cursors.Engine.ReplayState` | pkg/exchange/state_core.go:106-135 | The windowed replay resets State with its first window and ends with exactly the snapshot's prefix. |
| `Cursors.Engine.RebuildUnderLock` | pkg/exchange/engine_core.go:1428-1443 | Under one hold, State and the fold cursor advance together and only when the snapshot is longer than localSeen; the dispatch gap is claimed either way. |
| `Cursors.Engine.RebuildAndDispatchGapLocal` | pkg/exchange/engine_core.go:1421-1451 | The whole rebuild over a possibly stale snapshot: cursors, State, dispatches, and other claims untouched. |
| `Cursors.Engine.IngestGap` | pkg/exchange/engine_core.go:899-901 | The ingest's fold under the lock adds exactly the gap up to its snapshot. |
| `Cursors.Engine.IngestLocalRecord` | pkg/exchange/engine_core.go:872-915 | An ingest appends, folds and dispatches under the store's two possible failures; a failed replay leaves the record in the log below no cursor. |
| `Versioning.ParseComponent` | pkg/convention/versioning.go:268-286 | The digit loop accepts a component exactly when it is a numeral whose value fits the int, and returns that value: the overflow guard is exact. |
| `Versioning.ParseSemver` | pkg/convention/versioning.go:261-288 | The parse accepts one to three dotted components and returns the version they denote, missing ones as zero. |
| `Versioning.FormatThenParse` | pkg/convention/versioning.go:261-288 | Formatting any version whose parts fit an int and parsing it gives the version back. |
| `Versioning.ShortFormsParse` | pkg/convention/versioning.go:258-288 | One and two components parse to the version with zeros for what is left out, again exactly when they fit an int. |
| `Versioning.ParsesExactly` | pkg/convention/versioning.go:261-288 | The strings that parse are exactly one to three numerals joined by dots, each fitting an int. |
| `Versioning.Diff` | pkg/convention/versioning.go:76-181 | The diff fails exactly on an unparseable payload; otherwise its breaking changes, additions and deprecations are exactly those the two declarations call for, and its kind is the bump they require. |
| `Versioning.CompatibleKeepsCallsAndPresence` | pkg/convention/versioning.go:120-170 | A step has none of the listed breaking changes if and only if every call right for the old declaration is right for the new one, every arg a reader could rely on in all right calls still is, and no entry is contradicted by a later one of its name. |
| `Versioning.CallsBreakExactly` | pkg/convention/versioning.go:92-170 | When entries of one name agree, some call goes wrong if and only if a listed break other than required-to-optional applies: that one breaks no caller, only what readers could rely on. |
| `Versioning.KindIsRequiredBump` | pkg/convention/versioning.go:186-197 | The kind read off the lists is the bump the declarations require. |
| `Versioning.VersionAlone` | pkg/convention/versioning.go:186-197 | A declaration changed in its version alone is a patch, or no change if the version is the same, unless two of its own entries of one name contradict each other, which counts as breaking. |
| `Versioning.AcceptedExactlyWhenBumped` | pkg/convention/versioning.go:206-256 | A bump is accepted if and only if both versions parse, the new one is not lexicographically behind, and it is ahead in major after a break and in major or minor after an addition. |
| `Versioning.CheckBump` | pkg/convention/versioning.go:76-256 | From two declarations, the checker as a whole accepts exactly the steps so bumped. |
| `Versioning.CompatibleIsTransitive` | pkg/convention/versioning.go:92-170 | The non-breaking relation is transitive into a declaration that hides no required entry, or from a step with no addition. |
| `Versioning.AdditionsCompose` | pkg/convention/versioning.go:140-170 | An addition over two compatible steps is an addition of one of them. |
| `Versioning.UniqueNamesShadowNothing` | pkg/convention/versioning.go:108-118 | Distinct arg names suffice for a declaration to hide no required entry. |
| `Versioning.LastEntryWins` | pkg/convention/versioning.go:108-118 | Of several entries of one name the last is the one indexed. |
| `Versioning.AcceptedBumpsCompose` | pkg/convention/versioning.go:206-256 | If a to b and b to c are accepted then so is a to c, for every c that hides no required entry behind a later optional one of its name, does not parse, or has minor version 0. |
| `Versioning.NotComposable` | pkg/convention/versioning.go:108-170 | For every other c there are accepted steps a to b and b to c whose composition is refused, so the condition on c is exact. |
| `Credit.WithheldIsHalfExactlyWhenCharged` | pkg/exchange/engine_credit.go:160-176 | For every int64 credit and every debt, what is withheld is half the credit, rounded down, up to the debt, if and only if fifty times the credit fits an int64 or the wrapped product still reaches the debt; overflow never withholds more. |
| `Credit.NothingWithheldAtMax` | pkg/exchange/engine_credit.go:168-168 | At any debt, however small, the largest credit withholds nothing. |
| `Credit.NothingWithheldOfNothing` | pkg/exchange/engine_credit.go:160-166 | Nothing is withheld from no credit, or for no debt. |
| `Credit.LargestPayRetiresNothing` | pkg/exchange/engine_credit.go:160-238 | A concrete run: a buyer runs up any debt within the cap by a purchase, and the largest pay leaves all of it in place. |
| `Credit.MessageMovesItsAmount` | pkg/scrip/relay_store.go:223-265 | A message that names somebody and a positive amount goes through exactly when its loan is still active and, live, its debtor covers it to the last unit; it then moves its amount from debtor to creditor, and supply with it for mints, loans and repayments; otherwise it changes nothing. |
| `Credit.MintGoesThrough` | pkg/exchange/engine_mint.go:35-74 | A mint without recipient or positive amount changes nothing; any other is one message and reaches the recipient's balance and the supply at once. |
| `Credit.MalformedFoldsToNothing` | pkg/scrip/relay_store.go:223-265 | A message that names nobody or no positive amount folds to nothing, live and replayed alike. |
| `Credit.LiveFoldNeverOverdraws` | pkg/scrip/relay_store.go:223-265 | No message folded live overdraws anybody. |
| `Credit.PassPlaces` | pkg/exchange/engine_credit.go:194-238 | A repayment pass, whichever emits fail, takes the same amount off the balance, the debt and the supply; it places less than it was given only when every loan it could reach is settled. |
| `Credit.PassAppliesInFull` | pkg/exchange/engine_credit.go:194-238 | With no failed emit, an amount within the debt is applied in full. |
| `Credit.PassRetiresOldestFirst` | pkg/exchange/engine_credit.go:182-238 | Loans retire oldest first: all before some loan are settled, all after it untouched, so at most one is left partly repaid. |
| `Credit.FoldKeepsOnLoan` | pkg/scrip/relay_store.go:744-809 | Any message, live or replayed, repayments past the debt included, keeps the store's total of principal on loan equal to the sum of the principals of the active loans. |
| `Credit.LabourPayment` | pkg/exchange/engine_core.go:1807-1862 | One labour payment nets pay minus withheld on the worker's balance, which stays non-negative, and lowers debt and supply by what was withheld. |
| `Credit.DebtAfterCredits` | pkg/exchange/engine_credit.go:138-238 | After each of the int64 credits g1 to gn the debt is max(0, initial - sum of floor(gi*50/100)), however it was split into loans, if and only if every credit is charged in full at the debt that formula gives it. |
| `Credit.LabourIsUncountedUntilRestart` | pkg/exchange/engine_core.go:1807-1826 | Supply equals the sum of live balances only if no labour was paid since the last replay: a concrete payment shows the gap, and the restart that closes it by overdrawing the operator. |
| `Credit.CreditMeetsTheHold` | pkg/exchange/engine_credit.go:259-348 | For every int64 hold, a credit is minted exactly when it is eligible, needed, and the debt it leaves is within the cap or past an int64, and leaves the balance at the hold and the debt raised by the shortfall; every refusal changes nothing. |
| `Credit.HoldIsDurableFirst` | pkg/exchange/engine_settle.go:824-904 | A positive hold the balance does not cover leaves no trace; one it covers is durable, and debited unless the balance was written meanwhile. |
| `Credit.CapIsTestedExactlyWhenItFits` | pkg/exchange/engine_credit.go:300-306 | The code tests the cap if and only if the debt the credit would leave fits an int64. |
| `Credit.LargestHoldPassesTheCap` | pkg/exchange/engine_credit.go:300-306 | A buyer in debt whose hold is the largest integer is lent all of it. |
| `Credit.Exchange.ApplyMessage` | pkg/scrip/relay_store.go:223-265 | The store's fold of one message, live or replaying, in place. |
| `Credit.Exchange.ApplyLoanRepay` | pkg/scrip/relay_store.go:744-809 | The debit comes first and drops the whole message when it fails; then the loan, the supply and, on the last instalment, the loan principal. |
| `Credit.Exchange.Restart` | pkg/scrip/relay_store.go:166-203 | The rebuild loop gives the ledger of the whole log. |
| `Credit.Exchange.BorrowerOutstandingPrincipal` | pkg/exchange/engine_credit.go:138-151 | The loop's total is the unpaid principal of the borrower's active loans. |
| `Credit.Exchange.RepaymentAmount` | pkg/exchange/engine_credit.go:160-176 | The int64 computation with its two caps and its early returns. |
| `Credit.Exchange.ApplyRepayment` | pkg/exchange/engine_credit.go:194-238 | The loan-by-loan loop leaves the state its recursive specification does. |
| `Credit.Exchange.EnsureCreditForShortfall` | pkg/exchange/engine_credit.go:259-348 | Outcome and new state of the credit decision, difference and sum in 64 bits. |
| `Credit.Exchange.DecAndSaveHold` | pkg/exchange/engine_settle.go:824-904 | A hold is refused for want of balance, or durable; then it is debited unless the balance was written meanwhile. |
| `Credit.Exchange.MintScrip` | pkg/exchange/engine_mint.go:35-74 | A mint with a recipient and a positive amount appends and folds one message; any other changes nothing. |
| `Credit.Exchange.PayLabour` | pkg/exchange/engine_core.go:1793-1865 | Full bounty to the balance and an unfolded message to the log, then the repayment pass. |
| `CreditRuns.StepAgreesExactlyWhenCovered` | pkg/scrip/relay_store.go:744-809 | Of all steps of buyer-accepts, mints, pays and restarts, in whatever order goroutines take them, exactly a repayment for more than the worker has left parts the live ledger from a replay of its log. |
| `CreditRuns.PrincipalOnLoanIsExact` | pkg/scrip/relay_store.go:744-809 | In every run, overlapping or not, the total of principal on loan is the sum of the principals of the active loans, live and as a restart would rebuild it. |
| `CreditRuns.EmitsMayFail` | pkg/exchange/engine_credit.go:338-341 | A failed emit leaves the books alone: a credit's lets the hold be tried without it, a hold's ends the buyer-accept. |
| `CreditRuns.MintsAndRestarts` | pkg/exchange/engine_mint.go:35-74 | A mint waits for a pay under way and for no buyer-accept; a restart waits for nothing and forgets every goroutine. |
| `CreditRuns.RunConserves` | pkg/scrip/relay_store.go:166-203 | Over every interleaving in which repayments are covered: what a replay gives out and holds back is the supply, and the live balances exceed it by exactly the labour logged since the last restart and what the log has not been given yet. |
| `CreditRuns.OneAtATimeConserves` | pkg/exchange/engine_core.go:1308-1374 | Where operations on different keys interleave freely and those on one key do not overlap, for positive holds whose cap sum fits: every repayment is covered, no debt passes 300000, the operator owes nothing, no member is overdrawn live or by a restart at any point, and an idle key owes the log nothing. |
| `CreditRuns.AloneRunIsOrderly` | pkg/exchange/engine_core.go:1308-1374 | In such runs every operation finds the balance, debt and version it read, at each of its steps. |
| `CreditRuns.LendKeepsCapExactly` | pkg/exchange/engine_credit.go:292-334 | A mint keeps the cap if and only if the shortfall decided on earlier still fits beside the debt there is at the mint. |
| `CreditRuns.OverlappingCreditsPassTheCap` | pkg/exchange/engine_credit.go:259-334 | Two buyer-accepts of one buyer that both read before either mints leave a debt of 400000. |
| `CreditRuns.StepKeepsSolventExactly` | pkg/exchange/engine_settle.go:854-882 | A step keeps a member from being overdrawn by a restart if and only if what the log draws is at most what a restart would leave. |
| `CreditRuns.OverlappingHoldsOverdraw` | pkg/exchange/engine_settle.go:828-882 | Two holds of 80 that both read a balance of 100 are both durable and one is debited: 20 live, and 60 overdrawn after a restart. |
| `CreditRuns.HoldDuringPayDropsRepayment` | pkg/exchange/engine_core.go:1807-1862 | A worker that buys between its pay and the repayment leaves a repayment in the log that the live ledger drops. |
| `CreditRuns.AcceptIsARun` | pkg/exchange/engine_settle.go:610-640 | Left alone, the steps of a buyer-accept are the credit its books call for and then the hold. |
| `CreditRuns.PayIsARun` | pkg/exchange/engine_core.go:1793-1865 | Left alone, the steps of a pay are the payment of labour with its repayment pass. |
| `Membership.MutationKeepsDisjoint` | cmd/dontguess/allowlist.go:177-201 | An add or a remove keeps fleet and tombstones disjoint by normalized key, whatever form their entries are stored in. |
| `Membership.AddTakesEffect` | cmd/dontguess/allowlist.go:177-201 | An add of a key keeps every fleet entry and lists the key once, drops that key's tombstones in either spelling and no other, and leaves the edges alone. |
| `Membership.RemoveTakesEffect` | cmd/dontguess/allowlist.go:177-201 | A remove drops the key's entries in either spelling and no other, keeps every tombstone and adds the key's, and leaves the edges alone; text that decodes to no key is matched as it stands. |
| `Membership.RevocationEndsExactlyWithReadmission` | cmd/dontguess/allowlist.go:177-201 | A tombstone is gone after an operation, wherever its writes are cut off, if and only if the operation got as far as adding or redeeming that very key. |
| `Membership.ListingEndsExactlyWithRemoval` | cmd/dontguess/allowlist_hotreload.go:155-191 | A fleet entry is gone after an operation if and only if the operation got as far as removing that key, as its target or as a child of it. |
| `Membership.RevokedUntilReadmitted` | cmd/dontguess/allowlist.go:177-201 | Over every run, a key once revoked stays revoked and off the list as long as no operation is an add or a redeem of that very key. |
| `Membership.EachWriteOfARemove` | cmd/dontguess/allowlist_hotreload.go:155-191 | Write by write a remove takes out the target, then its children in order, then all their edges at once, then its own. |
| `Membership.EachWriteOfARedeem` | cmd/dontguess/serve_redeem.go:136-161 | Write by write a redeem is the promotion and then, for a parent, the edge. |
| `Membership.RunKeepsInv` | cmd/dontguess/allowlist_hotreload.go:131-191 | Over every run of adds, removes and redeems that do not overlap, each cut off after any number of config writes, no key is both admitted and revoked and the grant graph has no cycle. |
| `Membership.NewEdgeStaysAcyclic` | cmd/dontguess/child_grants.go:41-67 | An edge to a key that is nobody's child when it is written closes no cycle. |
| `Membership.OnlyParentsLeaveEdges` | cmd/dontguess/child_grants.go:41-67 | A redeem nothing interrupts admits only through the operator or an allowlisted key that is nobody's child; only the latter leaves an edge, never for itself; and an admitted member ends up on the list. |
| `Membership.RemoveClears` | cmd/dontguess/allowlist_hotreload.go:160-191 | A finished remove of p leaves no fleet entry for p or a direct child in either spelling, tombstones all of them, drops every edge naming p, and changes nothing else. |
| `Membership.FinishedRunKeepsChildrenLive` | cmd/dontguess/child_grants.go:107-169 | When operations do not overlap and no write fails, every recorded child stays on the fleet list. |
| `Membership.GrandchildStays` | cmd/dontguess/allowlist_hotreload.go:160-180 | A key admitted by a child of p keeps its fleet entry when p is removed. |
| `Membership.GrandchildIsReached` | cmd/dontguess/child_grants.go:41-67 | A concrete run the issuer gate allows: a key admits a member, is then admitted as a child itself, and its parent is removed; parent and child are revoked and the member stays listed. |
| `Membership.CascadeReachesAllExactlyWhenShallow` | cmd/dontguess/allowlist_hotreload.go:160-180 | The cascade removes every descendant of p if and only if no child of p has children. |
| `Membership.RedeemStaysFlatExactlyForNonParents` | cmd/dontguess/child_grants.go:57-66 | A parent-issued redeem keeps the graph at depth one if and only if the admitted key is nobody's parent yet. |
| `Membership.DropHexEntry` | cmd/dontguess/allowlist.go:214-227 | The loop keeps, in order, exactly the entries that do not match the target by key or by text. |
| `Membership.ConfigFile.MutateAllowlistConfig` | cmd/dontguess/allowlist.go:177-201 | An add lists the key and clears exactly its own tombstones; a remove drops exactly its own entries and tombstones it; the result says whether fleet membership changed. |
| `Membership.ConfigFile.ChildrenOf` | cmd/dontguess/child_grants.go:131-143 | Exactly the keys whose edge names the parent, in some order. |
| `Membership.ConfigFile.ForgetChildGrants` | cmd/dontguess/child_grants.go:147-169 | Exactly the named edges go. |
| `Membership.ConfigFile.RecordChildGrant` | cmd/dontguess/child_grants.go:107-128 | The edge is written unless a key is empty or both are the same. |
| `Membership.ConfigFile.IssuerRole` | cmd/dontguess/child_grants.go:41-67 | The operator wins outright, a child is refused, an allowlisted key is a parent, all else is refused. |
| `Membership.ConfigFile.ApplyAdd` | cmd/dontguess/allowlist_hotreload.go:369-395 | An unusable key is never written; otherwise one write adds it and clears its tombstone. |
| `Membership.ConfigFile.ApplyRemove` | cmd/dontguess/allowlist_hotreload.go:155-191 | The writes of a remove in their order, and exactly the prefix of them that succeeded. |
| `Membership.ConfigFile.ApplyRedeem` | cmd/dontguess/serve_redeem.go:136-161 | For the role the gate found at whatever time before: promotion and then the parent edge, with either write able to fail. |
| `Admission.RunKeepsDisjoint` | cmd/dontguess/serve_redeem.go:101-177 | Over every interleaving of gated legs, the redeem in the handler's lock, adds and removes in the controller's, loads, stale writes and crashes, no key is both admitted and revoked, on disk or in what is about to be written. |
| `Admission.LocksAreExclusive` | cmd/dontguess/serve_redeem.go:101-161 | While an operation has the controller's lock no other begins under it, while a redeem has the handler's no leg enters, and a redeem waits for its own promotion. |
| `Admission.UnusableIsRefused` | cmd/dontguess/allowlist_hotreload.go:369-395 | A key that could not be used is refused before any write, alone or in a redeem. |
| `Admission.PromotionDecides` | cmd/dontguess/serve_redeem.go:136-161 | Only a promotion that went through lets a parent's redeem go on to its edge; a failed one ends the redeem. |
| `Admission.EnterTakesThePass` | cmd/dontguess/serve_redeem.go:121-122 | A leg that enters hands over its pass for good; a redeem can be given up unless its promotion is under way. |
| `Admission.AddIsARun` | cmd/dontguess/allowlist_hotreload.go:131-153 | Left alone, an add is one load and one write, and no redeem in the handler notices. |
| `Admission.EdgeKeepsAcyclicExactly` | cmd/dontguess/child_grants.go:107-128 | An edge closes a cycle if and only if its parent already descends from its child. |
| `Admission.StepKeepsAcyclicExactly` | cmd/dontguess/child_grants.go:107-128 | Of all steps of that machine, exactly the write of an edge whose parent descends from its child, in what was loaded, leaves a cycle. |
| `Admission.RunIsAcyclicExactly` | cmd/dontguess/child_grants.go:107-128 | A run is free of cycles throughout if and only if every edge it writes is harmless in that sense. |
| `Admission.GateRepeatedIsHarmless` | cmd/dontguess/child_grants.go:57-66 | The gate's own test, repeated on the configuration the edge is written over, suffices. |
| `Admission.UndisturbedRunIsAcyclic` | cmd/dontguess/serve_redeem.go:101-161 | If no key becomes a child while a redeem it issued is under way, no key ever descends from itself. |
| `Admission.OverlappingRedeemsCloseACycle` | cmd/dontguess/serve_redeem.go:114-161 | Two legs past the gate for p admitting x and x admitting p, writing in turn, make each the other's parent. |
| `Admission.EdgesComeThroughTheGate` | cmd/dontguess/serve_redeem.go:114-161 | Over every run, an edge that was not there at the start was let through by the gate for a parent at some earlier moment, and never joins a key to itself. |
| `Admission.PassesWereParents` | cmd/dontguess/child_grants.go:41-67 | A parent let through was at that moment listed, nobody's child, and not the operator. |
| `Admission.EdgeKeepsChildrenListedExactly` | cmd/dontguess/child_grants.go:107-128 | Recording an edge keeps every child listed if and only if the member is listed in what was loaded. |
| `Admission.RemoveBeforeTheEdgeIsMissed` | cmd/dontguess/serve_redeem.go:136-161 | A remove of the parent between promotion and edge misses the member; a remove of the member leaves a child that is not listed. |
| `Admission.StaleEdgeUndoesARemove` | cmd/dontguess/child_grants.go:116-126 | A remove between the load and the write of the edge is undone: the key is listed again and not revoked. |
| `Admission.RedeemIsARun` | cmd/dontguess/serve_redeem.go:101-161 | Left alone from the gate on, a parent's redeem is the promotion and then the edge. |
| `Admission.RemoveIsARun` | cmd/dontguess/allowlist_hotreload.go:155-191 | Left alone, the loads and writes of a remove are its whole cascade. |
| `FleetRoster.AppliedNeverGoesBack` | cmd/dontguess/serve_relay.go:478-506 | Over every run of genuine and forged deliveries, failed persists, crashes anywhere and restarts, every roster applied is one the operator signed, applied created_at values never decrease, and the durable floor is never below them. |
| `FleetRoster.ForgeriesChangeNothing` | cmd/dontguess/serve_relay.go:466-473 | A run with forged rosters, whatever they name and however new, is the run without them. |
| `FleetRoster.DeliveryTakesAllOrNothing` | cmd/dontguess/serve_relay.go:466-507 | A delivery leaves the gate as it was if forged, older, or newer with a floor that cannot be persisted; otherwise floor, memory and live set become the roster's own. |
| `FleetRoster.OlderRostersStayOut` | cmd/dontguess/serve_relay.go:474-484 | Once a roster was applied an older one is refused for good, also after a restart. |
| `FleetRoster.FlooredRosterAppliesAfterCrash` | cmd/dontguess/serve_relay.go:484-506 | A roster whose floor was persisted but not applied before a crash is applied by the next delivery. |
| `FleetRoster.DeliveryIsItsSteps` | cmd/dontguess/serve_relay.go:466-507 | One call of the fold is its persist step and its apply step with nothing in between. |
| `FleetRoster.Converges` | cmd/dontguess/allowlist_hotreload.go:131-253 | Over any interleaving of controller sub-steps with folds of any published roster, writes of the configuration by others, crashes and restarts: when the newest roster has been applied since the live set was last touched, and none ties it, the live set is that roster, and equals the configured membership if and only if the configuration still says what was last published, as it does unless a committed change went unpublished. |
| `FleetRoster.ConvergedIsReached` | cmd/dontguess/allowlist_hotreload.go:263-286 | A roster published from the configuration on start and delivered reaches such a state. |
| `FleetRoster.RestartSettlesExactlyWhenNotBehind` | cmd/dontguess/allowlist_hotreload.go:263-286 | From any state a restart that prunes, publishes and is delivered its roster has the configured members live, and is settled if and only if its clock is not behind the floor. |
| `FleetRoster.PruningKeepsMembership` | cmd/dontguess/allowlist_hotreload.go:321-356 | Pruning unusable entries makes the list loadable and changes nobody's membership, no tombstone and no edge. |
| `FleetRoster.AbandonedChangeIsUndone` | cmd/dontguess/allowlist_hotreload.go:164-191 | A change that is committed and made live but not published brings the live set in step with the configuration, and the next delivery takes it out of the live set again: a removed key is live again, an added one shut out. |
| `FleetRoster.NewestSettlesExactlyWhenNotBehind` | cmd/dontguess/serve_relay.go:474-506 | One delivery of the newest roster settles the live set if and only if it is not behind the floor. |
| `FleetRoster.PublishedIsNewestExactlyWhenAhead` | cmd/dontguess/allowlist_hotreload.go:293-310 | A published roster is the single newest one if and only if the clock, or the last roster of this process, is past all others. |
| `FleetRoster.AheadUntilRestart` | cmd/dontguess/allowlist_hotreload.go:288-310 | Once a process has published the single newest roster, no clock makes a later one tie until a restart. |
| `FleetRoster.StaysConvergedExactlyWithoutATie` | cmd/dontguess/serve_relay.go:474-506 | From a converged state redeliveries are harmless if and only if no roster of equal created_at says something else. |
| `FleetRoster.TieIsReached` | cmd/dontguess/allowlist_hotreload.go:293-310 | An addition published, a restart and its removal published within one second give two rosters of one created_at that differ. |
| `FleetRoster.AddIsARun` | cmd/dontguess/allowlist_hotreload.go:131-253 | An uninterrupted add is a run of the machine's steps: the change committed, the live set touched, the committed membership published. |
| `FleetRoster.RemoveIsARun` | cmd/dontguess/allowlist_hotreload.go:131-253 | So is an uninterrupted cascading remove, with every write and every live removal in order. |
| `FleetRoster.KeySet.ReplaceAll` | pkg/exchange/trust.go:294-306 | The loop leaves exactly the non-blank keys listed, whatever their order and repeats, and nothing of the prior membership. |
| `FleetRoster.RosterFolder.Open` | cmd/dontguess/serve_relay.go:439-452 | A missing floor reads as 0, a value as itself, and a corrupt or negative one refuses to start. |
| `FleetRoster.RosterFolder.Fold` | cmd/dontguess/serve_relay.go:466-507 | Forged, stale and unpersisted rosters change nothing; any other leaves exactly its non-blank members live, with its created_at on disk and in memory; the result says whether the reader's cursor may move. |
| `FleetRoster.OneMoreEntry` | pkg/identity/allowlist.go:45-57 | One more entry on a list: a blank is skipped, an npub or a hex key on the curve joins the membership, and anything else makes the list unusable. |
| `FleetRoster.WhatIsPossible` | cmd/dontguess/allowlist_hotreload.go:131-253 | In mid-change the controller publishes exactly when every entry is usable and begins nothing new; a restart or a write of the configuration by others can come at any moment. |
| `FleetRoster.NewAllowlist` | pkg/identity/allowlist.go:45-57 | The whole normalized membership, or nothing if one non-blank entry is unusable. |
| `FleetRoster.AllowlistController.BuildRoster` | cmd/dontguess/allowlist_hotreload.go:293-310 | created_at is the clock when that is past the last roster, and one past the last roster otherwise. |
| `FleetRoster.AllowlistController.PublishConfig` | cmd/dontguess/allowlist_hotreload.go:232-252 | A roster is published if and only if every entry is usable, and says the committed membership. |
| `FleetRoster.AllowlistController.ApplyAdd` | cmd/dontguess/allowlist_hotreload.go:131-253 | Nothing live moves unless the change is durable; the roster is built from what was committed, not from the live set. |
| `FleetRoster.AllowlistController.ApplyRemove` | cmd/dontguess/allowlist_hotreload.go:131-253 | The same for a remove, with the children gone from the live set as well. |
| `Redeem.AppendThenLoad` | cmd/dontguess/serve_redeem_store.go:45-101 | Reading back after an append gives the old ids and the new one; the new one is among them if and only if it is one line. |
| `Redeem.LoadAfterAppend` | cmd/dontguess/serve_redeem_store.go:83-101 | What is read back after any append is the old ids and the appended text's own lines. |
| `Redeem.SingleUse` | cmd/dontguess/serve_redeem.go:101-177 | Over every run of deliveries, replays, failed writes that landed or not, crashes between any two sub-steps and restarts, a grant promotes at most once and mints at most once; a mint implies its member was promoted and its grant is in the durable file; grants already in the file get nothing. |
| `Redeem.EffectsComeFromAuthenticRedeems` | cmd/dontguess/serve_redeem.go:114-118 | Over every run, forged deliveries included, each promotion is of the grant and the member of an earlier authentic delivery, and each mint of one whose invite carries scrip. |
| `Redeem.EventTakesEffect` | cmd/dontguess/serve_redeem.go:101-177 | Effect by effect for every way its writes can end: only an authentic redeem of an unseen grant writes the file, only a durable write lets the promotion be tried, and only a promotion that succeeded lets the mint be tried. |
| `Redeem.UnderWayUntilDone` | cmd/dontguess/serve_redeem.go:121-122 | A redeem under way is not displaced by another delivery; it is finished, failed or crashed. |
| `Redeem.CrashAfterStoreUnderGrants` | cmd/dontguess/serve_redeem.go:129-151 | A crash right after the persist consumes the grant: no later run promotes or funds it. |
| `Redeem.SingleUseNeedsOneLine` | cmd/dontguess/serve_redeem_store.go:49-57 | A redeem replayed after a restart is funded once if and only if its grant id holds no newline, and twice otherwise. |
| `Redeem.ScanLines` | cmd/dontguess/serve_redeem_store.go:49-57 | The scan yields exactly the lines of the file. |
| `Redeem.RedeemedStore.constructor` | cmd/dontguess/serve_redeem_store.go:45-68 | Opening loads exactly the trimmed non-empty lines. |
| `Redeem.RedeemedStore.Record` | cmd/dontguess/serve_redeem_store.go:83-101 | Append and sync before remembering; a failure may have landed on disk but is not remembered; an empty id is refused and a known one is a no-op. |
| `Redeem.RedeemHandler.Handle` | cmd/dontguess/serve_redeem.go:101-177 | One event goes through store, promotion, edge and mint in that order, each able to fail, and advances the cursor exactly when authentic; a forged one leaves the store, the promotions and the mints as they were. |
| `RelaySeed.NothingTwice` | cmd/dontguess/serve_relay.go:813-851 | Over every run of publishes, retries, redeliveries, evictions, failed persists and restarts on one leg, no relay event id is in the log twice and no event the operator published is ingested. |
| `RelaySeed.RestartKeepsDedup` | cmd/dontguess/serve_relay.go:813-840 | The seen set rebuilt from the log alone covers every id already in the log and every id the operator ever published. |
| `RelaySeed.EventIsIngested` | pkg/relay/intake.go:117-163 | An event the relay serves that was not seen since the start is in the log exactly once after one delivery, whatever else waits or is evicted. |
| `RelaySeed.EvictedComesBack` | pkg/relay/intake.go:117-137 | What a full buffer evicts is taken in again by the next delivery. |
| `RelaySeed.FailedPersistIsMissed` | pkg/relay/intake.go:146-163 | Events of a batch whose persist failed without landing count as seen: however often they are delivered again, none is logged before a restart. |
| `RelaySeed.RestartTakesMissed` | cmd/dontguess/serve_relay.go:813-840 | A restart forgets that they were seen, and the next delivery takes them in. |
| `RelaySeed.RecordIsPublished` | pkg/relay/outbox.go:380-440 | A record that may leave is known by its wire id and mapped before it is on the relay, then published and counted; one that fails is tried again; a fenced one is counted and never published; one that cannot be signed stays. |
| `RelaySeed.ArrivalsAndAppends` | pkg/exchange/engine_core.go:1689-1726 | What others publish is there to be delivered, and an operator record appended behind a caught-up outbox is the next it publishes. |
| `RelaySeed.MarkKeepsAlias` | pkg/relay/outbox.go:401-414 | A record registered strictly before its publish is the first under its wire id in the live map and in the log. |
| `RelaySeed.SeedAliasIsFirst` | cmd/dontguess/serve_relay.go:846-849 | In the rebuilt map the first record to name a wire id decides it. |
| `RelaySeed.RebuiltAliasAgrees` | cmd/dontguess/serve_relay.go:813-851 | A restart at any point rebuilds a map that agrees with the live first-wins map on every wire id the live map held; it adds only ids of records not yet published or fenced. |
| `RelaySeed.State.RegisterWireAlias` | pkg/exchange/state_wire_alias.go:30-44 | A wire id that is already mapped keeps its first store id; an identity mapping is not recorded. |
| `RelaySeed.PublishedResolvesForGood` | pkg/exchange/state_wire_alias.go:30-61 | At every point of every run an operator event on the relay resolves to the store id of a logged record that hashes to it, an id that is not the operator's resolves to itself, and no later step, restarts included, makes a mapped id resolve to another record. |
| `RelaySeed.SeedEmittedFromStore` | cmd/dontguess/serve_relay.go:813-851 | One pass over the log yields both the seen set and the alias map. |
| `AutoAccept.VerdictIsAllGates` | pkg/exchange/assign_autoaccept.go:178-259 | The cascade of early returns accepts a completion if and only if it passes every gate at once, on bytes the operator holds. |
| `AutoAccept.MarksCommute` | pkg/exchange/state_assign.go:374-390 | A message folds alike over the live board, which remembers payments, and over the replayed one, which does not. |
| `AutoAccept.ReplayIsSound` | pkg/exchange/state_assign.go:116-486 | In every log of distinct messages, however redelivered, the claim and completion indexes lead back to their assigns, reserved work and its bids are its own worker's, every bid is positive and within ten times a positive reward, and a closed auction is held by its lowest bidder at the second-lowest bid. |
| `AutoAccept.PostOpens` | pkg/exchange/state_assign.go:38-98 | A posted assign is open, unworked and on the terms of its message; posting its id again changes nothing. |
| `AutoAccept.BidCounts` | pkg/exchange/state_assign.go:158-197 | A bid on an open auctioned assign by a permitted worker counts exactly when it is in time, positive and within ten times a positive reward. |
| `AutoAccept.LiveBoardIsSound` | pkg/exchange/state_assign.go:116-486 | Over every run the live board's claim and completion indexes lead to their assigns and back, payments included. |
| `AutoAccept.StatusMovesExactly` | pkg/exchange/state_assign.go:116-486 | On a sound board, in the terms of an assign's own record: which messages from whom move it from open, claimed or completed to which status, and that no other message moves it. |
| `AutoAccept.RejectReopens` | pkg/exchange/state_assign.go:399-427 | A rejected completion leaves its assign open with no claimant, claim or completion, on its own reward, entry and reservation; no index names it, and no other assign changes. |
| `AutoAccept.LapseReopens` | pkg/exchange/state_assign.go:446-486 | An expired claim leaves its assign open in the same way and its worker's slot free. |
| `AutoAccept.OpenIsClaimed` | pkg/exchange/state_assign.go:116-217 | An open assign that is not auctioned goes to any permitted worker that holds nothing, with its slot and claim index set. |
| `AutoAccept.ClaimIsCompleted` | pkg/exchange/state_assign.go:317-360 | A claimed assign is completed by its claimant, which frees the slot, and is then found by its completion for review. |
| `AutoAccept.AcceptMakesPayable` | pkg/exchange/state_assign.go:374-390 | An accepted completion leaves review, is found for its payment, and keeps who did what on which terms. |
| `AutoAccept.RejectedWorkIsDoneAgain` | pkg/exchange/state_assign.go:399-427 | After a reject any permitted worker that holds nothing claims the assign, completes it, is accepted, and stands to be paid on the posted terms. |
| `AutoAccept.OneClaimEachExactlyUnlessHolderWins` | pkg/exchange/state_assign.go:184-303 | From a board where nobody works on two assigns, a message breaks that if and only if it is an auction close whose lowest bidder already holds a claim. |
| `AutoAccept.OneClaimEachOverALog` | pkg/exchange/state_assign.go:184-303 | So over every log in which no close is won by a holder, every claimed assign is the one in its claimant's slot and every slot holds a claim. |
| `AutoAccept.TwoClaimsReached` | pkg/exchange/state_assign.go:291-303 | A concrete log of eight distinct messages in which a holder wins and ends with two claims. |
| `AutoAccept.AuctionWinnerHoldsTwo` | pkg/exchange/state_assign.go:291-303 | An auction win takes over a held claim's slot and frees it on completion, so its winner can hold two. |
| `AutoAccept.RedeliveredCompletion` | pkg/exchange/state_assign.go:317-360 | A completion already on the board folds to nothing however often it is delivered. |
| `AutoAccept.PaidAtMostOncePerRebuild` | pkg/exchange/state_assign.go:535-560 | Over every run with stale ticks, redelivered messages and manual accepts, an assign is paid at most once for each life of the live state. |
| `AutoAccept.PaidWhatIsOwed` | pkg/exchange/engine_core.go:1791-1804 | A payment is for an assign message of the log, completed in the log by the worker it goes to, and is its posted reward or, for an auctioned assign, the second-lowest bid, to the lowest bidder and at most ten times a positive reward; reserved work, auctioned or not, is only paid to its own worker. |
| `AutoAccept.PaysAgainExactlyAfterRebuild` | pkg/exchange/engine_core.go:1772-1781 | Accepting a paid completion again pays it again if and only if a rebuild of the state has forgotten the payment. |
| `AutoAccept.PaidTwice` | pkg/exchange/engine_core.go:1772-1781 | A concrete run: post, claim, complete, accept and pay, rebuild, accept and pay again makes two payments for one assign. |
| `AutoAccept.PaidUntilRebuild` | pkg/exchange/state_assign.go:557-559 | No step but a rebuild forgets a payment. |
| `AutoAccept.TickerPaysOnlyWhatPassed` | pkg/exchange/assign_autoaccept.go:131-163 | Whatever the ticker paid for passed every gate on operator-held bytes, with a referenced put owned by the claimant and distinct from the original. |
| `AutoAccept.TickKeepsInv` | pkg/exchange/assign_autoaccept.go:131-163 | A whole tick over any stale snapshot keeps everything proved of runs. |
| `AutoAccept.TickDecides` | pkg/exchange/assign_autoaccept.go:131-163 | A tick over a completion as it stands on the board pays it once, its price or its reward to its claimant, if it passes every gate, and reopens its assign unpaid if not. |
| `AutoAccept.SnapshotSeesReview` | pkg/exchange/assign_autoaccept.go:131-137 | A tick's snapshot is every completion that waits for review, as its record stands. |
| `AutoAccept.ResolveSubmittedCompression` | pkg/exchange/assign_autoaccept.go:283-318 | The operator's own bytes of a submission, or the reason it has none. |
| `AutoAccept.Engine.ClaimAssignPayment` | pkg/exchange/state_assign.go:535-560 | The record is returned exactly on the one transition from accepted to paid. |
| `AutoAccept.Engine.HandleAssignAccept` | pkg/exchange/engine_core.go:1765-1808 | A payment is made exactly when the claim succeeds and there is an amount and a claimant; an auction pays its clearing price. |
| `AutoAccept.Engine.AcceptAssignLocked` | pkg/exchange/engine_core.go:1914-1927 | An empty completion id or a failed emit changes nothing; otherwise the accept is emitted and folded, then paid in the same call. |
| `AutoAccept.Engine.RejectCompletedAssignLocked` | pkg/exchange/assign_autoaccept.go:345-359 | An empty completion id or a failed emit changes nothing; otherwise the reject is emitted and folded, nothing is paid, and an assign under review is open again on its own terms, found under that completion no more. |
| `AutoAccept.Engine.RunAutoAcceptAssigns` | pkg/exchange/assign_autoaccept.go:131-164 | The loop accepts or rejects each compress completion of its snapshot by its verdict, going on past failed emits, and skips the rest. |
| `AutoAccept.Engine.RebuildState` | pkg/exchange/engine_core.go:1429-1438 | A rebuild, folded window by window, leaves the fold of the log and forgets what only the live state knew. |
| `Auction.WithBidKeepsLowest` | pkg/exchange/state_assign.go:176-194 | A bid leaves one bid per worker, each worker's being the lowest it made, and touches nobody else's. |
| `Auction.LowestWinsAtTheSecondLowest` | pkg/exchange/state_assign.go:258-273 | The winner bid lowest and pays the lowest bid of the others, or its own if it is alone. |
| `Auction.CloseAuction` | pkg/exchange/state_assign.go:258-273 | The insertion sort on a copy of the bids yields that winner and that price. |
| `Session.KeptIsStretch` | pkg/exchange/engine_core.go:2244-2265 | List and window are the same stretch of the history: from the later of the first settlement strictly inside the hour and the tenth from the end. |
| `Session.KeptIsWindow` | pkg/exchange/engine_core.go:2240-2266 | With a clock that never goes back, after every settlement the bounded list is exactly the last ten settlements strictly inside the one-hour window, in order. |
| `Session.PruneInPlace` | pkg/exchange/engine_core.go:2248-2254 | Filtering over the prior elements' own storage leaves exactly the survivors in order. |
| `Session.RecentEntries.Append` | pkg/exchange/engine_core.go:2261-2261 | An append within capacity or into a larger array leaves the old view and the new entry. |
| `Session.RecentEntries.Record` | pkg/exchange/engine_core.go:2240-2266 | One settlement prunes, pairs the newcomer with every survivor, appends and keeps the last ten. |
| `Climb.WatermarkIsLowestSafe` | cmd/dontguess/serve_relay.go:668-681 | There is one position past the last plaintext record, and it is the lowest cursor from which no plaintext is published. |
| `Climb.PlaintextByKind` | cmd/dontguess/serve_relay.go:729-743 | What counts as plaintext: a payload that cannot be read does; an envelope of version two or later does not; of the rest exactly what has content. |
| `Climb.OwnByOrigin` | cmd/dontguess/serve_relay.go:668-674 | A record counts in the operator's own positions exactly when its origin is empty or local. |
| `Climb.RecomputedIsUnchangedExactlyWithoutPlaintext` | cmd/dontguess/serve_relay.go:620-633 | Appending records moves the reconstructed watermark if and only if one of them is an operator record with inline plaintext, and only upward. |
| `Climb.FenceHoldsForLife` | cmd/dontguess/serve_relay.go:634-686 | After the climb, however the log grows without operator plaintext, however often the sidecar is lost and starts fail, every start that gets through returns the original watermark, and only a start over a lost sidecar can fail; every operator record from the watermark on has no content or an envelope, and the one before it has content in the open. |
| `Climb.SidecarAfter` | cmd/dontguess/serve_relay.go:634-686 | The sidecar is there from the first start that gets through until it is lost, keeps its value, and is never there otherwise. |
| `Climb.ClimbFence.EstablishClimbWatermark` | cmd/dontguess/serve_relay.go:634-686 | A present value is reused, an empty, unreadable or negative one refused, and a missing one reconstructed by one scan and written, or refused when log or sidecar fails. |
| `Ranking.ScoreIsMonotone` | pkg/exchange/engine_buy.go:724-735 | A better reputation or a later put never scores lower, age past thirty days leaves reputation alone, scores are never negative, and only a put dated in the future scores above 1. |
| `Ranking.SettlePlace` | pkg/exchange/engine_buy.go:738-744 | The inner loop leaves a permutation with place i holding the best of the rest. |
| `Ranking.SortDescending` | pkg/exchange/engine_buy.go:737-744 | The exchange loops leave a descending permutation. |
| `Ranking.TopOmitsNothingBetter` | pkg/exchange/engine_buy.go:746-753 | The top is as long as asked for or as there are candidates, drawn from them, and nothing omitted scores above anything kept. |
| `Ranking.RankResults` | pkg/exchange/engine_buy.go:718-754 | The result is the head of a descending permutation of the scored candidates. |
| `Ranking.MergeIsSound` | pkg/exchange/engine_buy.go:213-279 | With unique ids, the merged list has no entry twice and at most maxResults, all from the filtered set, semantic hits first in search order with the search's own confidence and similarity, no embedded entry the search left out, and nothing eligible missing unless it is full. |
| `Ranking.MergeSemanticAndFallback` | pkg/exchange/engine_buy.go:213-279 | The merged list is the filtered hits in search order followed by the best-scored candidates without an embedding, cut to maxResults. |
| `Reconnect.LoopIsOrderly` | cmd/dontguess/serve_relay.go:1064-1131 | In every run each read pass after the first is preceded by a drop, failInFlight, tries until a re-subscribe succeeds, and a settle wait; every wait is positive and within the backoff bound. |
| `Reconnect.DelayDoublesUpToMax` | cmd/dontguess/serve_relay.go:1075-1119 | After n failures in a row the delay is initial * 2^n up to the ceiling, and constant without one. |
| `Reconnect.WaitsDoubleInEveryRun` | cmd/dontguess/serve_relay.go:1075-1119 | In every run each wait emitted after a failed try is twice the one before it in that recovery, up to the ceiling, or the same without one; the first of a recovery and the settle wait are the initial delay. |
| `Reconnect.NoPublishWedges` | cmd/dontguess/serve_relay.go:1271-1337 | In every run a publish registered when a drop was handled has a result waiting from then on, and a publish reports acceptance or refusal only if an OK saying so arrived after it registered. |
| `Reconnect.AnsweredPublish` | cmd/dontguess/serve_relay.go:1271-1337 | A publish registered and answered by one OK, accepting or refusing, reports exactly that, and its waiter goes. |
| `Reconnect.DroppedPublish` | cmd/dontguess/serve_relay.go:1281-1321 | A publish still waiting when the drop is handled is told so, ends in an error, and its waiter goes. |
| `Reconnect.PublishEnds` | cmd/dontguess/serve_relay.go:1281-1303 | A send that fails and an expired context end a publish in an error; an OK nobody waits for changes nothing. |
| `Reconnect.FirstVerdictStays` | cmd/dontguess/serve_relay.go:1312-1337 | The first verdict on a channel stays whatever happens later. |
| `Reconnect.LoopTraceIsOrderly` | cmd/dontguess/serve_relay.go:1064-1131 | What the running loop emits, for any number of drops and failed tries and wherever it is cancelled, is a trace the machine allows, and each wait in it is the doubling or the initial one the backoff calls for. |
| `Reconnect.LoopIsARun` | cmd/dontguess/serve_relay.go:1064-1131 | Whatever the running loop emits, for any number of drops and failed tries and wherever it is cancelled, is the trace of a run of the machine that has stopped. |
| `Reconnect.StoppedForGood` | cmd/dontguess/serve_relay.go:1077-1131 | Once stopped the loop emits nothing more. |
| `Reconnect.DemuxPublisher.RouteOK` | cmd/dontguess/serve_relay.go:1326-1337 | An OK fills the empty channel of its own waiter and touches no other. |
| `Reconnect.DemuxPublisher.FailInFlight` | cmd/dontguess/serve_relay.go:1312-1321 | Every registered waiter has a result afterwards, and one already answered keeps its answer. |
| `Reconnect.DemuxPublisher.Register` | cmd/dontguess/serve_relay.go:1277-1280 | A publish registers a fresh empty channel under its id. |
| `Reconnect.DemuxPublisher.Await` | cmd/dontguess/serve_relay.go:1281-1303 | A publish reports acceptance or refusal exactly as its channel says, an error if its send failed, its context expired or the connection dropped, and takes its waiter away in every case. |
| `Reconnect.RunReaderReconnect` | cmd/dontguess/serve_relay.go:1064-1131 | The nested loops emit exactly the specified events and delays, whether cancelled between passes, in one, before a try, in a backoff wait or in the settle wait. |

## Left out

- Cryptography, signatures, NIP-42, websockets, sockets, files below the level of whole writes, clocks and randomness: signature checks are a flag on the event, clocks and fresh ids are parameters, and each write or call carries how it ends.
- Letter case, surrounding whitespace and raw spelling of keys in configuration: keys are already normalized, and an entry is a hex key, an npub that decodes, or junk; npub prefixes other than npub1 are not distinguished.
- JSON parsing: payloads arrive parsed, with unparseable ones as their own case.
- Integer width, except the withheld fraction, version components, and the difference and sum of the cap test: balances, amounts, cursors and timestamps are unbounded integers.
- Fold order: State is the set of folded positions, since the poll folds outside the lock and emitters apply their own records early.
- Dispatch per event id: exactly-once is per log position, because each relay leg has its own sequencer and several legs may append the same event.
- Sequenced ingest of the local log, which can make the fold cursor count fewer records than the log holds.
- Startup racing socket operations, and dispatch of orders pending at startup: runs begin from the seeded cursors.
- The author of scrip messages and of operator-only assign messages: one by anybody else folds to nothing, as does a scrip message seen before, and neither is among the messages of the model.
- Errors returned by dispatch handlers, and the handlers themselves.
- The sequencer's causal order: a drain releases any distinct buffered ids; which ones and in what order is not modelled.
- RelaySeed: the egress fence is taken to depend on what the wire id hashes, and a record that cannot be signed blocks the outbox forever.
- Other relay legs registering aliases in the same State, and the legacy operator-key alias.
- Permanent relay rejections that quarantine a record: they advance the cursor as an acknowledged publish does.
- Engine emit and marshal failures for mints and assign payments; those of credits, holds, repayments and reviews are modelled.
- Burns, settlements, put payments, dispute refunds and vig accrual in the scrip store, so a hold is never released.
- CreditRuns: a buyer's debt is read in one step, where the code reads it loan by loan, and an emit is one step with the fold that follows it.
- Loan ids: a loan is named by its place in mint order, so duplicate ids do not arise.
- The buyer-accept flow around a credit and its hold: the match it is for, the price, and the reservation and its restore after a restart.
- The offline command-line add and remove, which do not cascade, other than as a rewrite of the configuration in Roster.
- Transient failures to read the configuration before a cascade or in the issuer gate.
- Retention callbacks on revoke and re-admit, and the tier without relays, where nothing live is reloaded.
- The startup roster as separate sub-steps: it is one atomic step, since it reads the configuration before taking the controller's lock.
- Torn writes in the redeemed-grants file and the scanner's limit of one megabyte a line.
- Invite expiry, the redeem's tag match and the issuer gate inside a redeem run; the gate is in Admission.
- The difficulty tier of a closed auction, claim expiry times, and an assign's own deadline other than by the message that expires it.
- AutoAccept.Engine.RebuildState: in the machine a rebuild is one step; a message folded between two of its windows is not modelled, since it would fold out of log order.
- The derivative inventory entry of an accepted compression.
- AutoAccept.TickerPaysOnlyWhatPassed: similarity is an arbitrary real-valued function and sizes are compared as reals, without floating-point rounding.
- Field names and texts of breaking changes in the version diff; an entry is identified by its kind and arg name.
- The map from buyer to session list, and the state's own co-occurrence counts; a clock that goes back, since settlement times carry the monotonic reading and are taken under the list's lock.
- The search index: its hits, and whether an entry has an embedding, are inputs; confidence of a fallback entry is an arbitrary function.
- The order of equally scored candidates, which the exchange sort does not fix.
- What a read pass does with events, the watchdog's other legs, and overlapping publishes of one event id.
- Filters on candidates, prices, brokered matching, the demand backlog and the tag allowlist.
