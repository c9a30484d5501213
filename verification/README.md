# inferplane: spending limits and audit evidence

inferplane is a gateway in front of language-model providers. It must stop spending at a limit, and it must
leave evidence that cannot be changed unnoticed. This project models the parts that carry those two promises
and proves what they promise, in Dafny 4.11. `dafny verify dfyconfig.toml` checks all of it.

| component | modules |
|---|---|
| budget-lease ledger of the control plane, and the fleet of data planes that renew leases from it | `LeaseLedger`, `LeaseAnswers`, `LeaseFleet`, `LeaseTightness`, `LeaseHistory` |
| in-memory spend store: sweeps, window changes, saturation, refusal at capacity | `BudgetStore`, `BudgetHistory` |
| counter names, money scopes, and where settled costs land | `BudgetKeys`, `CounterConservation`, `CounterReadings` |
| local money reservations around provider attempts | `LocalMoney`, `LocalMoneyRuns`, `LocalMoneyContract`, `LocalMoneyFreeze`, `Governors` |
| one governor through any sequence of calls, on its own store | `GovernorActs`, `GovernorTerms`, `GovernorRuns` |
| admission: the pre-check, settlement, exactly-once finishing of rate reservations | `Admissions`, `PreChecks`, `Governors`, `AdmissionRuns` |
| audit records: bytes, hash chain, verifier, writer, write-ahead log, restarts | `AuditFormat`, `AuditChain`, `AuditWriter`, `AuditRuns`, `AuditRestarts` |
| the issuer's key set (single-flight fetches) and the verdict cache | `Jwks`, `VerdictCache`, `ClassifierRun`, `CacheKeys` |
| integers, map sums, shared types | `Int64s`, `MapSums`, `Basics` |

How the models are built. Code that changes state in place is a class (`Server`, `Memory`, `Governor`, `Admission`,
`WAL`, `Writer`, `AuditLines`, `KeySet`, `VerdictCache`) whose methods are proved against functions on the
state; whole-run properties are then proved about those functions, or as loops over arbitrary work. Money is
the non-negative part of `int64`, and every saturating step is written out. Hashes, JSON, signature checks, the
classifier and the calendar are parameters: any function that meets the stated conditions.

Where the code is sharper or looser than its documentation:

- The documented fleet bound with lapsing leases is the limit plus one grant for each data plane. The code keeps
  the limit plus the smaller of grant and limit for each data plane but one (`LeaseFleet.FleetCapWithLapses`). For
  every limit and every positive grant, and every fleet whose data planes can lapse one after another within the
  24 hours after which silence is pruned, a run reaches that value exactly (`LeaseTightness.FleetBoundIsReached`).
- The pre-check denies only spend beyond a limit, while a money reservation already refuses at the limit.
- `Verify` reports an instance's last segment and `HeadAtCount` its first one that is long enough, so they differ
  for an instance that comes back with another chain (`AuditChain.ReappearingInstance`); when they agree is
  `AuditChain.HeadAtVerifiedCount`.
- A process that boots on a backlog under the instance id of its last record, and writes a record, leaves a
  write-ahead log that no restart ever accepts; under any other non-empty id restarts keep accepting it while
  appends succeed (`AuditRestarts.WriteThenRestart`).
- The restart check notices any exchange of a retained record but one: the last record of a process is not covered by
  what the next process writes (`AuditRestarts.EditedBacklogIsRejected`, `AuditRestarts.LastRecordMayBeExchanged`).
- Malformed usage closes the counters on which its permit holds a positive amount. A permit that holds nothing closes
  only those whose object it holds on is still in use (`LocalMoneyFreeze.MalformedUsageCloses`).
- User counters are named by team and user joined with a slash. They are per user because team names are validated
  to contain none (`CounterConservation.UsersConserveCosts`); with one, two users would share a counter
  (`CounterConservation.SlashedTeamsCollide`).

## Model

| member | source | states |
|---|---|---|
| LeaseLedger.FoldAccounting | internal/controlplane/controlplane.go:109-135 | folding non-negative entries with saturating addition, in any order, gives the exact sum capped at the largest int64 |
| LeaseLedger.Totals | internal/controlplane/controlplane.go:109-126 | reported spend and the outstanding leases of the other live data planes, as capped exact sums, for any map order |
| LeaseLedger.GrantFits | internal/controlplane/controlplane.go:495-507 | what a data plane has spent plus what it is granted always fits an int64, even when reported spend is beyond the limit |
| LeaseLedger.Slice | internal/controlplane/controlplane.go:495-503 | the granted slice is the smaller of the grant and the exact remainder: saturation never creates authority |
| LeaseLedger.GrantTo | internal/controlplane/controlplane.go:485-517 | one rule's renewal: the new cumulative allowance and the lease that carries it, without overflow |
| LeaseLedger.Server.HandleSync | internal/controlplane/controlplane.go:376-555 | one heartbeat as a whole: a negative report changes nothing; otherwise reports are absorbed, silent data planes dropped and every rule renewed, in that order, and nobody else's figures change |
| LeaseLedger.SyncLeavesOthers | internal/controlplane/controlplane.go:435-472 | an accepted heartbeat, a decrease included, leaves every other data plane's spend and allowance alone, unless it was silent for more than 24 hours; then both are gone |
| LeaseAnswers.LeaseIsWhatIsLeft | internal/controlplane/controlplane.go:435-517 | the lease in the answer: the reporter's latest figure plus the smaller of the grant and what the limit leaves after everybody's reported spend and what the other live data planes held before the heartbeat, for three renewal intervals |
| LeaseAnswers.AbsorbedAllowance | internal/controlplane/controlplane.go:452-456 | the reporter's old allowance is gone exactly if one of its reports was below the figure on record |
| LeaseAnswers.RoutingOnlyGetsNothing | internal/controlplane/controlplane.go:485-491 | a routing-only rule never gets a lease, and keeps no allowance past a rollover |
| LeaseLedger.AbsorbInto | internal/controlplane/controlplane.go:435-458 | one report on the row it names: another period's report is ignored, one below the last drops the reporter's allowance, and no other data plane's figures change |
| LeaseLedger.Server.AbsorbReports | internal/controlplane/controlplane.go:435-458 | every row takes exactly the reports of its own rule and period, and keeps its terms and everybody else's figures |
| LeaseLedger.Server.Prune | internal/controlplane/controlplane.go:464-472 | exactly the long-silent data planes disappear, from the table and from every row |
| LeaseLedger.Server.GrantLeases | internal/controlplane/controlplane.go:485-517 | every row that is not routing-only is renewed once, and the leases returned are those of the renewed rows |
| LeaseLedger.Server.ApplyWire | internal/controlplane/controlplane.go:201-306 | the ledger rebuilt from a policy set, for any set and any previous ledger |
| LeaseLedger.ReloadRow | internal/controlplane/controlplane.go:201-306 | a rebuilt row carries its spend exactly when rule and period are unchanged, and its allowances only if it is not routing-only |
| LeaseAnswers.RowHasTheRulesTerms | internal/controlplane/controlplane.go:201-306 | every row of a rebuilt ledger has the team, limit, grant, renewal interval, cap, period and kind of the last rule of its name that has a budget to lease out |
| LeaseAnswers.RuleHasARow | internal/controlplane/controlplane.go:223-250 | and every such rule has a row |
| LeaseFleet.UnexpiredLeasesStayCounted | internal/controlplane/controlplane.go:109-126 | in every run without pruning, a lease a data plane holds or may still receive is unexpired only while the control plane still counts its holder as live |
| LeaseFleet.RenewalNeverLowers | internal/controlplane/controlplane.go:485-507 | while all allowances together fit the limit and the others are live, a renewal never lowers an allowance, and all allowances together still fit |
| LeaseFleet.FleetCapIsExact | internal/controlplane/controlplane.go:435-507 | for any fleet and any interleaving of spending, heartbeats, lost, late or repeated responses and reloads in one window, if no data plane lapses the true total spend never exceeds the limit |
| LeaseFleet.FleetCapWithLapses | api/v1alpha1/types.go:161-167 | with leases lapsing and holders returning late with larger reports, the true total spend never exceeds the limit plus, for every data plane but one, the smaller of grant and limit |
| LeaseTightness.FleetBoundIsReached | internal/controlplane/controlplane.go:485-507 | for every limit, every positive grant and every fleet that can lapse one data plane after another within the pruning time, there is a run that spends exactly that bound |
| LeaseHistory.LedgerMatchesHistory | internal/controlplane/controlplane.go:201-472 | after any mix of heartbeats, reloads, rule removals and prunes, each row's period and spend are what a declarative reading of the history says |
| LeaseHistory.SpendIsTheLastReport | internal/controlplane/controlplane.go:403-472 | a row's spend for a data plane is the last value it reported for that rule in the row's current period, or none since the row started fresh |
| BudgetStore.Memory.Cur | internal/budget/budget.go:255-290 | a key present at the call is never refused; a refusal means the store is full of live counters; no live counter is dropped or changed, and the size limit holds |
| BudgetStore.Memory.Check | internal/budget/budget.go:176-205 | the exact decision for every estimate and limit, with capacity refusals told apart from breaches |
| BudgetStore.Memory.Debit | internal/budget/budget.go:207-220 | exactly one live counter grows by the cost, saturating; every other live counter is unchanged |
| BudgetStore.Memory.Spent | internal/budget/budget.go:222-230 | the live counter's spend, or zero in a window that has just begun |
| BudgetStore.Memory.ResetsAt | internal/budget/budget.go:236-244 | the end of the live counter's window, and even a refused key is told when its window ends |
| BudgetStore.Memory.SweepExpired | internal/budget/budget.go:284-290 | exactly the counters whose window has ended are removed |
| BudgetHistory.OnlyTheViewMatters | internal/budget/budget.go:255-290 | answers and later states depend on live counters only, so sweeping is invisible |
| BudgetHistory.Replay | internal/budget/budget.go:176-290 | at non-decreasing times, as long as live counters never fill the store when a new one is asked for, the swept store gives any sequence of calls the answers of a map that is never swept, however many counters have died meanwhile |
| BudgetHistory.ReferenceCounts | internal/budget/budget.go:207-308 | the never-swept map holds, for a calendar counter, the capped exact sum of the debits of its current window |
| BudgetHistory.SpentIsTheWindowsDebits | internal/budget/budget.go:222-308 | reading a calendar counter at any later time gives the capped exact sum of what was debited since its window began |
| BudgetKeys.KeysNeverCollide | internal/budget/keys.go:28-30 | equal counter names come from equal window tags, scopes and ids, whatever characters the ids contain |
| BudgetKeys.UserIdsNeverCollide | internal/governance/governance.go:298 | users of different teams never share a counter when team names contain no slash |
| BudgetKeys.ScopesAreDistinct | internal/governance/local_money.go:56-80 | the scopes of one request never name the same counter twice |
| BudgetKeys.ScopeKeysAreCharges | internal/governance/local_money.go:56-80 | a request names a counter exactly when the policies charge its team, key or user for that window |
| CounterConservation.CountersConserveCosts | internal/governance/governance.go:666-807 | each team, key and user counter, by day and by month, reads the capped exact sum of the costs settled for exactly that subject since the window began, each counted once; `GovernorRuns.DriveThenRead` carries this to the governor's own store |
| CounterConservation.UsersConserveCosts | internal/governance/governance.go:284-298 | for team names without a slash, a user's counter reads the capped exact sum of what was settled for that user in that team, and for nobody else |
| CounterConservation.SlashedTeamsCollide | internal/governance/governance.go:284-298 | with a slash in a team name a request of one user is charged to another's counter |
| GovernorRuns.CostsOfActs | internal/governance/governance.go:731-807 | the history's cost of a counter is what the acts cost it: known prices of usable usage and figures of first finishes, in its calendar month or day |
| LocalMoney.ReserveConserves | internal/governance/local_money.go:95-154 | a reservation keeps every state object frozen or equal to its unreleased holds, and a refused one changes no hold |
| LocalMoney.FinishConserves | internal/governance/local_money.go:159-183 | finishing any permit in any way keeps that balance, and changes only the permit's own objects |
| LocalMoney.FinishMeans | internal/governance/local_money.go:176-182 | a first finish with proved complete usage gives each hold back, with malformed usage closes each object and keeps the holds, and otherwise keeps them; no other object changes |
| LocalMoney.OldWindowCannotTouchNew | internal/governance/local_money.go:122-152 | a permit of an ended window leaves the hold of the window that replaced it alone |
| LocalMoney.ProbeConserved | internal/governance/local_money.go:122-143 | the checking pass, however far it gets, keeps all liabilities balanced and old objects unchanged |
| LocalMoneyRuns.ProbeDecision | internal/governance/local_money.go:122-139 | the checking pass admits exactly when every hard scope has room in the state before it |
| LocalMoneyRuns.ProbeTally | internal/governance/local_money.go:140-143 | a passed check holds on exactly the hard scopes, each with its own amount, on the object its key uses now |
| LocalMoneyRuns.InvAfter | internal/governance/local_money.go:95-183 | over every run, through any number of windows: liabilities are balanced, the counter in the store is one of its own windows, and until a window ends every unreleased hold in it is on the object its key uses now |
| LocalMoneyContract.OneAttemptOvershoot | internal/governance/local_money.go:122-183 | for every counter in every one of its windows, over any run of attempts, finishes and settlements on any counters: while the costs that land in the window are covered by holds made in it, spend plus pending holds stays below the limit plus the largest attempt bound |
| LocalMoneyContract.UnboundedExcludesOthers | internal/governance/local_money.go:132-182 | after an unbounded attempt is admitted, no later attempt on any of its hard scopes is admitted in that window until it is released, whatever happens on other counters and in other windows |
| LocalMoneyContract.UnboundedTakesTheRest | internal/governance/local_money.go:140-143 | an unbounded admission holds all that is left on each of its hard scopes in the window |
| LocalMoneyContract.RestExcludes | internal/governance/local_money.go:132-137 | while such a hold is unreleased the check refuses every attempt on that counter in the window |
| LocalMoneyFreeze.MalformedUsageCloses | internal/governance/local_money.go:132-182 | after a first finish with malformed usage of a permit that holds on a counter, no later attempt with a hard scope on that counter is granted before the window ends, whatever finishes, attempts and cleanups happen meanwhile |
| Governors.Governor.ReserveLocalBudget | internal/governance/local_money.go:95-154 | the two-pass loop over shared objects is the reservation function applied to what the store said at the start, the permit granted is the one recorded, and no counter reads differently afterwards; unless the store refuses something, a permit is granted exactly if money is governed, the bound is not negative, the table of 100,000 has place, and every hard scope is open with spend plus holds below its limit |
| Governors.AdmittedHasRoom | internal/governance/local_money.go:122-139 | a check that passes found every hard scope open, with spend plus holds below its limit |
| Governors.RoomAfterCleaning | internal/governance/local_money.go:108-121 | dropping state objects that nothing needs changes no decision |
| Governors.Governor.FinishLocalBudget | internal/governance/local_money.go:159-183 | the first finish debits every scope of the permit once and then gives back, keeps or closes its holds as the usage was proved, unproved or malformed; every later one changes nothing |
| Governors.Governor.Settle | internal/governance/governance.go:666-826 | one settlement per admission: usable usage with a known price costs exactly that price, rates are finished with the true usage, and unless a permit owns the money every counter of the team, key and user grows by the price, saturating, and no other one |
| Governors.RateOutcome | internal/governance/governance.go:717-729 | usable usage never finishes the rates below its tokens, and uncertain usage never below the estimate |
| Governors.LandedCharges | internal/governance/governance.go:752-807 | a debit of a request's scopes that the store did not refuse grows exactly the counters that the policies charge |
| Governors.Governor.DebitScopes | internal/governance/governance.go:724-789 | each scope is debited once and nothing else changes, unless the store was full, which it never is with enough room at the start |
| GovernorActs.SettledIsHistory | internal/governance/governance.go:666-807 | debiting every scope of a request is one more settlement in the history over which counters are conserved |
| GovernorActs.DebitInStep | internal/governance/local_money.go:171-175 | a debit that the swept, bounded store did not refuse keeps it in step with the never-swept books |
| GovernorTerms.AttemptInTerms | internal/governance/local_money.go:122-143 | a reservation whose policy enforces the limit and whose bound is small enough is one that the overshoot promise covers, for whatever the store answers |
| GovernorTerms.FinishInTerms | internal/governance/local_money.go:159-183 | a first finish that costs no more than the bound its attempt reserved in the same window is covered by what its permit holds |
| GovernorRuns.Drive | internal/governance/local_money.go:95-183 | a new governor through any sequence of reservations, finishes, settlements and pre-checks at non-decreasing times: unless its store refuses something, its books follow a lawful run and its store reads as if it held exactly the costs settled |
| GovernorRuns.DriveThenRead | internal/governance/governance.go:342-807 | after any such sequence the store answers, for every team, key and user counter, with the capped exact cost settled for that subject in the current window, and for all terms the callers kept to, that answer plus the holds of unfinished attempts is below the limit plus the largest attempt bound |
| CounterReadings.LookupKeeps | internal/budget/budget.go:222-280 | looking a counter up changes nothing the store says about any key |
| PreChecks.AdmittedIffWithinBudget | internal/governance/governance.go:342-518 | a request is admitted exactly when its estimate is valid, every gate passes, and none of the scopes a reservation would claim has spent beyond its limit |
| PreChecks.FirstRefusalWins | internal/governance/governance.go:342-518 | a denial names something that refuses, and everything before it in the order estimate, lease, team, key, user, and rate, tokens, quota, budgets, lets pass |
| PreChecks.PairDenialIsSoonest | internal/governance/governance.go:402-439 | of a subject's month and day, the one that denies has spent too much, and if both have, it resets first |
| PreChecks.AdmittedHoldsTokens | internal/governance/governance.go:342-518 | an admitted request holds one token reservation for each of team and key that limits tokens |
| PreChecks.CheckPair | internal/governance/governance.go:402-439 | of two breached windows the one that resets sooner denies, the month on a tie; a full store denies even in warn mode |
| PreChecks.PreCheck | internal/governance/governance.go:332-518 | the whole check: a denied request has had every token reservation refunded exactly once, an admitted one holds exactly the granted ones, open, and nothing was spent |
| Admissions.Admission.FinishOnce | internal/governance/admission.go:24-52 | the first finisher reaches every captured reservation, later ones none |
| Admissions.Admission.CancelUndispatched | internal/governance/admission.go:57-67 | it refunds an undispatched admission and changes nothing after dispatch |
| AdmissionRuns.Drive | internal/governance/admission.go:24-67 | under any sequence of settlements, closes, cancellations, dispatch marks and ownership marks on one admission: the first operation that finalises finishes every reservation exactly once, with what it says; the store is charged only if that is a settlement with usable usage whose money no permit owns by then, and then its price on its team, key and user; if none finalises nothing happens |
| AuditFormat.LinesReadBack | internal/audit/wal.go:29-69 | whatever follows in the file, a replay and the verifier's reader read the writer's lines back exactly |
| AuditFormat.PiecesOfEncoded | internal/audit/verify.go:43-62 | splitting the written bytes at newlines gives the lines, then the pieces of the rest |
| AuditFormat.CarriageReturns | internal/audit/verify.go:43-62 | the verifier reads a line that ends in a carriage return and a newline as the line; a replay keeps the carriage return |
| AuditFormat.BlankLines | internal/audit/verify.go:43-94 | blank lines count for neither the verifier nor a replay |
| AuditFormat.LastLine | internal/audit/verify.go:43-62 | a last line needs no newline to be read |
| AuditChain.AuditLines.Next | internal/audit/verify.go:43-62 | the reader delivers the stream's tokens one by one, the unterminated last one included, and then stops |
| AuditChain.Verify | internal/audit/verify.go:76-115 | intact exactly when the stream is readable and every line names its predecessor; otherwise the first broken line, and the segments of the intact part |
| AuditChain.HeadAtCount | internal/audit/verify.go:125-160 | it finds a head exactly when some segment of the instance reaches the count on an intact prefix, and then that line's hash |
| AuditChain.SameHeadSameSegment | internal/audit/verify.go:76-160 | in any two intact streams, of any number of instances, equal hashes of two lines mean their segments up to there are equal line for line, or here is a collision |
| AuditChain.VerifyIsTamperEvident | internal/audit/verify.go:76-115 | two streams that verify with the same head for an instance end it in the same segment, line for line, or contain a collision |
| AuditChain.SameHeadSameStream | internal/audit/verify.go:76-115 | two single-instance streams that verify with the same head are the same stream, or contain a collision |
| AuditChain.SingleInstanceTamperEvidence | internal/audit/verify.go:125-160 | equal heads at count n fix the first n lines, or contain a collision |
| AuditChain.SingleReach | internal/audit/verify.go:125-160 | for one instance a head is found at count n exactly when there are n lines, and it is the n-th |
| AuditChain.HeadAtVerifiedCount | internal/audit/verify.go:109-154 | a head asked for at the count that verification reports is always found, and is the reported head exactly when the first segment that long is the last one, collisions aside |
| AuditChain.ReappearingInstance | internal/audit/verify.go:94-154 | an instance that comes back with another chain makes the two disagree |
| AuditWriter.WAL.Append | internal/audit/wal.go:29-39 | a successful append adds one whole line; a failed one may leave any part of it |
| AuditWriter.WAL.Replay | internal/audit/wal.go:42-69 | the replay delivers exactly the non-empty lines of the file |
| AuditWriter.AppendedLine | internal/audit/wal.go:29-69 | a whole append after whole lines adds exactly that record to what a replay delivers |
| AuditWriter.RetainedRecords | internal/audit/writer.go:223-273 | it counts the retained lines exactly when the file is whole and the lines are plausible and linked, and refuses otherwise |
| AuditWriter.Writer.Step | internal/audit/writer.go:142-212 | everything one record does: chain, WAL, published head, each sink, pending count and latch, for every combination of failures, keeping all invariants |
| AuditWriter.Writer.Loop | internal/audit/writer.go:142-212 | from any state on and whatever fails: a set latch never changes, a WAL that retains a record only grows, pending equals the WAL's records while appends and truncations are atomic, and a sink that took every record holds exactly the chained lines |
| AuditWriter.Writer.RefusedRecordStays | internal/audit/writer.go:155-191 | a durable record that some required sink did not take is in the WAL in every later state |
| AuditWriter.Writer.DeliveredRecordsGo | internal/audit/writer.go:174-201 | while the WAL works and every required sink takes every record, whatever optional sinks do, the WAL is left empty, nothing is pending, and neither ever blocks the writer |
| AuditWriter.Writer.FirstFailureStays | internal/audit/writer.go:142-218 | the first failure of an open writer, a record without canonical form, a WAL failure or a full buffer, is the one it reports for good |
| AuditWriter.Writer.OpenUntilFull | internal/audit/writer.go:197-205 | while the WAL works, undelivered records block nothing before they fill the queue |
| AuditWriter.NewWriter | internal/audit/writer.go:104-137 | a writer opens exactly on a WAL that passes the restart check, with the retained backlog as its pending count and the latch set if that fills the queue |
| AuditWriter.JoinsNext | internal/audit/writer.go:223-273 | the next record of a process keeps the retained backlog acceptable to a restart |
| AuditRuns.WriterVerifies | internal/audit/writer.go:144-173 | a writer's lines appended to an intact stream are intact; verification reports the writer's own hash and count, and a head is found at every count |
| AuditRuns.HeadAgreesIffNothingWasLost | internal/audit/writer.go:81-173 | the published head is what verification reports exactly when no WAL append has failed |
| AuditRuns.Histories | internal/audit/writer.go:104-191 | any sequence of processes with their own ids, with arbitrary WAL and sink failures, some refusing to boot: a sink that took every record of those that booted holds one stream that verifies, and verification reports for each process exactly what it chained |
| AuditRestarts.WriteThenRestart | internal/audit/writer.go:104-273 | a process that boots on a backlog and writes a record leaves a WAL that a restart accepts exactly if its id is not empty and not that of the last retained record; a rejection is final whatever fails later, an acceptance lasts while appends succeed |
| AuditRestarts.ReusedIdIsRejected | internal/audit/writer.go:252-259 | a record that starts the chain anew under the last retained instance id, or without one, breaks the backlog |
| AuditRestarts.EditedBacklogIsRejected | internal/audit/writer.go:223-273 | within the records of one process no retained line can be exchanged for another without the restart check noticing, unless the two have the same hash |
| AuditRestarts.LastRecordMayBeExchanged | internal/audit/writer.go:252-259 | the last retained record of a process can be exchanged for any plausible one that joins what is before it |
| AuditRestarts.MalformedLineIsRejected | internal/audit/writer.go:236-251 | a backlog is refused for one line that is no record, lacks event or instance, or names neither the genesis nor a digest |
| AuditRestarts.Lives | internal/audit/writer.go:104-273 | any sequence of processes with their own ids on one WAL, while appends succeed: each boots, with exactly the backlog the last one left |
| Jwks.VerifyWith | internal/adminauth/jwks.go:123-133 | the search finds what the first key that accepts the token reads from it |
| Jwks.FoundIsTheFirst | internal/adminauth/jwks.go:123-133 | the payload is that of the first key that has the token's key id, if it names one, and whose signature checks out; none is found only if there is no such key |
| Jwks.KeySet.Enter | internal/adminauth/jwks.go:69-95 | a miss joins the running fetch, fails fast inside the window, or becomes the fetcher, as the state says |
| Jwks.KeySet.Settle | internal/adminauth/jwks.go:97-121 | the fetch's end installs served keys, arms the window unless the token was verified, and releases the flight |
| Jwks.KeptAlways | internal/adminauth/jwks.go:45-121 | every interleaving keeps fetches in turn, the miss window, the keys last served, one fetcher per open flight, and every verified answer vouched for by a served key set |
| Jwks.SingleFlight | internal/adminauth/jwks.go:69-111 | at most one fetch is in flight under any interleaving |
| Jwks.FetchesKeepTheWindow | internal/adminauth/jwks.go:88-111 | no fetch begins within the window after any earlier miss |
| Jwks.ProceedMeans | internal/adminauth/jwks.go:69-95 | in every reachable state a caller with an unknown key waits exactly if a fetch is running, and for that one; it is turned away exactly if none is and some fetch missed less than a window ago; otherwise it fetches |
| Jwks.ServedKeysLetIn | internal/adminauth/jwks.go:74-121 | a fetcher is let in exactly if the served keys verify its token, a waiter exactly if the held keys do |
| Jwks.WaitersAreReleased | internal/adminauth/jwks.go:71-111 | a waiter can return, or somebody is fetching for it and that fetch's end, however it ends, frees it |
| Jwks.CachedTokensStayLocal | internal/adminauth/jwks.go:45-59 | a token that a held key verifies is answered at once, in every reachable state, without touching state, fetches or other callers |
| Jwks.VerifiedMeansServed | internal/adminauth/jwks.go:45-133 | nobody is let in on a key the issuer did not serve |
| Jwks.FloodCostsOneFetchPerWindow | internal/adminauth/jwks.go:88-111 | while nothing is verified, n fetches further on is at least n windows later |
| VerdictCache.FieldsNeverRunTogether | internal/classifier/cache.go:54-77 | different key fields never make the same digest input, whatever they contain |
| CacheKeys.CacheKeysTell | internal/classifier/cache.go:54-77 | two cache keys are taken of the same input only for the same team, entry, settings, policies in the same generation, and text |
| VerdictCache.VerdictCache.Clear | internal/classifier/cache.go:80-94 | a hit is an entry younger than the ttl and becomes the most recent; an expired entry is removed; list and map stay in step |
| VerdictCache.VerdictCache.Store | internal/classifier/cache.go:96-110 | the entry is the most recent, and if the cache was full of others exactly the least recent one is gone |
| ClassifierRun.RunEntry | internal/classifier/run.go:109-163 | whatever others do to the cache meanwhile, every distinct non-empty window is a live hit or in the batch, and the outcome is the batch's |
| ClassifierRun.JudgedMeans | internal/classifier/run.go:134-155 | an unusable answer is an error; in a usable one a flag is never hidden, nor an abstention by clear windows |
| ClassifierRun.ClearMeansJudged | internal/classifier/run.go:134-155 | a clear outcome leaves no window that was neither judged clear in this call nor a live hit |
| ClassifierRun.ClearIsTheIdentity | internal/classifier/run.go:140-155 | leaving out clear windows does not change the folded outcome |
| ClassifierRun.CacheIsTransparent | internal/classifier/run.go:109-163 | with a per-window deterministic classifier the outcome is the cache-free one, or a window shares its digest with a different query judged clear |
| ClassifierRun.RunAndAccept | internal/classifier/run.go:71-106 | a late answer is an error and stores nothing; a usable one in time stores every window it judged clear, flagged neighbours or not; every stored key comes from an accepted answer or another request |
| ClassifierRun.Run | internal/classifier/run.go:42-107 | the whole run keeps both promises for every entry, of the batch that was sent and the hits that were found, and the early outcomes for empty and oversized input |
| ClassifierRun.TotalLengthAdds | internal/classifier/run.go:42-57 | what is compared with the input limit adds up over the segments, each counting its own length (`TotalLengthOfOne`) |
| ClassifierRun.Combine | internal/classifier/run.go:186-199 | an enforced flag classifies and an enforced abstain or error makes uninspectable, independently, and shadow entries do neither |

## Left out

- LeaseFleet.FleetCapIsExact: the data plane is an agent, not its code: it spends only under an installed lease and never past that lease's allowance, and its heartbeats arrive in the order sent (each may be lost). The data plane's lease table is not part of this model.
- LeaseFleet.FleetCapWithLapses: data planes that were silent long enough to be pruned and then return are excluded, because a pruned row forgets their spend.
- LeaseLedger.Server.HandleSync: the order of the lease list, the rejection ring, the sync interval, tiers, the routing latch and metrics are not modelled; a ledger row is a value, so a spend map shared between the old and the new row of a reload is not.
- BudgetHistory.Replay: a refusal at capacity is an answer that the never-swept map does not give, so histories with a refusal are excluded.
- LeaseTightness.FleetBoundIsReached: fleets too large or leases too long for all data planes to lapse one after another within the 24 hours are excluded; there a returning holder has been pruned.
- LocalMoneyContract.OneAttemptOvershoot: a cost that lands in a window where its attempt holds nothing, because it was reserved in an earlier window or without a permit, was checked against nothing there; such runs are excluded for that window, as are runs that change the counter's limit within it.
- LocalMoneyContract.UnboundedExcludesOthers: stated for a limit that is fixed within the window.
- GovernorRuns.DriveThenRead: settlements in the sequence carry no admission; admissions are `AdmissionRuns.Drive`. The policy set is fixed, and calls that a full store refuses end what is promised.
- LocalMoneyFreeze.MalformedUsageCloses: stated for a limit that is fixed within the window.
- CacheKeys.CacheKeysTell: the keyed hash itself is the abstract digest, and strings and numbers are written by abstract one-to-one functions.
- Governors.Governor.ReserveLocalBudget: one call reads the clock once, state objects live in an explicit heap of named references rather than as Dafny objects, and the refusal's audit reference is not modelled.
- Governors.Governor.FinishLocalBudget: the spend read back for gauges and alerts after the debit is not modelled.
- Governors.Governor.Settle: token quotas live in the limiter, and the price of a usage record is a parameter; the pricing table is not part of this model.
- PreChecks.PreCheck: the limiter's and the lease gate's answers are parameters, and the denial's message and audit reference are not modelled; one call reads the clock once.
- AuditChain.VerifyIsTamperEvident: an instance that appears in several segments is compared by its last one, which is all that verification reports.
- AuditRuns.Histories: the processes' events are non-empty and their ids differ; read errors of the file at boot, which also refuse, are not modelled.
- AuditRestarts.Lives: stated for processes whose WAL appends all succeed and whose truncations are atomic, as a failed append may leave a torn record that the next boot refuses.
- AuditWriter.Writer.Loop: the queue itself, back-pressure and closing are not modelled; a step is one record taken from the queue. Sinks are files.
- Jwks.KeySet.Settle: parsing of tokens and key sets, HTTP and time-outs are parameters; a panic during the fetch counts as a failed fetch.
- ClassifierRun.Run: the entries of one run are taken in order, each with arbitrary cache traffic of others between its own accesses.
- The calendar is any function from an instant and a window to the window's end; time zones are not modelled.
- HTTP handlers, authentication, configuration, stores behind SQL, providers, anchoring, the console, metrics and alerts would add only plumbing.
- The limiter's buckets use floating point and are not modelled; their answers are parameters.
