# Settlement engine of the group-expense service

This project models the settlement engine of a group-expense service,
`src/utils/settlementCalculator.ts`, in Dafny, and proves properties of the model.
Members of a group record expenses. Each expense is fronted by one member and split
into shares owed by members. The engine suggests transfers that settle everyone up.
It has three entry points:

- `calculateGroupSettlements` does the calculation in three steps.
  - It reads the group's expenses and its PAID settlement rows.
  - It folds them into one signed balance per user.
  - It splits the users into debtors and creditors, then matches them greedily with two cursors.
- `updateGroupSettlements` replaces the group's PENDING rows with the freshly computed
  transfers, in one transaction.
- `getUserSettlementSummary` sums a user's PENDING rows in a group into what they owe,
  what they are owed and the difference.

Amounts are Dafny `real`. This keeps them exact, standing in for the arbitrary-precision
decimal the store keeps money in. Reads from the store are inputs: a sequence of
expenses with their splits, and the settlement table as a sequence of rows.

Modules:

- `Ledger` holds the records (expenses, splits, settlement rows, computed transfers)
  and the row filters the engine puts on the table (`Select`), with their laws.
- `Balances` is the balance fold.
  - The method `AccumulateBalances` updates an insertion-ordered dictionary step by step,
    with the same nested loops as the source.
  - It is proved equal to the function `Accumulate`, which applies a flat list of postings.
  - The lemmas relate `Accumulate` to an independent per-user definition (`Net`) and to
    the zero-sum property.
- `Partition` holds the debtor/creditor split, which is the pure filter/map part of the source.
- `Matcher` is the two-pointer loop (`MatchDebts`).
  - It is proved equal to a recursive reference sweep (`GreedySweep`).
  - Conservation, bounds, termination and residue are proved about the sweep.
- `Settlements` composes the pieces.
  - `CalculateGroupSettlements` is the whole calculation.
  - `SettlementTable` is a class whose `rows` field the recompute deletes from and inserts into.
  - It also holds the summary method and the end-to-end lemmas.

A JavaScript `Decimal` object is always truthy, so the source's `if (!balances[u])` means
"u has no entry yet". The model writes it that way: a user already present at zero is
not reset.

## Model

| member | source | states |
|---|---|---|
| Ledger.GroupExpenses | src/utils/settlementCalculator.ts:18-23 | the expenses read are exactly those of the group, each as many times as it is stored |
| Ledger.GroupExpensesAppend | src/utils/settlementCalculator.ts:18-23 | the read keeps the stored order: reading a concatenation reads each part in turn |
| Ledger.GroupExpensesOne | src/utils/settlementCalculator.ts:18-23 | a single expense is read exactly when it belongs to the group |
| Ledger.Select | src/utils/settlementCalculator.ts:25-30 | a filtered read (or what a filtered delete leaves) returns no more rows than the table holds (which rows, `SelectMembers` states) |
| Ledger.SelectMembers | src/utils/settlementCalculator.ts:25-30 | a filtered read returns exactly the table's rows that match the filter (the group's PAID rows here) |
| Ledger.SelectAfterDelete | src/utils/settlementCalculator.ts:131-136 | deleting rows one filter picks out does not change what a disjoint filter finds |
| Balances.AccumulateBalances | src/utils/settlementCalculator.ts:32-65 | the in-place fold over expenses, splits and PAID rows yields the dictionary `Accumulate` defines |
| Balances.ApplySplits | src/utils/settlementCalculator.ts:44-49 | the inner loop lowers each split user's balance by its amount owed; a user enters at zero on first touch |
| Balances.ApplyPaid | src/utils/settlementCalculator.ts:52-65 | each PAID row raises its payer's balance and lowers its receiver's; both enter at zero on first touch |
| Balances.AccumulateBalance | src/utils/settlementCalculator.ts:34-65 | each user's balance is what they fronted, minus their shares, plus PAID amounts they paid, minus those they received |
| Balances.AccumulateOrder | src/utils/settlementCalculator.ts:38-62 | the dictionary lists each user once, exactly the users the ledger names, in the order it first names them |
| Balances.AccumulateTotal | src/utils/settlementCalculator.ts:32-65 | the balances sum to the total by which expenses exceed their splits; PAID rows add nothing, even from a user to themself |
| Balances.BalancedLedger | src/utils/settlementCalculator.ts:32-65 | when every expense is split in full, the balances sum to zero |
| Partition.Due | src/utils/settlementCalculator.ts:74-86 | what a balance puts on a side is never negative, and positive exactly when its sign fits that side |
| Partition.Side | src/utils/settlementCalculator.ts:74-86 | filtering the dictionary by sign and mapping each user to its magnitude yields only positive amounts and no more parties than the dictionary has users; `Debtors` and `Creditors` are its two instances |
| Partition.SideMembers | src/utils/settlementCalculator.ts:74-86 | a side lists exactly the users whose balance has that sign, each carrying its magnitude |
| Partition.Partitioned | src/utils/settlementCalculator.ts:67-86 | debtors carry minus the balance of users below zero, creditors the balance of users above it; a user at zero is on neither side |
| Partition.PartitionOrder | src/utils/settlementCalculator.ts:67-86 | each side names a user at most once, in the dictionary's order |
| Partition.PartitionDisjoint | src/utils/settlementCalculator.ts:74-86 | no user is both a debtor and a creditor |
| Partition.PartitionTotal | src/utils/settlementCalculator.ts:67-86 | creditors' total less debtors' total is the sum of all balances |
| Matcher.Min | src/utils/settlementCalculator.ts:104 | the amount of a turn is at most both current amounts and equals one of them |
| Matcher.Reduce | src/utils/settlementCalculator.ts:114-122 | after a turn a list's head has given up the amount paid; the list stays positive and is one party shorter exactly when the head reached zero |
| Matcher.GreedySweep | src/utils/settlementCalculator.ts:93-123 | the loop on values: the parties left when it stops never outnumber the parties it started with |
| Matcher.MatchDebts | src/utils/settlementCalculator.ts:88-125 | the two-cursor loop, mutating the records in place, emits exactly the transfers of the reference sweep |
| Matcher.LoopStep | src/utils/settlementCalculator.ts:97-122 | one turn of the loop emits the sweep's first transfer, and the cursors land on the rest of the sweep |
| Matcher.SweepConserves | src/utils/settlementCalculator.ts:104-123 | per user, what a debtor pays plus what is left owing is what they owed; likewise for creditors |
| Matcher.SweepTotals | src/utils/settlementCalculator.ts:104-123 | the total transferred plus what is left on either side is that side's original total |
| Matcher.SweepExit | src/utils/settlementCalculator.ts:93-96 | the loop ends only when one side is used up, and what is left on the other side is positive |
| Matcher.SweepParties | src/utils/settlementCalculator.ts:104-112 | every transfer has a positive amount, from a debtor to a creditor |
| Matcher.SweepCount | src/utils/settlementCalculator.ts:93-123 | at most #debtors + #creditors - 1 transfers are emitted, and none when a side is empty |
| Matcher.SweepBounded | src/utils/settlementCalculator.ts:104-115 | no debtor pays more than they owe and no creditor receives more than they are owed |
| Matcher.SweepEmitsMin | src/utils/settlementCalculator.ts:93-123 | the total transferred is the smaller of total debt and total credit |
| Matcher.SweepBalanced | src/utils/settlementCalculator.ts:93-123 | when total debt equals total credit, both sides run out together and every user pays or receives exactly their amount |
| Matcher.SweepResidue | src/utils/settlementCalculator.ts:93-125 | otherwise the loop still returns normally, leaving exactly the difference on the larger side |
| Matcher.SweepSeparates | src/utils/settlementCalculator.ts:106-111 | when no user is on both sides, no transfer goes from a user to themself |
| Settlements.CalculateGroupSettlements | src/utils/settlementCalculator.ts:15-125 | reading, folding, partitioning and matching yields the group's suggested transfers |
| Settlements.GroupSides | src/utils/settlementCalculator.ts:18-86 | a user's amount on each side is what the group's ledger says they owe or are owed |
| Settlements.SettlementsShape | src/utils/settlementCalculator.ts:67-112 | every suggested transfer is positive and goes from a user who owes in the group to a different user who is owed |
| Settlements.SettlementsBounded | src/utils/settlementCalculator.ts:32-123 | nobody is asked to pay more than they owe, or told to receive more than they are owed, in the group |
| Settlements.SettlementsSettle | src/utils/settlementCalculator.ts:32-123 | when every expense is split in full, each user receives minus pays exactly what the ledger says they are owed |
| Settlements.PendingRowsAt | src/utils/settlementCalculator.ts:139-145 | the i-th inserted row is the i-th transfer, of the group, with status PENDING |
| Settlements.SettlementTable.ReplacePending | src/utils/settlementCalculator.ts:130-147 | the group's PENDING rows are deleted, then the transfers are appended as PENDING rows |
| Settlements.SettlementTable.UpdateGroupSettlements | src/utils/settlementCalculator.ts:128-148 | the table afterwards holds the transfers computed from the table as it was before |
| Settlements.ReplaceKeepsOthers | src/utils/settlementCalculator.ts:131-136 | every row other than the group's PENDING rows is kept, in order |
| Settlements.ReplaceKeepsPaidAndOtherGroups | src/utils/settlementCalculator.ts:130-147 | the group's PAID rows, and every row of another group, are unchanged |
| Settlements.ReplacePendingRows | src/utils/settlementCalculator.ts:138-145 | afterwards the group's PENDING rows are exactly the transfers, in emission order |
| Settlements.RecomputeStable | src/utils/settlementCalculator.ts:18-30 | replacing the PENDING rows does not change the suggestion, which reads only expenses and PAID rows |
| Settlements.RecomputeIdempotent | src/utils/settlementCalculator.ts:128-148 | recomputing twice with no ledger change leaves the table as one recompute does, up to row ids and timestamps, given a stable read order |
| Settlements.GetUserSettlementSummary | src/utils/settlementCalculator.ts:150-191 | the summary lists the user's PENDING rows in the group; rows they pay go to owing, all others to owed; net is owed minus owing |
| Settlements.PendingSummary | src/utils/settlementCalculator.ts:175-184 | over the rows stored for transfers between distinct users, a user owes what they send and is owed what they receive |
| Settlements.SummaryAfterRecompute | src/utils/settlementCalculator.ts:128-191 | after a recompute of a fully split group, a member's net balance in the summary is their ledger balance |

## Left out

- Store I/O is not modelled. The `findMany`, `deleteMany` and `createMany` calls become input
  sequences and updates of the `rows` field.
- The `$transaction` is one atomic step of `ReplacePending`. Its isolation, and races between
  concurrent recomputes, are concurrency concerns.
- Settlements.GetUserSettlementSummary: the totals stay exact. The source's conversion of the
  totals to floating-point numbers (`toNumber`, lines 188-190) is not modelled.
- Settlements.GetUserSettlementSummary: the rows carry no user or group details. The source's
  `include` of names and e-mails is a join in the store.
- Balances.AccumulateBalances: the dictionary is an insertion-ordered association. Object key
  order in JavaScript puts integer-like keys first. The ids the service uses are not integer-like,
  so the model's order is exact for them.
- Matcher.MatchDebts: the source's debtor and creditor lists are arrays of mutable records. The
  model keeps them as sequence locals whose records are replaced in place. No other structure
  holds those records, so there is no aliasing to capture.
- The guard `if (!debtor || !creditor) break;` (lines 100-102) is not modelled. It cannot fire:
  both cursors are in bounds under the loop condition, and the model's indexing is checked at
  that point.
- The HTTP controllers, chat, e-mail, routing and authentication code are outside the engine,
  and none of them is modelled.
  - No shown controller calls `updateGroupSettlements`.
  - Marking a settlement paid deletes its row (src/controllers/settlementController.ts:246-250).
    So no PENDING-to-PAID transition is modelled, and PAID rows are only input.
- A mismatch between total debt and total credit raises no error. The loop stops and leaves the
  residue unmatched (`SweepResidue`, src/utils/settlementCalculator.ts:93-125).
- The summary's `groupId` is a required argument (src/utils/settlementCalculator.ts:152), so no
  cross-group summary is modelled.
- Settlement rows carry no `id` or `createdAt`. The insert at lines 139-145 gives every row a fresh
  id and timestamp, so a second recompute stores new rows. `RecomputeIdempotent` holds with those
  fields ignored.
- The reads at lines 18-23, 25-30 and 160-173 have no ordering clause, so the store chooses the
  order of the rows it returns. The model reads in table order. The dictionary's first-touch order,
  and so which debtor is paired with which creditor, follows the read order. The claims about
  emission order and idempotence assume the store returns rows in the same order each time.
- A failed `$transaction` (lines 130-147) rolls back and the error reaches the caller of
  `updateGroupSettlements`. The model has no failure outcome: `ReplacePending` always commits.
