/** The settlement engine end to end: the suggested transfers of a group,
    the replacement of the group's PENDING rows by them, and a user's
    summary of what is pending for them. */
module Settlements {
  import opened Ledger
  import opened Balances
  import opened Partition
  import opened Matcher

  /** The balances of a group, folded from its expenses and its PAID rows. */
  function GroupBalances(groupId: GroupId, expenses: seq<Expense>, rows: seq<Settlement>): BalanceMap {
    Accumulate(GroupExpenses(expenses, groupId), Select(rows, GroupStatus(groupId, Paid), true))
  }

  /** What a user is owed (positive) or owes (negative) in a group, over its
      expenses and PAID rows. */
  function GroupNet(u: UserId, groupId: GroupId, expenses: seq<Expense>, rows: seq<Settlement>): Amount {
    Net(u, GroupExpenses(expenses, groupId), Select(rows, GroupStatus(groupId, Paid), true))
  }

  /** The transfers suggested for a group. */
  function GroupSettlements(groupId: GroupId, expenses: seq<Expense>, rows: seq<Settlement>): seq<Transfer> {
    var b := GroupBalances(groupId, expenses, rows);
    GreedySweep(Debtors(b), Creditors(b)).transfers
  }

  /** Reads the group's expenses and PAID rows, folds the balances, splits
      them into debtors and creditors and matches them. */
  method CalculateGroupSettlements(groupId: GroupId, expenses: seq<Expense>, rows: seq<Settlement>)
    returns (transfers: seq<Transfer>)
    ensures transfers == GroupSettlements(groupId, expenses, rows)
  {
    var groupExpenses := GroupExpenses(expenses, groupId);
    var paidSettlements := Select(rows, GroupStatus(groupId, Paid), true);
    var balances := AccumulateBalances(groupExpenses, paidSettlements);
    var debtors := Debtors(balances);
    var creditors := Creditors(balances);
    transfers := MatchDebts(debtors, creditors);
  }

  /** Where a user stands on each side of the partition of a group. */
  lemma GroupSides(groupId: GroupId, expenses: seq<Expense>, rows: seq<Settlement>, u: UserId)
    ensures AmountOf(Debtors(GroupBalances(groupId, expenses, rows)), u) == Due(GroupNet(u, groupId, expenses, rows), true)
    ensures AmountOf(Creditors(GroupBalances(groupId, expenses, rows)), u) == Due(GroupNet(u, groupId, expenses, rows), false)
  {
    var es, paid := GroupExpenses(expenses, groupId), Select(rows, GroupStatus(groupId, Paid), true);
    var b := Accumulate(es, paid);
    assert b == GroupBalances(groupId, expenses, rows);
    AccumulateOrder(es, paid);
    Partitioned(b, u);
    AccumulateBalance(es, paid, u);
    assert Get(b, u) == GroupNet(u, groupId, expenses, rows);
  }

  /** Every suggested transfer moves a positive amount from a user who owes
      money in the group to a different user who is owed money. */
  lemma SettlementsShape(groupId: GroupId, expenses: seq<Expense>, rows: seq<Settlement>)
    ensures forall t :: t in GroupSettlements(groupId, expenses, rows) ==>
              && t.amount > 0.0 && t.fromUserId != t.toUserId
              && GroupNet(t.fromUserId, groupId, expenses, rows) < 0.0
              && GroupNet(t.toUserId, groupId, expenses, rows) > 0.0
  {
    var b := GroupBalances(groupId, expenses, rows);
    var ds, cs := Debtors(b), Creditors(b);
    SweepParties(ds, cs);
    PartitionDisjoint(b);
    SweepSeparates(ds, cs);
    forall t | t in GroupSettlements(groupId, expenses, rows)
      ensures GroupNet(t.fromUserId, groupId, expenses, rows) < 0.0 && GroupNet(t.toUserId, groupId, expenses, rows) > 0.0
    {
      ListedHasAmount(ds, t.fromUserId);
      ListedHasAmount(cs, t.toUserId);
      GroupSides(groupId, expenses, rows, t.fromUserId);
      GroupSides(groupId, expenses, rows, t.toUserId);
    }
  }

  /** A user listed once in a list of positive amounts carries a positive amount. */
  lemma ListedHasAmount(ps: seq<Party>, u: UserId)
    requires Positive(ps) && u in PartyUsers(ps)
    ensures AmountOf(ps, u) > 0.0
    decreases |ps|
  {
    assert ps[0].amount > 0.0;
    AmountOfNonnegative(ps[1..], u);
    if ps[0].userId != u {
      assert PartyUsers(ps[1..]) == PartyUsers(ps)[1..];
      ListedHasAmount(ps[1..], u);
    }
  }

  /** Nobody is asked to pay more than they owe, nor to receive more than
      they are owed. */
  lemma SettlementsBounded(groupId: GroupId, expenses: seq<Expense>, rows: seq<Settlement>, u: UserId)
    ensures Sent(GroupSettlements(groupId, expenses, rows), u) <= Due(GroupNet(u, groupId, expenses, rows), true)
    ensures Received(GroupSettlements(groupId, expenses, rows), u) <= Due(GroupNet(u, groupId, expenses, rows), false)
  {
    var b := GroupBalances(groupId, expenses, rows);
    SweepBounded(Debtors(b), Creditors(b), u);
    GroupSides(groupId, expenses, rows, u);
  }

  /** When each of the group's expenses is split in full, carrying out the
      suggested transfers leaves every member of the group settled up:
      what a user receives less what they pay is what they are owed. */
  lemma SettlementsSettle(groupId: GroupId, expenses: seq<Expense>, rows: seq<Settlement>)
    requires forall e :: e in expenses && e.groupId == groupId ==> SplitTotal(e.splits) == e.amount
    ensures forall u :: Received(GroupSettlements(groupId, expenses, rows), u) - Sent(GroupSettlements(groupId, expenses, rows), u)
                        == GroupNet(u, groupId, expenses, rows)
  {
    var es, paid := GroupExpenses(expenses, groupId), Select(rows, GroupStatus(groupId, Paid), true);
    var b := GroupBalances(groupId, expenses, rows);
    BalancedLedger(es, paid);
    PartitionTotal(b);
    SweepBalanced(Debtors(b), Creditors(b));
    forall u
      ensures Received(GroupSettlements(groupId, expenses, rows), u) - Sent(GroupSettlements(groupId, expenses, rows), u)
              == GroupNet(u, groupId, expenses, rows)
    {
      GroupSides(groupId, expenses, rows, u);
    }
  }

  // ---------------------------------------------------------------------
  // Recompute: replacing the group's PENDING rows

  /** The group's new PENDING rows: one per transfer, in emission order. */
  function PendingRows(groupId: GroupId, ts: seq<Transfer>): (r: seq<Settlement>)
    ensures |r| == |ts|
    decreases |ts|
  {
    if ts == [] then []
    else
      var t := ts[|ts| - 1];
      PendingRows(groupId, ts[..|ts| - 1]) + [Settlement(groupId, t.fromUserId, t.toUserId, t.amount, Pending)]
  }

  /** The table once the group's PENDING rows are replaced by `ts`. */
  function Replaced(rows: seq<Settlement>, groupId: GroupId, ts: seq<Transfer>): seq<Settlement> {
    Select(rows, GroupStatus(groupId, Pending), false) + PendingRows(groupId, ts)
  }

  /** The i-th new row carries the i-th transfer. */
  lemma {:induction false} PendingRowsAt(groupId: GroupId, ts: seq<Transfer>)
    ensures forall i :: 0 <= i < |ts| ==>
              PendingRows(groupId, ts)[i] == Settlement(groupId, ts[i].fromUserId, ts[i].toUserId, ts[i].amount, Pending)
    decreases |ts|
  {
    if ts != [] {
      PendingRowsAt(groupId, ts[..|ts| - 1]);
    }
  }

  /** The settlement table, whose rows the recompute deletes and inserts. */
  class SettlementTable {
    var rows: seq<Settlement>

    constructor (rows: seq<Settlement>)
      ensures this.rows == rows
    {
      this.rows := rows;
    }

    /** One transaction: the group's PENDING rows are deleted, then the
        transfers are inserted as PENDING rows when there are any. */
    method ReplacePending(groupId: GroupId, transfers: seq<Transfer>)
      modifies this
      ensures rows == Replaced(old(rows), groupId, transfers)
    {
      rows := Select(rows, GroupStatus(groupId, Pending), false);
      if |transfers| > 0 {
        rows := rows + PendingRows(groupId, transfers);
      } else {
        assert rows + PendingRows(groupId, transfers) == rows;
      }
    }

    /** Recomputes the group's suggested transfers and stores them as its
        PENDING rows. */
    method UpdateGroupSettlements(groupId: GroupId, expenses: seq<Expense>)
      modifies this
      ensures rows == Replaced(old(rows), groupId, GroupSettlements(groupId, expenses, old(rows)))
    {
      var newSettlements := CalculateGroupSettlements(groupId, expenses, rows);
      ReplacePending(groupId, newSettlements);
    }
  }

  /** Rows other than the group's PENDING rows are kept, in their order. */
  lemma ReplaceKeepsOthers(rows: seq<Settlement>, groupId: GroupId, ts: seq<Transfer>)
    ensures Select(Replaced(rows, groupId, ts), GroupStatus(groupId, Pending), false)
         == Select(rows, GroupStatus(groupId, Pending), false)
  {
    var kept := Select(rows, GroupStatus(groupId, Pending), false);
    SelectAppend(kept, PendingRows(groupId, ts), GroupStatus(groupId, Pending), false);
    SelectKeeps(rows, GroupStatus(groupId, Pending), false);
    SelectAll(kept, GroupStatus(groupId, Pending), false);
    PendingRowsAt(groupId, ts);
    SelectNone(PendingRows(groupId, ts), GroupStatus(groupId, Pending), false);
  }

  /** In particular the group's PAID rows and every row of another group
      are the same rows in the same order. */
  lemma ReplaceKeepsPaidAndOtherGroups(rows: seq<Settlement>, groupId: GroupId, ts: seq<Transfer>, g: GroupId, st: Status)
    requires g != groupId || st == Paid
    ensures Select(Replaced(rows, groupId, ts), GroupStatus(g, st), true) == Select(rows, GroupStatus(g, st), true)
  {
    var kept := Select(rows, GroupStatus(groupId, Pending), false);
    SelectAppend(kept, PendingRows(groupId, ts), GroupStatus(g, st), true);
    SelectAfterDelete(rows, GroupStatus(groupId, Pending), GroupStatus(g, st));
    PendingRowsAt(groupId, ts);
    SelectNone(PendingRows(groupId, ts), GroupStatus(g, st), true);
  }

  /** The group's PENDING rows are exactly the transfers, in emission order. */
  lemma ReplacePendingRows(rows: seq<Settlement>, groupId: GroupId, ts: seq<Transfer>)
    ensures Select(Replaced(rows, groupId, ts), GroupStatus(groupId, Pending), true) == PendingRows(groupId, ts)
  {
    var kept := Select(rows, GroupStatus(groupId, Pending), false);
    SelectAppend(kept, PendingRows(groupId, ts), GroupStatus(groupId, Pending), true);
    SelectKeeps(rows, GroupStatus(groupId, Pending), false);
    SelectNone(kept, GroupStatus(groupId, Pending), true);
    PendingRowsAt(groupId, ts);
    SelectAll(PendingRows(groupId, ts), GroupStatus(groupId, Pending), true);
    assert [] + PendingRows(groupId, ts) == PendingRows(groupId, ts);
  }

  /** The suggestion reads only the group's expenses and PAID rows, so
      replacing the PENDING rows does not change it. */
  lemma RecomputeStable(rows: seq<Settlement>, groupId: GroupId, expenses: seq<Expense>, ts: seq<Transfer>)
    ensures GroupSettlements(groupId, expenses, Replaced(rows, groupId, ts)) == GroupSettlements(groupId, expenses, rows)
  {
    ReplaceKeepsPaidAndOtherGroups(rows, groupId, ts, groupId, Paid);
  }

  /** Recomputing twice with no change to the ledger leaves the table as
      recomputing once does. */
  lemma RecomputeIdempotent(rows: seq<Settlement>, groupId: GroupId, expenses: seq<Expense>)
    ensures
      var once := Replaced(rows, groupId, GroupSettlements(groupId, expenses, rows));
      Replaced(once, groupId, GroupSettlements(groupId, expenses, once)) == once
  {
    var ts := GroupSettlements(groupId, expenses, rows);
    RecomputeStable(rows, groupId, expenses, ts);
    ReplaceKeepsOthers(rows, groupId, ts);
  }

  // ---------------------------------------------------------------------
  // A user's summary

  /** What the user has still to pay over the listed rows. */
  function Owing(rows: seq<Settlement>, u: UserId): Amount
    decreases |rows|
  {
    if rows == [] then 0.0
    else
      var s := rows[|rows| - 1];
      Owing(rows[..|rows| - 1], u) + (if s.fromUserId == u then s.amount else 0.0)
  }

  /** What the user is still owed over the listed rows: every row that the
      user does not pay. */
  function Owed(rows: seq<Settlement>, u: UserId): Amount
    decreases |rows|
  {
    if rows == [] then 0.0
    else
      var s := rows[|rows| - 1];
      Owed(rows[..|rows| - 1], u) + (if s.fromUserId != u then s.amount else 0.0)
  }

  datatype Summary = Summary(settlements: seq<Settlement>, totalOwed: Amount, totalOwing: Amount, netBalance: Amount)

  /** The user's PENDING rows in the group, with what they owe, what they
      are owed and the difference. */
  method GetUserSettlementSummary(rows: seq<Settlement>, userId: UserId, groupId: GroupId) returns (summary: Summary)
    ensures summary.settlements == Select(rows, UserGroupStatus(userId, groupId, Pending), true)
    ensures summary.totalOwing == Owing(summary.settlements, userId)
    ensures summary.totalOwed == Owed(summary.settlements, userId)
    ensures summary.netBalance == summary.totalOwed - summary.totalOwing
  {
    var settlements := Select(rows, UserGroupStatus(userId, groupId, Pending), true);
    var totalOwed, totalOwing := 0.0, 0.0;
    for i := 0 to |settlements|
      invariant totalOwing == Owing(settlements[..i], userId)
      invariant totalOwed == Owed(settlements[..i], userId)
    {
      assert settlements[..i + 1][..i] == settlements[..i];
      var settlement := settlements[i];
      if settlement.fromUserId == userId {
        totalOwing := totalOwing + settlement.amount;
      } else {
        totalOwed := totalOwed + settlement.amount;
      }
    }
    assert settlements[..|settlements|] == settlements;
    summary := Summary(settlements, totalOwed, totalOwing, totalOwed - totalOwing);
  }

  /** Appending a row adds its amount to what the user owes or is owed. */
  lemma SummarySnoc(rows: seq<Settlement>, s: Settlement, u: UserId)
    ensures Owing(rows + [s], u) == Owing(rows, u) + (if s.fromUserId == u then s.amount else 0.0)
    ensures Owed(rows + [s], u) == Owed(rows, u) + (if s.fromUserId != u then s.amount else 0.0)
  {
    assert (rows + [s])[..|rows|] == rows;
  }

  /** Over the rows stored for a list of transfers, a user who never pays
      themself owes what they send and is owed what they receive. */
  lemma {:induction false} PendingSummary(groupId: GroupId, ts: seq<Transfer>, u: UserId)
    requires forall i :: 0 <= i < |ts| ==> ts[i].fromUserId != ts[i].toUserId
    ensures Owing(Select(PendingRows(groupId, ts), UserGroupStatus(u, groupId, Pending), true), u) == Sent(ts, u)
    ensures Owed(Select(PendingRows(groupId, ts), UserGroupStatus(u, groupId, Pending), true), u) == Received(ts, u)
    decreases |ts|
  {
    if ts != [] {
      var ts', t := ts[..|ts| - 1], ts[|ts| - 1];
      PendingSummary(groupId, ts', u);
      assert ts == ts' + [t];
      TransferSnoc(ts', t, u);
      PendingStep(groupId, ts', t, u);
    }
  }

  /** Storing one more transfer adds it to the sums of the user it involves. */
  lemma PendingStep(groupId: GroupId, ts: seq<Transfer>, t: Transfer, u: UserId)
    requires t.fromUserId != t.toUserId
    ensures
      var w := UserGroupStatus(u, groupId, Pending);
      var before, after := Select(PendingRows(groupId, ts), w, true), Select(PendingRows(groupId, ts + [t]), w, true);
      && Owing(after, u) == Owing(before, u) + (if t.fromUserId == u then t.amount else 0.0)
      && Owed(after, u) == Owed(before, u) + (if t.toUserId == u then t.amount else 0.0)
  {
    var row := Settlement(groupId, t.fromUserId, t.toUserId, t.amount, Pending);
    var w := UserGroupStatus(u, groupId, Pending);
    assert (ts + [t])[..|ts|] == ts;
    assert PendingRows(groupId, ts + [t]) == PendingRows(groupId, ts) + [row];
    SelectSnoc(PendingRows(groupId, ts), row, w, true);
    var sel := Select(PendingRows(groupId, ts), w, true);
    if Matches(w, row) {
      SummarySnoc(sel, row, u);
    } else {
      assert sel + [] == sel;
    }
  }

  /** After a recompute of a group whose expenses are each split in full,
      a member's summary reports as their net balance exactly what the
      ledger says they are owed (or, if negative, owe). */
  lemma SummaryAfterRecompute(rows: seq<Settlement>, groupId: GroupId, expenses: seq<Expense>, u: UserId)
    requires forall e :: e in expenses && e.groupId == groupId ==> SplitTotal(e.splits) == e.amount
    ensures
      var mine := Select(Replaced(rows, groupId, GroupSettlements(groupId, expenses, rows)),
                         UserGroupStatus(u, groupId, Pending), true);
      Owed(mine, u) - Owing(mine, u) == GroupNet(u, groupId, expenses, rows)
  {
    var ts := GroupSettlements(groupId, expenses, rows);
    var kept := Select(rows, GroupStatus(groupId, Pending), false);
    var w := UserGroupStatus(u, groupId, Pending);
    SelectAppend(kept, PendingRows(groupId, ts), w, true);
    SelectKeeps(rows, GroupStatus(groupId, Pending), false);
    SelectNone(kept, w, true);
    assert [] + Select(PendingRows(groupId, ts), w, true) == Select(PendingRows(groupId, ts), w, true);
    SettlementsShape(groupId, expenses, rows);
    PendingSummary(groupId, ts, u);
    SettlementsSettle(groupId, expenses, rows);
  }
}
