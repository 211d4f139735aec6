/** The records the settlement engine reads and writes: expenses with their
    splits, and rows of the settlement table. Amounts are exact: `real`
    stands for the arbitrary-precision decimal the store keeps money in. */
module Ledger {

  type UserId = string
  type GroupId = string
  type Amount = real

  /** One member's share of one expense. */
  datatype Split = Split(userId: UserId, amountOwed: Amount)

  /** An expense fronted by `paidById`, read together with its splits. */
  datatype Expense = Expense(groupId: GroupId, paidById: UserId, amount: Amount, splits: seq<Split>)

  datatype Status = Pending | Paid

  /** A row of the settlement table: `fromUserId` owes `toUserId`. */
  datatype Settlement = Settlement(groupId: GroupId, fromUserId: UserId, toUserId: UserId,
                                   amount: Amount, status: Status)

  /** A transfer computed by the debt matcher, before it is stored. */
  datatype Transfer = Transfer(fromUserId: UserId, toUserId: UserId, amount: Amount)

  /** The expenses of one group, in the order the store returns them. */
  function GroupExpenses(expenses: seq<Expense>, groupId: GroupId): (r: seq<Expense>)
    ensures |r| <= |expenses|
    ensures forall e :: e in r <==> e in expenses && e.groupId == groupId
    ensures forall e :: multiset(r)[e] == if e.groupId == groupId then multiset(expenses)[e] else 0
  {
    if expenses == [] then []
    else
      var rest := GroupExpenses(expenses[..|expenses| - 1], groupId);
      var e := expenses[|expenses| - 1];
      assert expenses == expenses[..|expenses| - 1] + [e];
      if e.groupId == groupId then rest + [e] else rest
  }

  /** Reading keeps the expenses in the order they are stored: it
      distributes over concatenation. */
  lemma {:induction false} GroupExpensesAppend(a: seq<Expense>, b: seq<Expense>, groupId: GroupId)
    ensures GroupExpenses(a + b, groupId) == GroupExpenses(a, groupId) + GroupExpenses(b, groupId)
    decreases |b|
  {
    if b == [] {
      assert a + b == a;
    } else {
      var b' := b[..|b| - 1];
      assert (a + b)[..|a + b| - 1] == a + b';
      GroupExpensesAppend(a, b', groupId);
    }
  }

  /** A single expense is kept when it belongs to the group and dropped otherwise. */
  lemma GroupExpensesOne(e: Expense, groupId: GroupId)
    ensures GroupExpenses([e], groupId) == if e.groupId == groupId then [e] else []
  {
    assert [e][..0] == [];
  }

  /** The filters the engine puts on the settlement table. */
  datatype Where =
    | GroupStatus(groupId: GroupId, status: Status)
      // rows of a group with a given status
    | UserGroupStatus(userId: UserId, groupId: GroupId, status: Status)
      // rows of a group with a given status in which the user is either party

  predicate Matches(w: Where, s: Settlement) {
    match w
    case GroupStatus(g, st) => s.groupId == g && s.status == st
    case UserGroupStatus(u, g, st) =>
      (s.fromUserId == u || s.toUserId == u) && s.status == st && s.groupId == g
  }

  /** The rows for which `Matches(w, _) == keep`, in table order: with `keep`
      these are what a `findMany` returns, without it what a `deleteMany` leaves. */
  function Select(rows: seq<Settlement>, w: Where, keep: bool): (r: seq<Settlement>)
    ensures |r| <= |rows|
  {
    if rows == [] then []
    else
      var rest := Select(rows[..|rows| - 1], w, keep);
      var s := rows[|rows| - 1];
      if Matches(w, s) == keep then rest + [s] else rest
  }

  /** The rows selected are exactly those of the table the filter decides
      to keep. */
  lemma {:induction false} SelectMembers(rows: seq<Settlement>, w: Where, keep: bool)
    ensures forall s :: s in Select(rows, w, keep) <==> s in rows && Matches(w, s) == keep
    decreases |rows|
  {
    if rows != [] {
      SelectMembers(rows[..|rows| - 1], w, keep);
      assert rows == rows[..|rows| - 1] + [rows[|rows| - 1]];
    }
  }

  /** Selecting distributes over concatenation: rows keep their relative order. */
  lemma {:induction false} SelectAppend(a: seq<Settlement>, b: seq<Settlement>, w: Where, keep: bool)
    ensures Select(a + b, w, keep) == Select(a, w, keep) + Select(b, w, keep)
    decreases |b|
  {
    if b == [] {
      assert a + b == a;
    } else {
      var b' := b[..|b| - 1];
      assert (a + b)[..|a + b| - 1] == a + b';
      SelectAppend(a, b', w, keep);
    }
  }

  /** Selecting rows all of which the filter keeps changes nothing. */
  lemma {:induction false} SelectAll(rows: seq<Settlement>, w: Where, keep: bool)
    requires forall i :: 0 <= i < |rows| ==> Matches(w, rows[i]) == keep
    ensures Select(rows, w, keep) == rows
    decreases |rows|
  {
    if rows != [] {
      var rows' := rows[..|rows| - 1];
      SelectAll(rows', w, keep);
      assert rows == rows' + [rows[|rows| - 1]];
    }
  }

  /** Selecting rows none of which the filter keeps yields nothing. */
  lemma {:induction false} SelectNone(rows: seq<Settlement>, w: Where, keep: bool)
    requires forall i :: 0 <= i < |rows| ==> Matches(w, rows[i]) != keep
    ensures Select(rows, w, keep) == []
    decreases |rows|
  {
    if rows != [] {
      SelectNone(rows[..|rows| - 1], w, keep);
    }
  }

  /** Every selected row is one the filter keeps. */
  lemma {:induction false} SelectKeeps(rows: seq<Settlement>, w: Where, keep: bool)
    ensures forall i :: 0 <= i < |Select(rows, w, keep)| ==> Matches(w, Select(rows, w, keep)[i]) == keep
    decreases |rows|
  {
    if rows != [] {
      SelectKeeps(rows[..|rows| - 1], w, keep);
    }
  }

  /** Removing rows that `w1` picks out does not change what a filter `w2`
      finds, when no row found by `w2` is picked out by `w1`. */
  lemma {:induction false} SelectAfterDelete(rows: seq<Settlement>, w1: Where, w2: Where)
    requires forall s :: Matches(w2, s) ==> !Matches(w1, s)
    ensures Select(Select(rows, w1, false), w2, true) == Select(rows, w2, true)
    decreases |rows|
  {
    if rows != [] {
      var rows' := rows[..|rows| - 1];
      var s := rows[|rows| - 1];
      SelectAfterDelete(rows', w1, w2);
      if !Matches(w1, s) {
        SelectAppend(Select(rows', w1, false), [s], w2, true);
      }
    }
  }

  /** Selecting from rows with one more row at the end. */
  lemma SelectSnoc(rows: seq<Settlement>, s: Settlement, w: Where, keep: bool)
    ensures Select(rows + [s], w, keep) == Select(rows, w, keep) + (if Matches(w, s) == keep then [s] else [])
  {
    assert (rows + [s])[..|rows|] == rows;
  }
}
