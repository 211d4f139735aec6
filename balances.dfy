/** The balance accumulator: one signed balance per user of a group, folded
    from the group's expenses, their splits and the PAID settlements.
    The balance dictionary is an insertion-ordered association: `order`
    lists the users in the order they were first touched, `value` holds
    each user's balance. */
module Balances {
  import opened Ledger

  datatype BalanceMap = BalanceMap(order: seq<UserId>, value: map<UserId, Amount>)

  const Empty := BalanceMap([], map[])

  predicate Distinct(s: seq<UserId>) {
    forall i, j :: 0 <= i < j < |s| ==> s[i] != s[j]
  }

  /** Every user is listed once, and exactly the listed users have a balance. */
  ghost predicate Valid(b: BalanceMap) {
    Distinct(b.order) && b.value.Keys == set u | u in b.order
  }

  function Lookup(m: map<UserId, Amount>, u: UserId): Amount {
    if u in m then m[u] else 0.0
  }

  /** A user's balance; a user never touched is settled up. */
  function Get(b: BalanceMap, u: UserId): Amount {
    Lookup(b.value, u)
  }

  /** One change to one user's balance. */
  datatype Posting = Posting(userId: UserId, delta: Amount)

  /** Applies a posting, entering its user at zero on first touch. */
  function Add(b: BalanceMap, p: Posting): BalanceMap {
    BalanceMap(if p.userId in b.value then b.order else b.order + [p.userId],
               b.value[p.userId := Lookup(b.value, p.userId) + p.delta])
  }

  /** Applies postings in order. */
  function Post(b: BalanceMap, ps: seq<Posting>): BalanceMap
    decreases |ps|
  {
    if ps == [] then b else Add(Post(b, ps[..|ps| - 1]), ps[|ps| - 1])
  }

  // ---------------------------------------------------------------------
  // The postings of a ledger, in the order the engine visits them

  /** Each split lowers its user's balance by the amount owed. */
  function SplitPostings(splits: seq<Split>): seq<Posting>
    decreases |splits|
  {
    if splits == [] then []
    else
      var s := splits[|splits| - 1];
      SplitPostings(splits[..|splits| - 1]) + [Posting(s.userId, -s.amountOwed)]
  }

  /** For each expense the payer is credited with the whole amount, then
      its splits are applied. */
  function ExpensePostings(expenses: seq<Expense>): seq<Posting>
    decreases |expenses|
  {
    if expenses == [] then []
    else
      var e := expenses[|expenses| - 1];
      ExpensePostings(expenses[..|expenses| - 1]) + [Posting(e.paidById, e.amount)] + SplitPostings(e.splits)
  }

  /** A PAID settlement raises the payer's balance and lowers the receiver's. */
  function PaidPostings(paid: seq<Settlement>): seq<Posting>
    decreases |paid|
  {
    if paid == [] then []
    else
      var s := paid[|paid| - 1];
      PaidPostings(paid[..|paid| - 1]) + [Posting(s.fromUserId, s.amount), Posting(s.toUserId, -s.amount)]
  }

  /** All expenses first, then all PAID settlements. */
  function Postings(expenses: seq<Expense>, paid: seq<Settlement>): seq<Posting> {
    ExpensePostings(expenses) + PaidPostings(paid)
  }

  /** The balances of a group. */
  function Accumulate(expenses: seq<Expense>, paid: seq<Settlement>): BalanceMap {
    Post(Empty, Postings(expenses, paid))
  }

  /** The fold as the engine runs it: the dictionary is updated in place,
      a user entering at zero the first time an expense, split or PAID
      settlement names them. */
  method AccumulateBalances(expenses: seq<Expense>, paid: seq<Settlement>) returns (balances: BalanceMap)
    ensures balances == Accumulate(expenses, paid)
  {
    balances := Empty;
    for i := 0 to |expenses|
      invariant balances == Post(Empty, ExpensePostings(expenses[..i]))
    {
      var expense := expenses[i];
      var paidBy := expense.paidById;
      var order, value := balances.order, balances.value;
      if paidBy !in value {
        order, value := order + [paidBy], value[paidBy := 0.0];
      }
      value := value[paidBy := value[paidBy] + expense.amount];
      TouchThenAdd(balances, paidBy, expense.amount, order, value);
      balances := BalanceMap(order, value);
      PostSnoc(Empty, ExpensePostings(expenses[..i]), Posting(paidBy, expense.amount));
      balances := ApplySplits(balances, expense.splits, ExpensePostings(expenses[..i]) + [Posting(paidBy, expense.amount)]);
      ExpensePostingsSnoc(expenses, i);
    }
    assert expenses[..|expenses|] == expenses;
    balances := ApplyPaid(balances, paid, ExpensePostings(expenses));
  }

  /** The inner loop of the fold: each split of one expense lowers its
      user's balance. */
  method ApplySplits(balances: BalanceMap, splits: seq<Split>, ghost done: seq<Posting>) returns (b: BalanceMap)
    requires balances == Post(Empty, done)
    ensures b == Post(Empty, done + SplitPostings(splits))
  {
    b := balances;
    assert done + SplitPostings(splits[..0]) == done;
    for j := 0 to |splits|
      invariant b == Post(Empty, done + SplitPostings(splits[..j]))
    {
      var split := splits[j];
      var order, value := b.order, b.value;
      if split.userId !in value {
        order, value := order + [split.userId], value[split.userId := 0.0];
      }
      value := value[split.userId := value[split.userId] - split.amountOwed];
      TouchThenAdd(b, split.userId, -split.amountOwed, order, value);
      b := BalanceMap(order, value);
      PostSplitStep(done, splits, j);
    }
    assert splits[..|splits|] == splits;
  }

  /** The second loop of the fold: each PAID settlement is credited to its
      payer and debited from its receiver, both entered at zero first. */
  method ApplyPaid(balances: BalanceMap, paid: seq<Settlement>, ghost done: seq<Posting>) returns (b: BalanceMap)
    requires balances == Post(Empty, done)
    ensures b == Post(Empty, done + PaidPostings(paid))
  {
    b := balances;
    assert done + PaidPostings(paid[..0]) == done;
    for i := 0 to |paid|
      invariant b == Post(Empty, done + PaidPostings(paid[..i]))
    {
      var settlement := paid[i];
      var from, to, amount := settlement.fromUserId, settlement.toUserId, settlement.amount;
      var order, value := b.order, b.value;
      if from !in value {
        order, value := order + [from], value[from := 0.0];
      }
      if to !in value {
        order, value := order + [to], value[to := 0.0];
      }
      value := value[from := value[from] + amount];
      value := value[to := value[to] - amount];
      TouchBothThenMove(b, settlement, order, value);
      b := BalanceMap(order, value);
      PaidPostingsSnoc(done, paid, i);
    }
    assert paid[..|paid|] == paid;
  }

  /** Entering `u` at zero if absent and then adding `x`, as the engine
      does, is one posting. */
  lemma TouchThenAdd(b: BalanceMap, u: UserId, x: Amount, order: seq<UserId>, value: map<UserId, Amount>)
    requires order == if u !in b.value then b.order + [u] else b.order
    requires value == (if u !in b.value then b.value[u := 0.0] else b.value)[u := Lookup(b.value, u) + x]
    ensures BalanceMap(order, value) == Add(b, Posting(u, x))
  {
  }

  /** Entering both parties first and then moving both balances, as the
      engine does, is two postings. */
  lemma TouchBothThenMove(b: BalanceMap, s: Settlement, order: seq<UserId>, value: map<UserId, Amount>)
    requires
      var from, to := s.fromUserId, s.toUserId;
      var o1, v1 := if from !in b.value then b.order + [from] else b.order, if from !in b.value then b.value[from := 0.0] else b.value;
      var o2, v2 := if to !in v1 then o1 + [to] else o1, if to !in v1 then v1[to := 0.0] else v1;
      order == o2 && value == v2[from := v2[from] + s.amount][to := v2[from := v2[from] + s.amount][to] - s.amount]
    ensures BalanceMap(order, value) == Add(Add(b, Posting(s.fromUserId, s.amount)), Posting(s.toUserId, -s.amount))
  {
  }

  lemma PostSnoc(b: BalanceMap, ps: seq<Posting>, p: Posting)
    ensures Post(b, ps + [p]) == Add(Post(b, ps), p)
  {
    assert (ps + [p])[..|ps + [p]| - 1] == ps;
  }

  lemma PostSplitStep(done: seq<Posting>, splits: seq<Split>, j: nat)
    requires j < |splits|
    ensures Post(Empty, done + SplitPostings(splits[..j + 1]))
         == Add(Post(Empty, done + SplitPostings(splits[..j])), Posting(splits[j].userId, -splits[j].amountOwed))
  {
    var p := Posting(splits[j].userId, -splits[j].amountOwed);
    assert splits[..j + 1][..j] == splits[..j];
    assert done + SplitPostings(splits[..j + 1]) == (done + SplitPostings(splits[..j])) + [p];
    PostSnoc(Empty, done + SplitPostings(splits[..j]), p);
  }

  lemma ExpensePostingsSnoc(expenses: seq<Expense>, i: nat)
    requires i < |expenses|
    ensures ExpensePostings(expenses[..i + 1])
         == ExpensePostings(expenses[..i]) + [Posting(expenses[i].paidById, expenses[i].amount)]
            + SplitPostings(expenses[i].splits)
  {
    assert expenses[..i + 1][..i] == expenses[..i];
  }

  lemma PaidPostingsSnoc(head: seq<Posting>, paid: seq<Settlement>, i: nat)
    requires i < |paid|
    ensures Post(Empty, head + PaidPostings(paid[..i + 1]))
         == Add(Add(Post(Empty, head + PaidPostings(paid[..i])), Posting(paid[i].fromUserId, paid[i].amount)),
                Posting(paid[i].toUserId, -paid[i].amount))
  {
    var before := head + PaidPostings(paid[..i]);
    var p1, p2 := Posting(paid[i].fromUserId, paid[i].amount), Posting(paid[i].toUserId, -paid[i].amount);
    assert paid[..i + 1][..i] == paid[..i];
    assert head + PaidPostings(paid[..i + 1]) == (before + [p1]) + [p2];
    PostSnoc(Empty, before + [p1], p2);
    PostSnoc(Empty, before, p1);
  }

  // ---------------------------------------------------------------------
  // Reference definitions the fold is proved against

  /** Sum of the expenses `u` fronted. */
  function Fronted(u: UserId, expenses: seq<Expense>): Amount
    decreases |expenses|
  {
    if expenses == [] then 0.0
    else
      var e := expenses[|expenses| - 1];
      Fronted(u, expenses[..|expenses| - 1]) + (if e.paidById == u then e.amount else 0.0)
  }

  /** Sum of `u`'s shares in a list of splits. */
  function Share(u: UserId, splits: seq<Split>): Amount
    decreases |splits|
  {
    if splits == [] then 0.0
    else
      var s := splits[|splits| - 1];
      Share(u, splits[..|splits| - 1]) + (if s.userId == u then s.amountOwed else 0.0)
  }

  /** Sum of `u`'s shares over all expenses. */
  function Shares(u: UserId, expenses: seq<Expense>): Amount
    decreases |expenses|
  {
    if expenses == [] then 0.0
    else Shares(u, expenses[..|expenses| - 1]) + Share(u, expenses[|expenses| - 1].splits)
  }

  /** Sum of the PAID settlements `u` paid (`asPayer`) or received (`!asPayer`). */
  function Settled(u: UserId, paid: seq<Settlement>, asPayer: bool): Amount
    decreases |paid|
  {
    if paid == [] then 0.0
    else
      var s := paid[|paid| - 1];
      Settled(u, paid[..|paid| - 1], asPayer)
        + (if (if asPayer then s.fromUserId else s.toUserId) == u then s.amount else 0.0)
  }

  /** What the ledger says `u` is owed (positive) or owes (negative). */
  function Net(u: UserId, expenses: seq<Expense>, paid: seq<Settlement>): Amount {
    Fronted(u, expenses) - Shares(u, expenses) + Settled(u, paid, true) - Settled(u, paid, false)
  }

  /** Sum of a list of splits. */
  function SplitTotal(splits: seq<Split>): Amount
    decreases |splits|
  {
    if splits == [] then 0.0 else SplitTotal(splits[..|splits| - 1]) + splits[|splits| - 1].amountOwed
  }

  /** Over all expenses, how much more was fronted than was split. */
  function Imbalance(expenses: seq<Expense>): Amount
    decreases |expenses|
  {
    if expenses == [] then 0.0
    else
      var e := expenses[|expenses| - 1];
      Imbalance(expenses[..|expenses| - 1]) + (e.amount - SplitTotal(e.splits))
  }

  /** Sum of the balances of the listed users. */
  function SumOver(order: seq<UserId>, m: map<UserId, Amount>): Amount
    decreases |order|
  {
    if order == [] then 0.0 else SumOver(order[..|order| - 1], m) + Lookup(m, order[|order| - 1])
  }

  function Total(b: BalanceMap): Amount {
    SumOver(b.order, b.value)
  }

  /** The users in first-occurrence order. */
  function Dedup(s: seq<UserId>): seq<UserId>
    decreases |s|
  {
    if s == [] then []
    else
      var d := Dedup(s[..|s| - 1]);
      var u := s[|s| - 1];
      if u in d then d else d + [u]
  }

  /** The users the postings name, in order. */
  function Users(ps: seq<Posting>): seq<UserId>
    decreases |ps|
  {
    if ps == [] then [] else Users(ps[..|ps| - 1]) + [ps[|ps| - 1].userId]
  }

  /** How much the postings move `u`'s balance. */
  function Delta(u: UserId, ps: seq<Posting>): Amount
    decreases |ps|
  {
    if ps == [] then 0.0
    else Delta(u, ps[..|ps| - 1]) + (if ps[|ps| - 1].userId == u then ps[|ps| - 1].delta else 0.0)
  }

  /** How much the postings move the total. */
  function Sum(ps: seq<Posting>): Amount
    decreases |ps|
  {
    if ps == [] then 0.0 else Sum(ps[..|ps| - 1]) + ps[|ps| - 1].delta
  }

  // ---------------------------------------------------------------------
  // Proofs about one posting and a run of postings

  lemma {:induction false} SumOverUpdate(order: seq<UserId>, m: map<UserId, Amount>, u: UserId, y: Amount)
    requires Distinct(order)
    ensures SumOver(order, m[u := y]) == SumOver(order, m) + (if u in order then y - Lookup(m, u) else 0.0)
    decreases |order|
  {
    if order != [] {
      var o' := order[..|order| - 1];
      var last := order[|order| - 1];
      assert order == o' + [last];
      assert Distinct(o');
      SumOverUpdate(o', m, u, y);
      if last == u {
        assert u !in o';
      } else {
        assert (u in order) == (u in o');
      }
    }
  }

  lemma AddValid(b: BalanceMap, p: Posting)
    requires Valid(b)
    ensures Valid(Add(b, p))
  {
  }

  lemma AddTotal(b: BalanceMap, p: Posting)
    requires Valid(b)
    ensures Total(Add(b, p)) == Total(b) + p.delta
  {
    var u, x := p.userId, p.delta;
    var r := Add(b, p);
    if u in b.value {
      assert u in b.order;
      SumOverUpdate(b.order, b.value, u, b.value[u] + x);
    } else {
      assert u !in b.order;
      SumOverUpdate(b.order, b.value, u, x);
      assert r.order[..|r.order| - 1] == b.order;
    }
  }

  lemma {:induction false} PostValid(b: BalanceMap, ps: seq<Posting>)
    requires Valid(b)
    ensures Valid(Post(b, ps))
    decreases |ps|
  {
    if ps != [] {
      PostValid(b, ps[..|ps| - 1]);
      AddValid(Post(b, ps[..|ps| - 1]), ps[|ps| - 1]);
    }
  }

  lemma {:induction false} PostTotal(b: BalanceMap, ps: seq<Posting>)
    requires Valid(b)
    ensures Total(Post(b, ps)) == Total(b) + Sum(ps)
    decreases |ps|
  {
    if ps != [] {
      PostTotal(b, ps[..|ps| - 1]);
      PostValid(b, ps[..|ps| - 1]);
      AddTotal(Post(b, ps[..|ps| - 1]), ps[|ps| - 1]);
    }
  }

  lemma {:induction false} PostGet(b: BalanceMap, ps: seq<Posting>, u: UserId)
    ensures Get(Post(b, ps), u) == Get(b, u) + Delta(u, ps)
    decreases |ps|
  {
    if ps != [] {
      PostGet(b, ps[..|ps| - 1], u);
    }
  }

  lemma {:induction false} PostOrder(b: BalanceMap, seen: seq<UserId>, ps: seq<Posting>)
    requires Valid(b) && b.order == Dedup(seen)
    ensures Post(b, ps).order == Dedup(seen + Users(ps))
    decreases |ps|
  {
    if ps == [] {
      assert seen + Users(ps) == seen;
    } else {
      var ps' := ps[..|ps| - 1];
      var u := ps[|ps| - 1].userId;
      PostOrder(b, seen, ps');
      PostValid(b, ps');
      var s := seen + Users(ps);
      assert s == (seen + Users(ps')) + [u];
      assert s[..|s| - 1] == seen + Users(ps');
    }
  }

  /** Each user occurs once, and exactly the users of `s` occur. */
  lemma {:induction false} DedupFacts(s: seq<UserId>)
    ensures Distinct(Dedup(s))
    ensures forall u :: u in Dedup(s) <==> u in s
    decreases |s|
  {
    if s != [] {
      DedupFacts(s[..|s| - 1]);
      assert s == s[..|s| - 1] + [s[|s| - 1]];
    }
  }

  lemma {:induction false} DeltaAppend(u: UserId, a: seq<Posting>, b: seq<Posting>)
    ensures Delta(u, a + b) == Delta(u, a) + Delta(u, b)
    decreases |b|
  {
    if b == [] {
      assert a + b == a;
    } else {
      assert (a + b)[..|a + b| - 1] == a + b[..|b| - 1];
      DeltaAppend(u, a, b[..|b| - 1]);
    }
  }

  lemma {:induction false} SumAppend(a: seq<Posting>, b: seq<Posting>)
    ensures Sum(a + b) == Sum(a) + Sum(b)
    decreases |b|
  {
    if b == [] {
      assert a + b == a;
    } else {
      assert (a + b)[..|a + b| - 1] == a + b[..|b| - 1];
      SumAppend(a, b[..|b| - 1]);
    }
  }

  // ---------------------------------------------------------------------
  // Proofs about the postings of a ledger

  lemma {:induction false} SplitPostingsMove(u: UserId, splits: seq<Split>)
    ensures Delta(u, SplitPostings(splits)) == -Share(u, splits)
    ensures Sum(SplitPostings(splits)) == -SplitTotal(splits)
    decreases |splits|
  {
    if splits != [] {
      var sp := splits[..|splits| - 1];
      var s := splits[|splits| - 1];
      SplitPostingsMove(u, sp);
      var ps := SplitPostings(splits);
      assert ps[..|ps| - 1] == SplitPostings(sp);
    }
  }

  lemma {:induction false} ExpensePostingsMove(u: UserId, expenses: seq<Expense>)
    ensures Delta(u, ExpensePostings(expenses)) == Fronted(u, expenses) - Shares(u, expenses)
    ensures Sum(ExpensePostings(expenses)) == Imbalance(expenses)
    decreases |expenses|
  {
    if expenses != [] {
      var es := expenses[..|expenses| - 1];
      var e := expenses[|expenses| - 1];
      ExpensePostingsMove(u, es);
      SplitPostingsMove(u, e.splits);
      var head := ExpensePostings(es) + [Posting(e.paidById, e.amount)];
      DeltaAppend(u, head, SplitPostings(e.splits));
      SumAppend(head, SplitPostings(e.splits));
      assert head[..|head| - 1] == ExpensePostings(es);
    }
  }

  lemma {:induction false} PaidPostingsMove(u: UserId, paid: seq<Settlement>)
    ensures Delta(u, PaidPostings(paid)) == Settled(u, paid, true) - Settled(u, paid, false)
    ensures Sum(PaidPostings(paid)) == 0.0
    decreases |paid|
  {
    if paid != [] {
      var ps := paid[..|paid| - 1];
      var s := paid[|paid| - 1];
      PaidPostingsMove(u, ps);
      var all := PaidPostings(paid);
      assert all[..|all| - 1] == PaidPostings(ps) + [Posting(s.fromUserId, s.amount)];
      assert all[..|all| - 1][..|all| - 2] == PaidPostings(ps);
    }
  }

  /** Fold rules: each user's balance is what they fronted, minus their
      shares, plus the PAID settlements they paid, minus those they received. */
  lemma AccumulateBalance(expenses: seq<Expense>, paid: seq<Settlement>, u: UserId)
    ensures Get(Accumulate(expenses, paid), u) == Net(u, expenses, paid)
  {
    PostGet(Empty, Postings(expenses, paid), u);
    DeltaAppend(u, ExpensePostings(expenses), PaidPostings(paid));
    ExpensePostingsMove(u, expenses);
    PaidPostingsMove(u, paid);
  }

  /** First touch: the users in the map are exactly the users the ledger
      names, each once, in the order they are first named (payer, then
      split users, expense by expense; then payer and receiver of each
      PAID settlement). */
  lemma AccumulateOrder(expenses: seq<Expense>, paid: seq<Settlement>)
    ensures Valid(Accumulate(expenses, paid))
    ensures Accumulate(expenses, paid).order == Dedup(Users(Postings(expenses, paid)))
    ensures Distinct(Accumulate(expenses, paid).order)
    ensures forall u :: u in Accumulate(expenses, paid).order <==> u in Users(Postings(expenses, paid))
  {
    DedupFacts(Users(Postings(expenses, paid)));
    PostValid(Empty, Postings(expenses, paid));
    PostOrder(Empty, [], Postings(expenses, paid));
    assert [] + Users(Postings(expenses, paid)) == Users(Postings(expenses, paid));
  }

  /** Zero-sum: the balances add up to how much more was fronted than was
      split; PAID settlements add nothing, even one from a user to themself. */
  lemma AccumulateTotal(expenses: seq<Expense>, paid: seq<Settlement>)
    ensures Total(Accumulate(expenses, paid)) == Imbalance(expenses)
  {
    PostTotal(Empty, Postings(expenses, paid));
    SumAppend(ExpensePostings(expenses), PaidPostings(paid));
    ExpensePostingsMove("", expenses);
    PaidPostingsMove("", paid);
  }

  /** When every expense is split in full, the balances sum to zero. */
  lemma {:induction false} BalancedLedger(expenses: seq<Expense>, paid: seq<Settlement>)
    requires forall e :: e in expenses ==> SplitTotal(e.splits) == e.amount
    ensures Total(Accumulate(expenses, paid)) == 0.0
  {
    AccumulateTotal(expenses, paid);
    FullSplitsBalance(expenses);
  }

  lemma {:induction false} FullSplitsBalance(expenses: seq<Expense>)
    requires forall e :: e in expenses ==> SplitTotal(e.splits) == e.amount
    ensures Imbalance(expenses) == 0.0
    decreases |expenses|
  {
    if expenses != [] {
      var es := expenses[..|expenses| - 1];
      assert forall e :: e in es ==> e in expenses;
      FullSplitsBalance(es);
    }
  }
}
