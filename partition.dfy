/** The split of the balance dictionary into the users who owe money
    (debtors) and the users who are owed money (creditors), each carrying
    the magnitude still to be matched. Users at exactly zero are in
    neither list, and both lists keep the dictionary's order. */
module Partition {
  import opened Ledger
  import opened Balances

  /** A debtor or a creditor with the amount still to be matched. */
  datatype Party = Party(userId: UserId, amount: Amount)

  predicate Positive(ps: seq<Party>) {
    forall i :: 0 <= i < |ps| ==> ps[i].amount > 0.0
  }

  /** What a balance `x` puts on the debtor side (`debit`) or on the
      creditor side: its magnitude when its sign fits that side, else 0. */
  function Due(x: Amount, debit: bool): (r: Amount)
    ensures r >= 0.0
    ensures r > 0.0 <==> (if debit then x < 0.0 else x > 0.0)
  {
    if debit then (if x < 0.0 then -x else 0.0) else (if x > 0.0 then x else 0.0)
  }

  /** The users of `order` with something due on one side, in `order`'s order. */
  function Side(order: seq<UserId>, value: map<UserId, Amount>, debit: bool): (r: seq<Party>)
    ensures |r| <= |order|
    ensures Positive(r)
    decreases |order|
  {
    if order == [] then []
    else
      var rest := Side(order[..|order| - 1], value, debit);
      var u := order[|order| - 1];
      var a := Due(Lookup(value, u), debit);
      if a > 0.0 then rest + [Party(u, a)] else rest
  }

  /** Users with a negative balance, each carrying what they owe. */
  function Debtors(b: BalanceMap): seq<Party> {
    Side(b.order, b.value, true)
  }

  /** Users with a positive balance, each carrying what they are owed. */
  function Creditors(b: BalanceMap): seq<Party> {
    Side(b.order, b.value, false)
  }

  // ---------------------------------------------------------------------
  // Measures over party lists

  function PartyUsers(ps: seq<Party>): (r: seq<UserId>)
    ensures |r| == |ps|
    ensures forall i :: 0 <= i < |ps| ==> r[i] == ps[i].userId
    decreases |ps|
  {
    if ps == [] then [] else [ps[0].userId] + PartyUsers(ps[1..])
  }

  /** What the list carries for `u`. */
  function AmountOf(ps: seq<Party>, u: UserId): Amount
    decreases |ps|
  {
    if ps == [] then 0.0 else (if ps[0].userId == u then ps[0].amount else 0.0) + AmountOf(ps[1..], u)
  }

  /** What the list carries in all. */
  function PartyTotal(ps: seq<Party>): Amount
    decreases |ps|
  {
    if ps == [] then 0.0 else ps[0].amount + PartyTotal(ps[1..])
  }

  /** `a` lists some of the elements of `b`, in `b`'s order. */
  predicate IsSubsequence(a: seq<UserId>, b: seq<UserId>)
    decreases |b|
  {
    a == [] ||
    (b != [] &&
     ((a[|a| - 1] == b[|b| - 1] && IsSubsequence(a[..|a| - 1], b[..|b| - 1])) || IsSubsequence(a, b[..|b| - 1])))
  }

  lemma {:induction false} AmountOfAppend(a: seq<Party>, b: seq<Party>, u: UserId)
    ensures AmountOf(a + b, u) == AmountOf(a, u) + AmountOf(b, u)
    decreases |a|
  {
    if a == [] {
      assert a + b == b;
    } else {
      assert (a + b)[0] == a[0];
      assert (a + b)[1..] == a[1..] + b;
      AmountOfAppend(a[1..], b, u);
    }
  }

  lemma {:induction false} PartyTotalAppend(a: seq<Party>, b: seq<Party>)
    ensures PartyTotal(a + b) == PartyTotal(a) + PartyTotal(b)
    decreases |a|
  {
    if a == [] {
      assert a + b == b;
    } else {
      assert (a + b)[0] == a[0];
      assert (a + b)[1..] == a[1..] + b;
      PartyTotalAppend(a[1..], b);
    }
  }

  /** A non-empty list of positive amounts carries a positive total. */
  lemma {:induction false} PositiveTotal(ps: seq<Party>)
    requires Positive(ps)
    ensures PartyTotal(ps) >= 0.0
    ensures ps != [] ==> PartyTotal(ps) > 0.0
    decreases |ps|
  {
    if ps != [] {
      assert ps[0] in ps;
      assert forall p :: p in ps[1..] ==> p in ps;
      PositiveTotal(ps[1..]);
    }
  }

  /** No user is owed a negative amount by a list of positive amounts. */
  lemma {:induction false} AmountOfNonnegative(ps: seq<Party>, u: UserId)
    requires Positive(ps)
    ensures AmountOf(ps, u) >= 0.0
    decreases |ps|
  {
    if ps != [] {
      assert ps[0].amount > 0.0;
      AmountOfNonnegative(ps[1..], u);
    }
  }

  // ---------------------------------------------------------------------
  // Properties of the partition

  /** A user listed once carries exactly what is due on that side, and a
      user not listed carries nothing. */
  lemma {:induction false} SideAmount(order: seq<UserId>, value: map<UserId, Amount>, debit: bool, u: UserId)
    requires Distinct(order)
    ensures AmountOf(Side(order, value, debit), u) == if u in order then Due(Lookup(value, u), debit) else 0.0
    decreases |order|
  {
    if order != [] {
      var o := order[..|order| - 1];
      var v := order[|order| - 1];
      assert order == o + [v];
      assert Distinct(o);
      SideAmount(o, value, debit, u);
      var a := Due(Lookup(value, v), debit);
      if a > 0.0 {
        AmountOfAppend(Side(o, value, debit), [Party(v, a)], u);
        assert AmountOf([Party(v, a)], u) == if v == u then a else 0.0;
      }
    }
  }

  /** A side lists exactly the users of `order` with something due on it,
      each carrying what is due. */
  lemma {:induction false} SideMembers(order: seq<UserId>, value: map<UserId, Amount>, debit: bool)
    ensures forall p :: p in Side(order, value, debit) ==> p.userId in order && p.amount == Due(Lookup(value, p.userId), debit)
    ensures forall u :: u in order && Due(Lookup(value, u), debit) > 0.0 ==> Party(u, Due(Lookup(value, u), debit)) in Side(order, value, debit)
    decreases |order|
  {
    if order != [] {
      var o := order[..|order| - 1];
      SideMembers(o, value, debit);
      assert order == o + [order[|order| - 1]];
    }
  }

  /** The users of one side in the order of the dictionary. */
  lemma {:induction false} SideOrder(order: seq<UserId>, value: map<UserId, Amount>, debit: bool)
    ensures IsSubsequence(PartyUsers(Side(order, value, debit)), order)
    decreases |order|
  {
    if order != [] {
      var o := order[..|order| - 1];
      var v := order[|order| - 1];
      SideOrder(o, value, debit);
      var a := Due(Lookup(value, v), debit);
      var r := Side(o, value, debit);
      if a > 0.0 {
        var us := PartyUsers(r + [Party(v, a)]);
        assert us[..|us| - 1] == PartyUsers(r);
      }
    }
  }

  /** A subsequence of a list without repeats has no repeats. */
  lemma {:induction false} SubsequenceDistinct(a: seq<UserId>, b: seq<UserId>)
    requires IsSubsequence(a, b) && Distinct(b)
    ensures Distinct(a) && forall u :: u in a ==> u in b
    decreases |b|
  {
    if a != [] {
      var b' := b[..|b| - 1];
      assert Distinct(b');
      if IsSubsequence(a, b') {
        SubsequenceDistinct(a, b');
      } else {
        var a' := a[..|a| - 1];
        SubsequenceDistinct(a', b');
        assert a == a' + [b[|b| - 1]];
        assert b == b' + [b[|b| - 1]];
        assert b[|b| - 1] !in b';
      }
    }
  }

  /** Neither side names a user twice. */
  lemma SideDistinct(order: seq<UserId>, value: map<UserId, Amount>, debit: bool)
    requires Distinct(order)
    ensures Distinct(PartyUsers(Side(order, value, debit)))
  {
    SideOrder(order, value, debit);
    SubsequenceDistinct(PartyUsers(Side(order, value, debit)), order);
  }

  /** What creditors are owed minus what debtors owe is the sum of all balances. */
  lemma {:induction false} SideTotal(order: seq<UserId>, value: map<UserId, Amount>)
    ensures PartyTotal(Side(order, value, false)) - PartyTotal(Side(order, value, true)) == SumOver(order, value)
    decreases |order|
  {
    if order != [] {
      var o := order[..|order| - 1];
      var v := order[|order| - 1];
      SideTotal(o, value);
      var x := Lookup(value, v);
      if x > 0.0 {
        PartyTotalAppend(Side(o, value, false), [Party(v, x)]);
      } else if x < 0.0 {
        PartyTotalAppend(Side(o, value, true), [Party(v, -x)]);
      }
    }
  }

  /** For a well-formed dictionary, debtors are exactly the users with a
      negative balance, each carrying its magnitude, and creditors exactly
      those with a positive balance, carrying it: a user at zero is on
      neither side and no user is on both. */
  lemma Partitioned(b: BalanceMap, u: UserId)
    requires Valid(b)
    ensures AmountOf(Debtors(b), u) == (if Get(b, u) < 0.0 then -Get(b, u) else 0.0)
    ensures AmountOf(Creditors(b), u) == (if Get(b, u) > 0.0 then Get(b, u) else 0.0)
  {
    SideAmount(b.order, b.value, true, u);
    SideAmount(b.order, b.value, false, u);
    assert u !in b.order ==> u !in b.value;
  }

  /** Each side names every user at most once, in dictionary order. */
  lemma PartitionOrder(b: BalanceMap)
    requires Valid(b)
    ensures Distinct(PartyUsers(Debtors(b))) && IsSubsequence(PartyUsers(Debtors(b)), b.order)
    ensures Distinct(PartyUsers(Creditors(b))) && IsSubsequence(PartyUsers(Creditors(b)), b.order)
  {
    SideDistinct(b.order, b.value, true);
    SideDistinct(b.order, b.value, false);
    SideOrder(b.order, b.value, true);
    SideOrder(b.order, b.value, false);
  }

  /** No user is both a debtor and a creditor. */
  lemma PartitionDisjoint(b: BalanceMap)
    ensures forall p, q :: p in Debtors(b) && q in Creditors(b) ==> p.userId != q.userId
  {
    SideMembers(b.order, b.value, true);
    SideMembers(b.order, b.value, false);
  }

  /** The partition moves no money: the creditors' total less the debtors'
      total is the sum of all balances. */
  lemma PartitionTotal(b: BalanceMap)
    ensures PartyTotal(Creditors(b)) - PartyTotal(Debtors(b)) == Total(b)
  {
    SideTotal(b.order, b.value);
  }
}
