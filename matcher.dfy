/** The greedy two-pointer debt matcher. The current debtor pays the current
    creditor the smaller of their two amounts; both amounts drop by it, and
    whichever reaches exactly zero is passed over. The sweep stops as soon
    as either list is used up. */
module Matcher {
  import opened Ledger
  import opened Partition

  /** The transfers the sweep emits, in order, and the parties still
      carrying an amount when it stops. */
  datatype Sweep = Sweep(transfers: seq<Transfer>, debtorsLeft: seq<Party>, creditorsLeft: seq<Party>)

  /** The smaller of two amounts. */
  function Min(x: Amount, y: Amount): (r: Amount)
    ensures r <= x && r <= y
    ensures r == x || r == y
  {
    if x <= y then x else y
  }

  /** The list after its head has given up `amt`: the head is passed over
      once it carries nothing. */
  function Reduce(ps: seq<Party>, amt: Amount): (r: seq<Party>)
    requires Positive(ps) && ps != [] && 0.0 <= amt <= ps[0].amount
    ensures Positive(r)
    ensures |r| == if amt == ps[0].amount then |ps| - 1 else |ps|
  {
    assert forall p :: p in ps[1..] ==> p in ps;
    var left := ps[0].amount - amt;
    if left == 0.0 then ps[1..] else [Party(ps[0].userId, left)] + ps[1..]
  }

  /** The matcher on values: the reference the in-place loop is proved against. */
  function GreedySweep(ds: seq<Party>, cs: seq<Party>): (r: Sweep)
    requires Positive(ds) && Positive(cs)
    ensures |r.debtorsLeft| <= |ds| && |r.creditorsLeft| <= |cs|
    decreases |ds| + |cs|
  {
    if ds == [] || cs == [] then Sweep([], ds, cs)
    else
      var amt := Min(ds[0].amount, cs[0].amount);
      var emitted := if amt > 0.0 then [Transfer(ds[0].userId, cs[0].userId, amt)] else [];
      var rest := GreedySweep(Reduce(ds, amt), Reduce(cs, amt));
      Sweep(emitted + rest.transfers, rest.debtorsLeft, rest.creditorsLeft)
  }

  /** The matching loop. The debtor and creditor records are updated in
      place while two cursors walk the lists. */
  method MatchDebts(debtors: seq<Party>, creditors: seq<Party>) returns (transfers: seq<Transfer>)
    requires Positive(debtors) && Positive(creditors)
    ensures transfers == GreedySweep(debtors, creditors).transfers
  {
    var ds, cs := debtors, creditors;
    transfers := [];
    var di, ci := 0, 0;
    while di < |ds| && ci < |cs|
      invariant 0 <= di <= |ds| && 0 <= ci <= |cs|
      invariant Positive(ds[di..]) && Positive(cs[ci..])
      invariant GreedySweep(debtors, creditors).transfers == transfers + GreedySweep(ds[di..], cs[ci..]).transfers
      decreases |ds| - di + |cs| - ci
    {
      ghost var ds0, cs0, di0, ci0, before := ds, cs, di, ci, transfers;
      var debtor, creditor := ds[di], cs[ci];
      var amount := Min(debtor.amount, creditor.amount);
      ghost var emitted := [];
      if amount > 0.0 {
        transfers := transfers + [Transfer(debtor.userId, creditor.userId, amount)];
        emitted := [Transfer(debtor.userId, creditor.userId, amount)];
      }
      debtor := debtor.(amount := debtor.amount - amount);
      creditor := creditor.(amount := creditor.amount - amount);
      ds := ds[di := debtor];
      cs := cs[ci := creditor];
      if debtor.amount == 0.0 {
        di := di + 1;
      }
      if creditor.amount == 0.0 {
        ci := ci + 1;
      }
      LoopStep(ds0, di0, cs0, ci0, ds, di, cs, ci, emitted);
      Advance(GreedySweep(debtors, creditors).transfers, before, emitted,
              GreedySweep(ds0[di0..], cs0[ci0..]).transfers, GreedySweep(ds[di..], cs[ci..]).transfers);
    }
  }

  /** Moving the transfers of one turn from the sweep still to run to the
      transfers already emitted keeps their concatenation. */
  lemma Advance(total: seq<Transfer>, before: seq<Transfer>, emitted: seq<Transfer>, rest: seq<Transfer>, rest': seq<Transfer>)
    requires total == before + rest && rest == emitted + rest'
    ensures total == (before + emitted) + rest'
  {
  }

  /** One turn of the loop is one unfolding of the sweep: the transfers it
      emits come first, then those of the sweep over what is left. */
  lemma LoopStep(ds: seq<Party>, di: nat, cs: seq<Party>, ci: nat,
                 ds': seq<Party>, di': nat, cs': seq<Party>, ci': nat, emitted: seq<Transfer>)
    requires di < |ds| && ci < |cs| && Positive(ds[di..]) && Positive(cs[ci..])
    requires
      var amt := Min(ds[di].amount, cs[ci].amount);
      && ds' == ds[di := ds[di].(amount := ds[di].amount - amt)]
      && cs' == cs[ci := cs[ci].(amount := cs[ci].amount - amt)]
      && di' == (if ds[di].amount - amt == 0.0 then di + 1 else di)
      && ci' == (if cs[ci].amount - amt == 0.0 then ci + 1 else ci)
      && emitted == if amt > 0.0 then [Transfer(ds[di].userId, cs[ci].userId, amt)] else []
    ensures di' <= |ds'| && ci' <= |cs'|
    ensures Positive(ds'[di'..]) && Positive(cs'[ci'..])
    ensures GreedySweep(ds[di..], cs[ci..]).transfers == emitted + GreedySweep(ds'[di'..], cs'[ci'..]).transfers
  {
    var amt := Min(ds[di].amount, cs[ci].amount);
    StepRest(ds, di, amt, ds', di');
    StepRest(cs, ci, amt, cs', ci');
    assert ds[di..][0] == ds[di] && cs[ci..][0] == cs[ci];
  }

  /** After a turn the unvisited part of a list is the list reduced by the
      amount paid. */
  lemma StepRest(ps: seq<Party>, i: nat, amt: Amount, ps': seq<Party>, i': nat)
    requires i < |ps| && Positive(ps[i..]) && 0.0 <= amt <= ps[i].amount
    requires ps' == ps[i := ps[i].(amount := ps[i].amount - amt)]
    requires i' == if ps[i].amount - amt == 0.0 then i + 1 else i
    ensures i' <= |ps'| && ps'[i'..] == Reduce(ps[i..], amt)
  {
    assert ps[i..][0] == ps[i];
    if i' == i {
      assert ps'[i..] == [Party(ps[i].userId, ps[i].amount - amt)] + ps[i..][1..];
    } else {
      assert ps'[i'..] == ps[i..][1..];
    }
  }

  // ---------------------------------------------------------------------
  // Measures over transfers

  /** What `u` pays over a list of transfers. */
  function Sent(ts: seq<Transfer>, u: UserId): Amount
    decreases |ts|
  {
    if ts == [] then 0.0 else (if ts[0].fromUserId == u then ts[0].amount else 0.0) + Sent(ts[1..], u)
  }

  /** What `u` receives over a list of transfers. */
  function Received(ts: seq<Transfer>, u: UserId): Amount
    decreases |ts|
  {
    if ts == [] then 0.0 else (if ts[0].toUserId == u then ts[0].amount else 0.0) + Received(ts[1..], u)
  }

  /** Everything a list of transfers moves. */
  function TransferTotal(ts: seq<Transfer>): Amount
    decreases |ts|
  {
    if ts == [] then 0.0 else ts[0].amount + TransferTotal(ts[1..])
  }

  /** Appending a transfer adds its amount to its payer's and its receiver's sums. */
  lemma {:induction false} TransferSnoc(ts: seq<Transfer>, t: Transfer, u: UserId)
    ensures Sent(ts + [t], u) == Sent(ts, u) + (if t.fromUserId == u then t.amount else 0.0)
    ensures Received(ts + [t], u) == Received(ts, u) + (if t.toUserId == u then t.amount else 0.0)
    decreases |ts|
  {
    if ts == [] {
      assert [] + [t] == [t];
    } else {
      assert (ts + [t])[0] == ts[0] && (ts + [t])[1..] == ts[1..] + [t];
      TransferSnoc(ts[1..], t, u);
    }
  }

  // ---------------------------------------------------------------------
  // Properties of the sweep

  /** What reducing the head takes away: `amt` from the head's user and
      from the total, and no user is added. */
  lemma ReduceFacts(ps: seq<Party>, amt: Amount, u: UserId)
    requires Positive(ps) && ps != [] && 0.0 <= amt <= ps[0].amount
    ensures AmountOf(Reduce(ps, amt), u) + (if ps[0].userId == u then amt else 0.0) == AmountOf(ps, u)
    ensures PartyTotal(Reduce(ps, amt)) + amt == PartyTotal(ps)
    ensures forall v :: v in PartyUsers(Reduce(ps, amt)) ==> v in PartyUsers(ps)
  {
    var r := Reduce(ps, amt);
    if ps[0].amount - amt != 0.0 {
      assert r[0] == Party(ps[0].userId, ps[0].amount - amt) && r[1..] == ps[1..];
    }
    assert forall i :: 0 <= i < |r| ==> r[i].userId in PartyUsers(ps) by {
      forall i | 0 <= i < |r|
        ensures r[i].userId in PartyUsers(ps)
      {
        if ps[0].amount - amt == 0.0 {
          assert r[i] == ps[i + 1];
          assert PartyUsers(ps)[i + 1] == r[i].userId;
        } else if i == 0 {
          assert PartyUsers(ps)[0] == r[0].userId;
        } else {
          assert r[i] == ps[i];
          assert PartyUsers(ps)[i] == r[i].userId;
        }
      }
    }
  }

  /** The first turn of a sweep over two non-empty lists. */
  lemma SweepUnfold(ds: seq<Party>, cs: seq<Party>)
    requires Positive(ds) && Positive(cs) && ds != [] && cs != []
    ensures Min(ds[0].amount, cs[0].amount) > 0.0
    ensures
      var amt := Min(ds[0].amount, cs[0].amount);
      var r := GreedySweep(ds, cs);
      var rest := GreedySweep(Reduce(ds, amt), Reduce(cs, amt));
      && r.transfers == [Transfer(ds[0].userId, cs[0].userId, amt)] + rest.transfers
      && r.debtorsLeft == rest.debtorsLeft && r.creditorsLeft == rest.creditorsLeft
  {
    assert ds[0].amount > 0.0 && cs[0].amount > 0.0;
  }

  /** Per user, what the sweep makes a debtor pay plus what it leaves them
      owing is what they owed, and likewise for what a creditor receives. */
  lemma {:induction false} SweepConserves(ds: seq<Party>, cs: seq<Party>, u: UserId)
    requires Positive(ds) && Positive(cs)
    ensures Sent(GreedySweep(ds, cs).transfers, u) + AmountOf(GreedySweep(ds, cs).debtorsLeft, u) == AmountOf(ds, u)
    ensures Received(GreedySweep(ds, cs).transfers, u) + AmountOf(GreedySweep(ds, cs).creditorsLeft, u) == AmountOf(cs, u)
    decreases |ds| + |cs|
  {
    if ds != [] && cs != [] {
      SweepUnfold(ds, cs);
      var amt := Min(ds[0].amount, cs[0].amount);
      ReduceFacts(ds, amt, u);
      ReduceFacts(cs, amt, u);
      SweepConserves(Reduce(ds, amt), Reduce(cs, amt), u);
      var t := [Transfer(ds[0].userId, cs[0].userId, amt)];
      var rest := GreedySweep(Reduce(ds, amt), Reduce(cs, amt)).transfers;
      assert (t + rest)[0] == t[0] && (t + rest)[1..] == rest;
    }
  }

  /** In all, the sweep moves from the debtors and to the creditors exactly
      what it emits. */
  lemma {:induction false} SweepTotals(ds: seq<Party>, cs: seq<Party>)
    requires Positive(ds) && Positive(cs)
    ensures TransferTotal(GreedySweep(ds, cs).transfers) + PartyTotal(GreedySweep(ds, cs).debtorsLeft) == PartyTotal(ds)
    ensures TransferTotal(GreedySweep(ds, cs).transfers) + PartyTotal(GreedySweep(ds, cs).creditorsLeft) == PartyTotal(cs)
    decreases |ds| + |cs|
  {
    if ds != [] && cs != [] {
      SweepUnfold(ds, cs);
      var amt := Min(ds[0].amount, cs[0].amount);
      ReduceFacts(ds, amt, ds[0].userId);
      ReduceFacts(cs, amt, cs[0].userId);
      SweepTotals(Reduce(ds, amt), Reduce(cs, amt));
      var t := [Transfer(ds[0].userId, cs[0].userId, amt)];
      var rest := GreedySweep(Reduce(ds, amt), Reduce(cs, amt)).transfers;
      assert (t + rest)[0] == t[0] && (t + rest)[1..] == rest;
    }
  }

  /** The sweep stops only when one side is used up, and what is left on
      the other side is still owed in positive amounts. */
  lemma {:induction false} SweepExit(ds: seq<Party>, cs: seq<Party>)
    requires Positive(ds) && Positive(cs)
    ensures GreedySweep(ds, cs).debtorsLeft == [] || GreedySweep(ds, cs).creditorsLeft == []
    ensures Positive(GreedySweep(ds, cs).debtorsLeft) && Positive(GreedySweep(ds, cs).creditorsLeft)
    decreases |ds| + |cs|
  {
    if ds != [] && cs != [] {
      SweepUnfold(ds, cs);
      var amt := Min(ds[0].amount, cs[0].amount);
      SweepExit(Reduce(ds, amt), Reduce(cs, amt));
    }
  }

  /** Every transfer moves a positive amount from a debtor to a creditor. */
  lemma {:induction false} SweepParties(ds: seq<Party>, cs: seq<Party>)
    requires Positive(ds) && Positive(cs)
    ensures forall t :: t in GreedySweep(ds, cs).transfers ==>
              t.amount > 0.0 && t.fromUserId in PartyUsers(ds) && t.toUserId in PartyUsers(cs)
    decreases |ds| + |cs|
  {
    if ds != [] && cs != [] {
      SweepUnfold(ds, cs);
      var amt := Min(ds[0].amount, cs[0].amount);
      ReduceFacts(ds, amt, ds[0].userId);
      ReduceFacts(cs, amt, cs[0].userId);
      SweepParties(Reduce(ds, amt), Reduce(cs, amt));
      assert PartyUsers(ds)[0] == ds[0].userId && PartyUsers(cs)[0] == cs[0].userId;
    }
  }

  /** Each turn passes over at least one party and the last turn passes
      over both lists' last, so there are at most as many transfers as
      parties, less one. */
  lemma {:induction false} SweepCount(ds: seq<Party>, cs: seq<Party>)
    requires Positive(ds) && Positive(cs)
    ensures |GreedySweep(ds, cs).transfers| <= if ds == [] || cs == [] then 0 else |ds| + |cs| - 1
    decreases |ds| + |cs|
  {
    if ds != [] && cs != [] {
      SweepUnfold(ds, cs);
      var amt := Min(ds[0].amount, cs[0].amount);
      SweepCount(Reduce(ds, amt), Reduce(cs, amt));
    }
  }

  /** No debtor pays more than they owed and no creditor receives more than
      they were owed. */
  lemma SweepBounded(ds: seq<Party>, cs: seq<Party>, u: UserId)
    requires Positive(ds) && Positive(cs)
    ensures Sent(GreedySweep(ds, cs).transfers, u) <= AmountOf(ds, u)
    ensures Received(GreedySweep(ds, cs).transfers, u) <= AmountOf(cs, u)
  {
    SweepConserves(ds, cs, u);
    SweepExit(ds, cs);
    AmountOfNonnegative(GreedySweep(ds, cs).debtorsLeft, u);
    AmountOfNonnegative(GreedySweep(ds, cs).creditorsLeft, u);
  }

  /** The sweep moves the smaller of total debt and total credit. */
  lemma SweepEmitsMin(ds: seq<Party>, cs: seq<Party>)
    requires Positive(ds) && Positive(cs)
    ensures TransferTotal(GreedySweep(ds, cs).transfers) == Min(PartyTotal(ds), PartyTotal(cs))
  {
    var r := GreedySweep(ds, cs);
    SweepTotals(ds, cs);
    SweepExit(ds, cs);
    PositiveTotal(r.debtorsLeft);
    PositiveTotal(r.creditorsLeft);
  }

  /** When total debt equals total credit both lists run out together and
      every debtor pays, and every creditor receives, exactly their amount. */
  lemma SweepBalanced(ds: seq<Party>, cs: seq<Party>)
    requires Positive(ds) && Positive(cs)
    requires PartyTotal(ds) == PartyTotal(cs)
    ensures GreedySweep(ds, cs).debtorsLeft == [] && GreedySweep(ds, cs).creditorsLeft == []
    ensures forall u :: Sent(GreedySweep(ds, cs).transfers, u) == AmountOf(ds, u)
    ensures forall u :: Received(GreedySweep(ds, cs).transfers, u) == AmountOf(cs, u)
  {
    var r := GreedySweep(ds, cs);
    SweepTotals(ds, cs);
    SweepExit(ds, cs);
    PositiveTotal(r.debtorsLeft);
    PositiveTotal(r.creditorsLeft);
    forall u
      ensures Sent(r.transfers, u) == AmountOf(ds, u) && Received(r.transfers, u) == AmountOf(cs, u)
    {
      SweepConserves(ds, cs, u);
    }
  }

  /** When totals differ the sweep still returns normally: the longer side
      is left holding exactly the difference and the other side is used up. */
  lemma SweepResidue(ds: seq<Party>, cs: seq<Party>)
    requires Positive(ds) && Positive(cs)
    ensures PartyTotal(ds) > PartyTotal(cs) ==>
              GreedySweep(ds, cs).creditorsLeft == [] && GreedySweep(ds, cs).debtorsLeft != []
              && PartyTotal(GreedySweep(ds, cs).debtorsLeft) == PartyTotal(ds) - PartyTotal(cs)
    ensures PartyTotal(cs) > PartyTotal(ds) ==>
              GreedySweep(ds, cs).debtorsLeft == [] && GreedySweep(ds, cs).creditorsLeft != []
              && PartyTotal(GreedySweep(ds, cs).creditorsLeft) == PartyTotal(cs) - PartyTotal(ds)
  {
    var r := GreedySweep(ds, cs);
    SweepTotals(ds, cs);
    SweepExit(ds, cs);
    PositiveTotal(r.debtorsLeft);
    PositiveTotal(r.creditorsLeft);
  }

  /** When no user is on both sides, nobody pays themselves. */
  lemma SweepSeparates(ds: seq<Party>, cs: seq<Party>)
    requires Positive(ds) && Positive(cs)
    requires forall p, q :: p in ds && q in cs ==> p.userId != q.userId
    ensures forall t :: t in GreedySweep(ds, cs).transfers ==> t.fromUserId != t.toUserId
  {
    SweepParties(ds, cs);
    forall t | t in GreedySweep(ds, cs).transfers
      ensures t.fromUserId != t.toUserId
    {
      var i :| 0 <= i < |ds| && PartyUsers(ds)[i] == t.fromUserId;
      var j :| 0 <= j < |cs| && PartyUsers(cs)[j] == t.toUserId;
      assert ds[i] in ds && cs[j] in cs;
    }
  }
}
