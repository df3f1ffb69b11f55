/** What a withdrawal does to the tables, in plain terms, and what is paid out for it over any history
    (record.go, CreateWithdraw; payout.go). */
module WithdrawalRule {
  import opened Arith
  import opened Params
  import opened Rate
  import opened Tables
  import opened Settlement
  import opened Runs
  import U = UseCases
  import P = Payout

  /** Fee and paid amount make up the withdrawn one, and the fee is the fee rate of it within half a
      unit. */
  ghost predicate Net(p: Params, x: Withdraw)
  {
    && x.amount > 0 && x.fee + x.credited == x.amount
    && -p.scale <= 2 * (p.extractFee * x.amount) - 2 * (p.scale * x.fee) <= p.scale
  }

  ghost predicate AllNet(p: Params, rows: seq<Withdraw>)
  {
    forall i :: 0 <= i < |rows| ==> Net(p, rows[i])
  }

  /** With a fee rate from 0 to 1 neither part is negative. */
  lemma NetParts(p: Params, x: Withdraw)
    requires p.scale > 0 && 0 <= p.extractFee <= p.scale && Net(p, x)
    ensures 0 <= x.credited <= x.amount && 0 <= x.fee <= x.amount
  {
    assert p.extractFee * x.amount >= 0;
    assert p.extractFee * x.amount <= p.scale * x.amount by { assert (p.scale - p.extractFee) * x.amount >= 0; }
    ProductStep(p.scale, x.fee, 0);
    ProductStep(p.scale, x.amount, x.fee);
  }

  /** A rising order that has been settled and not turned since steps down from its last settled rate;
      at the minimum it stays, below it bounces.  Any other order is left alone. */
  ghost predicate TurnedFrom(p: Params, a: Cycle, b: Cycle)
  {
    if a.turnPending || a.direction.Down? || a.lastSettled.None? then b == a
    else
      var last := a.lastSettled.value;
      && b.turnPending && b.lastSettled == a.lastSettled
      && (last == p.rateMin ==> b.rate == p.rateMin && b.direction.Up?)
      && (last != p.rateMin && last - p.rateStep > p.rateMin ==> b.rate == last - p.rateStep && b.direction.Down?)
      && (last != p.rateMin && last - p.rateStep == p.rateMin ==> b.rate == p.rateMin && b.direction.Up?)
      && (last != p.rateMin && last - p.rateStep < p.rateMin ==> b.rate == Min(p.rateMin + p.rateStep, p.rateMax) && b.direction.Up?)
  }

  /** Accepted exactly when the amount is positive, the balance covers it, payouts are set up, and the
      amount less the fee is at most the cap; otherwise nothing changes. */
  lemma WithdrawalAccepted(s: Setting, w: World, user: nat, amount: int)
    requires s.p.scale > 0 && w.Valid()
    ensures Attempt(s, w, Op.Extract(user, amount)).Done?
       <==> && amount > 0 && user in w.users && w.users[user].withdrawable >= amount
            && s.payout.enabled && s.payout.maxUsdt > 0 && s.payout.ready
            && amount - RoundDiv(amount * s.p.extractFee, s.p.scale) <= s.payout.maxUsdt
    ensures !Attempt(s, w, Op.Extract(user, amount)).Done? ==> Apply(s, w, Op.Extract(user, amount)) == w
  {
    hide World.Valid;
  }

  /** An accepted withdrawal takes the amount from the balance, queues one row on these terms, turns the
      user's active orders and books the amount; nothing else moves. */
  lemma WithdrawalTerms(s: Setting, w: World, user: nat, amount: int)
    requires s.p.scale > 0 && w.Valid() && Attempt(s, w, Op.Extract(user, amount)).Done?
    ensures var after := Apply(s, w, Op.Extract(user, amount));
            && user in w.users && after.users == w.users[user := w.users[user].(withdrawable := w.users[user].withdrawable - amount)]
            && |after.withdraws| == |w.withdraws| + 1 && after.withdraws[..|w.withdraws|] == w.withdraws
            && var row := after.withdraws[|w.withdraws|];
            && row.user == user && row.amount == amount && Net(s.p, row) && row.status.Rewarded? && row.txHash == ""
            && |after.orders| == |w.orders|
            && (forall i :: 0 <= i < |w.orders| ==>
                  after.orders[i] == w.orders[i].(cycle := after.orders[i].cycle)
                  && if w.orders[i].user == user && w.orders[i].status.Active?
                     then TurnedFrom(s.p, w.orders[i].cycle, after.orders[i].cycle) else after.orders[i] == w.orders[i])
            && after.ledger == w.ledger + [Entry(user, Kind.Extract, -amount)]
            && after.ids == w.ids && after.nextId == w.nextId && after.paths == w.paths
  {
    hide World.Valid, Turn;
    FeeNet(s.p, amount);
    hide U.Fee;
    forall c: Cycle
      ensures TurnedFrom(s.p, c, Turn(s.p, c))
    {
      TurnIs(s.p, c);
    }
  }

  lemma TurnIs(p: Params, c: Cycle)
    ensures TurnedFrom(p, c, Turn(p, c))
  {
  }

  lemma FeeNet(p: Params, amount: int)
    requires p.scale > 0
    ensures -p.scale <= 2 * (p.extractFee * amount) - 2 * (p.scale * U.Fee(p, amount)) <= p.scale
  {
    assert amount * p.extractFee == p.extractFee * amount;
  }

  // ---- over any history ----

  /** From a to b no row changes its user or its terms. */
  ghost predicate TermsKept(a: seq<Withdraw>, b: seq<Withdraw>)
  {
    && |a| <= |b|
    && forall i :: 0 <= i < |a| ==> b[i] == a[i].(status := b[i].status, txHash := b[i].txHash)
  }

  lemma {:induction false} CancelKeepsTerms(w: World, n: nat)
    requires n <= |w.withdraws|
    ensures TermsKept(w.withdraws, U.CancelPending(w, n).withdraws) && |U.CancelPending(w, n).withdraws| == |w.withdraws|
    decreases n
  {
    if n > 0 {
      CancelKeepsTerms(if w.withdraws[n - 1].status.Pending? then U.Refunded(w, n - 1) else w, n - 1);
    }
  }

  lemma OtherTerms(s: Setting, w: World, op: Op)
    requires s.p.scale > 0 && w.Valid() && !op.Extract?
    ensures TermsKept(w.withdraws, Apply(s, w, op).withdraws) && |Apply(s, w, op).withdraws| == |w.withdraws|
  {
    hide World.Valid, SettleOnce, P.Process, P.Confirm, U.CancelPending, U.FindByAddress, U.NewPath;
    match op
    case Payout(id, x) => P.CallsMoveRowsForward(s.payout, Chained(w), id, x);
    case ConfirmPayout(id, x) => P.CallsMoveRowsForward(s.payout, Chained(w), id, x);
    case CancelPending => CancelKeepsTerms(w, |w.withdraws|);
    case Settle(only, order) => SettlementShape(s.p, w, only, order);
    case _ =>
  }

  /** Only a withdrawal adds a row, on its terms. */
  lemma ApplyTerms(s: Setting, w: World, op: Op)
    requires s.p.scale > 0 && w.Valid()
    ensures var after := Apply(s, w, op);
            && TermsKept(w.withdraws, after.withdraws)
            && |after.withdraws| == |w.withdraws| + (if op.Extract? && Attempt(s, w, op).Done? then 1 else 0)
            && (op.Extract? && Attempt(s, w, op).Done? ==> Net(s.p, after.withdraws[|w.withdraws|]))
  {
    hide World.Valid, Attempt, Net;
    if !op.Extract? {
      OtherTerms(s, w, op);
    } else if Attempt(s, w, op).Done? {
      WithdrawalTerms(s, w, op.user, op.amount);
      assert forall i :: 0 <= i < |w.withdraws| ==> Apply(s, w, op).withdraws[..|w.withdraws|][i] == w.withdraws[i];
    }
  }

  /** Every row of every history is net, and keeps its terms for good. */
  lemma {:induction false} NetOverRuns(s: Setting, w: World, ops: seq<Op>)
    requires s.p.scale > 0 && w.Valid() && AllNet(s.p, w.withdraws)
    ensures AllNet(s.p, After(s, w, ops).withdraws) && TermsKept(w.withdraws, After(s, w, ops).withdraws)
    decreases |ops|
  {
    hide World.Valid, Apply, Attempt, Net;
    if ops != [] {
      var w1 := Apply(s, w, ops[0]);
      ApplyValid(s, w, ops[0]);
      ApplyTerms(s, w, ops[0]);
      SameNet(s.p, w.withdraws, w1.withdraws);
      NetOverRuns(s, w1, ops[1..]);
    }
  }

  lemma SameNet(p: Params, a: seq<Withdraw>, b: seq<Withdraw>)
    requires AllNet(p, a) && TermsKept(a, b) && |b| <= |a| + 1 && (|b| == |a| + 1 ==> Net(p, b[|a|]))
    ensures AllNet(p, b)
  {
  }

  // ---- what is paid out ----

  /** All broadcasts of a history. */
  ghost function Sent(s: Setting, w: World, ops: seq<Op>): seq<P.Broadcast>
    requires s.p.scale > 0 && w.Valid()
    decreases |ops|
  {
    if ops == [] then []
    else
      ApplyValid(s, w, ops[0]);
      (if ops[0].Payout? then P.Process(s.payout, Chained(w), ops[0].id, ops[0].weather).0.sent else [])
      + Sent(s, Apply(s, w, ops[0]), ops[1..])
  }

  /** b pays a row of the table what it is to be paid. */
  ghost predicate PaysRow(b: P.Broadcast, rows: seq<Withdraw>)
  {
    b.id < |rows| && b.amount == rows[b.id].credited
  }

  lemma OneCallPays(s: Setting, w: World, id: nat, x: P.Weather, b: P.Broadcast)
    requires b in P.Process(s.payout, Chained(w), id, x).0.sent
    ensures PaysRow(b, w.withdraws) && b.amount <= s.payout.maxUsdt
  {
  }

  lemma {:induction false} SentPaysRows(s: Setting, w: World, ops: seq<Op>, b: P.Broadcast)
    requires s.p.scale > 0 && w.Valid() && b in Sent(s, w, ops)
    ensures PaysRow(b, After(s, w, ops).withdraws) && b.amount <= s.payout.maxUsdt
    decreases |ops|
  {
    hide World.Valid, Apply, Attempt, P.Process;
    var op, rest := ops[0], ops[1..];
    ApplyValid(s, w, op);
    var w1 := Apply(s, w, op);
    if b in Sent(s, w1, rest) {
      SentPaysRows(s, w1, rest, b);
    } else {
      OneCallPays(s, w, op.id, op.weather, b);
      ApplyTerms(s, w, op);
      TermsOverRuns(s, w1, rest);
    }
  }

  lemma {:induction false} TermsOverRuns(s: Setting, w: World, ops: seq<Op>)
    requires s.p.scale > 0 && w.Valid()
    ensures TermsKept(w.withdraws, After(s, w, ops).withdraws)
    decreases |ops|
  {
    hide World.Valid, Apply, Attempt, Net;
    if ops != [] {
      ApplyValid(s, w, ops[0]);
      ApplyTerms(s, w, ops[0]);
      TermsOverRuns(s, Apply(s, w, ops[0]), ops[1..]);
    }
  }

  /** Over every history from empty tables: each broadcast pays a withdrawal its amount less the fee, at
      most the cap; with a fee rate from 0 to 1 never more than was withdrawn. */
  lemma BroadcastsAreNet(s: Setting, ops: seq<Op>, b: P.Broadcast)
    requires s.p.scale > 0 && b in Sent(s, EmptyWorld, ops)
    ensures var rows := History(s, ops).withdraws;
            && b.id < |rows| && Net(s.p, rows[b.id]) && b.amount == rows[b.id].amount - rows[b.id].fee
            && b.amount <= s.payout.maxUsdt
            && (0 <= s.p.extractFee <= s.p.scale ==> 0 <= b.amount <= rows[b.id].amount)
  {
    EmptyValid();
    hide World.Valid, After, Sent;
    SentPaysRows(s, EmptyWorld, ops, b);
    NetOverRuns(s, EmptyWorld, ops);
    var row := History(s, ops).withdraws[b.id];
    assert Net(s.p, row);
    hide Net;
    if 0 <= s.p.extractFee <= s.p.scale {
      NetParts(s.p, row);
    }
    NetSum(s.p, row);
  }

  lemma NetSum(p: Params, x: Withdraw)
    requires Net(p, x)
    ensures x.credited == x.amount - x.fee
  {
  }
}
