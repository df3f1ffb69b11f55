/** The payout state machine (payout.go, withdraw.go): one process, one mutex, any outcome of
    transfers, receipts and database writes. */
module Payout {
  import opened Arith
  import opened Tables
  import opened UseCases

  /** What the world answers during one call.  A refused transfer sent nothing. */
  datatype Transfer = Sent(hash: string) | Refused

  datatype Receipt = Succeeded | Reverted | Unknown

  datatype Weather = Weather(claimed: bool, userFound: bool, transfer: Transfer, hashSaved: bool,
                             receipt: Receipt, passSaved: bool)

  /** Transaction hashes are never empty. */
  ghost predicate Plausible(x: Weather)
  {
    x.transfer.Sent? ==> x.transfer.hash != ""
  }

  datatype Broadcast = Broadcast(id: nat, amount: int, hash: string)

  /** rows is the withdraws table; sent, seen and lost record what happened on the chain: the
      transfers broadcast, the successful receipts read, the hashes that could not be stored. */
  datatype Chain = Chain(rows: seq<Withdraw>, sent: seq<Broadcast>, seen: set<(nat, string)>, lost: seq<nat>)

  datatype Answer = Ok | Blocked(error: Error) | NotFound | Conflict | DatabaseError | NoUser | TransferError

  // ---- guarded updates ----

  /** WHERE id = ? AND status IN ('rewarded', 'approved'). */
  function ClaimRow(x: Withdraw): Withdraw
  {
    if x.status.Rewarded? || x.status.Approved? then x.(status := Doing) else x
  }

  /** WHERE id = ? AND status = 'doing' AND tx_hash <> ''. */
  function PassRow(x: Withdraw): Withdraw
  {
    if x.status.Doing? && x.txHash != "" then x.(status := Pass) else x
  }

  function SetRow(st: Chain, id: nat, x: Withdraw): Chain
    requires id < |st.rows|
  {
    st.(rows := st.rows[id := x])
  }

  // ---- calls ----

  function ConfirmPayout(st: Chain, id: nat, x: Weather): (Chain, Answer)
    requires id < |st.rows|
  {
    match x.receipt
    case Unknown => (st, Ok)
    case Reverted => (st, Conflict)
    case Succeeded =>
      var seen := st.(seen := st.seen + {(id, st.rows[id].txHash)});
      if !x.passSaved then (seen, DatabaseError) else (SetRow(seen, id, PassRow(st.rows[id])), Ok)
  }

  /** Broadcast for a claimed row that has no hash yet, then store the hash and confirm. */
  function SendPayout(st: Chain, id: nat, x: Weather): (Chain, Answer)
    requires id < |st.rows|
  {
    var row := st.rows[id];
    if !x.userFound then (st, NoUser)
    else if x.transfer.Refused? || row.credited <= 0 then (st, TransferError)
    else
      var sent := st.(sent := st.sent + [Broadcast(id, row.credited, x.transfer.hash)]);
      if !x.hashSaved then (sent.(lost := st.lost + [id]), DatabaseError)
      else ConfirmPayout(SetRow(sent, id, row.(txHash := x.transfer.hash)), id, x)
  }

  function ProcessClaimed(st: Chain, id: nat, x: Weather): (Chain, Answer)
    requires id < |st.rows|
  {
    var row := st.rows[id];
    if !row.status.Doing? then (st, Conflict)
    else if row.txHash != "" then ConfirmPayout(st, id, x)
    else SendPayout(st, id, x)
  }

  /** ProcessWithdrawPayout. */
  function Process(c: PayoutConfig, st: Chain, id: nat, x: Weather): (Chain, Answer)
  {
    if !c.enabled then (st, Blocked(PayoutDisabled))
    else if c.maxUsdt <= 0 then (st, Blocked(PayoutMaxRequired))
    else if !c.ready then (st, Blocked(PayoutNotConfigured))
    else if id >= |st.rows| then (st, NotFound)
    else
      var row := st.rows[id];
      if row.status.Pass? then (st, Ok)
      else if row.status.Doing? && row.txHash != "" then ConfirmPayout(st, id, x)
      else if row.credited > c.maxUsdt then (st, Blocked(PayoutAboveMax))
      else if row.status.Rewarded? || row.status.Approved? then
        if !x.claimed then (st, DatabaseError)
        else ProcessClaimed(SetRow(st, id, ClaimRow(row)), id, x)
      else ProcessClaimed(st, id, x)
  }

  /** ConfirmWithdrawPayout. */
  function Confirm(st: Chain, id: nat, x: Weather): (Chain, Answer)
  {
    if id >= |st.rows| then (st, NotFound)
    else
      var row := st.rows[id];
      if row.txHash == "" then (st, Conflict)
      else if row.status.Pass? then (st, Ok)
      else if !row.status.Doing? then (st, Conflict)
      else ConfirmPayout(st, id, x)
  }

  /** WHERE status IN ('rewarded', 'approved', 'doing') ORDER BY id ASC LIMIT limit. */
  function PayoutQueue(rows: seq<Withdraw>, limit: int): (ids: seq<nat>)
    ensures forall k :: 0 <= k < |ids| ==> ids[k] < |rows|
  {
    var all := QueuedIds(rows);
    var n := if limit <= 0 then 20 else limit;
    if |all| <= n then all else all[..n]
  }

  function QueuedIds(rows: seq<Withdraw>): (ids: seq<nat>)
    ensures forall k :: 0 <= k < |ids| ==> ids[k] < |rows|
  {
    if rows == [] then []
    else
      var n := |rows| - 1;
      QueuedIds(rows[..n])
      + if rows[n].status.Rewarded? || rows[n].status.Approved? || rows[n].status.Doing? then [n] else []
  }

  /** Process each queued withdrawal in turn. */
  function ProcessAll(c: PayoutConfig, st: Chain, ids: seq<nat>, xs: seq<Weather>): Chain
    requires |xs| == |ids|
  {
    if ids == [] then st
    else
      var n := |ids| - 1;
      Process(c, ProcessAll(c, st, ids[..n], xs[..n]), ids[n], xs[n]).0
  }

  /** What keeps the queue from being worked at all. */
  function QueueBlocker(c: PayoutConfig): Option<Error>
  {
    if !c.enabled then Some(PayoutDisabled) else if c.maxUsdt <= 0 then Some(PayoutMaxRequired) else None
  }

  /** How many of the queued withdrawals were processed without an error. */
  function Finished(c: PayoutConfig, st: Chain, ids: seq<nat>, xs: seq<Weather>): nat
    requires |xs| == |ids|
  {
    if ids == [] then 0
    else
      var n := |ids| - 1;
      Finished(c, st, ids[..n], xs[..n])
      + if Process(c, ProcessAll(c, st, ids[..n], xs[..n]), ids[n], xs[n]).1.Ok? then 1 else 0
  }

  // ---- safety ----

  function Sendings(sent: seq<Broadcast>, id: nat): nat
  {
    if sent == [] then 0
    else Sendings(sent[..|sent| - 1], id) + if sent[|sent| - 1].id == id then 1 else 0
  }

  function Losses(lost: seq<nat>, id: nat): nat
  {
    if lost == [] then 0
    else Losses(lost[..|lost| - 1], id) + if lost[|lost| - 1] == id then 1 else 0
  }

  /** As many broadcasts for a withdrawal as hashes lost plus the one stored, if any, and the
      stored hash is that of a broadcast of the credited amount. */
  ghost predicate Accounted(st: Chain, id: nat)
    requires id < |st.rows|
  {
    var row := st.rows[id];
    && Sendings(st.sent, id) == Losses(st.lost, id) + (if row.txHash != "" then 1 else 0)
    && (row.txHash != "" ==> Broadcast(id, row.credited, row.txHash) in st.sent)
  }

  ghost predicate Safe(c: PayoutConfig, st: Chain)
  {
    && (forall k :: 0 <= k < |st.sent| ==>
          st.sent[k].id < |st.rows| && 0 < st.sent[k].amount <= c.maxUsdt
          && st.sent[k].amount == st.rows[st.sent[k].id].credited)
    && (forall k :: 0 <= k < |st.lost| ==> st.lost[k] < |st.rows|)
    && (forall i :: 0 <= i < |st.rows| && st.rows[i].status.Pass? ==>
          st.rows[i].txHash != "" && (i, st.rows[i].txHash) in st.seen)
    && (forall i :: 0 <= i < |st.rows| ==> Accounted(st, i))
  }

  /** rewarded or approved, then doing, then pass; nothing else moves. */
  ghost predicate StatusForward(a: WithdrawStatus, b: WithdrawStatus)
  {
    || b == a
    || ((a.Rewarded? || a.Approved?) && (b.Doing? || b.Pass?))
    || (a.Doing? && b.Pass?)
  }

  /** Amounts stay, the status only moves forward, a stored hash is never replaced and no
      broadcast follows it. */
  ghost predicate Forward(a: Chain, b: Chain)
  {
    && |a.rows| == |b.rows|
    && forall i :: 0 <= i < |a.rows| ==> RowForward(a, b, i)
  }

  ghost predicate RowForward(a: Chain, b: Chain, i: nat)
    requires i < |a.rows| == |b.rows|
  {
    var x, y := a.rows[i], b.rows[i];
    && y == x.(status := y.status, txHash := y.txHash)
    && StatusForward(x.status, y.status)
    && (x.txHash != "" ==> y.txHash == x.txHash && Sendings(b.sent, i) == Sendings(a.sent, i))
    && Sendings(a.sent, i) <= Sendings(b.sent, i)
  }

  /** In the withdraws table a call touches only status and hash, and moves the status forward. */
  ghost predicate RowsForward(a: seq<Withdraw>, b: seq<Withdraw>)
  {
    && |a| == |b|
    && forall i :: 0 <= i < |a| ==>
         b[i] == a[i].(status := b[i].status, txHash := b[i].txHash) && StatusForward(a[i].status, b[i].status)
  }

  lemma CallsMoveRowsForward(c: PayoutConfig, st: Chain, id: nat, x: Weather)
    ensures RowsForward(st.rows, Process(c, st, id, x).0.rows)
    ensures RowsForward(st.rows, Confirm(st, id, x).0.rows)
  {
    hide RowsForward;
    RowsStay(st.rows);
    if id < |st.rows| {
      var row := st.rows[id];
      var claimed := SetRow(st, id, ClaimRow(row));
      OneRowForward(st.rows, id, ClaimRow(row));
      ConfirmMovesRow(st, id, x);
      SendMovesRow(st, id, x);
      SendMovesRow(claimed, id, x);
      ConfirmMovesRow(claimed, id, x);
      RowsForwardTwice(st.rows, claimed.rows, SendPayout(claimed, id, x).0.rows);
      RowsForwardTwice(st.rows, claimed.rows, ConfirmPayout(claimed, id, x).0.rows);
      hide SendPayout, ConfirmPayout;
    }
  }

  lemma RowsStay(rows: seq<Withdraw>)
    ensures RowsForward(rows, rows)
  {
  }

  lemma OneRowForward(rows: seq<Withdraw>, id: nat, x: Withdraw)
    requires id < |rows| && x == rows[id].(status := x.status, txHash := x.txHash) && StatusForward(rows[id].status, x.status)
    ensures RowsForward(rows, rows[id := x])
  {
  }

  lemma RowsForwardTwice(a: seq<Withdraw>, b: seq<Withdraw>, c: seq<Withdraw>)
    requires RowsForward(a, b) && RowsForward(b, c)
    ensures RowsForward(a, c)
  {
  }

  lemma ConfirmMovesRow(st: Chain, id: nat, x: Weather)
    requires id < |st.rows|
    ensures RowsForward(st.rows, ConfirmPayout(st, id, x).0.rows)
  {
    RowsStay(st.rows);
    OneRowForward(st.rows, id, PassRow(st.rows[id]));
    hide RowsForward;
  }

  lemma SendMovesRow(st: Chain, id: nat, x: Weather)
    requires id < |st.rows|
    ensures RowsForward(st.rows, SendPayout(st, id, x).0.rows)
  {
    RowsStay(st.rows);
    hide RowsForward, ConfirmPayout;
    if x.transfer.Sent? {
      var row := st.rows[id];
      var stored := SetRow(st.(sent := st.sent + [Broadcast(id, row.credited, x.transfer.hash)]), id, row.(txHash := x.transfer.hash));
      OneRowForward(st.rows, id, row.(txHash := x.transfer.hash));
      ConfirmMovesRow(stored, id, x);
      RowsForwardTwice(st.rows, stored.rows, ConfirmPayout(stored, id, x).0.rows);
    }
  }

  lemma ForwardTransitive(a: Chain, b: Chain, c: Chain)
    requires Forward(a, b) && Forward(b, c)
    ensures Forward(a, c)
  {
    forall i | 0 <= i < |a.rows|
      ensures RowForward(a, c, i)
    {
      assert RowForward(a, b, i) && RowForward(b, c, i);
    }
  }

  /** A state reached inside a call and what the call may still do from it. */
  ghost predicate Good(c: PayoutConfig, a: Chain, b: Chain)
  {
    Forward(a, b) && (Safe(c, a) ==> Safe(c, b))
  }

  lemma GoodTransitive(c: PayoutConfig, a: Chain, b: Chain, d: Chain)
    requires Good(c, a, b) && Good(c, b, d)
    ensures Good(c, a, d)
  {
    ForwardTransitive(a, b, d);
  }

  lemma GoodReflexive(c: PayoutConfig, a: Chain)
    ensures Good(c, a, a)
  {
  }

  lemma ConfirmGood(c: PayoutConfig, st: Chain, id: nat, x: Weather)
    requires id < |st.rows| && st.rows[id].txHash != ""
    ensures Good(c, st, ConfirmPayout(st, id, x).0)
  {
    var after := ConfirmPayout(st, id, x).0;
    forall i | 0 <= i < |st.rows|
      ensures RowForward(st, after, i)
    {
    }
    if Safe(c, st) {
      forall i | 0 <= i < |after.rows|
        ensures Accounted(after, i)
      {
        assert Accounted(st, i);
      }
    }
  }

  lemma SendingsAppend(sent: seq<Broadcast>, b: Broadcast, id: nat)
    ensures Sendings(sent + [b], id) == Sendings(sent, id) + if b.id == id then 1 else 0
  {
    assert (sent + [b])[..|sent|] == sent;
  }

  lemma LossesAppend(lost: seq<nat>, x: nat, id: nat)
    ensures Losses(lost + [x], id) == Losses(lost, id) + if x == id then 1 else 0
  {
    assert (lost + [x])[..|lost|] == lost;
  }

  /** Broadcasting and storing the hash. */
  lemma RecordedGood(c: PayoutConfig, st: Chain, id: nat, hash: string)
    requires id < |st.rows| && st.rows[id].txHash == "" && hash != "" && 0 < st.rows[id].credited <= c.maxUsdt
    requires st.rows[id].status.Doing?
    ensures var b := Broadcast(id, st.rows[id].credited, hash);
            Good(c, st, SetRow(st.(sent := st.sent + [b]), id, st.rows[id].(txHash := hash)))
  {
    var b := Broadcast(id, st.rows[id].credited, hash);
    var after := SetRow(st.(sent := st.sent + [b]), id, st.rows[id].(txHash := hash));
    forall i | 0 <= i < |st.rows|
      ensures RowForward(st, after, i)
      ensures Accounted(st, i) ==> Accounted(after, i)
    {
      SendingsAppend(st.sent, b, i);
    }
  }

  /** Broadcasting when the hash cannot be stored. */
  lemma LostGood(c: PayoutConfig, st: Chain, id: nat, hash: string)
    requires id < |st.rows| && st.rows[id].txHash == "" && 0 < st.rows[id].credited <= c.maxUsdt
    ensures var b := Broadcast(id, st.rows[id].credited, hash);
            Good(c, st, st.(sent := st.sent + [b], lost := st.lost + [id]))
  {
    var b := Broadcast(id, st.rows[id].credited, hash);
    var after := st.(sent := st.sent + [b], lost := st.lost + [id]);
    forall i | 0 <= i < |st.rows|
      ensures RowForward(st, after, i)
      ensures Accounted(st, i) ==> Accounted(after, i)
    {
      SendingsAppend(st.sent, b, i);
      LossesAppend(st.lost, id, i);
    }
  }

  lemma ClaimGood(c: PayoutConfig, st: Chain, id: nat)
    requires id < |st.rows|
    ensures Good(c, st, SetRow(st, id, ClaimRow(st.rows[id])))
  {
    var after := SetRow(st, id, ClaimRow(st.rows[id]));
    forall i | 0 <= i < |st.rows|
      ensures RowForward(st, after, i)
      ensures Accounted(st, i) ==> Accounted(after, i)
    {
    }
  }

  lemma SendGood(c: PayoutConfig, st: Chain, id: nat, x: Weather)
    requires id < |st.rows| && st.rows[id].txHash == "" && st.rows[id].status.Doing?
    requires st.rows[id].credited <= c.maxUsdt && Plausible(x)
    ensures Good(c, st, SendPayout(st, id, x).0)
  {
    hide Good;
    GoodReflexive(c, st);
    var row := st.rows[id];
    if x.userFound && x.transfer.Sent? && row.credited > 0 {
      var b := Broadcast(id, row.credited, x.transfer.hash);
      if x.hashSaved {
        var stored := SetRow(st.(sent := st.sent + [b]), id, row.(txHash := x.transfer.hash));
        RecordedGood(c, st, id, x.transfer.hash);
        ConfirmGood(c, stored, id, x);
        GoodTransitive(c, st, stored, ConfirmPayout(stored, id, x).0);
      } else {
        LostGood(c, st, id, x.transfer.hash);
      }
    }
  }

  lemma ClaimedGood(c: PayoutConfig, st: Chain, id: nat, x: Weather)
    requires id < |st.rows| && st.rows[id].credited <= c.maxUsdt && Plausible(x)
    ensures Good(c, st, ProcessClaimed(st, id, x).0)
  {
    hide Good, SendPayout, ConfirmPayout;
    GoodReflexive(c, st);
    if st.rows[id].status.Doing? {
      if st.rows[id].txHash != "" {
        ConfirmGood(c, st, id, x);
      } else {
        SendGood(c, st, id, x);
      }
    }
  }

  /** Every call keeps the history safe and only moves forward. */
  lemma ProcessGood(c: PayoutConfig, st: Chain, id: nat, x: Weather)
    requires Plausible(x)
    ensures Good(c, st, Process(c, st, id, x).0)
  {
    hide Good, ProcessClaimed, ConfirmPayout;
    GoodReflexive(c, st);
    if id < |st.rows| {
      var row := st.rows[id];
      if row.txHash != "" {
        ConfirmGood(c, st, id, x);
      }
      if row.credited <= c.maxUsdt {
        var claimed := SetRow(st, id, ClaimRow(row));
        ClaimGood(c, st, id);
        ClaimedGood(c, claimed, id, x);
        ClaimedGood(c, st, id, x);
        GoodTransitive(c, st, claimed, ProcessClaimed(claimed, id, x).0);
      }
    }
  }

  lemma ConfirmCallGood(c: PayoutConfig, st: Chain, id: nat, x: Weather)
    ensures Good(c, st, Confirm(st, id, x).0)
  {
    hide Good, ConfirmPayout;
    GoodReflexive(c, st);
    if id < |st.rows| && st.rows[id].txHash != "" {
      ConfirmGood(c, st, id, x);
    }
  }

  lemma {:induction false} ProcessAllGood(c: PayoutConfig, st: Chain, ids: seq<nat>, xs: seq<Weather>)
    requires |xs| == |ids| && forall k :: 0 <= k < |xs| ==> Plausible(xs[k])
    ensures Good(c, st, ProcessAll(c, st, ids, xs))
  {
    hide Good, Process;
    GoodReflexive(c, st);
    if ids != [] {
      var n := |ids| - 1;
      var before := ProcessAll(c, st, ids[..n], xs[..n]);
      ProcessAllGood(c, st, ids[..n], xs[..n]);
      ProcessGood(c, before, ids[n], xs[n]);
      GoodTransitive(c, st, before, ProcessAll(c, st, ids, xs));
    }
  }

  // ---- histories ----

  datatype Call =
    | ProcessOne(id: nat, weather: Weather)
    | ConfirmOne(id: nat, weather: Weather)
    | RunQueue(limit: int, weathers: seq<Weather>)
    | NewRow(row: Withdraw)
    | CancelRow(id: nat)

  /** Weather is plausible, a queue run has one per queued row, new rows are queued unpaid. */
  ghost predicate Possible(st: Chain, call: Call)
  {
    match call
    case ProcessOne(_, x) => Plausible(x)
    case ConfirmOne(_, x) => Plausible(x)
    case RunQueue(limit, xs) =>
      |xs| == |PayoutQueue(st.rows, limit)| && forall k :: 0 <= k < |xs| ==> Plausible(xs[k])
    case NewRow(row) => row.status.Rewarded? && row.txHash == ""
    case CancelRow(id) => true
  }

  function Step(c: PayoutConfig, st: Chain, call: Call): Chain
  {
    match call
    case ProcessOne(id, x) => Process(c, st, id, x).0
    case ConfirmOne(id, x) => Confirm(st, id, x).0
    case RunQueue(limit, xs) =>
      if !c.enabled || c.maxUsdt <= 0 || |xs| != |PayoutQueue(st.rows, limit)| then st
      else ProcessAll(c, st, PayoutQueue(st.rows, limit), xs)
    case NewRow(row) => st.(rows := st.rows + [row])
    case CancelRow(id) =>
      if id < |st.rows| && st.rows[id].status.Pending? then SetRow(st, id, st.rows[id].(status := Cancelled)) else st
  }

  function Steps(c: PayoutConfig, st: Chain, calls: seq<Call>): Chain
  {
    if calls == [] then st else Step(c, Steps(c, st, calls[..|calls| - 1]), calls[|calls| - 1])
  }

  ghost predicate AllPossible(c: PayoutConfig, st: Chain, calls: seq<Call>)
  {
    calls == []
    || (AllPossible(c, st, calls[..|calls| - 1]) && Possible(Steps(c, st, calls[..|calls| - 1]), calls[|calls| - 1]))
  }

  lemma {:induction false} SentWithin(sent: seq<Broadcast>, id: nat)
    requires forall k :: 0 <= k < |sent| ==> sent[k].id < id
    ensures Sendings(sent, id) == 0
  {
    if sent != [] {
      SentWithin(sent[..|sent| - 1], id);
    }
  }

  lemma StepSafe(c: PayoutConfig, st: Chain, call: Call)
    requires Safe(c, st) && Possible(st, call)
    ensures Safe(c, Step(c, st, call))
  {
    match call
    case ProcessOne(id, x) => ProcessGood(c, st, id, x);
    case ConfirmOne(id, x) => ConfirmCallGood(c, st, id, x);
    case RunQueue(limit, xs) => ProcessAllGood(c, st, PayoutQueue(st.rows, limit), xs);
    case NewRow(row) => NewRowSafe(c, st, row);
    case CancelRow(id) => CancelRowSafe(c, st, id);
  }

  lemma NewRowSafe(c: PayoutConfig, st: Chain, row: Withdraw)
    requires Safe(c, st) && row.status.Rewarded? && row.txHash == ""
    ensures Safe(c, st.(rows := st.rows + [row]))
  {
    var after := st.(rows := st.rows + [row]);
    forall i | 0 <= i < |after.rows|
      ensures Accounted(after, i)
    {
      if i < |st.rows| {
        assert Accounted(st, i);
      } else {
        SentWithin(st.sent, i);
        NoLoss(st.lost, i);
      }
    }
  }

  lemma CancelRowSafe(c: PayoutConfig, st: Chain, id: nat)
    requires Safe(c, st)
    ensures Safe(c, Step(c, st, CancelRow(id)))
  {
    var after := Step(c, st, CancelRow(id));
    forall i | 0 <= i < |after.rows|
      ensures Accounted(after, i)
    {
      assert Accounted(st, i);
    }
  }

  /** After any sequence of process, confirm and queue calls with arbitrary outcomes: every
      broadcast is at most the cap and pays exactly the credited amount, a passed withdrawal has
      a successful receipt for its stored hash, and a withdrawal was broadcast at most once per
      hash that could not be stored, plus once. */
  lemma {:induction false} PayoutsSafe(c: PayoutConfig, st: Chain, calls: seq<Call>)
    requires Safe(c, st) && AllPossible(c, st, calls)
    ensures Safe(c, Steps(c, st, calls))
  {
    if calls != [] {
      hide Safe;
      PayoutsSafe(c, st, calls[..|calls| - 1]);
      StepSafe(c, Steps(c, st, calls[..|calls| - 1]), calls[|calls| - 1]);
    }
  }

  /** What any later history does to a withdrawal: its status moves only from rewarded or approved
      to doing to pass (or a pending row is cancelled), a stored hash is never overwritten, and no
      broadcast follows it. */
  ghost predicate RowLater(a: Chain, b: Chain, i: nat)
    requires i < |a.rows| <= |b.rows|
  {
    var x, y := a.rows[i], b.rows[i];
    && y == x.(status := y.status, txHash := y.txHash)
    && (StatusForward(x.status, y.status) || (x.status.Pending? && y.status.Cancelled?))
    && (x.txHash != "" ==> y.txHash == x.txHash && Sendings(b.sent, i) == Sendings(a.sent, i))
  }

  lemma StepLater(c: PayoutConfig, st: Chain, call: Call, i: nat)
    requires Possible(st, call) && i < |st.rows|
    ensures |st.rows| <= |Step(c, st, call).rows| && RowLater(st, Step(c, st, call), i)
  {
    var after := Step(c, st, call);
    if call.ProcessOne? || call.ConfirmOne? || call.RunQueue? {
      CallForward(c, st, call);
      assert RowForward(st, after, i);
    }
  }

  lemma CallForward(c: PayoutConfig, st: Chain, call: Call)
    requires Possible(st, call) && (call.ProcessOne? || call.ConfirmOne? || call.RunQueue?)
    ensures Forward(st, Step(c, st, call))
  {
    hide Forward, Process, Confirm, ProcessAll;
    match call
    case ProcessOne(id, x) => ProcessGood(c, st, id, x);
    case ConfirmOne(id, x) => ConfirmCallGood(c, st, id, x);
    case RunQueue(limit, xs) =>
      ProcessAllGood(c, st, PayoutQueue(st.rows, limit), xs);
      GoodReflexive(c, st);
  }

  lemma {:induction false} PayoutsMoveForward(c: PayoutConfig, st: Chain, calls: seq<Call>, i: nat)
    requires AllPossible(c, st, calls) && i < |st.rows|
    ensures |st.rows| <= |Steps(c, st, calls).rows| && RowLater(st, Steps(c, st, calls), i)
  {
    if calls != [] {
      var n := |calls| - 1;
      PayoutsMoveForward(c, st, calls[..n], i);
      hide Step;
      StepLater(c, Steps(c, st, calls[..n]), calls[n], i);
    }
  }

  lemma {:induction false} NoLoss(lost: seq<nat>, id: nat)
    requires id !in lost
    ensures Losses(lost, id) == 0
  {
    if lost != [] {
      NoLoss(lost[..|lost| - 1], id);
    }
  }

  lemma EmptyChainSafe(c: PayoutConfig)
    ensures Safe(c, Chain([], [], {}, []))
  {
  }

  /** Safety over every history that begins without withdrawals. */
  lemma PayoutsSafeFromEmpty(c: PayoutConfig, calls: seq<Call>)
    requires AllPossible(c, Chain([], [], {}, []), calls)
    ensures Safe(c, Steps(c, Chain([], [], {}, []), calls))
  {
    hide Safe, Steps;
    EmptyChainSafe(c);
    PayoutsSafe(c, Chain([], [], {}, []), calls);
  }

  /** After any calls a withdrawal was broadcast exactly once per hash that could not be stored,
      plus once when it has a hash; so at most once exactly when these are at most one. */
  lemma BroadcastsCounted(c: PayoutConfig, st: Chain, calls: seq<Call>, id: nat)
    requires Safe(c, st) && AllPossible(c, st, calls) && id < |Steps(c, st, calls).rows|
    ensures var after := Steps(c, st, calls);
            var stored := if after.rows[id].txHash != "" then 1 else 0;
            && Sendings(after.sent, id) == Losses(after.lost, id) + stored
            && (Sendings(after.sent, id) <= 1 <==> Losses(after.lost, id) + stored <= 1)
  {
    hide Steps, AllPossible;
    PayoutsSafe(c, st, calls);
    assert Accounted(Steps(c, st, calls), id);
  }

  /** When every broadcast hash of a withdrawal could be stored, it is broadcast at most once. */
  lemma BroadcastAtMostOnce(c: PayoutConfig, st: Chain, calls: seq<Call>, id: nat)
    requires Safe(c, st) && AllPossible(c, st, calls)
    requires id < |Steps(c, st, calls).rows| && id !in Steps(c, st, calls).lost
    ensures Sendings(Steps(c, st, calls).sent, id) <= 1
  {
    BroadcastsCounted(c, st, calls, id);
    NoLoss(Steps(c, st, calls).lost, id);
  }

  /** A payable withdrawal whose first hash is lost is broadcast again by the next call. */
  lemma LostHashIsSentAgain(c: PayoutConfig, st: Chain, id: nat, x: Weather, y: Weather)
    requires c.enabled && c.ready && id < |st.rows| && 0 < st.rows[id].credited <= c.maxUsdt
    requires st.rows[id].status.Rewarded? && st.rows[id].txHash == ""
    requires x.claimed && x.userFound && x.transfer.Sent? && !x.hashSaved
    requires y.userFound && y.transfer.Sent?
    ensures var after := Process(c, Process(c, st, id, x).0, id, y).0;
            Sendings(after.sent, id) == Sendings(st.sent, id) + 2
  {
    var row := st.rows[id];
    var b1, b2 := Broadcast(id, row.credited, x.transfer.hash), Broadcast(id, row.credited, y.transfer.hash);
    SendingsAppend(st.sent, b1, id);
    SendingsAppend(st.sent + [b1], b2, id);
    var claimed := SetRow(st, id, ClaimRow(row));
    assert Process(c, st, id, x).0 == claimed.(sent := st.sent + [b1], lost := st.lost + [id]);
    ConfirmKeepsSent(SetRow(claimed.(sent := st.sent + [b1] + [b2], lost := st.lost + [id]), id,
                            row.(status := Doing, txHash := y.transfer.hash)), id, y);
  }

  lemma ConfirmKeepsSent(st: Chain, id: nat, x: Weather)
    requires id < |st.rows|
    ensures ConfirmPayout(st, id, x).0.sent == st.sent
  {
  }

  /** From no withdrawals at all: one row, one lost hash, two broadcasts. */
  lemma TwoBroadcasts(c: PayoutConfig, row: Withdraw, x: Weather, y: Weather)
    requires c.enabled && c.ready && 0 < row.credited <= c.maxUsdt && row.status.Rewarded? && row.txHash == ""
    requires x.claimed && x.userFound && x.transfer.Sent? && !x.hashSaved && y.userFound && y.transfer.Sent?
    ensures Sendings(Steps(c, Chain([], [], {}, []), [NewRow(row), ProcessOne(0, x), ProcessOne(0, y)]).sent, 0) == 2
  {
    var none := Chain([], [], {}, []);
    var one, two, three := [NewRow(row)], [NewRow(row), ProcessOne(0, x)], [NewRow(row), ProcessOne(0, x), ProcessOne(0, y)];
    assert one[..0] == [] && two[..1] == one && three[..2] == two;
    var st := none.(rows := [row]);
    assert Steps(c, none, one) == st;
    hide Process;
    assert Steps(c, none, two) == Process(c, st, 0, x).0;
    assert Steps(c, none, three) == Process(c, Process(c, st, 0, x).0, 0, y).0;
    LostHashIsSentAgain(c, st, 0, x, y);
  }
}
