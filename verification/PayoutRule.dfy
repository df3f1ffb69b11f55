/** What one payout call gets done when nothing goes wrong, and which rows a queue run works (payout.go,
    withdraw.go). */
module PayoutRule {
  import opened Arith
  import opened Sums
  import opened Tables
  import opened UseCases
  import opened Payout

  ghost predicate Configured(c: PayoutConfig)
  {
    c.enabled && c.maxUsdt > 0 && c.ready
  }

  /** Everything answers and every write works. */
  ghost predicate Fair(x: Weather)
  {
    x.claimed && x.userFound && x.transfer.Sent? && x.transfer.hash != "" && x.hashSaved && x.receipt.Succeeded? && x.passSaved
  }

  /** A payable row: queued or claimed, with a positive amount within the cap. */
  ghost predicate Payable(c: PayoutConfig, row: Withdraw)
  {
    (row.status.Rewarded? || row.status.Approved? || row.status.Doing?) && 0 < row.credited <= c.maxUsdt
  }

  /** A claimed row with a hash and a successful receipt ends in pass, without a broadcast; with an unknown
      or reverted one it stays as it is. */
  lemma HashConfirmed(c: PayoutConfig, st: Chain, id: nat, x: Weather)
    requires Configured(c) && id < |st.rows| && st.rows[id].status.Doing? && st.rows[id].txHash != ""
    ensures var (after, answer) := Process(c, st, id, x);
            && (after, answer) == Confirm(st, id, x) && after.sent == st.sent && after.lost == st.lost
            && (x.receipt.Succeeded? && x.passSaved ==> answer.Ok? && after.rows == st.rows[id := st.rows[id].(status := Pass)])
            && (x.receipt.Succeeded? && !x.passSaved ==> answer.DatabaseError? && after.rows == st.rows)
            && (x.receipt.Reverted? ==> answer.Conflict? && after.rows == st.rows)
            && (x.receipt.Unknown? ==> answer.Ok? && after.rows == st.rows)
  {
  }

  /** A payable row without a hash is broadcast in this very call, for its credited amount; it ends in pass
      when the receipt is a success, else it keeps the hash and stays claimed. */
  lemma PaidInOneCall(c: PayoutConfig, st: Chain, id: nat, x: Weather)
    requires Configured(c) && id < |st.rows| && Payable(c, st.rows[id]) && st.rows[id].txHash == ""
    requires x.claimed && x.userFound && x.transfer.Sent? && x.transfer.hash != "" && x.hashSaved
    ensures var (after, answer) := Process(c, st, id, x);
            var row := st.rows[id].(txHash := x.transfer.hash);
            && (answer.Ok? <==> x.receipt.Unknown? || (x.receipt.Succeeded? && x.passSaved))
            && (answer.Conflict? <==> x.receipt.Reverted?) && (answer.DatabaseError? <==> x.receipt.Succeeded? && !x.passSaved)
            && after.sent == st.sent + [Broadcast(id, st.rows[id].credited, x.transfer.hash)] && after.lost == st.lost
            && after.rows == st.rows[id := row.(status := if x.receipt.Succeeded? && x.passSaved then Pass else Doing)]
  {
    var row := st.rows[id];
    assert st.rows[id := ClaimRow(row)][id := row.(status := Doing, txHash := x.transfer.hash)]
        == st.rows[id := row.(status := Doing, txHash := x.transfer.hash)];
  }

  /** A payable row without a hash: a claim that fails leaves it queued; no user and a refused transfer leave
      it claimed and unsent; a hash that cannot be stored leaves it claimed without one, sent and lost. */
  lemma PaymentBreaksOff(c: PayoutConfig, st: Chain, id: nat, x: Weather)
    requires Configured(c) && id < |st.rows| && Payable(c, st.rows[id]) && st.rows[id].txHash == ""
    ensures var (after, answer) := Process(c, st, id, x);
            var claimed := st.rows[id := st.rows[id].(status := Doing)];
            if !x.claimed && !st.rows[id].status.Doing? then (after, answer) == (st, DatabaseError)
            else if !x.userFound then (after, answer) == (st.(rows := claimed), NoUser)
            else if x.transfer.Refused? then (after, answer) == (st.(rows := claimed), TransferError)
            else !x.hashSaved ==>
              (after, answer) == (st.(rows := claimed, sent := st.sent + [Broadcast(id, st.rows[id].credited, x.transfer.hash)], lost := st.lost + [id]),
                                  DatabaseError)
  {
    if st.rows[id].status.Doing? {
      assert st.rows[id := st.rows[id].(status := Doing)] == st.rows;
    }
  }

  /** Rows that are paid, cancelled, rejected or still pending, rows above the cap without a hash, unknown
      rows, and calls that are not set up: nothing is sent, no row changes, and the answer says why. */
  lemma NothingDone(c: PayoutConfig, st: Chain, id: nat, x: Weather)
    requires || !Configured(c) || id >= |st.rows|
             || st.rows[id].status.Pass? || st.rows[id].status.Pending? || st.rows[id].status.Cancelled? || st.rows[id].status.Rejected?
             || (st.rows[id].credited > c.maxUsdt && !(st.rows[id].status.Doing? && st.rows[id].txHash != ""))
    ensures Process(c, st, id, x).0 == st
    ensures Process(c, st, id, x).1
         == if !c.enabled then Blocked(PayoutDisabled)
            else if c.maxUsdt <= 0 then Blocked(PayoutMaxRequired)
            else if !c.ready then Blocked(PayoutNotConfigured)
            else if id >= |st.rows| then NotFound
            else if st.rows[id].status.Pass? then Ok
            else if st.rows[id].credited > c.maxUsdt then Blocked(PayoutAboveMax)
            else Conflict
  {
  }

  // ---- the queue ----

  ghost predicate Queued(row: Withdraw)
  {
    row.status.Rewarded? || row.status.Approved? || row.status.Doing?
  }

  lemma {:induction false} QueuedExact(rows: seq<Withdraw>)
    ensures Ascending(QueuedIds(rows))
    ensures forall i: nat :: i in QueuedIds(rows) <==> i < |rows| && Queued(rows[i])
  {
    if rows != [] {
      var n := |rows| - 1;
      QueuedExact(rows[..n]);
      assert forall i: nat :: i < n ==> rows[..n][i] == rows[i];
    }
  }

  /** A queue run works the queued rows oldest first, at most limit of them, twenty when unset. */
  lemma QueueExact(rows: seq<Withdraw>, limit: int)
    ensures var queue, most := PayoutQueue(rows, limit), if limit <= 0 then 20 else limit;
            && Ascending(queue) && |queue| <= most
            && (forall i :: i in queue ==> i < |rows| && Queued(rows[i]))
            && (forall i: nat :: i < |rows| && Queued(rows[i]) && i !in queue ==> |queue| == most && forall j :: j in queue ==> j < i)
  {
    QueuedExact(rows);
    hide QueuedIds;
    var all, queue := QueuedIds(rows), PayoutQueue(rows, limit);
    assert forall i: nat :: i in all && i !in queue ==> exists k :: |queue| <= k < |all| && all[k] == i;
  }

  /** The call on the queued row k answers without an error. */
  ghost predicate Went(c: PayoutConfig, st: Chain, ids: seq<nat>, xs: seq<Weather>, k: nat)
    requires |xs| == |ids| && k < |ids|
  {
    Process(c, ProcessAll(c, st, ids[..k], xs[..k]), ids[k], xs[k]).1.Ok?
  }

  lemma WentBefore(c: PayoutConfig, st: Chain, ids: seq<nat>, xs: seq<Weather>, n: nat, k: nat)
    requires |xs| == |ids| && k < n <= |ids|
    ensures Went(c, st, ids[..n], xs[..n], k) <==> Went(c, st, ids, xs, k)
  {
    hide Process, ProcessAll;
    assert ids[..n][..k] == ids[..k] && xs[..n][..k] == xs[..k];
  }

  ghost function Good(c: PayoutConfig, st: Chain, ids: seq<nat>, xs: seq<Weather>): set<nat>
    requires |xs| == |ids|
  {
    set k: nat | k < |ids| && Went(c, st, ids, xs, k)
  }

  lemma OneMoreGood(c: PayoutConfig, st: Chain, ids: seq<nat>, xs: seq<Weather>)
    requires |xs| == |ids| && ids != []
    ensures var n := |ids| - 1; |Good(c, st, ids, xs)| == |Good(c, st, ids[..n], xs[..n])| + if Went(c, st, ids, xs, n) then 1 else 0
  {
    hide Went;
    var n := |ids| - 1;
    forall k: nat | k < n
      ensures Went(c, st, ids[..n], xs[..n], k) <==> Went(c, st, ids, xs, k)
    {
      WentBefore(c, st, ids, xs, n, k);
    }
    assert Good(c, st, ids, xs) == Good(c, st, ids[..n], xs[..n]) + if Went(c, st, ids, xs, n) then {n} else {};
  }

  /** A run reports how many of its calls answered without an error; it is blocked exactly when payouts are
      off or have no cap. */
  lemma {:induction false} RunReports(c: PayoutConfig, st: Chain, ids: seq<nat>, xs: seq<Weather>)
    requires |xs| == |ids|
    ensures Finished(c, st, ids, xs) == |Good(c, st, ids, xs)|
    ensures QueueBlocker(c) == if !c.enabled then Some(PayoutDisabled) else if c.maxUsdt <= 0 then Some(PayoutMaxRequired) else None
  {
    if ids == [] {
      assert Good(c, st, ids, xs) == {};
    } else {
      hide Process, ProcessAll, Good;
      RunReports(c, st, ids[..|ids| - 1], xs[..|ids| - 1]);
      OneMoreGood(c, st, ids, xs);
    }
  }

  lemma OneFair(c: PayoutConfig, st: Chain, id: nat, x: Weather)
    requires Configured(c) && id < |st.rows| && Payable(c, st.rows[id]) && Fair(x)
    requires st.rows[id].status.Doing? || st.rows[id].txHash == ""
    ensures var after := Process(c, st, id, x).0;
            |after.rows| == |st.rows| && after.rows[id].status.Pass?
            && forall i :: 0 <= i < |st.rows| && i != id ==> after.rows[i] == st.rows[i]
  {
    if st.rows[id].txHash == "" {
      PaidInOneCall(c, st, id, x);
    } else {
      HashConfirmed(c, st, id, x);
    }
  }

  /** Each listed row is payable, and without a hash unless claimed. */
  ghost predicate AllPayable(c: PayoutConfig, rows: seq<Withdraw>, ids: seq<nat>)
  {
    forall k :: 0 <= k < |ids| ==>
      ids[k] < |rows| && Payable(c, rows[ids[k]]) && (rows[ids[k]].status.Doing? || rows[ids[k]].txHash == "")
  }

  /** The listed rows are passed, the others as before. */
  ghost predicate AllPassed(before: seq<Withdraw>, after: seq<Withdraw>, ids: seq<nat>)
  {
    && |after| == |before|
    && (forall k :: 0 <= k < |ids| && ids[k] < |after| ==> after[ids[k]].status.Pass?)
    && forall i :: 0 <= i < |before| && i !in ids ==> after[i] == before[i]
  }

  lemma OneMorePassed(a: seq<Withdraw>, b: seq<Withdraw>, c: seq<Withdraw>, ids: seq<nat>)
    requires ids != [] && Ascending(ids) && AllPassed(a, b, ids[..|ids| - 1])
    requires var id := ids[|ids| - 1];
             id < |a| && |c| == |b| && c[id].status.Pass? && forall i :: 0 <= i < |b| && i != id ==> c[i] == b[i]
    ensures AllPassed(a, c, ids)
  {
    var n := |ids| - 1;
    assert forall k :: 0 <= k < n ==> ids[..n][k] == ids[k] < ids[n];
  }

  /** In a queue run in which everything works, every listed row ends in pass and no other moves. */
  lemma {:induction false} FairQueuePays(c: PayoutConfig, st: Chain, ids: seq<nat>, xs: seq<Weather>)
    requires Configured(c) && |xs| == |ids| && Ascending(ids) && AllPayable(c, st.rows, ids)
    requires forall k :: 0 <= k < |ids| ==> Fair(xs[k])
    ensures AllPassed(st.rows, ProcessAll(c, st, ids, xs).rows, ids)
  {
    if ids != [] {
      hide Process, Payable, Fair, Configured;
      var n := |ids| - 1;
      assert forall k :: 0 <= k < n ==> ids[..n][k] == ids[k] && xs[..n][k] == xs[k];
      FairQueuePays(c, st, ids[..n], xs[..n]);
      var before := ProcessAll(c, st, ids[..n], xs[..n]);
      assert ids[n] !in ids[..n] && before.rows[ids[n]] == st.rows[ids[n]];
      OneFair(c, before, ids[n], xs[n]);
      hide ProcessAll, AllPassed, AllPayable, Ascending;
      OneMorePassed(st.rows, before.rows, Process(c, before, ids[n], xs[n]).0.rows, ids);
      QueueNext(c, st, ids, xs);
    }
  }

  lemma QueueNext(c: PayoutConfig, st: Chain, ids: seq<nat>, xs: seq<Weather>)
    requires ids != [] && |xs| == |ids|
    ensures var n := |ids| - 1; ProcessAll(c, st, ids, xs) == Process(c, ProcessAll(c, st, ids[..n], xs[..n]), ids[n], xs[n]).0
  {
    hide Process;
  }
}
