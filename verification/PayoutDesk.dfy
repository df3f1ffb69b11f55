/** The payout use cases as the source runs them: guarded updates on the withdraws table under
    one mutex (payout.go, withdraw.go). */
module PayoutCalls {
  import opened Arith
  import opened Tables
  import opened UseCases
  import opened Payout

  class PayoutDesk {
    const config: PayoutConfig
    var rows: seq<Withdraw>
    ghost var sent: seq<Broadcast>
    ghost var seen: set<(nat, string)>
    ghost var lost: seq<nat>

    constructor (config: PayoutConfig, rows: seq<Withdraw>)
      ensures this.config == config && State() == Chain(rows, [], {}, [])
    {
      this.config := config;
      this.rows := rows;
      sent, seen, lost := [], {}, [];
    }

    /** The table and what happened on the chain so far. */
    ghost function State(): Chain
      reads this
    {
      Chain(rows, sent, seen, lost)
    }

    /** rewarded or approved becomes doing; ok tells whether a row changed. */
    method CasClaimPayout(id: nat) returns (ok: bool)
      requires id < |rows|
      modifies this`rows
      ensures rows == old(rows)[id := ClaimRow(old(rows)[id])]
      ensures ok <==> rows[id] != old(rows)[id]
    {
      ok := rows[id].status.Rewarded? || rows[id].status.Approved?;
      if ok {
        rows := rows[id := rows[id].(status := Doing)];
      }
    }

    method SetTxHash(id: nat, hash: string)
      requires id < |rows|
      modifies this`rows
      ensures rows == old(rows)[id := old(rows)[id].(txHash := hash)]
    {
      rows := rows[id := rows[id].(txHash := hash)];
    }

    /** doing with a stored hash becomes pass; ok tells whether a row changed. */
    method MarkPass(id: nat) returns (ok: bool)
      requires id < |rows|
      modifies this`rows
      ensures rows == old(rows)[id := PassRow(old(rows)[id])]
      ensures ok <==> rows[id] != old(rows)[id]
    {
      ok := rows[id].status.Doing? && rows[id].txHash != "";
      if ok {
        rows := rows[id := rows[id].(status := Pass)];
      }
    }

    /** Broadcast a transfer of the given amount; a refusal sends nothing. */
    method TransferUSDT(id: nat, amount: int, weather: Weather) returns (hash: Option<string>)
      modifies this`sent
      ensures weather.transfer.Refused? || amount <= 0 ==> hash == None && sent == old(sent)
      ensures weather.transfer.Sent? && amount > 0 ==>
                hash == Some(weather.transfer.hash) && sent == old(sent) + [Broadcast(id, amount, weather.transfer.hash)]
    {
      if amount <= 0 || weather.transfer.Refused? {
        return None;
      }
      sent := sent + [Broadcast(id, amount, weather.transfer.hash)];
      return Some(weather.transfer.hash);
    }

    method ConfirmPayoutCall(id: nat, weather: Weather) returns (answer: Answer)
      requires id < |rows|
      modifies this
      ensures (State(), answer) == ConfirmPayout(old(State()), id, weather)
    {
      if weather.receipt.Unknown? {
        return Ok;
      }
      if weather.receipt.Reverted? {
        return Conflict;
      }
      seen := seen + {(id, rows[id].txHash)};
      if !weather.passSaved {
        return DatabaseError;
      }
      var changed := MarkPass(id);
      return Ok;
    }

    method ProcessWithdrawPayout(id: nat, weather: Weather) returns (answer: Answer)
      modifies this
      ensures (State(), answer) == Process(config, old(State()), id, weather)
    {
      if !config.enabled {
        return Blocked(PayoutDisabled);
      }
      if config.maxUsdt <= 0 {
        return Blocked(PayoutMaxRequired);
      }
      if !config.ready {
        return Blocked(PayoutNotConfigured);
      }
      if id >= |rows| {
        return NotFound;
      }
      if rows[id].status.Pass? {
        return Ok;
      }
      if rows[id].status.Doing? && rows[id].txHash != "" {
        answer := ConfirmPayoutCall(id, weather);
        return;
      }
      if rows[id].credited > config.maxUsdt {
        return Blocked(PayoutAboveMax);
      }
      if rows[id].status.Rewarded? || rows[id].status.Approved? {
        if !weather.claimed {
          return DatabaseError;
        }
        var ok := CasClaimPayout(id);
        if !ok {
          return Conflict;
        }
      }
      if !rows[id].status.Doing? {
        return Conflict;
      }
      if rows[id].txHash != "" {
        answer := ConfirmPayoutCall(id, weather);
        return;
      }
      if !weather.userFound {
        return NoUser;
      }
      var hash := TransferUSDT(id, rows[id].credited, weather);
      if hash.None? {
        return TransferError;
      }
      if !weather.hashSaved {
        lost := lost + [id];
        return DatabaseError;
      }
      SetTxHash(id, hash.value);
      answer := ConfirmPayoutCall(id, weather);
    }

    method ConfirmWithdrawPayout(id: nat, weather: Weather) returns (answer: Answer)
      modifies this
      ensures (State(), answer) == Confirm(old(State()), id, weather)
    {
      if id >= |rows| {
        return NotFound;
      }
      if rows[id].txHash == "" {
        return Conflict;
      }
      if rows[id].status.Pass? {
        return Ok;
      }
      if !rows[id].status.Doing? {
        return Conflict;
      }
      answer := ConfirmPayoutCall(id, weather);
    }

    method RunPayoutQueue(limit: int, weathers: seq<Weather>) returns (finished: nat, blocked: Option<Error>)
      requires |weathers| == |PayoutQueue(rows, limit)|
      modifies this
      ensures State() == Step(config, old(State()), RunQueue(limit, weathers))
      ensures blocked == QueueBlocker(config)
      ensures finished == if blocked.Some? then 0 else Finished(config, old(State()), PayoutQueue(old(rows), limit), weathers)
    {
      if !config.enabled {
        return 0, Some(PayoutDisabled);
      }
      if config.maxUsdt <= 0 {
        return 0, Some(PayoutMaxRequired);
      }
      var queue := PayoutQueue(rows, limit);
      finished := 0;
      for k := 0 to |queue|
        invariant finished == Finished(config, old(State()), queue[..k], weathers[..k])
        invariant State() == ProcessAll(config, old(State()), queue[..k], weathers[..k])
      {
        assert queue[..k + 1][..k] == queue[..k] && weathers[..k + 1][..k] == weathers[..k];
        var answer := ProcessWithdrawPayout(queue[k], weathers[k]);
        if answer.Ok? {
          finished := finished + 1;
        }
      }
      assert queue[..|queue|] == queue && weathers[..|queue|] == weathers;
      return finished, None;
    }
  }
}
