/** Subscription orders and the FIFO fill that every dynamic reward goes through
    (record.go: creditOrderAcceleration, chunkAcceleration; location.go queries). */
module Orders {
  import opened Arith
  import opened Rate

  datatype Status = Active | Exited

  /** Order rows are kept in id order; a row's position is its id. */
  datatype Order = Order(user: nat, amount: int, multiplier: int, target: int, acc: int, status: Status, cycle: Cycle)
  {
    predicate ActiveFor(u: nat)
    {
      user == u && status.Active?
    }

    /** Room left before exit, as the fill sees it. */
    function Room(): int
    {
      Max(0, target - acc)
    }

    /** The row after the fill spends chunk on it; a full row exits. */
    function Fed(chunk: int): Order
    {
      if target - acc <= 0 then this.(status := Exited)
      else if acc + chunk >= target then this.(acc := target, status := Exited)
      else this.(acc := acc + chunk)
    }

    /** Every order earns strictly less than its target while active, and exactly it once exited. */
    ghost predicate Sound()
    {
      && 0 <= acc
      && (status.Active? ==> acc < target)
      && (status.Exited? ==> acc == target)
    }
  }

  /** Orders after spending amount on u's active orders, oldest first, and what is left over. */
  function Fill(orders: seq<Order>, u: nat, amount: int): (r: (seq<Order>, int))
    ensures |r.0| == |orders|
  {
    if orders == [] then ([], amount)
    else
      var o := orders[0];
      if amount > 0 && o.ActiveFor(u) then
        var chunk := Min(amount, o.Room());
        var (rest, left) := Fill(orders[1..], u, amount - chunk);
        ([o.Fed(chunk)] + rest, left)
      else
        var (rest, left) := Fill(orders[1..], u, amount);
        ([o] + rest, left)
  }

  /** Total room of u's active orders. */
  function ActiveRoom(orders: seq<Order>, u: nat): int
  {
    if orders == [] then 0
    else (if orders[0].ActiveFor(u) then orders[0].Room() else 0) + ActiveRoom(orders[1..], u)
  }

  function AccTotal(orders: seq<Order>, u: nat): int
  {
    if orders == [] then 0 else (if orders[0].user == u then orders[0].acc else 0) + AccTotal(orders[1..], u)
  }

  function TargetTotal(orders: seq<Order>, u: nat): int
  {
    if orders == [] then 0 else (if orders[0].user == u then orders[0].target else 0) + TargetTotal(orders[1..], u)
  }

  function AmountTotal(orders: seq<Order>, u: nat): int
  {
    if orders == [] then 0 else (if orders[0].user == u then orders[0].amount else 0) + AmountTotal(orders[1..], u)
  }

  // ---- exactness ----

  /** What is applied is the smaller of the amount and the active room, the rest is discarded,
      and the applied amount is exactly what u's order progress gains. */
  lemma {:induction false} FillExact(orders: seq<Order>, u: nat, amount: int)
    requires amount >= 0
    ensures ActiveRoom(orders, u) >= 0
    ensures amount - Fill(orders, u, amount).1 == Min(amount, ActiveRoom(orders, u))
    ensures AccTotal(Fill(orders, u, amount).0, u) == AccTotal(orders, u) + Min(amount, ActiveRoom(orders, u))
    ensures ActiveRoom(Fill(orders, u, amount).0, u) == ActiveRoom(orders, u) - Min(amount, ActiveRoom(orders, u))
  {
    if orders != [] {
      var o := orders[0];
      var chunk := if amount > 0 && o.ActiveFor(u) then Min(amount, o.Room()) else 0;
      FillExact(orders[1..], u, amount - chunk);
    }
  }

  /** Nothing of another user moves, and only progress and status of u's rows can. */
  lemma {:induction false} FillFrame(orders: seq<Order>, u: nat, amount: int, i: nat)
    requires i < |orders|
    ensures var a, b := orders[i], Fill(orders, u, amount).0[i];
            && b == a.(acc := b.acc, status := b.status)
            && (!a.ActiveFor(u) ==> b == a)
            && (a.Sound() ==> b.Sound() && a.acc <= b.acc)
            && (a.status.Exited? ==> b.status.Exited?)
  {
    var o := orders[0];
    var chunk := if amount > 0 && o.ActiveFor(u) then Min(amount, o.Room()) else 0;
    if i > 0 {
      FillFrame(orders[1..], u, amount - chunk, i - 1);
    }
  }

  /** First in, first out: a younger order moves only when every older active one has exited. */
  lemma {:induction false} FillOldestFirst(orders: seq<Order>, u: nat, amount: int, i: nat, j: nat)
    requires i < j < |orders| && orders[i].ActiveFor(u)
    requires Fill(orders, u, amount).0[j] != orders[j]
    ensures Fill(orders, u, amount).0[i].status.Exited?
  {
    var o := orders[0];
    var chunk := if amount > 0 && o.ActiveFor(u) then Min(amount, o.Room()) else 0;
    if i > 0 {
      FillOldestFirst(orders[1..], u, amount - chunk, i - 1, j - 1);
    } else if amount - chunk <= 0 {
      FillNothing(orders[1..], u, amount - chunk);
    }
  }

  lemma {:induction false} FillNothing(orders: seq<Order>, u: nat, amount: int)
    requires amount <= 0 || forall i :: 0 <= i < |orders| ==> !orders[i].ActiveFor(u)
    ensures Fill(orders, u, amount) == (orders, amount)
  {
    if orders != [] {
      var rest := orders[1..];
      assert orders == [orders[0]] + rest;
      assert forall i :: 0 <= i < |rest| ==> rest[i] == orders[i + 1];
      FillNothing(rest, u, amount);
    }
  }

  // ---- confluence ----

  /** Crediting a and then b is crediting a + b at once. */
  lemma {:induction false} FillAdds(orders: seq<Order>, u: nat, a: int, b: int)
    requires a >= 0 && b >= 0
    ensures Fill(Fill(orders, u, a).0, u, b).0 == Fill(orders, u, a + b).0
  {
    if orders != [] {
      var o, rest := orders[0], orders[1..];
      var first := Fill(orders, u, a).0;
      var chunk := if a > 0 && o.ActiveFor(u) then Min(a, o.Room()) else 0;
      assert first[1..] == Fill(rest, u, a - chunk).0;
      var chunk' := if b > 0 && first[0].ActiveFor(u) then Min(b, first[0].Room()) else 0;
      FillAdds(rest, u, a - chunk, b - chunk');
      if a - chunk > 0 || !o.ActiveFor(u) || a == 0 {
      } else {
        FillNothing(rest, u, a - chunk);
      }
    }
  }

  /** Credits to different users commute. */
  lemma {:induction false} FillCommutes(orders: seq<Order>, u: nat, a: int, v: nat, b: int)
    requires u != v
    ensures Fill(Fill(orders, u, a).0, v, b).0 == Fill(Fill(orders, v, b).0, u, a).0
    ensures Fill(Fill(orders, u, a).0, v, b).1 == Fill(orders, v, b).1
  {
    if orders != [] {
      var o, rest := orders[0], orders[1..];
      var a' := a - if a > 0 && o.ActiveFor(u) then Min(a, o.Room()) else 0;
      var b' := b - if b > 0 && o.ActiveFor(v) then Min(b, o.Room()) else 0;
      assert Fill(orders, u, a).0[1..] == Fill(rest, u, a').0;
      assert Fill(orders, v, b).0[1..] == Fill(rest, v, b').0;
      FillCommutes(rest, u, a', v, b');
    }
  }

  // ---- queries ----

  /** SELECT ... WHERE user_id = ? AND status = 'active' ORDER BY id ASC LIMIT 1. */
  function EarliestActive(orders: seq<Order>, u: nat): (r: Option<nat>)
    ensures r.None? ==> forall i :: 0 <= i < |orders| ==> !orders[i].ActiveFor(u)
    ensures r.Some? ==> r.value < |orders| && orders[r.value].ActiveFor(u)
                        && forall i :: 0 <= i < r.value ==> !orders[i].ActiveFor(u)
  {
    if orders == [] then None
    else if orders[0].ActiveFor(u) then Some(0)
    else
      match EarliestActive(orders[1..], u)
      case None => None
      case Some(k) => Some(k + 1)
  }

  /** One round of the fill loop: spend on the earliest active order, then go on. */
  lemma {:induction false} FillEarliest(orders: seq<Order>, u: nat, amount: int, k: nat)
    requires amount > 0 && EarliestActive(orders, u) == Some(k)
    ensures var chunk := Min(amount, orders[k].Room());
            Fill(orders, u, amount) == Fill(orders[k := orders[k].Fed(chunk)], u, amount - chunk)
  {
    var o, rest := orders[0], orders[1..];
    var chunk := Min(amount, orders[k].Room());
    var after := orders[k := orders[k].Fed(chunk)];
    if k == 0 {
      assert after[1..] == rest;
      assert amount - chunk > 0 ==> !after[0].ActiveFor(u);
    } else {
      FillEarliest(rest, u, amount, k - 1);
      assert after[1..] == rest[k - 1 := rest[k - 1].Fed(chunk)];
    }
  }

  /** Number of u's active orders: the fill loop's variant. */
  function ActiveCount(orders: seq<Order>, u: nat): nat
  {
    if orders == [] then 0
    else (if orders[0].ActiveFor(u) then 1 else 0) + ActiveCount(orders[1..], u)
  }

  lemma {:induction false} ActiveCountUpdate(orders: seq<Order>, u: nat, k: nat, o: Order)
    requires k < |orders| && orders[k].ActiveFor(u)
    ensures ActiveCount(orders[k := o], u) == ActiveCount(orders, u) - if o.ActiveFor(u) then 0 else 1
  {
    if k == 0 {
      assert orders[k := o][1..] == orders[1..];
    } else {
      ActiveCountUpdate(orders[1..], u, k - 1, o);
      assert orders[k := o][1..] == orders[1..][k - 1 := o];
    }
  }
}
