/** Chain deposits at repository-call granularity (record.go CreditChainDeposit,
    ClaimChainDepositSkip, ReplaySkippedChainDeposit; eth_record.go): any number of syncers and
    replays, failing writes, crashes anywhere. */
module DepositProtocol {

  /** A row of eth_user_record; the index is unique (UNIQUE(last)). */
  datatype Row = Success(user: nat, amount: int) | Skipped

  datatype Payment = Payment(index: nat, user: nat, amount: int)

  /** What one worker has in hand between two repository calls. */
  datatype Work =
    | Claimed(index: nat, user: nat, amount: int)
    | Undoing(index: nat)
    | Replaying(index: nat) // has read a skipped row and is about to delete it
    | Emptied(index: nat)
  {
    /** This worker inserted the success row of i and has not yet paid it. */
    predicate Owns(i: nat)
    {
      (Claimed? || Undoing?) && index == i
    }
  }

  /** paid lists the balance credits that took effect; idle workers are not in the map. */
  datatype State = State(rows: map<nat, Row>, workers: map<nat, Work>, paid: seq<Payment>)

  /** The lowest chain deposit that is credited. */
  const MIN_DEPOSIT: int := 5

  datatype Event =
    | Skip(index: nat)
    | Claim(worker: nat, index: nat, user: nat, amount: int)
    | Credit(worker: nat)
    | CreditFails(worker: nat)
    | Undo(worker: nat)
    | Crash(worker: nat) // the process dies, or the delete meant by Undo fails
    | ReplayRead(worker: nat, index: nat)
    | ReplayDelete(worker: nat)
    | ReplayClaim(worker: nat, user: nat, amount: int)

  function Idle(s: State, worker: nat): State
  {
    s.(workers := s.workers - {worker})
  }

  /** One repository call.  An insert on an existing index fails; a call whose guard does not hold
      cannot happen and changes nothing. */
  ghost function Next(s: State, e: Event): State
  {
    match e
    case Skip(i) => if i in s.rows then s else s.(rows := s.rows[i := Skipped])
    case Claim(k, i, user, amount) =>
      if k in s.workers || i in s.rows || amount < MIN_DEPOSIT || user == 0 then s
      else s.(rows := s.rows[i := Success(user, amount)], workers := s.workers[k := Claimed(i, user, amount)])
    case Credit(k) =>
      if k in s.workers && s.workers[k].Claimed?
      then var x := s.workers[k]; Idle(s, k).(paid := s.paid + [Payment(x.index, x.user, x.amount)])
      else s
    case CreditFails(k) =>
      if k in s.workers && s.workers[k].Claimed?
      then s.(workers := s.workers[k := Undoing(s.workers[k].index)]) else s
    case Undo(k) =>
      if k in s.workers && s.workers[k].Undoing?
      then Idle(s, k).(rows := s.rows - {s.workers[k].index}) else s
    case Crash(k) => Idle(s, k)
    case ReplayRead(k, i) =>
      if k in s.workers || i !in s.rows || s.rows[i].Success? then s
      else s.(workers := s.workers[k := Replaying(i)])
    case ReplayDelete(k) =>
      if k in s.workers && s.workers[k].Replaying?
      then s.(rows := s.rows - {s.workers[k].index}, workers := s.workers[k := Emptied(s.workers[k].index)]) else s
    case ReplayClaim(k, user, amount) =>
      if !(k in s.workers && s.workers[k].Emptied?) then s
      else
        var i := s.workers[k].index;
        if i in s.rows || amount < MIN_DEPOSIT || user == 0 then Idle(s, k)
        else s.(rows := s.rows[i := Success(user, amount)], workers := s.workers[k := Claimed(i, user, amount)])
  }

  ghost function Exec(s: State, events: seq<Event>): State
  {
    if events == [] then s else Next(Exec(s, events[..|events| - 1]), events[|events| - 1])
  }

  const Fresh: State := State(map[], map[], [])

  // ---- at most once ----

  function Payments(paid: seq<Payment>, i: nat): nat
  {
    if paid == [] then 0
    else Payments(paid[..|paid| - 1], i) + if paid[|paid| - 1].index == i then 1 else 0
  }

  lemma PaymentsAppend(paid: seq<Payment>, x: Payment, i: nat)
    ensures Payments(paid + [x], i) == Payments(paid, i) + if x.index == i then 1 else 0
  {
    assert (paid + [x])[..|paid|] == paid;
  }

  ghost predicate HasSuccess(s: State, i: nat)
  {
    i in s.rows && s.rows[i].Success?
  }

  /** An unpaid success row has at most one owner, a paid one has none, and nothing else is paid. */
  ghost predicate IndexInv(s: State, i: nat)
  {
    && Payments(s.paid, i) <= 1
    && (Payments(s.paid, i) == 1 ==> HasSuccess(s, i) && forall k :: k in s.workers ==> !s.workers[k].Owns(i))
    && (forall k :: k in s.workers && s.workers[k].Owns(i) ==> HasSuccess(s, i))
    && (forall j, k :: j in s.workers && k in s.workers && s.workers[j].Owns(i) && s.workers[k].Owns(i) ==> j == k)
  }

  /** At most one replay stands between reading and deleting the row of i. */
  ghost predicate SoleAt(s: State, i: nat)
  {
    forall j, k :: j in s.workers && k in s.workers && s.workers[j] == Replaying(i) && s.workers[k] == Replaying(i) ==> j == k
  }

  /** A replay about to delete still looks at the skipped row it read. */
  ghost predicate Inv(s: State, i: nat)
  {
    && IndexInv(s, i)
    && SoleAt(s, i)
    && (forall k :: k in s.workers && s.workers[k] == Replaying(i) ==> i in s.rows && s.rows[i].Skipped?)
  }

  lemma NextKeepsIndex(s: State, e: Event, i: nat)
    requires Inv(s, i)
    ensures IndexInv(Next(s, e), i)
  {
    match e
    case Skip(j) => hide Payments;
    case Claim(k, j, user, amount) => hide Payments;
    case Credit(k) => CreditKeepsIndex(s, k, i);
    case CreditFails(k) => hide Payments;
      if k in s.workers && s.workers[k].Claimed? {
        assert s.workers[k].Owns(i) <==> Undoing(s.workers[k].index).Owns(i);
      }
    case Undo(k) => UndoKeepsIndex(s, k, i);
    case Crash(k) => hide Payments;
    case ReplayRead(k, j) => hide Payments;
    case ReplayDelete(k) => hide Payments;
    case ReplayClaim(k, user, amount) => hide Payments;
  }

  lemma CreditKeepsIndex(s: State, k: nat, i: nat)
    requires Inv(s, i)
    ensures IndexInv(Next(s, Credit(k)), i)
  {
    if k in s.workers && s.workers[k].Claimed? {
      var x := s.workers[k];
      assert x.Owns(i) <==> x.index == i;
      hide Payments;
      PaymentsAppend(s.paid, Payment(x.index, x.user, x.amount), i);
    }
  }

  lemma UndoKeepsIndex(s: State, k: nat, i: nat)
    requires Inv(s, i)
    ensures IndexInv(Next(s, Undo(k)), i)
  {
    if k in s.workers && s.workers[k].Undoing? {
      assert s.workers[k].Owns(i) <==> s.workers[k].index == i;
      hide Payments;
    }
  }

  lemma NextKeepsReplay(s: State, e: Event, i: nat)
    requires Inv(s, i) && SoleAt(Next(s, e), i)
    ensures forall k :: k in Next(s, e).workers && Next(s, e).workers[k] == Replaying(i) ==>
              i in Next(s, e).rows && Next(s, e).rows[i].Skipped?
  {
    hide Payments;
    match e
    case Undo(k) =>
      if k in s.workers && s.workers[k].Undoing? {
        assert s.workers[k].Owns(i) <==> s.workers[k].index == i;
      }
    case _ =>
  }

  lemma NextKeeps(s: State, e: Event, i: nat)
    requires Inv(s, i) && SoleAt(Next(s, e), i)
    ensures Inv(Next(s, e), i)
  {
    NextKeepsIndex(s, e, i);
    NextKeepsReplay(s, e, i);
  }

  /** Throughout the history at most one replay at a time stood between reading and deleting the
      row of i. */
  ghost predicate Sole(events: seq<Event>, i: nat)
  {
    SoleAt(Exec(Fresh, events), i) && (events == [] || Sole(events[..|events| - 1], i))
  }

  lemma {:induction false} ExecInv(events: seq<Event>, i: nat)
    requires Sole(events, i)
    ensures Inv(Exec(Fresh, events), i)
  {
    if events != [] {
      var rest := events[..|events| - 1];
      ExecInv(rest, i);
      hide Next, Inv, SoleAt;
      NextKeeps(Exec(Fresh, rest), events[|events| - 1], i);
    }
  }

  /** However rounds, replays, failures and crashes interleave, a contract index is credited at
      most once if no two of its replays stand between reading and deleting at the same time. */
  lemma CreditedAtMostOnce(events: seq<Event>, i: nat)
    requires Sole(events, i)
    ensures Payments(Exec(Fresh, events).paid, i) <= 1
  {
    ExecInv(events, i);
  }

  // ---- when a success row means paid ----

  /** i has a success row that no worker is still busy with. */
  ghost predicate Settled(s: State, i: nat)
  {
    HasSuccess(s, i) && forall k :: k in s.workers ==> !s.workers[k].Owns(i)
  }

  /** i counts as credited and never was. */
  ghost predicate Lost(s: State, i: nat)
  {
    Settled(s, i) && Payments(s.paid, i) == 0
  }

  /** A worker dies between claiming i and paying or undoing it. */
  ghost predicate OwnerDies(s: State, e: Event, i: nat)
  {
    e.Crash? && e.worker in s.workers && s.workers[e.worker].Owns(i)
  }

  /** The others do what they did; only the acting worker's hands change. */
  ghost predicate OthersSame(s: State, t: State, k: nat)
  {
    forall m :: m != k ==> (m in s.workers <==> m in t.workers) && (m in s.workers ==> t.workers[m] == s.workers[m])
  }

  /** One call: i becomes lost exactly when its owner dies, and once lost stays lost. */
  lemma NextLost(s: State, e: Event, i: nat)
    requires Inv(s, i)
    ensures Lost(Next(s, e), i) <==> Lost(s, i) || OwnerDies(s, e, i)
  {
    NextKeepsIndex(s, e, i);
    match e
    case Skip(j) => assert OthersSame(s, Next(s, e), 0);
    case Claim(k, j, user, amount) => ClaimLost(s, k, j, user, amount, i);
    case Credit(k) => CreditLost(s, k, i);
    case CreditFails(k) => FailLost(s, k, i);
    case Undo(k) => UndoLost(s, k, i);
    case Crash(k) => CrashLost(s, k, i);
    case ReplayRead(k, j) => ReplayLost(s, e, k, i);
    case ReplayDelete(k) => ReplayLost(s, e, k, i);
    case ReplayClaim(k, user, amount) => ReplayClaimLost(s, k, user, amount, i);
  }

  lemma ClaimLost(s: State, k: nat, j: nat, user: nat, amount: int, i: nat)
    requires Inv(s, i)
    ensures Lost(Next(s, Claim(k, j, user, amount)), i) <==> Lost(s, i)
  {
    var t := Next(s, Claim(k, j, user, amount));
    if t != s {
      assert OthersSame(s, t, k) && t.workers[k].index == j && t.workers[k].Owns(j);
      if i == j {
        assert !HasSuccess(s, i);
      }
    }
  }

  lemma CreditLost(s: State, k: nat, i: nat)
    requires Inv(s, i) && IndexInv(Next(s, Credit(k)), i)
    ensures Lost(Next(s, Credit(k)), i) <==> Lost(s, i)
  {
    var t := Next(s, Credit(k));
    if t != s {
      var x := s.workers[k];
      PaymentsAppend(s.paid, Payment(x.index, x.user, x.amount), i);
      assert OthersSame(s, t, k) && (x.Owns(i) <==> x.index == i);
    }
  }

  lemma FailLost(s: State, k: nat, i: nat)
    requires Inv(s, i)
    ensures Lost(Next(s, CreditFails(k)), i) <==> Lost(s, i)
  {
    var t := Next(s, CreditFails(k));
    if t != s {
      assert OthersSame(s, t, k) && (t.workers[k].Owns(i) <==> s.workers[k].Owns(i));
    }
  }

  lemma UndoLost(s: State, k: nat, i: nat)
    requires Inv(s, i)
    ensures Lost(Next(s, Undo(k)), i) <==> Lost(s, i)
  {
    var t := Next(s, Undo(k));
    if t != s {
      assert OthersSame(s, t, k) && (s.workers[k].Owns(i) <==> s.workers[k].index == i);
    }
  }

  lemma CrashLost(s: State, k: nat, i: nat)
    requires Inv(s, i)
    ensures Lost(Next(s, Crash(k)), i) <==> Lost(s, i) || OwnerDies(s, Crash(k), i)
  {
    var t := Next(s, Crash(k));
    assert OthersSame(s, t, k);
  }

  lemma ReplayLost(s: State, e: Event, k: nat, i: nat)
    requires Inv(s, i) && (e == ReplayDelete(k) || (e.ReplayRead? && e.worker == k))
    ensures Lost(Next(s, e), i) <==> Lost(s, i)
  {
    var t := Next(s, e);
    if t != s {
      assert OthersSame(s, t, k) && !t.workers[k].Owns(i);
    }
  }

  lemma ReplayClaimLost(s: State, k: nat, user: nat, amount: int, i: nat)
    requires Inv(s, i)
    ensures Lost(Next(s, ReplayClaim(k, user, amount)), i) <==> Lost(s, i)
  {
    var t := Next(s, ReplayClaim(k, user, amount));
    if t != s {
      assert OthersSame(s, t, k);
      if t.rows != s.rows && s.workers[k].index == i {
        assert k in t.workers && t.workers[k].Owns(i) && !HasSuccess(s, i);
      }
    }
  }

  /** Somewhere in the history the worker that held i dies. */
  ghost predicate SomeOwnerDies(events: seq<Event>, i: nat)
  {
    exists k :: 0 <= k < |events| && OwnerDies(Exec(Fresh, events[..k]), events[k], i)
  }

  /** A success row without its credit is left if and only if the worker that had claimed it died
      before paying or deleting it. */
  lemma {:induction false} LostExactlyWhenOwnerDies(events: seq<Event>, i: nat)
    requires Sole(events, i)
    ensures Lost(Exec(Fresh, events), i) <==> SomeOwnerDies(events, i)
  {
    if events != [] {
      var n := |events| - 1;
      var rest := events[..n];
      LostExactlyWhenOwnerDies(rest, i);
      ExecInv(rest, i);
      NextLost(Exec(Fresh, rest), events[n], i);
      hide Exec, OwnerDies, Lost, Inv, SomeOwnerDies;
      SomeOwnerDiesSnoc(events, i);
    }
  }

  lemma SomeOwnerDiesSnoc(events: seq<Event>, i: nat)
    requires events != []
    ensures var n := |events| - 1;
            SomeOwnerDies(events, i)
            <==> SomeOwnerDies(events[..n], i) || OwnerDies(Exec(Fresh, events[..n]), events[n], i)
  {
    hide Exec, OwnerDies;
    var n := |events| - 1;
    var rest := events[..n];
    forall k: nat | k < n
      ensures OwnerDies(Exec(Fresh, rest[..k]), rest[k], i) <==> OwnerDies(Exec(Fresh, events[..k]), events[k], i)
    {
      assert rest[..k] == events[..k];
    }
  }

  /** For every history: an index has been credited if and only if it has a settled success row
      and no worker died holding it. */
  lemma CreditedExactlyWhenSettled(events: seq<Event>, i: nat)
    requires Sole(events, i)
    ensures Payments(Exec(Fresh, events).paid, i) == 1 <==> Settled(Exec(Fresh, events), i) && !SomeOwnerDies(events, i)
  {
    hide SomeOwnerDies;
    LostExactlyWhenOwnerDies(events, i);
    ExecInv(events, i);
  }

  /** The shortest loss: claimed, then dead. */
  lemma CrashCanLoseACredit()
    ensures Lost(Exec(Fresh, [Claim(1, 0, 7, 100), Crash(1)]), 0)
  {
    var one := [Claim(1, 0, 7, 100)];
    var two := [Claim(1, 0, 7, 100), Crash(1)];
    assert one[..0] == [] && two[..1] == one;
    assert Exec(Fresh, one) == Next(Fresh, Claim(1, 0, 7, 100));
  }
}
