/** Replays of one skipped deposit that overlap (record.go ReplaySkippedChainDeposit): the row is
    read, then deleted whatever it has become, then claimed.  How often an index is credited in any
    history, and when more than once. */
module ReplayOverlap {
  import opened DepositProtocol

  // ---- the exact count ----

  /** What makes credits and success rows differ. */
  datatype Mishap =
    | OwnerDeath // a worker dies after claiming and before paying
    | LateUndo // a worker undoes its claim and the success row is gone already
    | SuccessDeleted // a replay deletes a row that has become a success row since it was read

  ghost predicate Happens(what: Mishap, s: State, e: Event, i: nat)
  {
    match what
    case OwnerDeath => OwnerDies(s, e, i)
    case LateUndo => e.Undo? && e.worker in s.workers && s.workers[e.worker] == Undoing(i) && !HasSuccess(s, i)
    case SuccessDeleted =>
      e.ReplayDelete? && e.worker in s.workers && s.workers[e.worker] == Replaying(i) && HasSuccess(s, i)
  }

  ghost function Times(events: seq<Event>, what: Mishap, i: nat): nat
  {
    if events == [] then 0
    else
      var rest := events[..|events| - 1];
      Times(rest, what, i) + if Happens(what, Exec(Fresh, rest), events[|events| - 1], i) then 1 else 0
  }

  /** The workers that have claimed i and neither paid nor undone it. */
  ghost function Owners(s: State, i: nat): set<nat>
  {
    set k | k in s.workers && s.workers[k].Owns(i)
  }

  ghost function Successes(s: State, i: nat): nat
  {
    if HasSuccess(s, i) then 1 else 0
  }

  ghost function Once(b: bool): nat
  {
    if b then 1 else 0
  }

  /** One call changes the two sides alike. */
  ghost predicate Balanced(s: State, e: Event, i: nat)
  {
    var t := Next(s, e);
    Payments(t.paid, i) - Payments(s.paid, i) + |Owners(t, i)| - |Owners(s, i)|
    + Once(Happens(OwnerDeath, s, e, i)) + Once(Happens(LateUndo, s, e, i))
    == Successes(t, i) - Successes(s, i) + Once(Happens(SuccessDeleted, s, e, i))
  }

  lemma OneMember(a: set<nat>, b: set<nat>, k: nat)
    requires forall m :: m != k ==> (m in a <==> m in b)
    ensures |b| == |a| - Once(k in a) + Once(k in b)
  {
    assert a - {k} == b - {k};
    assert |a - {k}| == |a| - Once(k in a) && |b - {k}| == |b| - Once(k in b);
  }

  /** Only worker k's hands may have changed. */
  lemma OwnersChange(s: State, t: State, k: nat, i: nat)
    requires OthersSame(s, t, k)
    ensures var held, holds := k in s.workers && s.workers[k].Owns(i), k in t.workers && t.workers[k].Owns(i);
            |Owners(t, i)| == |Owners(s, i)| - Once(held) + Once(holds)
  {
    forall m | m != k
      ensures m in Owners(s, i) <==> m in Owners(t, i)
    {
      assert m in s.workers <==> m in t.workers;
    }
    OneMember(Owners(s, i), Owners(t, i), k);
  }

  lemma PaidBalanced(s: State, e: Event, i: nat)
    requires e.Credit? || e.CreditFails?
    ensures Balanced(s, e, i)
  {
    hide Payments, Owners;
    OwnersChange(s, Next(s, e), e.worker, i);
    if e.Credit? && e.worker in s.workers && s.workers[e.worker].Claimed? {
      var x := s.workers[e.worker];
      PaymentsAppend(s.paid, Payment(x.index, x.user, x.amount), i);
    }
  }

  lemma ClaimBalanced(s: State, e: Event, i: nat)
    requires e.Claim? || e.ReplayClaim?
    ensures Balanced(s, e, i)
  {
    hide Payments, Owners;
    OwnersChange(s, Next(s, e), e.worker, i);
  }

  lemma DeleteBalanced(s: State, e: Event, i: nat)
    requires e.Undo? || e.ReplayDelete?
    ensures Balanced(s, e, i)
  {
    hide Payments, Owners;
    OwnersChange(s, Next(s, e), e.worker, i);
  }

  lemma NextBalanced(s: State, e: Event, i: nat)
    ensures Balanced(s, e, i)
  {
    hide Payments, Owners;
    match e
    case Skip(_) => OwnersChange(s, Next(s, e), 0, i);
    case Crash(k) => OwnersChange(s, Next(s, e), k, i);
    case ReplayRead(k, _) => OwnersChange(s, Next(s, e), k, i);
    case Claim(_, _, _, _) => ClaimBalanced(s, e, i);
    case ReplayClaim(_, _, _) => ClaimBalanced(s, e, i);
    case Undo(_) => DeleteBalanced(s, e, i);
    case ReplayDelete(_) => DeleteBalanced(s, e, i);
    case Credit(_) => PaidBalanced(s, e, i);
    case CreditFails(_) => PaidBalanced(s, e, i);
  }

  /** For every history, with any number of replays: each credit is a success row, one that is
      still there or one a replay deleted, less those whose worker is not done, died or undid too
      late.  So an index is credited twice only if a replay deleted a success row of it. */
  lemma {:induction false} CreditsCounted(events: seq<Event>, i: nat)
    ensures var s := Exec(Fresh, events);
            Payments(s.paid, i) + |Owners(s, i)| + Times(events, OwnerDeath, i) + Times(events, LateUndo, i)
            == Successes(s, i) + Times(events, SuccessDeleted, i)
    ensures Payments(Exec(Fresh, events).paid, i) <= 1 + Times(events, SuccessDeleted, i)
  {
    if events != [] {
      var rest := events[..|events| - 1];
      CreditsCounted(rest, i);
      hide Next, Payments, Owners, Happens, HasSuccess;
      NextBalanced(Exec(Fresh, rest), events[|events| - 1], i);
    }
  }

  // ---- exactly when an index can be credited twice ----

  ghost predicate NoNewReplay(events: seq<Event>, i: nat)
  {
    forall k :: 0 <= k < |events| ==> !(events[k].ReplayRead? && events[k].index == i)
  }

  /** However the replays that have begun and everything else go on, i is credited at most once. */
  ghost predicate AtMostOnceFrom(events: seq<Event>, i: nat)
  {
    forall more: seq<Event> :: NoNewReplay(more, i) ==> Payments(Exec(Fresh, events + more).paid, i) <= 1
  }

  lemma NextStaysSole(s: State, e: Event, i: nat)
    requires SoleAt(s, i) && !(e.ReplayRead? && e.index == i)
    ensures SoleAt(Next(s, e), i)
  {
  }

  lemma {:induction false} StaysSole(events: seq<Event>, more: seq<Event>, i: nat)
    requires Sole(events, i) && NoNewReplay(more, i)
    ensures Sole(events + more, i)
  {
    if more == [] {
      assert events + more == events;
    } else {
      var n := |more| - 1;
      assert (events + more)[..|events + more| - 1] == events + more[..n];
      StaysSole(events, more[..n], i);
      hide Next, SoleAt;
      NextStaysSole(Exec(Fresh, events + more[..n]), more[n], i);
    }
  }

  /** Two replays that have both read the row can both credit it. */
  function Both(j: nat, k: nat): seq<Event>
  {
    Replayed(j) + Replayed(k)
  }

  lemma OneCredits(s: State, k: nat, i: nat)
    requires k in s.workers && s.workers[k] == Replaying(i)
    ensures var t := Next(Next(Next(s, ReplayDelete(k)), ReplayClaim(k, 1, MIN_DEPOSIT)), Credit(k));
            && Payments(t.paid, i) == Payments(s.paid, i) + 1
            && OthersSame(s, t, k)
  {
    var d := Next(s, ReplayDelete(k));
    var c := Next(d, ReplayClaim(k, 1, MIN_DEPOSIT));
    assert c.workers[k] == Claimed(i, 1, MIN_DEPOSIT);
    PaymentsAppend(s.paid, Payment(i, 1, MIN_DEPOSIT), i);
  }

  lemma ExecOne(s: State, events: seq<Event>, e: Event)
    ensures Exec(s, events + [e]) == Next(Exec(s, events), e)
  {
    assert (events + [e])[..|events|] == events;
  }

  lemma ExecThree(s: State, events: seq<Event>, a: Event, b: Event, c: Event)
    ensures Exec(s, events + [a, b, c]) == Next(Next(Next(Exec(s, events), a), b), c)
  {
    hide Next, Exec;
    ExecOne(s, events, a);
    ExecOne(s, events + [a], b);
    ExecOne(s, events + [a] + [b], c);
    assert events + [a, b, c] == events + [a] + [b] + [c];
  }

  function Replayed(k: nat): seq<Event>
  {
    [ReplayDelete(k), ReplayClaim(k, 1, MIN_DEPOSIT), Credit(k)]
  }

  lemma ReplayedCredits(events: seq<Event>, k: nat, i: nat)
    requires k in Exec(Fresh, events).workers && Exec(Fresh, events).workers[k] == Replaying(i)
    ensures var s, t := Exec(Fresh, events), Exec(Fresh, events + Replayed(k));
            Payments(t.paid, i) == Payments(s.paid, i) + 1 && OthersSame(s, t, k)
  {
    hide Next, Exec, Payments;
    ExecThree(Fresh, events, ReplayDelete(k), ReplayClaim(k, 1, MIN_DEPOSIT), Credit(k));
    OneCredits(Exec(Fresh, events), k, i);
  }

  lemma BothCredit(events: seq<Event>, j: nat, k: nat, i: nat)
    requires var s := Exec(Fresh, events);
             j != k && j in s.workers && k in s.workers && s.workers[j] == s.workers[k] == Replaying(i)
    ensures NoNewReplay(Both(j, k), i)
    ensures Payments(Exec(Fresh, events + Both(j, k)).paid, i) == Payments(Exec(Fresh, events).paid, i) + 2
  {
    hide Exec, Payments;
    ReplayedCredits(events, j, i);
    ReplayedCredits(events + Replayed(j), k, i);
    assert events + Both(j, k) == events + Replayed(j) + Replayed(k);
  }

  /** After some n calls two replays have both read and not deleted. */
  lemma {:induction false} Overlap(events: seq<Event>, i: nat) returns (n: nat)
    requires !Sole(events, i)
    ensures n <= |events| && !SoleAt(Exec(Fresh, events[..n]), i)
  {
    if SoleAt(Exec(Fresh, events), i) {
      var rest := events[..|events| - 1];
      n := Overlap(rest, i);
      assert rest[..n] == events[..n];
    } else {
      n := |events|;
      assert events[..n] == events;
    }
  }

  lemma {:induction false} SolePrefix(events: seq<Event>, n: nat, i: nat)
    requires Sole(events, i) && n <= |events|
    ensures Sole(events[..n], i)
  {
    if n == |events| {
      assert events[..n] == events;
    } else {
      var rest := events[..|events| - 1];
      SolePrefix(rest, n, i);
      assert rest[..n] == events[..n];
    }
  }

  /** At no moment of a history can the replays under way credit i twice, if and only if at no
      moment two of them stand between reading and deleting its row. */
  lemma OnceExactlyWhenSole(events: seq<Event>, i: nat)
    ensures Sole(events, i) <==> forall n :: 0 <= n <= |events| ==> AtMostOnceFrom(events[..n], i)
  {
    hide Exec, Next, Sole;
    if Sole(events, i) {
      forall n | 0 <= n <= |events|
        ensures AtMostOnceFrom(events[..n], i)
      {
        SolePrefix(events, n, i);
        forall more: seq<Event> | NoNewReplay(more, i)
          ensures Payments(Exec(Fresh, events[..n] + more).paid, i) <= 1
        {
          StaysSole(events[..n], more, i);
          CreditedAtMostOnce(events[..n] + more, i);
        }
      }
    } else {
      var n := Overlap(events, i);
      var s := Exec(Fresh, events[..n]);
      var j, k :| j in s.workers && k in s.workers && s.workers[j] == Replaying(i) && s.workers[k] == Replaying(i) && j != k;
      BothCredit(events[..n], j, k, i);
      assert !AtMostOnceFrom(events[..n], i);
    }
  }

  /** One skipped deposit, two replays that both read it: credited twice. */
  lemma TwoReplaysCreditTwice()
    ensures Payments(Exec(Fresh, [Skip(0), ReplayRead(1, 0), ReplayRead(2, 0)] + Both(1, 2)).paid, 0) == 2
  {
    var begun := [Skip(0), ReplayRead(1, 0), ReplayRead(2, 0)];
    ExecThree(Fresh, [], begun[0], begun[1], begun[2]);
    assert [] + begun == begun && Exec(Fresh, []) == Fresh;
    BothCredit(begun, 1, 2, 0);
  }
}
