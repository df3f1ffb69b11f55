/** Chain-deposit sync as the source runs it (deposit.go, record.go): one syncer, its cursor,
    budget and counters, with database, contract and clock answering as they like. */
module DepositSync {
  import opened Arith
  import opened DepositProtocol

  /** t can be reached from s by the repository calls of worker 0, the only one. */
  ghost predicate Reaches(s: State, t: State)
  {
    exists events: seq<Event> :: OneWorker(events) && Exec(s, events) == t
  }

  ghost predicate OneWorker(events: seq<Event>)
  {
    forall k :: 0 <= k < |events| ==> events[k].Skip? || events[k].worker == 0
  }

  lemma {:induction false} OneWorkerIsSole(events: seq<Event>, i: nat)
    requires OneWorker(events)
    ensures Sole(events, i) && Exec(Fresh, events).workers.Keys <= {0}
  {
    if events != [] {
      OneWorkerIsSole(events[..|events| - 1], i);
    }
  }

  lemma {:induction false} ExecAppend(s: State, a: seq<Event>, b: seq<Event>)
    ensures Exec(s, a + b) == Exec(Exec(s, a), b)
  {
    if b == [] {
      assert a + b == a;
    } else {
      assert (a + b)[..|a + b| - 1] == a + b[..|b| - 1];
      ExecAppend(s, a, b[..|b| - 1]);
    }
  }

  lemma ReachesSelf(s: State)
    ensures Reaches(s, s)
  {
    var none: seq<Event> := [];
    assert OneWorker(none) && Exec(s, none) == s;
  }

  lemma ReachesNext(s: State, t: State, e: Event)
    requires Reaches(s, t) && (e.Skip? || e.worker == 0)
    ensures Reaches(s, Next(t, e))
  {
    var events :| OneWorker(events) && Exec(s, events) == t;
    assert (events + [e])[..|events|] == events;
    assert Exec(s, events + [e]) == Next(t, e);
  }

  lemma ReachesTransitive(s: State, t: State, u: State)
    requires Reaches(s, t) && Reaches(t, u)
    ensures Reaches(s, u)
  {
    var a :| OneWorker(a) && Exec(s, a) == t;
    var b :| OneWorker(b) && Exec(t, b) == u;
    ExecAppend(s, a, b);
  }

  /** Whatever rounds and replays a syncer has run, no index was credited twice. */
  lemma SyncerCreditsAtMostOnce(s: State, i: nat)
    requires Reaches(Fresh, s)
    ensures Payments(s.paid, i) <= 1
  {
    var events :| OneWorker(events) && Exec(Fresh, events) == s;
    OneWorkerIsSole(events, i);
    CreditedAtMostOnce(events, i);
  }

  // ---- cursor ----

  /** MAX(last), or -1 on an empty table. */
  ghost function MaxIndex(keys: set<nat>): (m: int)
    ensures m >= -1
    ensures m >= 0 ==> m in keys
    ensures forall i :: i in keys ==> i <= m
  {
    if keys == {} then -1
    else
      var x :| x in keys;
      var m := MaxIndex(keys - {x});
      assert forall i :: i in keys ==> i == x || i in keys - {x};
      Max(x, m)
  }

  /** The rows are exactly the indices 0 to n. */
  ghost predicate Covers(keys: set<nat>, n: int)
  {
    n >= -1 && forall i: nat :: i in keys <==> i <= n
  }

  lemma MaxOf(keys: set<nat>, m: int)
    requires m >= -1 && (m >= 0 ==> m in keys) && forall i: nat :: i in keys ==> i <= m
    ensures MaxIndex(keys) == m
  {
  }

  // ---- counters ----

  datatype Reason = Unregistered | BelowMin | Already | ErrorParked

  type Reasons = map<Reason, nat>

  function Count(m: Reasons, r: Reason): nat
  {
    if r in m then m[r] else 0
  }

  function ReasonTotal(m: Reasons): nat
  {
    Count(m, Unregistered) + Count(m, BelowMin) + Count(m, Already) + Count(m, ErrorParked)
  }

  function Bump(m: Reasons, r: Reason, n: nat): (m': Reasons)
    ensures Count(m', r) == Count(m, r) + n
    ensures forall q: Reason :: q != r ==> Count(m', q) == Count(m, q)
    ensures ReasonTotal(m') == ReasonTotal(m) + n
  {
    var m' := m[r := Count(m, r) + n];
    assert forall q: Reason :: Count(m', q) == Count(m, q) + if q == r then n else 0;
    m'
  }

  datatype SyncResult = SyncResult(pulled: nat, credited: nat, skipped: nat, errors: nat, cursorBefore: int,
                                   cursorAfter: int, contractLength: int, reasons: Reasons, caughtUp: bool)

  datatype Record = Record(index: nat, address: string, amount: int)

  /** How the writes for one record turn out. */
  datatype Faults = Faults(lookup: bool, insert: bool, credit: bool, undo: bool, park: bool)
  {
    /** Every database call works. */
    predicate None()
    {
      lookup && insert && credit && undo && park
    }
  }

  datatype Insert = Inserted | Exists | DatabaseError

  datatype Handled = Credited | SkippedFor(reason: Reason) | Stuck

  const CHUNK: int := 50
  const CATCH_UP_MAX: int := 500

  /** One round's bookkeeping laws.  missed counts indices dropped by short contract batches;
      stuck tells that the last record could not even be parked. */
  ghost predicate Accounts(out: SyncResult, missed: nat, stuck: bool)
  {
    && out.credited + out.skipped + missed == out.cursorAfter - out.cursorBefore
    && ReasonTotal(out.reasons) == out.skipped
    && out.pulled == out.credited + out.skipped + (if stuck then 1 else 0)
    && out.errors == Count(out.reasons, ErrorParked) + (if stuck then 1 else 0)
  }

  /** Where a round started at s0 stands before the record with index next (or a later one):
      full tells that no contract batch was short. */
  ghost predicate Progress(s0: State, s: State, out: SyncResult, next: int, missed: nat, full: bool)
  {
    && Accounts(out, missed, false)
    && out.cursorBefore <= out.cursorAfter < next
    && (full ==> missed == 0 && next == out.cursorAfter + 1)
    && |s.paid| == |s0.paid| + out.credited
    && MaxIndex(s.rows.Keys) == out.cursorAfter
    && (Covers(s0.rows.Keys, out.cursorBefore) ==> (Covers(s.rows.Keys, out.cursorAfter) <==> missed == 0))
  }

  /** How a round started at s0 may end: a record that could not be parked may yet leave its row. */
  ghost predicate Ended(s0: State, s: State, out: SyncResult, missed: nat, full: bool, stuck: bool)
  {
    && Accounts(out, missed, stuck)
    && (full ==> missed == 0)
    && |s.paid| == |s0.paid| + out.credited
    && out.cursorAfter <= MaxIndex(s.rows.Keys)
    && (!stuck ==> MaxIndex(s.rows.Keys) == out.cursorAfter)
    && (full ==> MaxIndex(s.rows.Keys) <= out.cursorAfter + 1)
    && (full && Covers(s0.rows.Keys, out.cursorBefore) ==> Covers(s.rows.Keys, MaxIndex(s.rows.Keys)))
    && (!stuck && Covers(s0.rows.Keys, out.cursorBefore) ==> (Covers(s.rows.Keys, out.cursorAfter) <==> missed == 0))
  }

  // ---- what the credited records paid ----

  ghost predicate Registered(credited: seq<Record>, directory: map<string, nat>)
  {
    forall k :: 0 <= k < |credited| ==> credited[k].address in directory
  }

  /** The record is of a registered user with an account, at or above the minimum. */
  ghost predicate Due(d: Record, directory: map<string, nat>, users: set<nat>)
  {
    d.address in directory && directory[d.address] != 0 && directory[d.address] in users && d.amount >= MIN_DEPOSIT
  }

  /** The records that are due, in order. */
  ghost function DueOf(records: seq<Record>, directory: map<string, nat>, users: set<nat>): seq<Record>
  {
    if records == [] then []
    else
      var n := |records| - 1;
      DueOf(records[..n], directory, users) + if Due(records[n], directory, users) then [records[n]] else []
  }

  lemma DueAppend(records: seq<Record>, d: Record, directory: map<string, nat>, users: set<nat>)
    ensures DueOf(records + [d], directory, users)
         == DueOf(records, directory, users) + if Due(d, directory, users) then [d] else []
  {
    assert (records + [d])[..|records|] == records;
  }

  lemma {:induction false} DueJoin(a: seq<Record>, b: seq<Record>, directory: map<string, nat>, users: set<nat>)
    ensures DueOf(a + b, directory, users) == DueOf(a, directory, users) + DueOf(b, directory, users)
  {
    if b == [] {
      assert a + b == a;
    } else {
      var n := |b| - 1;
      assert a + b == (a + b[..n]) + [b[n]] && b == b[..n] + [b[n]];
      DueJoin(a, b[..n], directory, users);
      DueAppend(a + b[..n], b[n], directory, users);
      DueAppend(b[..n], b[n], directory, users);
    }
  }

  /** The credited records beyond the earlier ones are from this batch. */
  ghost predicate FromBatch(earlier: seq<Record>, credited: seq<Record>, batch: seq<Record>)
  {
    earlier <= credited && forall d :: d in credited[|earlier|..] ==> d in batch
  }

  lemma FromBatchMore(earlier: seq<Record>, credited: seq<Record>, batch: seq<Record>, d: Record)
    requires FromBatch(earlier, credited, batch) && d in batch
    ensures FromBatch(earlier, credited + [d], batch)
  {
    assert (credited + [d])[|earlier|..] == credited[|earlier|..] + [d];
  }

  /** The records after low, one after the other. */
  ghost predicate Consecutive(records: seq<Record>, low: int)
  {
    forall k :: 0 <= k < |records| ==> records[k].index == low + 1 + k
  }

  lemma ConsecutiveJoin(a: seq<Record>, b: seq<Record>, low: int)
    requires Consecutive(a, low) && Consecutive(b, low + |a|)
    ensures Consecutive(a + b, low)
  {
  }

  lemma ConsecutivePart(batch: seq<Record>, start: int, n: nat)
    requires n <= |batch| && forall k :: 0 <= k < |batch| ==> batch[k].index == start + k
    ensures Consecutive(batch[..n], start - 1)
  {
  }

  function PaymentFor(d: Record, directory: map<string, nat>): Payment
    requires d.address in directory
  {
    Payment(d.index, directory[d.address], d.amount)
  }

  ghost function PaymentsFor(credited: seq<Record>, directory: map<string, nat>): seq<Payment>
    requires Registered(credited, directory)
  {
    seq(|credited|, k requires 0 <= k < |credited| => PaymentFor(credited[k], directory))
  }

  /** accounts after the payments. */
  function Deposited(accounts: map<nat, int>, payments: seq<Payment>): map<nat, int>
  {
    if payments == [] then accounts
    else
      var before, x := Deposited(accounts, payments[..|payments| - 1]), payments[|payments| - 1];
      if x.user in before then before[x.user := before[x.user] + x.amount] else before
  }

  /** The payments and balances since the start are exactly those of the credited records: each
      its own index, owner and amount, in ascending order of the indices after low and up to high. */
  ghost predicate PaidFor(paid0: seq<Payment>, paid: seq<Payment>, accounts0: map<nat, int>, accounts: map<nat, int>,
                          directory: map<string, nat>, credited: seq<Record>, low: int, high: int)
  {
    && Registered(credited, directory)
    && paid == paid0 + PaymentsFor(credited, directory)
    && accounts == Deposited(accounts0, PaymentsFor(credited, directory))
    && (forall k :: 0 <= k < |credited| ==> low < credited[k].index <= high)
    && (forall j, k :: 0 <= j < k < |credited| ==> credited[j].index < credited[k].index)
  }

  lemma NothingPaid(paid: seq<Payment>, accounts: map<nat, int>, directory: map<string, nat>, low: int, high: int)
    ensures PaidFor(paid, paid, accounts, accounts, directory, [], low, high)
  {
    assert paid + [] == paid;
  }

  lemma EmptyWindow(paid0: seq<Payment>, paid: seq<Payment>, accounts0: map<nat, int>, accounts: map<nat, int>,
                    directory: map<string, nat>, low: int, high: int, low': int, high': int)
    requires PaidFor(paid0, paid, accounts0, accounts, directory, [], low, high)
    ensures PaidFor(paid0, paid, accounts0, accounts, directory, [], low', high')
  {
    hide Deposited;
  }

  lemma DepositedAppend(accounts: map<nat, int>, a: seq<Payment>, x: Payment)
    ensures Deposited(accounts, a + [x]) ==
            var before := Deposited(accounts, a);
            if x.user in before then before[x.user := before[x.user] + x.amount] else before
  {
    assert (a + [x])[..|a|] == a;
  }

  lemma OneMorePaid(paid0: seq<Payment>, paid: seq<Payment>, accounts0: map<nat, int>, accounts: map<nat, int>,
                    directory: map<string, nat>, credited: seq<Record>, low: int, high: int, d: Record, accounts': map<nat, int>)
    requires PaidFor(paid0, paid, accounts0, accounts, directory, credited, low, high)
    requires d.address in directory && directory[d.address] in accounts && low <= high < d.index
    requires accounts' == accounts[directory[d.address] := accounts[directory[d.address]] + d.amount]
    ensures PaidFor(paid0, paid + [PaymentFor(d, directory)], accounts0, accounts', directory, credited + [d], low, d.index)
  {
    var before := PaymentsFor(credited, directory);
    assert PaymentsFor(credited + [d], directory) == before + [PaymentFor(d, directory)];
    assert paid0 + (before + [PaymentFor(d, directory)]) == (paid0 + before) + [PaymentFor(d, directory)];
    DepositedAppend(accounts0, before, PaymentFor(d, directory));
  }

  lemma LaterHigh(paid0: seq<Payment>, paid: seq<Payment>, accounts0: map<nat, int>, accounts: map<nat, int>,
                  directory: map<string, nat>, credited: seq<Record>, low: int, high: int, high': int)
    requires PaidFor(paid0, paid, accounts0, accounts, directory, credited, low, high) && high <= high'
    ensures PaidFor(paid0, paid, accounts0, accounts, directory, credited, low, high')
  {
    hide Deposited, PaymentsFor;
  }

  lemma {:induction false} DepositedTwice(accounts: map<nat, int>, a: seq<Payment>, b: seq<Payment>)
    ensures Deposited(accounts, a + b) == Deposited(Deposited(accounts, a), b)
  {
    if b == [] {
      assert a + b == a;
    } else {
      var n := |b| - 1;
      assert a + b == (a + b[..n]) + [b[n]];
      DepositedTwice(accounts, a, b[..n]);
      DepositedAppend(accounts, a + b[..n], b[n]);
    }
  }

  /** Two stretches of rounds, one after the other. */
  lemma PaidTwice(paid0: seq<Payment>, paid1: seq<Payment>, paid2: seq<Payment>, accounts0: map<nat, int>, accounts1: map<nat, int>,
                  accounts2: map<nat, int>, directory: map<string, nat>, a: seq<Record>, b: seq<Record>,
                  low: int, high: int, low': int, high': int, l: int)
    requires PaidFor(paid0, paid1, accounts0, accounts1, directory, a, low, high)
    requires PaidFor(paid1, paid2, accounts1, accounts2, directory, b, low', high')
    requires l <= low' <= high' && (a == [] || (l <= low && high <= low'))
    ensures PaidFor(paid0, paid2, accounts0, accounts2, directory, a + b, l, high')
  {
    var x, y := PaymentsFor(a, directory), PaymentsFor(b, directory);
    assert PaymentsFor(a + b, directory) == x + y;
    assert paid0 + (x + y) == (paid0 + x) + y;
    DepositedTwice(accounts0, x, y);
    hide Deposited, PaymentsFor;
  }

  function Recorded(out: SyncResult, i: nat, h: Handled): SyncResult
    requires !h.Stuck?
  {
    match h
    case Credited => out.(pulled := out.pulled + 1, credited := out.credited + 1, cursorAfter := i)
    case SkippedFor(reason) =>
      out.(pulled := out.pulled + 1, skipped := out.skipped + 1, cursorAfter := i,
           errors := out.errors + if reason == ErrorParked then 1 else 0, reasons := Bump(out.reasons, reason, 1))
  }

  lemma RecordKeepsProgress(s0: State, s: State, t: State, out: SyncResult, next: nat, missed: nat, full: bool, h: Handled)
    requires Progress(s0, s, out, next, missed, full) && !h.Stuck?
    requires t.rows.Keys == s.rows.Keys + {next}
    requires |t.paid| == |s.paid| + if h.Credited? then 1 else 0
    ensures out.cursorBefore <= out.cursorAfter < next
    ensures Progress(s0, t, Recorded(out, next, h), next + 1, missed + (next - out.cursorAfter - 1), full)
  {
    MaxOf(t.rows.Keys, next);
    CoversNext(s.rows.Keys, t.rows.Keys, out.cursorAfter, next);
    hide MaxIndex, Covers;
  }

  /** One more index leaves no hole exactly when there was none and it is the next one. */
  lemma CoversNext(a: set<nat>, b: set<nat>, last: int, next: nat)
    requires last == MaxIndex(a) < next && b == a + {next}
    ensures Covers(b, next) <==> Covers(a, last) && next == last + 1
  {
    var hole: nat := last + 1;
    assert hole !in a && (hole in b <==> hole == next);
    if Covers(b, next) {
      assert forall i: nat :: i in a <==> i in b && i != next;
    }
  }

  lemma StuckEnds(s0: State, s: State, t: State, out: SyncResult, next: nat, missed: nat, full: bool)
    requires Progress(s0, s, out, next, missed, full)
    requires s.rows.Keys <= t.rows.Keys <= s.rows.Keys + {next} && t.paid == s.paid
    ensures Ended(s0, t, out.(pulled := out.pulled + 1, errors := out.errors + 1), missed, full, true)
  {
    if next in t.rows.Keys {
      assert t.rows.Keys == s.rows.Keys + {next};
      MaxOf(t.rows.Keys, next);
    } else {
      assert t.rows.Keys == s.rows.Keys;
    }
  }

  lemma ProgressIgnoresFlag(s0: State, s: State, out: SyncResult, next: int, missed: nat, full: bool, flag: bool)
    requires Progress(s0, s, out, next, missed, full)
    ensures Progress(s0, s, out.(caughtUp := flag), next, missed, full)
  {
  }

  /** The next record's index has no row yet. */
  lemma ProgressFresh(s0: State, s: State, out: SyncResult, next: int, missed: nat, full: bool)
    requires Progress(s0, s, out, next, missed, full)
    ensures forall i :: i in s.rows.Keys ==> i < next
    ensures full ==> next == out.cursorAfter + 1
  {
  }

  /** A round that stops between two batches has ended. */
  lemma ProgressEnds(s0: State, s: State, out: SyncResult, next: int, missed: nat, full: bool, flag: bool)
    requires Progress(s0, s, out, next, missed, full)
    ensures Ended(s0, s, out.(caughtUp := flag), missed, full, false)
  {
    hide MaxIndex, Covers;
  }

  /** Indices asked for and not answered only matter to the full flag. */
  lemma ProgressSkips(s0: State, s: State, out: SyncResult, next: int, missed: nat, full: bool, later: int, still: bool)
    requires Progress(s0, s, out, next, missed, full)
    requires next <= later && (still ==> full && next == later)
    ensures Progress(s0, s, out, later, missed, still)
  {
    hide MaxIndex, Covers;
  }

  lemma RoundStarts(s0: State, out: SyncResult)
    requires out.cursorBefore == MaxIndex(s0.rows.Keys) == out.cursorAfter && out.reasons == map[]
    requires out.pulled == out.credited == out.skipped == out.errors == 0
    ensures Progress(s0, s0, out, out.cursorAfter + 1, 0, true)
  {
    hide MaxIndex;
  }

  /** What the rounds of a catch-up came to: whether every contract batch was full, indices missed
      in short ones, rounds ended by a record that could not be parked, indices such records took
      although their rounds reported them as not handled, and the last such index not yet passed. */
  datatype Tally = Tally(full: bool, missed: nat, stuckRounds: nat, slips: nat, gap: nat)

  /** The catch-up total over the rounds so far. */
  ghost predicate Total(s0: State, s: State, agg: SyncResult, y: Tally, first: bool)
  {
    && agg.pulled == agg.credited + agg.skipped + y.stuckRounds
    && ReasonTotal(agg.reasons) == agg.skipped
    && agg.credited + agg.skipped + y.missed + y.slips == agg.cursorAfter - agg.cursorBefore
    && (first ==> s == s0 && y.gap == 0 && agg.cursorAfter == agg.cursorBefore)
    && (!first ==> MaxIndex(s.rows.Keys) == agg.cursorAfter + y.gap)
    && (y.full ==> y.missed == 0 && y.slips + y.gap <= y.stuckRounds)
    && (y.full && Covers(s0.rows.Keys, MaxIndex(s0.rows.Keys)) ==> Covers(s.rows.Keys, MaxIndex(s.rows.Keys)))
  }

  lemma TotalStarts(s0: State, agg: SyncResult)
    requires agg == SyncResult(0, 0, 0, 0, 0, 0, 0, map[], false)
    ensures Total(s0, s0, agg, Tally(true, 0, 0, 0, 0), true)
  {
    assert ReasonTotal(map[]) == 0;
  }

  /** Without any round the total reports the cursor as it stands. */
  lemma TotalWithoutRounds(s0: State, s: State, agg: SyncResult, y: Tally, agg': SyncResult)
    requires Total(s0, s, agg, y, true)
    requires agg' == agg.(cursorBefore := agg'.cursorBefore, cursorAfter := agg'.cursorBefore,
                          contractLength := agg'.contractLength, caughtUp := agg'.caughtUp)
    requires MaxIndex(s.rows.Keys) == agg'.cursorAfter
    ensures Total(s0, s, agg', y, false)
  {
  }

  lemma TotalEnds(s0: State, s: State, agg: SyncResult, y: Tally, first: bool)
    requires Total(s0, s, agg, y, first)
    ensures agg.pulled == agg.credited + agg.skipped + y.stuckRounds
    ensures ReasonTotal(agg.reasons) == agg.skipped
    ensures agg.credited + agg.skipped + y.missed + y.slips == agg.cursorAfter - agg.cursorBefore
    ensures y.full ==> y.missed == 0 && y.slips <= y.stuckRounds
    ensures y.full && Covers(s0.rows.Keys, MaxIndex(s0.rows.Keys)) && !first && agg.cursorAfter + 1 >= agg.contractLength ==>
              forall i: nat :: i < agg.contractLength ==> i in s.rows.Keys
  {
    hide MaxIndex, ReasonTotal;
  }

  function Added(agg: SyncResult, round: SyncResult, first: bool): SyncResult
  {
    SyncResult(agg.pulled + round.pulled, agg.credited + round.credited, agg.skipped + round.skipped, agg.errors + round.errors,
               if first then round.cursorBefore else agg.cursorBefore, round.cursorAfter, round.contractLength,
               Merge(agg.reasons, round.reasons), round.caughtUp)
  }

  ghost function AddedTally(y: Tally, t: State, round: SyncResult, missed: nat, full: bool, stuck: bool): Tally
    requires MaxIndex(t.rows.Keys) >= round.cursorAfter
  {
    Tally(y.full && full, y.missed + missed, y.stuckRounds + (if stuck then 1 else 0), y.slips + y.gap,
          MaxIndex(t.rows.Keys) - round.cursorAfter)
  }

  lemma RoundAdds(s0: State, s: State, t: State, agg: SyncResult, y: Tally, first: bool, round: SyncResult, missed: nat, full: bool,
                  stuck: bool)
    requires Total(s0, s, agg, y, first)
    requires round.cursorBefore == MaxIndex(s.rows.Keys) && Ended(s, t, round, missed, full, stuck)
    ensures MaxIndex(t.rows.Keys) >= round.cursorAfter >= round.cursorBefore && (first || agg.cursorAfter <= round.cursorBefore)
    ensures Total(s0, t, Added(agg, round, first), AddedTally(y, t, round, missed, full, stuck), false)
  {
    hide MaxIndex, Covers, ReasonTotal, Count;
  }

  /** The two tallies added up, as the catch-up total does. */
  function Merge(a: Reasons, b: Reasons): (m: Reasons)
    ensures forall q: Reason :: Count(m, q) == Count(a, q) + Count(b, q)
    ensures ReasonTotal(m) == ReasonTotal(a) + ReasonTotal(b)
  {
    var m := map q | q in a.Keys + b.Keys :: Count(a, q) + Count(b, q);
    assert forall q: Reason :: Count(m, q) == Count(a, q) + Count(b, q);
    m
  }

  /** A replay reads the skipped row and deletes it; between calls it can also stop. */
  lemma DeleteReached(s: State, i: nat, t: State)
    requires s.workers == map[] && i in s.rows && s.rows[i].Skipped?
    requires t == s.(rows := s.rows - {i})
    ensures Reaches(s, t)
  {
    var read := Next(s, ReplayRead(0, i));
    var deleted := Next(read, ReplayDelete(0));
    ReachesSelf(s);
    ReachesNext(s, s, ReplayRead(0, i));
    ReachesNext(s, read, ReplayDelete(0));
    ReachesNext(s, deleted, Crash(0));
    assert deleted.workers - {0} == map[];
  }

  datatype ReplayStatus = NotFound | AlreadyCredited | StillSkipped(reason: Reason) | Replayed | Failed

  /** What a round has seen so far. */
  datatype RoundLog = RoundLog(full: bool, missed: nat, stuck: bool, credited: seq<Record>, calm: bool, handled: seq<Record>)

  /** After one contract answer: the next one, no more to read for now, or the round is over. */
  datatype RoundStep = Onward | Pause | Finished

  class Syncer {
    var rows: map<nat, Row>
    var accounts: map<nat, int>
    var directory: map<string, nat>
    ghost var paid: seq<Payment>

    ghost function State(): State
      reads this
    {
      DepositProtocol.State(rows, map[], paid)
    }

    constructor (accounts: map<nat, int>, directory: map<string, nat>)
      ensures State() == Fresh && this.accounts == accounts && this.directory == directory
    {
      this.rows, this.accounts, this.directory := map[], accounts, directory;
      paid := [];
    }

    /** The largest index with a row; an empty table answers -1. */
    method GetEthUserRecordLast() returns (last: int)
      ensures last == MaxIndex(rows.Keys)
    {
      last := -1;
      var todo := rows.Keys;
      while todo != {}
        invariant todo <= rows.Keys
        invariant last >= -1 && (last >= 0 ==> last in rows.Keys)
        invariant forall i :: i in rows.Keys && i !in todo ==> i <= last
      {
        var x :| x in todo;
        todo := todo - {x};
        last := if x > last then x else last;
      }
      MaxOf(rows.Keys, last);
    }

    /** ClaimChainDepositSkip: insert a skipped row; an existing index refuses it. */
    method ClaimSkip(i: nat, works: bool) returns (r: Insert)
      modifies this`rows
      ensures r.DatabaseError? <==> !works
      ensures r.Exists? <==> works && i in old(rows)
      ensures Reaches(old(State()), State())
      ensures rows.Keys == old(rows).Keys + if works then {i} else {}
      ensures rows == if r.Inserted? then old(rows)[i := Skipped] else old(rows)
    {
      ReachesSelf(State());
      if !works {
        return DatabaseError;
      }
      if i in rows {
        return Exists;
      }
      ReachesNext(old(State()), State(), Skip(i));
      rows := rows[i := Skipped];
      return Inserted;
    }

    /** CreditChainDeposit: claim the index, credit the balance, undo the claim when that fails.
        None on success. */
    method CreditChainDeposit(user: nat, i: nat, amount: int, f: Faults) returns (failure: Option<Insert>)
      modifies this`rows, this`accounts, this`paid
      ensures Reaches(old(State()), State())
      ensures old(rows).Keys <= rows.Keys <= old(rows).Keys + {i}
      ensures failure.None? ==> rows == old(rows)[i := Success(user, amount)] && amount >= MIN_DEPOSIT
                                && user in old(accounts)
                                && accounts == old(accounts)[user := old(accounts)[user] + amount]
                                && paid == old(paid) + [Payment(i, user, amount)]
      ensures failure.Some? ==> accounts == old(accounts) && paid == old(paid)
      ensures failure == Some(Exists) ==> i in old(rows)
      ensures f.None() ==> (failure.None? <==> amount >= MIN_DEPOSIT && user != 0 && user in old(accounts) && i !in old(rows))
      ensures f.None() && amount >= MIN_DEPOSIT && user != 0 && i in old(rows) ==> failure == Some(Exists)
      ensures failure.Some? ==> rows - {i} == old(rows) - {i} && (f.undo ==> rows == old(rows))
    {
      ghost var start := State();
      ReachesSelf(start);
      if amount < MIN_DEPOSIT || user == 0 {
        return Some(DatabaseError);
      }
      if !f.insert {
        return Some(DatabaseError);
      }
      if i in rows {
        return Some(Exists);
      }
      ghost var claimed := Next(start, Claim(0, i, user, amount));
      ReachesNext(start, start, Claim(0, i, user, amount));
      rows := rows[i := Success(user, amount)];
      if !f.credit || user !in accounts {
        ghost var failed := Next(claimed, CreditFails(0));
        ReachesNext(start, claimed, CreditFails(0));
        ReachesNext(start, failed, Undo(0));
        ReachesNext(start, failed, Crash(0));
        assert failed.workers - {0} == map[];
        if f.undo {
          rows := rows - {i};
          assert rows == start.rows;
        }
        return Some(DatabaseError);
      }
      ReachesNext(start, claimed, DepositProtocol.Credit(0));
      assert claimed.workers - {0} == map[];
      accounts := accounts[user := accounts[user] + amount];
      paid := paid + [Payment(i, user, amount)];
      return None;
    }

    /** What the round does with one contract record. */
    method HandleRecord(d: Record, f: Faults) returns (h: Handled)
      modifies this`rows, this`accounts, this`paid
      ensures Reaches(old(State()), State())
      ensures h.Stuck? ==> old(rows).Keys <= rows.Keys <= old(rows).Keys + {d.index}
      ensures !h.Stuck? ==> rows.Keys == old(rows).Keys + {d.index}
      ensures h.Credited? ==> d.address in directory && directory[d.address] in old(accounts)
                              && paid == old(paid) + [PaymentFor(d, directory)]
                              && accounts == old(accounts)[directory[d.address] := old(accounts)[directory[d.address]] + d.amount]
      ensures !h.Credited? ==> paid == old(paid) && accounts == old(accounts)
      ensures accounts.Keys == old(accounts).Keys
      ensures f.None() ==> !h.Stuck? && (d.index !in old(rows) ==> (h.Credited? <==> Due(d, directory, old(accounts).Keys)))
      ensures f.None() && d.index !in old(rows) ==> (h == SkippedFor(Unregistered) <==> d.address !in directory)
      ensures f.None() && d.index !in old(rows) ==> (h == SkippedFor(BelowMin) <==> d.address in directory && d.amount < MIN_DEPOSIT)
      ensures f.None() && d.index in old(rows) && (d.address in directory ==> directory[d.address] != 0) ==> h == SkippedFor(Already)
    {
      if !f.lookup || d.address !in directory {
        var r := ClaimSkip(d.index, f.insert);
        if r.Inserted? {
          return SkippedFor(Unregistered);
        }
        if r.Exists? {
          return SkippedFor(Already);
        }
      } else if d.amount < MIN_DEPOSIT {
        var r := ClaimSkip(d.index, f.insert);
        if r.Inserted? {
          return SkippedFor(BelowMin);
        }
        if r.Exists? {
          return SkippedFor(Already);
        }
      } else {
        var failure := CreditChainDeposit(directory[d.address], d.index, d.amount, f);
        if failure.None? {
          return Handled.Credited;
        }
        if failure.value.Exists? {
          return SkippedFor(Already);
        }
      }
      ghost var tried := State();
      var parked := ClaimSkip(d.index, f.park);
      ReachesTransitive(old(State()), tried, State());
      if parked.DatabaseError? {
        return Stuck;
      }
      return SkippedFor(ErrorParked);
    }

    /** Contract records start to end; the contract may answer with fewer than asked. */
    method GetUserInfo(start: nat, end: nat) returns (batch: seq<Record>, failed: bool)
      requires start <= end
      ensures |batch| <= end - start + 1
      ensures forall k :: 0 <= k < |batch| ==> batch[k].index == start + k
    {
      var addresses: seq<string>, amounts: seq<int> := *, *;
      var broken: bool := *;
      if broken || |addresses| != |amounts| {
        return [], true;
      }
      var size: nat := if |addresses| <= end - start + 1 then |addresses| else end - start + 1;
      return seq(size, k requires 0 <= k < size => Record(start + k, addresses[k], amounts[k])), false;
    }

    /** The credited records since paid0 and accounts0, indices after low and up to high. */
    ghost predicate Booked(paid0: seq<Payment>, accounts0: map<nat, int>, credited: seq<Record>, low: int, high: int)
      reads this
    {
      PaidFor(paid0, paid, accounts0, accounts, directory, credited, low, high)
    }

    lemma NoneDue(batch: seq<Record>, earlier: seq<Record>, directory: map<string, nat>, users: set<nat>)
      ensures earlier + DueOf(batch[..0], directory, users) == earlier && FromBatch(earlier, earlier, batch)
    {
    }

    /** One batch of a round, up to the deadline, the end of the budget or a record that cannot
        be parked.  next is the first index not looked at. */
    method SyncBatch(ghost s0: State, ghost accounts0: map<nat, int>, batch: seq<Record>, start: nat, max: int, rest: int,
                     was: SyncResult, ghost dropped: nat, ghost full: bool, ghost earlier: seq<Record>, ghost wasCalm: bool)
      returns (out: SyncResult, budget: int, stop: bool, ghost next: nat, ghost missed: nat, ghost stuck: bool,
               ghost credited: seq<Record>, ghost calm: bool)
      requires Reaches(s0, State()) && Progress(s0, State(), was, start, dropped, full) && !was.caughtUp
      requires Booked(s0.paid, accounts0, earlier, was.cursorBefore, was.cursorAfter) && |earlier| == was.credited
      requires forall k :: 0 <= k < |batch| ==> batch[k].index == start + k
      requires max > 0 ==> was.pulled + rest == max && rest >= 0
      modifies this`rows, this`accounts, this`paid
      ensures Reaches(s0, State())
      ensures stuck ==> stop && Ended(s0, State(), out, missed, full, true)
      ensures !stuck ==> Progress(s0, State(), out, next, missed, full)
      ensures Booked(s0.paid, accounts0, credited, out.cursorBefore, out.cursorAfter) && |credited| == out.credited
      ensures FromBatch(earlier, credited, batch)
      ensures accounts.Keys == old(accounts).Keys && start <= next <= start + |batch|
      ensures calm ==> wasCalm && !stuck && credited == earlier + DueOf(batch[..next - start], directory, accounts.Keys)
      ensures calm && stop ==> max > 0 && out.pulled == max
      ensures !stop ==> next == start + |batch| && (max > 0 ==> out.pulled + budget == max && budget >= 0)
      ensures max > 0 ==> out.pulled <= max
      ensures out.cursorBefore == was.cursorBefore && out.contractLength == was.contractLength
      ensures out.caughtUp ==> stop && !stuck && out.cursorAfter + 1 >= out.contractLength
    {
      hide Exec, Next, Reaches, Progress, Ended, MaxIndex, PaidFor, Due, DueOf, PaymentFor, FromBatch;
      out, budget, stop, missed, stuck, next, credited, calm := was, rest, false, dropped, false, start, earlier, wasCalm;
      NoneDue(batch, earlier, directory, accounts.Keys);
      for k := 0 to |batch|
        invariant next == start + k && !stuck && !stop
        invariant Reaches(s0, State()) && Progress(s0, State(), out, next, missed, full)
        invariant Booked(s0.paid, accounts0, credited, out.cursorBefore, out.cursorAfter) && |credited| == out.credited
        invariant FromBatch(earlier, credited, batch)
        invariant max > 0 ==> out.pulled + budget == max && budget >= 0
        invariant out.cursorBefore == was.cursorBefore && out.contractLength == was.contractLength && !out.caughtUp
        invariant accounts.Keys == old(accounts).Keys
        invariant calm ==> wasCalm && credited == earlier + DueOf(batch[..k], directory, accounts.Keys)
      {
        var late: bool := *;
        if late || (max > 0 && budget <= 0) {
          calm := calm && !late;
          ProgressIgnoresFlag(s0, State(), out, next, missed, full, out.cursorAfter + 1 >= out.contractLength);
          out := out.(caughtUp := out.cursorAfter + 1 >= out.contractLength);
          stop := true;
          return;
        }
        budget := if max > 0 then budget - 1 else budget;
        var f: Faults := *;
        ghost var before, paidBefore, accountsBefore := State(), paid, accounts;
        var d := batch[k];
        assert d.index == next;
        ProgressFresh(s0, State(), out, next, missed, full);
        DueAppend(batch[..k], d, directory, accounts.Keys);
        assert batch[..k + 1] == batch[..k] + [d];
        var h := HandleRecord(d, f);
        calm := calm && f.None();
        ReachesTransitive(s0, before, State());
        if h.Stuck? {
          StuckEnds(s0, before, State(), out, next, missed, full);
          out := out.(pulled := out.pulled + 1, errors := out.errors + 1);
          stop, stuck := true, true;
          return;
        }
        RecordKeepsProgress(s0, before, State(), out, next, missed, full, h);
        if h.Credited? {
          OneMorePaid(s0.paid, paidBefore, accounts0, accountsBefore, directory, credited, out.cursorBefore, out.cursorAfter, d, accounts);
          FromBatchMore(earlier, credited, batch, d);
          credited := credited + [d];
        } else {
          LaterHigh(s0.paid, paid, accounts0, accounts, directory, credited, out.cursorBefore, out.cursorAfter, d.index);
        }
        missed := missed + (next - out.cursorAfter - 1);
        out := Recorded(out, d.index, h);
        next := next + 1;
      }
    }

    /** The records handled are those right after before, and the credited ones are those due. */
    ghost predicate Calm(g: RoundLog, before: int, start: int)
      reads this
    {
      && g.full && |g.handled| == start - before - 1 && Consecutive(g.handled, before)
      && g.credited == DueOf(g.handled, directory, accounts.Keys)
    }

    /** A round that began at s0 goes on with index start. */
    ghost predicate Going(s0: State, accounts0: map<nat, int>, out: SyncResult, start: int, max: int, budget: int, g: RoundLog)
      reads this
    {
      && !g.stuck && Reaches(s0, State()) && Progress(s0, State(), out, start, g.missed, g.full)
      && Booked(s0.paid, accounts0, g.credited, out.cursorBefore, out.cursorAfter) && |g.credited| == out.credited
      && !out.caughtUp && (max > 0 ==> out.pulled + budget == max && budget >= 0)
      && accounts.Keys == accounts0.Keys
      && (g.calm ==> start == out.cursorAfter + 1 && Calm(g, out.cursorBefore, start))
    }

    /** The round is over. */
    ghost predicate Over(s0: State, accounts0: map<nat, int>, out: SyncResult, max: int, g: RoundLog)
      reads this
    {
      && Reaches(s0, State()) && Ended(s0, State(), out, g.missed, g.full, g.stuck)
      && Booked(s0.paid, accounts0, g.credited, out.cursorBefore, out.cursorAfter) && |g.credited| == out.credited
      && (max > 0 ==> out.pulled <= max)
      && (out.caughtUp ==> out.cursorAfter + 1 >= out.contractLength && !g.stuck)
      && accounts.Keys == accounts0.Keys
      && (g.calm ==> !g.stuck && (out.caughtUp || (max > 0 && out.pulled == max)) && Calm(g, out.cursorBefore, out.cursorAfter + 1))
    }

    lemma GoingStarts(s0: State, accounts0: map<nat, int>, out: SyncResult, max: int)
      requires s0 == State() && accounts0 == accounts && out.reasons == map[] && !out.caughtUp
      requires out.cursorBefore == MaxIndex(s0.rows.Keys) == out.cursorAfter
      requires out.pulled == out.credited == out.skipped == out.errors == 0
      ensures Going(s0, accounts0, out, out.cursorAfter + 1, max, max, RoundLog(true, 0, false, [], true, [])) || max < 0
    {
      hide Exec, Next, Reaches, MaxIndex, PaidFor, Progress;
      ReachesSelf(s0);
      RoundStarts(s0, out);
      NothingPaid(paid, accounts, directory, out.cursorBefore, out.cursorBefore);
    }

    /** Stopping before a batch. */
    lemma GoingEnds(s0: State, accounts0: map<nat, int>, out: SyncResult, start: int, max: int, budget: int, g: RoundLog, flag: bool)
      requires Going(s0, accounts0, out, start, max, budget, g)
      requires flag ==> out.cursorAfter + 1 >= out.contractLength
      requires g.calm ==> flag || (max > 0 && budget == 0)
      ensures Over(s0, accounts0, out.(caughtUp := flag), max, g)
    {
      hide Exec, Next, Reaches, MaxIndex, PaidFor, Progress, Ended, Due, DueOf, Consecutive;
      ProgressEnds(s0, State(), out, start, g.missed, g.full, flag);
    }

    /** The contract's answer for start to end, handled. */
    method SyncChunk(ghost s0: State, ghost accounts0: map<nat, int>, was: SyncResult, start: nat, end: nat, max: int, rest: int, ghost g0: RoundLog)
      returns (out: SyncResult, budget: int, step: RoundStep, ghost g: RoundLog)
      requires start <= end && Going(s0, accounts0, was, start, max, rest, g0)
      modifies this`rows, this`accounts, this`paid
      ensures step.Onward? ==> Going(s0, accounts0, out, end + 1, max, budget, g)
      ensures step.Pause? ==> Going(s0, accounts0, out, start, max, budget, g) && !g.calm
      ensures step.Finished? ==> Over(s0, accounts0, out, max, g)
      ensures out.cursorBefore == was.cursorBefore && out.contractLength == was.contractLength
    {
      hide Exec, Next, Reaches, MaxIndex, PaidFor, Progress, Ended, Due, DueOf, Consecutive;
      out, budget, g := was, rest, g0;
      var batch, failed := GetUserInfo(start, end);
      if failed {
        g := g.(calm := false);
        GoingEnds(s0, accounts0, out, start, max, budget, g, false);
        return out, budget, Finished, g;
      }
      if |batch| == 0 {
        return out, budget, Pause, g.(calm := false);
      }
      ghost var full := g0.full && |batch| == end - start + 1;
      ProgressSkips(s0, State(), was, start, g0.missed, g0.full, start, full);
      ghost var next, missed, stuck, credited, calm;
      var stop;
      out, budget, stop, next, missed, stuck, credited, calm :=
        SyncBatch(s0, accounts0, batch, start, max, rest, was, g0.missed, full, g0.credited, g0.calm && full);
      g := RoundLog(full, missed, stuck, credited, calm, g0.handled + batch[..next - start]);
      if calm {
        CalmGrows(g0, batch, start, next, was.cursorBefore);
      }
      if !stuck {
        ProgressFresh(s0, State(), out, next, missed, full);
      }
      if stop {
        if !stuck {
          ProgressEnds(s0, State(), out, next, missed, full, out.caughtUp);
        }
        return out, budget, Finished, g;
      }
      ProgressSkips(s0, State(), out, next, missed, full, end + 1, full);
      return out, budget, Onward, g;
    }

    lemma CalmGrows(g0: RoundLog, batch: seq<Record>, start: int, next: int, before: int)
      requires start <= next <= start + |batch| && (forall k :: 0 <= k < |batch| ==> batch[k].index == start + k)
      requires |g0.handled| == start - before - 1 && Consecutive(g0.handled, before)
      requires g0.credited == DueOf(g0.handled, directory, accounts.Keys)
      ensures var handled := g0.handled + batch[..next - start];
              && |handled| == next - before - 1 && Consecutive(handled, before)
              && g0.credited + DueOf(batch[..next - start], directory, accounts.Keys) == DueOf(handled, directory, accounts.Keys)
    {
      hide Due, DueOf, Consecutive;
      DueJoin(g0.handled, batch[..next - start], directory, accounts.Keys);
      ConsecutivePart(batch, start, next - start);
      ConsecutiveJoin(g0.handled, batch[..next - start], before);
    }

    /** One sync round.  maxIndices <= 0 means no index cap.  full tells that every batch read was
        as long as asked; stuck that the last record could not be parked; calm that nothing
        failed, no deadline passed and every batch was full; handled lists the records. */
    method SyncChainDeposits(chunkOption: int, maxIndices: int)
      returns (out: SyncResult, err: bool, ghost full: bool, ghost missed: nat, ghost stuck: bool, ghost credited: seq<Record>,
               ghost calm: bool, ghost handled: seq<Record>)
      modifies this`rows, this`accounts, this`paid
      ensures Reaches(old(State()), State())
      ensures err ==> rows == old(rows) && accounts == old(accounts) && paid == old(paid)
      ensures !err ==> out.cursorBefore == MaxIndex(old(rows).Keys)
      ensures !err ==> Ended(old(State()), State(), out, missed, full, stuck)
      ensures !err ==> Booked(old(paid), old(accounts), credited, out.cursorBefore, out.cursorAfter) && |credited| == out.credited
      ensures !err && maxIndices > 0 ==> out.pulled <= maxIndices
      ensures !err && out.caughtUp ==> out.cursorAfter + 1 >= out.contractLength && !stuck
      ensures accounts.Keys == old(accounts).Keys
      ensures calm ==> !err && !stuck && (out.caughtUp || (maxIndices > 0 && out.pulled == maxIndices))
      ensures calm ==> credited == DueOf(handled, directory, accounts.Keys)
      ensures calm ==> |handled| == out.cursorAfter - out.cursorBefore && Consecutive(handled, out.cursorBefore)
    {
      hide Exec, Next, Reaches, MaxIndex, PaidFor, Progress, Ended, Due, DueOf, Consecutive, Syncer.Booked;
      ghost var s0, accounts0 := State(), accounts;
      ReachesSelf(s0);
      full, missed, stuck, credited, calm, handled := true, 0, false, [], false, [];
      var chunk := if chunkOption <= 0 then CHUNK else chunkOption;
      var lastFails: bool := *;
      var before := GetEthUserRecordLast();
      out := SyncResult(0, 0, 0, 0, before, before, 0, map[], false);
      var lengthFails: bool, length: int := *, *;
      if lastFails || lengthFails {
        err := true;
        return;
      }
      err := false;
      out := out.(contractLength := length);
      var max := Max(maxIndices, 0);
      ghost var g := RoundLog(true, 0, false, [], true, []);
      GoingStarts(s0, accounts0, out, max);
      var start: nat := before + 1;
      var budget := max;
      if length <= 0 || start >= length {
        GoingEnds(s0, accounts0, out, start, max, budget, g, true);
        out := out.(caughtUp := true);
        calm := true;
        return;
      }
      while start < length
        invariant out.cursorBefore == before && out.contractLength == length
        invariant Going(s0, accounts0, out, start, max, budget, g)
        decreases length - start
      {
        var late: bool := *;
        if late || (max > 0 && budget == 0) {
          g := g.(calm := g.calm && !late);
          break;
        }
        var end := Min(start + chunk - 1, length - 1);
        if max > 0 {
          end := Min(end, start + budget - 1);
        }
        var step;
        out, budget, step, g := SyncChunk(s0, accounts0, out, start, end, max, budget, g);
        if step.Finished? {
          full, missed, stuck, credited, calm, handled := g.full, g.missed, g.stuck, g.credited, g.calm, g.handled;
          return;
        }
        if step.Pause? {
          break;
        }
        start := end + 1;
      }
      GoingEnds(s0, accounts0, out, start, max, budget, g, out.cursorAfter + 1 >= length);
      out := out.(caughtUp := out.cursorAfter + 1 >= length);
      full, missed, stuck, credited, calm, handled := g.full, g.missed, g.stuck, g.credited, g.calm, g.handled;
    }

    /** One more round of a catch-up. */
    method CatchUpRound(ghost s0: State, ghost accounts0: map<nat, int>, was: SyncResult, ghost y0: Tally, first: bool, remaining: int,
                        ghost earlier: seq<Record>)
      returns (agg: SyncResult, pulled: nat, failed: bool, ghost y: Tally, ghost credited: seq<Record>, ghost calm: bool)
      requires remaining > 0 && Reaches(s0, State()) && Total(s0, State(), was, y0, first)
      requires Booked(s0.paid, accounts0, earlier, was.cursorBefore, was.cursorAfter) && |earlier| == was.credited
      requires was.cursorBefore <= was.cursorAfter && (first ==> earlier == [])
      modifies this`rows, this`accounts, this`paid
      ensures Reaches(s0, State())
      ensures failed ==> agg == was && Total(s0, State(), agg, y, first)
      ensures !failed ==> Total(s0, State(), agg, y, false) && agg.pulled == was.pulled + pulled && pulled <= remaining
      ensures Booked(s0.paid, accounts0, credited, agg.cursorBefore, agg.cursorAfter) && |credited| == agg.credited
      ensures agg.cursorBefore <= agg.cursorAfter
      ensures !failed && agg.caughtUp ==> agg.cursorAfter + 1 >= agg.contractLength
      ensures calm ==> !failed && (agg.caughtUp || pulled == remaining)
    {
      hide Exec, Next, Reaches, Total, Ended, Merge, MaxIndex, Covers, ReasonTotal, PaidFor;
      ghost var before, paidBefore, accountsBefore := State(), paid, accounts;
      var round;
      ghost var full, missed, stuck, more, handled;
      round, failed, full, missed, stuck, more, calm, handled := SyncChainDeposits(CHUNK, remaining);
      ReachesTransitive(s0, before, State());
      if failed {
        agg, pulled, y, credited := was, 0, y0, earlier;
        return;
      }
      RoundAdds(s0, before, State(), was, y0, first, round, missed, full, stuck);
      PaidTwice(s0.paid, paidBefore, paid, accounts0, accountsBefore, accounts, directory, earlier, more,
                was.cursorBefore, was.cursorAfter, round.cursorBefore, round.cursorAfter,
                if first then round.cursorBefore else was.cursorBefore);
      credited, pulled := earlier + more, round.pulled;
      y := AddedTally(y0, State(), round, missed, full, stuck);
      agg := Added(was, round, first);
    }

    /** Rounds until caught up, out of budget, out of time or without progress. */
    method SyncChainDepositsCatchUp()
      returns (agg: SyncResult, err: bool, ghost y: Tally, ghost credited: seq<Record>, ghost calm: bool)
      modifies this`rows, this`accounts, this`paid
      ensures Reaches(old(State()), State())
      ensures Booked(old(paid), old(accounts), credited, agg.cursorBefore, agg.cursorAfter) && |credited| == agg.credited
      ensures agg.pulled <= CATCH_UP_MAX
      ensures agg.pulled == agg.credited + agg.skipped + y.stuckRounds
      ensures ReasonTotal(agg.reasons) == agg.skipped
      ensures agg.credited + agg.skipped + y.missed + y.slips == agg.cursorAfter - agg.cursorBefore
      ensures y.full ==> y.missed == 0 && y.slips <= y.stuckRounds
      ensures !err && agg.caughtUp ==> agg.cursorAfter + 1 >= agg.contractLength
      ensures !err && agg.caughtUp && y.full && Covers(old(rows).Keys, MaxIndex(old(rows).Keys)) ==>
                forall i: nat :: i < agg.contractLength ==> i in rows
      ensures calm ==> !err && (agg.caughtUp || agg.pulled == CATCH_UP_MAX)
    {
      hide Exec, Next, Reaches, Total, MaxIndex, Covers, ReasonTotal, PaidFor;
      ghost var s0, accounts0 := State(), accounts;
      ReachesSelf(s0);
      credited := [];
      NothingPaid(paid, accounts, directory, 0, 0);
      agg := SyncResult(0, 0, 0, 0, 0, 0, 0, map[], false);
      err, y, calm := false, Tally(true, 0, 0, 0, 0), true;
      var remaining, first := CATCH_UP_MAX, true;
      TotalStarts(s0, agg);
      while remaining > 0
        invariant Reaches(s0, State()) && Total(s0, State(), agg, y, first)
        invariant Booked(s0.paid, accounts0, credited, agg.cursorBefore, agg.cursorAfter) && |credited| == agg.credited
        invariant agg.cursorBefore <= agg.cursorAfter && (first ==> credited == [] && agg.credited == 0)
        invariant agg.pulled + remaining == CATCH_UP_MAX && remaining >= 0
        invariant !agg.caughtUp && !err
        decreases remaining
      {
        var late: bool := *;
        if late {
          calm := false;
          break;
        }
        var pulled;
        ghost var fine;
        agg, pulled, err, y, credited, fine := CatchUpRound(s0, accounts0, agg, y, first, remaining, credited);
        calm := calm && fine;
        if err {
          TotalEnds(s0, State(), agg, y, first);
          return;
        }
        first := false;
        remaining := remaining - pulled;
        if agg.caughtUp || pulled == 0 {
          break;
        }
      }
      if first {
        agg := ReportCursor(s0, accounts0, agg, y);
      }
      TotalEnds(s0, State(), agg, y, false);
    }

    /** Without any round, report the cursor and, when it can be read, the contract's length. */
    method ReportCursor(ghost s0: State, ghost accounts0: map<nat, int>, was: SyncResult, ghost y: Tally) returns (agg: SyncResult)
      requires Total(s0, State(), was, y, true) && !was.caughtUp
      requires Booked(s0.paid, accounts0, [], was.cursorBefore, was.cursorAfter)
      ensures Total(s0, State(), agg, y, false) && agg.pulled == was.pulled && agg.credited == was.credited
      ensures Booked(s0.paid, accounts0, [], agg.cursorBefore, agg.cursorAfter)
      ensures agg.caughtUp ==> agg.cursorAfter + 1 >= agg.contractLength
    {
      hide Total, MaxIndex, PaidFor;
      var before := GetEthUserRecordLast();
      EmptyWindow(s0.paid, paid, accounts0, accounts, directory, was.cursorBefore, was.cursorAfter, before, before);
      agg := was.(cursorBefore := before, cursorAfter := before);
      var lengthFails: bool, length: int := *, *;
      if !lengthFails {
        agg := agg.(contractLength := length, caughtUp := before + 1 >= length || length <= 0);
      }
      TotalWithoutRounds(s0, State(), was, y, agg);
    }

    /** Turns a skipped row into a credited deposit. */
    method ReplaySkippedChainDeposit(i: nat, amount: int, address: string, f: Faults, deleteWorks: bool)
      returns (status: ReplayStatus)
      modifies this`rows, this`accounts, this`paid
      ensures Reaches(old(State()), State())
      ensures status.NotFound? <==> i !in old(rows)
      ensures status.AlreadyCredited? <==> i in old(rows) && old(rows)[i].Success?
      ensures status.StillSkipped? ==> amount < MIN_DEPOSIT || address !in directory
      ensures status.NotFound? || status.AlreadyCredited? || status.StillSkipped? ==> State() == old(State())
      ensures status.Replayed? ==> i in old(rows) && old(rows)[i] == Skipped && address in directory
                                   && directory[address] in old(accounts)
      ensures status.Replayed? ==> rows == old(rows)[i := Success(directory[address], amount)]
                                   && paid == old(paid) + [Payment(i, directory[address], amount)]
                                   && accounts == old(accounts)[directory[address] := old(accounts)[directory[address]] + amount]
      ensures !status.Replayed? ==> accounts == old(accounts) && paid == old(paid) && rows - {i} == old(rows) - {i}
      ensures f.undo && f.park && status.Failed? ==> rows == old(rows)
      ensures i in old(rows) && old(rows)[i].Skipped? ==> (status == StillSkipped(BelowMin) <==> amount < MIN_DEPOSIT)
      ensures i in old(rows) && old(rows)[i].Skipped? && amount >= MIN_DEPOSIT && f.lookup ==>
                (status == StillSkipped(Unregistered) <==> address !in directory)
      ensures i in old(rows) && old(rows)[i].Skipped? && f.None() && deleteWorks ==>
                (status.Replayed? <==> Due(Record(i, address, amount), directory, old(accounts).Keys))
    {
      hide Exec, Next, Reaches;
      ghost var start := State();
      ReachesSelf(start);
      if i !in rows {
        return NotFound;
      }
      if rows[i].Success? {
        return AlreadyCredited;
      }
      if amount < MIN_DEPOSIT {
        return StillSkipped(BelowMin);
      }
      if !f.lookup {
        return Failed;
      }
      if address !in directory {
        return StillSkipped(Unregistered);
      }
      if !deleteWorks {
        return Failed;
      }
      rows := rows - {i};
      ghost var emptied := State();
      DeleteReached(start, i, emptied);
      var failure := CreditChainDeposit(directory[address], i, amount, f);
      ghost var tried := State();
      ReachesTransitive(start, emptied, tried);
      if failure.None? {
        return Replayed;
      }
      assert failure != Some(Exists);
      assert emptied.rows - {i} == start.rows - {i};
      var restored := ClaimSkip(i, f.park);
      assert rows - {i} == tried.rows - {i};
      assert start.rows == (start.rows - {i})[i := Skipped];
      ReachesTransitive(start, tried, State());
      return Failed;
    }
  }
}
