/** The path column of the invite tree (user.go registration, location.go prefix query): the
    text index agrees with the inviter links, and the volumes it yields are the graded ones. */
module PathIndex {
  import opened Arith
  import opened Sums
  import opened Forest
  import opened Orders
  import opened Volumes
  import opened Tables
  import opened Settlement
  import opened Text
  import opened Runs
  import opened SettlementBound
  import U = UseCases

  /** The prefix the queries use for v: its path row, or its bare id when the row is missing. */
  function QueryPath(w: World, v: nat): string
  {
    if v in w.paths && w.paths[v] != "" then w.paths[v] else Numeral(v)
  }

  /** The prefix query for v returns u. */
  predicate Matched(w: World, v: nat, u: nat)
  {
    u in w.paths && PathMatches(w.paths[u], QueryPath(w, v))
  }

  /** x's path row is its inviter's row and the own id, or the bare id of a user without inviter. */
  ghost predicate RowKept(w: World, x: nat)
    requires x in w.users
  {
    && x in w.paths
    && match w.users[x].inviter
       case None => w.paths[x] == Numeral(x)
       case Some(v) => v in w.paths && w.paths[x] == w.paths[v] + "," + Numeral(x)
  }

  ghost predicate AllKept(w: World)
  {
    forall x :: x in w.users ==> RowKept(w, x)
  }

  /** Every stored row is kept, or was written as the bare id. */
  ghost predicate RowsOwn(w: World)
  {
    forall x :: x in w.paths ==> x in w.users && (w.paths[x] == Numeral(x) || RowKept(w, x))
  }

  /** x's path row spells its lineage. */
  ghost predicate Spells(w: World, x: nat)
    requires w.Valid()
  {
    w.TreeValid();
    x in w.paths && w.paths[x] + "," == Terminated(w.Tree().Lineage(x))
  }

  lemma {:induction false} KeptSpells(w: World, x: nat)
    requires w.Valid() && AllKept(w) && x in w.users
    ensures Spells(w, x)
    decreases x
  {
    hide Numeral, Terminated, World.Valid, World.Tree;
    UplineOf(w, x);
    assert RowKept(w, x);
    var t := w.Tree();
    match w.users[x].inviter
    case None => TerminatedAppend([], x);
      assert Terminated([]) == "" by { TerminatedNothing(); }
      assert [] + [x] == [x];
    case Some(v) =>
      KeptSpells(w, v);
      TerminatedAppend(t.Lineage(v), x);
  }

  lemma TerminatedNothing()
    ensures Terminated([]) == ""
  {
  }

  lemma UplineOf(w: World, x: nat)
    requires w.Valid() && x in w.users
    ensures w.Tree().Rooted()
    ensures match w.users[x].inviter
            case None => w.Tree().Lineage(x) == [x]
            case Some(v) => v in w.users && v < x && w.Tree().Lineage(x) == w.Tree().Lineage(v) + [x]
                            && w.Tree().InSubtree(v, x)
  {
    w.TreeValid();
  }

  /** Either the row is the bare id, or the bare id follows a comma. */
  lemma RowEndsOwn(w: World, x: nat) returns (head: string)
    requires RowsOwn(w) && x in w.paths
    ensures w.paths[x] == Numeral(x) || w.paths[x] == head + "," + Numeral(x)
  {
    head := "";
    if w.paths[x] != Numeral(x) {
      assert RowKept(w, x);
      head := w.paths[w.users[x].inviter.value];
    }
  }

  /** A bare row is found under nobody else. */
  lemma BareRowMissed(w: World, v: nat, x: nat)
    requires RowsOwn(w) && v != x && x in w.paths && w.paths[x] == Numeral(x)
    ensures !Matched(w, v, x)
  {
    hide Numeral;
    var row, prefix := Numeral(x), QueryPath(w, v);
    NumeralInjective(v, x);
    assert forall i :: 0 <= i < |row| ==> row[i] != ',';
    assert (prefix + ",")[|prefix|] == ',';
    if prefix != Numeral(v) {
      var head := RowEndsOwn(w, v);
      assert prefix[|head|] == ',';
    }
  }

  // ---- registration ----

  lemma AddUserKept(w: World, address: string, inviter: Option<nat>, io: U.PathIo)
    requires w.Valid() && RowsOwn(w) && (inviter.Some? ==> inviter.value in w.users)
    ensures var after := U.AddUser(w, address, inviter, io);
            RowsOwn(after) && (AllKept(after) <==> AllKept(w) && io.saved && (inviter.None? || io.read))
  {
    hide Numeral, U.AddUser, World.Valid, RowKept;
    var id, after := w.nextId + io.gap, U.AddUser(w, address, inviter, io);
    NewRowKept(w, address, inviter, io);
    forall x | x in w.users
      ensures x in after.users && x != id && (RowKept(after, x) <==> RowKept(w, x))
      ensures (x in after.paths <==> x in w.paths) && (x in w.paths ==> after.paths[x] == w.paths[x])
    {
      OldRowKept(w, address, inviter, io, x);
    }
    if inviter.Some? {
      KeptRead(w, inviter.value);
    }
  }

  lemma KeptRead(w: World, v: nat)
    requires v in w.users
    ensures AllKept(w) ==> v in w.paths
  {
    assert AllKept(w) ==> RowKept(w, v);
  }

  lemma OldRowKept(w: World, address: string, inviter: Option<nat>, io: U.PathIo, x: nat)
    requires w.Valid() && RowsOwn(w) && x in w.users
    ensures var after := U.AddUser(w, address, inviter, io);
            && x in after.users && x != w.nextId + io.gap
            && (x in after.paths <==> x in w.paths) && (x in w.paths ==> after.paths[x] == w.paths[x])
            && (RowKept(after, x) <==> RowKept(w, x))
  {
    hide Numeral, U.NewPath;
  }

  lemma NewRowKept(w: World, address: string, inviter: Option<nat>, io: U.PathIo)
    requires w.Valid() && RowsOwn(w) && (inviter.Some? ==> inviter.value in w.users)
    ensures var id, after := w.nextId + io.gap, U.AddUser(w, address, inviter, io);
            && id in after.users && after.users.Keys == w.users.Keys + {id} && after.paths.Keys <= w.paths.Keys + {id}
            && (RowKept(after, id) <==> io.saved && (inviter.None? || (io.read && inviter.value in w.paths)))
            && (id in after.paths ==> after.paths[id] == Numeral(id) || RowKept(after, id))
  {
    hide Numeral;
    var id, after := w.nextId + io.gap, U.AddUser(w, address, inviter, io);
    if inviter.Some? && inviter.value in w.paths {
      var v := inviter.value;
      assert v != id && w.paths[v] != "" by {
        assert w.paths[v] == Numeral(v) || RowKept(w, v);
      }
      var long := w.paths[v] + "," + Numeral(id);
      assert |long| > |Numeral(id)|;
    }
  }

  /** Everything but registration leaves users' links and path rows alone. */
  ghost predicate SameLinks(a: World, b: World)
  {
    && a.nextId == b.nextId && a.ids == b.ids && a.paths == b.paths && a.users.Keys == b.users.Keys
    && forall x :: x in a.users ==> b.users[x].inviter == a.users[x].inviter
  }

  lemma {:induction false} CancelKeepsLinks(w: World, n: nat)
    requires n <= |w.withdraws|
    ensures SameLinks(w, U.CancelPending(w, n))
    decreases n
  {
    if n > 0 {
      var x := w.withdraws[n - 1];
      CancelKeepsLinks(U.Refunded(w, n - 1), n - 1);
      CancelKeepsLinks(w, n - 1);
    }
  }

  lemma ApplyKeepsLinks(s: Setting, w: World, op: Op)
    requires s.p.scale > 0 && w.Valid() && !op.Register?
    ensures SameLinks(w, Apply(s, w, op))
  {
    hide World.Valid, U.TurnOrders, U.NewOrder, U.FindByAddress, U.CancelPending, SettleOnce;
    match op
    case CancelPending => CancelKeepsLinks(w, |w.withdraws|);
    case Settle(only, order) => SettlementShape(s.p, w, only, order);
    case AdminDeposit(address, amount) => FoundAddress(w.ids, w.users, address);
    case SetAccount(address, amount) => FoundAddress(w.ids, w.users, address);
    case SetWithdrawable(address, amount) => FoundAddress(w.ids, w.users, address);
    case _ =>
  }

  lemma SameLinksKept(a: World, b: World)
    requires SameLinks(a, b)
    ensures RowsOwn(a) <==> RowsOwn(b)
    ensures AllKept(a) <==> AllKept(b)
  {
    hide Numeral;
    forall x | x in a.users
      ensures RowKept(a, x) <==> RowKept(b, x)
    {
    }
  }

  /** This operation creates no user, or one whose path row was written after its inviter's row
      was read. */
  predicate KeepsIndex(s: Setting, w: World, op: Op)
  {
    op.Register? && U.FindByAddress(w.ids, w.users, op.address).None?
    && U.Register(w, s.genesis, op.address, op.invite, op.io).Done?
    ==> op.io.saved && (op.address == s.genesis || op.io.read)
  }

  predicate AllKeepIndex(s: Setting, w: World, ops: seq<Op>)
    requires s.p.scale > 0 && w.Valid()
    decreases |ops|
  {
    ops == []
    || (ApplyValid(s, w, ops[0]);
        KeepsIndex(s, w, ops[0]) && AllKeepIndex(s, Apply(s, w, ops[0]), ops[1..]))
  }

  lemma RegisterKept(s: Setting, w: World, op: Op)
    requires s.p.scale > 0 && w.Valid() && RowsOwn(w) && op.Register?
    ensures RowsOwn(Apply(s, w, op))
    ensures AllKept(Apply(s, w, op)) <==> AllKept(w) && KeepsIndex(s, w, op)
  {
    hide World.Valid, RowsOwn, AllKept, U.AddUser, U.FindByAddress;
    FoundAddress(w.ids, w.users, op.invite);
    AddUserKept(w, op.address, None, op.io);
    var found := U.FindByAddress(w.ids, w.users, op.invite);
    if found.Some? {
      AddUserKept(w, op.address, found, op.io);
    }
  }

  lemma ApplyKept(s: Setting, w: World, op: Op)
    requires s.p.scale > 0 && w.Valid() && RowsOwn(w)
    ensures RowsOwn(Apply(s, w, op))
    ensures AllKept(Apply(s, w, op)) <==> AllKept(w) && KeepsIndex(s, w, op)
  {
    hide World.Valid, RowsOwn, AllKept, SameLinks, U.Register, Attempt;
    if op.Register? {
      RegisterKept(s, w, op);
    } else {
      ApplyKeepsLinks(s, w, op);
      SameLinksKept(w, Apply(s, w, op));
    }
  }

  /** Over any history the rows are complete exactly when every registration wrote its row after
      reading its inviter's. */
  lemma {:induction false} KeptOverRuns(s: Setting, w: World, ops: seq<Op>)
    requires s.p.scale > 0 && w.Valid() && RowsOwn(w)
    ensures RowsOwn(After(s, w, ops))
    ensures AllKept(After(s, w, ops)) <==> AllKept(w) && AllKeepIndex(s, w, ops)
    decreases |ops|
  {
    hide World.Valid, Apply, RowsOwn, AllKept, KeepsIndex;
    if ops != [] {
      ApplyValid(s, w, ops[0]);
      ApplyKept(s, w, ops[0]);
      KeptOverRuns(s, Apply(s, w, ops[0]), ops[1..]);
    }
  }

  lemma MatchedIsSubtree(w: World, v: nat, u: nat)
    requires w.Valid() && AllKept(w) && v in w.users && u in w.users
    ensures w.Tree().Rooted()
    ensures Matched(w, v, u) <==> w.Tree().InSubtree(v, u)
  {
    w.TreeValid();
    KeptSpells(w, v);
    KeptSpells(w, u);
    hide World.Valid, World.Tree, AllKept, Terminated, PathMatches, Tree.Valid;
    var t := w.Tree();
    TerminatedNotEmpty(t.Lineage(v));
    MatchIsTerminatedPrefix(w.paths[u], w.paths[v]);
    TerminatedPrefix(t.Lineage(v), t.Lineage(u));
    t.LineagePrefix(v, u);
  }

  lemma TerminatedNotEmpty(ids: seq<nat>)
    ensures ids != [] ==> |Terminated(ids)| > 1
  {
  }

  /** The text index answers subtree queries exactly like the inviter links. */
  ghost predicate IndexExact(w: World)
    requires w.Valid()
  {
    w.TreeValid();
    forall v, u :: v in w.users && u in w.users ==> (Matched(w, v, u) <==> w.Tree().InSubtree(v, u))
  }

  /** The index is exact if and only if every row is kept. */
  lemma ExactIffKept(w: World)
    requires w.Valid() && RowsOwn(w)
    ensures IndexExact(w) <==> AllKept(w)
  {
    w.TreeValid();
    if AllKept(w) {
      forall v, u | v in w.users && u in w.users
        ensures Matched(w, v, u) <==> w.Tree().InSubtree(v, u)
      {
        MatchedIsSubtree(w, v, u);
      }
    } else {
      var x :| x in w.users && !RowKept(w, x);
      NotFound(w, x);
    }
  }

  /** A user whose row is not kept is missed under itself or under its inviter. */
  lemma NotFound(w: World, x: nat)
    requires w.Valid() && RowsOwn(w) && x in w.users && !RowKept(w, x)
    ensures w.Tree().Rooted()
    ensures exists v :: v in w.users && w.Tree().InSubtree(v, x) && !Matched(w, v, x)
  {
    UplineOf(w, x);
    if x !in w.paths {
      assert w.Tree().InSubtree(x, x) && !Matched(w, x, x);
    } else {
      var v := w.users[x].inviter.value;
      BareRowMissed(w, v, x);
    }
  }

  /** After any history the index is exact if and only if it was complete at the start and every
      registration since wrote its row after reading its inviter's: in particular "1,5" never
      captures "1,50". */
  lemma IndexExactOverRuns(s: Setting, w: World, ops: seq<Op>)
    requires s.p.scale > 0 && w.Valid() && RowsOwn(w)
    ensures IndexExact(After(s, w, ops)) <==> AllKept(w) && AllKeepIndex(s, w, ops)
  {
    hide World.Valid, RowsOwn, AllKept, AllKeepIndex, IndexExact;
    KeptOverRuns(s, w, ops);
    ExactIffKept(After(s, w, ops));
  }

  lemma EmptyKept()
    ensures RowsOwn(EmptyWorld) && AllKept(EmptyWorld)
  {
  }

  /** Two users, the second registered without reading the first one's row. */
  lemma UnreadRow()
    ensures var w1 := U.AddUser(EmptyWorld, "a", None, U.PathIo(0, true, true));
            var w2 := U.AddUser(w1, "b", Some(1), U.PathIo(0, false, true));
            && w2.Valid() && (forall x :: x in w2.users ==> x in w2.paths)
            && 1 in w2.users && 2 in w2.users && w2.users[2].inviter == Some(1)
            && !Matched(w2, 1, 2) && !IndexExact(w2)
  {
    hide Numeral, IndexExact, World.Valid;
    var w1 := U.AddUser(EmptyWorld, "a", None, U.PathIo(0, true, true));
    var w2 := U.AddUser(w1, "b", Some(1), U.PathIo(0, false, true));
    EmptyKept();
    EmptyValid();
    AddUserValid(EmptyWorld, "a", None, U.PathIo(0, true, true));
    AddUserKept(EmptyWorld, "a", None, U.PathIo(0, true, true));
    AddUserValid(w1, "b", Some(1), U.PathIo(0, false, true));
    AddUserKept(w1, "b", Some(1), U.PathIo(0, false, true));
    BareRowMissed(w2, 1, 2);
    ExactIffKept(w2);
  }

  const Unread: seq<Op> := [Op.Register("a", "", U.PathIo(0, true, true)), Op.Register("b", "a", U.PathIo(0, false, true))]

  lemma UnreadHistory(s: Setting)
    requires s.p.scale > 0 && s.genesis == "a"
    ensures History(s, Unread) == U.AddUser(U.AddUser(EmptyWorld, "a", None, U.PathIo(0, true, true)), "b", Some(1), U.PathIo(0, false, true))
  {
    hide Numeral, World.Valid;
    var first, second := Unread[0], Unread[1];
    EmptyValid();
    AfterTwo(s, EmptyWorld, first, second);
    FindFirst();
    hide U.FindByAddress;
    var w1 := U.AddUser(EmptyWorld, "a", None, first.io);
    assert Apply(s, EmptyWorld, first) == w1;
    assert w1.ids == [1] && w1.users == map[1 := U.NewUser("a", None)];
    assert Apply(s, w1, second) == U.AddUser(w1, "b", Some(1), second.io);
  }

  /** Two registrations, the second without reading its inviter's row: both rows are saved, and
      the second user is not found under the first. */
  lemma UnreadInviterIsMissed(s: Setting)
    requires s.p.scale > 0 && s.genesis == "a"
    ensures var w := History(s, Unread);
            && (forall x :: x in w.users ==> x in w.paths)
            && 1 in w.users && 2 in w.users && w.users[2].inviter == Some(1)
            && !Matched(w, 1, 2) && !IndexExact(w)
  {
    hide World.Valid, After, Matched, IndexExact, U.AddUser, History;
    UnreadHistory(s);
    UnreadRow();
  }

  lemma FindFirst()
    ensures U.FindByAddress([], map[], "a") == None
    ensures U.FindByAddress([1], map[1 := U.NewUser("a", None)], "a") == Some(1)
    ensures U.FindByAddress([1], map[1 := U.NewUser("a", None)], "b") == None
  {
    assert [1][1..] == [];
  }

  // ---- volumes ----

  /** SumAmountByPathPrefix for v. */
  function PathVolume(w: World, orders: seq<Order>, v: nat): int
  {
    if orders == [] then 0
    else (if Matched(w, v, orders[0].user) then orders[0].amount else 0) + PathVolume(w, orders[1..], v)
  }

  lemma {:induction false} PathVolumeByUser(w: World, orders: seq<Order>, v: nat)
    requires Ascending(w.ids) && forall i :: 0 <= i < |orders| ==> orders[i].user in w.ids
    ensures PathVolume(w, orders, v) == Sum(w.ids, (x: nat) => if Matched(w, v, x) then AmountTotal(orders, x) else 0)
  {
    var f := (x: nat) => if Matched(w, v, x) then AmountTotal(orders, x) else 0;
    if orders == [] {
      SumZero(w.ids, f);
    } else {
      var o, rest := orders[0], orders[1..];
      assert forall i :: 0 <= i < |rest| ==> rest[i] == orders[i + 1];
      PathVolumeByUser(w, rest, v);
      var amount := if Matched(w, v, o.user) then o.amount else 0;
      var g := (x: nat) => if Matched(w, v, x) then AmountTotal(rest, x) else 0;
      var h := (x: nat) => if x == o.user then amount else 0;
      SumLinear(w.ids, g, h, f);
      SumIndicator(w.ids, o.user, amount);
      SumCongruent(w.ids, g, (x: nat) => if Matched(w, v, x) then AmountTotal(rest, x) else 0);
    }
  }

  /** The volume queried by path is the subtree volume settlement collects by links. */
  lemma PathVolumeIsSubtree(w: World, v: nat)
    requires w.Valid() && IndexExact(w) && v in w.users
    ensures w.Tree().Rooted()
    ensures PathVolume(w, w.orders, v) == SubtreeTotal(w.Tree(), PersonalVolumes(w), v)
  {
    w.TreeValid();
    var t := w.Tree();
    PathVolumeByUser(w, w.orders, v);
    var f := (x: nat) => if Matched(w, v, x) then AmountTotal(w.orders, x) else 0;
    var g := (x: nat) => if t.InSubtree(v, x) then Own(PersonalVolumes(w), x) else 0;
    forall x | x in w.ids
      ensures f(x) == g(x)
    {
      assert Matched(w, v, x) <==> t.InSubtree(v, x);
    }
    SumCongruent(w.ids, f, g);
    SumCongruent(w.ids, f, (x: nat) => if Matched(w, v, x) then AmountTotal(w.orders, x) else 0);
    SumCongruent(t.ids, g, (x: nat) => if t.InSubtree(v, x) then Own(PersonalVolumes(w), x) else 0);
  }

  /** Leg volumes of u as AreaVolumes queries them. */
  function PathLegs(w: World, u: nat): seq<int>
  {
    var legs := ChildList(w.ids, w.Parents(), u);
    seq(|legs|, i requires 0 <= i < |legs| => PathVolume(w, w.orders, legs[i]))
  }

  /** Team total, largest leg and small area shown to a user. */
  function AreaVolumes(w: World, u: nat): (int, int, int)
  {
    var legs := PathLegs(w, u);
    if legs == [] then (0, 0, 0) else (Total(legs), Largest(legs), SmallArea(legs))
  }

  /** The volumes shown are the ones settlement grades by, and they add up. */
  lemma ShownIsGraded(w: World, u: nat)
    requires w.Valid() && IndexExact(w)
    ensures var (total, largest, small) := AreaVolumes(w, u);
            small == VolumeOf(w, u) && total == largest + small
  {
    w.TreeValid();
    LegsAgree(w, u);
    if PathLegs(w, u) != [] {
      AreasAddUp(PathLegs(w, u));
    }
  }

  lemma KidsAreChildren(w: World, u: nat)
    requires w.Valid()
    ensures w.Tree().Rooted() && w.Tree().Kids(u) == ChildList(w.ids, w.Parents(), u)
    ensures forall i :: 0 <= i < |w.Tree().Kids(u)| ==> w.Tree().Kids(u)[i] in w.users
  {
    w.TreeValid();
    ChildListMembers(w.ids, w.Parents(), u);
    var legs := w.Tree().Kids(u);
    assert forall i :: 0 <= i < |legs| ==> legs[i] in legs;
  }

  lemma LegsAgree(w: World, u: nat)
    requires w.Valid() && IndexExact(w)
    ensures w.Tree().Rooted() && PathLegs(w, u) == LegTotals(w.Tree(), PersonalVolumes(w), w.Tree().Kids(u))
  {
    hide World.Valid, World.Tree, World.Parents, SubtreeTotal, PathVolume, PersonalVolumes, IndexExact, Tree.Rooted, Tree.Kids;
    KidsAreChildren(w, u);
    var t := w.Tree();
    var legs := ChildList(w.ids, w.Parents(), u);
    forall i | 0 <= i < |legs|
      ensures PathLegs(w, u)[i] == LegTotals(t, PersonalVolumes(w), legs)[i]
    {
      PathVolumeIsSubtree(w, legs[i]);
    }
  }
}
