/** Small-area volumes and V-levels over any history. */
module RunLevels {
  import opened Sums
  import opened Forest
  import opened Params
  import opened Orders
  import opened Volumes
  import opened Tables
  import opened Settlement
  import opened Runs
  import opened RunBooks
  import opened RunRates
  import opened PathIndex
  import U = UseCases

  /** Users and orders are only ever added; links and order terms stay. */
  ghost predicate Grown(a: World, b: World)
  {
    && a.nextId <= b.nextId
    && a.ids <= b.ids
    && (forall x :: x in a.users ==> x in b.users && b.users[x].inviter == a.users[x].inviter)
    && (forall x :: x in b.users && x !in a.users ==> a.nextId <= x)
    && |a.orders| <= |b.orders|
    && (forall i :: 0 <= i < |a.orders| ==> b.orders[i].user == a.orders[i].user && b.orders[i].amount == a.orders[i].amount)
  }

  ghost predicate PositiveAmounts(w: World)
  {
    forall i :: 0 <= i < |w.orders| ==> w.orders[i].amount > 0
  }

  lemma GrownTransitive(a: World, b: World, c: World)
    requires Grown(a, b) && Grown(b, c)
    ensures Grown(a, c)
  {
  }

  lemma SameLinksGrown(a: World, b: World)
    requires SameLinks(a, b) && |a.orders| <= |b.orders|
    requires forall i :: 0 <= i < |a.orders| ==> b.orders[i].user == a.orders[i].user && b.orders[i].amount == a.orders[i].amount
    ensures Grown(a, b)
  {
  }

  lemma RegisterGrown(w: World, genesis: string, address: string, invite: string, io: U.PathIo)
    requires w.Valid()
    ensures Grown(w, U.Register(w, genesis, address, invite, io).Or(w))
  {
    hide U.NewPath, U.FindByAddress;
  }

  lemma ApplyGrown(s: Setting, w: World, op: Op)
    requires s.p.scale > 0 && w.Valid() && PositiveAmounts(w)
    ensures Grown(w, Apply(s, w, op)) && PositiveAmounts(Apply(s, w, op))
  {
    var b := Apply(s, w, op);
    forall i | 0 <= i < |w.orders|
      ensures i < |b.orders| && b.orders[i].user == w.orders[i].user && b.orders[i].amount == w.orders[i].amount
    {
      ApplyKeepsRow(s, w, op, i);
    }
    NewAmounts(s, w, op);
    hide World.Valid, U.Register;
    if op.Register? {
      RegisterGrown(w, s.genesis, op.address, op.invite, op.io);
    } else {
      ApplyKeepsLinks(s, w, op);
      hide Apply;
      SameLinksGrown(w, b);
    }
  }

  lemma NewAmounts(s: Setting, w: World, op: Op)
    requires s.p.scale > 0 && w.Valid()
    ensures |w.orders| <= |Apply(s, w, op).orders|
    ensures forall i :: |w.orders| <= i < |Apply(s, w, op).orders| ==> Apply(s, w, op).orders[i].amount > 0
  {
    hide World.Valid, SettleOnce, U.FindByAddress, U.NewPath;
    match op
    case CancelPending => CancelKeepsOrders(w, |w.withdraws|);
    case Settle(only, order) => SettlementShape(s.p, w, only, order);
    case _ =>
  }

  // ---- volumes grow ----

  lemma {:induction false} AmountTotalGrows(a: seq<Order>, b: seq<Order>, u: nat)
    requires |a| <= |b| && forall i :: 0 <= i < |b| ==> b[i].amount >= 0
    requires forall i :: 0 <= i < |a| ==> b[i].user == a[i].user && b[i].amount == a[i].amount
    ensures 0 <= AmountTotal(a, u) <= AmountTotal(b, u)
    decreases |b|
  {
    if a != [] {
      AmountTotalGrows(a[1..], b[1..], u);
    } else if b != [] {
      AmountTotalGrows(a, b[1..], u);
    }
  }

  lemma {:induction false} SumNonnegative(xs: seq<nat>, f: nat -> int)
    requires forall x :: x in xs ==> f(x) >= 0
    ensures Sum(xs, f) >= 0
  {
    if xs != [] {
      SumNonnegative(xs[1..], f);
    }
  }

  lemma GrownUplines(a: World, b: World, r: nat, x: nat)
    requires a.Valid() && b.Valid() && Grown(a, b) && x in a.users
    ensures a.Tree().Rooted() && b.Tree().Rooted()
    ensures a.Tree().InSubtree(r, x) <==> b.Tree().InSubtree(r, x)
  {
    a.TreeValid();
    b.TreeValid();
    SameUplines(a.Tree(), b.Tree(), r, x);
  }

  lemma SubtreeTotalGrows(a: World, b: World, root: nat)
    requires a.Valid() && b.Valid() && Grown(a, b) && PositiveAmounts(b)
    ensures a.Tree().Rooted() && b.Tree().Rooted()
    ensures 0 <= SubtreeTotal(a.Tree(), PersonalVolumes(a), root) <= SubtreeTotal(b.Tree(), PersonalVolumes(b), root)
  {
    a.TreeValid();
    b.TreeValid();
    var f := (x: nat) => if a.Tree().InSubtree(root, x) then Own(PersonalVolumes(a), x) else 0;
    var g := (x: nat) => if b.Tree().InSubtree(root, x) then Own(PersonalVolumes(b), x) else 0;
    forall x: nat
      ensures 0 <= f(x) && 0 <= g(x) && (x in a.users ==> f(x) <= g(x))
    {
      AmountTotalGrows(a.orders, b.orders, x);
      if x in a.users {
        GrownUplines(a, b, root, x);
      }
    }
    var more := b.ids[|a.ids|..];
    assert b.ids == a.ids + more;
    SumBound(a.ids, f, g);
    SumNonnegative(a.ids, f);
    SumNonnegative(more, g);
    SumAppend(a.ids, more, g);
    SumCongruent(a.ids, f, (x: nat) => if a.Tree().InSubtree(root, x) then Own(PersonalVolumes(a), x) else 0);
    SumCongruent(b.ids, g, (x: nat) => if b.Tree().InSubtree(root, x) then Own(PersonalVolumes(b), x) else 0);
  }

  lemma {:induction false} ChildListSame(xs: seq<nat>, p1: map<nat, nat>, p2: map<nat, nat>, p: nat)
    requires forall x :: x in xs ==> (x in p1 <==> x in p2) && (x in p1 ==> p1[x] == p2[x])
    ensures ChildList(xs, p1, p) == ChildList(xs, p2, p)
  {
    if xs != [] {
      ChildListSame(xs[1..], p1, p2, p);
    }
  }

  /** Old legs stay legs, in the same places. */
  lemma LegsGrow(a: World, b: World, u: nat)
    requires a.Valid() && b.Valid() && Grown(a, b)
    ensures a.Tree().Kids(u) <= b.Tree().Kids(u)
  {
    a.TreeValid();
    b.TreeValid();
    var more := b.ids[|a.ids|..];
    assert b.ids == a.ids + more;
    ChildListAppend(a.ids, more, b.Parents(), u);
    ChildListSame(a.ids, a.Parents(), b.Parents(), u);
  }

  lemma VolumeGrows(a: World, b: World, u: nat)
    requires a.Valid() && b.Valid() && Grown(a, b) && PositiveAmounts(b)
    ensures 0 <= VolumeOf(a, u) <= VolumeOf(b, u)
  {
    a.TreeValid();
    b.TreeValid();
    LegsGrow(a, b, u);
    var ka, kb := a.Tree().Kids(u), b.Tree().Kids(u);
    var la, lb := LegTotals(a.Tree(), PersonalVolumes(a), ka), LegTotals(b.Tree(), PersonalVolumes(b), kb);
    forall i | 0 <= i < |lb|
      ensures 0 <= lb[i] && (i < |la| ==> 0 <= la[i] <= lb[i])
    {
      SubtreeTotalGrows(a, b, kb[i]);
    }
    SmallAreaGrows(la, lb);
  }

  lemma {:induction false} GrownOverRuns(s: Setting, w: World, ops: seq<Op>)
    requires s.p.scale > 0 && w.Valid() && PositiveAmounts(w)
    ensures Grown(w, After(s, w, ops)) && PositiveAmounts(After(s, w, ops))
    decreases |ops|
  {
    if ops != [] {
      ApplyValid(s, w, ops[0]);
      ApplyGrown(s, w, ops[0]);
      hide World.Valid, Apply, Grown, PositiveAmounts;
      GrownOverRuns(s, Apply(s, w, ops[0]), ops[1..]);
      GrownTransitive(w, Apply(s, w, ops[0]), After(s, w, ops));
    }
  }

  /** Over any history no user's small-area volume decreases, and the level recomputed for an
      unlocked user never falls, whatever the order of the tier rows. */
  lemma LevelsNeverFall(s: Setting, w: World, ops: seq<Op>, u: nat)
    requires s.p.scale > 0 && w.Valid() && PositiveAmounts(w) && u in w.users
    ensures var after := After(s, w, ops);
            && VolumeOf(w, u) <= VolumeOf(after, u)
            && u in after.users
            && (!w.users[u].levelLocked && !after.users[u].levelLocked ==> GradeOf(s.p, w, u) <= GradeOf(s.p, after, u))
  {
    var after := After(s, w, ops);
    GrownOverRuns(s, w, ops);
    VolumeGrows(w, after, u);
    LevelMonotone(s.p, VolumeOf(w, u), VolumeOf(after, u));
  }
}
