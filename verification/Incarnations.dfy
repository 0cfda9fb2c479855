/** The life of an ArtifactWorkflow over whole runs: how it ends, and whose phases it records. */
module Incarnations {
  import opened Types
  import opened Cluster
  import opened Frames
  import opened AwSteps
  import opened Behaviors
  import AwInvariant
  import OrderSteps
  import O = OrderRun
  import A = AwRun

  // ---------------------------------------------------------------------------------------------------
  // How an ArtifactWorkflow leaves the store
  // ---------------------------------------------------------------------------------------------------

  ghost predicate Unheld(a: A.Aw) {
    !a.deleting && a.finalizers == {}
  }

  // The guard under which an action removes the ArtifactWorkflow `x`.
  ghost predicate Removes(w: World, a: Action, x: NN)
    requires x in w.aws && Enabled(w, a)
  {
    match a
    case User(RemoveAw(nn)) => nn == x && Unheld(w.aws[x])
    case User(EditAw(nn, _, f)) => nn == x && w.aws[x].deleting && f == {}
    case OrderWorker(nn, OCleanup(sha, delivered)) => delivered && AwName(nn, sha) == x && Unheld(w.aws[x])
    case OrderWorker(nn, ODelete(sha)) => AwName(nn, sha) == x && Unheld(w.aws[x])
    case AwWorker(nn, ADropFinalizer) => nn == x && w.aws[x].finalizers == {A.AW_FINALIZER}
    case _ => false
  }

  lemma DeleteRemoves(w: World, nn: NN, x: NN)
    requires x in w.aws
    ensures x !in DeleteAw(w, nn).aws <==> nn == x && Unheld(w.aws[x])
  {
    DeleteAwAt(w, nn, x);
  }

  lemma UserRemoves(w: World, a: UserAction, x: NN)
    requires x in w.aws && UserEnabled(w, a)
    ensures x !in UserNext(w, a).aws <==> Removes(w, User(a), x)
  {
    if a.MakeOrder? || a.EditOrder? || a.RemoveOrder? {
      UserOrdersApart(w, a);
    } else if a.RemoveAw? {
      DeleteRemoves(w, a.nn, x);
    }
  }

  lemma OrderRemoves(w: World, nn: NN, c: OrderCall, x: NN)
    requires x in w.aws && OrderEnabled(w, nn, c)
    ensures x !in OrderNext(w, nn, c).aws <==> Removes(w, OrderWorker(nn, c), x)
  {
    if c.OCleanup? || c.ODelete? {
      DeleteRemoves(w, AwName(nn, c.sha), x);
    } else if !c.OCreate? {
      OrderCallsApart(w, nn, c);
    }
  }

  // What an ArtifactWorkflow worker holds when it writes is what is stored, and it is in this shape.
  lemma HeldByWriter(w: World, nn: NN)
    requires AwInv(w) && nn in w.awRuns && AwCurrent(w, nn, w.awRuns[nn].base)
    ensures w.aws[nn] == w.awRuns[nn].base && A.WellFormed(w.awRuns[nn])
  {
    CurrentIsBase(w, nn);
    assert AwInvariant.RunHolds(w.awRuns[nn], nn, w.awLog, w.awFloor);
  }

  lemma AwRemoves(w: World, nn: NN, c: AwCall, x: NN)
    requires AwInv(w) && x in w.aws && AwEnabled(w, nn, c)
    ensures x !in AwNext(w, nn, c).aws <==> Removes(w, AwWorker(nn, c), x)
  {
    AwWritesAre(w, nn, c);
    if WrittenAw(w, nn, c).Some? {
      HeldByWriter(w, nn);
      SaveAwAt(w, nn, WrittenAw(w, nn, c).value, x);
    }
  }

  // In every run, an ArtifactWorkflow leaves the store at a step if and only if that step is one of these: a user's or
  // an Order's Delete while nothing holds it, the last finalizer taken by a user, or the controller's own finalizer
  // dropped as the last one.
  lemma LeavesIff(b: Behavior, i: nat, x: NN)
    requires Valid(b) && i < |b.actions| && x in b.states[i].aws
    ensures StepAt(b, i)
    ensures x !in b.states[i + 1].aws <==> Removes(b.states[i], b.actions[i], x)
  {
    var w := b.states[i];
    assert StepAt(b, i);
    AwHolds(b, i);
    match b.actions[i]
    case User(u) => UserRemoves(w, u, x);
    case OrderWorker(nn, c) => OrderRemoves(w, nn, c, x);
    case AwWorker(nn, c) => AwRemoves(w, nn, c, x);
  }

  // An Order removes ArtifactWorkflows of its own keys only, when it was read as deleting, or when none of the
  // artifacts it was read with has that key. What is stored by then may say something else.
  lemma RemovedByOrder(b: Behavior, i: nat, nn: NN, c: OrderCall, x: NN)
    requires Valid(b) && i < |b.actions| && b.actions[i] == OrderWorker(nn, c)
    requires x in b.states[i].aws && x !in b.states[i + 1].aws
    ensures nn in b.states[i].orderRuns
    ensures exists sha: Sha :: x == AwName(nn, sha) && ReadAsObsolete(b.states[i].orderRuns[nn], sha)
  {
    LeavesIff(b, i, x);
    Holds(b, i);
    RemoverReads(b.states[i], nn, c);
  }

  ghost predicate ReadAsObsolete(r: O.OrderRun, sha: Sha) {
    && sha in r.base.status
    && (r.base.deleting || (r.Main? && sha !in O.Desired(r.shas)))
  }

  lemma RemoverReads(w: World, nn: NN, c: OrderCall)
    requires OrderSteps.OrderInv(w) && OrderEnabled(w, nn, c) && (c.OCleanup? || c.ODelete?)
    ensures ReadAsObsolete(w.orderRuns[nn], c.sha)
  {
    assert OrderSteps.RunHolds(w.codec, nn, w.orderRuns[nn], w.orderLog, w.reported);
  }

  // ---------------------------------------------------------------------------------------------------
  // Whose phases it records
  // ---------------------------------------------------------------------------------------------------

  // The Workflow of `nn` exists at every point from `j` to `i`.
  ghost predicate Alive(b: Behavior, j: nat, i: nat, nn: NN)
    requires i <= |b.actions| && |b.states| == |b.actions| + 1
  {
    forall h: nat :: j <= h <= i ==> nn in b.states[h].wfs
  }

  // A check returns a phase that this very Workflow has shown, possibly some time ago.
  ghost predicate OwnRead(b: Behavior, i: nat, nn: NN, p: Phase)
    requires i <= |b.actions| && |b.states| == |b.actions| + 1
  {
    exists j: nat :: j <= i && Shows(b.states[j], nn, p) && Alive(b, j, i, nn)
  }

  ghost predicate OwnReads(b: Behavior)
    requires Valid(b)
  {
    forall i: nat, nn, p :: i < |b.actions| && b.actions[i] == AwWorker(nn, ACheck(p)) ==> OwnRead(b, i, nn, p)
  }

  // At an earlier point the Workflow showed that phase while this incarnation was stored.
  ghost predicate ShownTo(b: Behavior, i: nat, nn: NN, uid: nat, p: Phase)
    requires i <= |b.actions| && |b.states| == |b.actions| + 1
  {
    exists j: nat :: j <= i && Shows(b.states[j], nn, p) && nn in b.states[j].aws && b.states[j].aws[nn].uid == uid
  }

  lemma AwCallUid(w: World, nn: NN, c: AwCall, x: NN)
    requires AwInv(w) && AwEnabled(w, nn, c) && x in w.aws && x in AwNext(w, nn, c).aws
    ensures AwNext(w, nn, c).aws[x].uid == w.aws[x].uid
    ensures AwNext(w, nn, c).aws[x].phase == w.aws[x].phase
            || (nn == x && c.ASetPhase? && AwNext(w, nn, c).aws[x].phase == w.awRuns[nn].phase
                && w.awRuns[nn].base.uid == w.aws[x].uid)
  {
    AwWritesAre(w, nn, c);
    if WrittenAw(w, nn, c).Some? {
      HeldByWriter(w, nn);
      SaveAwAt(w, nn, WrittenAw(w, nn, c).value, x);
    }
  }

  lemma DeleteKeepsPhase(w: World, nn: NN, x: NN)
    requires x in DeleteAw(w, nn).aws
    ensures x in w.aws && DeleteAw(w, nn).aws[x].uid == w.aws[x].uid && DeleteAw(w, nn).aws[x].phase == w.aws[x].phase
  {
    DeleteAwAt(w, nn, x);
  }

  ghost predicate SamePhase(w: World, n: World, x: NN) {
    x in w.aws && x in n.aws && n.aws[x].uid == w.aws[x].uid && n.aws[x].phase == w.aws[x].phase
  }

  lemma UserKeepsPhase(w: World, a: UserAction, x: NN)
    requires UserEnabled(w, a) && x in UserNext(w, a).aws
    ensures SamePhase(w, UserNext(w, a), x) || (x !in w.aws && UserNext(w, a).aws[x].phase.Unknown?)
  {
    match a
    case MakeAw(_, _, _) =>
    case EditAw(nn, spec, f) => SaveAwAt(w, nn, w.aws[nn].(spec := spec, finalizers := f), x);
    case RemoveAw(nn) => DeleteKeepsPhase(w, nn, x);
    case Report(_, _) =>
    case _ => UserOrdersApart(w, a);
  }

  lemma OrderKeepsPhase(w: World, nn: NN, c: OrderCall, x: NN)
    requires OrderEnabled(w, nn, c) && x in OrderNext(w, nn, c).aws
    ensures SamePhase(w, OrderNext(w, nn, c), x) || (x !in w.aws && OrderNext(w, nn, c).aws[x].phase.Unknown?)
  {
    match c
    case OCleanup(sha, delivered) => if delivered { DeleteKeepsPhase(w, AwName(nn, sha), x); }
    case ODelete(sha) => DeleteKeepsPhase(w, AwName(nn, sha), x);
    case OCreate(_, _) =>
    case _ => OrderCallsApart(w, nn, c);
  }

  // Everyone but the controller leaves phases alone; a new ArtifactWorkflow has none.
  lemma OthersKeepPhase(w: World, a: Action, x: NN)
    requires Enabled(w, a) && !a.AwWorker? && x in Next(w, a).aws
    ensures SamePhase(w, Next(w, a), x) || (x !in w.aws && Next(w, a).aws[x].phase.Unknown?)
  {
    match a
    case User(u) => UserKeepsPhase(w, u, x);
    case OrderWorker(nn, c) => OrderKeepsPhase(w, nn, c, x);
  }

  // While its Workflow exists, an ArtifactWorkflow is stored and stays the same incarnation.
  lemma {:induction false} SameLife(b: Behavior, j: nat, i: nat, nn: NN)
    requires Valid(b) && j <= i <= |b.actions| && Alive(b, j, i, nn)
    ensures nn in b.states[j].aws && nn in b.states[i].aws && b.states[j].aws[nn].uid == b.states[i].aws[nn].uid
    decreases i
  {
    FinalizerGuard(b, i, nn);
    if j == i {
    } else {
      assert Alive(b, j, i - 1, nn);
      SameLife(b, j, i - 1, nn);
      UidStays(b, i - 1, nn);
    }
  }

  lemma UidStays(b: Behavior, i: nat, x: NN)
    requires Valid(b) && i < |b.actions| && x in b.states[i].aws && x in b.states[i + 1].aws
    ensures b.states[i + 1].aws[x].uid == b.states[i].aws[x].uid
  {
    assert StepAt(b, i);
    AwHolds(b, i);
    match b.actions[i]
    case AwWorker(nn, c) => AwCallUid(b.states[i], nn, c, x);
    case _ => OthersKeepPhase(b.states[i], b.actions[i], x);
  }

  // A reconcile that is about to record a phase.
  ghost predicate Recording(w: World, nn: NN, uid: nat, p: Phase) {
    nn in w.awRuns && w.awRuns[nn].SetPhase? && w.awRuns[nn].phase == p && w.awRuns[nn].base.uid == uid
  }

  lemma RecordingFrom(w: World, a: Action, nn: NN, uid: nat, p: Phase)
    requires Enabled(w, a) && Recording(Next(w, a), nn, uid, p) && !p.Assigned() && !Recording(w, nn, uid, p)
    ensures a == AwWorker(nn, ACheck(p)) && nn in w.awRuns && w.awRuns[nn].Check? && w.awRuns[nn].base.uid == uid
  {
    match a
    case User(u) => UserKeepsAwRuns(w, u);
    case OrderWorker(m, c) => OrderKeepsAwRuns(w, m, c);
    case AwWorker(m, c) => RecordingFromCall(w, m, c, nn, uid, p);
  }

  lemma RecordingFromCall(w: World, m: NN, c: AwCall, nn: NN, uid: nat, p: Phase)
    requires AwEnabled(w, m, c) && Recording(AwNext(w, m, c), nn, uid, p) && !p.Assigned() && !Recording(w, nn, uid, p)
    ensures m == nn && c == ACheck(p) && nn in w.awRuns && w.awRuns[nn].Check? && w.awRuns[nn].base.uid == uid
  {
    match c
    case AFetch(v) =>
    case ACleanWorkflow =>
    case ALaunch =>
    case _ =>
  }

  lemma UserKeepsAwRuns(w: World, a: UserAction)
    requires UserEnabled(w, a)
    ensures UserNext(w, a).awRuns == w.awRuns
  {
  }

  lemma OrderKeepsAwRuns(w: World, nn: NN, c: OrderCall)
    requires OrderEnabled(w, nn, c)
    ensures OrderNext(w, nn, c).awRuns == w.awRuns
  {
    if !c.OCleanup? && !c.ODelete? && !c.OCreate? {
      OrderCallsApart(w, nn, c);
    }
  }

  lemma CheckedIncarnation(w: World, nn: NN)
    requires AwInv(w) && nn in w.awRuns && w.awRuns[nn].Check?
    ensures nn in w.aws && w.aws[nn].uid == w.awRuns[nn].base.uid
  {
    assert AwInvariant.RunHolds(w.awRuns[nn], nn, w.awLog, w.awFloor);
    assert AwInvariant.Readable(w.awLog, w.awFloor, w.awRuns[nn].base.version);
  }

  lemma ShownLater(b: Behavior, i: nat, nn: NN, uid: nat, p: Phase)
    requires i < |b.actions| && |b.states| == |b.actions| + 1 && ShownTo(b, i, nn, uid, p)
    ensures ShownTo(b, i + 1, nn, uid, p)
  {
  }

  lemma {:induction false} RecordingWasShown(b: Behavior, i: nat, nn: NN, uid: nat, p: Phase)
    requires Valid(b) && OwnReads(b) && i <= |b.actions| && Recording(b.states[i], nn, uid, p) && !p.Assigned()
    ensures ShownTo(b, i, nn, uid, p)
  {
    if i == 0 {
    } else {
      var w, a := b.states[i - 1], b.actions[i - 1];
      assert StepAt(b, i - 1);
      if Recording(w, nn, uid, p) {
        RecordingWasShown(b, i - 1, nn, uid, p);
      } else {
        RecordingFrom(w, a, nn, uid, p);
        CheckedWasShown(b, i - 1, nn, p);
      }
      ShownLater(b, i - 1, nn, uid, p);
    }
  }

  lemma CheckedWasShown(b: Behavior, i: nat, nn: NN, p: Phase)
    requires Valid(b) && OwnReads(b) && i < |b.actions| && b.actions[i] == AwWorker(nn, ACheck(p))
    requires nn in b.states[i].awRuns && b.states[i].awRuns[nn].Check?
    ensures ShownTo(b, i, nn, b.states[i].awRuns[nn].base.uid, p)
  {
    AwHolds(b, i);
    CheckedIncarnation(b.states[i], nn);
    assert OwnRead(b, i, nn, p);
    var j: nat :| j <= i && Shows(b.states[j], nn, p) && Alive(b, j, i, nn);
    SameLife(b, j, i, nn);
  }

  // If checks return what their own Workflow has shown, no incarnation of an ArtifactWorkflow records a phase, other
  // than Unknown and Pending, that its own Workflow has not shown: nothing is inherited from a deleted namesake.
  lemma {:induction false} NoInheritedPhase(b: Behavior, i: nat, nn: NN)
    requires Valid(b) && OwnReads(b) && i <= |b.actions|
    requires nn in b.states[i].aws
    requires !b.states[i].aws[nn].phase.Unknown? && !b.states[i].aws[nn].phase.Pending?
    ensures ShownTo(b, i, nn, b.states[i].aws[nn].uid, b.states[i].aws[nn].phase)
  {
    if i == 0 {
    } else {
      var w, n := b.states[i - 1], b.states[i];
      PhaseAt(b, i - 1, nn);
      if SamePhase(w, n, nn) {
        NoInheritedPhase(b, i - 1, nn);
      } else {
        RecordingWasShown(b, i - 1, nn, n.aws[nn].uid, n.aws[nn].phase);
      }
      ShownLater(b, i - 1, nn, n.aws[nn].uid, n.aws[nn].phase);
    }
  }

  lemma PhaseAt(b: Behavior, i: nat, nn: NN)
    requires Valid(b) && i < |b.actions|
    requires nn in b.states[i + 1].aws && !b.states[i + 1].aws[nn].phase.Assigned()
    ensures var w, n := b.states[i], b.states[i + 1];
            SamePhase(w, n, nn) || Recording(w, nn, n.aws[nn].uid, n.aws[nn].phase)
  {
    assert StepAt(b, i);
    AwHolds(b, i);
    PhaseFrom(b.states[i], b.actions[i], nn);
  }

  lemma PhaseFrom(w: World, a: Action, nn: NN)
    requires AwInv(w) && Enabled(w, a) && nn in Next(w, a).aws && !Next(w, a).aws[nn].phase.Assigned()
    ensures var n := Next(w, a).aws[nn]; SamePhase(w, Next(w, a), nn) || Recording(w, nn, n.uid, n.phase)
  {
    match a
    case AwWorker(m, c) => AwCallsStore(w, m, c, nn); AwCallUid(w, m, c, nn);
    case _ => OthersKeepPhase(w, a, nn);
  }

  // The controller creates no ArtifactWorkflows.
  lemma AwCallsStore(w: World, nn: NN, c: AwCall, x: NN)
    requires AwInv(w) && AwEnabled(w, nn, c) && x in AwNext(w, nn, c).aws
    ensures x in w.aws
  {
    AwWritesAre(w, nn, c);
    if WrittenAw(w, nn, c).Some? {
      HeldByWriter(w, nn);
      SaveAwAt(w, nn, WrittenAw(w, nn, c).value, x);
    }
  }
}
