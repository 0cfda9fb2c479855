/** Where successful reconciles of an Order lead, how soon, and exactly when they get there. */
module Convergence {
  import opened Types
  import opened Cluster
  import opened ApiClient
  import opened OrderEffects
  import opened Resumption
  import Behaviors
  import OrderReconciler
  import O = OrderRun

  // ---------------------------------------------------------------------------------------------------
  // Settled and viable Orders
  // ---------------------------------------------------------------------------------------------------

  // Nothing is left to do: the status tracks the desired keys, and each has an ArtifactWorkflow in the recorded phase.
  ghost predicate JobSettled(job: Job) {
    && job.base.status.Keys == job.Desired().Keys
    && forall sha: Sha :: sha in job.Desired() ==>
        job.Name(sha) in job.before && job.base.status[sha].phase == job.before[job.Name(sha)].phase
  }

  ghost predicate Active(w: World, nn: NN) {
    nn in w.orders && !w.orders[nn].deleting
  }

  ghost predicate OnMainPath(w: World, nn: NN) {
    Active(w, nn) && O.ORDER_FINALIZER in w.orders[nn].finalizers
  }

  // The job that the stored Order sets, if its references resolve.
  ghost predicate Sets(s: Snapshot, w: World, nn: NN, job: Job) {
    nn in w.orders && ResolveAll(s, nn.ns, w.orders[nn].spec).Some?
    && job == JobOf(w, nn, ResolveAll(s, nn.ns, w.orders[nn].spec).value)
  }

  ghost predicate Settled(s: Snapshot, w: World, nn: NN) {
    OnMainPath(w, nn) && exists job :: Sets(s, w, nn, job) && JobSettled(job)
  }

  // References resolve, artifact specs decode, and every tracked and desired ArtifactWorkflow is stored.
  ghost predicate Viable(s: Snapshot, w: World, nn: NN) {
    Active(w, nn) && exists job :: Sets(s, w, nn, job) && MainReady(job)
  }

  // ---------------------------------------------------------------------------------------------------
  // One main-path run
  // ---------------------------------------------------------------------------------------------------

  // The job of the next run, after `n`.
  ghost predicate Follows(job: Job, n: World, next: Job) {
    && job.nn in n.orders
    && next == Job(job.codec, job.nn, n.orders[job.nn], job.daws, job.shas, n.aws)
  }

  lemma SettledIsClean(job: Job)
    requires JobSettled(job)
    ensures job.Creates() == {} && job.Deletes() == {} && !Dirty(job, job.Keeps()) && MainReady(job)
  {
  }

  lemma NothingMade(job: Job, after: Aws)
    requires AwsAre(job, after, {}, {})
    ensures after == job.before
  {
    forall x
      ensures x in after <==> x in job.before
      ensures x in after ==> after[x] == job.before[x]
    {
      assert SameIn(job.before, after, x);
    }
  }

  lemma DesiredExists(job: Job, after: Aws, sha: Sha)
    requires AllKept(job) && AwsAre(job, after, job.Creates(), job.Deletes()) && sha in job.Desired()
    ensures job.Name(sha) in after
    ensures sha in job.base.status ==> after[job.Name(sha)] == job.before[job.Name(sha)]
  {
    if sha in job.base.status {
      OutOfReach(job, after, job.Creates(), job.Deletes(), sha);
    } else {
      assert MadeAw(job, after, sha);
    }
  }

  // After one complete run the status tracks what is desired and every desired ArtifactWorkflow exists.
  lemma FirstRun(job: Job, before: Orders, n: World, next: Job)
    requires job.nn in before && before[job.nn] == job.base && !job.base.deleting
    requires MainDone(job, before, n) && Follows(job, n, next)
    ensures next.base.spec == job.base.spec && next.base.finalizers == job.base.finalizers && !next.base.deleting
    ensures next.Creates() == {} && next.Deletes() == {} && MainReady(next)
  {
    forall sha: Sha | sha in job.Desired()
      ensures job.Name(sha) in n.aws
    {
      DesiredExists(job, n.aws, sha);
    }
  }

  // A second one catches up with the phases of ArtifactWorkflows that existed already.
  lemma SecondRun(job: Job, before: Orders, n: World, next: Job)
    requires job.nn in before && before[job.nn] == job.base && !job.base.deleting
    requires MainDone(job, before, n) && Follows(job, n, next) && job.Creates() == {} && job.Deletes() == {}
    ensures n.aws == job.before && JobSettled(next)
  {
    NothingMade(job, n.aws);
    assert job.base.status.Keys == job.Desired().Keys;
    forall sha: Sha | sha in job.Desired()
      ensures next.base.status.Keys == job.Desired().Keys
      ensures next.base.status[sha].phase == job.before[job.Name(sha)].phase
    {
      assert sha in job.Keeps() && job.Name(sha) in job.before;
      assert !Dirty(job, job.Keeps()) ==> !Differs(job, sha);
    }
  }

  lemma SettledRun(job: Job, before: Orders, n: World)
    requires MainDone(job, before, n) && JobSettled(job)
    ensures n.orders == before && n.aws == job.before
  {
    SettledIsClean(job);
    NothingMade(job, n.aws);
  }

  // ---------------------------------------------------------------------------------------------------
  // Runs of the reconciler
  // ---------------------------------------------------------------------------------------------------

  ghost predicate Run(s: Snapshot, w: World, n: World, nn: NN) {
    n.codec == w.codec && Completed(s, w, n, nn)
  }

  lemma MainRun(s: Snapshot, w: World, n: World, nn: NN) returns (job: Job, next: Job)
    requires OnMainPath(w, nn) && Run(s, w, n, nn)
    ensures Sets(s, w, nn, job) && MainDone(job, w.orders, n) && job.nn == nn && job.base == w.orders[nn]
    ensures OnMainPath(n, nn) && Sets(s, n, nn, next) && Follows(job, n, next)
  {
    var daws := ResolveAll(s, nn.ns, w.orders[nn].spec).value;
    job := JobOf(w, nn, daws);
    assert nn in n.orders && n.orders[nn].spec == w.orders[nn].spec;
    next := JobOf(n, nn, daws);
  }

  // A settled Order stays as it is: further reconciles write nothing.
  lemma SettledIsStable(s: Snapshot, w: World, n: World, nn: NN)
    requires Settled(s, w, nn) && Run(s, w, n, nn)
    ensures n.orders == w.orders && n.aws == w.aws && Settled(s, n, nn)
  {
    var job, next := MainRun(s, w, n, nn);
    SettledRun(job, w.orders, n);
    assert next == job;
  }

  lemma FinalizerRun(s: Snapshot, w: World, n: World, nn: NN)
    requires Active(w, nn) && O.ORDER_FINALIZER !in w.orders[nn].finalizers && Run(s, w, n, nn)
    ensures OnMainPath(n, nn) && n.aws == w.aws
    ensures n.orders[nn].spec == w.orders[nn].spec && n.orders[nn].status == w.orders[nn].status
  {
  }

  lemma TwoMainRuns(s: Snapshot, w: World, m: World, n: World, nn: NN)
    requires OnMainPath(w, nn) && Run(s, w, m, nn) && Run(s, m, n, nn)
    ensures Settled(s, n, nn)
  {
    var job, next := MainRun(s, w, m, nn);
    FirstRun(job, w.orders, m, next);
    var job', next' := MainRun(s, m, n, nn);
    SecondRun(next, m.orders, n, next');
  }

  // At most three successful reconciles settle an Order: the finalizer, Creates and Deletes, phase catch-up.
  lemma BoundedConvergence(s: Snapshot, w0: World, w1: World, w2: World, w3: World, nn: NN)
    requires Active(w0, nn) && Run(s, w0, w1, nn) && Run(s, w1, w2, nn) && Run(s, w2, w3, nn)
    ensures Settled(s, w3, nn)
    ensures OnMainPath(w0, nn) ==> Settled(s, w2, nn)
  {
    if OnMainPath(w0, nn) {
      TwoMainRuns(s, w0, w1, w2, nn);
      SettledIsStable(s, w2, w3, nn);
    } else {
      FinalizerRun(s, w0, w1, nn);
      TwoMainRuns(s, w1, w2, w3, nn);
    }
  }

  // ---------------------------------------------------------------------------------------------------
  // When reconciles succeed
  // ---------------------------------------------------------------------------------------------------

  lemma ViableIsReady(s: Snapshot, w: World, nn: NN)
    requires Active(w, nn)
    ensures Viable(s, w, nn) ==> Ready(s, w, nn)
    ensures OnMainPath(w, nn) && Ready(s, w, nn) ==> Viable(s, w, nn)
  {
  }

  lemma StaysViable(s: Snapshot, w: World, n: World, nn: NN)
    requires Viable(s, w, nn) && Run(s, w, n, nn)
    ensures Viable(s, n, nn)
  {
    if OnMainPath(w, nn) {
      var job, next := MainRun(s, w, n, nn);
      FirstRun(job, w.orders, n, next);
    } else {
      FinalizerRun(s, w, n, nn);
      var daws := ResolveAll(s, nn.ns, w.orders[nn].spec).value;
      SameReady(JobOf(w, nn, daws), JobOf(n, nn, daws));
      assert Sets(s, n, nn, JobOf(n, nn, daws));
    }
  }

  lemma SameReady(job: Job, other: Job)
    requires MainReady(job) && other.codec == job.codec && other.nn == job.nn && other.base.status == job.base.status
    requires other.daws == job.daws && other.shas == job.shas && other.before == job.before
    ensures MainReady(other)
  {
    assert other.Creates() == job.Creates() && other.Keeps() == job.Keeps();
    forall sha: Sha | sha in job.Creates()
      ensures SpecGood(other, sha)
    {
      assert SpecGood(job, sha);
    }
    forall sha: Sha | sha in job.Keeps()
      ensures other.Name(sha) in other.before
    {
      assert job.Name(sha) in job.before;
    }
  }

  // Without viability no reconcile of the main path completes, and what it has done when it is cut off does not make
  // the Order viable.
  lemma NotViableStays(s: Snapshot, w: World, n: World, nn: NN)
    requires OnMainPath(w, nn) && !Viable(s, w, nn)
    ensures !Run(s, w, n, nn)
    ensures n.codec == w.codec && CutOff(s, w, n, nn) ==> OnMainPath(n, nn) && !Viable(s, n, nn)
  {
    if Run(s, w, n, nn) {
      var job, next := MainRun(s, w, n, nn);
    }
    if n.codec == w.codec && CutOff(s, w, n, nn) && Viable(s, n, nn) {
      var daws := ResolveAll(s, nn.ns, w.orders[nn].spec).value;
      var job := JobOf(w, nn, daws);
      JobLater(w, n, nn, daws);
      CutIsKeptAlike(job, w.orders, n);
      assert Sets(s, w, nn, job);
      StatusDependsOnKept(job, n.aws);
    }
  }

  // A tracked and desired ArtifactWorkflow that has disappeared is one such reason.
  lemma MissingIsNotViable(s: Snapshot, w: World, nn: NN, job: Job, sha: Sha)
    requires Sets(s, w, nn, job) && sha in job.Keeps() && AwName(nn, sha) !in w.aws
    ensures !Viable(s, w, nn)
  {
  }

  // It is never recreated: no reconcile completes, and none of those that are cut off stores it.
  lemma {:induction false} MissingStaysMissing(s: Snapshot, ws: seq<World>, nn: NN, job: Job, sha: Sha)
    requires Runs(s, ws, nn) && OnMainPath(ws[0], nn)
    requires Sets(s, ws[0], nn, job) && sha in job.Keeps() && AwName(nn, sha) !in ws[0].aws
    ensures var last := ws[|ws| - 1]; AwName(nn, sha) !in last.aws && forall n :: !Run(s, last, n, nn)
    decreases |ws|
  {
    MissingIsNotViable(s, ws[0], nn, job, sha);
    if |ws| == 1 {
      forall n
        ensures !Run(s, ws[0], n, nn)
      {
        NotViableStays(s, ws[0], n, nn);
      }
    } else {
      FirstOfRuns(s, ws, nn);
      NotViableStays(s, ws[0], ws[1], nn);
      CutKeepsMissing(s, ws[0], ws[1], nn, job, sha);
      MissingStaysMissing(s, ws[1..], nn, Later(job, ws[1].aws), sha);
    }
  }

  lemma CutKeepsMissing(s: Snapshot, w: World, n: World, nn: NN, job: Job, sha: Sha)
    requires OnMainPath(w, nn) && n.codec == w.codec && CutOff(s, w, n, nn)
    requires Sets(s, w, nn, job) && sha in job.Keeps() && AwName(nn, sha) !in w.aws
    ensures OnMainPath(n, nn) && Sets(s, n, nn, Later(job, n.aws)) && AwName(nn, sha) !in n.aws
  {
    JobLater(w, n, nn, job.daws);
    CutIsKeptAlike(job, w.orders, n);
    assert job.Name(sha) == AwName(nn, sha);
  }

  lemma SettledIsViable(s: Snapshot, w: World, nn: NN)
    requires Settled(s, w, nn)
    ensures Viable(s, w, nn)
  {
  }

  lemma NotViableRun(s: Snapshot, w: World, n: World, nn: NN)
    requires Active(w, nn) && !Viable(s, w, nn) && n.codec == w.codec
    requires Completed(s, w, n, nn) || CutOff(s, w, n, nn)
    ensures Active(n, nn) && !Viable(s, n, nn)
  {
    if OnMainPath(w, nn) {
      NotViableStays(s, w, n, nn);
    } else {
      FinalizerOutcome(s, w, n, nn);
      if Viable(s, n, nn) {
        var job :| Sets(s, n, nn, job) && MainReady(job);
        var before := JobOf(w, nn, job.daws);
        assert Sets(s, w, nn, before);
        SameReady(job, before);
      }
    }
  }

  // A reconcile that has to add the finalizer touches nothing else.
  lemma FinalizerOutcome(s: Snapshot, w: World, n: World, nn: NN)
    requires Active(w, nn) && O.ORDER_FINALIZER !in w.orders[nn].finalizers && n.codec == w.codec
    requires Completed(s, w, n, nn) || CutOff(s, w, n, nn)
    ensures Active(n, nn) && n.aws == w.aws
    ensures n.orders[nn].spec == w.orders[nn].spec && n.orders[nn].status == w.orders[nn].status
  {
  }

  // No number of reconciles, complete or cut off, settles an Order that is not viable.
  lemma {:induction false} NeverSettles(s: Snapshot, ws: seq<World>, nn: NN)
    requires Runs(s, ws, nn) && Active(ws[0], nn) && !Viable(s, ws[0], nn)
    ensures var last := ws[|ws| - 1]; Active(last, nn) && !Viable(s, last, nn) && !Settled(s, last, nn)
    decreases |ws|
  {
    if |ws| == 1 {
      if Settled(s, ws[0], nn) {
        SettledIsViable(s, ws[0], nn);
      }
    } else {
      FirstOfRuns(s, ws, nn);
      NotViableRun(s, ws[0], ws[1], nn);
      NeverSettles(s, ws[1..], nn);
    }
  }

  // The reconciler itself: with a reliable API server, three reconciles settle every viable Order.
  method SettleInThree(c: Client, nn: NN)
    requires c.Valid() && c.reliable && nn !in c.w.orderRuns && Viable(c.snapshot, c.w, nn)
    modifies c
    ensures c.Valid() && Settled(c.snapshot, c.w, nn)
  {
    ghost var w0 := c.w;
    SettleStep(c, nn);
    ghost var w1 := c.w;
    SettleStep(c, nn);
    ghost var w2 := c.w;
    SettleStep(c, nn);
    BoundedConvergence(c.snapshot, w0, w1, w2, c.w, nn);
  }

  method SettleStep(c: Client, nn: NN)
    requires c.Valid() && c.reliable && nn !in c.w.orderRuns && Viable(c.snapshot, c.w, nn)
    modifies c
    ensures c.Valid() && nn !in c.w.orderRuns && Viable(c.snapshot, c.w, nn) && Run(c.snapshot, old(c.w), c.w, nn)
  {
    ViableIsReady(c.snapshot, c.w, nn);
    var r := OrderReconciler.Reconcile(c, nn);
    StaysViable(c.snapshot, old(c.w), c.w, nn);
  }

  // ---------------------------------------------------------------------------------------------------
  // Deletion
  // ---------------------------------------------------------------------------------------------------

  // The Order is gone, or only the finalizers of others hold it.
  ghost predicate Released(w: World, nn: NN) {
    nn in w.orders ==> w.orders[nn].deleting && w.orders[nn].status == map[]
                       && O.ORDER_FINALIZER !in w.orders[nn].finalizers
  }

  // An ArtifactWorkflow of a deleted Order is gone if and only if it was gone before, or its Delete got through and
  // nothing held it: not a finalizer, not an earlier deletion mark.
  ghost predicate GoneIff(before: Aws, after: Aws, nn: NN, delivered: set<Sha>, sha: Sha) {
    var x := AwName(nn, sha);
    x !in after <==> x !in before || (sha in delivered && !before[x].deleting && before[x].finalizers == {})
  }

  // A deleting Order is released by at most two successful reconciles. Deletes reach no ArtifactWorkflow but tracked
  // ones, and those that got through decide, together with the finalizers, which of them are left.
  lemma BoundedDeletion(s: Snapshot, w: World, m: World, n: World, nn: NN) returns (delivered: set<Sha>)
    requires nn in w.orders && w.orders[nn].deleting && Run(s, w, m, nn) && Run(s, m, n, nn)
    ensures Released(n, nn) && (w.orders[nn].finalizers == {O.ORDER_FINALIZER} ==> nn !in n.orders)
    ensures delivered <= w.orders[nn].status.Keys && Deleted(w.aws, n.aws, nn, delivered)
    ensures forall sha: Sha :: GoneIff(w.aws, n.aws, nn, delivered, sha)
  {
    if w.orders[nn].status == map[] {
      FinalizerDropRun(s, w, m, nn);
      ReleasedStays(s, m, n, nn);
      delivered := {};
    } else {
      CleanupRun(s, w, m, nn);
      if nn in m.orders {
        FinalizerDropRun(s, m, n, nn);
      }
      delivered :| delivered <= w.orders[nn].status.Keys && Deleted(w.aws, m.aws, nn, delivered);
    }
    forall sha: Sha
      ensures GoneIff(w.aws, n.aws, nn, delivered, sha)
    {
      AbsentIff(w.aws, n.aws, nn, delivered, sha);
    }
  }

  // The reconciler itself: with a reliable API server two reconciles release the Order, and of its ArtifactWorkflows
  // exactly those are left that hold a finalizer.
  method ReleaseInTwo(c: Client, nn: NN)
    requires c.Valid() && c.reliable && nn !in c.w.orderRuns && nn in c.w.orders && c.w.orders[nn].deleting
    modifies c
    ensures c.Valid() && nn !in c.w.orderRuns && Released(c.w, nn)
    ensures old(c.w).orders[nn].finalizers == {O.ORDER_FINALIZER} ==> nn !in c.w.orders
    ensures forall sha: Sha :: sha in old(c.w).orders[nn].status ==>
              var x := AwName(nn, sha);
              x in c.w.aws <==> x in old(c.w).aws && old(c.w).aws[x].finalizers != {}
  {
    ghost var w := c.w;
    var r := OrderReconciler.Reconcile(c, nn);
    ghost var m := c.w;
    r := OrderReconciler.Reconcile(c, nn);
    ReleasedOf(c.snapshot, w, m, c.w, nn);
  }

  lemma ReleasedOf(s: Snapshot, w: World, m: World, n: World, nn: NN)
    requires Behaviors.Reachable(w) && nn in w.orders && w.orders[nn].deleting
    requires m.codec == w.codec && Completed(s, w, m, nn) && Deleted(w.aws, m.aws, nn, w.orders[nn].status.Keys)
    requires n.codec == m.codec && Completed(s, m, n, nn)
    ensures Released(n, nn) && (w.orders[nn].finalizers == {O.ORDER_FINALIZER} ==> nn !in n.orders)
    ensures forall sha: Sha :: sha in w.orders[nn].status ==>
              var x := AwName(nn, sha);
              x in n.aws <==> x in w.aws && w.aws[x].finalizers != {}
  {
    var delivered := BoundedDeletion(s, w, m, n, nn);
    Behaviors.ReachableDeleting(w);
    SecondLeavesAws(s, w, m, n, nn);
    forall sha: Sha | sha in w.orders[nn].status
      ensures GoneIff(w.aws, n.aws, nn, w.orders[nn].status.Keys, sha)
    {
      AbsentIff(w.aws, n.aws, nn, w.orders[nn].status.Keys, sha);
    }
  }

  lemma SecondLeavesAws(s: Snapshot, w: World, m: World, n: World, nn: NN)
    requires nn in w.orders && w.orders[nn].deleting && Run(s, w, m, nn) && Run(s, m, n, nn)
    ensures n.aws == m.aws
  {
    if w.orders[nn].status == map[] {
      FinalizerDropRun(s, w, m, nn);
      ReleasedStays(s, m, n, nn);
    } else {
      CleanupRun(s, w, m, nn);
      if nn in m.orders {
        FinalizerDropRun(s, m, n, nn);
      }
    }
  }

  lemma CleanupRun(s: Snapshot, w: World, n: World, nn: NN)
    requires nn in w.orders && w.orders[nn].deleting && w.orders[nn].status != map[] && Run(s, w, n, nn)
    ensures nn in n.orders ==>
              && n.orders[nn].deleting && n.orders[nn].status == map[]
              && n.orders[nn].finalizers == w.orders[nn].finalizers
    ensures Cleaned(w.aws, n.aws, nn, w.orders[nn].status.Keys)
  {
  }

  lemma FinalizerDropRun(s: Snapshot, w: World, n: World, nn: NN)
    requires nn in w.orders && w.orders[nn].deleting && w.orders[nn].status == map[] && Run(s, w, n, nn)
    ensures Released(n, nn) && n.aws == w.aws
    ensures w.orders[nn].finalizers == {O.ORDER_FINALIZER} ==> nn !in n.orders
  {
  }

  lemma ReleasedStays(s: Snapshot, w: World, n: World, nn: NN)
    requires Released(w, nn) && Run(s, w, n, nn)
    ensures Released(n, nn) && n.aws == w.aws && (nn !in w.orders ==> nn !in n.orders)
  {
  }
}
