/** The dual of no false completion: a Workflow that is done shows up in the status of its Order. */
module Completeness {
  import opened Types
  import opened Cluster
  import opened ApiClient
  import opened OrderEffects
  import opened Resumption
  import opened Convergence
  import AwConvergence
  import AwReconciler

  ghost predicate Wants(s: Snapshot, w: World, nn: NN, sha: Sha) {
    Active(w, nn) && exists job :: Sets(s, w, nn, job) && sha in job.Desired()
  }

  // Reconciling an Order leaves the ArtifactWorkflows alone that it wants and that exist.
  lemma WantedIsKept(s: Snapshot, w: World, n: World, nn: NN, sha: Sha)
    requires Wants(s, w, nn, sha) && AwName(nn, sha) in w.aws && Run(s, w, n, nn)
    ensures Wants(s, n, nn, sha) && SameIn(w.aws, n.aws, AwName(nn, sha))
  {
    if OnMainPath(w, nn) {
      var job, next := MainRun(s, w, n, nn);
      assert next.Desired() == job.Desired() && job.Name(sha) == AwName(nn, sha);
      if sha in job.base.status {
        OutOfReach(job, n.aws, job.Creates(), job.Deletes(), sha);
      } else {
        assert MadeAw(job, n.aws, sha);
      }
    } else {
      FinalizerRun(s, w, n, nn);
      var job :| Sets(s, w, nn, job) && sha in job.Desired();
      assert Sets(s, n, nn, JobOf(n, nn, job.daws));
    }
  }

  // Three successful reconciles of the ArtifactWorkflow and three of the Order bring a completed phase from the
  // Workflow to the Order's status.
  lemma CompletionReachesOrder(s: Snapshot, aw: seq<World>, order: seq<World>, nn: NN, sha: Sha, p: Phase)
    requires |aw| == 4 && |order| == 4 && order[0] == aw[3]
    requires forall i :: 0 <= i < 3 ==> AwReconciler.Completed(s, aw[i], aw[i + 1], AwName(nn, sha))
    requires forall i :: 0 <= i < 3 ==> Run(s, order[i], order[i + 1], nn)
    requires AwConvergence.Live(aw[0], AwName(nn, sha)) && Shows(aw[0], AwName(nn, sha), p)
    requires p.Succeeded? || p.Failed? || p.Error?
    requires Wants(s, order[0], nn, sha)
    ensures var o := order[3].orders; nn in o && sha in o[nn].status && o[nn].status[sha].phase == p
  {
    AwConvergence.CatchesUp(s, aw[0], aw[1], aw[2], aw[3], AwName(nn, sha), p);
    WantedIsKept(s, order[0], order[1], nn, sha);
    WantedIsKept(s, order[1], order[2], nn, sha);
    WantedIsKept(s, order[2], order[3], nn, sha);
    BoundedConvergence(s, order[0], order[1], order[2], order[3], nn);
    SettledShows(s, order[3], nn, sha);
  }

  lemma SettledShows(s: Snapshot, w: World, nn: NN, sha: Sha)
    requires Settled(s, w, nn) && Wants(s, w, nn, sha)
    ensures AwName(nn, sha) in w.aws && sha in w.orders[nn].status
    ensures w.orders[nn].status[sha].phase == w.aws[AwName(nn, sha)].phase
  {
    var job :| Sets(s, w, nn, job) && JobSettled(job);
    assert job.Name(sha) == AwName(nn, sha);
  }
}
