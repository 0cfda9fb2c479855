/** Where successful reconciles of an ArtifactWorkflow lead while its Workflow stands still. */
module AwConvergence {
  import opened Types
  import opened Cluster
  import opened ApiClient
  import opened AwReconciler
  import Progress
  import A = AwRun

  // Not deleting, and not in a phase in which the controller has stopped.
  ghost predicate Live(w: World, nn: NN) {
    nn in w.aws && !w.aws[nn].deleting &&
    (w.aws[nn].phase.Unknown? || w.aws[nn].phase.Pending? || w.aws[nn].phase.Running?)
  }

  // Once the Workflow is done, at most three successful reconciles record its phase: finalizer, create, check.
  lemma CatchesUp(s: Snapshot, w0: World, w1: World, w2: World, w3: World, nn: NN, p: Phase)
    requires Live(w0, nn) && Shows(w0, nn, p) && (p.Succeeded? || p.Failed? || p.Error?)
    requires Completed(s, w0, w1, nn) && Completed(s, w1, w2, nn) && Completed(s, w2, w3, nn)
    ensures nn in w3.aws && w3.aws[nn].phase == p && w3.wfs == w0.wfs
  {
  }

  // As long as Argo has not reported any phase, the recorded phase goes back and forth between Unknown and Pending,
  // and the Workflow is left alone.
  lemma Oscillates(s: Snapshot, w: World, m: World, n: World, nn: NN)
    requires nn in w.aws && A.Active(w.aws[nn]) && w.aws[nn].phase.Unknown? && Shows(w, nn, Unknown)
    requires Completed(s, w, m, nn) && Completed(s, m, n, nn)
    ensures nn in m.aws && m.aws[nn].phase.Pending? && m.wfs == w.wfs
    ensures nn in n.aws && n.aws[nn] == w.aws[nn].(version := n.aws[nn].version) && n.wfs == w.wfs
  {
  }

  // A reconcile that is cut off after any of its calls, followed by a complete one, is a complete one.
  lemma ResumeOnce(s: Snapshot, w: World, mid: World, n: World, nn: NN)
    requires CutOff(s, w, mid, nn) && Completed(s, mid, n, nn)
    ensures Completed(s, w, n, nn)
  {
    assert w.wfs - {nn} - {nn} == w.wfs - {nn};
  }

  // A complete reconcile takes the recorded phase back if and only if it checks a Workflow that shows less than what is
  // recorded.
  lemma PhaseFallsIff(s: Snapshot, w: World, n: World, nn: NN)
    requires nn in w.aws && nn in n.aws && Completed(s, w, n, nn)
    ensures Progress.Rank(n.aws[nn].phase) < Progress.Rank(w.aws[nn].phase) <==>
            && A.Active(w.aws[nn]) && (w.aws[nn].phase.Pending? || w.aws[nn].phase.Running?)
            && nn in w.wfs && Progress.Rank(w.wfs[nn].phase) < Progress.Rank(w.aws[nn].phase)
  {
  }
}
