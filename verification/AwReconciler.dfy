/** The ArtifactWorkflow reconciler in the shape of its source, with the exact effect of one reconcile. */
module AwReconciler {
  import opened Types
  import opened Params
  import opened Cluster
  import opened ApiClient
  import A = AwRun

  type Aws = map<NN, A.Aw>
  type Wfs = map<NN, Workflow>

  // ---------------------------------------------------------------------------------------------------
  // Effects
  // ---------------------------------------------------------------------------------------------------

  // The stored ArtifactWorkflows after a successful write of `a`.
  ghost predicate Saved(before: Aws, after: Aws, nn: NN, a: A.Aw) {
    if a.deleting && a.finalizers == {} then after == before - {nn}
    else nn in after && after == before[nn := a.(version := after[nn].version)]
  }

  lemma SaveAwSaves(w: World, nn: NN, a: A.Aw)
    ensures Saved(w.aws, SaveAw(w, nn, a).aws, nn, a)
  {
  }

  predicate HasSecret(s: Snapshot, ns: string, ref: string) {
    ref == "" || NN(ns, ref) in s.secrets
  }

  // Everything the Workflow is built from can be fetched.
  predicate CanGather(s: Snapshot, ns: string, spec: AwSpec) {
    spec.typ in s.types && HasSecret(s, ns, spec.srcSecret) && HasSecret(s, ns, spec.dstSecret)
  }

  function Built(s: Snapshot, spec: AwSpec): WfSpec
    requires spec.typ in s.types
  {
    WorkflowOf(spec, s.types[spec.typ], spec.srcSecret, spec.dstSecret)
  }

  // A Workflow that exists already is left as it is.
  function Launched(wfs: Wfs, nn: NN, wf: WfSpec): Wfs {
    if nn in wfs then wfs else wfs[nn := Workflow(wf, Unknown)]
  }

  ghost predicate Same(w: World, n: World) {
    n.aws == w.aws && n.wfs == w.wfs
  }

  // The effect of a reconcile that returns without error.
  ghost predicate Completed(s: Snapshot, w: World, n: World, nn: NN) {
    if nn !in w.aws then Same(w, n)
    else
      var a := w.aws[nn];
      if a.deleting then
        && n.wfs == w.wfs - {nn}
        && (if A.AW_FINALIZER in a.finalizers
            then Saved(w.aws, n.aws, nn, a.(finalizers := a.finalizers - {A.AW_FINALIZER}))
            else n.aws == w.aws)
      else if A.AW_FINALIZER !in a.finalizers then
        n.wfs == w.wfs && Saved(w.aws, n.aws, nn, a.(finalizers := a.finalizers + {A.AW_FINALIZER}))
      else if a.phase.Unknown? then
        && CanGather(s, nn.ns, a.spec)
        && n.wfs == Launched(w.wfs, nn, Built(s, a.spec))
        && Saved(w.aws, n.aws, nn, a.(phase := Pending))
      else if a.phase.InProgress() then
        nn in w.wfs && n.wfs == w.wfs && Saved(w.aws, n.aws, nn, a.(phase := w.wfs[nn].phase))
      else Same(w, n)
  }

  // The effect of a reconcile that was cut off: at most the call before the last one has happened.
  ghost predicate CutOff(s: Snapshot, w: World, n: World, nn: NN) {
    && n.aws == w.aws
    && (n.wfs == w.wfs
        || (nn in w.aws &&
            var a := w.aws[nn];
            || (a.deleting && n.wfs == w.wfs - {nn})
            || (A.Active(a) && a.phase.Unknown? && CanGather(s, nn.ns, a.spec)
                && n.wfs == Launched(w.wfs, nn, Built(s, a.spec)))))
  }

  // What a reconcile needs in order to succeed.
  ghost predicate Ready(s: Snapshot, w: World, nn: NN) {
    nn in w.aws && A.Active(w.aws[nn]) ==>
      && (w.aws[nn].phase.Unknown? ==> CanGather(s, nn.ns, w.aws[nn].spec))
      && (w.aws[nn].phase.InProgress() ==> nn in w.wfs)
  }

  // What no ArtifactWorkflow reconcile touches.
  ghost predicate Frame(w: World, n: World) {
    n.codec == w.codec && n.orders == w.orders && n.orderRuns == w.orderRuns && n.awWritten == w.awWritten
  }

  // The worker of `nn` is at this point of its reconcile, and its ArtifactWorkflow is stored as it was read.
  ghost predicate At(w: World, nn: NN, r: A.AwRun) {
    nn in w.awRuns && w.awRuns[nn] == r && nn in w.aws && w.aws[nn] == r.base
  }

  // ---------------------------------------------------------------------------------------------------
  // Reconcile
  // ---------------------------------------------------------------------------------------------------

  // What a reconcile has done when it returns: one that succeeds has exactly the effect `Completed`; one that fails has
  // been cut off, or is complete and did not get the response to its last write. If no call fails by itself it succeeds
  // if and only if the ArtifactWorkflow is `Ready`.
  ghost predicate Returns(s: Snapshot, was: World, w: World, nn: NN, ok: bool, reliable: bool) {
    && (Completed(s, was, w, nn) || (!ok && CutOff(s, was, w, nn)))
    && (reliable ==> (ok <==> Ready(s, was, nn)))
  }

  method Reconcile(c: Client, nn: NN) returns (ok: bool)
    requires c.Valid() && nn !in c.w.awRuns
    modifies c
    ensures c.Valid() && nn !in c.w.awRuns && Frame(old(c.w), c.w)
    ensures Returns(c.snapshot, old(c.w), c.w, nn, ok, c.reliable)
  {
    var reply := c.GetAw(nn);
    if !reply.Got? {
      return reply.Missing?;
    }
    var aw := reply.obj;

    if aw.deleting {
      ghost var done;
      ok, done := CleanUp(c, nn, aw);
      return;
    }

    if A.AW_FINALIZER !in aw.finalizers {
      ghost var done;
      ok, done := WriteFinalizers(c, nn, aw, aw.finalizers + {A.AW_FINALIZER});
      return;
    }

    ok := Advance(c, nn, old(c.w), aw);
  }

  // An ArtifactWorkflow with the finalizer: what to do depends on its phase.
  method Advance(c: Client, nn: NN, ghost was: World, aw: A.Aw) returns (ok: bool)
    requires c.Valid() && nn in was.aws && was.aws[nn] == aw && A.Active(aw) && nn !in was.awRuns
    requires c.w == FetchAw(was, nn, aw)
    modifies c
    ensures c.Valid() && nn !in c.w.awRuns && Frame(was, c.w)
    ensures Returns(c.snapshot, was, c.w, nn, ok, c.reliable)
  {
    if aw.phase.Completed() {
      return true;
    }
    if aw.phase.Unknown? {
      ghost var done;
      ok, done := CreateArgoWorkflow(c, nn, aw);
      return;
    }
    if aw.phase.InProgress() {
      ghost var done;
      ok, done := CheckArgoWorkflow(c, nn, aw);
      return;
    }
    return true;
  }

  method WriteFinalizers(c: Client, nn: NN, aw: A.Aw, f: set<string>) returns (ok: bool, ghost done: bool)
    requires c.Valid()
    requires || (At(c.w, nn, A.DropFinalizer(aw)) && f == aw.finalizers - {A.AW_FINALIZER})
             || (At(c.w, nn, A.AddFinalizer(aw)) && f == aw.finalizers + {A.AW_FINALIZER})
    modifies c
    ensures c.Valid() && nn !in c.w.awRuns && Frame(old(c.w), c.w) && c.w.wfs == old(c.w).wfs
    ensures if done then Saved(old(c.w).aws, c.w.aws, nn, aw.(finalizers := f)) else c.w.aws == old(c.w).aws
    ensures (ok ==> done) && (c.reliable ==> ok)
  {
    var answer;
    answer, done := c.UpdateAwFinalizers(nn, f);
    SaveAwSaves(old(c.w), nn, aw.(finalizers := f));
    ok := answer.Done?;
    if !ok {
      c.ReturnAw(nn);
    }
  }

  // Delete the Workflow, then remove the finalizer.
  method CleanUp(c: Client, nn: NN, aw: A.Aw) returns (ok: bool, ghost done: bool)
    requires c.Valid() && At(c.w, nn, A.CleanWorkflow(aw))
    modifies c
    ensures c.Valid() && nn !in c.w.awRuns && Frame(old(c.w), c.w)
    ensures done ==> c.w.wfs == old(c.w).wfs - {nn}
    ensures done ==> if A.AW_FINALIZER in aw.finalizers
                     then Saved(old(c.w).aws, c.w.aws, nn, aw.(finalizers := aw.finalizers - {A.AW_FINALIZER}))
                     else c.w.aws == old(c.w).aws
    ensures !done ==> c.w.aws == old(c.w).aws && (c.w.wfs == old(c.w).wfs || c.w.wfs == old(c.w).wfs - {nn})
    ensures (ok ==> done) && (c.reliable ==> ok)
  {
    var answer, deleted := c.DeleteWorkflow(nn);
    if !answer.Done? && !answer.NotFound? {
      c.ReturnAw(nn);
      return false, false;
    }
    ok, done := true, true;
    if A.AW_FINALIZER in aw.finalizers {
      ok, done := WriteFinalizers(c, nn, aw, aw.finalizers - {A.AW_FINALIZER});
    }
  }

  method SecretNamed(c: Client, ns: string, ref: string) returns (r: Option<Secret>)
    requires c.Valid()
    ensures r.Some? ==> r.value.name == ref && HasSecret(c.snapshot, ns, ref)
    ensures c.reliable ==> (r.Some? <==> HasSecret(c.snapshot, ns, ref))
  {
    if ref == "" {
      return Some(Secret("", 0));
    }
    var reply := c.GetSecret(NN(ns, ref));
    return if reply.Got? then Some(reply.obj) else None;
  }

  method Gather(c: Client, nn: NN, aw: A.Aw) returns (r: Option<WfSpec>)
    requires c.Valid() && At(c.w, nn, A.Gather(aw))
    modifies c
    ensures c.Valid() && Frame(old(c.w), c.w) && Same(old(c.w), c.w)
    ensures r.Some? ==> CanGather(c.snapshot, nn.ns, aw.spec) && r.value == Built(c.snapshot, aw.spec)
    ensures r.Some? ==> At(c.w, nn, A.Launch(aw, r.value))
    ensures c.reliable ==> (r.Some? <==> CanGather(c.snapshot, nn.ns, aw.spec))
  {
    var artifactType := c.GetType(aw.spec.typ);
    if !artifactType.Got? {
      return None;
    }
    var srcSecret := SecretNamed(c, nn.ns, aw.spec.srcSecret);
    if srcSecret.None? {
      return None;
    }
    var dstSecret := SecretNamed(c, nn.ns, aw.spec.dstSecret);
    if dstSecret.None? {
      return None;
    }
    c.NoteGathered(nn, artifactType.obj);
    var wf := HydrateArgoWorkflow(aw.spec, artifactType.obj, srcSecret.value, dstSecret.value);
    return Some(wf);
  }

  method CreateArgoWorkflow(c: Client, nn: NN, aw: A.Aw) returns (ok: bool, ghost done: bool)
    requires c.Valid() && At(c.w, nn, A.Gather(aw))
    modifies c
    ensures c.Valid() && nn !in c.w.awRuns && Frame(old(c.w), c.w)
    ensures done ==>
              && CanGather(c.snapshot, nn.ns, aw.spec)
              && c.w.wfs == Launched(old(c.w).wfs, nn, Built(c.snapshot, aw.spec))
              && Saved(old(c.w).aws, c.w.aws, nn, aw.(phase := Pending))
    ensures !done ==>
              && c.w.aws == old(c.w).aws
              && (c.w.wfs == old(c.w).wfs
                  || (CanGather(c.snapshot, nn.ns, aw.spec)
                      && c.w.wfs == Launched(old(c.w).wfs, nn, Built(c.snapshot, aw.spec))))
    ensures (ok ==> done) && (c.reliable ==> (ok <==> CanGather(c.snapshot, nn.ns, aw.spec)))
  {
    var wf := Gather(c, nn, aw);
    if wf.None? {
      c.ReturnAw(nn);
      return false, false;
    }
    var answer, created := c.CreateWorkflow(nn, wf.value);
    if !answer.Done? && !answer.AlreadyExists? {
      c.ReturnAw(nn);
      return false, false;
    }
    ok, done := WritePhase(c, nn, aw, Pending);
  }

  method CheckArgoWorkflow(c: Client, nn: NN, aw: A.Aw) returns (ok: bool, ghost done: bool)
    requires c.Valid() && At(c.w, nn, A.Check(aw))
    modifies c
    ensures c.Valid() && nn !in c.w.awRuns && Frame(old(c.w), c.w) && c.w.wfs == old(c.w).wfs
    ensures if done then nn in old(c.w).wfs && Saved(old(c.w).aws, c.w.aws, nn, aw.(phase := old(c.w).wfs[nn].phase))
            else c.w.aws == old(c.w).aws
    ensures (ok ==> done) && (c.reliable ==> (ok <==> nn in old(c.w).wfs))
  {
    var reply := c.GetWorkflow(nn);
    if !reply.Got? {
      c.ReturnAw(nn);
      return false, false;
    }
    ok, done := WritePhase(c, nn, aw, reply.obj.phase);
  }

  method WritePhase(c: Client, nn: NN, aw: A.Aw, phase: Phase) returns (ok: bool, ghost done: bool)
    requires c.Valid() && At(c.w, nn, A.SetPhase(aw, phase))
    modifies c
    ensures c.Valid() && nn !in c.w.awRuns && Frame(old(c.w), c.w) && c.w.wfs == old(c.w).wfs
    ensures if done then Saved(old(c.w).aws, c.w.aws, nn, aw.(phase := phase)) else c.w.aws == old(c.w).aws
    ensures (ok ==> done) && (c.reliable ==> ok)
  {
    var answer;
    answer, done := c.UpdateAwStatus(nn, phase);
    SaveAwSaves(old(c.w), nn, aw.(phase := phase));
    ok := answer.Done?;
    if !ok {
      c.ReturnAw(nn);
    }
  }
}
