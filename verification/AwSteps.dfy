/** Every action of the cluster keeps the invariant of the ArtifactWorkflow side. */
module AwSteps {
  import opened Types
  import opened Cluster
  import opened AwInvariant
  import opened Frames
  import O = OrderRun
  import A = AwRun

  type Reports = set<(NN, Phase)>

  // A stored phase is one the controllers assign, or one that Argo has reported for the Workflow of that name.
  ghost predicate PhasesLogged(log: Log, reported: Reports) {
    forall v :: v in log && !log[v].aw.phase.Assigned() ==> (log[v].nn, log[v].aw.phase) in reported
  }

  ghost predicate PhasesHeld(runs: map<NN, A.AwRun>, reported: Reports) {
    forall nn :: nn in runs && runs[nn].SetPhase? && !runs[nn].phase.Assigned() ==> (nn, runs[nn].phase) in reported
  }

  ghost predicate WorkflowsReported(wfs: Wfs, reported: Reports) {
    forall nn :: nn in wfs ==> wfs[nn].phase.Unknown? || (nn, wfs[nn].phase) in reported
  }

  // The stored spec is the one last written by its owner.
  ghost predicate SpecsKept(aws: Aws, written: map<NN, AwSpec>) {
    forall nn :: nn in aws ==> nn in written && aws[nn].spec == written[nn]
  }

  ghost predicate AwInv(w: World) {
    && History(w.aws, w.awLog, w.clock)
    && Guard(w.aws, w.wfs, w.awLog, w.awFloor, w.launched)
    && RunsHold(w.awRuns, w.awLog, w.awFloor)
    && CleanedUp(w.awRuns, w.wfs)
    && PhasesLogged(w.awLog, w.reported)
    && PhasesHeld(w.awRuns, w.reported)
    && WorkflowsReported(w.wfs, w.reported)
    && SpecsKept(w.aws, w.awWritten)
  }

  lemma SameAwSideInv(w: World, n: World)
    requires AwInv(w) && SameAwSide(w, n)
    ensures AwInv(n)
  {
  }

  // ---------------------------------------------------------------------------------------------------
  // Writes
  // ---------------------------------------------------------------------------------------------------

  lemma PutKeepsRuns(w: World, nn: NN, n: A.Aw)
    requires AwInv(w)
    ensures RunsHold(w.awRuns, w.awLog[w.clock := AwVersion(nn, n)], w.awFloor)
  {
  }

  lemma PutKeepsPhases(w: World, nn: NN, n: A.Aw)
    requires AwInv(w) && (n.phase.Assigned() || (nn, n.phase) in w.reported)
    ensures PhasesLogged(w.awLog[w.clock := AwVersion(nn, n)], w.reported)
  {
  }

  lemma PutKeepsSpecs(aws: Aws, written: map<NN, AwSpec>, nn: NN, n: A.Aw)
    requires SpecsKept(aws, written)
    ensures SpecsKept(aws[nn := n], written[nn := n.spec])
    ensures nn in written && n.spec == written[nn] ==> SpecsKept(aws[nn := n], written)
    ensures SpecsKept(aws - {nn}, written[nn := n.spec])
  {
  }

  // What a write to a stored ArtifactWorkflow may do.
  ghost predicate MayReplace(w: World, nn: NN, a: A.Aw) {
    && nn in w.aws
    && Successor(w.aws[nn], a)
    && (A.AW_FINALIZER in w.aws[nn].finalizers ==> A.AW_FINALIZER in a.finalizers)
    && (a.phase.Assigned() || (nn, a.phase) in w.reported)
  }

  lemma PutInv(w: World, nn: NN, n: A.Aw)
    requires AwInv(w) && MayReplace(w, nn, n) && n.version == w.clock
    ensures AwInv(PutAw(w, nn, n).(awWritten := w.awWritten[nn := n.spec]))
  {
    forall u | u in w.awLog && w.awLog[u].nn == nn
      ensures Follows(w.awLog[u].aw, n)
    {
      SuccessorFollows(w.aws, w.awLog, w.clock, nn, n, u);
    }
    PutHistory(w.aws, w.awLog, w.clock, nn, n);
    PutGuard(w.aws, w.wfs, w.awLog, w.clock, w.awFloor, w.launched, nn, n);
    PutKeepsRuns(w, nn, n);
    PutKeepsPhases(w, nn, n);
    PutKeepsSpecs(w.aws, w.awWritten, nn, n);
  }

  lemma DropInv(w: World, nn: NN, spec: AwSpec)
    requires AwInv(w) && nn in w.aws && Quiet(nn, w.wfs, w.awLog, w.awFloor, w.launched)
    ensures AwInv(DropAw(w, nn).(awWritten := w.awWritten[nn := spec]))
  {
    DropHistory(w.aws, w.awLog, w.clock, nn);
    DropGuard(w.aws, w.wfs, w.awLog, w.clock, w.awFloor, w.launched, nn);
    PutKeepsSpecs(w.aws, w.awWritten, nn, w.aws[nn].(spec := spec));
  }

  // A write by anyone who leaves the finalizer alone or adds it.
  lemma SaveInv(w: World, nn: NN, a: A.Aw)
    requires AwInv(w) && MayReplace(w, nn, a)
    ensures AwInv(SaveAw(w, nn, a).(awWritten := w.awWritten[nn := a.spec]))
  {
    if a.deleting && a.finalizers == {} {
      UnfinalizedQuiet(w.aws, w.wfs, w.awLog, w.awFloor, w.launched, nn);
      DropInv(w, nn, a.spec);
    } else {
      PutInv(w, nn, a.(version := w.clock));
    }
  }

  // Recording the spec that is already recorded changes nothing.
  lemma SameSpecWorld(w: World, n: World, nn: NN, spec: AwSpec)
    requires nn in w.awWritten && w.awWritten[nn] == spec && n.awWritten == w.awWritten
    ensures n.(awWritten := w.awWritten[nn := spec]) == n
  {
  }

  lemma SaveSameSpecInv(w: World, nn: NN, a: A.Aw)
    requires AwInv(w) && MayReplace(w, nn, a) && a.spec == w.aws[nn].spec
    ensures AwInv(SaveAw(w, nn, a))
  {
    SaveInv(w, nn, a);
    SameSpecWorld(w, SaveAw(w, nn, a), nn, a.spec);
  }

  lemma DeleteInv(w: World, nn: NN)
    requires AwInv(w)
    ensures AwInv(DeleteAw(w, nn))
  {
    if nn in w.aws && !w.aws[nn].deleting {
      SaveSameSpecInv(w, nn, w.aws[nn].(deleting := true));
    }
  }

  lemma CreateInv(w: World, nn: NN, spec: AwSpec, f: set<string>)
    requires AwInv(w) && nn !in w.aws
    ensures AwInv(CreateAw(w, nn, spec, f))
  {
    var n := A.Aw(w.clock, w.clock, f, false, spec, Unknown);
    PutHistory(w.aws, w.awLog, w.clock, nn, n);
    CreateGuard(w.aws, w.wfs, w.awLog, w.clock, w.awFloor, w.launched, nn, n);
    PutKeepsRuns(w, nn, n);
    PutKeepsPhases(w, nn, n);
    PutKeepsSpecs(w.aws, w.awWritten, nn, n);
  }

  // ---------------------------------------------------------------------------------------------------
  // Controller steps
  // ---------------------------------------------------------------------------------------------------

  lemma EndInv(w: World, nn: NN)
    requires AwInv(w)
    ensures AwInv(EndAwRun(w, nn))
  {
  }

  lemma SetRunInv(w: World, nn: NN, r: A.AwRun)
    requires AwInv(w) && RunHolds(r, nn, w.awLog, w.awFloor)
    requires r.DropFinalizer? ==> nn !in w.wfs
    requires r.SetPhase? && !r.phase.Assigned() ==> (nn, r.phase) in w.reported
    ensures AwInv(SetAwRun(w, nn, r))
  {
  }

  // A conditional write succeeds only on the object that was read.
  lemma CurrentIsBase(w: World, nn: NN)
    requires AwInv(w) && nn in w.awRuns && AwCurrent(w, nn, w.awRuns[nn].base)
    ensures w.aws[nn] == w.awRuns[nn].base
  {
  }

  lemma FetchInv(w: World, nn: NN, v: nat)
    requires AwInv(w) && AwEnabled(w, nn, AFetch(v))
    ensures AwInv(FetchAw(w, nn, w.awLog[v].aw))
  {
    var a := w.awLog[v].aw;
    var seen := w.(awFloor := w.awFloor[nn := v]);
    SeenInv(w, nn, v);
    if A.Begin(a).Some? {
      A.BeginWellFormed(a);
      assert RunHolds(A.Begin(a).value, nn, seen.awLog, seen.awFloor);
      SetRunInv(seen, nn, A.Begin(a).value);
    }
  }

  lemma SeenInv(w: World, nn: NN, v: nat)
    requires AwInv(w) && AwEnabled(w, nn, AFetch(v))
    ensures AwInv(w.(awFloor := w.awFloor[nn := v]))
  {
    var floor := w.awFloor[nn := v];
    FetchGuard(w.aws, w.wfs, w.awLog, w.awFloor, w.launched, nn, v);
    forall m | m in w.awRuns
      ensures RunHolds(w.awRuns[m], m, w.awLog, floor)
    {
      assert RunHolds(w.awRuns[m], m, w.awLog, w.awFloor);
    }
  }

  lemma CleanWorkflowInv(w: World, nn: NN)
    requires AwInv(w) && nn in w.awRuns && w.awRuns[nn].CleanWorkflow?
    ensures AwInv(CleanWorkflow(w, nn))
  {
    var base := w.awRuns[nn].base;
    assert RunHolds(w.awRuns[nn], nn, w.awLog, w.awFloor);
    CleanGuard(w.aws, w.wfs, w.awLog, w.clock, w.awFloor, w.launched, nn, base);
    var cleaned := w.(wfs := w.wfs - {nn});
    assert AwInv(cleaned);
    if A.AW_FINALIZER in base.finalizers {
      SetRunInv(cleaned, nn, A.DropFinalizer(base));
    } else {
      EndInv(cleaned, nn);
    }
  }

  lemma DropFinalizerInv(w: World, nn: NN)
    requires AwInv(w) && nn in w.awRuns && w.awRuns[nn].DropFinalizer? && AwCurrent(w, nn, w.awRuns[nn].base)
    ensures AwInv(WriteAwFinalizers(w, nn, w.awRuns[nn].base.finalizers - {A.AW_FINALIZER}))
  {
    CurrentIsBase(w, nn);
    var s := w.aws[nn];
    assert RunHolds(w.awRuns[nn], nn, w.awLog, w.awFloor);
    CleanedQuiet(w.aws, w.wfs, w.awLog, w.clock, w.awFloor, w.launched, nn);
    var a := s.(finalizers := s.finalizers - {A.AW_FINALIZER});
    SaveQuietInv(w, nn, a);
    EndInv(SaveAw(w, nn, a), nn);
  }

  lemma SaveQuietInv(w: World, nn: NN, a: A.Aw)
    requires AwInv(w) && nn in w.aws && Successor(w.aws[nn], a) && a.deleting
    requires Quiet(nn, w.wfs, w.awLog, w.awFloor, w.launched)
    requires a.phase == w.aws[nn].phase && a.spec == w.aws[nn].spec
    ensures AwInv(SaveAw(w, nn, a))
  {
    if a.finalizers == {} {
      DropInv(w, nn, a.spec);
      SameSpecWorld(w, DropAw(w, nn), nn, a.spec);
    } else {
      PutQuietInv(w, nn, a.(version := w.clock));
    }
  }

  lemma PutQuietInv(w: World, nn: NN, n: A.Aw)
    requires AwInv(w) && nn in w.aws && Successor(w.aws[nn], n) && n.version == w.clock && n.deleting
    requires Quiet(nn, w.wfs, w.awLog, w.awFloor, w.launched)
    requires n.phase == w.aws[nn].phase && n.spec == w.aws[nn].spec
    ensures AwInv(PutAw(w, nn, n))
  {
    forall u | u in w.awLog && w.awLog[u].nn == nn
      ensures Follows(w.awLog[u].aw, n)
    {
      SuccessorFollows(w.aws, w.awLog, w.clock, nn, n, u);
    }
    PutHistory(w.aws, w.awLog, w.clock, nn, n);
    PutQuietGuard(w.aws, w.wfs, w.awLog, w.clock, w.awFloor, w.launched, nn, n);
    PutKeepsRuns(w, nn, n);
    StoredPhase(w, nn);
    PutKeepsPhases(w, nn, n);
    PutKeepsSpecs(w.aws, w.awWritten, nn, n);
  }

  lemma StoredPhase(w: World, nn: NN)
    requires AwInv(w) && nn in w.aws
    ensures w.aws[nn].phase.Assigned() || (nn, w.aws[nn].phase) in w.reported
  {
  }

  lemma AddFinalizerInv(w: World, nn: NN)
    requires AwInv(w) && nn in w.awRuns && w.awRuns[nn].AddFinalizer? && AwCurrent(w, nn, w.awRuns[nn].base)
    ensures AwInv(WriteAwFinalizers(w, nn, w.awRuns[nn].base.finalizers + {A.AW_FINALIZER}))
  {
    CurrentIsBase(w, nn);
    var s := w.aws[nn];
    StoredPhase(w, nn);
    var a := s.(finalizers := s.finalizers + {A.AW_FINALIZER});
    SaveSameSpecInv(w, nn, a);
    EndInv(SaveAw(w, nn, a), nn);
  }

  lemma LaunchInv(w: World, nn: NN)
    requires AwInv(w) && nn in w.awRuns && w.awRuns[nn].Launch?
    ensures AwInv(Launch(w, nn))
    ensures nn !in w.wfs ==> (nn, w.awRuns[nn].base.uid) !in w.launched
  {
    var r := w.awRuns[nn];
    assert RunHolds(r, nn, w.awLog, w.awFloor);
    if nn in w.wfs {
      SetRunInv(w, nn, A.SetPhase(r.base, Pending));
    } else {
      NewWorkflowInv(w, nn);
    }
  }

  lemma NewWorkflowInv(w: World, nn: NN)
    requires AwInv(w) && nn in w.awRuns && w.awRuns[nn].Launch? && nn !in w.wfs
    ensures AwInv(Launch(w, nn))
    ensures (nn, w.awRuns[nn].base.uid) !in w.launched
  {
    var r := w.awRuns[nn];
    LaunchedInv(w, nn, r.base, Workflow(r.wf, Unknown));
    var n := w.(wfs := w.wfs[nn := Workflow(r.wf, Unknown)], launched := w.launched + {(nn, r.base.uid)},
                wfSeen := w.wfSeen[nn := Unknown]);
    assert RunHolds(n.awRuns[nn], nn, n.awLog, n.awFloor);
    SetRunInv(n, nn, A.SetPhase(r.base, Pending));
    assert SetAwRun(n, nn, A.SetPhase(r.base, Pending)) == Launch(w, nn);
  }

  lemma LaunchedInv(w: World, nn: NN, a: A.Aw, wf: Workflow)
    requires AwInv(w) && nn in w.awRuns && w.awRuns[nn].Launch? && w.awRuns[nn].base == a
    requires wf.phase.Unknown? && nn !in w.wfs
    ensures (nn, a.uid) !in w.launched
    ensures AwInv(w.(wfs := w.wfs[nn := wf], launched := w.launched + {(nn, a.uid)}))
  {
    assert RunHolds(w.awRuns[nn], nn, w.awLog, w.awFloor);
    LaunchGuard(w.aws, w.wfs, w.awLog, w.clock, w.awFloor, w.launched, nn, a, wf);
  }

  lemma SetPhaseInv(w: World, nn: NN)
    requires AwInv(w) && nn in w.awRuns && w.awRuns[nn].SetPhase? && AwCurrent(w, nn, w.awRuns[nn].base)
    ensures AwInv(WritePhase(w, nn))
  {
    CurrentIsBase(w, nn);
    var a := w.aws[nn].(phase := w.awRuns[nn].phase);
    assert RunHolds(w.awRuns[nn], nn, w.awLog, w.awFloor);
    SaveSameSpecInv(w, nn, a);
    EndInv(SaveAw(w, nn, a), nn);
  }

  lemma GatheredInv(w: World, nn: NN, t: ArtifactType)
    requires AwInv(w) && nn in w.awRuns && w.awRuns[nn].Gather?
    ensures AwInv(Gathered(w, nn, t))
  {
    assert RunHolds(w.awRuns[nn], nn, w.awLog, w.awFloor);
    CheckOrGatherInv(w, nn, Gathered(w, nn, t).awRuns[nn]);
  }

  lemma CheckedInv(w: World, nn: NN, p: Phase)
    requires AwInv(w) && nn in w.awRuns && w.awRuns[nn].Check? && (p.Unknown? || (nn, p) in w.reported)
    ensures AwInv(Checked(w, nn, p))
  {
    assert RunHolds(w.awRuns[nn], nn, w.awLog, w.awFloor);
    CheckOrGatherInv(w, nn, A.SetPhase(w.awRuns[nn].base, p));
  }

  lemma CheckOrGatherInv(w: World, nn: NN, r: A.AwRun)
    requires AwInv(w) && nn in w.awRuns && r.base == w.awRuns[nn].base && A.WellFormed(r) && !r.DropFinalizer?
    requires r.SetPhase? && !r.phase.Assigned() ==> (nn, r.phase) in w.reported
    ensures AwInv(SetAwRun(w, nn, r))
  {
    assert RunHolds(w.awRuns[nn], nn, w.awLog, w.awFloor);
    SetRunInv(w, nn, r);
  }

  lemma ReportInv(w: World, nn: NN, p: Phase)
    requires AwInv(w) && nn in w.wfs
    ensures AwInv(ReportPhase(w, nn, p))
  {
    var wfs := w.wfs[nn := w.wfs[nn].(phase := p)];
    ReportNames(w.wfs, nn, p);
    SameNamesGuard(w.aws, w.wfs, wfs, w.awLog, w.awFloor, w.launched);
    ReportReported(w.wfs, w.reported, nn, p);
  }

  lemma ReportNames(wfs: Wfs, nn: NN, p: Phase)
    requires nn in wfs
    ensures wfs[nn := wfs[nn].(phase := p)].Keys == wfs.Keys
  {
  }

  lemma ReportReported(wfs: Wfs, reported: Reports, nn: NN, p: Phase)
    requires nn in wfs && WorkflowsReported(wfs, reported)
    ensures WorkflowsReported(wfs[nn := wfs[nn].(phase := p)], reported + {(nn, p)})
  {
  }

  // ---------------------------------------------------------------------------------------------------
  // All actions
  // ---------------------------------------------------------------------------------------------------

  lemma AwControllerInv(w: World, nn: NN, c: AwCall)
    requires AwInv(w) && AwEnabled(w, nn, c)
    ensures AwInv(AwNext(w, nn, c))
  {
    match c
    case AFetch(v) => FetchInv(w, nn, v);
    case ACleanWorkflow => CleanWorkflowInv(w, nn);
    case ADropFinalizer => DropFinalizerInv(w, nn);
    case AAddFinalizer => AddFinalizerInv(w, nn);
    case AGather(t) => GatheredInv(w, nn, t);
    case ALaunch => LaunchInv(w, nn);
    case ACheck(p) => CheckedInv(w, nn, p);
    case ASetPhase => SetPhaseInv(w, nn);
    case AEnd => EndInv(w, nn);
  }

  lemma CreateKeyInv(w: World, nn: NN, sha: Sha, spec: AwSpec)
    requires AwInv(w) && nn in w.orderRuns && w.orderRuns[nn].Main? && sha in O.Desired(w.orderRuns[nn].shas)
    ensures AwInv(CreateKey(w, nn, sha, spec))
  {
    var target := AwName(nn, sha);
    if target in w.aws {
      SameAwSideInv(w, CreateKey(w, nn, sha, spec));
    } else {
      CreateInv(w, target, spec, {});
      SameAwSideInv(CreateAw(w, target, spec, {}), CreateKey(w, nn, sha, spec));
    }
  }

  lemma CleanupKeyInv(w: World, nn: NN, sha: Sha, delivered: bool)
    requires AwInv(w) && nn in w.orderRuns && w.orderRuns[nn].Cleanup?
    ensures AwInv(CleanupKey(w, nn, sha, delivered))
  {
    DeleteInv(w, AwName(nn, sha));
    SameAwSideInv(if delivered then DeleteAw(w, AwName(nn, sha)) else w, CleanupKey(w, nn, sha, delivered));
  }

  lemma DeleteKeyInv(w: World, nn: NN, sha: Sha)
    requires AwInv(w) && nn in w.orderRuns && w.orderRuns[nn].Main?
    ensures AwInv(DeleteKey(w, nn, sha))
  {
    DeleteInv(w, AwName(nn, sha));
    SameAwSideInv(DeleteAw(w, AwName(nn, sha)), DeleteKey(w, nn, sha));
  }

  lemma OrderControllerInv(w: World, nn: NN, c: OrderCall)
    requires AwInv(w) && OrderEnabled(w, nn, c)
    ensures AwInv(OrderNext(w, nn, c))
  {
    match c
    case OCleanup(sha, delivered) => CleanupKeyInv(w, nn, sha, delivered);
    case OCreate(sha, spec) => CreateKeyInv(w, nn, sha, spec);
    case ODelete(sha) => DeleteKeyInv(w, nn, sha);
    case _ =>
      OrderCallsApart(w, nn, c);
      SameAwSideInv(w, OrderNext(w, nn, c));
  }

  lemma EditInv(w: World, nn: NN, spec: AwSpec, f: set<string>)
    requires AwInv(w) && UserEnabled(w, EditAw(nn, spec, f))
    ensures AwInv(UserNext(w, EditAw(nn, spec, f)))
  {
    StoredPhase(w, nn);
    SaveInv(w, nn, w.aws[nn].(spec := spec, finalizers := f));
  }

  lemma UserInv(w: World, a: UserAction)
    requires AwInv(w) && UserEnabled(w, a)
    ensures AwInv(UserNext(w, a))
  {
    match a
    case MakeAw(nn, spec, f) => CreateInv(w, nn, spec, f);
    case EditAw(nn, spec, f) => EditInv(w, nn, spec, f);
    case RemoveAw(nn) => DeleteInv(w, nn);
    case Report(nn, p) => ReportInv(w, nn, p);
    case _ =>
      UserOrdersApart(w, a);
      SameAwSideInv(w, UserNext(w, a));
  }

  lemma AwStep(w: World, a: Action)
    requires AwInv(w) && Enabled(w, a)
    ensures AwInv(Next(w, a))
  {
    match a
    case User(u) => UserInv(w, u);
    case OrderWorker(nn, c) => OrderControllerInv(w, nn, c);
    case AwWorker(nn, c) => AwControllerInv(w, nn, c);
  }

  lemma AwInit(codec: Codec)
    ensures AwInv(Init(codec))
  {
  }
}
