/**
 * Phase progress. Assumed of the environment: Argo only moves a Workflow's phase forward, and the checks of a Workflow
 * read it in order: what they return may be old, but not older than what was read from that Workflow before. (A read so
 * old that it returns the Workflow of a deleted namesake could carry its phase into the new ArtifactWorkflow.)
 */
module Progress {
  import opened Types
  import opened Cluster
  import opened AwInvariant
  import opened AwSteps
  import opened Frames
  import O = OrderRun
  import A = AwRun

  function Rank(p: Phase): nat {
    match p
    case Unknown => 0
    case Pending => 1
    case Running => 2
    case _ => 3
  }

  lemma RankOrders(p: Phase)
    ensures Rank(Unknown) < Rank(Pending) < Rank(Running)
    ensures p.Succeeded? || p.Failed? || p.Error? || p.Other? ==> Rank(Running) < Rank(p)
  {
  }

  function AtLeastPending(n: nat): nat {
    if n == 0 then 1 else n
  }

  ghost predicate Forward(w: World, a: Action)
    requires Enabled(w, a)
  {
    match a
    case User(Report(nn, p)) => p == w.wfs[nn].phase || Rank(w.wfs[nn].phase) < Rank(p)
    case AwWorker(nn, ACheck(p)) => nn in w.wfs ==> ReadInOrder(w, nn, p)
    case _ => true
  }

  // Between the phase last read from this Workflow and the one it has now.
  ghost predicate ReadInOrder(w: World, nn: NN, p: Phase)
    requires nn in w.wfs
  {
    Seen(w.wfSeen, nn) <= Rank(p) <= Rank(w.wfs[nn].phase)
  }

  function Seen(seen: map<NN, Phase>, nn: NN): nat {
    if nn in seen then Rank(seen[nn]) else 0
  }

  // ---------------------------------------------------------------------------------------------------
  // Invariant
  // ---------------------------------------------------------------------------------------------------

  // A Workflow belongs to the stored incarnation.
  ghost predicate Owned(aws: Aws, wfs: Wfs, launched: Launches) {
    forall nn :: nn in wfs && nn in aws ==> (nn, aws[nn].uid) in launched
  }

  // A phase is recorded only after the launch.
  ghost predicate PhaseAfterLaunch(log: Log, launched: Launches) {
    forall v :: v in log && !log[v].aw.phase.Unknown? ==> (log[v].nn, log[v].aw.uid) in launched
  }

  ghost predicate RunAfterLaunch(runs: map<NN, A.AwRun>, launched: Launches) {
    forall nn :: nn in runs && runs[nn].SetPhase? ==> (nn, runs[nn].base.uid) in launched
  }

  // The recorded phase is never ahead of the Workflow.
  ghost predicate NotAhead(aws: Aws, wfs: Wfs) {
    forall nn :: nn in aws && nn in wfs ==> Rank(aws[nn].phase) <= AtLeastPending(Rank(wfs[nn].phase))
  }

  ghost predicate RunNotAhead(runs: map<NN, A.AwRun>, wfs: Wfs) {
    forall nn :: nn in runs && runs[nn].SetPhase? && nn in wfs ==>
      Rank(runs[nn].phase) <= AtLeastPending(Rank(wfs[nn].phase))
  }

  ghost predicate RunForward(runs: map<NN, A.AwRun>) {
    forall nn :: nn in runs && runs[nn].SetPhase? && Rank(runs[nn].base.phase) >= 2 ==>
      Rank(runs[nn].base.phase) <= Rank(runs[nn].phase)
  }

  // From Running on, a phase is recorded, or about to be, only if it has been read.
  ghost predicate RecordedSeen(aws: Aws, wfs: Wfs, seen: map<NN, Phase>) {
    forall nn :: nn in aws && nn in wfs && Rank(aws[nn].phase) >= 2 ==> Rank(aws[nn].phase) <= Seen(seen, nn)
  }

  ghost predicate RunSeen(runs: map<NN, A.AwRun>, wfs: Wfs, seen: map<NN, Phase>) {
    forall nn :: nn in runs && runs[nn].SetPhase? && nn in wfs && Rank(runs[nn].phase) >= 2 ==>
      Rank(runs[nn].phase) <= Seen(seen, nn)
  }

  // Within an incarnation, nothing falls behind once it is running.
  ghost predicate KeepsUp(a: A.Aw, b: A.Aw) {
    a.uid == b.uid && Rank(a.phase) >= 2 ==> Rank(a.phase) <= Rank(b.phase)
  }

  ghost predicate LogForward(log: Log) {
    forall u, v :: u in log && v in log && u < v && log[u].nn == log[v].nn ==> KeepsUp(log[u].aw, log[v].aw)
  }

  ghost predicate ProgressInv(w: World) {
    && Owned(w.aws, w.wfs, w.launched)
    && PhaseAfterLaunch(w.awLog, w.launched)
    && RunAfterLaunch(w.awRuns, w.launched)
    && NotAhead(w.aws, w.wfs)
    && RunNotAhead(w.awRuns, w.wfs)
    && RunForward(w.awRuns)
    && RecordedSeen(w.aws, w.wfs, w.wfSeen)
    && RunSeen(w.awRuns, w.wfs, w.wfSeen)
    && LogForward(w.awLog)
  }

  lemma SameAwSideProgress(w: World, n: World)
    requires ProgressInv(w) && SameAwSide(w, n)
    ensures ProgressInv(n)
  {
  }

  // ---------------------------------------------------------------------------------------------------
  // Writes
  // ---------------------------------------------------------------------------------------------------

  // `n` replaces the stored object and its phase does not fall behind.
  lemma PutLogForward(aws: Aws, log: Log, clock: nat, nn: NN, n: A.Aw)
    requires History(aws, log, clock) && LogForward(log) && nn in aws && n.uid == aws[nn].uid
    requires Rank(aws[nn].phase) >= 2 ==> Rank(aws[nn].phase) <= Rank(n.phase)
    ensures LogForward(log[clock := AwVersion(nn, n)])
  {
  }

  lemma PutProgress(w: World, nn: NN, n: A.Aw)
    requires AwInv(w) && ProgressInv(w) && nn in w.aws && n.uid == w.aws[nn].uid
    requires Rank(w.aws[nn].phase) >= 2 ==> Rank(w.aws[nn].phase) <= Rank(n.phase)
    requires !n.phase.Unknown? ==> (nn, n.uid) in w.launched
    requires nn in w.wfs ==> Rank(n.phase) <= AtLeastPending(Rank(w.wfs[nn].phase))
    requires nn in w.wfs && Rank(n.phase) >= 2 ==> Rank(n.phase) <= Seen(w.wfSeen, nn)
    ensures ProgressInv(PutAw(w, nn, n))
  {
    PutLogForward(w.aws, w.awLog, w.clock, nn, n);
    PutPhase(w.aws, w.wfs, w.wfSeen, nn, n);
  }

  lemma PutPhase(aws: Aws, wfs: Wfs, seen: map<NN, Phase>, nn: NN, n: A.Aw)
    requires NotAhead(aws, wfs) && RecordedSeen(aws, wfs, seen)
    requires nn in wfs ==> Rank(n.phase) <= AtLeastPending(Rank(wfs[nn].phase))
    requires nn in wfs && Rank(n.phase) >= 2 ==> Rank(n.phase) <= Seen(seen, nn)
    ensures NotAhead(aws[nn := n], wfs) && RecordedSeen(aws[nn := n], wfs, seen)
  {
  }

  lemma SaveProgress(w: World, nn: NN, a: A.Aw)
    requires AwInv(w) && ProgressInv(w) && nn in w.aws && a.uid == w.aws[nn].uid
    requires Rank(w.aws[nn].phase) >= 2 ==> Rank(w.aws[nn].phase) <= Rank(a.phase)
    requires !a.phase.Unknown? ==> (nn, a.uid) in w.launched
    requires nn in w.wfs ==> Rank(a.phase) <= AtLeastPending(Rank(w.wfs[nn].phase))
    requires nn in w.wfs && Rank(a.phase) >= 2 ==> Rank(a.phase) <= Seen(w.wfSeen, nn)
    ensures ProgressInv(SaveAw(w, nn, a))
  {
    if a.deleting && a.finalizers == {} {
      assert ProgressInv(DropAw(w, nn));
    } else {
      PutProgress(w, nn, a.(version := w.clock));
    }
  }

  lemma SaveSamePhaseProgress(w: World, nn: NN, a: A.Aw)
    requires AwInv(w) && ProgressInv(w) && nn in w.aws && a.uid == w.aws[nn].uid && a.phase == w.aws[nn].phase
    ensures ProgressInv(SaveAw(w, nn, a))
  {
    assert w.awLog[w.aws[nn].version] == AwVersion(nn, w.aws[nn]);
    SaveProgress(w, nn, a);
  }

  lemma DeleteProgress(w: World, nn: NN)
    requires AwInv(w) && ProgressInv(w)
    ensures ProgressInv(DeleteAw(w, nn))
  {
    if nn in w.aws && !w.aws[nn].deleting {
      SaveSamePhaseProgress(w, nn, w.aws[nn].(deleting := true));
    }
  }

  lemma CreateFacts(w: World, nn: NN)
    requires AwInv(w) && nn !in w.aws
    ensures nn !in w.wfs
    ensures forall u :: u in w.awLog ==> u < w.clock && w.awLog[u].aw.uid < w.clock
  {
  }

  lemma CreateProgress(w: World, nn: NN, spec: AwSpec, f: set<string>)
    requires ProgressInv(w) && nn !in w.aws && nn !in w.wfs
    requires forall u :: u in w.awLog ==> u < w.clock && w.awLog[u].aw.uid < w.clock
    ensures ProgressInv(CreateAw(w, nn, spec, f))
  {
  }

  // ---------------------------------------------------------------------------------------------------
  // Controller steps
  // ---------------------------------------------------------------------------------------------------

  lemma EndProgress(w: World, nn: NN)
    requires ProgressInv(w)
    ensures ProgressInv(EndAwRun(w, nn))
  {
  }

  lemma FetchProgress(w: World, nn: NN, a: A.Aw)
    requires ProgressInv(w)
    ensures ProgressInv(FetchAw(w, nn, a))
  {
  }

  lemma CleanProgress(w: World, nn: NN)
    requires ProgressInv(w) && nn in w.awRuns && w.awRuns[nn].CleanWorkflow?
    ensures ProgressInv(CleanWorkflow(w, nn))
  {
  }

  // The object a launching or checking reconcile holds is of the stored incarnation.
  lemma BaseHeld(w: World, nn: NN)
    requires AwInv(w) && nn in w.awRuns && A.Active(w.awRuns[nn].base)
    ensures Held(w.aws, nn, w.awRuns[nn].base)
    ensures (nn, w.awRuns[nn].base.uid) in w.launched ==> nn in w.wfs
    ensures w.awRuns[nn].base.version <= w.aws[nn].version
  {
  }

  lemma LaunchFacts(w: World, nn: NN)
    requires AwInv(w) && ProgressInv(w) && nn in w.awRuns && w.awRuns[nn].Launch?
    ensures w.awRuns[nn].base.phase.Unknown?
    ensures nn in w.aws && w.aws[nn].uid == w.awRuns[nn].base.uid
    ensures nn !in w.wfs ==> w.aws[nn].phase.Unknown?
  {
  }

  lemma LaunchProgress(w: World, nn: NN)
    requires ProgressInv(w) && nn in w.awRuns && w.awRuns[nn].Launch? && w.awRuns[nn].base.phase.Unknown?
    requires nn in w.aws && w.aws[nn].uid == w.awRuns[nn].base.uid && (nn !in w.wfs ==> w.aws[nn].phase.Unknown?)
    ensures ProgressInv(Launch(w, nn))
  {
  }

  lemma CheckFacts(w: World, nn: NN)
    requires AwInv(w) && ProgressInv(w) && nn in w.awRuns && w.awRuns[nn].Check?
    ensures (nn, w.awRuns[nn].base.uid) in w.launched && nn in w.wfs
    ensures nn in w.aws && KeepsUp(w.awRuns[nn].base, w.aws[nn]) && w.awRuns[nn].base.uid == w.aws[nn].uid
  {
    CheckLogged(w, nn);
    InLogOrder(w.awLog, w.launched, nn, w.awRuns[nn].base, w.aws[nn]);
    CheckHeld(w, nn);
  }

  lemma CheckHeld(w: World, nn: NN)
    requires AwInv(w) && nn in w.awRuns && w.awRuns[nn].Check?
    ensures (nn, w.awRuns[nn].base.uid) in w.launched ==> nn in w.wfs
  {
    assert RunHolds(w.awRuns[nn], nn, w.awLog, w.awFloor);
    BaseHeld(w, nn);
  }

  lemma CheckLogged(w: World, nn: NN)
    requires AwInv(w) && nn in w.awRuns && w.awRuns[nn].Check?
    ensures nn in w.aws && Logged(w.awLog, nn, w.awRuns[nn].base) && Logged(w.awLog, nn, w.aws[nn])
    ensures var a, b := w.awRuns[nn].base, w.aws[nn];
            a.version <= b.version && a.uid == b.uid && a.phase.InProgress()
  {
    assert RunHolds(w.awRuns[nn], nn, w.awLog, w.awFloor);
    BaseHeld(w, nn);
  }

  ghost predicate Logged(log: Log, nn: NN, a: A.Aw) {
    a.version in log && log[a.version] == AwVersion(nn, a)
  }

  lemma InLogOrder(log: Log, launched: Launches, nn: NN, a: A.Aw, b: A.Aw)
    requires PhaseAfterLaunch(log, launched) && LogForward(log) && Logged(log, nn, a) && Logged(log, nn, b)
    requires a.version <= b.version && !a.phase.Unknown?
    ensures (nn, a.uid) in launched && KeepsUp(a, b)
  {
  }

  lemma CheckProgress(w: World, nn: NN, p: Phase)
    requires ProgressInv(w) && nn in w.awRuns && w.awRuns[nn].Check?
    requires (nn, w.awRuns[nn].base.uid) in w.launched
    requires nn in w.aws && KeepsUp(w.awRuns[nn].base, w.aws[nn]) && w.awRuns[nn].base.uid == w.aws[nn].uid
    requires nn in w.wfs && ReadInOrder(w, nn, p)
    ensures ProgressInv(Checked(w, nn, p))
  {
  }

  lemma GatherProgress(w: World, nn: NN, t: ArtifactType)
    requires ProgressInv(w) && nn in w.awRuns
    ensures ProgressInv(Gathered(w, nn, t))
  {
  }

  lemma SetPhaseProgress(w: World, nn: NN)
    requires AwInv(w) && ProgressInv(w) && nn in w.awRuns && w.awRuns[nn].SetPhase?
    requires AwCurrent(w, nn, w.awRuns[nn].base)
    ensures ProgressInv(WritePhase(w, nn))
  {
    CurrentIsBase(w, nn);
    var a := w.aws[nn].(phase := w.awRuns[nn].phase);
    SaveProgress(w, nn, a);
    EndProgress(SaveAw(w, nn, a), nn);
  }

  lemma WriteFinalizersProgress(w: World, nn: NN, f: set<string>)
    requires AwInv(w) && ProgressInv(w) && nn in w.awRuns && AwCurrent(w, nn, w.awRuns[nn].base)
    ensures ProgressInv(WriteAwFinalizers(w, nn, f))
  {
    CurrentIsBase(w, nn);
    var a := w.aws[nn].(finalizers := f);
    SaveSamePhaseProgress(w, nn, a);
    EndProgress(SaveAw(w, nn, a), nn);
  }

  lemma ReportProgress(w: World, nn: NN, p: Phase)
    requires ProgressInv(w) && nn in w.wfs && (p == w.wfs[nn].phase || Rank(w.wfs[nn].phase) < Rank(p))
    ensures ProgressInv(ReportPhase(w, nn, p))
  {
  }

  // ---------------------------------------------------------------------------------------------------
  // All actions
  // ---------------------------------------------------------------------------------------------------

  lemma LaunchKeepsProgress(w: World, nn: NN)
    requires AwInv(w) && ProgressInv(w) && nn in w.awRuns && w.awRuns[nn].Launch?
    ensures ProgressInv(Launch(w, nn))
  {
    LaunchFacts(w, nn);
    LaunchProgress(w, nn);
  }

  lemma CheckKeepsProgress(w: World, nn: NN, p: Phase)
    requires AwInv(w) && ProgressInv(w) && nn in w.awRuns && w.awRuns[nn].Check?
    requires nn in w.wfs ==> ReadInOrder(w, nn, p)
    ensures ProgressInv(Checked(w, nn, p))
  {
    CheckFacts(w, nn);
    CheckProgress(w, nn, p);
  }

  lemma FinalizerCallsProgress(w: World, nn: NN, c: AwCall)
    requires AwInv(w) && ProgressInv(w) && AwEnabled(w, nn, c) && (c.ADropFinalizer? || c.AAddFinalizer?)
    ensures ProgressInv(AwNext(w, nn, c))
  {
    var f := w.awRuns[nn].base.finalizers;
    WriteFinalizersProgress(w, nn, if c.ADropFinalizer? then f - {A.AW_FINALIZER} else f + {A.AW_FINALIZER});
  }

  lemma AwControllerProgress(w: World, nn: NN, c: AwCall)
    requires AwInv(w) && ProgressInv(w) && AwEnabled(w, nn, c)
    requires c.ACheck? && nn in w.wfs ==> ReadInOrder(w, nn, c.phase)
    ensures ProgressInv(AwNext(w, nn, c))
  {
    match c
    case AFetch(v) => FetchProgress(w, nn, w.awLog[v].aw);
    case ACleanWorkflow => CleanProgress(w, nn);
    case ADropFinalizer => FinalizerCallsProgress(w, nn, c);
    case AAddFinalizer => FinalizerCallsProgress(w, nn, c);
    case AGather(t) => GatherProgress(w, nn, t);
    case ALaunch => LaunchKeepsProgress(w, nn);
    case ACheck(p) => CheckKeepsProgress(w, nn, p);
    case ASetPhase => SetPhaseProgress(w, nn);
    case AEnd => EndProgress(w, nn);
  }

  lemma CreateKeyProgress(w: World, nn: NN, sha: Sha, spec: AwSpec)
    requires AwInv(w) && ProgressInv(w)
    requires nn in w.orderRuns && w.orderRuns[nn].Main? && sha in O.Desired(w.orderRuns[nn].shas)
    ensures ProgressInv(CreateKey(w, nn, sha, spec))
  {
    var target := AwName(nn, sha);
    if target in w.aws {
      SameAwSideProgress(w, CreateKey(w, nn, sha, spec));
    } else {
      CreateFacts(w, target);
      CreateProgress(w, target, spec, {});
      SameAwSideProgress(CreateAw(w, target, spec, {}), CreateKey(w, nn, sha, spec));
    }
  }

  lemma DeleteKeyProgress(w: World, nn: NN, sha: Sha, delivered: bool)
    requires AwInv(w) && ProgressInv(w) && nn in w.orderRuns
    ensures w.orderRuns[nn].Cleanup? ==> ProgressInv(CleanupKey(w, nn, sha, delivered))
    ensures w.orderRuns[nn].Main? ==> ProgressInv(DeleteKey(w, nn, sha))
  {
    DeleteProgress(w, AwName(nn, sha));
    if w.orderRuns[nn].Cleanup? {
      SameAwSideProgress(if delivered then DeleteAw(w, AwName(nn, sha)) else w, CleanupKey(w, nn, sha, delivered));
    }
    if w.orderRuns[nn].Main? {
      SameAwSideProgress(DeleteAw(w, AwName(nn, sha)), DeleteKey(w, nn, sha));
    }
  }

  lemma OrderControllerProgress(w: World, nn: NN, c: OrderCall)
    requires AwInv(w) && ProgressInv(w) && OrderEnabled(w, nn, c)
    ensures ProgressInv(OrderNext(w, nn, c))
  {
    match c
    case OCleanup(sha, delivered) => DeleteKeyProgress(w, nn, sha, delivered);
    case OCreate(sha, spec) => CreateKeyProgress(w, nn, sha, spec);
    case ODelete(sha) => DeleteKeyProgress(w, nn, sha, true);
    case _ =>
      OrderCallsApart(w, nn, c);
      SameAwSideProgress(w, OrderNext(w, nn, c));
  }

  lemma UserProgress(w: World, a: UserAction)
    requires AwInv(w) && ProgressInv(w) && UserEnabled(w, a)
    requires a.Report? ==> a.phase == w.wfs[a.nn].phase || Rank(w.wfs[a.nn].phase) < Rank(a.phase)
    ensures ProgressInv(UserNext(w, a))
  {
    match a
    case MakeAw(nn, spec, f) =>
      CreateFacts(w, nn);
      CreateProgress(w, nn, spec, f);
    case EditAw(nn, spec, f) => SaveSamePhaseProgress(w, nn, w.aws[nn].(spec := spec, finalizers := f));
    case RemoveAw(nn) => DeleteProgress(w, nn);
    case Report(nn, p) => ReportProgress(w, nn, p);
    case _ =>
      UserOrdersApart(w, a);
      SameAwSideProgress(w, UserNext(w, a));
  }

  lemma ProgressStep(w: World, a: Action)
    requires AwInv(w) && ProgressInv(w) && Enabled(w, a) && Forward(w, a)
    ensures ProgressInv(Next(w, a))
  {
    match a
    case User(u) => UserProgress(w, u);
    case OrderWorker(nn, c) => OrderControllerProgress(w, nn, c);
    case AwWorker(nn, c) => AwControllerProgress(w, nn, c);
  }
}
