/** What every action keeps about Orders: stored versions, reconciles in flight, recorded phases and specs. */
module OrderSteps {
  import opened Types
  import opened Cluster
  import opened Frames
  import AwSteps
  import O = OrderRun

  type Orders = map<NN, O.Order>
  type Log = map<nat, OrderVersion>
  type Runs = map<NN, O.OrderRun>
  type Reports = set<(NN, Phase)>

  ghost predicate LogBounds(log: Log, clock: nat) {
    forall v :: v in log ==> log[v].order.version == v && v < clock
  }

  ghost predicate StoredLogged(orders: Orders, log: Log) {
    forall nn :: nn in orders ==> orders[nn].version in log && log[orders[nn].version] == OrderVersion(nn, orders[nn])
  }

  // A recorded phase is one the controllers assign, or one that Argo has reported for the Workflow of that key.
  ghost predicate StatusReported(nn: NN, status: Status, reported: Reports) {
    forall sha: Sha :: sha in status && !status[sha].phase.Assigned() ==>
      (AwName(nn, sha), status[sha].phase) in reported
  }

  ghost predicate LogReported(log: Log, reported: Reports) {
    forall v :: v in log ==> StatusReported(log[v].nn, log[v].order.status, reported)
  }

  function WorkingStatus(r: O.OrderRun): Status {
    match r
    case Cleanup(_, status) => status
    case Main(_, _, _, status, _, _, _, _) => status
    case _ => map[]
  }

  // The keys of a reconcile are the hashes of what it resolved.
  ghost predicate Hashed(codec: Codec, nn: NN, r: O.OrderRun) {
    r.Resolving? || r.Main? ==>
      |r.shas| == |r.daws| && forall i :: 0 <= i < |r.shas| ==> r.shas[i] == HashOf(codec, nn.ns, r.daws[i])
  }

  ghost predicate RunHolds(codec: Codec, nn: NN, r: O.OrderRun, log: Log, reported: Reports) {
    && O.WellFormed(r)
    && Hashed(codec, nn, r)
    && r.base.version in log
    && log[r.base.version] == OrderVersion(nn, r.base)
    && StatusReported(nn, WorkingStatus(r), reported)
  }

  ghost predicate RunsHold(codec: Codec, runs: Runs, log: Log, reported: Reports) {
    forall nn :: nn in runs ==> RunHolds(codec, nn, runs[nn], log, reported)
  }

  ghost predicate SpecsKept(orders: Orders, written: map<NN, OrderSpec>) {
    forall nn :: nn in orders ==> nn in written && orders[nn].spec == written[nn]
  }

  ghost predicate OrderInv(w: World) {
    && LogBounds(w.orderLog, w.clock)
    && StoredLogged(w.orders, w.orderLog)
    && LogReported(w.orderLog, w.reported)
    && RunsHold(w.codec, w.orderRuns, w.orderLog, w.reported)
    && SpecsKept(w.orders, w.written)
  }

  lemma SameOrderSideInv(w: World, n: World)
    requires OrderInv(w) && SameOrderSide(w, n)
    ensures OrderInv(n)
  {
  }

  // ---------------------------------------------------------------------------------------------------
  // Writes
  // ---------------------------------------------------------------------------------------------------

  lemma PutParts(codec: Codec, orders: Orders, log: Log, clock: nat, runs: Runs, reported: Reports, nn: NN, n: O.Order)
    requires LogBounds(log, clock) && StoredLogged(orders, log) && LogReported(log, reported)
    requires RunsHold(codec, runs, log, reported)
    requires n.version == clock && StatusReported(nn, n.status, reported)
    ensures LogBounds(log[clock := OrderVersion(nn, n)], clock + 1)
    ensures StoredLogged(orders[nn := n], log[clock := OrderVersion(nn, n)])
    ensures LogReported(log[clock := OrderVersion(nn, n)], reported)
    ensures RunsHold(codec, runs, log[clock := OrderVersion(nn, n)], reported)
  {
  }

  lemma PutInv(w: World, nn: NN, n: O.Order)
    requires OrderInv(w) && n.version == w.clock && StatusReported(nn, n.status, w.reported)
    ensures OrderInv(PutOrder(w, nn, n).(written := w.written[nn := n.spec]))
  {
    PutParts(w.codec, w.orders, w.orderLog, w.clock, w.orderRuns, w.reported, nn, n);
    assert SpecsKept(w.orders[nn := n], w.written[nn := n.spec]);
  }

  lemma DropInv(w: World, nn: NN, spec: OrderSpec)
    requires OrderInv(w)
    ensures OrderInv(DropOrder(w, nn).(written := w.written[nn := spec]))
  {
  }

  lemma SaveInv(w: World, nn: NN, o: O.Order)
    requires OrderInv(w) && StatusReported(nn, o.status, w.reported)
    ensures OrderInv(SaveOrder(w, nn, o).(written := w.written[nn := o.spec]))
  {
    if o.deleting && o.finalizers == {} {
      DropInv(w, nn, o.spec);
    } else {
      PutInv(w, nn, o.(version := w.clock));
    }
  }

  lemma SaveSameSpecInv(w: World, nn: NN, o: O.Order)
    requires OrderInv(w) && StatusReported(nn, o.status, w.reported) && nn in w.orders && o.spec == w.orders[nn].spec
    ensures OrderInv(SaveOrder(w, nn, o))
  {
    SaveInv(w, nn, o);
    assert w.written[nn := o.spec] == w.written;
    assert SaveOrder(w, nn, o).(written := w.written[nn := o.spec]) == SaveOrder(w, nn, o);
  }

  lemma StoredReported(w: World, nn: NN)
    requires OrderInv(w) && nn in w.orders
    ensures StatusReported(nn, w.orders[nn].status, w.reported)
  {
  }

  lemma CurrentIsBase(w: World, nn: NN)
    requires OrderInv(w) && nn in w.orderRuns && OrderCurrent(w, nn, w.orderRuns[nn].base)
    ensures w.orders[nn] == w.orderRuns[nn].base
  {
  }

  lemma EndInv(w: World, nn: NN)
    requires OrderInv(w)
    ensures OrderInv(EndOrderRun(w, nn))
  {
  }

  lemma SetRunInv(w: World, nn: NN, r: O.OrderRun)
    requires OrderInv(w) && RunHolds(w.codec, nn, r, w.orderLog, w.reported)
    ensures OrderInv(SetOrderRun(w, nn, r))
  {
  }

  // ---------------------------------------------------------------------------------------------------
  // Reconcile steps
  // ---------------------------------------------------------------------------------------------------

  lemma FetchInv(w: World, nn: NN, v: nat)
    requires OrderInv(w) && v in w.orderLog && w.orderLog[v].nn == nn
    ensures OrderInv(FetchOrder(w, nn, w.orderLog[v].order))
  {
    var o := w.orderLog[v].order;
    if O.Begin(o).Some? {
      BeginHolds(w, nn, v);
      SetRunInv(w, nn, O.Begin(o).value);
    }
  }

  lemma BeginHolds(w: World, nn: NN, v: nat)
    requires OrderInv(w) && v in w.orderLog && w.orderLog[v].nn == nn && O.Begin(w.orderLog[v].order).Some?
    ensures RunHolds(w.codec, nn, O.Begin(w.orderLog[v].order).value, w.orderLog, w.reported)
  {
  }

  lemma WriteStatusInv(w: World, nn: NN, status: Status)
    requires OrderInv(w) && nn in w.orderRuns && OrderCurrent(w, nn, w.orderRuns[nn].base)
    requires StatusReported(nn, status, w.reported)
    ensures OrderInv(WriteStatus(w, nn, status))
  {
    var o := w.orderRuns[nn].base.(status := status, spec := w.orders[nn].spec);
    SaveSameSpecInv(w, nn, o);
    EndInv(SaveOrder(w, nn, o), nn);
  }

  lemma WriteFinalizersInv(w: World, nn: NN, f: set<string>)
    requires OrderInv(w) && nn in w.orderRuns && OrderCurrent(w, nn, w.orderRuns[nn].base)
    ensures OrderInv(WriteFinalizers(w, nn, f))
  {
    CurrentIsBase(w, nn);
    StoredReported(w, nn);
    var o := w.orderRuns[nn].base.(finalizers := f);
    SaveSameSpecInv(w, nn, o);
    EndInv(SaveOrder(w, nn, o), nn);
  }

  lemma ResolveInv(w: World, nn: NN, d: Daw)
    requires OrderInv(w) && nn in w.orderRuns && w.orderRuns[nn].Resolving?
    requires |w.orderRuns[nn].daws| < |w.orderRuns[nn].base.spec.artifacts|
    requires O.Resolves(w.orderRuns[nn].base.spec, |w.orderRuns[nn].daws|, d)
    ensures OrderInv(ResolveKey(w, nn, d))
  {
    var r := w.orderRuns[nn];
    assert RunHolds(w.codec, nn, r, w.orderLog, w.reported);
    O.ResolveWellFormed(r, d, HashOf(w.codec, nn.ns, d));
    assert StatusReported(w.orderLog[r.base.version].nn, w.orderLog[r.base.version].order.status, w.reported);
    SetRunInv(w, nn, O.AfterResolve(r, d, HashOf(w.codec, nn.ns, d)));
  }

  lemma AfterCreateHolds(codec: Codec, nn: NN, r: O.OrderRun, log: Log, reported: Reports, sha: Sha, isNew: bool)
    requires RunHolds(codec, nn, r, log, reported) && r.Main? && sha in r.creates && sha in O.Desired(r.shas)
    ensures RunHolds(codec, nn, O.AfterCreate(r, sha, isNew), log, reported)
  {
  }

  lemma AfterDeleteHolds(codec: Codec, nn: NN, r: O.OrderRun, log: Log, reported: Reports, sha: Sha)
    requires RunHolds(codec, nn, r, log, reported) && r.Main? && sha in r.deletes
    ensures RunHolds(codec, nn, O.AfterDelete(r, sha), log, reported)
  {
  }

  lemma AfterSyncHolds(codec: Codec, nn: NN, r: O.OrderRun, log: Log, reported: Reports, sha: Sha, phase: Phase)
    requires RunHolds(codec, nn, r, log, reported) && r.Main? && sha in r.syncs && sha in r.status
    requires phase.Assigned() || (AwName(nn, sha), phase) in reported
    ensures RunHolds(codec, nn, O.AfterSync(r, sha, phase), log, reported)
  {
  }

  lemma RefreshReported(nn: NN, status: Status, desired: map<Sha, int>, reported: Reports)
    requires StatusReported(nn, status, reported)
    ensures StatusReported(nn, O.Refresh(status, desired), reported)
  {
  }

  // ---------------------------------------------------------------------------------------------------
  // Calls that also reach ArtifactWorkflows
  // ---------------------------------------------------------------------------------------------------

  lemma CleanupInv(w: World, nn: NN, sha: Sha, delivered: bool)
    requires OrderInv(w) && nn in w.orderRuns && w.orderRuns[nn].Cleanup?
    ensures OrderInv(CleanupKey(w, nn, sha, delivered))
  {
    var n := if delivered then DeleteAw(w, AwName(nn, sha)) else w;
    DeleteAwApart(w, AwName(nn, sha));
    SameOrderSideInv(w, n);
    var r := w.orderRuns[nn];
    assert RunHolds(w.codec, nn, r, n.orderLog, n.reported);
    SetRunInv(n, nn, O.Cleanup(r.base, r.status - {sha}));
  }

  lemma CreateKeyInv(w: World, nn: NN, sha: Sha, spec: AwSpec)
    requires OrderInv(w) && nn in w.orderRuns && w.orderRuns[nn].Main?
    requires sha in w.orderRuns[nn].creates && sha in O.Desired(w.orderRuns[nn].shas)
    ensures OrderInv(CreateKey(w, nn, sha, spec))
  {
    var target := AwName(nn, sha);
    var n := if target in w.aws then w else CreateAw(w, target, spec, {});
    SameOrderSideInv(w, n);
    AfterCreateHolds(w.codec, nn, w.orderRuns[nn], w.orderLog, w.reported, sha, target !in w.aws);
    SetRunInv(n, nn, O.AfterCreate(w.orderRuns[nn], sha, target !in w.aws));
  }

  lemma DeleteKeyInv(w: World, nn: NN, sha: Sha)
    requires OrderInv(w) && nn in w.orderRuns && w.orderRuns[nn].Main? && sha in w.orderRuns[nn].deletes
    ensures OrderInv(DeleteKey(w, nn, sha))
  {
    var n := DeleteAw(w, AwName(nn, sha));
    DeleteAwApart(w, AwName(nn, sha));
    SameOrderSideInv(w, n);
    AfterDeleteHolds(w.codec, nn, w.orderRuns[nn], w.orderLog, w.reported, sha);
    SetRunInv(n, nn, O.AfterDelete(w.orderRuns[nn], sha));
  }

  lemma SyncKeyInv(w: World, nn: NN, sha: Sha, v: nat)
    requires AwSteps.AwInv(w) && OrderInv(w) && nn in w.orderRuns && w.orderRuns[nn].Main?
    requires sha in w.orderRuns[nn].syncs && sha in w.orderRuns[nn].status
    requires v in w.awLog && w.awLog[v].nn == AwName(nn, sha)
    ensures OrderInv(SyncKey(w, nn, sha, w.awLog[v].aw.phase))
  {
    var phase := w.awLog[v].aw.phase;
    AfterSyncHolds(w.codec, nn, w.orderRuns[nn], w.orderLog, w.reported, sha, phase);
    SetRunInv(w, nn, O.AfterSync(w.orderRuns[nn], sha, phase));
  }

  // ---------------------------------------------------------------------------------------------------
  // All actions
  // ---------------------------------------------------------------------------------------------------

  lemma OrderWriteInv(w: World, nn: NN, c: OrderCall)
    requires OrderInv(w) && OrderEnabled(w, nn, c)
    requires c.OWriteCleanup? || c.ODropFinalizer? || c.OAddFinalizer? || c.OWrite?
    ensures OrderInv(OrderNext(w, nn, c))
  {
    var r := w.orderRuns[nn];
    assert RunHolds(w.codec, nn, r, w.orderLog, w.reported);
    match c
    case OWriteCleanup => WriteStatusInv(w, nn, r.status);
    case ODropFinalizer => WriteFinalizersInv(w, nn, r.base.finalizers - {O.ORDER_FINALIZER});
    case OAddFinalizer => WriteFinalizersInv(w, nn, r.base.finalizers + {O.ORDER_FINALIZER});
    case OWrite =>
      RefreshReported(nn, r.status, O.Desired(r.shas), w.reported);
      WriteStatusInv(w, nn, O.Refresh(r.status, O.Desired(r.shas)));
  }

  lemma OrderControllerInv(w: World, nn: NN, c: OrderCall)
    requires AwSteps.AwInv(w) && OrderInv(w) && OrderEnabled(w, nn, c)
    ensures OrderInv(OrderNext(w, nn, c))
  {
    match c
    case OFetch(v) => FetchInv(w, nn, v);
    case OCleanup(sha, delivered) => CleanupInv(w, nn, sha, delivered);
    case OResolve(d) => ResolveInv(w, nn, d);
    case OCreate(sha, spec) => CreateKeyInv(w, nn, sha, spec);
    case ODelete(sha) => DeleteKeyInv(w, nn, sha);
    case OSync(sha, v) => SyncKeyInv(w, nn, sha, v);
    case OEnd => EndInv(w, nn);
    case _ => OrderWriteInv(w, nn, c);
  }

  lemma UserInv(w: World, a: UserAction)
    requires OrderInv(w) && UserEnabled(w, a)
    ensures OrderInv(UserNext(w, a))
  {
    match a
    case MakeOrder(nn, spec, f) => PutInv(w, nn, O.Order(w.clock, w.clock, f, false, spec, map[]));
    case EditOrder(nn, spec, f) =>
      StoredReported(w, nn);
      SaveInv(w, nn, w.orders[nn].(spec := spec, finalizers := f));
    case RemoveOrder(nn) =>
      if nn in w.orders {
        StoredReported(w, nn);
        SaveSameSpecInv(w, nn, w.orders[nn].(deleting := true));
      }
    case _ =>
      UserAwsApart(w, a);
      SameOrderSideInv(w, UserNext(w, a));
  }

  lemma OrderStep(w: World, a: Action)
    requires AwSteps.AwInv(w) && OrderInv(w) && Enabled(w, a)
    ensures OrderInv(Next(w, a))
  {
    match a
    case User(u) => UserInv(w, u);
    case OrderWorker(nn, c) => OrderControllerInv(w, nn, c);
    case AwWorker(nn, c) =>
      AwCallsApart(w, nn, c);
      SameOrderSideInv(w, AwNext(w, nn, c));
  }

  lemma OrderInit(codec: Codec)
    ensures OrderInv(Init(codec))
  {
  }
}
