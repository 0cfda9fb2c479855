/**
 * The cluster: a versioned object store shared by users, the Argo engine and any number of reconciles in flight.
 *
 * An action is one API call, or one decision of a user or of Argo. Writes are checked against the version that was
 * read; reads come from a cache, so they may return old versions, but the ArtifactWorkflow controller never sees a
 * version older than one it has seen before. A reconcile may end after any call: an error return, a crash and a lost
 * response (the effect happened, the worker did not learn of it) all leave the same cluster behind.
 */
module Cluster {
  import opened Types
  import opened Params
  import O = OrderRun
  import A = AwRun

  datatype Workflow = Workflow(spec: WfSpec, phase: Phase)
  datatype OrderVersion = OrderVersion(nn: NN, order: O.Order)
  datatype AwVersion = AwVersion(nn: NN, aw: A.Aw)

  datatype World = World(
    codec: Codec,
    clock: nat,                              // the next resource version
    orders: map<NN, O.Order>,
    aws: map<NN, A.Aw>,
    wfs: map<NN, Workflow>,
    orderLog: map<nat, OrderVersion>,        // every version ever stored
    awLog: map<nat, AwVersion>,
    awFloor: map<NN, nat>,                   // the last version the ArtifactWorkflow controller has read
    orderRuns: map<NN, O.OrderRun>,          // reconciles in flight: one worker per key
    awRuns: map<NN, A.AwRun>,
    // history
    reported: set<(NN, Phase)>,              // phases Argo has reported
    launched: set<(NN, nat)>,                // ArtifactWorkflows (name, uid) whose Workflow was created
    wfSeen: map<NN, Phase>,                  // the phase last read from the Workflow of that name
    written: map<NN, OrderSpec>,             // the spec last written by a user
    awWritten: map<NN, AwSpec>)              // the spec last written by a user or by the creator

  function Init(codec: Codec): World {
    World(codec, 1, map[], map[], map[], map[], map[], map[], map[], map[], {}, {}, map[], map[], map[])
  }

  // The Workflow of that name shows that phase.
  ghost predicate Shows(w: World, nn: NN, p: Phase) {
    nn in w.wfs && w.wfs[nn].phase == p
  }

  function Floor(floor: map<NN, nat>, nn: NN): nat {
    if nn in floor then floor[nn] else 0
  }

  datatype Action =
    | User(user: UserAction)
    | OrderWorker(nn: NN, ocall: OrderCall)
    | AwWorker(nn: NN, acall: AwCall)

  // Decisions of users, and of Argo.
  datatype UserAction =
    | MakeOrder(nn: NN, spec: OrderSpec, finalizers: set<string>)
    | EditOrder(nn: NN, spec: OrderSpec, finalizers: set<string>)
    | RemoveOrder(nn: NN)
    | MakeAw(nn: NN, awSpec: AwSpec, finalizers: set<string>)
    | EditAw(nn: NN, awSpec: AwSpec, finalizers: set<string>)
    | RemoveAw(nn: NN)
    | Report(nn: NN, phase: Phase)

  datatype OrderCall =
    | OFetch(version: nat)
    | OCleanup(sha: Sha, delivered: bool)
    | OWriteCleanup
    | ODropFinalizer
    | OAddFinalizer
    | OResolve(daw: Daw)
    | OCreate(sha: Sha, awSpec: AwSpec)
    | ODelete(sha: Sha)
    | OSync(sha: Sha, version: nat)
    | OWrite
    | OEnd

  datatype AwCall =
    | AFetch(version: nat)
    | ACleanWorkflow
    | ADropFinalizer
    | AAddFinalizer
    | AGather(t: ArtifactType)
    | ALaunch
    | ACheck(phase: Phase)
    | ASetPhase
    | AEnd

  // ---------------------------------------------------------------------------------------------------
  // The object store
  // ---------------------------------------------------------------------------------------------------

  // A successful write: a new version, or removal when the object is deleting and holds no finalizer any more.
  function SaveOrder(w: World, nn: NN, o: O.Order): World {
    var gone, n := o.deleting && o.finalizers == {}, o.(version := w.clock);
    w.(clock := w.clock + 1,
       orders := if gone then w.orders - {nn} else w.orders[nn := n],
       orderLog := if gone then w.orderLog else w.orderLog[w.clock := OrderVersion(nn, n)])
  }

  function PutOrder(w: World, nn: NN, n: O.Order): World {
    w.(clock := w.clock + 1, orders := w.orders[nn := n], orderLog := w.orderLog[w.clock := OrderVersion(nn, n)])
  }

  function DropOrder(w: World, nn: NN): World {
    w.(clock := w.clock + 1, orders := w.orders - {nn})
  }

  function SaveAw(w: World, nn: NN, a: A.Aw): World {
    var gone, n := a.deleting && a.finalizers == {}, a.(version := w.clock);
    w.(clock := w.clock + 1,
       aws := if gone then w.aws - {nn} else w.aws[nn := n],
       awLog := if gone then w.awLog else w.awLog[w.clock := AwVersion(nn, n)])
  }

  function PutAw(w: World, nn: NN, n: A.Aw): World {
    w.(clock := w.clock + 1, aws := w.aws[nn := n], awLog := w.awLog[w.clock := AwVersion(nn, n)])
  }

  function DropAw(w: World, nn: NN): World {
    w.(clock := w.clock + 1, aws := w.aws - {nn})
  }

  function CreateOrder(w: World, nn: NN, spec: OrderSpec, finalizers: set<string>): World {
    PutOrder(w, nn, O.Order(w.clock, w.clock, finalizers, false, spec, map[]))
  }

  // Create: AlreadyExists changes nothing.
  function CreateAw(w: World, nn: NN, spec: AwSpec, finalizers: set<string>): World {
    var taken, n := nn in w.aws, A.Aw(w.clock, w.clock, finalizers, false, spec, Unknown);
    w.(clock := if taken then w.clock else w.clock + 1,
       aws := if taken then w.aws else w.aws[nn := n],
       awLog := if taken then w.awLog else w.awLog[w.clock := AwVersion(nn, n)],
       awWritten := if taken then w.awWritten else w.awWritten[nn := spec])
  }

  // Delete: sets the deletion mark, NotFound and a repeated Delete change nothing.
  function DeleteOrder(w: World, nn: NN): World {
    if nn !in w.orders || w.orders[nn].deleting then w
    else SaveOrder(w, nn, w.orders[nn].(deleting := true))
  }

  function DeleteAw(w: World, nn: NN): World {
    if nn !in w.aws || w.aws[nn].deleting then w
    else SaveAw(w, nn, w.aws[nn].(deleting := true))
  }

  // Updates are conditional on the version that was read.
  predicate OrderCurrent(w: World, nn: NN, base: O.Order) {
    nn in w.orders && w.orders[nn].version == base.version
  }

  predicate AwCurrent(w: World, nn: NN, base: A.Aw) {
    nn in w.aws && w.aws[nn].version == base.version
  }

  // ---------------------------------------------------------------------------------------------------
  // Actions
  // ---------------------------------------------------------------------------------------------------

  predicate UserEnabled(w: World, a: UserAction) {
    match a
    case MakeOrder(nn, _, _) => nn !in w.orders
    case EditOrder(nn, _, f) =>
      nn in w.orders && (O.ORDER_FINALIZER in f <==> O.ORDER_FINALIZER in w.orders[nn].finalizers)
    case MakeAw(nn, _, _) => nn !in w.aws
    case EditAw(nn, _, f) => nn in w.aws && (A.AW_FINALIZER in f <==> A.AW_FINALIZER in w.aws[nn].finalizers)
    case Report(nn, _) => nn in w.wfs
    case _ => true
  }

  // The reconcile of `nn` has reached the point where it makes this call.
  ghost predicate OrderEnabled(w: World, nn: NN, c: OrderCall) {
    if c.OFetch? then nn !in w.orderRuns && c.version in w.orderLog && w.orderLog[c.version].nn == nn
    else nn in w.orderRuns && OrderCallEnabled(w, nn, w.orderRuns[nn], c)
  }

  ghost predicate OrderCallEnabled(w: World, nn: NN, r: O.OrderRun, c: OrderCall) {
    match c
    case OFetch(_) => false
    case OCleanup(sha, _) => r.Cleanup? && sha in r.status
    case OWriteCleanup => r.Cleanup? && r.status == map[] && OrderCurrent(w, nn, r.base)
    case ODropFinalizer => r.DropFinalizer? && OrderCurrent(w, nn, r.base)
    case OAddFinalizer => r.AddFinalizer? && OrderCurrent(w, nn, r.base)
    case OResolve(d) =>
      r.Resolving? && |r.daws| < |r.base.spec.artifacts| && O.Resolves(r.base.spec, |r.daws|, d)
    case OCreate(sha, spec) => MayCreate(w.codec, r, sha, spec)
    case ODelete(sha) => r.Main? && r.creates == {} && sha in r.deletes
    case OSync(sha, v) =>
      && r.Main? && r.creates == {} && r.deletes == {} && sha in r.syncs && sha in r.status
      && v in w.awLog && w.awLog[v].nn == AwName(nn, sha)
    case OWrite => O.ReadyToWrite(r) && OrderCurrent(w, nn, r.base)
    case OEnd => true
  }

  ghost predicate MayCreate(codec: Codec, r: O.OrderRun, sha: Sha, spec: AwSpec) {
    && r.Main? && sha in r.creates
    && sha in O.Desired(r.shas) && 0 <= O.Desired(r.shas)[sha] < |r.daws|
    && Hydrated(codec, r.daws[O.Desired(r.shas)[sha]], spec)
  }

  predicate AwEnabled(w: World, nn: NN, c: AwCall) {
    if c.AFetch? then
      && nn !in w.awRuns && c.version in w.awLog && w.awLog[c.version].nn == nn
      && Floor(w.awFloor, nn) <= c.version
    else nn in w.awRuns && AwCallEnabled(w, nn, w.awRuns[nn], c)
  }

  predicate AwCallEnabled(w: World, nn: NN, r: A.AwRun, c: AwCall) {
    match c
    case AFetch(_) => false
    case ACleanWorkflow => r.CleanWorkflow?
    case ADropFinalizer => r.DropFinalizer? && AwCurrent(w, nn, r.base)
    case AAddFinalizer => r.AddFinalizer? && AwCurrent(w, nn, r.base)
    case AGather(_) => r.Gather?
    case ALaunch => r.Launch?
    case ACheck(p) => r.Check? && (p.Unknown? || (nn, p) in w.reported)
    case ASetPhase => r.SetPhase? && AwCurrent(w, nn, r.base)
    case AEnd => true
  }

  ghost predicate Enabled(w: World, a: Action) {
    match a
    case User(u) => UserEnabled(w, u)
    case OrderWorker(nn, c) => OrderEnabled(w, nn, c)
    case AwWorker(nn, c) => AwEnabled(w, nn, c)
  }

  function SetOrderRun(w: World, nn: NN, r: O.OrderRun): World {
    w.(orderRuns := w.orderRuns[nn := r])
  }

  function EndOrderRun(w: World, nn: NN): World {
    w.(orderRuns := w.orderRuns - {nn})
  }

  function SetAwRun(w: World, nn: NN, r: A.AwRun): World {
    w.(awRuns := w.awRuns[nn := r])
  }

  function EndAwRun(w: World, nn: NN): World {
    w.(awRuns := w.awRuns - {nn})
  }

  function UserNext(w: World, a: UserAction): World
    requires UserEnabled(w, a)
  {
    match a
    case MakeOrder(nn, spec, f) => CreateOrder(w, nn, spec, f).(written := w.written[nn := spec])
    case EditOrder(nn, spec, f) =>
      SaveOrder(w, nn, w.orders[nn].(spec := spec, finalizers := f)).(written := w.written[nn := spec])
    case RemoveOrder(nn) => DeleteOrder(w, nn)
    case MakeAw(nn, spec, f) => CreateAw(w, nn, spec, f)
    case EditAw(nn, spec, f) =>
      SaveAw(w, nn, w.aws[nn].(spec := spec, finalizers := f)).(awWritten := w.awWritten[nn := spec])
    case RemoveAw(nn) => DeleteAw(w, nn)
    case Report(nn, p) => ReportPhase(w, nn, p)
  }

  function ReportPhase(w: World, nn: NN, p: Phase): World
    requires nn in w.wfs
  {
    w.(wfs := w.wfs[nn := w.wfs[nn].(phase := p)], reported := w.reported + {(nn, p)})
  }

  ghost function OrderNext(w: World, nn: NN, c: OrderCall): World
    requires OrderEnabled(w, nn, c)
  {
    match c
    case OFetch(v) => FetchOrder(w, nn, w.orderLog[v].order)
    case OCleanup(sha, delivered) => CleanupKey(w, nn, sha, delivered)
    case OWriteCleanup => WriteStatus(w, nn, w.orderRuns[nn].status)
    case ODropFinalizer => WriteFinalizers(w, nn, w.orderRuns[nn].base.finalizers - {O.ORDER_FINALIZER})
    case OAddFinalizer => WriteFinalizers(w, nn, w.orderRuns[nn].base.finalizers + {O.ORDER_FINALIZER})
    case OResolve(d) => ResolveKey(w, nn, d)
    case OCreate(sha, spec) => CreateKey(w, nn, sha, spec)
    case ODelete(sha) => DeleteKey(w, nn, sha)
    case OSync(sha, v) => SyncKey(w, nn, sha, w.awLog[v].aw.phase)
    case OWrite => WriteStatus(w, nn, O.Refresh(w.orderRuns[nn].status, O.Desired(w.orderRuns[nn].shas)))
    case OEnd => EndOrderRun(w, nn)
  }

  function AwNext(w: World, nn: NN, c: AwCall): World
    requires AwEnabled(w, nn, c)
  {
    match c
    case AFetch(v) => FetchAw(w, nn, w.awLog[v].aw)
    case ACleanWorkflow => CleanWorkflow(w, nn)
    case ADropFinalizer => WriteAwFinalizers(w, nn, w.awRuns[nn].base.finalizers - {A.AW_FINALIZER})
    case AAddFinalizer => WriteAwFinalizers(w, nn, w.awRuns[nn].base.finalizers + {A.AW_FINALIZER})
    case AGather(t) => Gathered(w, nn, t)
    case ALaunch => Launch(w, nn)
    case ACheck(p) => Checked(w, nn, p)
    case ASetPhase => WritePhase(w, nn)
    case AEnd => EndAwRun(w, nn)
  }

  ghost function Next(w: World, a: Action): World
    requires Enabled(w, a)
  {
    match a
    case User(u) => UserNext(w, u)
    case OrderWorker(nn, c) => OrderNext(w, nn, c)
    case AwWorker(nn, c) => AwNext(w, nn, c)
  }

  // --- Order controller ------------------------------------------------------------------------------

  function FetchOrder(w: World, nn: NN, o: O.Order): World {
    w.(orderRuns := if O.Begin(o).Some? then w.orderRuns[nn := O.Begin(o).value] else w.orderRuns)
  }

  // The cleanup loop ignores errors: a Delete that was not delivered still removes the key.
  function CleanupKey(w: World, nn: NN, sha: Sha, delivered: bool): World
    requires nn in w.orderRuns && w.orderRuns[nn].Cleanup?
  {
    var r := w.orderRuns[nn];
    SetOrderRun(if delivered then DeleteAw(w, AwName(nn, sha)) else w, nn, O.Cleanup(r.base, r.status - {sha}))
  }

  // The status endpoint keeps the stored spec.
  function WriteStatus(w: World, nn: NN, status: Status): World
    requires nn in w.orderRuns && nn in w.orders
  {
    EndOrderRun(SaveOrder(w, nn, w.orderRuns[nn].base.(status := status, spec := w.orders[nn].spec)), nn)
  }

  // A plain update writes the whole object as it was read.
  function WriteFinalizers(w: World, nn: NN, f: set<string>): World
    requires nn in w.orderRuns
  {
    EndOrderRun(SaveOrder(w, nn, w.orderRuns[nn].base.(finalizers := f)), nn)
  }

  function ResolveKey(w: World, nn: NN, d: Daw): World
    requires nn in w.orderRuns && w.orderRuns[nn].Resolving?
  {
    SetOrderRun(w, nn, O.AfterResolve(w.orderRuns[nn], d, HashOf(w.codec, nn.ns, d)))
  }

  function CreateKey(w: World, nn: NN, sha: Sha, spec: AwSpec): World
    requires nn in w.orderRuns && w.orderRuns[nn].Main? && sha in O.Desired(w.orderRuns[nn].shas)
  {
    var target := AwName(nn, sha);
    SetOrderRun(CreateAw(w, target, spec, {}), nn, O.AfterCreate(w.orderRuns[nn], sha, target !in w.aws))
  }

  function DeleteKey(w: World, nn: NN, sha: Sha): World
    requires nn in w.orderRuns && w.orderRuns[nn].Main?
  {
    SetOrderRun(DeleteAw(w, AwName(nn, sha)), nn, O.AfterDelete(w.orderRuns[nn], sha))
  }

  function SyncKey(w: World, nn: NN, sha: Sha, phase: Phase): World
    requires nn in w.orderRuns && w.orderRuns[nn].Main? && sha in w.orderRuns[nn].status
  {
    SetOrderRun(w, nn, O.AfterSync(w.orderRuns[nn], sha, phase))
  }

  // --- ArtifactWorkflow controller --------------------------------------------------------------------

  function FetchAw(w: World, nn: NN, a: A.Aw): World {
    w.(awFloor := w.awFloor[nn := a.version],
       awRuns := if A.Begin(a).Some? then w.awRuns[nn := A.Begin(a).value] else w.awRuns)
  }

  function CleanWorkflow(w: World, nn: NN): World
    requires nn in w.awRuns && w.awRuns[nn].CleanWorkflow?
  {
    var base := w.awRuns[nn].base;
    w.(wfs := w.wfs - {nn},
       awRuns := if A.AW_FINALIZER in base.finalizers then w.awRuns[nn := A.DropFinalizer(base)] else w.awRuns - {nn})
  }

  function WriteAwFinalizers(w: World, nn: NN, f: set<string>): World
    requires nn in w.awRuns
  {
    EndAwRun(SaveAw(w, nn, w.awRuns[nn].base.(finalizers := f)), nn)
  }

  function Gathered(w: World, nn: NN, t: ArtifactType): World
    requires nn in w.awRuns
  {
    var base := w.awRuns[nn].base;
    SetAwRun(w, nn, A.Launch(base, WorkflowOf(base.spec, t, base.spec.srcSecret, base.spec.dstSecret)))
  }

  // AlreadyExists counts as success.
  function Launch(w: World, nn: NN): World
    requires nn in w.awRuns && w.awRuns[nn].Launch?
  {
    var r := w.awRuns[nn];
    w.(awRuns := w.awRuns[nn := A.SetPhase(r.base, Pending)],
       wfs := if nn in w.wfs then w.wfs else w.wfs[nn := Workflow(r.wf, Unknown)],
       launched := if nn in w.wfs then w.launched else w.launched + {(nn, r.base.uid)},
       wfSeen := if nn in w.wfs then w.wfSeen else w.wfSeen[nn := Unknown])
  }

  function Checked(w: World, nn: NN, p: Phase): World
    requires nn in w.awRuns
  {
    w.(awRuns := w.awRuns[nn := A.SetPhase(w.awRuns[nn].base, p)], wfSeen := w.wfSeen[nn := p])
  }

  function WritePhase(w: World, nn: NN): World
    requires nn in w.awRuns && w.awRuns[nn].SetPhase? && nn in w.aws
  {
    var r := w.awRuns[nn];
    EndAwRun(SaveAw(w, nn, r.base.(phase := r.phase, spec := w.aws[nn].spec)), nn)
  }
}
