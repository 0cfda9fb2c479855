/** Which actions leave the Order side, or the ArtifactWorkflow side, of the cluster alone. */
module Frames {
  import opened Types
  import opened Cluster
  import O = OrderRun
  import A = AwRun

  // The ArtifactWorkflow side is untouched, apart from the clock.
  ghost predicate SameAwSide(w: World, n: World) {
    && n.aws == w.aws && n.wfs == w.wfs && n.awLog == w.awLog && n.awFloor == w.awFloor && n.awRuns == w.awRuns
    && n.launched == w.launched && n.reported == w.reported && n.awWritten == w.awWritten && n.wfSeen == w.wfSeen
    && w.clock <= n.clock
  }

  // Likewise the Order side; Argo may have reported more.
  ghost predicate SameOrderSide(w: World, n: World) {
    && n.codec == w.codec && n.orders == w.orders && n.orderLog == w.orderLog && n.orderRuns == w.orderRuns
    && n.written == w.written && w.reported <= n.reported && w.clock <= n.clock
  }

  // ---------------------------------------------------------------------------------------------------
  // Writes to Orders
  // ---------------------------------------------------------------------------------------------------

  lemma OrderWritesApart(w: World, nn: NN, status: Status, f: set<string>)
    requires nn in w.orderRuns
    ensures nn in w.orders ==> SameAwSide(w, WriteStatus(w, nn, status))
    ensures SameAwSide(w, WriteFinalizers(w, nn, f))
  {
  }

  // The other calls of an Order reconcile do not reach the ArtifactWorkflow side.
  lemma OrderWriteCallsApart(w: World, nn: NN, c: OrderCall)
    requires OrderEnabled(w, nn, c) && (c.OWriteCleanup? || c.ODropFinalizer? || c.OAddFinalizer? || c.OWrite?)
    ensures SameAwSide(w, OrderNext(w, nn, c))
  {
    var r := w.orderRuns[nn];
    match c
    case OWriteCleanup => OrderWritesApart(w, nn, r.status, {});
    case ODropFinalizer => OrderWritesApart(w, nn, map[], r.base.finalizers - {O.ORDER_FINALIZER});
    case OAddFinalizer => OrderWritesApart(w, nn, map[], r.base.finalizers + {O.ORDER_FINALIZER});
    case OWrite => OrderWritesApart(w, nn, O.Refresh(r.status, O.Desired(r.shas)), {});
  }

  lemma OrderReadCallsApart(w: World, nn: NN, c: OrderCall)
    requires OrderEnabled(w, nn, c) && (c.OFetch? || c.OResolve? || c.OSync? || c.OEnd?)
    ensures SameAwSide(w, OrderNext(w, nn, c))
  {
  }

  lemma OrderCallsApart(w: World, nn: NN, c: OrderCall)
    requires OrderEnabled(w, nn, c) && !c.OCleanup? && !c.OCreate? && !c.ODelete?
    ensures SameAwSide(w, OrderNext(w, nn, c))
  {
    if c.OWriteCleanup? || c.ODropFinalizer? || c.OAddFinalizer? || c.OWrite? {
      OrderWriteCallsApart(w, nn, c);
    } else {
      OrderReadCallsApart(w, nn, c);
    }
  }

  lemma UserOrdersApart(w: World, a: UserAction)
    requires UserEnabled(w, a) && (a.MakeOrder? || a.EditOrder? || a.RemoveOrder?)
    ensures SameAwSide(w, UserNext(w, a))
  {
  }

  // ---------------------------------------------------------------------------------------------------
  // Writes to ArtifactWorkflows
  // ---------------------------------------------------------------------------------------------------

  lemma DeleteAwApart(w: World, nn: NN)
    ensures SameOrderSide(w, DeleteAw(w, nn))
  {
  }

  lemma AwCallsApart(w: World, nn: NN, c: AwCall)
    requires AwEnabled(w, nn, c)
    ensures SameOrderSide(w, AwNext(w, nn, c))
  {
  }

  lemma UserAwsApart(w: World, a: UserAction)
    requires UserEnabled(w, a) && (a.MakeAw? || a.EditAw? || a.RemoveAw? || a.Report?)
    ensures SameOrderSide(w, UserNext(w, a))
  {
  }

  // ---------------------------------------------------------------------------------------------------
  // Who changes what
  // ---------------------------------------------------------------------------------------------------

  ghost predicate SameEngine(w: World, n: World) {
    && n.wfs == w.wfs && n.reported == w.reported && n.launched == w.launched
  }

  lemma OrderKeepsEngine(w: World, nn: NN, c: OrderCall)
    requires OrderEnabled(w, nn, c)
    ensures SameEngine(w, OrderNext(w, nn, c))
  {
    match c
    case OCleanup(sha, delivered) => KeyCallsEngine(w, nn, sha, delivered);
    case ODelete(sha) => KeyCallsEngine(w, nn, sha, true);
    case OCreate(sha, spec) => CreateKeyEngine(w, nn, sha, spec);
    case _ => OrderCallsApart(w, nn, c);
  }

  lemma KeyCallsEngine(w: World, nn: NN, sha: Sha, delivered: bool)
    requires nn in w.orderRuns
    ensures w.orderRuns[nn].Cleanup? ==> SameEngine(w, CleanupKey(w, nn, sha, delivered))
    ensures w.orderRuns[nn].Main? ==> SameEngine(w, DeleteKey(w, nn, sha))
  {
    DeleteAwEngine(w, AwName(nn, sha));
  }

  lemma DeleteAwEngine(w: World, nn: NN)
    ensures SameEngine(w, DeleteAw(w, nn))
  {
  }

  lemma CreateKeyEngine(w: World, nn: NN, sha: Sha, spec: AwSpec)
    requires nn in w.orderRuns && w.orderRuns[nn].Main? && sha in O.Desired(w.orderRuns[nn].shas)
    ensures SameEngine(w, CreateKey(w, nn, sha, spec))
  {
  }

  lemma UserKeepsEngine(w: World, a: UserAction)
    requires UserEnabled(w, a) && !a.Report?
    ensures SameEngine(w, UserNext(w, a))
  {
  }

  lemma AwCallsEngine(w: World, nn: NN, c: AwCall)
    requires AwEnabled(w, nn, c)
    ensures AwNext(w, nn, c).reported == w.reported
    ensures w.launched <= AwNext(w, nn, c).launched
    ensures forall x :: x !in w.wfs && x in AwNext(w, nn, c).wfs ==> x == nn && c.ALaunch?
  {
  }

  lemma ReportsComeFromArgo(w: World, a: Action, nn: NN, p: Phase)
    requires Enabled(w, a) && (nn, p) !in w.reported && (nn, p) in Next(w, a).reported
    ensures a == User(Report(nn, p)) && nn in Next(w, a).wfs && Next(w, a).wfs[nn].phase == p
  {
    match a
    case User(u) => if !u.Report? { UserKeepsEngine(w, u); }
    case OrderWorker(m, c) => OrderKeepsEngine(w, m, c);
    case AwWorker(m, c) => AwCallsEngine(w, m, c);
  }

  lemma WorkflowsComeFromLaunch(w: World, a: Action, nn: NN)
    requires Enabled(w, a) && nn !in w.wfs && nn in Next(w, a).wfs
    ensures a == AwWorker(nn, ALaunch)
  {
    match a
    case User(u) => if !u.Report? { UserKeepsEngine(w, u); }
    case OrderWorker(m, c) => OrderKeepsEngine(w, m, c);
    case AwWorker(m, c) => AwCallsEngine(w, m, c);
  }

  lemma LaunchedGrows(w: World, a: Action)
    requires Enabled(w, a)
    ensures w.launched <= Next(w, a).launched
  {
    match a
    case User(u) => if !u.Report? { UserKeepsEngine(w, u); }
    case OrderWorker(m, c) => OrderKeepsEngine(w, m, c);
    case AwWorker(m, c) => AwCallsEngine(w, m, c);
  }

  // --- The log of ArtifactWorkflow versions only grows ------------------------------------------------

  ghost predicate LogGrows(w: World, n: World) {
    forall v :: v in w.awLog ==> v in n.awLog && n.awLog[v] == w.awLog[v]
  }

  lemma DeleteGrows(w: World, nn: NN)
    requires w.clock !in w.awLog
    ensures LogGrows(w, DeleteAw(w, nn))
  {
  }

  lemma OrderCallsGrow(w: World, nn: NN, c: OrderCall)
    requires w.clock !in w.awLog && OrderEnabled(w, nn, c)
    ensures LogGrows(w, OrderNext(w, nn, c))
  {
    if c.OCleanup? || c.ODelete? {
      DeleteGrows(w, AwName(nn, c.sha));
    } else if !c.OCreate? {
      OrderCallsApart(w, nn, c);
    }
  }

  lemma AwCallsGrow(w: World, nn: NN, c: AwCall)
    requires w.clock !in w.awLog && AwEnabled(w, nn, c)
    ensures LogGrows(w, AwNext(w, nn, c))
  {
  }

  lemma UserGrows(w: World, a: UserAction)
    requires w.clock !in w.awLog && UserEnabled(w, a)
    ensures LogGrows(w, UserNext(w, a))
  {
  }

  lemma AwLogGrows(w: World, a: Action)
    requires w.clock !in w.awLog && Enabled(w, a)
    ensures LogGrows(w, Next(w, a))
  {
    match a
    case User(u) => UserGrows(w, u);
    case OrderWorker(nn, c) => OrderCallsGrow(w, nn, c);
    case AwWorker(nn, c) => AwCallsGrow(w, nn, c);
  }

  // --- The Order side of an Order reconcile -----------------------------------------------------------

  // What each call makes of the reconcile in flight.
  ghost function RunAfter(w: World, nn: NN, c: OrderCall): Option<O.OrderRun>
    requires OrderEnabled(w, nn, c)
  {
    match c
    case OFetch(v) => O.Begin(w.orderLog[v].order)
    case OCleanup(sha, _) => Some(O.Cleanup(w.orderRuns[nn].base, w.orderRuns[nn].status - {sha}))
    case OResolve(d) => Some(O.AfterResolve(w.orderRuns[nn], d, HashOf(w.codec, nn.ns, d)))
    case OCreate(sha, _) => Some(O.AfterCreate(w.orderRuns[nn], sha, AwName(nn, sha) !in w.aws))
    case ODelete(sha) => Some(O.AfterDelete(w.orderRuns[nn], sha))
    case OSync(sha, v) => Some(O.AfterSync(w.orderRuns[nn], sha, w.awLog[v].aw.phase))
    case _ => None
  }

  ghost predicate RunIs(runs: map<NN, O.OrderRun>, nn: NN, r: Option<O.OrderRun>) {
    (nn in runs <==> r.Some?) && (nn in runs ==> runs[nn] == r.value)
  }

  ghost predicate OthersSame(w: World, n: World, nn: NN) {
    forall m :: m != nn ==>
      (m in n.orderRuns <==> m in w.orderRuns) && (m in n.orderRuns ==> n.orderRuns[m] == w.orderRuns[m])
  }

  lemma KeyCallsRun(w: World, nn: NN, sha: Sha, delivered: bool)
    requires nn in w.orderRuns
    ensures w.orderRuns[nn].Cleanup? ==>
              var n := CleanupKey(w, nn, sha, delivered);
              && n.orderRuns == w.orderRuns[nn := O.Cleanup(w.orderRuns[nn].base, w.orderRuns[nn].status - {sha})]
              && n.written == w.written && n.orders == w.orders
    ensures w.orderRuns[nn].Main? ==>
              var n := DeleteKey(w, nn, sha);
              && n.orderRuns == w.orderRuns[nn := O.AfterDelete(w.orderRuns[nn], sha)]
              && n.written == w.written && n.orders == w.orders
  {
  }

  lemma CreateKeyRun(w: World, nn: NN, sha: Sha, spec: AwSpec)
    requires nn in w.orderRuns && w.orderRuns[nn].Main? && sha in O.Desired(w.orderRuns[nn].shas)
    ensures var n := CreateKey(w, nn, sha, spec);
            && n.orderRuns == w.orderRuns[nn := O.AfterCreate(w.orderRuns[nn], sha, AwName(nn, sha) !in w.aws)]
            && n.written == w.written && n.orders == w.orders
  {
  }

  lemma StatusRun(w: World, nn: NN, status: Status)
    requires nn in w.orderRuns && nn in w.orders
    ensures var n := WriteStatus(w, nn, status);
            && n.orderRuns == w.orderRuns - {nn} && n.written == w.written
            && n.orders == SaveOrder(w, nn, w.orderRuns[nn].base.(status := status, spec := w.orders[nn].spec)).orders
  {
  }

  // The object a call writes, if it writes the Order.
  ghost function WrittenOrder(w: World, nn: NN, c: OrderCall): Option<O.Order>
    requires OrderEnabled(w, nn, c)
  {
    match c
    case OWriteCleanup => Some(w.orderRuns[nn].base.(status := w.orderRuns[nn].status, spec := w.orders[nn].spec))
    case OWrite =>
      Some(w.orderRuns[nn].base.(status := O.Refresh(w.orderRuns[nn].status, O.Desired(w.orderRuns[nn].shas)),
                                 spec := w.orders[nn].spec))
    case ODropFinalizer =>
      Some(w.orderRuns[nn].base.(finalizers := w.orderRuns[nn].base.finalizers - {O.ORDER_FINALIZER}))
    case OAddFinalizer =>
      Some(w.orderRuns[nn].base.(finalizers := w.orderRuns[nn].base.finalizers + {O.ORDER_FINALIZER}))
    case _ => None
  }

  lemma OrderWritesAre(w: World, nn: NN, c: OrderCall)
    requires OrderEnabled(w, nn, c) && WrittenOrder(w, nn, c).Some?
    ensures var n := OrderNext(w, nn, c);
            && n.orderRuns == w.orderRuns - {nn} && n.written == w.written
            && n.orders == SaveOrder(w, nn, WrittenOrder(w, nn, c).value).orders
  {
  }

  lemma OrderReadsAre(w: World, nn: NN, c: OrderCall)
    requires OrderEnabled(w, nn, c) && WrittenOrder(w, nn, c).None?
    ensures var n := OrderNext(w, nn, c);
            && n.orders == w.orders && n.written == w.written
            && RunIs(n.orderRuns, nn, RunAfter(w, nn, c)) && OthersSame(w, n, nn)
  {
    match c
    case OCleanup(sha, delivered) => KeyCallsRun(w, nn, sha, delivered);
    case OCreate(sha, spec) => CreateKeyRun(w, nn, sha, spec);
    case ODelete(sha) => KeyCallsRun(w, nn, sha, true);
    case _ =>
  }

  // --- The Order side of the other actions ------------------------------------------------------------

  lemma UserKeepsRuns(w: World, a: UserAction)
    requires UserEnabled(w, a)
    ensures UserNext(w, a).orderRuns == w.orderRuns
  {
  }

  lemma SaveOrderAt(w: World, m: NN, o: O.Order, nn: NN)
    ensures var n := SaveOrder(w, m, o).orders;
            if nn != m then (nn in n <==> nn in w.orders) && (nn in n ==> n[nn] == w.orders[nn])
            else if o.deleting && o.finalizers == {} then nn !in n
            else nn in n && n[nn] == o.(version := w.clock)
  {
  }

  // Users change neither a status nor the controller's finalizer.
  lemma UserOrderChanges(w: World, a: UserAction, nn: NN)
    requires UserEnabled(w, a) && nn in w.orders
    ensures var n := UserNext(w, a);
            && (nn in n.orders ==> n.orders[nn].status == w.orders[nn].status)
            && (O.ORDER_FINALIZER in w.orders[nn].finalizers ==>
                  nn in n.orders && O.ORDER_FINALIZER in n.orders[nn].finalizers)
  {
  }

  // Only users change the record of user-written specs.
  lemma WrittenByUsers(w: World, a: Action, nn: NN)
    requires Enabled(w, a)
    ensures Next(w, a).written ==
            match a
            case User(MakeOrder(m, spec, _)) => w.written[m := spec]
            case User(EditOrder(m, spec, _)) => w.written[m := spec]
            case _ => w.written
  {
    match a
    case User(u) => UserWritten(w, u);
    case AwWorker(m, c) => AwCallsApart(w, m, c);
    case OrderWorker(m, c) =>
      if WrittenOrder(w, m, c).Some? { OrderWritesAre(w, m, c); } else { OrderReadsAre(w, m, c); }
  }

  lemma UserWritten(w: World, a: UserAction)
    requires UserEnabled(w, a)
    ensures UserNext(w, a).written ==
            match a
            case MakeOrder(m, spec, _) => w.written[m := spec]
            case EditOrder(m, spec, _) => w.written[m := spec]
            case _ => w.written
  {
  }

  // --- Writes to ArtifactWorkflows, name by name ------------------------------------------------------

  lemma SaveAwAt(w: World, m: NN, a: A.Aw, x: NN)
    ensures var n := SaveAw(w, m, a).aws;
            if x != m then SameIn(w.aws, n, x)
            else if a.deleting && a.finalizers == {} then x !in n
            else x in n && n[x] == a.(version := w.clock)
  {
  }

  lemma DeleteAwAt(w: World, m: NN, x: NN)
    ensures var n := DeleteAw(w, m).aws;
            if x != m || m !in w.aws || w.aws[m].deleting then SameIn(w.aws, n, x)
            else if w.aws[m].finalizers == {} then x !in n
            else x in n && n[x] == w.aws[m].(deleting := true, version := w.clock)
  {
    if m in w.aws {
      SaveAwAt(w, m, w.aws[m].(deleting := true), x);
    }
  }

  // The object a call of the ArtifactWorkflow controller writes, if it writes one.
  function WrittenAw(w: World, nn: NN, c: AwCall): Option<A.Aw>
    requires AwEnabled(w, nn, c)
  {
    match c
    case ADropFinalizer => Some(w.awRuns[nn].base.(finalizers := w.awRuns[nn].base.finalizers - {A.AW_FINALIZER}))
    case AAddFinalizer => Some(w.awRuns[nn].base.(finalizers := w.awRuns[nn].base.finalizers + {A.AW_FINALIZER}))
    case ASetPhase => Some(w.awRuns[nn].base.(phase := w.awRuns[nn].phase, spec := w.aws[nn].spec))
    case _ => None
  }

  lemma AwWritesAre(w: World, nn: NN, c: AwCall)
    requires AwEnabled(w, nn, c)
    ensures var a := WrittenAw(w, nn, c);
            AwNext(w, nn, c).aws == if a.Some? then SaveAw(w, nn, a.value).aws else w.aws
  {
  }

  // --- ArtifactWorkflows touched by a reconcile -------------------------------------------------------

  lemma KeyCallsTouch(w: World, nn: NN, sha: Sha, delivered: bool, x: NN)
    requires nn in w.orderRuns && x != AwName(nn, sha)
    ensures w.orderRuns[nn].Cleanup? ==> SameIn(w.aws, CleanupKey(w, nn, sha, delivered).aws, x)
    ensures w.orderRuns[nn].Main? ==> SameIn(w.aws, DeleteKey(w, nn, sha).aws, x)
  {
    DeleteAwAt(w, AwName(nn, sha), x);
  }

  lemma CreateKeyTouches(w: World, nn: NN, sha: Sha, spec: AwSpec, x: NN)
    requires nn in w.orderRuns && w.orderRuns[nn].Main? && sha in O.Desired(w.orderRuns[nn].shas)
    requires x != AwName(nn, sha)
    ensures SameIn(w.aws, CreateKey(w, nn, sha, spec).aws, x)
  {
  }

  // An Order reconcile creates and deletes ArtifactWorkflows of its own name only.
  lemma OrderTouchesOwnAws(w: World, nn: NN, c: OrderCall, x: NN)
    requires OrderEnabled(w, nn, c) && forall s: Sha :: AwName(nn, s) != x
    ensures SameIn(w.aws, OrderNext(w, nn, c).aws, x)
    ensures c.OSync? ==> w.awLog[c.version].nn != x
  {
    match c
    case OCleanup(sha, delivered) => KeyCallsTouch(w, nn, sha, delivered, x);
    case ODelete(sha) => KeyCallsTouch(w, nn, sha, true, x);
    case OCreate(sha, spec) => CreateKeyTouches(w, nn, sha, spec, x);
    case _ => OrderCallsApart(w, nn, c);
  }

  // Controllers record a spec only for ArtifactWorkflows they create.
  lemma AwWrittenByOwners(w: World, a: Action, nn: NN)
    requires Enabled(w, a) && !a.User? && nn in w.aws && nn in w.awWritten
    ensures nn in Next(w, a).awWritten && Next(w, a).awWritten[nn] == w.awWritten[nn]
  {
    match a
    case OrderWorker(m, c) => OrderKeepsAwWritten(w, m, c, nn);
    case AwWorker(m, c) => AwCallsWritten(w, m, c);
  }

  lemma KeyCallsWritten(w: World, nn: NN, sha: Sha, delivered: bool)
    requires nn in w.orderRuns
    ensures w.orderRuns[nn].Cleanup? ==> CleanupKey(w, nn, sha, delivered).awWritten == w.awWritten
    ensures w.orderRuns[nn].Main? ==> DeleteKey(w, nn, sha).awWritten == w.awWritten
  {
  }

  lemma CreateKeyWritten(w: World, m: NN, sha: Sha, spec: AwSpec, nn: NN)
    requires m in w.orderRuns && w.orderRuns[m].Main? && sha in O.Desired(w.orderRuns[m].shas)
    requires nn in w.aws && nn in w.awWritten
    ensures nn in CreateKey(w, m, sha, spec).awWritten && CreateKey(w, m, sha, spec).awWritten[nn] == w.awWritten[nn]
  {
  }

  lemma OtherCallsWritten(w: World, nn: NN, c: OrderCall)
    requires OrderEnabled(w, nn, c) && !c.OCreate?
    ensures OrderNext(w, nn, c).awWritten == w.awWritten
  {
    match c
    case OCleanup(sha, delivered) => KeyCallsWritten(w, nn, sha, delivered);
    case ODelete(sha) => KeyCallsWritten(w, nn, sha, true);
    case _ =>
  }

  lemma OrderKeepsAwWritten(w: World, m: NN, c: OrderCall, nn: NN)
    requires OrderEnabled(w, m, c) && nn in w.aws && nn in w.awWritten
    ensures nn in OrderNext(w, m, c).awWritten && OrderNext(w, m, c).awWritten[nn] == w.awWritten[nn]
  {
    if c.OCreate? {
      CreateKeyWritten(w, m, c.sha, c.awSpec, nn);
    } else {
      OtherCallsWritten(w, m, c);
    }
  }

  lemma AwCallsWritten(w: World, nn: NN, c: AwCall)
    requires AwEnabled(w, nn, c)
    ensures AwNext(w, nn, c).awWritten == w.awWritten
  {
  }
}
