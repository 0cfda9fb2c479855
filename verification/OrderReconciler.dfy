/** The Order reconciler, in the shape of its source: a Get, then the deletion path, the finalizer, or the main path. */
module OrderReconciler {
  import opened Types
  import opened Params
  import opened Cluster
  import opened ApiClient
  import opened OrderEffects
  import O = OrderRun

  datatype Result = Ok | Requeue | Err

  // What no Order reconcile touches.
  ghost predicate Frame(w: World, n: World) {
    n.codec == w.codec && n.wfs == w.wfs && n.awRuns == w.awRuns && n.awFloor == w.awFloor && n.written == w.written
  }

  // The worker of `nn` is at this point of its reconcile, and its Order is stored as it was read.
  ghost predicate At(w: World, nn: NN, r: O.OrderRun) {
    nn in w.orderRuns && w.orderRuns[nn] == r && nn in w.orders && w.orders[nn] == r.base
  }

  // What a reconcile has done when it returns `r`: one that succeeds has exactly the effect `Completed`; one that fails
  // has been cut off, or is complete and did not get the response to its last write. If no call fails by itself it
  // succeeds if and only if the Order is `Ready`, and a deleting Order's ArtifactWorkflows have all got their Deletes.
  // It asks to be called again exactly after a cleanup.
  ghost predicate Returns(s: Snapshot, was: World, w: World, nn: NN, r: Result, reliable: bool) {
    && (Completed(s, was, w, nn) || (r == Err && CutOff(s, was, w, nn)))
    && (r != Err ==> (r == Requeue <==> nn in was.orders && was.orders[nn].deleting && was.orders[nn].status != map[]))
    && (reliable ==> (r != Err <==> Ready(s, was, nn)))
    && (reliable && nn in was.orders && was.orders[nn].deleting ==>
          Deleted(was.aws, w.aws, nn, was.orders[nn].status.Keys))
  }

  method Reconcile(c: Client, nn: NN) returns (r: Result)
    requires c.Valid() && nn !in c.w.orderRuns
    modifies c
    ensures c.Valid() && nn !in c.w.orderRuns && Frame(old(c.w), c.w)
    ensures Returns(c.snapshot, old(c.w), c.w, nn, r, c.reliable)
  {
    var reply := c.GetOrder(nn);
    if !reply.Got? {
      r := if reply.Missing? then Ok else Err;
      NothingReturned(c.snapshot, c.w, nn, r, c.reliable);
      return;
    }
    var order := reply.obj;

    if order.deleting {
      r := CleanUp(c, nn, old(c.w), order);
      return;
    }

    r := Advance(c, nn, old(c.w), order);
  }

  // A reconcile that fails at its first call is cut off, one that finds no Order is complete.
  lemma NothingReturned(s: Snapshot, w: World, nn: NN, r: Result, reliable: bool)
    requires if r == Ok then nn !in w.orders else r == Err && !reliable
    ensures Returns(s, w, w, nn, r, reliable)
  {
    NothingDeleted(w.aws, nn);
    if nn in w.orders && ResolveAll(s, nn.ns, w.orders[nn].spec).Some? {
      NothingDoneYet(JobOf(w, nn, ResolveAll(s, nn.ns, w.orders[nn].spec).value));
    }
  }

  // An Order that is not being deleted: the finalizer first, the main path once it is there.
  method Advance(c: Client, nn: NN, ghost was: World, order: O.Order) returns (r: Result)
    requires c.Valid() && nn in was.orders && was.orders[nn] == order && !order.deleting && nn !in was.orderRuns
    requires c.w == FetchOrder(was, nn, order)
    modifies c
    ensures c.Valid() && nn !in c.w.orderRuns && Frame(was, c.w)
    ensures Returns(c.snapshot, was, c.w, nn, r, c.reliable)
  {
    var ok;
    ghost var done;
    if O.ORDER_FINALIZER !in order.finalizers {
      ok, done := WriteFinalizers(c, nn, order, order.finalizers + {O.ORDER_FINALIZER});
      FinalizerReturns(c.snapshot, was, c.w, nn, ok, done, c.reliable);
    } else {
      ok, done := MainPath(c, nn, order);
      SameStart(c.snapshot, was, FetchOrder(was, nn, order), c.w, nn, done);
      MainReturns(c.snapshot, was, c.w, nn, ok, done, c.reliable);
    }
    return if ok then Ok else Err;
  }

  lemma FinalizerReturns(s: Snapshot, was: World, w: World, nn: NN, ok: bool, done: bool, reliable: bool)
    requires nn in was.orders && w.aws == was.aws && (reliable ==> ok) && (ok ==> done)
    requires var o := was.orders[nn];
             && (if o.deleting then o.status == map[] && O.ORDER_FINALIZER in o.finalizers
                 else O.ORDER_FINALIZER !in o.finalizers)
             && var f := {O.ORDER_FINALIZER};
             var finalizers := if o.deleting then o.finalizers - f else o.finalizers + f;
             if done then Saved(was.orders, w.orders, nn, o.(finalizers := finalizers)) else w.orders == was.orders
    ensures Returns(s, was, w, nn, if ok then Ok else Err, reliable)
  {
    NothingDeleted(was.aws, nn);
  }

  lemma MainReturns(s: Snapshot, was: World, w: World, nn: NN, ok: bool, done: bool, reliable: bool)
    requires nn in was.orders && !was.orders[nn].deleting && O.ORDER_FINALIZER in was.orders[nn].finalizers
    requires MainEnds(s, was, w, nn, done) && (ok ==> done) && (reliable ==> (ok <==> MainCan(s, was, nn)))
    ensures Returns(s, was, w, nn, if ok then Ok else Err, reliable)
  {
  }

  // An Order that is being deleted: cleanup of the tracked keys, then the finalizer.
  method CleanUp(c: Client, nn: NN, ghost was: World, order: O.Order) returns (r: Result)
    requires c.Valid() && nn in was.orders && was.orders[nn] == order && order.deleting && nn !in was.orderRuns
    requires c.w == FetchOrder(was, nn, order)
    modifies c
    ensures c.Valid() && nn !in c.w.orderRuns && Frame(was, c.w)
    ensures Returns(c.snapshot, was, c.w, nn, r, c.reliable)
  {
    if order.status != map[] {
      var ok, done, delivered := CleanupTracked(c, nn, order);
      CleanupReturns(c.snapshot, was, c.w, nn, ok, done, c.reliable);
      return if ok then Requeue else Err;
    }
    if O.ORDER_FINALIZER in order.finalizers {
      var ok, done := WriteFinalizers(c, nn, order, order.finalizers - {O.ORDER_FINALIZER});
      FinalizerReturns(c.snapshot, was, c.w, nn, ok, done, c.reliable);
      return if ok then Ok else Err;
    }
    IdleReturns(c.snapshot, was, c.w, nn, c.reliable);
    return Ok;
  }

  lemma IdleReturns(s: Snapshot, was: World, w: World, nn: NN, reliable: bool)
    requires nn in was.orders && was.orders[nn].deleting && was.orders[nn].status == map[] && Unchanged(was, w)
    requires O.ORDER_FINALIZER !in was.orders[nn].finalizers
    ensures Returns(s, was, w, nn, Ok, reliable)
  {
    NothingDeleted(was.aws, nn);
  }

  lemma CleanupReturns(s: Snapshot, was: World, w: World, nn: NN, ok: bool, done: bool, reliable: bool)
    requires nn in was.orders && was.orders[nn].deleting && was.orders[nn].status != map[] && (ok ==> done)
    requires var o := was.orders[nn];
             && Cleaned(was.aws, w.aws, nn, o.status.Keys)
             && (if done then Saved(was.orders, w.orders, nn, o.(status := map[])) else w.orders == was.orders)
             && (reliable ==> ok && Deleted(was.aws, w.aws, nn, o.status.Keys))
    ensures Returns(s, was, w, nn, if ok then Requeue else Err, reliable)
  {
  }

  method WriteFinalizers(c: Client, nn: NN, order: O.Order, f: set<string>) returns (ok: bool, ghost done: bool)
    requires c.Valid()
    requires || (At(c.w, nn, O.DropFinalizer(order)) && f == order.finalizers - {O.ORDER_FINALIZER})
             || (At(c.w, nn, O.AddFinalizer(order)) && f == order.finalizers + {O.ORDER_FINALIZER})
    modifies c
    ensures c.Valid() && nn !in c.w.orderRuns && Frame(old(c.w), c.w) && c.w.aws == old(c.w).aws
    ensures if done then Saved(old(c.w).orders, c.w.orders, nn, order.(finalizers := f))
            else c.w.orders == old(c.w).orders
    ensures (ok ==> done) && (c.reliable ==> ok)
  {
    var answer;
    answer, done := c.UpdateOrderFinalizers(nn, f);
    SaveOrderSaves(old(c.w), nn, order.(finalizers := f));
    ok := answer.Done?;
    if !ok {
      c.ReturnOrder(nn);
    }
  }

  // ---------------------------------------------------------------------------------------------------
  // Deletion
  // ---------------------------------------------------------------------------------------------------

  // The keys in `status` are still to be deleted; Deletes for the keys `delivered` got through.
  ghost predicate Cleaning(was: World, w: World, nn: NN, order: O.Order, status: Status, delivered: set<Sha>,
                           reliable: bool)
  {
    && At(w, nn, O.Cleanup(order, status)) && Frame(was, w) && w.orders == was.orders
    && status.Keys <= order.status.Keys
    && delivered <= order.status.Keys - status.Keys && Deleted(was.aws, w.aws, nn, delivered)
    && (reliable ==> delivered == order.status.Keys - status.Keys)
  }

  method CleanupTracked(c: Client, nn: NN, order: O.Order)
    returns (ok: bool, ghost done: bool, ghost delivered: set<Sha>)
    requires c.Valid() && At(c.w, nn, O.Cleanup(order, order.status))
    modifies c
    ensures c.Valid() && nn !in c.w.orderRuns && Frame(old(c.w), c.w)
    ensures delivered <= order.status.Keys && Deleted(old(c.w).aws, c.w.aws, nn, delivered)
    ensures if done then Saved(old(c.w).orders, c.w.orders, nn, order.(status := map[]))
            else c.w.orders == old(c.w).orders
    ensures (ok ==> done) && (c.reliable ==> ok && delivered == order.status.Keys)
  {
    var status := order.status;
    delivered := {};
    NothingDeleted(c.w.aws, nn);
    while status != map[]
      invariant c.Valid() && Cleaning(old(c.w), c.w, nn, order, status, delivered, c.reliable)
      decreases status.Keys
    {
      var sha: Sha :| sha in status;
      ghost var before := c.w;
      ghost var got := c.CleanupAw(nn, sha);
      CleanupExtends(old(c.w), before, nn, order, status, delivered, sha, got, c.reliable);
      assert sha !in status - {sha};
      status, delivered := status - {sha}, if got then delivered + {sha} else delivered;
    }
    assert order.status.Keys - status.Keys == order.status.Keys;
    SaveOrderSaves(c.w, nn, order.(status := map[]));
    var answer;
    answer, done := c.UpdateOrderStatus(nn, status);
    ok := answer.Done?;
    if !ok {
      c.ReturnOrder(nn);
    }
  }

  lemma CleanupExtends(was: World, w: World, nn: NN, order: O.Order, status: Status, delivered: set<Sha>, sha: Sha,
                       got: bool, reliable: bool)
    requires Cleaning(was, w, nn, order, status, delivered, reliable) && sha in status && (reliable ==> got)
    ensures Cleaning(was, CleanupKey(w, nn, sha, got), nn, order, status - {sha},
                     if got then delivered + {sha} else delivered, reliable)
  {
    if got {
      DeletedOneMore(was.aws, w, nn, delivered, sha);
    }
    OneMore(order.status.Keys, status.Keys, sha);
    assert (status - {sha}).Keys == status.Keys - {sha};
  }

  // ---------------------------------------------------------------------------------------------------
  // Main path
  // ---------------------------------------------------------------------------------------------------

  ghost predicate MainEnds(s: Snapshot, was: World, w: World, nn: NN, done: bool) {
    nn in was.orders &&
    var daws := ResolveAll(s, nn.ns, was.orders[nn].spec);
    if daws.None? then !done && Unchanged(was, w)
    else if done then MainDone(JobOf(was, nn, daws.value), was.orders, w)
    else MainCut(JobOf(was, nn, daws.value), was.orders, w)
  }

  ghost predicate MainCan(s: Snapshot, was: World, nn: NN) {
    nn in was.orders &&
    var daws := ResolveAll(s, nn.ns, was.orders[nn].spec);
    daws.Some? && MainReady(JobOf(was, nn, daws.value))
  }

  lemma NothingResolved(s: Snapshot, was: World, w: World, nn: NN)
    requires nn in was.orders && Unchanged(was, w)
    ensures MainEnds(s, was, w, nn, false)
  {
    if ResolveAll(s, nn.ns, was.orders[nn].spec).Some? {
      NothingDoneYet(JobOf(was, nn, ResolveAll(s, nn.ns, was.orders[nn].spec).value));
    }
  }

  lemma SameStart(s: Snapshot, was: World, start: World, w: World, nn: NN, done: bool)
    requires Unchanged(was, start) && was.codec == start.codec
    ensures MainEnds(s, start, w, nn, done) <==> MainEnds(s, was, w, nn, done)
    ensures MainCan(s, start, nn) <==> MainCan(s, was, nn)
  {
  }

  method MainPath(c: Client, nn: NN, order: O.Order) returns (ok: bool, ghost done: bool)
    requires c.Valid() && At(c.w, nn, O.Proceed(order, [], []))
    modifies c
    ensures c.Valid() && nn !in c.w.orderRuns && Frame(old(c.w), c.w) && MainEnds(c.snapshot, old(c.w), c.w, nn, done)
    ensures (ok ==> done) && (c.reliable ==> (ok <==> MainCan(c.snapshot, old(c.w), nn)))
  {
    var daws := ResolveArtifacts(c, nn, order);
    if daws.None? {
      c.ReturnOrder(nn);
      NothingResolved(c.snapshot, old(c.w), c.w, nn);
      return false, false;
    }
    var job := JobOf(c.w, nn, daws.value);
    JobSound(job);
    ok, done := Converge(c, job);
  }

  // `daws` is what the first artifacts resolved to.
  ghost predicate Resolving(s: Snapshot, was: World, w: World, nn: NN, order: O.Order, daws: seq<Daw>) {
    && Frame(was, w) && w.orders == was.orders && w.aws == was.aws && |daws| <= |order.spec.artifacts|
    && ResolveFirst(s, nn.ns, order.spec, |daws|) == Some(daws)
    && At(w, nn, O.Proceed(order, daws, Keys(w.codec, nn.ns, daws)))
  }

  // Fetch the endpoints and secrets of every artifact.
  method ResolveArtifacts(c: Client, nn: NN, order: O.Order) returns (r: Option<seq<Daw>>)
    requires c.Valid() && At(c.w, nn, O.Proceed(order, [], []))
    modifies c
    ensures c.Valid() && Frame(old(c.w), c.w) && c.w.orders == old(c.w).orders && c.w.aws == old(c.w).aws
    ensures r.Some? ==> r == ResolveAll(c.snapshot, nn.ns, order.spec)
    ensures r.Some? ==> At(c.w, nn, O.Proceed(order, r.value, Keys(c.w.codec, nn.ns, r.value)))
    ensures c.reliable ==> r == ResolveAll(c.snapshot, nn.ns, order.spec)
  {
    var daws: seq<Daw> := [];
    assert Keys(c.w.codec, nn.ns, []) == [];
    for i := 0 to |order.spec.artifacts|
      invariant c.Valid() && |daws| == i && Resolving(c.snapshot, old(c.w), c.w, nn, order, daws)
    {
      var d := ResolveOne(c, nn.ns, order.spec, order.spec.artifacts[i]);
      if d.None? {
        return None;
      }
      ResolveNext(c, nn, order, old(c.w), daws, d.value);
      daws := daws + [d.value];
    }
    return Some(daws);
  }

  method ResolveNext(c: Client, nn: NN, order: O.Order, ghost was: World, ghost daws: seq<Daw>, d: Daw)
    requires c.Valid() && Resolving(c.snapshot, was, c.w, nn, order, daws) && |daws| < |order.spec.artifacts|
    requires ResolveArtifact(c.snapshot, nn.ns, order.spec, order.spec.artifacts[|daws|]) == Some(d)
    requires O.Resolves(order.spec, |daws|, d)
    modifies c
    ensures c.Valid() && Resolving(c.snapshot, was, c.w, nn, order, daws + [d])
  {
    KeysExtend(c.w.codec, nn.ns, daws, d);
    c.NoteResolved(nn, d);
  }

  lemma KeysExtend(codec: Codec, ns: string, daws: seq<Daw>, d: Daw)
    ensures Keys(codec, ns, daws + [d]) == Keys(codec, ns, daws) + [HashOf(codec, ns, d)]
  {
  }

  method ResolveOne(c: Client, ns: string, spec: OrderSpec, artifact: Artifact) returns (r: Option<Daw>)
    requires c.Valid()
    ensures r.Some? ==> r == ResolveArtifact(c.snapshot, ns, spec, artifact)
    ensures r.Some? ==> r.value.artifact == artifact
                        && r.value.src.name == O.RefOr(artifact.srcRef, spec.defaultSrc)
                        && r.value.dst.name == O.RefOr(artifact.dstRef, spec.defaultDst)
                        && O.SecretFor(r.value.src.secretRef, r.value.srcSecret)
                        && O.SecretFor(r.value.dst.secretRef, r.value.dstSecret)
    ensures c.reliable ==> r == ResolveArtifact(c.snapshot, ns, spec, artifact)
  {
    var srcRefName := artifact.srcRef;
    if srcRefName == "" {
      srcRefName := spec.defaultSrc;
    }
    var dstRefName := artifact.dstRef;
    if dstRefName == "" {
      dstRefName := spec.defaultDst;
    }
    var srcEndpoint := c.GetEndpoint(NN(ns, srcRefName));
    if !srcEndpoint.Got? {
      return None;
    }
    var dstEndpoint := c.GetEndpoint(NN(ns, dstRefName));
    if !dstEndpoint.Got? {
      return None;
    }
    var srcSecret := Secret("", 0);
    if srcEndpoint.obj.secretRef != "" {
      var s := c.GetSecret(NN(ns, srcEndpoint.obj.secretRef));
      if !s.Got? {
        return None;
      }
      srcSecret := s.obj;
    }
    var dstSecret := Secret("", 0);
    if dstEndpoint.obj.secretRef != "" {
      var s := c.GetSecret(NN(ns, dstEndpoint.obj.secretRef));
      if !s.Got? {
        return None;
      }
      dstSecret := s.obj;
    }
    return Some(Daw(artifact, srcEndpoint.obj, dstEndpoint.obj, srcSecret, dstSecret));
  }

  ghost function MainAt(job: Job, status: Status, creates: set<Sha>, deletes: set<Sha>, syncs: set<Sha>, dirty: bool)
    : O.OrderRun
  {
    O.Main(job.base, job.daws, job.shas, status, creates, deletes, syncs, dirty)
  }

  lemma ProceedIsMain(job: Job)
    requires |job.daws| == |job.base.spec.artifacts|
    ensures O.Proceed(job.base, job.daws, job.shas)
            == MainAt(job, job.base.status, job.Creates(), job.Deletes(), job.Keeps(), Dirty(job, {}))
  {
  }

  // Cut off before the status write.
  ghost predicate Stopped(job: Job, was: World, w: World) {
    Frame(was, w) && MainCut(job, was.orders, w)
  }

  method Converge(c: Client, job: Job) returns (ok: bool, ghost done: bool)
    requires c.Valid() && Sound(job) && job.before == c.w.aws && job.codec == c.w.codec
    requires At(c.w, job.nn, O.Proceed(job.base, job.daws, job.shas)) && |job.daws| == |job.base.spec.artifacts|
    modifies c
    ensures c.Valid() && Frame(old(c.w), c.w) && job.nn !in c.w.orderRuns
    ensures if done then MainDone(job, old(c.w).orders, c.w) else MainCut(job, old(c.w).orders, c.w)
    ensures (ok ==> done) && (c.reliable ==> (ok <==> MainReady(job)))
  {
    ProceedIsMain(job);
    ok, done := Apply(c, job);
    if !ok {
      c.ReturnOrder(job.nn);
    }
  }

  // Create what is missing, delete what is obsolete, copy phases, write the status.
  method Apply(c: Client, job: Job) returns (ok: bool, ghost done: bool)
    requires c.Valid() && Sound(job) && job.before == c.w.aws && job.codec == c.w.codec
    requires At(c.w, job.nn, MainAt(job, job.base.status, job.Creates(), job.Deletes(), job.Keeps(), Dirty(job, {})))
    modifies c
    ensures c.Valid()
    ensures if done then Frame(old(c.w), c.w) && MainDone(job, old(c.w).orders, c.w) && job.nn !in c.w.orderRuns
            else Stopped(job, old(c.w), c.w)
    ensures (ok ==> done) && (c.reliable ==> (ok <==> MainReady(job)))
  {
    var desired := job.Desired();
    var createAWs := Missing(desired, job.base.status);
    var deleteAWs := Obsolete(desired, job.base.status);
    Started(job, c.w);
    done := false;
    var status;
    status, ok := CreateMissing(c, job, createAWs);
    if !ok {
      return;
    }
    CreatedAll(job, old(c.w), c.w, status);
    status, ok := DeleteObsolete(c, job, old(c.w), deleteAWs, status);
    if !ok {
      return;
    }
    DeletedAll(job, old(c.w), c.w, status);
    var anyPhaseChanged;
    status, anyPhaseChanged, ok := SyncPhases(c, job, old(c.w), createAWs, status);
    if !ok {
      return;
    }
    ok, done := Finish(c, job, old(c.w), status, createAWs != {} || deleteAWs != {} || anyPhaseChanged);
  }

  // Desired and not tracked.
  method Missing(desired: map<Sha, int>, status: Status) returns (createAWs: set<Sha>)
    ensures createAWs == desired.Keys - status.Keys
  {
    createAWs := {};
    var todo := desired.Keys;
    while todo != {}
      invariant todo <= desired.Keys && createAWs == (desired.Keys - todo) - status.Keys
      decreases todo
    {
      var sha: Sha :| sha in todo;
      todo := todo - {sha};
      if sha in status {
        continue;
      }
      createAWs := createAWs + {sha};
    }
  }

  // Tracked and not desired.
  method Obsolete(desired: map<Sha, int>, status: Status) returns (deleteAWs: set<Sha>)
    ensures deleteAWs == status.Keys - desired.Keys
  {
    deleteAWs := {};
    var todo := status.Keys;
    while todo != {}
      invariant todo <= status.Keys && deleteAWs == (status.Keys - todo) - desired.Keys
      decreases todo
    {
      var sha: Sha :| sha in todo;
      todo := todo - {sha};
      if sha in desired {
        continue;
      }
      deleteAWs := deleteAWs + {sha};
    }
  }

  lemma CutWith(job: Job, was: World, w: World, made: set<Sha>, gone: set<Sha>)
    requires Frame(was, w) && w.orders == was.orders && AwsAre(job, w.aws, made, gone)
    requires made <= job.Creates() && gone <= job.Deletes()
    ensures Stopped(job, was, w)
  {
  }

  lemma StatusWithNew(job: Job, status: Status, sha: Sha)
    requires StatusIs(job, status, {}, {}) && sha in job.Creates()
    ensures StatusIs(job, status[sha := Entry(job.Desired()[sha], Unknown, "")], {}, {})
  {
  }

  // The keys in `todo` are still to be created.
  ghost predicate Creating(job: Job, was: World, w: World, status: Status, todo: set<Sha>) {
    && Sound(job) && job.codec == w.codec && Frame(was, w) && w.orders == was.orders && todo <= job.Creates()
    && AwsAre(job, w.aws, job.Creates() - todo, {}) && StatusIs(job, status, {}, {})
    && At(w, job.nn, MainAt(job, status, todo, job.Deletes(), job.Keeps(), Dirty(job, {})))
    && forall sha: Sha :: sha in job.Creates() && sha !in todo ==> SpecGood(job, sha)
  }

  lemma Started(job: Job, w: World)
    requires Sound(job) && job.before == w.aws && job.codec == w.codec
    requires At(w, job.nn, MainAt(job, job.base.status, job.Creates(), job.Deletes(), job.Keeps(), Dirty(job, {})))
    ensures Creating(job, w, w, job.base.status, job.Creates())
  {
  }

  lemma CreatedAll(job: Job, was: World, w: World, status: Status)
    requires Creating(job, was, w, status, {})
    ensures Deleting(job, was, w, status, job.Deletes())
  {
    assert job.Creates() - {} == job.Creates() && job.Deletes() - job.Deletes() == {};
  }

  // The create loop: an ArtifactWorkflow for every missing key.
  method CreateMissing(c: Client, job: Job, createAWs: set<Sha>) returns (status: Status, ok: bool)
    requires c.Valid() && createAWs == job.Creates() && Creating(job, c.w, c.w, job.base.status, job.Creates())
    modifies c
    ensures c.Valid()
    ensures if ok then Creating(job, old(c.w), c.w, status, {}) else Stopped(job, old(c.w), c.w)
    ensures !ok && c.reliable ==> !SpecsGood(job)
  {
    status, ok := job.base.status, true;
    var todo := createAWs;
    while todo != {}
      invariant c.Valid() && Creating(job, old(c.w), c.w, status, todo)
      decreases todo
    {
      var sha: Sha :| sha in todo;
      status, ok := CreateOne(c, job, status, old(c.w), todo, sha);
      if !ok {
        return;
      }
      todo := todo - {sha};
    }
  }

  method CreateOne(c: Client, job: Job, status0: Status, ghost was: World, ghost todo: set<Sha>, sha: Sha)
    returns (status: Status, ok: bool)
    requires c.Valid() && sha in todo && Creating(job, was, c.w, status0, todo)
    modifies c
    ensures c.Valid()
    ensures if ok then Creating(job, was, c.w, status, todo - {sha}) else Stopped(job, was, c.w)
    ensures !ok && c.reliable ==> !SpecGood(job, sha)
  {
    status := status0;
    var daw := job.daws[job.Desired()[sha]];
    var aw := HydrateArtifactWorkflow(c.w.codec, daw);
    if aw.None? {
      CutWith(job, was, c.w, job.Creates() - todo, {});
      return status, false;
    }
    var answer, done := c.CreateAw(job.nn, sha, aw.value);
    ok := answer.Done? || answer.AlreadyExists?;
    Created(job, was, old(c.w), status, todo, sha, aw.value);
    if !ok {
      CutWith(job, was, c.w, job.Creates() - if done then todo - {sha} else todo, {});
      return;
    }
    if answer.AlreadyExists? {
      return;
    }
    status := status[sha := Entry(job.Desired()[sha], Unknown, "")];
  }

  lemma Created(job: Job, was: World, w: World, status: Status, todo: set<Sha>, sha: Sha, spec: AwSpec)
    requires sha in todo && Creating(job, was, w, status, todo) && SpecGood(job, sha)
    requires Hydrated(job.codec, job.daws[job.Desired()[sha]], spec)
    ensures var isNew := job.Name(sha) !in w.aws;
            var n := if isNew then status[sha := Entry(job.Desired()[sha], Unknown, "")] else status;
            Creating(job, was, CreateKey(w, job.nn, sha, spec), n, todo - {sha})
  {
    CreateExtends(job, w, job.Creates() - todo, sha, spec);
    OneMore(job.Creates(), todo, sha);
    StatusWithNew(job, status, sha);
  }

  lemma StatusWithout(job: Job, status: Status, gone: set<Sha>, sha: Sha)
    requires StatusIs(job, status, gone, {}) && sha in job.Deletes() - gone
    ensures StatusIs(job, status - {sha}, gone + {sha}, {})
  {
  }

  // The keys in `todo` are still to be deleted.
  ghost predicate Deleting(job: Job, was: World, w: World, status: Status, todo: set<Sha>) {
    && SpecsGood(job) && Frame(was, w) && w.orders == was.orders && todo <= job.Deletes()
    && AwsAre(job, w.aws, job.Creates(), job.Deletes() - todo) && StatusIs(job, status, job.Deletes() - todo, {})
    && At(w, job.nn, MainAt(job, status, {}, todo, job.Keeps(), Dirty(job, {})))
  }

  lemma DeletedAll(job: Job, was: World, w: World, status: Status)
    requires Deleting(job, was, w, status, {})
    ensures Syncing(job, was, w, status, {}, false)
  {
    assert job.Deletes() - {} == job.Deletes() && job.Keeps() - {} == job.Keeps();
  }

  // The delete loop: one Delete for every obsolete key.
  method DeleteObsolete(c: Client, job: Job, ghost was: World, deleteAWs: set<Sha>, status0: Status)
    returns (status: Status, ok: bool)
    requires c.Valid() && deleteAWs == job.Deletes() && Deleting(job, was, c.w, status0, job.Deletes())
    modifies c
    ensures c.Valid()
    ensures if ok then Deleting(job, was, c.w, status, {}) else Stopped(job, was, c.w)
    ensures c.reliable ==> ok
  {
    status, ok := status0, true;
    var todo := deleteAWs;
    while todo != {}
      invariant c.Valid() && Deleting(job, was, c.w, status, todo)
      decreases todo
    {
      var sha: Sha :| sha in todo;
      status, ok := DeleteOne(c, job, status, was, todo, sha);
      if !ok {
        return;
      }
      todo := todo - {sha};
    }
  }

  method DeleteOne(c: Client, job: Job, status0: Status, ghost was: World, ghost todo: set<Sha>, sha: Sha)
    returns (status: Status, ok: bool)
    requires c.Valid() && sha in todo && Deleting(job, was, c.w, status0, todo)
    modifies c
    ensures c.Valid()
    ensures if ok then Deleting(job, was, c.w, status, todo - {sha}) else Stopped(job, was, c.w)
    ensures c.reliable ==> ok
  {
    status := status0;
    var answer, done := c.DeleteAw(job.nn, sha);
    ok := answer.Done? || answer.NotFound?;
    DeletedStep(job, was, old(c.w), status, todo, sha);
    if !ok {
      CutWith(job, was, c.w, job.Creates(), job.Deletes() - if done then todo - {sha} else todo);
      return;
    }
    status := status - {sha};
  }

  lemma DeletedStep(job: Job, was: World, w: World, status: Status, todo: set<Sha>, sha: Sha)
    requires sha in todo && Deleting(job, was, w, status, todo)
    ensures Deleting(job, was, DeleteKey(w, job.nn, sha), status - {sha}, todo - {sha})
  {
    DeleteExtends(job, w, job.Creates(), job.Deletes() - todo, sha);
    StatusWithout(job, status, job.Deletes() - todo, sha);
    OneMore(job.Deletes(), todo, sha);
  }

  lemma StatusSynced(job: Job, status: Status, seen: set<Sha>, sha: Sha, phase: Phase)
    requires StatusIs(job, status, job.Deletes(), seen) && sha in job.Keeps() - seen
    requires job.Name(sha) in job.before && job.before[job.Name(sha)].phase == phase
    ensures sha in status && status[sha].phase == job.base.status[sha].phase
    ensures StatusIs(job, status[sha := status[sha].(phase := phase)], job.Deletes(), seen + {sha})
    ensures status[sha].phase == phase ==> StatusIs(job, status, job.Deletes(), seen + {sha})
  {
  }

  lemma DirtySynced(job: Job, seen: set<Sha>, sha: Sha)
    requires sha in job.Keeps() && job.Name(sha) in job.before
    ensures Dirty(job, seen + {sha}) <==> Dirty(job, seen) || Differs(job, sha)
  {
  }

  // A kept key is neither created nor deleted, so its ArtifactWorkflow is the one stored at the start.
  lemma KeptSame(job: Job, after: Aws, sha: Sha)
    requires AwsAre(job, after, job.Creates(), job.Deletes()) && sha in job.Keeps()
    ensures SameIn(job.before, after, job.Name(sha))
  {
    InNames(job.nn, job.Creates() + job.Deletes(), sha);
  }

  // The phases of the keys in `seen` have been copied.
  ghost predicate Syncing(job: Job, was: World, w: World, status: Status, seen: set<Sha>, changed: bool) {
    && SpecsGood(job) && Frame(was, w) && w.orders == was.orders && seen <= job.Keeps()
    && AwsAre(job, w.aws, job.Creates(), job.Deletes()) && StatusIs(job, status, job.Deletes(), seen)
    && At(w, job.nn, MainAt(job, status, {}, {}, job.Keeps() - seen, Dirty(job, seen)))
    && (Dirty(job, seen) <==> job.Creates() != {} || job.Deletes() != {} || changed)
    && forall sha: Sha :: sha in seen ==> job.Name(sha) in job.before
  }

  // Copy the phases of the ArtifactWorkflows that were not just created.
  method SyncPhases(c: Client, job: Job, ghost was: World, createAWs: set<Sha>, status0: Status)
    returns (status: Status, anyPhaseChanged: bool, ok: bool)
    requires c.Valid() && createAWs == job.Creates() && Syncing(job, was, c.w, status0, {}, false)
    modifies c
    ensures c.Valid()
    ensures if ok then Syncing(job, was, c.w, status, job.Keeps(), anyPhaseChanged) else Stopped(job, was, c.w)
    ensures !ok && c.reliable ==> !AllKept(job)
  {
    status, anyPhaseChanged, ok := status0, false, true;
    var todo := job.Desired().Keys;
    ghost var seen: set<Sha> := {};
    while todo != {}
      invariant c.Valid() && todo <= job.Desired().Keys && seen == job.Keeps() - todo
      invariant Syncing(job, was, c.w, status, seen, anyPhaseChanged)
      decreases todo
    {
      var sha: Sha :| sha in todo;
      Passed(job, todo, sha);
      if sha !in createAWs {
        var changed;
        status, changed, ok := SyncOne(c, job, status, was, seen, anyPhaseChanged, sha);
        if !ok {
          return;
        }
        anyPhaseChanged := anyPhaseChanged || changed;
        seen := seen + {sha};
      }
      todo := todo - {sha};
    }
    assert seen == job.Keeps();
  }

  lemma Passed(job: Job, todo: set<Sha>, sha: Sha)
    requires sha in todo && todo <= job.Desired().Keys
    ensures sha in job.Creates() <==> sha !in job.Keeps()
    ensures job.Keeps() - (todo - {sha}) ==
            if sha in job.Keeps() then job.Keeps() - todo + {sha} else job.Keeps() - todo
  {
  }

  method SyncOne(c: Client, job: Job, status0: Status, ghost was: World, ghost seen: set<Sha>, ghost before: bool,
                 sha: Sha)
    returns (status: Status, changed: bool, ok: bool)
    requires c.Valid() && sha in job.Keeps() && sha !in seen && Syncing(job, was, c.w, status0, seen, before)
    modifies c
    ensures c.Valid()
    ensures if ok then Syncing(job, was, c.w, status, seen + {sha}, before || changed) else Stopped(job, was, c.w)
    ensures !ok && c.reliable ==> !AllKept(job)
  {
    status, changed := status0, false;
    KeptSame(job, c.w.aws, sha);
    assert EntryIs(job, status, seen, sha);
    var reply := c.GetAwForOrder(job.nn, sha);
    ok := reply.Got?;
    if !ok {
      CutWith(job, was, c.w, job.Creates(), job.Deletes());
      return;
    }
    Synced(job, was, old(c.w), status, seen, before, sha, reply.obj.phase);
    if status[sha].phase != reply.obj.phase {
      status := status[sha := status[sha].(phase := reply.obj.phase)];
      changed := true;
    }
  }

  lemma Synced(job: Job, was: World, w: World, status: Status, seen: set<Sha>, before: bool, sha: Sha, phase: Phase)
    requires sha in job.Keeps() && sha !in seen && Syncing(job, was, w, status, seen, before) && sha in status
    requires job.Name(sha) in job.before && job.before[job.Name(sha)].phase == phase
    ensures var changed := status[sha].phase != phase;
            var n := if changed then status[sha := status[sha].(phase := phase)] else status;
            Syncing(job, was, SyncKey(w, job.nn, sha, phase), n, seen + {sha}, before || changed)
  {
    StatusSynced(job, status, seen, sha, phase);
    DirtySynced(job, seen, sha);
    assert job.Keeps() - seen - {sha} == job.Keeps() - (seen + {sha});
  }

  // Write the status if anything changed.
  method Finish(c: Client, job: Job, ghost was: World, status: Status, changed: bool)
    returns (ok: bool, ghost done: bool)
    requires c.Valid() && Syncing(job, was, c.w, status, job.Keeps(), changed)
    requires changed <==> Dirty(job, job.Keeps())
    modifies c
    ensures c.Valid()
    ensures if done then Frame(was, c.w) && MainDone(job, was.orders, c.w) && job.nn !in c.w.orderRuns
            else Stopped(job, was, c.w)
    ensures (ok ==> done) && (c.reliable ==> ok)
  {
    assert AllKept(job) && job.Keeps() - job.Keeps() == {};
    if !changed {
      c.ReturnOrder(job.nn);
      return true, true;
    }
    var refreshed := RefreshIndices(status, job.Desired());
    RefreshIsNew(job, status);
    var answer;
    answer, done := c.UpdateOrderStatus(job.nn, refreshed);
    ok := answer.Done?;
    if done {
      SaveOrderSaves(old(c.w), job.nn, job.base.(status := NewStatus(job)));
    } else {
      CutWith(job, was, c.w, job.Creates(), job.Deletes());
    }
  }

  // Make sure that every index is up to date.
  method RefreshIndices(status: Status, desired: map<Sha, int>) returns (refreshed: Status)
    ensures refreshed == O.Refresh(status, desired)
  {
    refreshed := status;
    var todo := desired.Keys;
    while todo != {}
      invariant todo <= desired.Keys && refreshed == O.Refresh(status, desired - todo)
      decreases todo
    {
      var sha: Sha :| sha in todo;
      var entry := if sha in refreshed then refreshed[sha] else Entry(0, Unknown, "");
      RefreshOne(status, desired, todo, sha);
      refreshed, todo := refreshed[sha := entry.(index := desired[sha])], todo - {sha};
    }
    assert desired - todo == desired;
  }

  lemma RefreshOne(status: Status, desired: map<Sha, int>, todo: set<Sha>, sha: Sha)
    requires sha in todo && todo <= desired.Keys
    ensures var r := O.Refresh(status, desired - todo);
            var entry := if sha in r then r[sha] else Entry(0, Unknown, "");
            O.Refresh(status, desired - (todo - {sha})) == r[sha := entry.(index := desired[sha])]
  {
  }
}
