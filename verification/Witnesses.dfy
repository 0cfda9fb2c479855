/**
 * Concrete runs of the reconcilers that show what they do not promise. Each starts with an empty cluster and consists
 * of decisions of a user and of calls of the reconcilers, so every world here is reachable.
 */
module Witnesses {
  import opened Types
  import opened Flatten
  import opened Params
  import opened Cluster
  import opened ApiClient
  import opened OrderEffects
  import opened Convergence
  import opened Rewrites
  import Behaviors
  import OrderReconciler
  import AwReconciler
  import O = OrderRun

  const KEY_A: Sha := "aaaaaaaaaaaaaaaa"
  const KEY_B: Sha := "bbbbbbbbbbbbbbbb"
  const ORDER := NN("ns", "order")
  const ARTIFACT_A := Artifact("a", "", "", "")
  const ARTIFACT_B := Artifact("b", "", "", "")

  function KeyFor(typ: string): Sha {
    if typ == "a" then KEY_A else KEY_B
  }

  function TheCodec(): Codec {
    Codec((h: HashInput) => KeyFor(h.typ), (raw: string) => Some(map[]), (j: Json) => "")
  }

  // One endpoint, without a secret.
  function TheSnapshot(): Snapshot {
    Snapshot(map[NN("ns", "e") := Endpoint("e", 1, "oci", "", "")], map[], map[])
  }

  function SpecFor(artifacts: seq<Artifact>): OrderSpec {
    OrderSpec("e", "e", artifacts)
  }

  function KeysFor(artifacts: seq<Artifact>): (shas: seq<Sha>)
    ensures |shas| == |artifacts| && forall i :: 0 <= i < |shas| ==> shas[i] == KeyFor(artifacts[i].typ)
  {
    seq(|artifacts|, i requires 0 <= i < |artifacts| => KeyFor(artifacts[i].typ))
  }

  predicate Plain(artifacts: seq<Artifact>) {
    forall a :: a in artifacts ==> a.srcRef == "" && a.dstRef == ""
  }

  function DawFor(a: Artifact): Daw {
    var e := Endpoint("e", 1, "oci", "", "");
    Daw(a, e, e, Secret("", 0), Secret("", 0))
  }

  lemma Resolves(artifacts: seq<Artifact>)
    requires Plain(artifacts)
    ensures var daws := ResolveAll(TheSnapshot(), "ns", SpecFor(artifacts));
            daws.Some? && |daws.value| == |artifacts| && Keys(TheCodec(), "ns", daws.value) == KeysFor(artifacts)
  {
    forall i | 0 <= i < |artifacts|
      ensures ResolveArtifact(TheSnapshot(), "ns", SpecFor(artifacts), artifacts[i]) == Some(DawFor(artifacts[i]))
    {
      assert artifacts[i] in artifacts;
    }
  }

  // ---------------------------------------------------------------------------------------------------
  // An Order that has been taken in
  // ---------------------------------------------------------------------------------------------------

  ghost predicate New(w: World, artifacts: seq<Artifact>, finalizers: set<string>) {
    && w.codec == TheCodec() && w.aws == map[] && ORDER in w.orders
    && var o := w.orders[ORDER];
    !o.deleting && o.finalizers == finalizers && o.spec == SpecFor(artifacts) && o.status == map[]
  }

  ghost predicate EntryFor(w: World, artifacts: seq<Artifact>, sha: Sha) {
    && sha in O.Desired(KeysFor(artifacts)) && ORDER in w.orders && sha in w.orders[ORDER].status
    && w.orders[ORDER].status[sha] == Entry(O.Desired(KeysFor(artifacts))[sha], Unknown, "")
    && AwName(ORDER, sha) in w.aws
    && var a := w.aws[AwName(ORDER, sha)];
    a.finalizers == {} && !a.deleting && a.phase.Unknown?
  }

  ghost predicate Tracked(w: World, artifacts: seq<Artifact>) {
    && w.codec == TheCodec() && ORDER in w.orders
    && var o := w.orders[ORDER];
    && !o.deleting && o.finalizers == {O.ORDER_FINALIZER} && o.spec == SpecFor(artifacts)
    && o.status.Keys == O.Desired(KeysFor(artifacts)).Keys
    && forall sha: Sha :: sha in o.status ==> EntryFor(w, artifacts, sha)
  }

  lemma NewIsViable(w: World, artifacts: seq<Artifact>, f: set<string>)
    requires Plain(artifacts) && New(w, artifacts, f)
    ensures Viable(TheSnapshot(), w, ORDER) && Ready(TheSnapshot(), w, ORDER)
  {
    Resolves(artifacts);
    var job := JobOf(w, ORDER, ResolveAll(TheSnapshot(), "ns", SpecFor(artifacts)).value);
    JobSound(job);
    assert WellKeyed(Object(map[]));
    assert Sets(TheSnapshot(), w, ORDER, job) && MainReady(job);
    ViableIsReady(TheSnapshot(), w, ORDER);
  }

  function FreshStatus(desired: map<Sha, int>): Status {
    map sha: Sha | sha in desired :: Entry(desired[sha], Unknown, "")
  }

  // The first main-path reconcile of a new Order creates everything.
  lemma AllFresh(job: Job, before: Orders, n: World)
    requires job.nn in before && before[job.nn] == job.base && !job.base.deleting
    requires job.base.status == map[] && job.before == map[] && MainDone(job, before, n)
    ensures job.nn in n.orders
    ensures n.orders[job.nn] == job.base.(version := n.orders[job.nn].version, status := FreshStatus(job.Desired()))
    ensures forall sha: Sha :: sha in job.Desired() ==>
              job.Name(sha) in n.aws && FreshFor(job, sha, n.aws[job.Name(sha)])
  {
    assert job.Creates() == job.Desired().Keys && job.Deletes() == {} && job.Keeps() == {};
    AllNew(job);
    forall sha: Sha | sha in job.Desired()
      ensures job.Name(sha) in n.aws && FreshFor(job, sha, n.aws[job.Name(sha)])
    {
      MadeFresh(job, n.aws, sha);
    }
  }

  lemma AllNew(job: Job)
    requires job.base.status == map[] && AllKept(job)
    ensures NewStatus(job) == FreshStatus(job.Desired())
    ensures !Dirty(job, job.Keeps()) ==> FreshStatus(job.Desired()) == map[]
  {
    assert !Dirty(job, job.Keeps()) ==> job.Creates() == {} && job.Desired().Keys == {};
  }

  lemma MadeFresh(job: Job, after: Aws, sha: Sha)
    requires job.before == map[] && sha in job.Creates() && AwsAre(job, after, job.Creates(), job.Deletes())
    ensures job.Name(sha) in after && FreshFor(job, sha, after[job.Name(sha)])
  {
    assert MadeAw(job, after, sha);
  }

  lemma NewIsTracked(w: World, n: World, artifacts: seq<Artifact>)
    requires Plain(artifacts) && New(w, artifacts, {O.ORDER_FINALIZER}) && Run(TheSnapshot(), w, n, ORDER)
    ensures Tracked(n, artifacts)
  {
    Resolves(artifacts);
    var job := JobOf(w, ORDER, ResolveAll(TheSnapshot(), "ns", SpecFor(artifacts)).value);
    assert job.Desired() == O.Desired(KeysFor(artifacts));
    AllFresh(job, w.orders, n);
    forall sha: Sha | sha in n.orders[ORDER].status
      ensures EntryFor(n, artifacts, sha)
    {
      assert job.Name(sha) == AwName(ORDER, sha) && FreshFor(job, sha, n.aws[job.Name(sha)]);
    }
  }

  method TakeIn(artifacts: seq<Artifact>) returns (c: Client)
    requires Plain(artifacts)
    ensures fresh(c) && c.Valid() && c.reliable && c.snapshot == TheSnapshot()
    ensures ORDER !in c.w.orderRuns && c.w.awRuns == map[] && Tracked(c.w, artifacts)
  {
    c := Accept(artifacts);
    ghost var w := c.w;
    NewIsViable(c.w, artifacts, {O.ORDER_FINALIZER});
    var r := OrderReconciler.Reconcile(c, ORDER);
    NewIsTracked(w, c.w, artifacts);
  }

  // The finalizer is there, nothing else has happened.
  method Accept(artifacts: seq<Artifact>) returns (c: Client)
    requires Plain(artifacts)
    ensures fresh(c) && c.Valid() && c.reliable && c.snapshot == TheSnapshot()
    ensures ORDER !in c.w.orderRuns && c.w.awRuns == map[] && New(c.w, artifacts, {O.ORDER_FINALIZER})
  {
    Behaviors.ReachableInit(TheCodec());
    c := new Client(Init(TheCodec()), TheSnapshot(), true);
    c.Decide(MakeOrder(ORDER, SpecFor(artifacts), {}));
    NewIsViable(c.w, artifacts, {});
    var r := OrderReconciler.Reconcile(c, ORDER);
  }

  // A tracked key sets a job that keeps it.
  lemma TrackedSets(w: World, artifacts: seq<Artifact>) returns (job: Job)
    requires Plain(artifacts) && Tracked(w, artifacts)
    ensures Sets(TheSnapshot(), w, ORDER, job) && job.Desired() == O.Desired(KeysFor(artifacts))
    ensures JobSettled(job) && Indexed(w.orders[ORDER].status, job.Desired())
  {
    Resolves(artifacts);
    job := JobOf(w, ORDER, ResolveAll(TheSnapshot(), "ns", SpecFor(artifacts)).value);
    forall sha: Sha | sha in job.Desired()
      ensures job.Name(sha) in job.before && job.base.status[sha].phase == job.before[job.Name(sha)].phase
      ensures job.base.status[sha].index == job.Desired()[sha]
    {
      assert EntryFor(w, artifacts, sha) && job.Name(sha) == AwName(ORDER, sha);
    }
  }

  lemma DesiredOne(a: Sha)
    ensures O.Desired([a]) == map[a := 0]
  {
    assert [a][..0] == [];
  }

  lemma DesiredTwo(a: Sha, b: Sha)
    requires a != b
    ensures O.Desired([a, b]) == map[a := 0, b := 1]
  {
    assert [a, b][..1] == [a];
    DesiredOne(a);
  }

  // ---------------------------------------------------------------------------------------------------
  // Stale indices
  // ---------------------------------------------------------------------------------------------------

  const FORTH := [ARTIFACT_A, ARTIFACT_B]
  const BACK := [ARTIFACT_B, ARTIFACT_A]

  lemma Swapped()
    ensures Plain(FORTH) && Plain(BACK) && KEY_A != KEY_B
    ensures O.Desired(KeysFor(FORTH)) == map[KEY_A := 0, KEY_B := 1]
    ensures O.Desired(KeysFor(BACK)) == map[KEY_B := 0, KEY_A := 1]
    ensures WorkSet(SpecFor(FORTH)) == WorkSet(SpecFor(BACK))
  {
    assert KEY_A[0] != KEY_B[0] && "a"[0] != "b"[0];
    assert KeysFor(FORTH) == [KEY_A, KEY_B] && KeysFor(BACK) == [KEY_B, KEY_A];
    DesiredTwo(KEY_A, KEY_B);
    DesiredTwo(KEY_B, KEY_A);
    ReorderingKeepsWork(SpecFor(FORTH), SpecFor(BACK));
  }

  // Two artifacts are swapped in a settled Order: the next reconcile completes, and the indices stay wrong.
  method StaleIndex() returns (w: World, n: World)
    ensures Behaviors.Reachable(w) && Behaviors.Reachable(n)
    ensures Settled(TheSnapshot(), w, ORDER) && w.orders[ORDER].spec == SpecFor(BACK) && Run(TheSnapshot(), w, n, ORDER)
    ensures ORDER in n.orders && n.orders[ORDER].spec == SpecFor(BACK)
    ensures ResolveAll(TheSnapshot(), "ns", SpecFor(BACK)).Some?
    ensures var daws := ResolveAll(TheSnapshot(), "ns", SpecFor(BACK)).value;
            !Indexed(n.orders[ORDER].status, JobOf(n, ORDER, daws).Desired())
  {
    Swapped();
    var c := TakeIn(FORTH);
    ghost var before := c.w;
    c.Decide(EditOrder(ORDER, SpecFor(BACK), {O.ORDER_FINALIZER}));
    w := c.w;
    StaleAfterEdit(before, w);
    var r := OrderReconciler.Reconcile(c, ORDER);
    n := c.w;
    StaleAfterRun(before, w, n);
  }

  lemma StaleAfterEdit(w: World, e: World)
    requires Tracked(w, FORTH) && Edited(w, e, ORDER, SpecFor(BACK))
    ensures Settled(TheSnapshot(), w, ORDER) && Settled(TheSnapshot(), e, ORDER) && Ready(TheSnapshot(), e, ORDER)
  {
    Swapped();
    var job := TrackedSets(w, FORTH);
    RewritesAreFree(TheSnapshot(), w, e, e, ORDER, SpecFor(BACK));
    SettledIsViable(TheSnapshot(), e, ORDER);
    ViableIsReady(TheSnapshot(), e, ORDER);
  }

  lemma StaleAfterRun(w: World, e: World, n: World)
    requires Tracked(w, FORTH) && Edited(w, e, ORDER, SpecFor(BACK)) && Settled(TheSnapshot(), w, ORDER)
    requires Run(TheSnapshot(), e, n, ORDER)
    ensures ORDER in n.orders && n.orders[ORDER].spec == SpecFor(BACK)
    ensures ResolveAll(TheSnapshot(), "ns", SpecFor(BACK)).Some?
    ensures var daws := ResolveAll(TheSnapshot(), "ns", SpecFor(BACK)).value;
            !Indexed(n.orders[ORDER].status, JobOf(n, ORDER, daws).Desired())
  {
    Swapped();
    Resolves(BACK);
    var job := TrackedSets(w, FORTH);
    var job' := JobOf(e, ORDER, ResolveAll(TheSnapshot(), "ns", SpecFor(BACK)).value);
    RewritesAreFree(TheSnapshot(), w, e, n, ORDER, SpecFor(BACK));
    assert map[KEY_A := 0, KEY_B := 1][KEY_A] != map[KEY_B := 0, KEY_A := 1][KEY_A];
    PureReorderGoesStale(TheSnapshot(), w, e, n, ORDER, SpecFor(BACK), job, job');
  }

  // ---------------------------------------------------------------------------------------------------
  // A missing ArtifactWorkflow
  // ---------------------------------------------------------------------------------------------------

  lemma OnlyA()
    ensures Plain([ARTIFACT_A]) && KeysFor([ARTIFACT_A]) == [KEY_A]
    ensures O.Desired(KeysFor([ARTIFACT_A])) == map[KEY_A := 0]
  {
    DesiredOne(KEY_A);
  }

  // A user deletes the ArtifactWorkflow of a settled Order: it is tracked and desired, and the Order is not viable.
  method MissingAw() returns (w: World, ghost job: Job)
    ensures Behaviors.Reachable(w) && LostFor(w, job)
  {
    OnlyA();
    var c := TakeIn([ARTIFACT_A]);
    ghost var before := c.w;
    assert EntryFor(c.w, [ARTIFACT_A], KEY_A);
    c.Decide(RemoveAw(AwName(ORDER, KEY_A)));
    w := c.w;
    job := LostAfter(before, w);
  }

  // ---------------------------------------------------------------------------------------------------
  // An orphan
  // ---------------------------------------------------------------------------------------------------

  // A reconcile dies after its Create, then the artifact leaves the spec: the ArtifactWorkflow is stored, and nothing
  // tracks it.
  method Orphan() returns (w: World)
    ensures Behaviors.Reachable(w) && OnMainPath(w, ORDER) && AwName(ORDER, KEY_A) in w.aws
    ensures Untracked(TheSnapshot(), w, ORDER, KEY_A)
  {
    OnlyA();
    var c := Accept([ARTIFACT_A]);
    var reply := c.GetOrder(ORDER);
    var daw := DawFor(ARTIFACT_A);
    c.NoteResolved(ORDER, daw);
    var aw := HydrateArtifactWorkflow(c.w.codec, daw);
    assert WellKeyed(Object(map[]));
    var answer, done := c.CreateAw(ORDER, KEY_A, aw.value);
    c.ReturnOrder(ORDER);
    c.Decide(EditOrder(ORDER, SpecFor([]), {O.ORDER_FINALIZER}));
    w := c.w;
    Resolves([]);
  }

  // ---------------------------------------------------------------------------------------------------
  // ArtifactWorkflows that outlive their Order
  // ---------------------------------------------------------------------------------------------------

  // A Delete gets lost: both reconciles of the deleted Order complete, the Order is gone, and its ArtifactWorkflow is
  // not even marked.
  method LostDelete() returns (w: World, m: World, n: World)
    ensures Behaviors.Reachable(w) && Behaviors.Reachable(m) && Behaviors.Reachable(n)
    ensures ORDER in w.orders && w.orders[ORDER].deleting && KEY_A in w.orders[ORDER].status
    ensures Run(TheSnapshot(), w, m, ORDER) && Run(TheSnapshot(), m, n, ORDER)
    ensures ORDER !in n.orders && AwName(ORDER, KEY_A) in n.aws && !n.aws[AwName(ORDER, KEY_A)].deleting
  {
    OnlyA();
    var c := TakeIn([ARTIFACT_A]);
    assert EntryFor(c.w, [ARTIFACT_A], KEY_A);
    c.Decide(RemoveOrder(ORDER));
    w := c.w;
    CleanupWithoutDelete(c);
    m := c.w;
    DropFinalizer(c);
    n := c.w;
  }

  method DropFinalizer(c: Client)
    requires c.Valid() && c.reliable && c.snapshot == TheSnapshot() && ORDER !in c.w.orderRuns && ORDER in c.w.orders
    requires var o := c.w.orders[ORDER];
             o.deleting && o.status == map[] && o.finalizers == {O.ORDER_FINALIZER}
    modifies c
    ensures c.Valid() && Run(TheSnapshot(), old(c.w), c.w, ORDER) && ORDER !in c.w.orders && c.w.aws == old(c.w).aws
  {
    var r := OrderReconciler.Reconcile(c, ORDER);
    FinalizerDropRun(c.snapshot, old(c.w), c.w, ORDER);
  }

  // One reconcile of the deletion path in which the only Delete is not delivered.
  method CleanupWithoutDelete(c: Client)
    requires c.Valid() && c.reliable && c.snapshot == TheSnapshot() && ORDER !in c.w.orderRuns && ORDER in c.w.orders
    requires var o := c.w.orders[ORDER];
             o.deleting && o.status.Keys == {KEY_A} && o.finalizers == {O.ORDER_FINALIZER}
    modifies c
    ensures c.Valid() && ORDER !in c.w.orderRuns && c.w.aws == old(c.w).aws && Run(TheSnapshot(), old(c.w), c.w, ORDER)
    ensures ORDER in c.w.orders && c.w.orders[ORDER].deleting
    ensures c.w.orders[ORDER].status == map[] && c.w.orders[ORDER].finalizers == {O.ORDER_FINALIZER}
  {
    var reply := c.GetOrder(ORDER);
    var order := reply.obj;
    c.TryDelete(ORDER, KEY_A, false);
    assert order.status - {KEY_A} == map[];
    ghost var last := c.w;
    var answer, done := c.UpdateOrderStatus(ORDER, map[]);
    SaveOrderSaves(last, ORDER, order.(status := map[]));
    NothingDeleted(c.w.aws, ORDER);
    OrderReconciler.CleanupReturns(TheSnapshot(), old(c.w), c.w, ORDER, true, true, false);
  }

  // No call fails, but the ArtifactWorkflow controller's finalizer holds the ArtifactWorkflow when its Order is gone.
  method HeldByFinalizer() returns (w: World, n: World)
    ensures Behaviors.Reachable(w) && Behaviors.Reachable(n)
    ensures ORDER in w.orders && w.orders[ORDER].deleting && KEY_A in w.orders[ORDER].status
    ensures ORDER !in n.orders && AwName(ORDER, KEY_A) in n.aws
  {
    OnlyA();
    var c := TakeIn([ARTIFACT_A]);
    assert EntryFor(c.w, [ARTIFACT_A], KEY_A);
    var ok := AwReconciler.Reconcile(c, AwName(ORDER, KEY_A));
    c.Decide(RemoveOrder(ORDER));
    w := c.w;
    ReleaseInTwo(c, ORDER);
    n := c.w;
  }

  // ---------------------------------------------------------------------------------------------------
  // More ways to lose an ArtifactWorkflow
  // ---------------------------------------------------------------------------------------------------

  // Tracked and desired, and not stored.
  ghost predicate LostFor(w: World, job: Job) {
    && OnMainPath(w, ORDER) && Sets(TheSnapshot(), w, ORDER, job) && KEY_A in job.Keeps()
    && AwName(ORDER, KEY_A) !in w.aws && !Viable(TheSnapshot(), w, ORDER)
  }

  lemma LostAfter(w: World, n: World) returns (job: Job)
    requires Tracked(w, [ARTIFACT_A]) && n.codec == w.codec && ORDER in n.orders
    requires n.orders[ORDER] == w.orders[ORDER].(version := n.orders[ORDER].version)
    requires AwName(ORDER, KEY_A) !in n.aws
    ensures LostFor(n, job)
  {
    OnlyA();
    job := TrackedSets(w, [ARTIFACT_A]);
    job := job.(base := n.orders[ORDER], before := n.aws);
    MissingIsNotViable(TheSnapshot(), n, ORDER, job, KEY_A);
  }

  // Nobody needs to touch it. The artifact leaves the spec, a reconcile reads the Order, the artifact is put back, and
  // then the Delete goes through.
  method DeletedByLateReconcile() returns (w: World, ghost job: Job)
    ensures Behaviors.Reachable(w) && LostFor(w, job)
  {
    OnlyA();
    var c := TakeIn([ARTIFACT_A]);
    ghost var before := c.w;
    assert EntryFor(c.w, [ARTIFACT_A], KEY_A);
    c.Decide(EditOrder(ORDER, SpecFor([]), {O.ORDER_FINALIZER}));
    var reply := c.GetOrder(ORDER);
    assert c.w.orderRuns[ORDER].deletes == {KEY_A};
    c.Decide(EditOrder(ORDER, SpecFor([ARTIFACT_A]), {O.ORDER_FINALIZER}));
    var answer, done := c.DeleteAw(ORDER, KEY_A);
    c.ReturnOrder(ORDER);
    w := c.w;
    job := LostAfter(before, w);
  }

  // A settled Order does not notice that its ArtifactWorkflow is being deleted; one reconcile of the ArtifactWorkflow's
  // own controller later it is gone.
  method GoneWhileSettled() returns (w: World, n: World, ghost job: Job)
    ensures Behaviors.Reachable(w) && Settled(TheSnapshot(), w, ORDER)
    ensures AwReconciler.Completed(TheSnapshot(), w, n, AwName(ORDER, KEY_A))
    ensures Behaviors.Reachable(n) && LostFor(n, job)
  {
    OnlyA();
    var c := TakeIn([ARTIFACT_A]);
    ghost var before := c.w;
    assert EntryFor(c.w, [ARTIFACT_A], KEY_A);
    var ok := AwReconciler.Reconcile(c, AwName(ORDER, KEY_A));
    c.Decide(RemoveAw(AwName(ORDER, KEY_A)));
    w := c.w;
    StillSettledFor(before, w);
    ok := AwReconciler.Reconcile(c, AwName(ORDER, KEY_A));
    n := c.w;
    job := LostAfter(before, n);
  }

  lemma StillSettledFor(w: World, n: World)
    requires Tracked(w, [ARTIFACT_A]) && n.codec == w.codec && n.orders == w.orders
    requires AwName(ORDER, KEY_A) in n.aws && AwName(ORDER, KEY_A) in w.aws
    requires n.aws[AwName(ORDER, KEY_A)].phase == w.aws[AwName(ORDER, KEY_A)].phase
    ensures Settled(TheSnapshot(), n, ORDER)
  {
    OnlyA();
    var job := TrackedSets(w, [ARTIFACT_A]);
    var later := job.(before := n.aws);
    assert Sets(TheSnapshot(), n, ORDER, later);
    forall sha: Sha | sha in later.Desired()
      ensures later.Name(sha) in later.before && later.base.status[sha].phase == later.before[later.Name(sha)].phase
    {
      assert sha == KEY_A && later.Name(sha) == AwName(ORDER, KEY_A) && sha in job.Desired();
    }
  }

  // ---------------------------------------------------------------------------------------------------
  // A phase that goes back
  // ---------------------------------------------------------------------------------------------------

  const AW := NN("ns", "aw")

  function TypedSnapshot(): Snapshot {
    Snapshot(map[], map[], map["t" := ArtifactType([], "template")])
  }

  // Finalizer, create, check: Argo has not reported yet, and the phase goes from Pending back to Unknown.
  method PhaseFallsBack() returns (w: World, n: World)
    ensures Behaviors.Reachable(w) && Behaviors.Reachable(n) && AwReconciler.Completed(TypedSnapshot(), w, n, AW)
    ensures AW in w.aws && w.aws[AW].phase.Pending? && Shows(w, AW, Unknown)
    ensures AW in n.aws && n.aws[AW].phase.Unknown? && n.aws[AW].uid == w.aws[AW].uid
  {
    Behaviors.ReachableInit(TheCodec());
    var c := new Client(Init(TheCodec()), TypedSnapshot(), true);
    c.Decide(MakeAw(AW, AwSpec("t", [], "", ""), {}));
    var ok := AwReconciler.Reconcile(c, AW);
    ok := AwReconciler.Reconcile(c, AW);
    w := c.w;
    ok := AwReconciler.Reconcile(c, AW);
    n := c.w;
  }
}
