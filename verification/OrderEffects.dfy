/** What one Order reconcile does to the store, stated on the stored objects before and after. */
module OrderEffects {
  import opened Types
  import opened Params
  import opened Cluster
  import opened ApiClient
  import Flatten
  import Frames
  import O = OrderRun
  import A = AwRun

  type Orders = map<NN, O.Order>
  type Aws = map<NN, A.Aw>

  // ---------------------------------------------------------------------------------------------------
  // Resolution
  // ---------------------------------------------------------------------------------------------------

  function ResolveSecret(s: Snapshot, ns: string, ref: string): Option<Secret> {
    if ref == "" then Some(Secret("", 0))
    else if NN(ns, ref) in s.secrets then Some(s.secrets[NN(ns, ref)])
    else None
  }

  function ResolveArtifact(s: Snapshot, ns: string, spec: OrderSpec, a: Artifact): Option<Daw> {
    var src, dst := NN(ns, O.RefOr(a.srcRef, spec.defaultSrc)), NN(ns, O.RefOr(a.dstRef, spec.defaultDst));
    if src !in s.endpoints || dst !in s.endpoints then None
    else
      var srcSecret := ResolveSecret(s, ns, s.endpoints[src].secretRef);
      var dstSecret := ResolveSecret(s, ns, s.endpoints[dst].secretRef);
      if srcSecret.None? || dstSecret.None? then None
      else Some(Daw(a, s.endpoints[src], s.endpoints[dst], srcSecret.value, dstSecret.value))
  }

  // The first `n` artifacts, None if one of them does not resolve.
  function ResolveFirst(s: Snapshot, ns: string, spec: OrderSpec, n: nat): (r: Option<seq<Daw>>)
    requires n <= |spec.artifacts|
    ensures r.Some? <==> forall i :: 0 <= i < n ==> ResolveArtifact(s, ns, spec, spec.artifacts[i]).Some?
    ensures r.Some? ==>
              && |r.value| == n
              && forall i :: 0 <= i < n ==> r.value[i] == ResolveArtifact(s, ns, spec, spec.artifacts[i]).value
  {
    if n == 0 then Some([])
    else
      var front := ResolveFirst(s, ns, spec, n - 1);
      var d := ResolveArtifact(s, ns, spec, spec.artifacts[n - 1]);
      if front.None? || d.None? then None else Some(front.value + [d.value])
  }

  function ResolveAll(s: Snapshot, ns: string, spec: OrderSpec): Option<seq<Daw>> {
    ResolveFirst(s, ns, spec, |spec.artifacts|)
  }

  // Artifacts of one Order are resolved against the same stored objects.
  lemma ResolvedTogether(s: Snapshot, ns: string, spec: OrderSpec, i: nat, j: nat)
    requires Named(s) && ResolveAll(s, ns, spec).Some? && i < |spec.artifacts| && j < |spec.artifacts|
    ensures SameSnapshot(ResolveAll(s, ns, spec).value[i], ResolveAll(s, ns, spec).value[j])
  {
  }

  // So an artifact that is overwritten in the desired map by one with the same hash input loses nothing.
  lemma DuplicatesLoseNothing(s: Snapshot, codec: Codec, ns: string, spec: OrderSpec, i: nat, j: nat,
                              a: AwSpec, b: AwSpec)
    requires Named(s) && ResolveAll(s, ns, spec).Some? && i < |spec.artifacts| && j < |spec.artifacts|
    requires var daws := ResolveAll(s, ns, spec).value;
             && InputOf(ns, daws[i]) == InputOf(ns, daws[j])
             && Hydrated(codec, daws[i], a) && Hydrated(codec, daws[j], b)
             && Flatten.CollisionFree("spec", SpecOf(codec, daws[i].artifact.raw).value)
    ensures a.typ == b.typ && a.srcSecret == b.srcSecret && a.dstSecret == b.dstSecret
    ensures multiset(a.params) == multiset(b.params)
  {
    ResolvedTogether(s, ns, spec, i, j);
    LosslessDeduplication(codec, ns, ResolveAll(s, ns, spec).value[i], ResolveAll(s, ns, spec).value[j], a, b);
  }

  function Keys(codec: Codec, ns: string, daws: seq<Daw>): (shas: seq<Sha>)
    ensures |shas| == |daws| && forall i :: 0 <= i < |daws| ==> shas[i] == HashOf(codec, ns, daws[i])
  {
    seq(|daws|, i requires 0 <= i < |daws| => HashOf(codec, ns, daws[i]))
  }

  // ---------------------------------------------------------------------------------------------------
  // The work of a main-path reconcile
  // ---------------------------------------------------------------------------------------------------

  // The Order as read, what its artifacts resolved to, and the ArtifactWorkflows stored at the start.
  datatype Job = Job(codec: Codec, nn: NN, base: O.Order, daws: seq<Daw>, shas: seq<Sha>, before: Aws)
  {
    function Desired(): map<Sha, int> { O.Desired(shas) }
    function Creates(): set<Sha> { Desired().Keys - base.status.Keys }
    function Deletes(): set<Sha> { base.status.Keys - Desired().Keys }
    function Keeps(): set<Sha> { Desired().Keys * base.status.Keys }
    function Name(sha: Sha): NN { AwName(nn, sha) }
  }

  function JobOf(w: World, nn: NN, daws: seq<Daw>): Job
    requires nn in w.orders
  {
    Job(w.codec, nn, w.orders[nn], daws, Keys(w.codec, nn.ns, daws), w.aws)
  }

  ghost predicate Sound(job: Job) {
    && |job.shas| == |job.daws|
    && forall s: Sha :: s in job.Desired() ==> 0 <= job.Desired()[s] < |job.daws|
  }

  lemma JobSound(job: Job)
    requires |job.shas| == |job.daws|
    ensures Sound(job)
  {
    forall s: Sha | s in job.Desired()
      ensures 0 <= job.Desired()[s] < |job.daws|
    {
      O.DesiredIsGreatest(job.shas, s);
    }
  }

  lemma OneMore(all: set<Sha>, todo: set<Sha>, sha: Sha)
    requires sha in todo && todo <= all
    ensures all - (todo - {sha}) == all - todo + {sha}
  {
  }

  function Names(nn: NN, shas: set<Sha>): set<NN> {
    set sha: Sha | sha in shas :: AwName(nn, sha)
  }

  lemma InNames(nn: NN, shas: set<Sha>, sha: Sha)
    ensures AwName(nn, sha) in Names(nn, shas) <==> sha in shas
  {
    if AwName(nn, sha) in Names(nn, shas) {
      var s: Sha :| s in shas && AwName(nn, s) == AwName(nn, sha);
      AwNameInjective(nn, s, nn, sha);
    }
  }

  // A newly created ArtifactWorkflow for this key.
  ghost predicate FreshFor(job: Job, sha: Sha, a: A.Aw) {
    && a.finalizers == {} && !a.deleting && a.phase.Unknown?
    && sha in job.Desired() && 0 <= job.Desired()[sha] < |job.daws|
    && Hydrated(job.codec, job.daws[job.Desired()[sha]], a.spec)
  }

  ghost predicate MadeAw(job: Job, after: Aws, sha: Sha) {
    var x := job.Name(sha);
    x in after && if x in job.before then after[x] == job.before[x] else FreshFor(job, sha, after[x])
  }

  // Deleted: removed, or marked when a finalizer holds it.
  ghost predicate GoneAw(before: Aws, after: Aws, x: NN) {
    if x !in before || before[x].deleting then SameIn(before, after, x)
    else if before[x].finalizers == {} then x !in after
    else x in after && after[x] == before[x].(deleting := true, version := after[x].version)
  }

  // The keys `made` have been created and the keys `gone` deleted; everything else is as before.
  ghost predicate AwsAre(job: Job, after: Aws, made: set<Sha>, gone: set<Sha>) {
    && (forall sha: Sha :: sha in made ==> MadeAw(job, after, sha))
    && (forall sha: Sha :: sha in gone ==> GoneAw(job.before, after, job.Name(sha)))
    && (forall x :: x !in Names(job.nn, made + gone) ==> SameIn(job.before, after, x))
  }

  lemma NothingDoneYet(job: Job)
    ensures AwsAre(job, job.before, {}, {})
  {
  }

  lemma CreateExtends(job: Job, w: World, made: set<Sha>, sha: Sha, spec: AwSpec)
    requires AwsAre(job, w.aws, made, {}) && sha !in made
    requires sha in job.Desired() && 0 <= job.Desired()[sha] < |job.daws|
    requires Hydrated(job.codec, job.daws[job.Desired()[sha]], spec)
    ensures AwsAre(job, CreateAw(w, job.Name(sha), spec, {}).aws, made + {sha}, {})
  {
    var x, after := job.Name(sha), CreateAw(w, job.Name(sha), spec, {}).aws;
    InNames(job.nn, made + {}, sha);
    assert SameIn(job.before, w.aws, x);
    forall s: Sha | s in made + {sha}
      ensures MadeAw(job, after, s)
    {
      if s != sha {
        assert MadeAw(job, w.aws, s);
        NamesDiffer(job.nn, s, sha);
      }
    }
    forall y | y !in Names(job.nn, made + {sha} + {})
      ensures SameIn(job.before, after, y)
    {
      InNames(job.nn, made + {sha} + {}, sha);
      NamesGrow(job.nn, made + {}, made + {sha} + {}, y);
      assert SameIn(job.before, w.aws, y);
    }
  }

  lemma NamesDiffer(nn: NN, s: Sha, t: Sha)
    requires s != t
    ensures AwName(nn, s) != AwName(nn, t)
  {
    if AwName(nn, s) == AwName(nn, t) {
      AwNameInjective(nn, s, nn, t);
    }
  }

  lemma NamesGrow(nn: NN, small: set<Sha>, big: set<Sha>, x: NN)
    requires small <= big && x !in Names(nn, big)
    ensures x !in Names(nn, small)
  {
  }

  lemma DeleteExtends(job: Job, w: World, made: set<Sha>, gone: set<Sha>, sha: Sha)
    requires AwsAre(job, w.aws, made, gone) && sha !in made + gone
    ensures AwsAre(job, DeleteAw(w, job.Name(sha)).aws, made, gone + {sha})
  {
    var x, after := job.Name(sha), DeleteAw(w, job.Name(sha)).aws;
    InNames(job.nn, made + gone, sha);
    assert SameIn(job.before, w.aws, x);
    DeleteAwDoes(w, x);
    forall s: Sha | s in made
      ensures MadeAw(job, after, s)
    {
      assert MadeAw(job, w.aws, s);
      NamesDiffer(job.nn, s, sha);
      assert SameIn(w.aws, after, job.Name(s));
    }
    forall s: Sha | s in gone + {sha}
      ensures GoneAw(job.before, after, job.Name(s))
    {
      if s != sha {
        assert GoneAw(job.before, w.aws, job.Name(s));
        NamesDiffer(job.nn, s, sha);
        assert SameIn(w.aws, after, job.Name(s));
      }
    }
    forall y | y !in Names(job.nn, made + (gone + {sha}))
      ensures SameIn(job.before, after, y)
    {
      InNames(job.nn, made + (gone + {sha}), sha);
      NamesGrow(job.nn, made + gone, made + (gone + {sha}), y);
      assert SameIn(job.before, w.aws, y) && SameIn(w.aws, after, y);
    }
  }

  lemma DeleteAwDoes(w: World, x: NN)
    ensures GoneAw(w.aws, DeleteAw(w, x).aws, x)
    ensures forall y :: y != x ==> SameIn(w.aws, DeleteAw(w, x).aws, y)
  {
    forall y
      ensures if y == x then GoneAw(w.aws, DeleteAw(w, x).aws, x) else SameIn(w.aws, DeleteAw(w, x).aws, y)
    {
      Frames.DeleteAwAt(w, x, y);
    }
    Frames.DeleteAwAt(w, x, x);
  }

  // ---------------------------------------------------------------------------------------------------
  // The worker's status
  // ---------------------------------------------------------------------------------------------------

  // The phases of the keys `seen` have been copied.
  ghost predicate EntryIs(job: Job, status: Status, seen: set<Sha>, sha: Sha)
    requires sha in status
  {
    if sha in job.base.status then
      if sha in seen then
        job.Name(sha) in job.before
        && status[sha] == job.base.status[sha].(phase := job.before[job.Name(sha)].phase)
      else status[sha] == job.base.status[sha]
    else sha in job.Desired() && status[sha] == Entry(job.Desired()[sha], Unknown, "")
  }

  ghost predicate StatusIs(job: Job, status: Status, gone: set<Sha>, seen: set<Sha>) {
    && job.base.status.Keys - gone <= status.Keys <= (job.base.status.Keys - gone) + job.Creates()
    && forall sha: Sha :: sha in status ==> EntryIs(job, status, seen, sha)
  }

  ghost predicate Differs(job: Job, sha: Sha) {
    && sha in job.Keeps() && job.Name(sha) in job.before
    && job.base.status[sha].phase != job.before[job.Name(sha)].phase
  }

  ghost predicate Dirty(job: Job, seen: set<Sha>) {
    job.Creates() != {} || job.Deletes() != {} || exists sha: Sha :: sha in seen && Differs(job, sha)
  }

  // The status that a reconcile writes: one entry per desired key, with its greatest index, the phase of its
  // ArtifactWorkflow if the key was tracked before, and Unknown if it was not.
  ghost function NewStatus(job: Job): Status
    requires AllKept(job)
  {
    map sha: Sha | sha in job.Desired() ::
      (if sha in job.base.status
       then Entry(job.Desired()[sha], job.before[job.Name(sha)].phase, job.base.status[sha].message)
       else Entry(job.Desired()[sha], Unknown, ""))
  }

  // Every key that is tracked and desired still has its ArtifactWorkflow.
  ghost predicate AllKept(job: Job) {
    forall sha: Sha :: sha in job.Keeps() ==> job.Name(sha) in job.before
  }

  lemma RefreshIsNew(job: Job, status: Status)
    requires AllKept(job) && StatusIs(job, status, job.Deletes(), job.Keeps())
    ensures O.Refresh(status, job.Desired()) == NewStatus(job)
  {
  }

  // ---------------------------------------------------------------------------------------------------
  // Outcomes
  // ---------------------------------------------------------------------------------------------------

  // The stored Orders after a successful write of `o`.
  ghost predicate Saved(before: Orders, after: Orders, nn: NN, o: O.Order) {
    if o.deleting && o.finalizers == {} then after == before - {nn}
    else nn in after && after == before[nn := o.(version := after[nn].version)]
  }

  lemma SaveOrderSaves(w: World, nn: NN, o: O.Order)
    ensures Saved(w.orders, SaveOrder(w, nn, o).orders, nn, o)
  {
  }

  // The spec of this key can be decoded and flattened.
  ghost predicate SpecGood(job: Job, sha: Sha) {
    && sha in job.Desired() && 0 <= job.Desired()[sha] < |job.daws|
    && SpecOf(job.codec, job.daws[job.Desired()[sha]].artifact.raw).Some?
  }

  ghost predicate SpecsGood(job: Job) {
    forall sha: Sha :: sha in job.Creates() ==> SpecGood(job, sha)
  }

  // What a main-path reconcile needs in order to succeed.
  ghost predicate MainReady(job: Job) {
    AllKept(job) && SpecsGood(job)
  }

  ghost predicate MainDone(job: Job, before: Orders, w: World) {
    && MainReady(job)
    && AwsAre(job, w.aws, job.Creates(), job.Deletes())
    && (if Dirty(job, job.Keeps())
        then Saved(before, w.orders, job.nn, job.base.(status := NewStatus(job)))
        else w.orders == before)
  }

  // Some of the Creates and Deletes of a main-path reconcile have happened, nothing was written.
  ghost predicate MainCut(job: Job, before: Orders, w: World) {
    && w.orders == before
    && exists made, gone :: made <= job.Creates() && gone <= job.Deletes() && AwsAre(job, w.aws, made, gone)
  }

  // Deletes for the keys `delivered` have reached the store; everything else is as before.
  ghost predicate Deleted(before: Aws, after: Aws, nn: NN, delivered: set<Sha>) {
    && (forall sha: Sha :: sha in delivered ==> GoneAw(before, after, AwName(nn, sha)))
    && (forall x :: x !in Names(nn, delivered) ==> SameIn(before, after, x))
  }

  // A Delete has been tried for each of these keys; errors are ignored.
  ghost predicate Cleaned(before: Aws, after: Aws, nn: NN, shas: set<Sha>) {
    exists delivered: set<Sha> :: delivered <= shas && Deleted(before, after, nn, delivered)
  }

  lemma NothingDeleted(aws: Aws, nn: NN)
    ensures Deleted(aws, aws, nn, {})
  {
  }

  lemma DeletedOneMore(before: Aws, w: World, nn: NN, delivered: set<Sha>, sha: Sha)
    requires Deleted(before, w.aws, nn, delivered) && sha !in delivered
    ensures Deleted(before, DeleteAw(w, AwName(nn, sha)).aws, nn, delivered + {sha})
  {
    var x, after := AwName(nn, sha), DeleteAw(w, AwName(nn, sha)).aws;
    InNames(nn, delivered, sha);
    InNames(nn, delivered + {sha}, sha);
    DeleteAwDoes(w, x);
    assert SameIn(before, w.aws, x);
    forall s: Sha | s in delivered + {sha}
      ensures GoneAw(before, after, AwName(nn, s))
    {
      if s != sha {
        NamesDiffer(nn, s, sha);
        assert SameIn(w.aws, after, AwName(nn, s));
      }
    }
    forall y | y !in Names(nn, delivered + {sha})
      ensures SameIn(before, after, y)
    {
      NamesGrow(nn, delivered, delivered + {sha}, y);
      assert SameIn(before, w.aws, y) && SameIn(w.aws, after, y);
    }
  }

  // A Delete removes an ArtifactWorkflow if it holds no finalizer, and otherwise only marks it.
  lemma AbsentIff(before: Aws, after: Aws, nn: NN, delivered: set<Sha>, sha: Sha)
    requires Deleted(before, after, nn, delivered)
    ensures var x := AwName(nn, sha);
            x !in after <==>
            x !in before || (sha in delivered && !before[x].deleting && before[x].finalizers == {})
  {
    InNames(nn, delivered, sha);
    if sha !in delivered {
      assert SameIn(before, after, AwName(nn, sha));
    } else {
      assert GoneAw(before, after, AwName(nn, sha));
    }
  }

  ghost predicate Unchanged(w: World, n: World) {
    n.orders == w.orders && n.aws == w.aws
  }

  // The effect of a reconcile that returns without error.
  ghost predicate Completed(s: Snapshot, w: World, n: World, nn: NN) {
    if nn !in w.orders then Unchanged(w, n)
    else
      var o := w.orders[nn];
      if o.deleting then
        if o.status != map[] then
          Saved(w.orders, n.orders, nn, o.(status := map[])) && Cleaned(w.aws, n.aws, nn, o.status.Keys)
        else if O.ORDER_FINALIZER in o.finalizers then
          Saved(w.orders, n.orders, nn, o.(finalizers := o.finalizers - {O.ORDER_FINALIZER})) && n.aws == w.aws
        else Unchanged(w, n)
      else if O.ORDER_FINALIZER !in o.finalizers then
        Saved(w.orders, n.orders, nn, o.(finalizers := o.finalizers + {O.ORDER_FINALIZER})) && n.aws == w.aws
      else
        ResolveAll(s, nn.ns, o.spec).Some? && MainDone(JobOf(w, nn, ResolveAll(s, nn.ns, o.spec).value), w.orders, n)
  }

  // The effect of a reconcile that was cut off: an error return after any call, or a crash.
  ghost predicate CutOff(s: Snapshot, w: World, n: World, nn: NN) {
    if nn !in w.orders then Unchanged(w, n)
    else
      var o := w.orders[nn];
      && n.orders == w.orders
      && (if o.deleting then Cleaned(w.aws, n.aws, nn, o.status.Keys)
          else if O.ORDER_FINALIZER in o.finalizers && ResolveAll(s, nn.ns, o.spec).Some?
          then MainCut(JobOf(w, nn, ResolveAll(s, nn.ns, o.spec).value), w.orders, n)
          else n.aws == w.aws)
  }

  ghost predicate Ready(s: Snapshot, w: World, nn: NN) {
    nn in w.orders && !w.orders[nn].deleting && O.ORDER_FINALIZER in w.orders[nn].finalizers ==>
      var daws := ResolveAll(s, nn.ns, w.orders[nn].spec);
      daws.Some? && MainReady(JobOf(w, nn, daws.value))
  }
}
