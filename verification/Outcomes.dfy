/**
 * What a complete reconcile does, read off the stored objects field by field. The statements name constants, fields and
 * positions themselves, and not the functions that the reconcilers are built from.
 */
module Outcomes {
  import opened Types
  import opened Params
  import opened Cluster
  import opened ApiClient
  import opened OrderEffects
  import opened Resumption
  import opened Convergence
  import Flatten
  import AR = AwReconciler
  import O = OrderRun
  import A = AwRun

  // ---------------------------------------------------------------------------------------------------
  // ArtifactWorkflows
  // ---------------------------------------------------------------------------------------------------

  const AW_MARK := "arc.bwi.de/artifact-workflow-finalizer"

  // Stored, not being deleted, and under the controller's finalizer.
  ghost predicate Held(w: World, nn: NN) {
    nn in w.aws && !w.aws[nn].deleting && AW_MARK in w.aws[nn].finalizers
  }

  // The ArtifactWorkflow `nn` is now `a`, all others are what they were.
  ghost predicate Became(w: World, n: World, nn: NN, a: A.Aw) {
    && nn in n.aws && n.aws[nn] == a.(version := n.aws[nn].version)
    && forall m :: m != nn ==> SameIn(w.aws, n.aws, m)
  }

  lemma AwGetsFinalizer(s: Snapshot, w: World, n: World, nn: NN)
    requires AR.Completed(s, w, n, nn) && nn in w.aws && !w.aws[nn].deleting && AW_MARK !in w.aws[nn].finalizers
    ensures Became(w, n, nn, w.aws[nn].(finalizers := w.aws[nn].finalizers + {AW_MARK})) && n.wfs == w.wfs
  {
  }

  // Phase Unknown: the Workflow is created from the type that the ArtifactWorkflow names, unless there is one.
  lemma AwLaunches(s: Snapshot, w: World, n: World, nn: NN)
    requires AR.Completed(s, w, n, nn) && Held(w, nn) && w.aws[nn].phase == Unknown
    ensures Became(w, n, nn, w.aws[nn].(phase := Pending))
    ensures nn in w.wfs ==> n.wfs == w.wfs
    ensures nn !in w.wfs ==>
              var a := w.aws[nn].spec;
              && a.typ in s.types && nn in n.wfs && n.wfs == w.wfs[nn := n.wfs[nn]] && n.wfs[nn].phase == Unknown
              && n.wfs[nn].spec.template == s.types[a.typ].template
              && n.wfs[nn].spec.params == a.params + s.types[a.typ].params
              && n.wfs[nn].spec.volumes == [
                   Volume("src-secret-vol", if a.srcSecret == "" then EmptyDir else FromSecret(a.srcSecret)),
                   Volume("dst-secret-vol", if a.dstSecret == "" then EmptyDir else FromSecret(a.dstSecret)) ]
  {
  }

  // Phases Pending and Running: the phase of the Workflow is recorded.
  lemma AwChecks(s: Snapshot, w: World, n: World, nn: NN)
    requires AR.Completed(s, w, n, nn) && Held(w, nn) && (w.aws[nn].phase == Pending || w.aws[nn].phase == Running)
    ensures nn in w.wfs && n.wfs == w.wfs && Became(w, n, nn, w.aws[nn].(phase := w.wfs[nn].phase))
  {
  }

  // All other phases: nothing happens.
  lemma AwRests(s: Snapshot, w: World, n: World, nn: NN)
    requires AR.Completed(s, w, n, nn) && Held(w, nn)
    requires var p := w.aws[nn].phase; p == Succeeded || p == Failed || p == Error || p.Other?
    ensures n.aws == w.aws && n.wfs == w.wfs
  {
  }

  // Deletion: the Workflow goes, then the finalizer, and the ArtifactWorkflow with it if it was the last one.
  lemma AwIsReleased(s: Snapshot, w: World, n: World, nn: NN)
    requires AR.Completed(s, w, n, nn) && nn in w.aws && w.aws[nn].deleting
    ensures nn !in n.wfs && forall m :: m != nn ==> SameIn(w.wfs, n.wfs, m)
    ensures w.aws[nn].finalizers == {AW_MARK} ==> nn !in n.aws
    ensures w.aws[nn].finalizers - {AW_MARK} != {} ==>
              Became(w, n, nn, w.aws[nn].(finalizers := w.aws[nn].finalizers - {AW_MARK})) || n.aws == w.aws
    ensures AW_MARK in w.aws[nn].finalizers && nn in n.aws ==> AW_MARK !in n.aws[nn].finalizers
  {
  }

  // With a reliable server, what a reconcile succeeds on.
  lemma AwSucceedsIff(s: Snapshot, w: World, nn: NN)
    requires Held(w, nn)
    ensures var a, p := w.aws[nn].spec, w.aws[nn].phase;
            AR.Ready(s, w, nn) <==>
              && (p == Unknown ==>
                    && a.typ in s.types
                    && (a.srcSecret == "" || NN(nn.ns, a.srcSecret) in s.secrets)
                    && (a.dstSecret == "" || NN(nn.ns, a.dstSecret) in s.secrets))
              && (p == Pending || p == Running ==> nn in w.wfs)
  {
  }

  // ---------------------------------------------------------------------------------------------------
  // Resolution
  // ---------------------------------------------------------------------------------------------------

  // References fall back to the defaults; endpoints and secrets come from the namespace of the Order.
  lemma ResolvesTo(s: Snapshot, ns: string, spec: OrderSpec, a: Artifact)
    ensures var srcName := if a.srcRef != "" then a.srcRef else spec.defaultSrc;
            var dstName := if a.dstRef != "" then a.dstRef else spec.defaultDst;
            var r := ResolveArtifact(s, ns, spec, a);
            && (r.Some? <==>
                  && NN(ns, srcName) in s.endpoints && NN(ns, dstName) in s.endpoints
                  && var src, dst := s.endpoints[NN(ns, srcName)], s.endpoints[NN(ns, dstName)];
                  && (src.secretRef != "" ==> NN(ns, src.secretRef) in s.secrets)
                  && (dst.secretRef != "" ==> NN(ns, dst.secretRef) in s.secrets))
            && (r.Some? ==>
                  var d := r.value;
                  && d.artifact == a
                  && d.src == s.endpoints[NN(ns, srcName)] && d.dst == s.endpoints[NN(ns, dstName)]
                  && (d.src.secretRef == "" ==> d.srcSecret == Secret("", 0))
                  && (d.dst.secretRef == "" ==> d.dstSecret == Secret("", 0))
                  && (d.src.secretRef != "" ==> d.srcSecret == s.secrets[NN(ns, d.src.secretRef)])
                  && (d.dst.secretRef != "" ==> d.dstSecret == s.secrets[NN(ns, d.dst.secretRef)]))
  {
  }

  // What artifact `i` of the stored Order resolves to.
  ghost predicate ResolvedAs(s: Snapshot, w: World, nn: NN, i: nat, d: Daw) {
    && nn in w.orders && i < |w.orders[nn].spec.artifacts|
    && ResolveArtifact(s, nn.ns, w.orders[nn].spec, w.orders[nn].spec.artifacts[i]) == Some(d)
  }

  ghost predicate HasKey(s: Snapshot, w: World, nn: NN, i: nat, d: Daw, sha: Sha) {
    ResolvedAs(s, w, nn, i, d) && HashOf(w.codec, nn.ns, d) == sha
  }

  // ---------------------------------------------------------------------------------------------------
  // Orders
  // ---------------------------------------------------------------------------------------------------

  const ORDER_MARK := "arc.bwi.de/order-finalizer"

  // The Order `nn` is now `o`, all others are what they were.
  ghost predicate OrderBecame(w: World, n: World, nn: NN, o: O.Order) {
    && nn in n.orders && n.orders[nn] == o.(version := n.orders[nn].version)
    && forall m :: m != nn ==> SameIn(w.orders, n.orders, m)
  }

  lemma OrderGetsFinalizer(s: Snapshot, w: World, n: World, nn: NN)
    requires Completed(s, w, n, nn) && nn in w.orders && !w.orders[nn].deleting
    requires ORDER_MARK !in w.orders[nn].finalizers
    ensures OrderBecame(w, n, nn, w.orders[nn].(finalizers := w.orders[nn].finalizers + {ORDER_MARK})) && n.aws == w.aws
  {
  }

  lemma OrderIsCleaned(s: Snapshot, w: World, n: World, nn: NN)
    requires Completed(s, w, n, nn) && nn in w.orders && w.orders[nn].deleting && w.orders[nn].finalizers != {}
    requires w.orders[nn].status != map[]
    ensures OrderBecame(w, n, nn, w.orders[nn].(status := map[]))
  {
  }

  lemma OrderIsReleased(s: Snapshot, w: World, n: World, nn: NN)
    requires Completed(s, w, n, nn) && nn in w.orders && w.orders[nn].deleting && w.orders[nn].status == map[]
    requires ORDER_MARK in w.orders[nn].finalizers
    ensures n.aws == w.aws
    ensures if w.orders[nn].finalizers == {ORDER_MARK} then nn !in n.orders
            else OrderBecame(w, n, nn, w.orders[nn].(finalizers := w.orders[nn].finalizers - {ORDER_MARK}))
  {
    assert w.orders[nn].finalizers - {ORDER_MARK} == {} <==> w.orders[nn].finalizers == {ORDER_MARK};
  }

  ghost predicate OnMain(w: World, nn: NN) {
    nn in w.orders && !w.orders[nn].deleting && ORDER_MARK in w.orders[nn].finalizers
  }

  lemma MainJob(s: Snapshot, w: World, n: World, nn: NN) returns (job: Job)
    requires Completed(s, w, n, nn) && OnMain(w, nn)
    ensures Sets(s, w, nn, job) && Sound(job) && MainDone(job, w.orders, n)
    ensures job.nn == nn && job.base == w.orders[nn] && job.before == w.aws && job.codec == w.codec
    ensures |job.daws| == |job.shas| == |w.orders[nn].spec.artifacts|
    ensures forall i: nat :: i < |job.daws| ==> ResolvedAs(s, w, nn, i, job.daws[i])
    ensures forall i: nat :: i < |job.daws| ==> job.shas[i] == HashOf(w.codec, nn.ns, job.daws[i])
  {
    job := JobOf(w, nn, ResolveAll(s, nn.ns, w.orders[nn].spec).value);
    JobSound(job);
  }

  // The status tracks the keys of the artifacts. Tracked keys take over the phase of their ArtifactWorkflow and keep
  // their message, new ones start with neither.
  lemma OrderTracks(s: Snapshot, w: World, n: World, nn: NN, sha: Sha)
    requires Completed(s, w, n, nn) && OnMain(w, nn)
    ensures nn in n.orders
    ensures n.orders[nn] == w.orders[nn].(status := n.orders[nn].status, version := n.orders[nn].version)
    ensures sha in n.orders[nn].status <==> Wanted(s, w, nn, sha)
    ensures sha in n.orders[nn].status && sha in w.orders[nn].status ==>
              && AwName(nn, sha) in w.aws
              && n.orders[nn].status[sha].phase == w.aws[AwName(nn, sha)].phase
              && n.orders[nn].status[sha].message == w.orders[nn].status[sha].message
    ensures sha in n.orders[nn].status && sha !in w.orders[nn].status ==>
              n.orders[nn].status[sha].phase == Unknown && n.orders[nn].status[sha].message == ""
  {
    var job := MainJob(s, w, n, nn);
    TracksJob(job, w.orders, n, sha);
    O.DesiredIsGreatest(job.shas, sha);
    if sha in job.Desired() {
      var i: nat := job.Desired()[sha];
      assert HasKey(s, w, nn, i, job.daws[i], sha);
    }
    if i: nat, d :| HasKey(s, w, nn, i, d, sha) {
      assert job.daws[i] == d && job.shas[i] == sha;
    }
  }

  lemma TracksJob(job: Job, before: Orders, n: World, sha: Sha)
    requires MainDone(job, before, n) && job.nn in before && before[job.nn] == job.base && !job.base.deleting
    ensures job.nn in n.orders && var o := n.orders[job.nn]; o == job.base.(status := o.status, version := o.version)
    ensures var now := n.orders[job.nn].status;
            && (sha in now <==> sha in job.Desired())
            && (sha in now && sha in job.base.status ==>
                  && job.Name(sha) in job.before && now[sha].phase == job.before[job.Name(sha)].phase
                  && now[sha].message == job.base.status[sha].message)
            && (sha in now && sha !in job.base.status ==> now[sha].phase == Unknown && now[sha].message == "")
  {
    if sha in job.Keeps() {
      assert Dirty(job, job.Keeps()) || !Differs(job, sha);
    }
    if !Dirty(job, job.Keeps()) {
      assert sha !in job.Creates() && sha !in job.Deletes();
    }
  }

  // The ArtifactWorkflow that is created for a new key carries what the artifact and its endpoints say.
  lemma OrderCreates(s: Snapshot, w: World, n: World, nn: NN, sha: Sha) returns (i: nat, d: Daw)
    requires Completed(s, w, n, nn) && OnMain(w, nn) && sha !in w.orders[nn].status && AwName(nn, sha) !in w.aws
    requires Wanted(s, w, nn, sha)
    ensures HasKey(s, w, nn, i, d, sha) && AwName(nn, sha) in n.aws
    ensures var a := n.aws[AwName(nn, sha)];
            && a.phase == Unknown && a.finalizers == {} && !a.deleting
            && a.spec.typ == d.artifact.typ
            && a.spec.srcSecret == d.src.secretRef && a.spec.dstSecret == d.dst.secretRef
            && Lookup(a.spec.params, "srcType") == Some(d.src.typ)
            && Lookup(a.spec.params, "srcRemoteURL") == Some(d.src.remoteURL)
            && Lookup(a.spec.params, "dstType") == Some(d.dst.typ)
            && Lookup(a.spec.params, "dstRemoteURL") == Some(d.dst.remoteURL)
  {
    var job := MainJob(s, w, n, nn);
    var h: nat, e :| HasKey(s, w, nn, h, e, sha);
    assert job.daws[h] == e && job.shas[h] == sha;
    O.DesiredIsGreatest(job.shas, sha);
    i := job.Desired()[sha];
    d := job.daws[i];
    assert MadeAw(job, n.aws, sha) && job.Name(sha) == AwName(nn, sha);
    FixedNames(w.codec, d, n.aws[AwName(nn, sha)].spec);
  }

  // The ArtifactWorkflow of a key that is tracked and no longer wanted is deleted.
  lemma OrderDeletes(s: Snapshot, w: World, n: World, nn: NN, sha: Sha)
    requires Completed(s, w, n, nn) && OnMain(w, nn) && sha in w.orders[nn].status
    requires !Wanted(s, w, nn, sha)
    ensures nn in n.orders && sha !in n.orders[nn].status
    ensures var x := AwName(nn, sha);
            && (x in n.aws ==> n.aws[x].deleting)
            && (x in w.aws && !w.aws[x].deleting && w.aws[x].finalizers == {} ==> x !in n.aws)
  {
    var job := MainJob(s, w, n, nn);
    OrderTracks(s, w, n, nn, sha);
    TracksJob(job, w.orders, n, sha);
    assert GoneAw(job.before, n.aws, job.Name(sha)) && job.Name(sha) == AwName(nn, sha);
  }

  ghost predicate Resolvable(s: Snapshot, w: World, nn: NN, i: nat) {
    exists d :: ResolvedAs(s, w, nn, i, d)
  }

  // The key of some artifact.
  ghost predicate Wanted(s: Snapshot, w: World, nn: NN, sha: Sha) {
    exists i: nat, d :: HasKey(s, w, nn, i, d, sha)
  }

  // With a reliable server, what a main-path reconcile succeeds on.
  lemma OrderSucceedsIff(s: Snapshot, w: World, nn: NN)
    requires OnMain(w, nn)
    ensures var o := w.orders[nn];
            Ready(s, w, nn) <==>
              && (forall i: nat :: i < |o.spec.artifacts| ==> Resolvable(s, w, nn, i))
              && (forall sha: Sha :: Wanted(s, w, nn, sha) && sha in o.status ==> AwName(nn, sha) in w.aws)
              && (forall sha: Sha :: Wanted(s, w, nn, sha) && sha !in o.status ==> Decodes(s, w, nn, sha))
  {
    if ResolveAll(s, nn.ns, w.orders[nn].spec).Some? {
      var job := JobOf(w, nn, ResolveAll(s, nn.ns, w.orders[nn].spec).value);
      JobSound(job);
      forall i: nat | i < |w.orders[nn].spec.artifacts|
        ensures Resolvable(s, w, nn, i)
      {
        assert ResolvedAs(s, w, nn, i, job.daws[i]);
      }
      assert Sets(s, w, nn, job);
      JobReadyIff(s, w, nn, job);
    } else {
      var i: nat :| i < |w.orders[nn].spec.artifacts|
                    && ResolveArtifact(s, nn.ns, w.orders[nn].spec, w.orders[nn].spec.artifacts[i]).None?;
      assert !Resolvable(s, w, nn, i);
    }
  }

  lemma JobReadyIff(s: Snapshot, w: World, nn: NN, job: Job)
    requires Sets(s, w, nn, job) && Sound(job)
    ensures MainReady(job) <==>
              && (forall sha: Sha :: Wanted(s, w, nn, sha) && sha in job.base.status ==> AwName(nn, sha) in w.aws)
              && (forall sha: Sha :: Wanted(s, w, nn, sha) && sha !in job.base.status ==> Decodes(s, w, nn, sha))
  {
    WantedAreDesired(s, w, nn, job);
    forall sha: Sha | sha in job.Creates()
      ensures SpecGood(job, sha) <==> Decodes(s, w, nn, sha)
    {
      DecodesIsGood(s, w, nn, job, sha);
    }
    assert forall sha: Sha :: job.Name(sha) == AwName(nn, sha);
  }

  // The spec of the last artifact with this key can be decoded, and has no empty key.
  ghost predicate Decodes(s: Snapshot, w: World, nn: NN, sha: Sha) {
    exists i: nat, d ::
      && HasKey(s, w, nn, i, d, sha)
      && (forall h: nat, e :: HasKey(s, w, nn, h, e, sha) ==> h <= i)
      && var fields := w.codec.parse(if d.artifact.raw == "" then "{}" else d.artifact.raw);
      fields.Some? && Flatten.WellKeyed(Flatten.Object(fields.value))
  }

  lemma WantedAreDesired(s: Snapshot, w: World, nn: NN, job: Job)
    requires Sets(s, w, nn, job)
    ensures forall sha: Sha :: Wanted(s, w, nn, sha) <==> sha in job.Desired()
  {
    forall sha: Sha
      ensures Wanted(s, w, nn, sha) <==> sha in job.Desired()
    {
      O.DesiredIsGreatest(job.shas, sha);
      if sha in job.Desired() {
        var i: nat := job.Desired()[sha];
        assert HasKey(s, w, nn, i, job.daws[i], sha);
      }
      if i: nat, d :| HasKey(s, w, nn, i, d, sha) {
        assert job.daws[i] == d && job.shas[i] == sha;
      }
    }
  }

  lemma DecodesIsGood(s: Snapshot, w: World, nn: NN, job: Job, sha: Sha)
    requires Sets(s, w, nn, job) && Sound(job) && sha in job.Desired()
    ensures SpecGood(job, sha) <==> Decodes(s, w, nn, sha)
  {
    O.DesiredIsGreatest(job.shas, sha);
    var i: nat := job.Desired()[sha];
    assert HasKey(s, w, nn, i, job.daws[i], sha);
    forall h: nat, e | HasKey(s, w, nn, h, e, sha)
      ensures h <= i && (h == i ==> e == job.daws[i])
    {
      assert job.daws[h] == e && job.shas[h] == sha;
    }
  }

  // ---------------------------------------------------------------------------------------------------
  // New generations
  // ---------------------------------------------------------------------------------------------------

  // In `s`, something that `d` was resolved with has another generation.
  ghost predicate Outdated(s: Snapshot, ns: string, d: Daw) {
    || (NN(ns, d.src.name) in s.endpoints && s.endpoints[NN(ns, d.src.name)].generation != d.src.generation)
    || (NN(ns, d.dst.name) in s.endpoints && s.endpoints[NN(ns, d.dst.name)].generation != d.dst.generation)
    || (d.srcSecret.name != "" && NN(ns, d.srcSecret.name) in s.secrets
        && s.secrets[NN(ns, d.srcSecret.name)].generation != d.srcSecret.generation)
    || (d.dstSecret.name != "" && NN(ns, d.dstSecret.name) in s.secrets
        && s.secrets[NN(ns, d.dstSecret.name)].generation != d.dstSecret.generation)
  }

  // When the generation of an endpoint or a secret changes, one complete reconcile tracks a new key, for which there is
  // an ArtifactWorkflow, and has deleted the one of the old key.
  lemma NewGeneration(s: Snapshot, w: World, n: World, nn: NN, d: Daw, i: nat, e: Daw)
    requires Named(s) && (forall x, y :: w.codec.hash(x) == w.codec.hash(y) ==> x == y)
    requires Completed(s, w, n, nn) && OnMain(w, nn) && ResolvedAs(s, w, nn, i, e)
    requires HashOf(w.codec, nn.ns, d) in w.orders[nn].status && Outdated(s, nn.ns, d)
    ensures var was, now := HashOf(w.codec, nn.ns, d), HashOf(w.codec, nn.ns, e);
            && was != now && nn in n.orders && was !in n.orders[nn].status && now in n.orders[nn].status
            && AwName(nn, now) in n.aws
            && (AwName(nn, was) in n.aws ==> n.aws[AwName(nn, was)].deleting)
  {
    var was, now := HashOf(w.codec, nn.ns, d), HashOf(w.codec, nn.ns, e);
    forall h: nat, f
      ensures !HasKey(s, w, nn, h, f, was)
    {
      if ResolvedAs(s, w, nn, h, f) {
        OutdatedKey(s, w, nn, d, h, f);
      }
    }
    OrderDeletes(s, w, n, nn, was);
    assert HasKey(s, w, nn, i, e, now);
    OrderTracks(s, w, n, nn, now);
    var job := MainJob(s, w, n, nn);
    TracksJob(job, w.orders, n, now);
    DesiredExists(job, n.aws, now);
    assert job.Name(now) == AwName(nn, now);
  }

  lemma OutdatedKey(s: Snapshot, w: World, nn: NN, d: Daw, i: nat, e: Daw)
    requires Named(s) && (forall x, y :: w.codec.hash(x) == w.codec.hash(y) ==> x == y)
    requires ResolvedAs(s, w, nn, i, e) && Outdated(s, nn.ns, d)
    ensures HashOf(w.codec, nn.ns, e) != HashOf(w.codec, nn.ns, d)
  {
    ResolvesTo(s, nn.ns, w.orders[nn].spec, w.orders[nn].spec.artifacts[i]);
    SameKeyIff(w.codec, nn.ns, e, nn.ns, d);
  }
}
