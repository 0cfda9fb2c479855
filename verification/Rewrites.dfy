/** Which edits of an Order cost nothing, and what reconciles leave behind. */
module Rewrites {
  import opened Types
  import opened Cluster
  import opened ApiClient
  import opened OrderEffects
  import opened Resumption
  import opened Convergence
  import O = OrderRun

  // ---------------------------------------------------------------------------------------------------
  // Specs that ask for the same work
  // ---------------------------------------------------------------------------------------------------

  // An artifact with its references resolved against the defaults.
  datatype Work = Work(typ: string, src: string, dst: string, raw: string)

  function WorkOf(spec: OrderSpec, a: Artifact): Work {
    Work(a.typ, O.RefOr(a.srcRef, spec.defaultSrc), O.RefOr(a.dstRef, spec.defaultDst), a.raw)
  }

  function WorkSet(spec: OrderSpec): set<Work> {
    set a | a in spec.artifacts :: WorkOf(spec, a)
  }

  // Artifacts may be reordered and repeated.
  lemma ReorderingKeepsWork(p: OrderSpec, q: OrderSpec)
    requires p.defaultSrc == q.defaultSrc && p.defaultDst == q.defaultDst
    requires forall a :: a in p.artifacts <==> a in q.artifacts
    ensures WorkSet(p) == WorkSet(q)
  {
  }

  // Explicit references that name the new default are dropped, and references that relied on the old one are written
  // out.
  function UseDefault(ref: string, was: string, now: string): string {
    if O.RefOr(ref, was) == now then "" else O.RefOr(ref, was)
  }

  function MoveToDefaults(spec: OrderSpec, src: string, dst: string): OrderSpec {
    OrderSpec(src, dst, seq(|spec.artifacts|, i requires 0 <= i < |spec.artifacts| =>
      var a := spec.artifacts[i];
      a.(srcRef := UseDefault(a.srcRef, spec.defaultSrc, src), dstRef := UseDefault(a.dstRef, spec.defaultDst, dst))))
  }

  // Every artifact names its endpoints, itself or through the defaults.
  predicate FullyReferenced(spec: OrderSpec) {
    forall a :: a in spec.artifacts ==>
      O.RefOr(a.srcRef, spec.defaultSrc) != "" && O.RefOr(a.dstRef, spec.defaultDst) != ""
  }

  lemma MovingKeepsWork(p: OrderSpec, src: string, dst: string)
    requires FullyReferenced(p)
    ensures WorkSet(MoveToDefaults(p, src, dst)) == WorkSet(p)
  {
    var q := MoveToDefaults(p, src, dst);
    forall i | 0 <= i < |p.artifacts|
      ensures WorkOf(q, q.artifacts[i]) == WorkOf(p, p.artifacts[i])
    {
      assert p.artifacts[i] in p.artifacts;
    }
    PointwiseWork(p, q);
  }

  lemma PointwiseWork(p: OrderSpec, q: OrderSpec)
    requires |p.artifacts| == |q.artifacts|
    requires forall i :: 0 <= i < |p.artifacts| ==> WorkOf(q, q.artifacts[i]) == WorkOf(p, p.artifacts[i])
    ensures WorkSet(p) == WorkSet(q)
  {
  }

  // ---------------------------------------------------------------------------------------------------
  // The same work has the same keys
  // ---------------------------------------------------------------------------------------------------

  lemma SameWorkResolves(s: Snapshot, codec: Codec, ns: string, p: OrderSpec, a: Artifact, q: OrderSpec, b: Artifact)
    requires WorkOf(p, a) == WorkOf(q, b)
    ensures ResolveArtifact(s, ns, p, a).Some? <==> ResolveArtifact(s, ns, q, b).Some?
    ensures ResolveArtifact(s, ns, p, a).Some? ==>
              HashOf(codec, ns, ResolveArtifact(s, ns, p, a).value)
              == HashOf(codec, ns, ResolveArtifact(s, ns, q, b).value)
  {
  }

  // An artifact of `q` with the work of artifact `i` of `p`.
  lemma Counterpart(p: OrderSpec, q: OrderSpec, i: nat) returns (j: nat)
    requires WorkSet(p) <= WorkSet(q) && i < |p.artifacts|
    ensures j < |q.artifacts| && WorkOf(q, q.artifacts[j]) == WorkOf(p, p.artifacts[i])
  {
    assert p.artifacts[i] in p.artifacts;
    assert WorkOf(p, p.artifacts[i]) in WorkSet(q);
    var b :| b in q.artifacts && WorkOf(q, b) == WorkOf(p, p.artifacts[i]);
    j :| 0 <= j < |q.artifacts| && q.artifacts[j] == b;
  }

  lemma KeysWithin(s: Snapshot, codec: Codec, ns: string, p: OrderSpec, q: OrderSpec)
    requires WorkSet(p) <= WorkSet(q) && ResolveAll(s, ns, q).Some?
    ensures ResolveAll(s, ns, p).Some?
    ensures forall k :: k in Keys(codec, ns, ResolveAll(s, ns, p).value) ==>
              k in Keys(codec, ns, ResolveAll(s, ns, q).value)
  {
    forall i | 0 <= i < |p.artifacts|
      ensures ResolveArtifact(s, ns, p, p.artifacts[i]).Some?
      ensures HashOf(codec, ns, ResolveArtifact(s, ns, p, p.artifacts[i]).value)
              in Keys(codec, ns, ResolveAll(s, ns, q).value)
    {
      var j := Counterpart(p, q, i);
      SameWorkResolves(s, codec, ns, p, p.artifacts[i], q, q.artifacts[j]);
      assert Keys(codec, ns, ResolveAll(s, ns, q).value)[j] in Keys(codec, ns, ResolveAll(s, ns, q).value);
    }
  }

  // Specs that ask for the same work resolve alike and have the same desired keys.
  lemma SameWorkSameKeys(s: Snapshot, codec: Codec, ns: string, p: OrderSpec, q: OrderSpec)
    requires WorkSet(p) == WorkSet(q) && ResolveAll(s, ns, p).Some?
    ensures ResolveAll(s, ns, q).Some?
    ensures O.Desired(Keys(codec, ns, ResolveAll(s, ns, p).value)).Keys
            == O.Desired(Keys(codec, ns, ResolveAll(s, ns, q).value)).Keys
  {
    KeysWithin(s, codec, ns, q, p);
    KeysWithin(s, codec, ns, p, q);
    O.DesiredKeys(Keys(codec, ns, ResolveAll(s, ns, p).value));
    O.DesiredKeys(Keys(codec, ns, ResolveAll(s, ns, q).value));
  }

  // The user edits the spec, nothing else changes.
  ghost predicate Edited(w: World, e: World, nn: NN, q: OrderSpec) {
    && nn in w.orders && nn in e.orders && e.codec == w.codec && e.aws == w.aws
    && e.orders[nn] == w.orders[nn].(spec := q, version := e.orders[nn].version)
  }

  // A settled Order that is rewritten to ask for the same work is still settled, so reconciling it creates, deletes
  // and writes nothing.
  lemma RewritesAreFree(s: Snapshot, w: World, e: World, n: World, nn: NN, q: OrderSpec)
    requires Settled(s, w, nn) && Edited(w, e, nn, q) && WorkSet(q) == WorkSet(w.orders[nn].spec)
    ensures Settled(s, e, nn)
    ensures Run(s, e, n, nn) ==> n.aws == e.aws && n.orders == e.orders
  {
    var p := w.orders[nn].spec;
    SameWorkSameKeys(s, w.codec, nn.ns, p, q);
    var job := JobOf(w, nn, ResolveAll(s, nn.ns, p).value);
    var job' := JobOf(e, nn, ResolveAll(s, nn.ns, q).value);
    StillSettled(job, job');
    assert Sets(s, e, nn, job');
    if Run(s, e, n, nn) {
      SettledIsStable(s, e, n, nn);
    }
  }

  lemma StillSettled(job: Job, other: Job)
    requires JobSettled(job) && other.nn == job.nn && other.before == job.before
    requires other.base.status == job.base.status && other.Desired().Keys == job.Desired().Keys
    ensures JobSettled(other)
  {
  }

  // ---------------------------------------------------------------------------------------------------
  // Stale indices
  // ---------------------------------------------------------------------------------------------------

  ghost predicate Indexed(status: Status, desired: map<Sha, int>) {
    status.Keys == desired.Keys && forall sha: Sha :: sha in status ==> status[sha].index == desired[sha]
  }

  // Indices are refreshed only together with something else: after a complete run they are right if and only if
  // there was something to write, or they were right already.
  lemma IndicesAreRightIff(s: Snapshot, w: World, n: World, nn: NN)
    requires OnMainPath(w, nn) && Run(s, w, n, nn)
    ensures nn in n.orders
    ensures var job := JobOf(w, nn, ResolveAll(s, nn.ns, w.orders[nn].spec).value);
            Indexed(n.orders[nn].status, job.Desired())
            <==> Dirty(job, job.Keeps()) || Indexed(w.orders[nn].status, job.Desired())
  {
    var job, next := MainRun(s, w, n, nn);
  }

  // In particular a pure reorder of a settled Order leaves every index as it was.
  lemma PureReorderGoesStale(s: Snapshot, w: World, e: World, n: World, nn: NN, q: OrderSpec, job: Job, job': Job)
    requires Settled(s, w, nn) && Edited(w, e, nn, q) && WorkSet(q) == WorkSet(w.orders[nn].spec)
    requires Sets(s, w, nn, job) && Indexed(w.orders[nn].status, job.Desired())
    requires Sets(s, e, nn, job') && Run(s, e, n, nn)
    ensures nn in n.orders
    ensures Indexed(n.orders[nn].status, job'.Desired()) <==> job'.Desired() == job.Desired()
  {
    RewritesAreFree(s, w, e, n, nn, q);
  }

  // ---------------------------------------------------------------------------------------------------
  // Orphans
  // ---------------------------------------------------------------------------------------------------

  // The key is neither tracked nor desired.
  ghost predicate Untracked(s: Snapshot, w: World, nn: NN, sha: Sha) {
    nn in w.orders ==>
      && sha !in w.orders[nn].status
      && (ResolveAll(s, nn.ns, w.orders[nn].spec).Some? ==>
            sha !in Keys(w.codec, nn.ns, ResolveAll(s, nn.ns, w.orders[nn].spec).value))
  }

  lemma LeftAloneOnce(s: Snapshot, w: World, n: World, nn: NN, sha: Sha)
    requires Untracked(s, w, nn, sha) && n.codec == w.codec && (Completed(s, w, n, nn) || CutOff(s, w, n, nn))
    ensures Untracked(s, n, nn, sha) && SameIn(w.aws, n.aws, AwName(nn, sha))
  {
    if nn in w.orders && w.orders[nn].deleting {
      CleanupLeavesAlone(s, w, n, nn, sha);
    } else if OnMainPath(w, nn) && ResolveAll(s, nn.ns, w.orders[nn].spec).Some? {
      MainLeavesAlone(JobOf(w, nn, ResolveAll(s, nn.ns, w.orders[nn].spec).value), w.orders, n, sha);
    }
  }

  lemma MainLeavesAlone(job: Job, before: Orders, n: World, sha: Sha)
    requires job.nn in before && before[job.nn] == job.base && !job.base.deleting
    requires MainDone(job, before, n) || MainCut(job, before, n)
    requires sha !in job.shas && sha !in job.base.status
    ensures job.nn in n.orders && n.orders[job.nn].spec == job.base.spec && sha !in n.orders[job.nn].status
    ensures SameIn(job.before, n.aws, job.Name(sha))
  {
    O.DesiredIsGreatest(job.shas, sha);
    if MainDone(job, before, n) {
      OutOfReach(job, n.aws, job.Creates(), job.Deletes(), sha);
    } else {
      CutLeavesAlone(job, before, n, sha);
    }
  }

  lemma CleanupLeavesAlone(s: Snapshot, w: World, n: World, nn: NN, sha: Sha)
    requires nn in w.orders && w.orders[nn].deleting && sha !in w.orders[nn].status
    requires Completed(s, w, n, nn) || CutOff(s, w, n, nn)
    ensures nn in n.orders ==> n.orders[nn].spec == w.orders[nn].spec && sha !in n.orders[nn].status
    ensures SameIn(w.aws, n.aws, AwName(nn, sha))
  {
    NothingDeleted(w.aws, nn);
    assert Cleaned(w.aws, n.aws, nn, w.orders[nn].status.Keys);
    OthersUncleaned(w.aws, n.aws, nn, w.orders[nn].status.Keys, sha);
  }

  lemma OthersUncleaned(before: Aws, after: Aws, nn: NN, shas: set<Sha>, sha: Sha)
    requires Cleaned(before, after, nn, shas) && sha !in shas
    ensures SameIn(before, after, AwName(nn, sha))
  {
    var delivered: set<Sha> :| delivered <= shas && Deleted(before, after, nn, delivered);
    InNames(nn, delivered, sha);
  }

  // An ArtifactWorkflow that was created by a reconcile which never got to write its status, and whose key then left
  // the spec, is neither tracked nor desired: no number of reconciles, complete or cut off, touches it again.
  lemma {:induction false} UntrackedIsLeftAlone(s: Snapshot, ws: seq<World>, nn: NN, sha: Sha)
    requires Runs(s, ws, nn) && Untracked(s, ws[0], nn, sha)
    ensures SameIn(ws[0].aws, ws[|ws| - 1].aws, AwName(nn, sha))
    decreases |ws|
  {
    if |ws| == 1 {
    } else {
      FirstOfRuns(s, ws, nn);
      LeftAloneOnce(s, ws[0], ws[1], nn, sha);
      UntrackedIsLeftAlone(s, ws[1..], nn, sha);
    }
  }

  lemma CutLeavesAlone(job: Job, before: Orders, n: World, sha: Sha)
    requires MainCut(job, before, n) && sha !in job.Desired() && sha !in job.base.status
    ensures SameIn(job.before, n.aws, job.Name(sha))
  {
    var made, gone :| Within(job, made, gone) && AwsAre(job, n.aws, made, gone);
    OutOfReach(job, n.aws, made, gone, sha);
  }

  // An ArtifactWorkflow that nothing tracks and nothing will delete.
  ghost predicate Orphaned(w: World, nn: NN, sha: Sha) {
    var x := AwName(nn, sha);
    x in w.aws && !w.aws[x].deleting && !(nn in w.orders && sha in w.orders[nn].status)
  }

  // A complete reconcile leaves an orphan behind if and only if the key was neither tracked nor desired before.
  lemma OrphanIff(s: Snapshot, w: World, n: World, nn: NN, sha: Sha)
    requires OnMainPath(w, nn) && Run(s, w, n, nn)
    requires AwName(nn, sha) in w.aws && !w.aws[AwName(nn, sha)].deleting
    ensures Orphaned(n, nn, sha) <==> Untracked(s, w, nn, sha)
  {
    var job, next := MainRun(s, w, n, nn);
    O.DesiredIsGreatest(job.shas, sha);
    if Untracked(s, w, nn, sha) {
      LeftAloneOnce(s, w, n, nn, sha);
    } else if sha in job.Desired() {
      FirstRun(job, w.orders, n, next);
      assert sha !in next.Creates();
    } else {
      assert sha in job.Deletes() && GoneAw(job.before, n.aws, job.Name(sha));
    }
  }
}
