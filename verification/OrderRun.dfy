/**
 * One Order reconcile as a state machine: what the worker holds in its local variables between two API calls.
 * The imperative reconciler follows these states, and the cluster model interleaves them with everything else.
 */
module OrderRun {
  import opened Types

  const ORDER_FINALIZER := "arc.bwi.de/order-finalizer"

  datatype Order = Order(
    uid: nat, version: nat, finalizers: set<string>, deleting: bool, spec: OrderSpec, status: Status)

  // ---------------------------------------------------------------------------------------------------
  // Desired state
  // ---------------------------------------------------------------------------------------------------

  function RefOr(ref: string, fallback: string): string {
    if ref == "" then fallback else ref
  }

  // `d` is what resolving artifact `i` of the spec may yield: objects carry the names they were fetched by.
  predicate Resolves(spec: OrderSpec, i: nat, d: Daw)
    requires i < |spec.artifacts|
  {
    var artifact := spec.artifacts[i];
    && d.artifact == artifact
    && d.src.name == RefOr(artifact.srcRef, spec.defaultSrc)
    && d.dst.name == RefOr(artifact.dstRef, spec.defaultDst)
    && SecretFor(d.src.secretRef, d.srcSecret)
    && SecretFor(d.dst.secretRef, d.dstSecret)
  }

  predicate SecretFor(ref: string, s: Secret) {
    if ref == "" then s == Secret("", 0) else s.name == ref
  }

  // The desired map, reduced to its indices: later artifacts overwrite earlier ones with the same key.
  function Desired(shas: seq<Sha>): map<Sha, int> {
    if shas == [] then map[]
    else Desired(shas[..|shas| - 1])[shas[|shas| - 1] := |shas| - 1]
  }

  // Its keys are the hashes, and each index is the greatest with that hash.
  lemma {:induction false} DesiredIsGreatest(shas: seq<Sha>, s: Sha)
    ensures s in Desired(shas) <==> s in shas
    ensures s in Desired(shas) ==>
              && 0 <= Desired(shas)[s] < |shas|
              && shas[Desired(shas)[s]] == s
              && forall i :: Desired(shas)[s] < i < |shas| ==> shas[i] != s
  {
    if shas == [] {
    } else {
      var n := |shas| - 1;
      DesiredIsGreatest(shas[..n], s);
      assert shas == shas[..n] + [shas[n]];
      forall i | 0 <= i < n
        ensures shas[..n][i] == shas[i]
      {}
    }
  }

  lemma DesiredKeys(shas: seq<Sha>)
    ensures Desired(shas).Keys == set s | s in shas
  {
  }

  // ---------------------------------------------------------------------------------------------------
  // States
  // ---------------------------------------------------------------------------------------------------

  // `base` is the object as it was read; `status` is the worker's copy of its status, edited in place.
  datatype OrderRun =
    // deletion: a Delete for every tracked key, then a status write
    | Cleanup(base: Order, status: Status)
    | DropFinalizer(base: Order)
    | AddFinalizer(base: Order)
    // artifacts [0..|daws|) are resolved
    | Resolving(base: Order, daws: seq<Daw>, shas: seq<Sha>)
    // keys still to create, to delete and to compare; the status is written at the end if `dirty`
    | Main(base: Order, daws: seq<Daw>, shas: seq<Sha>, status: Status,
           creates: set<Sha>, deletes: set<Sha>, syncs: set<Sha>, dirty: bool)

  // The state after the first Get, None when the reconcile returns right away.
  function Begin(o: Order): Option<OrderRun> {
    if o.deleting then
      if o.status != map[] then Some(Cleanup(o, o.status))
      else if ORDER_FINALIZER in o.finalizers then Some(DropFinalizer(o))
      else None
    else if ORDER_FINALIZER !in o.finalizers then Some(AddFinalizer(o))
    else Some(Proceed(o, [], []))
  }

  // Resolve the next artifact, or compute the difference to the status once all are resolved.
  function Proceed(o: Order, daws: seq<Daw>, shas: seq<Sha>): OrderRun {
    if |daws| < |o.spec.artifacts| then Resolving(o, daws, shas)
    else
      var desired := Desired(shas).Keys;
      var creates, deletes := desired - o.status.Keys, o.status.Keys - desired;
      Main(o, daws, shas, o.status, creates, deletes, desired * o.status.Keys, creates != {} || deletes != {})
  }

  function AfterResolve(r: OrderRun, d: Daw, sha: Sha): OrderRun
    requires r.Resolving?
  {
    Proceed(r.base, r.daws + [d], r.shas + [sha])
  }

  // A successful Create is entered into the status; AlreadyExists is not.
  function AfterCreate(r: OrderRun, sha: Sha, isNew: bool): OrderRun
    requires r.Main? && sha in Desired(r.shas)
  {
    r.(status := if isNew then r.status[sha := Entry(Desired(r.shas)[sha], Unknown, "")] else r.status,
       creates := r.creates - {sha})
  }

  function AfterDelete(r: OrderRun, sha: Sha): OrderRun
    requires r.Main?
  {
    r.(status := r.status - {sha}, deletes := r.deletes - {sha})
  }

  function AfterSync(r: OrderRun, sha: Sha, phase: Phase): OrderRun
    requires r.Main? && sha in r.status
  {
    if r.status[sha].phase == phase then r.(syncs := r.syncs - {sha})
    else r.(status := r.status[sha := r.status[sha].(phase := phase)], syncs := r.syncs - {sha}, dirty := true)
  }

  // The last loop before the status write: every desired key gets its current index.
  function Refresh(status: Status, desired: map<Sha, int>): Status {
    status + map sha: Sha | sha in desired ::
      (if sha in status then status[sha].(index := desired[sha]) else Entry(desired[sha], Unknown, ""))
  }

  predicate ReadyToWrite(r: OrderRun) {
    r.Main? && r.creates == {} && r.deletes == {} && r.syncs == {} && r.dirty
  }

  // ---------------------------------------------------------------------------------------------------
  // What every state of a reconcile satisfies
  // ---------------------------------------------------------------------------------------------------

  ghost predicate Resolved(o: Order, daws: seq<Daw>, shas: seq<Sha>) {
    && |daws| == |shas| <= |o.spec.artifacts|
    && forall i :: 0 <= i < |daws| ==> Resolves(o.spec, i, daws[i])
  }

  ghost predicate WellFormed(r: OrderRun) {
    match r
    case Cleanup(o, status) => o.deleting && status.Keys <= o.status.Keys
    case DropFinalizer(o) => o.deleting && o.status == map[] && ORDER_FINALIZER in o.finalizers
    case AddFinalizer(o) => !o.deleting && ORDER_FINALIZER !in o.finalizers
    case Resolving(o, daws, shas) =>
      !o.deleting && ORDER_FINALIZER in o.finalizers && Resolved(o, daws, shas) && |daws| < |o.spec.artifacts|
    case Main(o, daws, shas, status, creates, deletes, syncs, dirty) =>
      && !o.deleting && ORDER_FINALIZER in o.finalizers
      && Resolved(o, daws, shas) && |daws| == |o.spec.artifacts|
      && creates <= Desired(shas).Keys - o.status.Keys
      && deletes <= o.status.Keys - Desired(shas).Keys
      && syncs <= o.status.Keys * Desired(shas).Keys
      && o.status.Keys * Desired(shas).Keys <= status.Keys <= o.status.Keys + Desired(shas).Keys
      && status.Keys - Desired(shas).Keys == deletes
  }

  lemma BeginWellFormed(o: Order)
    requires Begin(o).Some?
    ensures WellFormed(Begin(o).value)
  {
  }

  lemma ResolveWellFormed(r: OrderRun, d: Daw, sha: Sha)
    requires r.Resolving? && WellFormed(r) && Resolves(r.base.spec, |r.daws|, d)
    ensures WellFormed(AfterResolve(r, d, sha))
  {
  }

  // The status a reconcile writes tracks exactly the keys of the artifacts, each with the greatest index that has it,
  // no matter which keys were found to exist already.
  lemma WrittenStatusIsExact(r: OrderRun, s: Sha)
    requires WellFormed(r) && ReadyToWrite(r)
    ensures var written := Refresh(r.status, Desired(r.shas));
            && |r.shas| == |r.base.spec.artifacts|
            && (s in written <==> s in r.shas)
            && (s in written ==>
                  && 0 <= written[s].index < |r.shas|
                  && r.shas[written[s].index] == s
                  && forall i :: written[s].index < i < |r.shas| ==> r.shas[i] != s)
  {
    DesiredIsGreatest(r.shas, s);
  }
}
