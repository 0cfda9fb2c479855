/**
 * What every action keeps about ArtifactWorkflows and their Workflows: version histories, the finalizer guard, one
 * Workflow per ArtifactWorkflow, and the origin of recorded phases. Each predicate names the parts of the cluster it
 * is about.
 */
module AwInvariant {
  import opened Types
  import opened Cluster
  import A = AwRun

  type Aws = map<NN, A.Aw>
  type Wfs = map<NN, Workflow>
  type Log = map<nat, AwVersion>
  type Floors = map<NN, nat>
  type Launches = set<(NN, nat)>

  // ---------------------------------------------------------------------------------------------------
  // Histories
  // ---------------------------------------------------------------------------------------------------

  // `b` was stored after `a` under the same name: a deletion mark and a completed phase stay within an incarnation,
  // and incarnations do not overlap.
  ghost predicate Follows(a: A.Aw, b: A.Aw) {
    && a.version < b.version
    && (a.uid == b.uid ==> (a.deleting ==> b.deleting) && (a.phase.Completed() ==> b.phase == a.phase))
    && (a.uid != b.uid ==> a.version < b.uid)
  }

  ghost predicate LogBounds(log: Log, clock: nat) {
    && 0 < clock
    && forall v :: v in log ==> log[v].aw.version == v && log[v].aw.uid <= v < clock
  }

  ghost predicate StoredLogged(aws: Aws, log: Log) {
    forall nn :: nn in aws ==> aws[nn].version in log && log[aws[nn].version] == AwVersion(nn, aws[nn])
  }

  ghost predicate StoredLatest(aws: Aws, log: Log) {
    forall v :: v in log && log[v].nn in aws ==> v <= aws[log[v].nn].version
  }

  ghost predicate LogOrdered(log: Log) {
    forall u, v :: u in log && v in log && u < v && log[u].nn == log[v].nn ==> Follows(log[u].aw, log[v].aw)
  }

  ghost predicate History(aws: Aws, log: Log, clock: nat) {
    LogBounds(log, clock) && StoredLogged(aws, log) && StoredLatest(aws, log) && LogOrdered(log)
  }

  lemma PutHistory(aws: Aws, log: Log, clock: nat, nn: NN, n: A.Aw)
    requires History(aws, log, clock) && n.version == clock && n.uid <= clock
    requires forall u :: u in log && log[u].nn == nn ==> Follows(log[u].aw, n)
    ensures History(aws[nn := n], log[clock := AwVersion(nn, n)], clock + 1)
  {
  }

  lemma DropHistory(aws: Aws, log: Log, clock: nat, nn: NN)
    requires History(aws, log, clock)
    ensures History(aws - {nn}, log, clock + 1)
  {
  }

  // An edit, a deletion mark, a finalizer or a phase: what may replace the stored object.
  ghost predicate Successor(s: A.Aw, a: A.Aw) {
    && a.uid == s.uid
    && (s.deleting ==> a.deleting)
    && (s.phase.Completed() ==> a.phase == s.phase)
  }

  lemma SuccessorFollows(aws: Aws, log: Log, clock: nat, nn: NN, n: A.Aw, u: nat)
    requires History(aws, log, clock) && n.version == clock && nn in aws && Successor(aws[nn], n)
    requires u in log && log[u].nn == nn
    ensures Follows(log[u].aw, n)
  {
  }

  // ---------------------------------------------------------------------------------------------------
  // Runs
  // ---------------------------------------------------------------------------------------------------

  // A reconcile in flight holds a stored version, the last one its controller has read.
  ghost predicate RunHolds(r: A.AwRun, nn: NN, log: Log, floor: Floors) {
    && A.WellFormed(r)
    && r.base.version in log
    && log[r.base.version] == AwVersion(nn, r.base)
    && Floor(floor, nn) == r.base.version
  }

  ghost predicate RunsHold(runs: map<NN, A.AwRun>, log: Log, floor: Floors) {
    forall nn :: nn in runs ==> RunHolds(runs[nn], nn, log, floor)
  }

  ghost predicate CleanedUp(runs: map<NN, A.AwRun>, wfs: Wfs) {
    forall nn :: nn in runs && runs[nn].DropFinalizer? ==> nn !in wfs
  }

  ghost predicate FloorsLogged(floor: Floors, log: Log) {
    forall nn :: nn in floor ==> floor[nn] in log && log[floor[nn]].nn == nn
  }

  // ---------------------------------------------------------------------------------------------------
  // Guard
  // ---------------------------------------------------------------------------------------------------

  // A Workflow exists only while its ArtifactWorkflow is stored and carries the finalizer.
  ghost predicate Guarded(wfs: Wfs, aws: Aws) {
    forall nn :: nn in wfs ==> nn in aws && A.AW_FINALIZER in aws[nn].finalizers
  }

  // A version the controller may still read and act upon.
  ghost predicate Readable(log: Log, floor: Floors, v: nat) {
    v in log && Floor(floor, log[v].nn) <= v && !log[v].aw.deleting
  }

  ghost predicate Held(aws: Aws, nn: NN, a: A.Aw) {
    nn in aws && aws[nn].uid == a.uid && A.AW_FINALIZER in aws[nn].finalizers
  }

  // A readable version with the finalizer is of the stored incarnation, which still has it.
  ghost predicate ReadableHeld(log: Log, floor: Floors, aws: Aws) {
    forall v :: Readable(log, floor, v) && A.AW_FINALIZER in log[v].aw.finalizers ==> Held(aws, log[v].nn, log[v].aw)
  }

  // The Workflow of a readable incarnation is still there once it has been launched.
  ghost predicate ReadableLaunched(log: Log, floor: Floors, launched: Launches, wfs: Wfs) {
    forall v :: Readable(log, floor, v) && (log[v].nn, log[v].aw.uid) in launched ==> log[v].nn in wfs
  }

  ghost predicate LaunchedSeen(launched: Launches, floor: Floors) {
    forall p :: p in launched ==> p.1 <= Floor(floor, p.0)
  }

  ghost predicate Guard(aws: Aws, wfs: Wfs, log: Log, floor: Floors, launched: Launches) {
    && Guarded(wfs, aws)
    && ReadableHeld(log, floor, aws)
    && ReadableLaunched(log, floor, launched, wfs)
    && LaunchedSeen(launched, floor)
    && FloorsLogged(floor, log)
  }

  // Nothing can act on this name any more: no Workflow, no readable version that could launch one.
  ghost predicate Quiet(nn: NN, wfs: Wfs, log: Log, floor: Floors, launched: Launches) {
    && nn !in wfs
    && forall v :: Readable(log, floor, v) && log[v].nn == nn ==>
        A.AW_FINALIZER !in log[v].aw.finalizers && (nn, log[v].aw.uid) !in launched
  }

  lemma StoredReadable(aws: Aws, log: Log, clock: nat, floor: Floors, nn: NN)
    requires History(aws, log, clock) && FloorsLogged(floor, log) && nn in aws && !aws[nn].deleting
    ensures Readable(log, floor, aws[nn].version)
  {
  }

  lemma PutGuard(aws: Aws, wfs: Wfs, log: Log, clock: nat, floor: Floors, launched: Launches, nn: NN, n: A.Aw)
    requires History(aws, log, clock) && Guard(aws, wfs, log, floor, launched)
    requires n.version == clock && nn in aws && Successor(aws[nn], n)
    requires A.AW_FINALIZER in aws[nn].finalizers ==> A.AW_FINALIZER in n.finalizers
    ensures Guard(aws[nn := n], wfs, log[clock := AwVersion(nn, n)], floor, launched)
  {
    var log' := log[clock := AwVersion(nn, n)];
    forall v | Readable(log', floor, v)
      ensures A.AW_FINALIZER in log'[v].aw.finalizers ==> Held(aws[nn := n], log'[v].nn, log'[v].aw)
      ensures (log'[v].nn, log'[v].aw.uid) in launched ==> log'[v].nn in wfs
    {
      if v == clock {
        StoredReadable(aws, log, clock, floor, nn);
      } else {
        assert Readable(log, floor, v);
      }
    }
  }

  lemma PutQuietGuard(aws: Aws, wfs: Wfs, log: Log, clock: nat, floor: Floors, launched: Launches, nn: NN, n: A.Aw)
    requires History(aws, log, clock) && Guard(aws, wfs, log, floor, launched)
    requires Quiet(nn, wfs, log, floor, launched) && n.deleting
    ensures Guard(aws[nn := n], wfs, log[clock := AwVersion(nn, n)], floor, launched)
  {
    var log' := log[clock := AwVersion(nn, n)];
    assert forall v :: Readable(log', floor, v) ==> v != clock && Readable(log, floor, v);
  }

  lemma DropGuard(aws: Aws, wfs: Wfs, log: Log, clock: nat, floor: Floors, launched: Launches, nn: NN)
    requires Guard(aws, wfs, log, floor, launched) && Quiet(nn, wfs, log, floor, launched)
    ensures Guard(aws - {nn}, wfs, log, floor, launched)
  {
  }

  lemma CreateGuard(aws: Aws, wfs: Wfs, log: Log, clock: nat, floor: Floors, launched: Launches, nn: NN, n: A.Aw)
    requires History(aws, log, clock) && Guard(aws, wfs, log, floor, launched)
    requires nn !in aws && n.version == n.uid == clock
    ensures Guard(aws[nn := n], wfs, log[clock := AwVersion(nn, n)], floor, launched)
  {
    var log' := log[clock := AwVersion(nn, n)];
    assert Floor(floor, nn) < clock;
    assert (nn, clock) !in launched;
    forall v | Readable(log', floor, v)
      ensures A.AW_FINALIZER in log'[v].aw.finalizers ==> Held(aws[nn := n], log'[v].nn, log'[v].aw)
      ensures (log'[v].nn, log'[v].aw.uid) in launched ==> log'[v].nn in wfs
    {
      if v != clock {
        assert Readable(log, floor, v);
      }
    }
  }

  // An ArtifactWorkflow without the finalizer is quiet.
  lemma UnfinalizedQuiet(aws: Aws, wfs: Wfs, log: Log, floor: Floors, launched: Launches, nn: NN)
    requires Guard(aws, wfs, log, floor, launched) && nn in aws && A.AW_FINALIZER !in aws[nn].finalizers
    ensures Quiet(nn, wfs, log, floor, launched)
  {
  }

  // So is one whose deletion the controller has read and whose Workflow is gone.
  lemma CleanedQuiet(aws: Aws, wfs: Wfs, log: Log, clock: nat, floor: Floors, launched: Launches, nn: NN)
    requires History(aws, log, clock) && Guard(aws, wfs, log, floor, launched)
    requires nn in aws && aws[nn].deleting && Floor(floor, nn) == aws[nn].version && nn !in wfs
    ensures Quiet(nn, wfs, log, floor, launched)
  {
  }

  // Deleting the Workflow of an incarnation whose deletion mark has been read.
  lemma CleanGuard(aws: Aws, wfs: Wfs, log: Log, clock: nat, floor: Floors, launched: Launches, nn: NN, a: A.Aw)
    requires History(aws, log, clock) && Guard(aws, wfs, log, floor, launched)
    requires a.deleting && a.version in log && log[a.version] == AwVersion(nn, a) && Floor(floor, nn) == a.version
    ensures Guard(aws, wfs - {nn}, log, floor, launched)
  {
  }

  lemma LaunchGuard(aws: Aws, wfs: Wfs, log: Log, clock: nat, floor: Floors, launched: Launches, nn: NN, a: A.Aw,
                    wf: Workflow)
    requires History(aws, log, clock) && Guard(aws, wfs, log, floor, launched)
    requires A.Active(a) && a.version in log && log[a.version] == AwVersion(nn, a) && Floor(floor, nn) == a.version
    requires nn !in wfs
    ensures (nn, a.uid) !in launched
    ensures Guard(aws, wfs[nn := wf], log, floor, launched + {(nn, a.uid)})
  {
  }

  // A Workflow reports: the names do not change.
  lemma SameNamesGuard(aws: Aws, wfs: Wfs, wfs': Wfs, log: Log, floor: Floors, launched: Launches)
    requires Guard(aws, wfs, log, floor, launched) && wfs'.Keys == wfs.Keys
    ensures Guard(aws, wfs', log, floor, launched)
  {
  }

  lemma FetchGuard(aws: Aws, wfs: Wfs, log: Log, floor: Floors, launched: Launches, nn: NN, v: nat)
    requires Guard(aws, wfs, log, floor, launched) && v in log && log[v].nn == nn && Floor(floor, nn) <= v
    ensures Guard(aws, wfs, log, floor[nn := v], launched)
  {
  }
}
