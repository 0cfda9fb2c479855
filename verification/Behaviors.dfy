/** Safety over whole runs: every interleaving of users, Argo, both controllers, crashes and stale reads. */
module Behaviors {
  import opened Types
  import opened Cluster
  import opened Frames
  import AwInvariant
  import opened AwSteps
  import opened OrderSteps
  import opened Progress
  import O = OrderRun
  import A = AwRun

  datatype Behavior = Behavior(states: seq<World>, actions: seq<Action>)

  ghost predicate StepAt(b: Behavior, i: nat)
    requires i < |b.actions| && |b.states| == |b.actions| + 1
  {
    Enabled(b.states[i], b.actions[i]) && b.states[i + 1] == Next(b.states[i], b.actions[i])
  }

  ghost predicate Valid(b: Behavior) {
    && |b.states| == |b.actions| + 1
    && b.states[0] == Init(b.states[0].codec)
    && forall i: nat :: i < |b.actions| ==> StepAt(b, i)
  }

  ghost predicate Inv(w: World) {
    AwInv(w) && OrderInv(w)
  }

  lemma {:induction false} Holds(b: Behavior, i: nat)
    requires Valid(b) && i <= |b.actions|
    ensures Inv(b.states[i])
  {
    if i == 0 {
      AwInit(b.states[0].codec);
      OrderInit(b.states[0].codec);
    } else {
      Holds(b, i - 1);
      assert StepAt(b, i - 1);
      AwStep(b.states[i - 1], b.actions[i - 1]);
      OrderStep(b.states[i - 1], b.actions[i - 1]);
    }
  }

  // Worlds that some run leads to.
  ghost predicate Reachable(w: World) {
    exists b :: EndsIn(b, w)
  }

  ghost predicate EndsIn(b: Behavior, w: World) {
    Valid(b) && b.states[|b.actions|] == w
  }

  lemma ReachableInit(codec: Codec)
    ensures Reachable(Init(codec))
  {
    assert EndsIn(Behavior([Init(codec)], []), Init(codec));
  }

  lemma ReachableStep(w: World, a: Action)
    requires Reachable(w) && Enabled(w, a)
    ensures Reachable(Next(w, a))
  {
    var b :| EndsIn(b, w);
    var c := Behavior(b.states + [Next(w, a)], b.actions + [a]);
    forall i: nat | i < |c.actions|
      ensures StepAt(c, i)
    {
      assert i < |b.actions| ==> StepAt(b, i);
    }
    assert EndsIn(c, Next(w, a));
  }

  lemma ReachableInv(w: World)
    requires Reachable(w)
    ensures Inv(w)
  {
    var b :| EndsIn(b, w);
    Holds(b, |b.actions|);
  }

  lemma AwHolds(b: Behavior, i: nat)
    requires Valid(b) && i <= |b.actions|
    ensures AwInv(b.states[i])
  {
    Holds(b, i);
  }

  // ---------------------------------------------------------------------------------------------------
  // No false completion
  // ---------------------------------------------------------------------------------------------------

  lemma {:induction false} ReportedEarlier(b: Behavior, i: nat, nn: NN, p: Phase)
    requires Valid(b) && i <= |b.actions| && (nn, p) in b.states[i].reported
    ensures exists j: nat :: j <= i && Shows(b.states[j], nn, p)
  {
    if i == 0 {
    } else {
      var w, a := b.states[i - 1], b.actions[i - 1];
      assert StepAt(b, i - 1);
      if (nn, p) in w.reported {
        ReportedEarlier(b, i - 1, nn, p);
      } else {
        ReportsComeFromArgo(w, a, nn, p);
        assert Shows(b.states[i], nn, p);
      }
    }
  }

  // A phase in an Order's status that is not Unknown or Pending, in particular a completed one, was shown at an
  // earlier point of the run by the Workflow of that key.
  lemma NoFalseCompletion(b: Behavior, i: nat, nn: NN, sha: Sha)
    requires Valid(b) && i <= |b.actions| && nn in b.states[i].orders && sha in b.states[i].orders[nn].status
    requires !b.states[i].orders[nn].status[sha].phase.Unknown? && !b.states[i].orders[nn].status[sha].phase.Pending?
    ensures exists j: nat :: j <= i &&
              Shows(b.states[j], AwName(nn, sha), b.states[i].orders[nn].status[sha].phase)
  {
    Holds(b, i);
    StoredReported(b.states[i], nn);
    ReportedEarlier(b, i, AwName(nn, sha), b.states[i].orders[nn].status[sha].phase);
  }

  // ---------------------------------------------------------------------------------------------------
  // Workflows
  // ---------------------------------------------------------------------------------------------------

  // A Workflow exists only while its ArtifactWorkflow is stored with the finalizer, so no ArtifactWorkflow
  // disappears before its Workflow.
  lemma FinalizerGuard(b: Behavior, i: nat, nn: NN)
    requires Valid(b) && i <= |b.actions| && nn in b.states[i].wfs
    ensures nn in b.states[i].aws && A.AW_FINALIZER in b.states[i].aws[nn].finalizers
  {
    Holds(b, i);
  }

  // Step `i` creates a Workflow for incarnation `uid` of an ArtifactWorkflow.
  ghost predicate LaunchesAt(b: Behavior, i: nat, nn: NN, uid: nat)
    requires i < |b.actions| && |b.states| == |b.actions| + 1
  {
    && nn !in b.states[i].wfs && nn in b.states[i + 1].wfs
    && nn in b.states[i].aws && b.states[i].aws[nn].uid == uid
  }

  lemma LaunchIsFirst(b: Behavior, i: nat, nn: NN, uid: nat)
    requires Valid(b) && i < |b.actions| && LaunchesAt(b, i, nn, uid)
    ensures (nn, uid) !in b.states[i].launched && (nn, uid) in b.states[i + 1].launched
  {
    var w, a := b.states[i], b.actions[i];
    Holds(b, i);
    assert StepAt(b, i);
    WorkflowsComeFromLaunch(w, a, nn);
    NewWorkflowInv(w, nn);
    LaunchHeld(w, nn);
  }

  lemma LaunchHeld(w: World, nn: NN)
    requires AwInv(w) && nn in w.awRuns && w.awRuns[nn].Launch?
    ensures AwInvariant.Held(w.aws, nn, w.awRuns[nn].base)
  {
  }

  lemma {:induction false} LaunchedStays(b: Behavior, i: nat, j: nat, x: (NN, nat))
    requires Valid(b) && i <= j <= |b.actions| && x in b.states[i].launched
    ensures x in b.states[j].launched
    decreases j
  {
    if i == j {
    } else {
      LaunchedStays(b, i, j - 1, x);
      assert StepAt(b, j - 1);
      LaunchedGrows(b.states[j - 1], b.actions[j - 1]);
    }
  }

  // However often the phase falls back to Unknown and the create path is entered again.
  lemma AtMostOneWorkflow(b: Behavior, i: nat, j: nat, nn: NN, uid: nat)
    requires Valid(b) && i < |b.actions| && j < |b.actions|
    requires LaunchesAt(b, i, nn, uid) && LaunchesAt(b, j, nn, uid)
    ensures i == j
  {
    LaunchIsFirst(b, i, nn, uid);
    LaunchIsFirst(b, j, nn, uid);
    if i < j {
      LaunchedStays(b, i + 1, j, (nn, uid));
    } else if j < i {
      LaunchedStays(b, j + 1, i, (nn, uid));
    }
  }

  // ---------------------------------------------------------------------------------------------------
  // Phases
  // ---------------------------------------------------------------------------------------------------

  lemma {:induction false} LogStays(b: Behavior, i: nat, j: nat, v: nat)
    requires Valid(b) && i <= j <= |b.actions| && v in b.states[i].awLog
    ensures v in b.states[j].awLog && b.states[j].awLog[v] == b.states[i].awLog[v]
    decreases j
  {
    if i == j {
    } else {
      LogStays(b, i, j - 1, v);
      Holds(b, j - 1);
      assert StepAt(b, j - 1);
      ClockPast(b.states[j - 1]);
      AwLogGrows(b.states[j - 1], b.actions[j - 1]);
    }
  }

  lemma ClockPast(w: World)
    requires AwInv(w)
    ensures w.clock !in w.awLog
  {
  }

  // The ArtifactWorkflow stored at point `i` is an earlier version of the one stored at point `j`.
  lemma StoredEarlier(b: Behavior, i: nat, j: nat, nn: NN)
    requires Valid(b) && i <= j <= |b.actions| && nn in b.states[i].aws && nn in b.states[j].aws
    ensures var x, y, log := b.states[i].aws[nn], b.states[j].aws[nn], b.states[j].awLog;
            && x.version in log && log[x.version] == AwVersion(nn, x)
            && y.version in log && log[y.version] == AwVersion(nn, y)
            && x.version <= y.version
  {
    Holds(b, i);
    Holds(b, j);
    LogStays(b, i, j, b.states[i].aws[nn].version);
  }

  // Completed phases are absorbing.
  lemma CompletedIsFinal(b: Behavior, i: nat, j: nat, nn: NN)
    requires Valid(b) && i <= j <= |b.actions| && nn in b.states[i].aws && nn in b.states[j].aws
    requires b.states[i].aws[nn].uid == b.states[j].aws[nn].uid
    requires var p := b.states[i].aws[nn].phase; p.Succeeded? || p.Failed? || p.Error?
    ensures b.states[j].aws[nn].phase == b.states[i].aws[nn].phase
  {
    StoredEarlier(b, i, j, nn);
    Holds(b, j);
    var x, y, log := b.states[i].aws[nn], b.states[j].aws[nn], b.states[j].awLog;
    assert x.version < y.version ==> AwInvariant.Follows(log[x.version].aw, log[y.version].aw);
  }

  ghost predicate ForwardRun(b: Behavior)
    requires Valid(b)
  {
    forall i: nat :: i < |b.actions| ==> ForwardAt(b, i)
  }

  ghost predicate ForwardAt(b: Behavior, i: nat)
    requires i < |b.actions| && |b.states| == |b.actions| + 1
  {
    StepAt(b, i) && Forward(b.states[i], b.actions[i])
  }

  lemma ProgressInit(codec: Codec)
    ensures ProgressInv(Init(codec))
  {
  }

  lemma {:induction false} ProgressHolds(b: Behavior, i: nat)
    requires Valid(b) && ForwardRun(b) && i <= |b.actions|
    ensures ProgressInv(b.states[i])
  {
    if i == 0 {
      ProgressInit(b.states[0].codec);
    } else {
      ProgressHolds(b, i - 1);
      ForwardStep(b, i - 1);
    }
  }

  lemma ForwardStep(b: Behavior, i: nat)
    requires Valid(b) && ForwardRun(b) && i < |b.actions| && ProgressInv(b.states[i])
    ensures ProgressInv(b.states[i + 1])
  {
    AwHolds(b, i);
    assert ForwardAt(b, i);
    ProgressStep(b.states[i], b.actions[i]);
  }

  lemma NothingFallsBehind(b: Behavior, i: nat, u: nat, v: nat)
    requires Valid(b) && ForwardRun(b) && i <= |b.actions|
    ensures var log := b.states[i].awLog;
            u in log && v in log && u < v && log[u].nn == log[v].nn ==> KeepsUp(log[u].aw, log[v].aw)
  {
    ProgressHolds(b, i);
  }

  lemma RankSplit(x: A.Aw, y: A.Aw)
    requires x.uid == y.uid && (x == y || KeepsUp(x, y))
    ensures Rank(x.phase) <= Rank(y.phase) || (x.phase.Pending? && y.phase.Unknown?)
  {
  }

  // If Argo moves forward, an ArtifactWorkflow that is running never goes back, and the only step back is from
  // Pending to Unknown.
  lemma PhaseProgress(b: Behavior, i: nat, j: nat, nn: NN)
    requires Valid(b) && ForwardRun(b) && i <= j <= |b.actions| && nn in b.states[i].aws && nn in b.states[j].aws
    requires b.states[i].aws[nn].uid == b.states[j].aws[nn].uid
    ensures var p, q := b.states[i].aws[nn].phase, b.states[j].aws[nn].phase;
            && (Rank(p) <= Rank(q) || (p.Pending? && q.Unknown?))
            && (q.Unknown? ==> p.Unknown? || p.Pending?)
            && (q.Pending? ==> p.Unknown? || p.Pending?)
            && (q.Running? ==> p.Unknown? || p.Pending? || p.Running?)
  {
    StoredEarlier(b, i, j, nn);
    var x, y := b.states[i].aws[nn], b.states[j].aws[nn];
    NothingFallsBehind(b, j, x.version, y.version);
    assert x == y || KeepsUp(x, y);
    RankSplit(x, y);
  }

  // The recorded phase never exceeds the later of Pending and the phase of the Workflow.
  lemma PhaseNotAhead(b: Behavior, i: nat, nn: NN)
    requires Valid(b) && ForwardRun(b) && i <= |b.actions| && nn in b.states[i].aws && nn in b.states[i].wfs
    ensures Rank(b.states[i].aws[nn].phase) <= AtLeastPending(Rank(b.states[i].wfs[nn].phase))
  {
    ProgressHolds(b, i);
  }

  // ---------------------------------------------------------------------------------------------------
  // Specs
  // ---------------------------------------------------------------------------------------------------

  // The spec users last gave to an Order.
  function LastSpec(actions: seq<Action>, nn: NN): Option<OrderSpec> {
    if actions == [] then None
    else
      match actions[|actions| - 1]
      case User(MakeOrder(m, spec, _)) => if m == nn then Some(spec) else LastSpec(actions[..|actions| - 1], nn)
      case User(EditOrder(m, spec, _)) => if m == nn then Some(spec) else LastSpec(actions[..|actions| - 1], nn)
      case _ => LastSpec(actions[..|actions| - 1], nn)
  }

  lemma {:induction false} WrittenIsLast(b: Behavior, i: nat, nn: NN)
    requires Valid(b) && i <= |b.actions|
    ensures LastSpec(b.actions[..i], nn) ==
            if nn in b.states[i].written then Some(b.states[i].written[nn]) else None
  {
    if i == 0 {
    } else {
      WrittenIsLast(b, i - 1, nn);
      assert StepAt(b, i - 1);
      assert b.actions[..i][..i - 1] == b.actions[..i - 1];
      WrittenByUsers(b.states[i - 1], b.actions[i - 1], nn);
    }
  }

  // No write of either controller is ever lost on, or wins over, a spec edit.
  lemma NoLostSpecEdits(b: Behavior, i: nat, nn: NN)
    requires Valid(b) && i <= |b.actions| && nn in b.states[i].orders
    ensures LastSpec(b.actions[..i], nn) == Some(b.states[i].orders[nn].spec)
  {
    Holds(b, i);
    WrittenIsLast(b, i, nn);
  }

  // Controllers never change the spec of a stored ArtifactWorkflow either.
  lemma ControllersKeepAwSpecs(b: Behavior, i: nat, nn: NN)
    requires Valid(b) && i < |b.actions| && !b.actions[i].User?
    requires nn in b.states[i].aws && nn in b.states[i + 1].aws
    ensures b.states[i + 1].aws[nn].spec == b.states[i].aws[nn].spec
  {
    AwSpecWritten(b, i, nn);
    AwSpecWritten(b, i + 1, nn);
    assert StepAt(b, i);
    AwWrittenByOwners(b.states[i], b.actions[i], nn);
  }

  lemma AwSpecWritten(b: Behavior, i: nat, nn: NN)
    requires Valid(b) && i <= |b.actions| && nn in b.states[i].aws
    ensures nn in b.states[i].awWritten && b.states[i].awWritten[nn] == b.states[i].aws[nn].spec
  {
    Holds(b, i);
  }

  // ---------------------------------------------------------------------------------------------------
  // Status writes
  // ---------------------------------------------------------------------------------------------------

  // The status tracks exactly the keys of the artifacts, which resolved to `daws`, each with the greatest index that
  // has it.
  ghost predicate Exact(codec: Codec, nn: NN, o: O.Order, daws: seq<Daw>) {
    && |daws| == |o.spec.artifacts|
    && (forall k :: 0 <= k < |daws| ==> O.Resolves(o.spec, k, daws[k]))
    && (forall s: Sha :: s in o.status <==> exists k :: 0 <= k < |daws| && HashOf(codec, nn.ns, daws[k]) == s)
    && (forall s: Sha :: s in o.status ==>
          && 0 <= o.status[s].index < |daws| && HashOf(codec, nn.ns, daws[o.status[s].index]) == s
          && forall k :: o.status[s].index < k < |daws| ==> HashOf(codec, nn.ns, daws[k]) != s)
  }

  lemma RefreshIsExact(codec: Codec, nn: NN, r: O.OrderRun, o: O.Order)
    requires O.WellFormed(r) && O.ReadyToWrite(r) && Hashed(codec, nn, r)
    requires o.spec == r.base.spec && o.status == O.Refresh(r.status, O.Desired(r.shas))
    ensures Exact(codec, nn, o, r.daws)
  {
    forall s: Sha
      ensures s in o.status <==> s in r.shas
      ensures s in o.status ==>
                && 0 <= o.status[s].index < |r.shas|
                && r.shas[o.status[s].index] == s
                && forall k :: o.status[s].index < k < |r.shas| ==> r.shas[k] != s
    {
      O.WrittenStatusIsExact(r, s);
    }
  }

  lemma WriteOf(w: World, nn: NN)
    requires OrderInv(w) && nn in w.orderRuns && O.ReadyToWrite(w.orderRuns[nn])
    requires OrderCurrent(w, nn, w.orderRuns[nn].base)
    ensures var r := w.orderRuns[nn];
            var n := WriteStatus(w, nn, O.Refresh(r.status, O.Desired(r.shas))).orders;
            nn in n && Exact(w.codec, nn, n[nn], r.daws)
  {
    var r := w.orderRuns[nn];
    OrderSteps.CurrentIsBase(w, nn);
    assert OrderSteps.RunHolds(w.codec, nn, r, w.orderLog, w.reported);
    StatusRun(w, nn, O.Refresh(r.status, O.Desired(r.shas)));
    RefreshIsExact(w.codec, nn, r, WriteStatus(w, nn, O.Refresh(r.status, O.Desired(r.shas))).orders[nn]);
  }

  // Every successful status write of the main path is exact, whichever keys were found to exist already, with respect
  // to what this very reconcile has fetched for the artifacts.
  lemma StatusWriteIsExact(b: Behavior, i: nat, nn: NN) returns (daws: seq<Daw>)
    requires Valid(b) && i < |b.actions| && b.actions[i] == OrderWorker(nn, OWrite)
    ensures nn in b.states[i + 1].orders && Exact(b.states[i].codec, nn, b.states[i + 1].orders[nn], daws)
    ensures var runs := b.states[i].orderRuns; nn in runs && runs[nn].Main? && daws == runs[nn].daws
    ensures forall k: nat :: k < |daws| ==> ResolvedInRun(b, i, nn, daws[k])
  {
    Holds(b, i);
    assert StepAt(b, i);
    WriteOf(b.states[i], nn);
    daws := b.states[i].orderRuns[nn].daws;
    forall k: nat | k < |daws|
      ensures ResolvedInRun(b, i, nn, daws[k])
    {
      HeldWasResolved(b, i, nn, k, daws[k]);
    }
  }

  // The reconcile of `nn` that is in flight at point `i` has fetched `d`.
  ghost predicate ResolvedInRun(b: Behavior, i: nat, nn: NN, d: Daw)
    requires i <= |b.actions| && |b.states| == |b.actions| + 1
  {
    exists j: nat :: j < i && b.actions[j] == OrderWorker(nn, OResolve(d)) && InFlight(b, j, i, nn)
  }

  // The reconcile holds `d` for artifact `k`.
  ghost predicate HasDaw(w: World, nn: NN, k: nat, d: Daw) {
    && nn in w.orderRuns && (w.orderRuns[nn].Resolving? || w.orderRuns[nn].Main?)
    && k < |w.orderRuns[nn].daws| && w.orderRuns[nn].daws[k] == d
  }

  lemma HadDawCall(w: World, nn: NN, c: OrderCall, k: nat, d: Daw)
    requires OrderEnabled(w, nn, c) && RunAfter(w, nn, c).Some? && c != OResolve(d)
    requires var r := RunAfter(w, nn, c).value; (r.Resolving? || r.Main?) && k < |r.daws| && r.daws[k] == d
    ensures HasDaw(w, nn, k, d)
  {
  }

  lemma HadDaw(w: World, a: Action, nn: NN, k: nat, d: Daw)
    requires Enabled(w, a) && HasDaw(Next(w, a), nn, k, d) && a != OrderWorker(nn, OResolve(d))
    ensures HasDaw(w, nn, k, d)
  {
    match a
    case User(u) => UserKeepsRuns(w, u);
    case AwWorker(m, c) => AwCallsApart(w, m, c);
    case OrderWorker(m, c) =>
      if WrittenOrder(w, m, c).Some? {
        OrderWritesAre(w, m, c);
      } else {
        OrderReadsAre(w, m, c);
        if m == nn {
          HadDawCall(w, nn, c, k, d);
        }
      }
  }

  lemma {:induction false} HeldWasResolved(b: Behavior, i: nat, nn: NN, k: nat, d: Daw)
    requires Valid(b) && i <= |b.actions| && HasDaw(b.states[i], nn, k, d)
    ensures ResolvedInRun(b, i, nn, d)
  {
    if i == 0 {
    } else {
      assert StepAt(b, i - 1);
      var j: nat := i - 1;
      if b.actions[i - 1] != OrderWorker(nn, OResolve(d)) {
        HadDaw(b.states[i - 1], b.actions[i - 1], nn, k, d);
        HeldWasResolved(b, i - 1, nn, k, d);
        j :| j < i - 1 && b.actions[j] == OrderWorker(nn, OResolve(d)) && InFlight(b, j, i - 1, nn);
      }
      assert InFlight(b, j, i, nn);
    }
  }

  // ---------------------------------------------------------------------------------------------------
  // Tracked keys
  // ---------------------------------------------------------------------------------------------------

  // A Delete for the ArtifactWorkflow of this key: on the main path one that was answered with success or NotFound, in
  // the cleanup of a deleting Order one that was issued.
  ghost predicate DeletesKey(a: Action, nn: NN, sha: Sha, main: bool) {
    && a.OrderWorker? && a.nn == nn
    && (if main then a.ocall == ODelete(sha) else a.ocall.OCleanup? && a.ocall.sha == sha)
  }

  // The reconcile of `nn` that is in flight at point `i` made this Delete.
  ghost predicate DeletedInRun(b: Behavior, i: nat, nn: NN, sha: Sha, main: bool)
    requires i <= |b.actions| && |b.states| == |b.actions| + 1
  {
    exists j: nat :: j < i && DeletesKey(b.actions[j], nn, sha, main) && InFlight(b, j, i, nn)
  }

  ghost predicate InFlight(b: Behavior, j: nat, i: nat, nn: NN)
    requires i <= |b.actions| && |b.states| == |b.actions| + 1
  {
    forall h: nat :: j < h <= i ==> nn in b.states[h].orderRuns
  }

  lemma StillInRun(b: Behavior, i: nat, nn: NN, sha: Sha, main: bool)
    requires i < |b.actions| && |b.states| == |b.actions| + 1 && nn in b.states[i + 1].orderRuns
    requires DeletesKey(b.actions[i], nn, sha, main) || DeletedInRun(b, i, nn, sha, main)
    ensures DeletedInRun(b, i + 1, nn, sha, main)
  {
    var j: nat := i;
    if !DeletesKey(b.actions[i], nn, sha, main) {
      j :| j < i && DeletesKey(b.actions[j], nn, sha, main) && InFlight(b, j, i, nn);
    }
    assert InFlight(b, j, i + 1, nn);
  }

  ghost predicate Dropped(w: World, nn: NN, sha: Sha, main: bool) {
    && nn in w.orderRuns && (if main then w.orderRuns[nn].Main? else w.orderRuns[nn].Cleanup?)
    && sha in w.orderRuns[nn].base.status && sha !in w.orderRuns[nn].status
  }

  lemma DroppedStep(b: Behavior, i: nat, nn: NN, sha: Sha, main: bool)
    requires Valid(b) && i < |b.actions| && Dropped(b.states[i + 1], nn, sha, main)
    ensures DeletesKey(b.actions[i], nn, sha, main) || Dropped(b.states[i], nn, sha, main)
  {
    assert StepAt(b, i);
    Holds(b, i);
    if !DeletesKey(b.actions[i], nn, sha, main) {
      DroppedBefore(b.states[i], b.actions[i], nn, sha, main);
    }
  }

  lemma {:induction false} DroppedAfterDelete(b: Behavior, i: nat, nn: NN, sha: Sha, main: bool)
    requires Valid(b) && i <= |b.actions| && Dropped(b.states[i], nn, sha, main)
    ensures DeletedInRun(b, i, nn, sha, main)
  {
    if i == 0 {
    } else {
      DroppedStep(b, i - 1, nn, sha, main);
      if !DeletesKey(b.actions[i - 1], nn, sha, main) {
        DroppedAfterDelete(b, i - 1, nn, sha, main);
      }
      StillInRun(b, i - 1, nn, sha, main);
    }
  }

  lemma DroppedBefore(w: World, a: Action, nn: NN, sha: Sha, main: bool)
    requires OrderInv(w) && Enabled(w, a) && Dropped(Next(w, a), nn, sha, main) && !DeletesKey(a, nn, sha, main)
    ensures Dropped(w, nn, sha, main)
  {
    match a
    case User(u) => UserKeepsRuns(w, u);
    case AwWorker(m, c) => AwCallsApart(w, m, c);
    case OrderWorker(m, c) =>
      if WrittenOrder(w, m, c).Some? {
        OrderWritesAre(w, m, c);
      } else {
        OrderReadsAre(w, m, c);
        if m == nn {
          DroppedBeforeCall(w, nn, c, sha, main);
        }
      }
  }

  lemma DroppedBeforeCall(w: World, nn: NN, c: OrderCall, sha: Sha, main: bool)
    requires OrderEnabled(w, nn, c) && RunAfter(w, nn, c).Some? && !DeletesKey(OrderWorker(nn, c), nn, sha, main)
    requires var r := RunAfter(w, nn, c).value;
             (if main then r.Main? else r.Cleanup?) && sha in r.base.status && sha !in r.status
    ensures Dropped(w, nn, sha, main)
  {
  }

  // An Order that tracks anything holds the controller's finalizer.
  ghost predicate TrackedHeld(orders: map<NN, O.Order>) {
    forall nn :: nn in orders && orders[nn].status != map[] ==> O.ORDER_FINALIZER in orders[nn].finalizers
  }

  lemma {:induction false} TrackedHolds(b: Behavior, i: nat)
    requires Valid(b) && i <= |b.actions|
    ensures TrackedHeld(b.states[i].orders)
  {
    if i == 0 {
    } else {
      TrackedHolds(b, i - 1);
      Holds(b, i - 1);
      assert StepAt(b, i - 1);
      TrackedStep(b.states[i - 1], b.actions[i - 1]);
    }
  }

  lemma TrackedStep(w: World, a: Action)
    requires OrderInv(w) && TrackedHeld(w.orders) && Enabled(w, a)
    ensures TrackedHeld(Next(w, a).orders)
  {
    match a
    case User(u) => UserTracked(w, u);
    case AwWorker(m, c) => AwCallsApart(w, m, c);
    case OrderWorker(m, c) =>
      if WrittenOrder(w, m, c).Some? {
        OrderWritesAre(w, m, c);
        WrittenTracked(w, m, c);
      } else {
        OrderReadsAre(w, m, c);
      }
  }

  lemma UserTracked(w: World, a: UserAction)
    requires TrackedHeld(w.orders) && UserEnabled(w, a)
    ensures TrackedHeld(UserNext(w, a).orders)
  {
    if a.MakeAw? || a.EditAw? || a.RemoveAw? || a.Report? {
      UserAwsApart(w, a);
    }
  }

  lemma WrittenTracked(w: World, nn: NN, c: OrderCall)
    requires OrderInv(w) && TrackedHeld(w.orders) && OrderEnabled(w, nn, c) && WrittenOrder(w, nn, c).Some?
    ensures TrackedHeld(SaveOrder(w, nn, WrittenOrder(w, nn, c).value).orders)
  {
    OrderSteps.CurrentIsBase(w, nn);
    assert OrderSteps.RunHolds(w.codec, nn, w.orderRuns[nn], w.orderLog, w.reported);
  }

  // A key leaves a stored status, or the store together with its Order, only by a status write of a reconcile that
  // made a Delete for its ArtifactWorkflow. On the main path that Delete was answered with success or NotFound. In
  // particular no Order leaves the store while it tracks anything.
  lemma KeysLeaveOnlyAfterDelete(b: Behavior, i: nat, nn: NN, sha: Sha)
    requires Valid(b) && i < |b.actions| && nn in b.states[i].orders && sha in b.states[i].orders[nn].status
    requires nn in b.states[i + 1].orders ==> sha !in b.states[i + 1].orders[nn].status
    ensures nn in b.states[i + 1].orders
    ensures b.actions[i] == OrderWorker(nn, OWrite) || b.actions[i] == OrderWorker(nn, OWriteCleanup)
    ensures DeletedInRun(b, i, nn, sha, b.actions[i].ocall.OWrite?)
  {
    var w, a := b.states[i], b.actions[i];
    Holds(b, i);
    TrackedHolds(b, i);
    assert StepAt(b, i);
    KeyDroppedByWrite(w, a, nn, sha);
    DroppedAfterDelete(b, i, nn, sha, a.ocall.OWrite?);
  }

  // Only the status writes of a reconcile that has dropped the key take it out of the store.
  lemma KeyDroppedByWrite(w: World, a: Action, nn: NN, sha: Sha)
    requires OrderInv(w) && TrackedHeld(w.orders) && Enabled(w, a) && nn in w.orders && sha in w.orders[nn].status
    requires nn in Next(w, a).orders ==> sha !in Next(w, a).orders[nn].status
    ensures nn in Next(w, a).orders
    ensures a == OrderWorker(nn, OWrite) || a == OrderWorker(nn, OWriteCleanup)
    ensures Dropped(w, nn, sha, a.ocall.OWrite?)
  {
    match a
    case User(u) => UserOrderChanges(w, u, nn);
    case AwWorker(m, c) => AwCallsApart(w, m, c);
    case OrderWorker(m, c) =>
      if WrittenOrder(w, m, c).Some? {
        OrderWritesAre(w, m, c);
        KeyDroppedByCall(w, m, c, nn, sha);
      } else {
        OrderReadsAre(w, m, c);
      }
  }

  lemma KeyDroppedByCall(w: World, m: NN, c: OrderCall, nn: NN, sha: Sha)
    requires OrderInv(w) && TrackedHeld(w.orders) && OrderEnabled(w, m, c) && WrittenOrder(w, m, c).Some?
    requires nn in w.orders && sha in w.orders[nn].status
    requires var n := SaveOrder(w, m, WrittenOrder(w, m, c).value).orders; nn in n ==> sha !in n[nn].status
    ensures nn == m && nn in SaveOrder(w, m, WrittenOrder(w, m, c).value).orders && (c.OWrite? || c.OWriteCleanup?)
    ensures Dropped(w, nn, sha, c.OWrite?)
  {
    OrderSteps.CurrentIsBase(w, m);
    assert OrderSteps.RunHolds(w.codec, m, w.orderRuns[m], w.orderLog, w.reported);
    SaveOrderAt(w, m, WrittenOrder(w, m, c).value, nn);
  }

  // The finalizer leaves an Order, or the Order leaves the store in spite of it, only once nothing is tracked.
  lemma FinalizerLeavesEmptyStatus(b: Behavior, i: nat, nn: NN)
    requires Valid(b) && i < |b.actions| && nn in b.states[i].orders
    requires O.ORDER_FINALIZER in b.states[i].orders[nn].finalizers
    requires nn in b.states[i + 1].orders ==> O.ORDER_FINALIZER !in b.states[i + 1].orders[nn].finalizers
    ensures b.states[i].orders[nn].deleting && b.states[i].orders[nn].status == map[]
  {
    var w, a := b.states[i], b.actions[i];
    Holds(b, i);
    assert StepAt(b, i);
    OrderFinalizerDropped(w, a, nn);
    OrderSteps.CurrentIsBase(w, nn);
    assert OrderSteps.RunHolds(w.codec, nn, w.orderRuns[nn], w.orderLog, w.reported);
  }

  lemma OrderFinalizerDropped(w: World, a: Action, nn: NN)
    requires OrderInv(w) && Enabled(w, a) && nn in w.orders && O.ORDER_FINALIZER in w.orders[nn].finalizers
    requires nn in Next(w, a).orders ==> O.ORDER_FINALIZER !in Next(w, a).orders[nn].finalizers
    ensures a == OrderWorker(nn, ODropFinalizer)
  {
    match a
    case User(u) => UserOrderChanges(w, u, nn);
    case AwWorker(m, c) => AwCallsApart(w, m, c);
    case OrderWorker(m, c) =>
      if WrittenOrder(w, m, c).Some? {
        OrderWritesAre(w, m, c);
        OrderSteps.CurrentIsBase(w, m);
        SaveOrderAt(w, m, WrittenOrder(w, m, c).value, nn);
      } else {
        OrderReadsAre(w, m, c);
      }
  }

  // ---------------------------------------------------------------------------------------------------
  // Orders do not interfere
  // ---------------------------------------------------------------------------------------------------

  // A reconcile of one Order leaves every ArtifactWorkflow named for another Order alone, and every phase it reads
  // is read from one of its own.
  lemma OrdersDoNotInterfere(b: Behavior, i: nat, nn: NN, c: OrderCall, other: NN, sha: Sha)
    requires Valid(b) && i < |b.actions| && b.actions[i] == OrderWorker(nn, c) && other != nn
    ensures var x, w, n := AwName(other, sha), b.states[i], b.states[i + 1];
            && SameIn(w.aws, n.aws, x)
            && (c.OSync? ==> c.version in w.awLog && w.awLog[c.version].nn != x)
  {
    assert StepAt(b, i);
    forall s: Sha
      ensures AwName(nn, s) != AwName(other, sha)
    {
      if AwName(nn, s) == AwName(other, sha) {
        AwNameInjective(nn, s, other, sha);
      }
    }
    OrderTouchesOwnAws(b.states[i], nn, c, AwName(other, sha));
  }

  // ---------------------------------------------------------------------------------------------------
  // Deleting ArtifactWorkflows
  // ---------------------------------------------------------------------------------------------------

  // An ArtifactWorkflow that is being deleted is stored only as long as some finalizer holds it.
  ghost predicate DeletingHeld(aws: map<NN, A.Aw>) {
    forall nn :: nn in aws && aws[nn].deleting ==> aws[nn].finalizers != {}
  }

  lemma DeleteAwHeld(w: World, nn: NN)
    requires DeletingHeld(w.aws)
    ensures DeletingHeld(DeleteAw(w, nn).aws)
  {
  }

  lemma OrderCallHeld(w: World, nn: NN, c: OrderCall)
    requires OrderEnabled(w, nn, c) && DeletingHeld(w.aws)
    ensures DeletingHeld(OrderNext(w, nn, c).aws)
  {
    if c.OCleanup? || c.ODelete? {
      DeleteAwHeld(w, AwName(nn, c.sha));
    } else if !c.OCreate? {
      OrderCallsApart(w, nn, c);
    }
  }

  lemma AwCallHeld(w: World, nn: NN, c: AwCall)
    requires AwEnabled(w, nn, c) && DeletingHeld(w.aws)
    ensures DeletingHeld(AwNext(w, nn, c).aws)
  {
  }

  lemma UserHeld(w: World, a: UserAction)
    requires UserEnabled(w, a) && DeletingHeld(w.aws)
    ensures DeletingHeld(UserNext(w, a).aws)
  {
    if a.MakeOrder? || a.EditOrder? || a.RemoveOrder? {
      UserOrdersApart(w, a);
    }
  }

  lemma DeletingStep(w: World, a: Action)
    requires Enabled(w, a) && DeletingHeld(w.aws)
    ensures DeletingHeld(Next(w, a).aws)
  {
    match a
    case User(u) => UserHeld(w, u);
    case OrderWorker(nn, c) => OrderCallHeld(w, nn, c);
    case AwWorker(nn, c) => AwCallHeld(w, nn, c);
  }

  lemma {:induction false} DeletingHolds(b: Behavior, i: nat)
    requires Valid(b) && i <= |b.actions|
    ensures DeletingHeld(b.states[i].aws)
  {
    if i == 0 {
    } else {
      DeletingHolds(b, i - 1);
      assert StepAt(b, i - 1);
      DeletingStep(b.states[i - 1], b.actions[i - 1]);
    }
  }

  lemma ReachableDeleting(w: World)
    requires Reachable(w)
    ensures DeletingHeld(w.aws)
  {
    var b :| EndsIn(b, w);
    DeletingHolds(b, |b.actions|);
  }
}
