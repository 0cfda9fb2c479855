/**
 * The API client the reconcilers are written against. Every call is one action of the cluster, taken by the worker of
 * the given key, so a client only ever sees worlds that a run of the cluster leads to, and what holds over all runs
 * holds while the reconcilers execute. Unless the client is `reliable` any call may fail, without effect or after it;
 * `done` tells whether a call that changes the store took effect.
 */
module ApiClient {
  import opened Types
  import opened Cluster
  import Behaviors
  import O = OrderRun
  import A = AwRun

  datatype Reply<+T> = Got(obj: T) | Missing | Fault
  datatype Answer = Done | NotFound | AlreadyExists | Refused

  // The objects the controllers only read.
  datatype Snapshot = Snapshot(endpoints: map<NN, Endpoint>, secrets: map<NN, Secret>, types: map<string, ArtifactType>)

  // Objects carry the name they are stored under.
  ghost predicate Named(s: Snapshot) {
    && (forall nn :: nn in s.endpoints ==> s.endpoints[nn].name == nn.name)
    && (forall nn :: nn in s.secrets ==> s.secrets[nn].name == nn.name)
  }

  class Client {
    var w: World
    const snapshot: Snapshot
    const reliable: bool

    ghost predicate Valid()
      reads this
    {
      Behaviors.Reachable(w) && Named(snapshot)
    }

    constructor (w: World, snapshot: Snapshot, reliable: bool)
      requires Behaviors.Reachable(w) && Named(snapshot)
      ensures Valid() && this.w == w && this.snapshot == snapshot && this.reliable == reliable
    {
      this.w := w;
      this.snapshot := snapshot;
      this.reliable := reliable;
    }

    method Fails() returns (f: bool)
      ensures reliable ==> !f
    {
      f := *;
      f := f && !reliable;
    }

    // A call is lost if it does not reach the server; if it does, the response may still be lost.
    method Fate() returns (lost: bool, silent: bool)
      ensures reliable ==> !lost && !silent
    {
      lost := Fails();
      silent := Fails();
    }

    // A decision of a user or of Argo.
    method Decide(a: UserAction)
      requires Valid() && UserEnabled(w, a)
      modifies this`w
      ensures Valid() && w == UserNext(old(w), a)
    {
      Behaviors.ReachableStep(w, User(a));
      w := UserNext(w, a);
    }

    // --- Read-only objects ---------------------------------------------------------------------------

    method GetEndpoint(nn: NN) returns (r: Reply<Endpoint>)
      ensures r.Got? ==> nn in snapshot.endpoints && r.obj == snapshot.endpoints[nn]
      ensures reliable ==> (r.Got? <==> nn in snapshot.endpoints)
    {
      var f := Fails();
      r := if f then Fault else if nn in snapshot.endpoints then Got(snapshot.endpoints[nn]) else Missing;
    }

    method GetSecret(nn: NN) returns (r: Reply<Secret>)
      ensures r.Got? ==> nn in snapshot.secrets && r.obj == snapshot.secrets[nn]
      ensures reliable ==> (r.Got? <==> nn in snapshot.secrets)
    {
      var f := Fails();
      r := if f then Fault else if nn in snapshot.secrets then Got(snapshot.secrets[nn]) else Missing;
    }

    method GetType(name: string) returns (r: Reply<ArtifactType>)
      ensures r.Got? ==> name in snapshot.types && r.obj == snapshot.types[name]
      ensures reliable ==> (r.Got? <==> name in snapshot.types)
    {
      var f := Fails();
      r := if f then Fault else if name in snapshot.types then Got(snapshot.types[name]) else Missing;
    }

    // --- Order worker --------------------------------------------------------------------------------

    method GetOrder(nn: NN) returns (r: Reply<O.Order>)
      requires Valid() && nn !in w.orderRuns
      modifies this`w
      ensures Valid()
      ensures r.Got? ==> nn in old(w).orders && r.obj == old(w).orders[nn] && w == FetchOrder(old(w), nn, r.obj)
      ensures !r.Got? ==> w == old(w)
      ensures r.Missing? ==> nn !in old(w).orders
      ensures reliable ==> !r.Fault?
    {
      var f := Fails();
      if f {
        return Fault;
      }
      if nn !in w.orders {
        return Missing;
      }
      r := Got(w.orders[nn]);
      OrderIsLogged(w, nn);
      Behaviors.ReachableStep(w, OrderWorker(nn, OFetch(r.obj.version)));
      w := FetchOrder(w, nn, r.obj);
    }

    // A Delete whose error is ignored.
    method CleanupAw(nn: NN, sha: Sha) returns (ghost delivered: bool)
      requires Valid() && nn in w.orderRuns && w.orderRuns[nn].Cleanup? && sha in w.orderRuns[nn].status
      modifies this`w
      ensures Valid() && w == CleanupKey(old(w), nn, sha, delivered)
      ensures reliable ==> delivered
    {
      var f := Fails();
      delivered := !f;
      TryDelete(nn, sha, !f);
    }

    method TryDelete(nn: NN, sha: Sha, delivered: bool)
      requires Valid() && nn in w.orderRuns && w.orderRuns[nn].Cleanup? && sha in w.orderRuns[nn].status
      modifies this`w
      ensures Valid() && w == CleanupKey(old(w), nn, sha, delivered)
    {
      Behaviors.ReachableStep(w, OrderWorker(nn, OCleanup(sha, delivered)));
      w := CleanupKey(w, nn, sha, delivered);
    }

    // The worker has fetched everything for its next artifact.
    method NoteResolved(nn: NN, d: Daw)
      requires Valid() && nn in w.orderRuns && OrderCallEnabled(w, nn, w.orderRuns[nn], OResolve(d))
      modifies this`w
      ensures Valid() && w == ResolveKey(old(w), nn, d)
    {
      Behaviors.ReachableStep(w, OrderWorker(nn, OResolve(d)));
      w := ResolveKey(w, nn, d);
    }

    method CreateAw(nn: NN, sha: Sha, spec: AwSpec) returns (r: Answer, ghost done: bool)
      requires Valid() && nn in w.orderRuns && MayCreate(w.codec, w.orderRuns[nn], sha, spec)
      modifies this`w
      ensures Valid()
      ensures w == if done then CreateKey(old(w), nn, sha, spec) else old(w)
      ensures r.Done? || r.AlreadyExists? ==> done
      ensures r.Done? ==> AwName(nn, sha) !in old(w).aws
      ensures r.AlreadyExists? ==> AwName(nn, sha) in old(w).aws
      ensures reliable ==> r.Done? || r.AlreadyExists?
    {
      var lost, silent := Fate();
      if lost {
        return Refused, false;
      }
      r := if silent then Refused else if AwName(nn, sha) in w.aws then AlreadyExists else Done;
      done := true;
      Behaviors.ReachableStep(w, OrderWorker(nn, OCreate(sha, spec)));
      w := CreateKey(w, nn, sha, spec);
    }

    method DeleteAw(nn: NN, sha: Sha) returns (r: Answer, ghost done: bool)
      requires Valid() && nn in w.orderRuns && OrderCallEnabled(w, nn, w.orderRuns[nn], ODelete(sha))
      modifies this`w
      ensures Valid()
      ensures w == if done then DeleteKey(old(w), nn, sha) else old(w)
      ensures r.Done? || r.NotFound? ==> done
      ensures reliable ==> r.Done? || r.NotFound?
    {
      var lost, silent := Fate();
      if lost {
        return Refused, false;
      }
      r := if silent then Refused else if AwName(nn, sha) in w.aws then Done else NotFound;
      done := true;
      Behaviors.ReachableStep(w, OrderWorker(nn, ODelete(sha)));
      w := DeleteKey(w, nn, sha);
    }

    method GetAwForOrder(nn: NN, sha: Sha) returns (r: Reply<A.Aw>)
      requires Valid() && nn in w.orderRuns && w.orderRuns[nn].Main?
      requires w.orderRuns[nn].creates == {} && w.orderRuns[nn].deletes == {}
      requires sha in w.orderRuns[nn].syncs && sha in w.orderRuns[nn].status
      modifies this`w
      ensures Valid()
      ensures r.Got? ==> AwName(nn, sha) in old(w).aws && r.obj == old(w).aws[AwName(nn, sha)]
                         && w == SyncKey(old(w), nn, sha, r.obj.phase)
      ensures !r.Got? ==> w == old(w)
      ensures reliable ==> (r.Got? <==> AwName(nn, sha) in old(w).aws)
    {
      var f := Fails();
      if f {
        return Fault;
      }
      var target := AwName(nn, sha);
      if target !in w.aws {
        return Missing;
      }
      r := Got(w.aws[target]);
      AwIsLogged(w, target);
      Behaviors.ReachableStep(w, OrderWorker(nn, OSync(sha, r.obj.version)));
      w := SyncKey(w, nn, sha, r.obj.phase);
    }

    // Status().Update: the call is the last of a cleanup or of the main path.
    method UpdateOrderStatus(nn: NN, status: Status) returns (r: Answer, ghost done: bool)
      requires Valid() && nn in w.orderRuns
      requires var run := w.orderRuns[nn];
               || (run.Cleanup? && run.status == map[] && status == run.status)
               || (O.ReadyToWrite(run) && status == O.Refresh(run.status, O.Desired(run.shas)))
      modifies this`w
      ensures Valid()
      ensures done ==> OrderCurrent(old(w), nn, old(w).orderRuns[nn].base) && w == WriteStatus(old(w), nn, status)
      ensures !done ==> w == old(w)
      ensures r.Done? ==> done
      ensures reliable && OrderCurrent(old(w), nn, old(w).orderRuns[nn].base) ==> r.Done?
    {
      var lost, silent := Fate();
      if lost || !OrderCurrent(w, nn, w.orderRuns[nn].base) {
        return Refused, false;
      }
      Behaviors.ReachableStep(w, OrderWorker(nn, if w.orderRuns[nn].Cleanup? then OWriteCleanup else OWrite));
      w := WriteStatus(w, nn, status);
      return if silent then Refused else Done, true;
    }

    method UpdateOrderFinalizers(nn: NN, f: set<string>) returns (r: Answer, ghost done: bool)
      requires Valid() && nn in w.orderRuns
      requires var run := w.orderRuns[nn];
               || (run.DropFinalizer? && f == run.base.finalizers - {O.ORDER_FINALIZER})
               || (run.AddFinalizer? && f == run.base.finalizers + {O.ORDER_FINALIZER})
      modifies this`w
      ensures Valid()
      ensures done ==> OrderCurrent(old(w), nn, old(w).orderRuns[nn].base) && w == WriteFinalizers(old(w), nn, f)
      ensures !done ==> w == old(w)
      ensures r.Done? ==> done
      ensures reliable && OrderCurrent(old(w), nn, old(w).orderRuns[nn].base) ==> r.Done?
    {
      var lost, silent := Fate();
      if lost || !OrderCurrent(w, nn, w.orderRuns[nn].base) {
        return Refused, false;
      }
      var call := if w.orderRuns[nn].DropFinalizer? then ODropFinalizer else OAddFinalizer;
      Behaviors.ReachableStep(w, OrderWorker(nn, call));
      w := WriteFinalizers(w, nn, f);
      return if silent then Refused else Done, true;
    }

    // The reconcile returns.
    method ReturnOrder(nn: NN)
      requires Valid()
      modifies this`w
      ensures Valid() && w == EndOrderRun(old(w), nn)
    {
      if nn in w.orderRuns {
        Behaviors.ReachableStep(w, OrderWorker(nn, OEnd));
        w := EndOrderRun(w, nn);
      } else {
        assert w.orderRuns - {nn} == w.orderRuns;
      }
    }

    // --- ArtifactWorkflow worker ---------------------------------------------------------------------

    method GetAw(nn: NN) returns (r: Reply<A.Aw>)
      requires Valid() && nn !in w.awRuns
      modifies this`w
      ensures Valid()
      ensures r.Got? ==> nn in old(w).aws && r.obj == old(w).aws[nn] && w == FetchAw(old(w), nn, r.obj)
      ensures !r.Got? ==> w == old(w)
      ensures r.Missing? ==> nn !in old(w).aws
      ensures reliable ==> !r.Fault?
    {
      var f := Fails();
      if f {
        return Fault;
      }
      if nn !in w.aws {
        return Missing;
      }
      r := Got(w.aws[nn]);
      AwIsLogged(w, nn);
      Behaviors.ReachableStep(w, AwWorker(nn, AFetch(r.obj.version)));
      w := FetchAw(w, nn, r.obj);
    }

    method DeleteWorkflow(nn: NN) returns (r: Answer, ghost done: bool)
      requires Valid() && nn in w.awRuns && w.awRuns[nn].CleanWorkflow?
      modifies this`w
      ensures Valid()
      ensures w == if done then CleanWorkflow(old(w), nn) else old(w)
      ensures r.Done? || r.NotFound? ==> done
      ensures reliable ==> r.Done? || r.NotFound?
    {
      var lost, silent := Fate();
      if lost {
        return Refused, false;
      }
      r := if silent then Refused else if nn in w.wfs then Done else NotFound;
      done := true;
      Behaviors.ReachableStep(w, AwWorker(nn, ACleanWorkflow));
      w := CleanWorkflow(w, nn);
    }

    method UpdateAwFinalizers(nn: NN, f: set<string>) returns (r: Answer, ghost done: bool)
      requires Valid() && nn in w.awRuns
      requires var run := w.awRuns[nn];
               || (run.DropFinalizer? && f == run.base.finalizers - {A.AW_FINALIZER})
               || (run.AddFinalizer? && f == run.base.finalizers + {A.AW_FINALIZER})
      modifies this`w
      ensures Valid()
      ensures done ==> AwCurrent(old(w), nn, old(w).awRuns[nn].base) && w == WriteAwFinalizers(old(w), nn, f)
      ensures !done ==> w == old(w)
      ensures r.Done? ==> done
      ensures reliable && AwCurrent(old(w), nn, old(w).awRuns[nn].base) ==> r.Done?
    {
      var lost, silent := Fate();
      if lost || !AwCurrent(w, nn, w.awRuns[nn].base) {
        return Refused, false;
      }
      Behaviors.ReachableStep(w, AwWorker(nn, if w.awRuns[nn].DropFinalizer? then ADropFinalizer else AAddFinalizer));
      w := WriteAwFinalizers(w, nn, f);
      return if silent then Refused else Done, true;
    }

    // The worker has fetched the type and the secrets.
    method NoteGathered(nn: NN, t: ArtifactType)
      requires Valid() && nn in w.awRuns && w.awRuns[nn].Gather?
      modifies this`w
      ensures Valid() && w == Gathered(old(w), nn, t)
    {
      Behaviors.ReachableStep(w, AwWorker(nn, AGather(t)));
      w := Gathered(w, nn, t);
    }

    method CreateWorkflow(nn: NN, wf: WfSpec) returns (r: Answer, ghost done: bool)
      requires Valid() && nn in w.awRuns && w.awRuns[nn].Launch? && w.awRuns[nn].wf == wf
      modifies this`w
      ensures Valid()
      ensures w == if done then Launch(old(w), nn) else old(w)
      ensures r.Done? || r.AlreadyExists? ==> done
      ensures reliable ==> r.Done? || r.AlreadyExists?
    {
      var lost, silent := Fate();
      if lost {
        return Refused, false;
      }
      r := if silent then Refused else if nn in w.wfs then AlreadyExists else Done;
      done := true;
      Behaviors.ReachableStep(w, AwWorker(nn, ALaunch));
      w := Launch(w, nn);
    }

    method GetWorkflow(nn: NN) returns (r: Reply<Workflow>)
      requires Valid() && nn in w.awRuns && w.awRuns[nn].Check?
      modifies this`w
      ensures Valid()
      ensures r.Got? ==> nn in old(w).wfs && r.obj == old(w).wfs[nn]
                         && w == Checked(old(w), nn, r.obj.phase)
      ensures !r.Got? ==> w == old(w)
      ensures reliable ==> (r.Got? <==> nn in old(w).wfs)
    {
      var f := Fails();
      if f {
        return Fault;
      }
      if nn !in w.wfs {
        return Missing;
      }
      r := Got(w.wfs[nn]);
      WorkflowIsReported(w, nn);
      Behaviors.ReachableStep(w, AwWorker(nn, ACheck(r.obj.phase)));
      w := Checked(w, nn, r.obj.phase);
    }

    method UpdateAwStatus(nn: NN, phase: Phase) returns (r: Answer, ghost done: bool)
      requires Valid() && nn in w.awRuns && w.awRuns[nn].SetPhase? && w.awRuns[nn].phase == phase
      modifies this`w
      ensures Valid()
      ensures done ==> AwCurrent(old(w), nn, old(w).awRuns[nn].base) && w == WritePhase(old(w), nn)
      ensures !done ==> w == old(w)
      ensures r.Done? ==> done
      ensures reliable && AwCurrent(old(w), nn, old(w).awRuns[nn].base) ==> r.Done?
    {
      var lost, silent := Fate();
      if lost || !AwCurrent(w, nn, w.awRuns[nn].base) {
        return Refused, false;
      }
      Behaviors.ReachableStep(w, AwWorker(nn, ASetPhase));
      w := WritePhase(w, nn);
      return if silent then Refused else Done, true;
    }

    method ReturnAw(nn: NN)
      requires Valid()
      modifies this`w
      ensures Valid() && w == EndAwRun(old(w), nn)
    {
      if nn in w.awRuns {
        Behaviors.ReachableStep(w, AwWorker(nn, AEnd));
        w := EndAwRun(w, nn);
      } else {
        assert w.awRuns - {nn} == w.awRuns;
      }
    }
  }

  lemma OrderIsLogged(w: World, nn: NN)
    requires Behaviors.Reachable(w) && nn in w.orders
    ensures w.orders[nn].version in w.orderLog && w.orderLog[w.orders[nn].version] == OrderVersion(nn, w.orders[nn])
  {
    Behaviors.ReachableInv(w);
  }

  // A direct read is never older than what was read before.
  lemma AwIsLogged(w: World, nn: NN)
    requires Behaviors.Reachable(w) && nn in w.aws
    ensures w.aws[nn].version in w.awLog && w.awLog[w.aws[nn].version] == AwVersion(nn, w.aws[nn])
    ensures Floor(w.awFloor, nn) <= w.aws[nn].version
  {
    Behaviors.ReachableInv(w);
  }

  lemma WorkflowIsReported(w: World, nn: NN)
    requires Behaviors.Reachable(w) && nn in w.wfs
    ensures w.wfs[nn].phase.Unknown? || (nn, w.wfs[nn].phase) in w.reported
  {
    Behaviors.ReachableInv(w);
  }
}
