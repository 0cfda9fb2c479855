/** One ArtifactWorkflow reconcile as a state machine, in the same form. */
module AwRun {
  import opened Types

  const AW_FINALIZER := "arc.bwi.de/artifact-workflow-finalizer"

  datatype Aw = Aw(uid: nat, version: nat, finalizers: set<string>, deleting: bool, spec: AwSpec, phase: Phase)

  datatype AwRun =
    // deletion: delete the Workflow, then remove the finalizer
    | CleanWorkflow(base: Aw)
    | DropFinalizer(base: Aw)
    | AddFinalizer(base: Aw)
    // createArgoWorkflow: fetch type and secrets, create the Workflow
    | Gather(base: Aw)
    | Launch(base: Aw, wf: WfSpec)
    // checkArgoWorkflow: read the Workflow
    | Check(base: Aw)
    // the status write that ends both
    | SetPhase(base: Aw, phase: Phase)

  function Begin(a: Aw): Option<AwRun> {
    if a.deleting then Some(CleanWorkflow(a))
    else if AW_FINALIZER !in a.finalizers then Some(AddFinalizer(a))
    else if a.phase.Completed() then None
    else if a.phase.Unknown? then Some(Gather(a))
    else if a.phase.InProgress() then Some(Check(a))
    else None
  }

  ghost predicate WellFormed(r: AwRun) {
    var a := r.base;
    match r
    case CleanWorkflow(_) => a.deleting
    case DropFinalizer(_) => a.deleting && AW_FINALIZER in a.finalizers
    case AddFinalizer(_) => !a.deleting && AW_FINALIZER !in a.finalizers
    case Gather(_) => Active(a) && a.phase.Unknown?
    case Launch(_, _) => Active(a) && a.phase.Unknown?
    case Check(_) => Active(a) && a.phase.InProgress()
    case SetPhase(_, p) => Active(a) && (a.phase.Unknown? ==> p.Pending?) && (a.phase.Unknown? || a.phase.InProgress())
  }

  ghost predicate Active(a: Aw) {
    !a.deleting && AW_FINALIZER in a.finalizers
  }

  lemma BeginWellFormed(a: Aw)
    requires Begin(a).Some?
    ensures var r := Begin(a).value; WellFormed(r) && r.base == a && !r.DropFinalizer? && !r.SetPhase?
  {
  }
}
