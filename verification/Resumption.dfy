/** A reconcile that is cut off, any number of times, leaves no trace in what a later complete one achieves. */
module Resumption {
  import opened Types
  import opened Params
  import opened Cluster
  import opened ApiClient
  import opened OrderEffects
  import Flatten
  import O = OrderRun
  import A = AwRun

  // ---------------------------------------------------------------------------------------------------
  // Partial work adds up
  // ---------------------------------------------------------------------------------------------------

  function Later(job: Job, aws: Aws): Job {
    job.(before := aws)
  }

  lemma GoneTwice(before: Aws, mid: Aws, after: Aws, x: NN)
    requires GoneAw(before, mid, x) || SameIn(before, mid, x)
    requires GoneAw(mid, after, x) || SameIn(mid, after, x)
    ensures GoneAw(before, after, x) || (SameIn(before, mid, x) && SameIn(before, after, x))
  {
  }

  ghost predicate Within(job: Job, made: set<Sha>, gone: set<Sha>) {
    made <= job.Creates() && gone <= job.Deletes()
  }

  // A key that has not been worked on.
  lemma NotYet(job: Job, after: Aws, made: set<Sha>, gone: set<Sha>, sha: Sha)
    requires AwsAre(job, after, made, gone) && sha !in made && sha !in gone
    ensures SameIn(job.before, after, job.Name(sha))
  {
    InNames(job.nn, made + gone, sha);
  }

  lemma MadeTwice(job: Job, mid: Aws, after: Aws, made: set<Sha>, gone: set<Sha>, made': set<Sha>, gone': set<Sha>,
                  sha: Sha)
    requires AwsAre(job, mid, made, gone) && Within(job, made, gone)
    requires AwsAre(Later(job, mid), after, made', gone') && Within(job, made', gone')
    requires sha in made + made'
    ensures MadeAw(job, after, sha)
  {
    assert sha !in gone && sha !in gone';
    if sha !in made {
      NotYet(job, mid, made, gone, sha);
      assert MadeAw(Later(job, mid), after, sha);
    } else {
      assert MadeAw(job, mid, sha);
      if sha !in made' {
        NotYet(Later(job, mid), after, made', gone', sha);
      } else {
        assert MadeAw(Later(job, mid), after, sha);
      }
    }
  }

  lemma DeletedTwice(job: Job, mid: Aws, after: Aws, made: set<Sha>, gone: set<Sha>, made': set<Sha>,
                     gone': set<Sha>, sha: Sha)
    requires AwsAre(job, mid, made, gone) && Within(job, made, gone)
    requires AwsAre(Later(job, mid), after, made', gone') && Within(job, made', gone')
    requires sha in gone + gone'
    ensures GoneAw(job.before, after, job.Name(sha))
  {
    var x := job.Name(sha);
    assert sha !in made && sha !in made';
    if sha !in gone {
      NotYet(job, mid, made, gone, sha);
    } else {
      assert GoneAw(job.before, mid, x);
    }
    if sha !in gone' {
      NotYet(Later(job, mid), after, made', gone', sha);
    } else {
      assert GoneAw(mid, after, x);
    }
    GoneTwice(job.before, mid, after, x);
  }

  lemma AddsUp(job: Job, mid: Aws, after: Aws, made: set<Sha>, gone: set<Sha>, made': set<Sha>, gone': set<Sha>)
    requires AwsAre(job, mid, made, gone) && Within(job, made, gone)
    requires AwsAre(Later(job, mid), after, made', gone') && Within(job, made', gone')
    ensures AwsAre(job, after, made + made', gone + gone')
  {
    forall sha: Sha | sha in made + made'
      ensures MadeAw(job, after, sha)
    {
      MadeTwice(job, mid, after, made, gone, made', gone', sha);
    }
    forall sha: Sha | sha in gone + gone'
      ensures GoneAw(job.before, after, job.Name(sha))
    {
      DeletedTwice(job, mid, after, made, gone, made', gone', sha);
    }
    forall x | x !in Names(job.nn, (made + made') + (gone + gone'))
      ensures SameIn(job.before, after, x)
    {
      NamesGrow(job.nn, made + gone, (made + made') + (gone + gone'), x);
      NamesGrow(job.nn, made' + gone', (made + made') + (gone + gone'), x);
      assert SameIn(job.before, mid, x) && SameIn(mid, after, x);
    }
  }

  lemma CleansUp(before: Aws, mid: Aws, after: Aws, nn: NN, shas: set<Sha>)
    requires Cleaned(before, mid, nn, shas) && Cleaned(mid, after, nn, shas)
    ensures Cleaned(before, after, nn, shas)
  {
    var d: set<Sha> :| d <= shas && Deleted(before, mid, nn, d);
    var e: set<Sha> :| e <= shas && Deleted(mid, after, nn, e);
    DeletesAddUp(before, mid, after, nn, d, e);
    assert d + e <= shas;
  }

  lemma DeletesAddUp(before: Aws, mid: Aws, after: Aws, nn: NN, d: set<Sha>, e: set<Sha>)
    requires Deleted(before, mid, nn, d) && Deleted(mid, after, nn, e)
    ensures Deleted(before, after, nn, d + e)
  {
    forall sha: Sha | sha in d + e
      ensures GoneAw(before, after, AwName(nn, sha))
    {
      InNames(nn, d, sha);
      InNames(nn, e, sha);
      GoneTwice(before, mid, after, AwName(nn, sha));
    }
    forall x | x !in Names(nn, d + e)
      ensures SameIn(before, after, x)
    {
      NamesGrow(nn, d, d + e, x);
      NamesGrow(nn, e, d + e, x);
      assert SameIn(before, mid, x) && SameIn(mid, after, x);
    }
  }

  // ---------------------------------------------------------------------------------------------------
  // The main path
  // ---------------------------------------------------------------------------------------------------

  // Keys that are both tracked and desired, or neither, are out of reach of Creates and Deletes.
  lemma OutOfReach(job: Job, mid: Aws, made: set<Sha>, gone: set<Sha>, sha: Sha)
    requires AwsAre(job, mid, made, gone) && Within(job, made, gone)
    requires sha !in job.Creates() && sha !in job.Deletes()
    ensures SameIn(job.before, mid, job.Name(sha))
  {
    NotYet(job, mid, made, gone, sha);
  }

  // Both stores hold the ArtifactWorkflows of the kept keys, in the same phases.
  ghost predicate KeptAlike(job: Job, mid: Aws) {
    forall sha: Sha :: sha in job.Keeps() ==>
      && (job.Name(sha) in mid <==> job.Name(sha) in job.before)
      && (job.Name(sha) in mid ==> mid[job.Name(sha)].phase == job.before[job.Name(sha)].phase)
  }

  lemma StatusDependsOnKept(job: Job, mid: Aws)
    requires KeptAlike(job, mid)
    ensures MainReady(Later(job, mid)) <==> MainReady(job)
    ensures Dirty(Later(job, mid), job.Keeps()) <==> Dirty(job, job.Keeps())
    ensures MainReady(job) ==> NewStatus(Later(job, mid)) == NewStatus(job)
  {
    var late := Later(job, mid);
    assert forall sha: Sha :: sha in job.Keeps() ==> late.Name(sha) == job.Name(sha);
    assert forall sha: Sha :: SpecGood(late, sha) <==> SpecGood(job, sha);
    assert AllKept(late) <==> AllKept(job);
    assert forall sha: Sha :: Differs(late, sha) <==> Differs(job, sha);
    if AllKept(job) {
      SameNewStatus(job, mid);
    }
  }

  lemma SameNewStatus(job: Job, mid: Aws)
    requires KeptAlike(job, mid) && AllKept(job) && AllKept(Later(job, mid))
    ensures NewStatus(Later(job, mid)) == NewStatus(job)
  {
  }

  lemma CutIsKeptAlike(job: Job, before: Orders, mid: World)
    requires MainCut(job, before, mid)
    ensures KeptAlike(job, mid.aws)
  {
    var made, gone :| Within(job, made, gone) && AwsAre(job, mid.aws, made, gone);
    forall sha: Sha | sha in job.Keeps()
      ensures SameIn(job.before, mid.aws, job.Name(sha))
    {
      OutOfReach(job, mid.aws, made, gone, sha);
    }
  }

  lemma MainResumes(job: Job, before: Orders, mid: World, n: World)
    requires MainCut(job, before, mid) && MainDone(Later(job, mid.aws), mid.orders, n)
    ensures MainDone(job, before, n)
  {
    CutIsKeptAlike(job, before, mid);
    StatusDependsOnKept(job, mid.aws);
    var made, gone :| Within(job, made, gone) && AwsAre(job, mid.aws, made, gone);
    AddsUp(job, mid.aws, n.aws, made, gone, job.Creates(), job.Deletes());
    assert made + job.Creates() == job.Creates() && gone + job.Deletes() == job.Deletes();
  }

  lemma JobLater(w: World, mid: World, nn: NN, daws: seq<Daw>)
    requires nn in w.orders && mid.orders == w.orders && mid.codec == w.codec
    ensures JobOf(mid, nn, daws) == Later(JobOf(w, nn, daws), mid.aws)
  {
  }

  // ---------------------------------------------------------------------------------------------------
  // Crash resumption
  // ---------------------------------------------------------------------------------------------------

  // A run that is cut off after any of its calls, followed by a complete one, is a complete run.
  lemma ResumeOnce(s: Snapshot, w: World, mid: World, n: World, nn: NN)
    requires mid.codec == w.codec && CutOff(s, w, mid, nn) && Completed(s, mid, n, nn)
    ensures Completed(s, w, n, nn)
  {
    if nn in w.orders {
      var o := w.orders[nn];
      if o.deleting {
        if o.status != map[] {
          CleansUp(w.aws, mid.aws, n.aws, nn, o.status.Keys);
        } else {
          NothingToClean(w.aws, mid.aws, nn);
        }
      } else if O.ORDER_FINALIZER in o.finalizers {
        var daws := ResolveAll(s, nn.ns, o.spec).value;
        JobLater(w, mid, nn, daws);
        MainResumes(JobOf(w, nn, daws), w.orders, mid, n);
      }
    }
  }

  lemma NothingToClean(before: Aws, after: Aws, nn: NN)
    requires Cleaned(before, after, nn, {})
    ensures before == after
  {
    forall x
      ensures x in before <==> x in after
      ensures x in before ==> after[x] == before[x]
    {
      assert SameIn(before, after, x);
    }
  }

  // The reconciles in `ws` were all cut off.
  ghost predicate CutRuns(s: Snapshot, ws: seq<World>, nn: NN) {
    && |ws| > 0
    && forall i: nat :: i < |ws| - 1 ==> CutRunAt(s, ws, nn, i)
  }

  ghost predicate CutRunAt(s: Snapshot, ws: seq<World>, nn: NN, i: nat)
    requires i < |ws| - 1
  {
    ws[i + 1].codec == ws[i].codec && CutOff(s, ws[i], ws[i + 1], nn)
  }

  // However often reconciles are cut off, and wherever: the first complete run afterwards does to the store what one
  // uninterrupted run from the start would have done.
  lemma {:induction false} CrashResumption(s: Snapshot, ws: seq<World>, n: World, nn: NN)
    requires CutRuns(s, ws, nn) && Completed(s, ws[|ws| - 1], n, nn)
    ensures Completed(s, ws[0], n, nn)
    decreases |ws|
  {
    if |ws| == 1 {
    } else {
      var k := |ws| - 2;
      assert CutRunAt(s, ws, nn, k);
      ResumeOnce(s, ws[k], ws[k + 1], n, nn);
      var front := ws[..k + 1];
      forall i: nat | i < |front| - 1
        ensures CutRunAt(s, front, nn, i)
      {
        assert CutRunAt(s, ws, nn, i);
      }
      CrashResumption(s, front, n, nn);
    }
  }

  // The reconciles in `ws` were complete or cut off.
  ghost predicate Runs(s: Snapshot, ws: seq<World>, nn: NN) {
    |ws| > 0 && forall i: nat :: i < |ws| - 1 ==> RunAt(s, ws, nn, i)
  }

  ghost predicate RunAt(s: Snapshot, ws: seq<World>, nn: NN, i: nat)
    requires i < |ws| - 1
  {
    ws[i + 1].codec == ws[i].codec && (Completed(s, ws[i], ws[i + 1], nn) || CutOff(s, ws[i], ws[i + 1], nn))
  }

  lemma FirstOfRuns(s: Snapshot, ws: seq<World>, nn: NN)
    requires Runs(s, ws, nn) && |ws| > 1
    ensures RunAt(s, ws, nn, 0) && Runs(s, ws[1..], nn)
  {
    var rest := ws[1..];
    forall i: nat | i < |rest| - 1
      ensures RunAt(s, rest, nn, i)
    {
      assert RunAt(s, ws, nn, i + 1);
    }
  }

  // ---------------------------------------------------------------------------------------------------
  // What a complete run does is determined
  // ---------------------------------------------------------------------------------------------------

  // The same ArtifactWorkflow but for its version, or two new ones for the same key.
  ghost predicate Alike(job: Job, x: NN, a: A.Aw, b: A.Aw) {
    || a.(version := b.version) == b
    || exists sha: Sha :: sha in job.Creates() && x == job.Name(sha) && FreshFor(job, sha, a) && FreshFor(job, sha, b)
  }

  ghost predicate AlikeAt(job: Job, m: Aws, n: Aws, x: NN) {
    (x in m <==> x in n) && (x in m ==> Alike(job, x, m[x], n[x]))
  }

  lemma AwsDetermined(job: Job, m: Aws, n: Aws, x: NN)
    requires AwsAre(job, m, job.Creates(), job.Deletes()) && AwsAre(job, n, job.Creates(), job.Deletes())
    ensures AlikeAt(job, m, n, x)
  {
    if x !in Names(job.nn, job.Creates() + job.Deletes()) {
      assert SameIn(job.before, m, x) && SameIn(job.before, n, x);
    } else {
      var sha: Sha :| sha in job.Creates() + job.Deletes() && x == job.Name(sha);
      if sha in job.Creates() {
        assert MadeAw(job, m, sha) && MadeAw(job, n, sha);
      } else {
        assert GoneAw(job.before, m, x) && GoneAw(job.before, n, x);
      }
    }
  }

  // Two complete main-path runs from the same store write the same Order, version aside, and leave the same
  // ArtifactWorkflows.
  lemma OutcomeIsDetermined(s: Snapshot, w: World, m: World, n: World, nn: NN)
    requires nn in w.orders && !w.orders[nn].deleting && O.ORDER_FINALIZER in w.orders[nn].finalizers
    requires Completed(s, w, m, nn) && Completed(s, w, n, nn)
    ensures nn in m.orders && nn in n.orders && m.orders[nn].(version := n.orders[nn].version) == n.orders[nn]
    ensures var job := JobOf(w, nn, ResolveAll(s, nn.ns, w.orders[nn].spec).value);
            forall x :: AlikeAt(job, m.aws, n.aws, x)
  {
    var job := JobOf(w, nn, ResolveAll(s, nn.ns, w.orders[nn].spec).value);
    forall x
      ensures AlikeAt(job, m.aws, n.aws, x)
    {
      AwsDetermined(job, m.aws, n.aws, x);
    }
  }

  // New ArtifactWorkflows for the same key agree in everything that matters, up to the order of parameters.
  lemma FreshAgree(job: Job, sha: Sha, a: A.Aw, b: A.Aw)
    requires FreshFor(job, sha, a) && FreshFor(job, sha, b)
    requires Flatten.CollisionFree("spec", SpecOf(job.codec, job.daws[job.Desired()[sha]].artifact.raw).value)
    ensures a.spec.typ == b.spec.typ && a.spec.srcSecret == b.spec.srcSecret && a.spec.dstSecret == b.spec.dstSecret
    ensures multiset(a.spec.params) == multiset(b.spec.params)
    ensures a.phase == b.phase && a.finalizers == b.finalizers
  {
    var d := job.daws[job.Desired()[sha]];
    LosslessDeduplication(job.codec, job.nn.ns, d, d, a.spec, b.spec);
  }

  // The status does not even depend on what others did in between to ArtifactWorkflows that were created or deleted:
  // it is enough that the Order and the phases of the retained keys are the same.
  lemma StatusDespiteOthers(s: Snapshot, w: World, m: World, w': World, n: World, nn: NN)
    requires nn in w.orders && !w.orders[nn].deleting && O.ORDER_FINALIZER in w.orders[nn].finalizers
    requires nn in w'.orders && w'.orders[nn] == w.orders[nn] && w'.codec == w.codec
    requires Completed(s, w, m, nn) && Completed(s, w', n, nn)
    requires KeptAlike(JobOf(w, nn, ResolveAll(s, nn.ns, w.orders[nn].spec).value), w'.aws)
    ensures nn in m.orders && nn in n.orders && m.orders[nn].(version := n.orders[nn].version) == n.orders[nn]
  {
    var daws := ResolveAll(s, nn.ns, w.orders[nn].spec).value;
    var job := JobOf(w, nn, daws);
    assert JobOf(w', nn, daws) == Later(job, w'.aws);
    StatusDependsOnKept(job, w'.aws);
  }
}
