/** From an artifact to its ArtifactWorkflow, and from an ArtifactWorkflow to its Argo Workflow. */
module Params {
  import opened Flatten
  import opened Types

  // ---------------------------------------------------------------------------------------------------
  // ArtifactWorkflow parameters
  // ---------------------------------------------------------------------------------------------------

  function ParamName(prefix: string, suffix: string): string {
    prefix + Capitalize(suffix)
  }

  function Flag(b: bool): string {
    if b then "true" else "false"
  }

  function FixedParams(d: Daw): seq<Param> {
    [ Param(ParamName("src", "type"), d.src.typ),
      Param(ParamName("src", "remoteURL"), d.src.remoteURL),
      Param(ParamName("dst", "type"), d.dst.typ),
      Param(ParamName("dst", "remoteURL"), d.dst.remoteURL),
      Param("srcSecret", Flag(d.src.secretRef != "")),
      Param("dstSecret", Flag(d.dst.secretRef != "")) ]
  }

  // The decoded spec: None when decoding fails or the walk would slice an empty key.
  function SpecOf(codec: Codec, raw: string): Option<Json> {
    var fields := codec.parse(if raw == "" then "{}" else raw);
    if fields.Some? && WellKeyed(Object(fields.value)) then Some(Object(fields.value)) else None
  }

  // `ps` enumerates the rendered entries of `m`, each once, in some order.
  ghost predicate Lists(codec: Codec, ps: seq<Param>, m: map<string, Json>) {
    && (forall p :: p in ps <==> p.name in m && p.value == codec.render(m[p.name]))
    && (forall i, j :: 0 <= i < j < |ps| ==> ps[i].name != ps[j].name)
  }

  ghost predicate SpecParams(codec: Codec, j: Json, ps: seq<Param>) {
    j.Object? && exists plan :: Complete(j, plan) && Lists(codec, ps, Produced("spec", j, plan))
  }

  // `ps` is a result of dawToParameters: map iteration leaves the order of the tail open.
  ghost predicate ParamsOf(codec: Codec, d: Daw, ps: seq<Param>) {
    && SpecOf(codec, d.artifact.raw).Some?
    && |ps| >= 6
    && ps[..6] == FixedParams(d)
    && SpecParams(codec, SpecOf(codec, d.artifact.raw).value, ps[6..])
  }

  // `s` is a result of hydrateArtifactWorkflow.
  ghost predicate Hydrated(codec: Codec, d: Daw, s: AwSpec) {
    && s.typ == d.artifact.typ
    && s.srcSecret == d.src.secretRef
    && s.dstSecret == d.dst.secretRef
    && ParamsOf(codec, d, s.params)
  }

  method DawToParameters(codec: Codec, d: Daw) returns (r: Option<seq<Param>>)
    ensures r.None? <==> SpecOf(codec, d.artifact.raw).None?
    ensures r.Some? ==> ParamsOf(codec, d, r.value)
  {
    var params := [
      Param(ParamName("src", "type"), d.src.typ),
      Param(ParamName("src", "remoteURL"), d.src.remoteURL),
      Param(ParamName("dst", "type"), d.dst.typ),
      Param(ParamName("dst", "remoteURL"), d.dst.remoteURL),
      Param("srcSecret", if d.src.secretRef != "" then "true" else "false"),
      Param("dstSecret", if d.dst.secretRef != "" then "true" else "false")
    ];
    var spec := SpecOf(codec, d.artifact.raw);
    if spec.None? {
      return None;
    }
    var flattened := FlattenMap("spec", spec.value, map[]);
    var tail := RenderAll(codec, flattened);
    assert (params + tail)[..6] == params && (params + tail)[6..] == tail;
    return Some(params + tail);
  }

  // The loop that appends one parameter per flattened name.
  method RenderAll(codec: Codec, m: map<string, Json>) returns (ps: seq<Param>)
    ensures Lists(codec, ps, m)
  {
    ps := [];
    var todo := m.Keys;
    while todo != {}
      invariant todo <= m.Keys
      invariant forall p :: p in ps <==> p.name in m.Keys - todo && p.value == codec.render(m[p.name])
      invariant forall i, j :: 0 <= i < j < |ps| ==> ps[i].name != ps[j].name
      decreases todo
    {
      var name :| name in todo;
      assert forall i :: 0 <= i < |ps| ==> ps[i] in ps;
      ps, todo := ps + [Param(name, codec.render(m[name]))], todo - {name};
    }
  }

  method HydrateArtifactWorkflow(codec: Codec, d: Daw) returns (r: Option<AwSpec>)
    ensures r.None? <==> SpecOf(codec, d.artifact.raw).None?
    ensures r.Some? ==> Hydrated(codec, d, r.value)
  {
    var params := DawToParameters(codec, d);
    if params.None? {
      return None;
    }
    return Some(AwSpec(d.artifact.typ, params.value, d.src.secretRef, d.dst.secretRef));
  }

  // ---------------------------------------------------------------------------------------------------
  // Argo Workflows
  // ---------------------------------------------------------------------------------------------------

  function SecretVolume(name: string, secret: string): Volume {
    Volume(name, if secret != "" then FromSecret(secret) else EmptyDir)
  }

  // The Workflow of an ArtifactWorkflow; `src` and `dst` are the names of the fetched secrets, "" when none was.
  function WorkflowOf(aw: AwSpec, t: ArtifactType, src: string, dst: string): WfSpec {
    WfSpec(t.template, [SecretVolume("src-secret-vol", src), SecretVolume("dst-secret-vol", dst)],
           aw.params + t.params)
  }

  method HydrateArgoWorkflow(aw: AwSpec, t: ArtifactType, srcSecret: Secret, dstSecret: Secret) returns (wf: WfSpec)
    ensures wf == WorkflowOf(aw, t, srcSecret.name, dstSecret.name)
  {
    var srcVolume := Volume("src-secret-vol", EmptyDir);
    if srcSecret.name != "" {
      srcVolume := srcVolume.(source := FromSecret(srcSecret.name));
    }
    var dstVolume := Volume("dst-secret-vol", EmptyDir);
    if dstSecret.name != "" {
      dstVolume := dstVolume.(source := FromSecret(dstSecret.name));
    }
    var parameters: seq<Param> := [];
    for i := 0 to |aw.params|
      invariant parameters == aw.params[..i]
    {
      parameters := parameters + [Param(aw.params[i].name, aw.params[i].value)];
    }
    assert aw.params[..|aw.params|] == aw.params;
    for i := 0 to |t.params|
      invariant parameters == aw.params + t.params[..i]
    {
      parameters := parameters + [Param(t.params[i].name, t.params[i].value)];
    }
    assert t.params[..|t.params|] == t.params;
    wf := WfSpec(t.template, [srcVolume, dstVolume], parameters);
  }

  // ---------------------------------------------------------------------------------------------------
  // What a workflow sees
  // ---------------------------------------------------------------------------------------------------

  // Last-wins reading of an argument list.
  function Lookup(ps: seq<Param>, name: string): Option<string> {
    if ps == [] then None
    else if ps[|ps| - 1].name == name then Some(ps[|ps| - 1].value)
    else Lookup(ps[..|ps| - 1], name)
  }

  lemma {:induction false} LookupConcat(ps: seq<Param>, qs: seq<Param>, name: string)
    ensures Lookup(ps + qs, name) == if Lookup(qs, name).Some? then Lookup(qs, name) else Lookup(ps, name)
    decreases |qs|
  {
    if qs == [] {
      assert ps + qs == ps;
    } else {
      assert (ps + qs)[..|ps + qs| - 1] == ps + qs[..|qs| - 1];
      LookupConcat(ps, qs[..|qs| - 1], name);
    }
  }

  lemma {:induction false} LookupFinds(ps: seq<Param>, name: string)
    ensures Lookup(ps, name).Some? ==> Param(name, Lookup(ps, name).value) in ps
    ensures Lookup(ps, name).None? ==> forall p :: p in ps ==> p.name != name
  {
    if ps == [] {
    } else {
      LookupFinds(ps[..|ps| - 1], name);
      assert ps == ps[..|ps| - 1] + [ps[|ps| - 1]];
    }
  }

  // ArtifactType parameters override those of the ArtifactWorkflow, and nothing else does.
  lemma ParameterPrecedence(aw: AwSpec, t: ArtifactType, src: string, dst: string, name: string)
    ensures var seen := Lookup(WorkflowOf(aw, t, src, dst).params, name);
            && (Lookup(t.params, name).Some? ==> seen == Lookup(t.params, name))
            && (Lookup(t.params, name).None? ==> seen == Lookup(aw.params, name))
  {
    LookupConcat(aw.params, t.params, name);
  }

  lemma SpecNamesAreApart(j: Json, plan: Plan, name: string)
    requires j.Object? && Complete(j, plan) && name in Produced("spec", j, plan)
    ensures "spec" <= name && forall d: Daw, p :: p in FixedParams(d) ==> p.name != name
  {
    SameNames("spec", j, plan, name);
    LeafNameHasPrefix("spec", j, name, Produced("spec", j, plan)[name]);
    assert name[0] == 's' && name[1] == 'p';
    forall d: Daw, p | p in FixedParams(d)
      ensures p.name != name
    {
      assert |p.name| > 1 && p.name[1] != 'p';
    }
  }

  // In a hydrated ArtifactWorkflow a name resolves to its fixed value or to the rendered leaf, never to both.
  lemma HydratedLookup(codec: Codec, d: Daw, s: AwSpec, name: string)
    requires Hydrated(codec, d, s)
    ensures Lookup(FixedParams(d), name).Some? ==> Lookup(s.params, name) == Lookup(FixedParams(d), name)
    ensures var j := SpecOf(codec, d.artifact.raw).value;
            && (Lookup(s.params, name).Some? ==>
                  || Lookup(s.params, name) == Lookup(FixedParams(d), name)
                  || exists x :: Leaf("spec", j, name, x) && Lookup(s.params, name).value == codec.render(x))
            && (forall x :: Leaf("spec", j, name, x) ==> Lookup(s.params, name).Some?)
  {
    var tail := s.params[6..];
    assert s.params == s.params[..6] + tail;
    LookupConcat(FixedParams(d), tail, name);
    LookupFinds(FixedParams(d), name);
    TailLookup(codec, SpecOf(codec, d.artifact.raw).value, tail, name);
  }

  // The part of a parameter list that comes from the artifact spec.
  lemma TailLookup(codec: Codec, j: Json, tail: seq<Param>, name: string)
    requires SpecParams(codec, j, tail)
    ensures Lookup(tail, name).Some? ==> "spec" <= name && forall d: Daw, p :: p in FixedParams(d) ==> p.name != name
    ensures Lookup(tail, name).Some? ==>
              exists x :: Leaf("spec", j, name, x) && Lookup(tail, name).value == codec.render(x)
    ensures forall x :: Leaf("spec", j, name, x) ==> Lookup(tail, name).Some?
  {
    var plan :| Complete(j, plan) && Lists(codec, tail, Produced("spec", j, plan));
    var m := Produced("spec", j, plan);
    LookupFinds(tail, name);
    SameNames("spec", j, plan, name);
    if name in m {
      SpecNamesAreApart(j, plan, name);
      assert Param(name, codec.render(m[name])) in tail;
    }
  }

  // The first six parameters, name by name.
  lemma FirstSix(codec: Codec, d: Daw, s: AwSpec)
    requires Hydrated(codec, d, s)
    ensures |s.params| >= 6
    ensures s.params[0] == Param("srcType", d.src.typ) && s.params[1] == Param("srcRemoteURL", d.src.remoteURL)
    ensures s.params[2] == Param("dstType", d.dst.typ) && s.params[3] == Param("dstRemoteURL", d.dst.remoteURL)
    ensures s.params[4] == Param("srcSecret", if d.src.secretRef == "" then "false" else "true")
    ensures s.params[5] == Param("dstSecret", if d.dst.secretRef == "" then "false" else "true")
  {
    var f := s.params[..6];
    assert f == FixedParams(d);
    assert forall i :: 0 <= i < 6 ==> s.params[i] == f[i];
    assert ParamName("src", "type") == "srcType" && ParamName("dst", "type") == "dstType";
    assert ParamName("src", "remoteURL") == "srcRemoteURL" && ParamName("dst", "remoteURL") == "dstRemoteURL";
  }

  // What the six names resolve to. Every other name that resolves starts with "spec".
  lemma FixedNames(codec: Codec, d: Daw, s: AwSpec)
    requires Hydrated(codec, d, s)
    ensures Lookup(s.params, "srcType") == Some(d.src.typ) && Lookup(s.params, "srcRemoteURL") == Some(d.src.remoteURL)
    ensures Lookup(s.params, "dstType") == Some(d.dst.typ) && Lookup(s.params, "dstRemoteURL") == Some(d.dst.remoteURL)
    ensures Lookup(s.params, "srcSecret") == Some(if d.src.secretRef == "" then "false" else "true")
    ensures Lookup(s.params, "dstSecret") == Some(if d.dst.secretRef == "" then "false" else "true")
    ensures forall name :: Lookup(s.params, name).Some? ==>
              "spec" <= name || name in {"srcType", "srcRemoteURL", "dstType", "dstRemoteURL", "srcSecret", "dstSecret"}
  {
    FirstSix(codec, d, s);
    forall i | 0 <= i < 6
      ensures Lookup(s.params, s.params[i].name) == Some(s.params[i].value)
    {
      OnlyOnce(codec, d, s, i);
    }
    forall name | Lookup(s.params, name).Some?
      ensures "spec" <= name || exists i :: 0 <= i < 6 && s.params[i].name == name
    {
      WhereFrom(codec, d, s, name);
    }
  }

  lemma {:induction false} LookupUnique(ps: seq<Param>, i: nat)
    requires i < |ps| && forall h :: 0 <= h < |ps| && h != i ==> ps[h].name != ps[i].name
    ensures Lookup(ps, ps[i].name) == Some(ps[i].value)
    decreases |ps|
  {
    if i == |ps| - 1 {
    } else {
      LookupUnique(ps[..|ps| - 1], i);
    }
  }

  lemma SixApart(codec: Codec, d: Daw, s: AwSpec)
    requires Hydrated(codec, d, s)
    ensures |s.params| >= 6 && forall h, i :: 0 <= h < i < 6 ==> s.params[h].name != s.params[i].name
  {
    FirstSix(codec, d, s);
    assert "srcType"[0] != "dstType"[0] && "srcType"[3] != "srcRemoteURL"[3] && "srcType"[3] != "srcSecret"[3];
    assert "dstType"[3] != "dstRemoteURL"[3] && "dstType"[3] != "dstSecret"[3];
    assert "srcRemoteURL"[3] != "srcSecret"[3] && "dstRemoteURL"[3] != "dstSecret"[3];
    assert forall h :: h in {0, 1, 4} ==> s.params[h].name[0] == 's';
    assert forall h :: h in {2, 3, 5} ==> s.params[h].name[0] == 'd';
  }

  lemma OnlyOnce(codec: Codec, d: Daw, s: AwSpec, i: nat)
    requires Hydrated(codec, d, s) && i < 6
    ensures |s.params| >= 6 && Lookup(s.params, s.params[i].name) == Some(s.params[i].value)
  {
    SixApart(codec, d, s);
    var front, tail := s.params[..6], s.params[6..];
    assert s.params == front + tail && front[i] == s.params[i] && front[i] in front;
    LookupUnique(front, i);
    LookupConcat(front, tail, front[i].name);
    TailLookup(codec, SpecOf(codec, d.artifact.raw).value, tail, front[i].name);
  }

  lemma WhereFrom(codec: Codec, d: Daw, s: AwSpec, name: string)
    requires Hydrated(codec, d, s) && Lookup(s.params, name).Some?
    ensures |s.params| >= 6 && ("spec" <= name || exists i :: 0 <= i < 6 && s.params[i].name == name)
  {
    var front, tail := s.params[..6], s.params[6..];
    assert s.params == front + tail;
    LookupConcat(front, tail, name);
    if Lookup(tail, name).Some? {
      TailLookup(codec, SpecOf(codec, d.artifact.raw).value, tail, name);
    } else {
      LookupFinds(front, name);
      var i :| 0 <= i < 6 && front[i] == Param(name, Lookup(front, name).value);
      assert s.params[i].name == name;
    }
  }

  // An artifact without a spec is read as one with the empty object, and yields the six parameters only.
  lemma NoSpecNoMore(codec: Codec, d: Daw, s: AwSpec)
    requires Hydrated(codec, d, s) && d.artifact.raw == "" && codec.parse("{}") == Some(map[])
    ensures |s.params| == 6
  {
    var tail := s.params[6..];
    var plan :| Complete(Object(map[]), plan) && Lists(codec, tail, Produced("spec", Object(map[]), plan));
    if tail != [] {
      assert tail[0] in tail;
      SameNames("spec", Object(map[]), plan, tail[0].name);
      assert false;
    }
  }

  // The generated flag tells the workflow, for each side separately, what is mounted there. A fetched secret carries
  // the name it was asked for, so the references of the ArtifactWorkflow are the names of the mounted secrets.
  lemma SecretFlagAgreesWithMount(codec: Codec, d: Daw, s: AwSpec, t: ArtifactType)
    requires Hydrated(codec, d, s)
    ensures var wf := WorkflowOf(s, t, s.srcSecret, s.dstSecret);
            && wf.volumes == [ Volume("src-secret-vol",
                                      if Lookup(s.params, "srcSecret") == Some("true")
                                      then FromSecret(d.src.secretRef) else EmptyDir),
                               Volume("dst-secret-vol",
                                      if Lookup(s.params, "dstSecret") == Some("true")
                                      then FromSecret(d.dst.secretRef) else EmptyDir) ]
            && Lookup(s.params, "srcSecret") in {Some("true"), Some("false")}
            && Lookup(s.params, "dstSecret") in {Some("true"), Some("false")}
  {
    HydratedLookup(codec, d, s, "srcSecret");
    HydratedLookup(codec, d, s, "dstSecret");
    FixedSecretLookup(d);
  }

  lemma FixedSecretLookup(d: Daw)
    ensures Lookup(FixedParams(d), "srcSecret") == Some(Flag(d.src.secretRef != ""))
    ensures Lookup(FixedParams(d), "dstSecret") == Some(Flag(d.dst.secretRef != ""))
  {
  }

  // ---------------------------------------------------------------------------------------------------
  // Deduplication
  // ---------------------------------------------------------------------------------------------------

  lemma {:induction false} ListedOnce(ps: seq<Param>, p: Param)
    requires forall i, j :: 0 <= i < j < |ps| ==> ps[i].name != ps[j].name
    ensures multiset(ps)[p] == if p in ps then 1 else 0
  {
    if ps == [] {
    } else {
      var n := |ps| - 1;
      ListedOnce(ps[..n], p);
      assert ps == ps[..n] + [ps[n]];
      assert forall i :: 0 <= i < n ==> ps[..n][i].name != ps[n].name;
    }
  }

  lemma ListingsAgree(codec: Codec, ps: seq<Param>, qs: seq<Param>, m: map<string, Json>)
    requires Lists(codec, ps, m) && Lists(codec, qs, m)
    ensures multiset(ps) == multiset(qs)
  {
    forall p
      ensures multiset(ps)[p] == multiset(qs)[p]
    {
      ListedOnce(ps, p);
      ListedOnce(qs, p);
    }
  }

  // Both artifacts were resolved against the same stored endpoints.
  ghost predicate SameSnapshot(d: Daw, e: Daw) {
    && (d.src.name == e.src.name ==> d.src == e.src)
    && (d.dst.name == e.dst.name ==> d.dst == e.dst)
  }

  // Artifacts with the same hash input become the same ArtifactWorkflow, up to the order of parameters, so letting
  // one overwrite the other in the desired map loses nothing.
  lemma LosslessDeduplication(codec: Codec, ns: string, d: Daw, e: Daw, s: AwSpec, t: AwSpec)
    requires InputOf(ns, d) == InputOf(ns, e) && SameSnapshot(d, e)
    requires Hydrated(codec, d, s) && Hydrated(codec, e, t)
    requires CollisionFree("spec", SpecOf(codec, d.artifact.raw).value)
    ensures s.typ == t.typ && s.srcSecret == t.srcSecret && s.dstSecret == t.dstSecret
    ensures multiset(s.params) == multiset(t.params)
  {
    var j := SpecOf(codec, d.artifact.raw).value;
    var p :| Complete(j, p) && Lists(codec, s.params[6..], Produced("spec", j, p));
    var q :| Complete(j, q) && Lists(codec, t.params[6..], Produced("spec", j, q));
    Confluence("spec", j);
    ListingsAgree(codec, s.params[6..], t.params[6..], Produced("spec", j, p));
    assert s.params == s.params[..6] + s.params[6..];
    assert t.params == t.params[..6] + t.params[6..];
  }
}
