/**
 * The documented form of parameter names is camelCase. The walk capitalises the last key of a path only, so a name has
 * that form exactly when the keys of the nested objects above it are capitalised already.
 */
module CamelCase {
  import opened Flatten

  // The prefix with which the object below the keys `ks` is walked.
  function Walk(prefix: string, ks: seq<string>): string
    decreases ks
  {
    if ks == [] then prefix else Walk(prefix + ks[0], ks[1..])
  }

  // The prefix that camelCase asks for.
  function CamelWalk(prefix: string, ks: seq<string>): string
    decreases ks
  {
    if ks == [] then prefix else CamelWalk(prefix + Capitalize(ks[0]), ks[1..])
  }

  // Following the nested objects `ks` and then `k` leads to the array or scalar `v`.
  ghost predicate PathTo(j: Json, ks: seq<string>, k: string, v: Json)
    requires j.Object?
  {
    if ks == [] then k in j.fields && j.fields[k] == v && !v.Object?
    else ks[0] in j.fields && j.fields[ks[0]].Object? && PathTo(j.fields[ks[0]], ks[1..], k, v)
  }

  // Every produced name belongs to a path,
  lemma {:induction false} LeafHasPath(prefix: string, j: Json, name: string, x: Json)
    returns (ks: seq<string>, k: string, v: Json)
    requires j.Object? && Leaf(prefix, j, name, x)
    ensures PathTo(j, ks, k, v) && EntryLeaf(Walk(prefix, ks), k, v, name, x)
    decreases j
  {
    var f :| f in j.fields && EntryLeaf(prefix, f, j.fields[f], name, x);
    if j.fields[f].Object? {
      var rest;
      rest, k, v := LeafHasPath(prefix + f, j.fields[f], name, x);
      ks := [f] + rest;
      assert ks[1..] == rest;
    } else {
      ks, k, v := [], f, j.fields[f];
    }
  }

  // and every path produces its names.
  lemma {:induction false} PathHasLeaf(prefix: string, j: Json, ks: seq<string>, k: string, v: Json,
                                       name: string, x: Json)
    requires j.Object? && PathTo(j, ks, k, v) && EntryLeaf(Walk(prefix, ks), k, v, name, x)
    ensures Leaf(prefix, j, name, x)
    decreases ks
  {
    if ks == [] {
    } else {
      PathHasLeaf(prefix + ks[0], j.fields[ks[0]], ks[1..], k, v, name, x);
      assert EntryLeaf(prefix, ks[0], j.fields[ks[0]], name, x);
    }
  }

  lemma CapitalizeLength(k: string)
    ensures |Capitalize(k)| >= |k|
  {
  }

  // Capitalising never shortens, so the two can only meet if they have met all the way.
  lemma {:induction false} WalkLonger(p: string, q: string, ks: seq<string>)
    requires |p| <= |q|
    ensures |CamelWalk(q, ks)| - |Walk(p, ks)| >= |q| - |p|
    ensures Walk(p, ks) == CamelWalk(q, ks) ==> p == q
    decreases ks
  {
    if ks == [] {
    } else {
      CapitalizeLength(ks[0]);
      WalkLonger(p + ks[0], q + Capitalize(ks[0]), ks[1..]);
      if p + ks[0] == q + Capitalize(ks[0]) {
        assert p == (p + ks[0])[..|p|] && q == (q + Capitalize(ks[0]))[..|q|];
      }
    }
  }

  // The names below a path are camelCase if and only if every key on it is capitalised.
  lemma {:induction false} CamelCaseIff(prefix: string, ks: seq<string>, suffix: string)
    ensures Walk(prefix, ks) + suffix == CamelWalk(prefix, ks) + suffix
            <==> forall i :: 0 <= i < |ks| ==> Capitalize(ks[i]) == ks[i]
    decreases ks
  {
    WalkLonger(prefix, prefix, ks);
    var p, q := Walk(prefix, ks), CamelWalk(prefix, ks);
    assert p + suffix == q + suffix ==> |p| == |q| && p == (p + suffix)[..|p|] == (q + suffix)[..|q|] == q;
    if ks == [] {
    } else {
      var f, rest := ks[0], ks[1..];
      CapitalizeLength(f);
      WalkLonger(prefix + f, prefix + Capitalize(f), rest);
      if p == q {
        assert f == (prefix + f)[|prefix|..] && Capitalize(f) == (prefix + Capitalize(f))[|prefix|..];
      }
      assert p == q ==> f == Capitalize(f);
      if f == Capitalize(f) {
        CamelCaseIff(prefix + f, rest, suffix);
        assert forall i :: 0 < i < |ks| ==> ks[i] == rest[i - 1];
        assert (forall i :: 0 <= i < |rest| ==> Capitalize(rest[i]) == rest[i])
          <==> forall i :: 0 < i < |ks| ==> Capitalize(ks[i]) == ks[i];
      }
    }
  }

  // {"a": {"b": v}} becomes specaB.
  lemma NestedKeyStaysLower(v: Json, plan: Plan)
    requires v.Scalar? && Complete(Object(map["a" := Object(map["b" := v])]), plan)
    ensures var m := Produced("spec", Object(map["a" := Object(map["b" := v])]), plan);
            "specaB" in m && "specAB" !in m
  {
    var inner := Object(map["b" := v]);
    var j := Object(map["a" := inner]);
    assert EntryLeaf("spec" + "a", "b", inner.fields["b"], "specaB", v);
    assert EntryLeaf("spec", "a", j.fields["a"], "specaB", v);
    assert Leaf("spec", j, "specaB", v);
    SameNames("spec", j, plan, "specaB");
    SameNames("spec", j, plan, "specAB");
    assert ("spec" + "a")[4] != "specAB"[4];
    if "specAB" in Produced("spec", j, plan) {
      var x := Produced("spec", j, plan)["specAB"];
      LeafNameHasPrefix("spec" + "a", inner, "specAB", x);
    }
  }
}
