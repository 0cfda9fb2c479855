/**
 * `flattenMap`: the recursive walk that turns an artifact spec (a JSON tree) into named parameters.
 *
 * Go iterates over a map in an arbitrary order, so one call has many possible executions. A `Plan` fixes the order
 * taken at every level of the tree; it determines the sequence of writes made to the shared destination map, and
 * the produced map is the last-wins reading of that sequence.
 */
module Flatten {
  import opened Decimal

  // A decoded JSON value. `Scalar` stands for null, booleans, numbers and strings.
  datatype Json =
    | Scalar(text: string)
    | Array(items: seq<Json>)
    | Object(fields: map<string, Json>)

  datatype Binding = Binding(name: string, value: Json)

  // Go strings are sequences of bytes, and so are strings here: one character stands for one byte.
  // `k[:1]` is defined for non-empty keys only.
  predicate WellKeyed(j: Json) {
    j.Object? ==> forall k :: k in j.fields ==> k != "" && WellKeyed(j.fields[k])
  }

  function Upper(c: char): char {
    if 'a' <= c <= 'z' then c - 'a' + 'A' else c
  }

  // The UTF-8 form of U+FFFD.
  const REPLACEMENT: string := ['\U{EF}', '\U{BF}', '\U{BD}']

  // strings.ToUpper of a single byte: a byte that is not ASCII is no valid UTF-8 by itself, and is replaced.
  function UpperByte(c: char): string {
    if c as int < 128 then [Upper(c)] else REPLACEMENT
  }

  // strings.ToUpper(k[:1]) + k[1:]
  function Capitalize(k: string): string {
    if k == "" then "" else UpperByte(k[0]) + k[1..]
  }

  function ItemName(prefix: string, k: string, i: nat): string {
    prefix + Capitalize(k) + Itoa(i)
  }

  // ---------------------------------------------------------------------------------------------------
  // The declarative reading: which (name, value) pairs a tree contributes
  // ---------------------------------------------------------------------------------------------------

  ghost predicate EntryLeaf(prefix: string, k: string, v: Json, name: string, x: Json)
    decreases v
  {
    match v
    case Object(_) => Leaf(prefix + k, v, name, x)
    case Array(items) => exists i: nat :: i < |items| && name == ItemName(prefix, k, i) && x == items[i]
    case Scalar(_) => name == prefix + Capitalize(k) && x == v
  }

  ghost predicate Leaf(prefix: string, j: Json, name: string, x: Json)
    requires j.Object?
    decreases j, 0
  {
    exists k :: k in j.fields && EntryLeaf(prefix, k, j.fields[k], name, x)
  }

  ghost predicate CollisionFree(prefix: string, j: Json)
    requires j.Object?
  {
    forall name, x, y :: Leaf(prefix, j, name, x) && Leaf(prefix, j, name, y) ==> x == y
  }

  // The map whose entries are exactly the leaves.
  ghost predicate IsLeafMap(prefix: string, j: Json, m: map<string, Json>)
    requires j.Object?
  {
    forall name, x :: Leaf(prefix, j, name, x) <==> name in m && m[name] == x
  }

  // ---------------------------------------------------------------------------------------------------
  // The operational reading: every execution, whatever iteration order is taken at each level
  // ---------------------------------------------------------------------------------------------------

  // The order in which the keys of an object are visited, with the order taken inside each nested object.
  datatype Plan = Stop | Visit(key: string, inner: Plan, rest: Plan)

  // The plan visits each key of `todo` exactly once, and likewise at every level below.
  ghost predicate Covers(j: Json, todo: set<string>, plan: Plan)
    requires j.Object? && todo <= j.fields.Keys
    decreases plan
  {
    match plan
    case Stop => todo == {}
    case Visit(k, inner, rest) =>
      && k in todo
      && (j.fields[k].Object? ==> Covers(j.fields[k], j.fields[k].fields.Keys, inner))
      && Covers(j, todo - {k}, rest)
  }

  ghost predicate Complete(j: Json, plan: Plan)
    requires j.Object?
  {
    Covers(j, j.fields.Keys, plan)
  }

  ghost function EntryWrites(prefix: string, k: string, v: Json, inner: Plan): seq<Binding>
    decreases inner, 1
  {
    match v
    case Object(_) => Writes(prefix + k, v, inner)
    case Array(items) => seq(|items|, i requires 0 <= i < |items| => Binding(ItemName(prefix, k, i), items[i]))
    case Scalar(_) => [Binding(prefix + Capitalize(k), v)]
  }

  // What the walk of `j` writes when it follows the plan.
  ghost function Writes(prefix: string, j: Json, plan: Plan): seq<Binding>
    requires j.Object?
    decreases plan, 0
  {
    match plan
    case Stop => []
    case Visit(k, inner, rest) =>
      (if k in j.fields then EntryWrites(prefix, k, j.fields[k], inner) else []) + Writes(prefix, j, rest)
  }

  function Write(dst: map<string, Json>, t: seq<Binding>): map<string, Json> {
    if t == [] then dst
    else Write(dst, t[..|t| - 1])[t[|t| - 1].name := t[|t| - 1].value]
  }

  ghost function Produced(prefix: string, j: Json, plan: Plan): map<string, Json>
    requires j.Object?
  {
    Write(map[], Writes(prefix, j, plan))
  }

  ghost predicate OrderIndependent(prefix: string, j: Json)
    requires j.Object?
  {
    forall p, q :: Complete(j, p) && Complete(j, q) ==> Produced(prefix, j, p) == Produced(prefix, j, q)
  }

  // ---------------------------------------------------------------------------------------------------
  // Lemmas about writes
  // ---------------------------------------------------------------------------------------------------

  lemma {:induction false} WriteConcat(dst: map<string, Json>, t: seq<Binding>, u: seq<Binding>)
    ensures Write(dst, t + u) == Write(Write(dst, t), u)
    decreases |u|
  {
    if u == [] {
      assert t + u == t;
    } else {
      assert (t + u)[..|t + u| - 1] == t + u[..|u| - 1];
      WriteConcat(dst, t, u[..|u| - 1]);
    }
  }

  // The written map names exactly what was written, and every value in it was written under its name.
  lemma {:induction false} WriteNames(t: seq<Binding>, b: Binding)
    ensures b in t ==> b.name in Write(map[], t)
    ensures b.name in Write(map[], t) ==> Binding(b.name, Write(map[], t)[b.name]) in t
  {
    if t == [] {
    } else {
      var n := |t| - 1;
      WriteNames(t[..n], b);
      assert t == t[..n] + [t[n]];
      assert b.name == t[n].name ==> Binding(b.name, Write(map[], t)[b.name]) == t[n];
    }
  }

  ghost predicate LastWrite(t: seq<Binding>, b: Binding) {
    exists i :: 0 <= i < |t| && t[i] == b && forall h :: i < h < |t| ==> t[h].name != b.name
  }

  lemma {:induction false} LastWriteWins(t: seq<Binding>, b: Binding)
    requires LastWrite(t, b)
    ensures b.name in Write(map[], t) && Write(map[], t)[b.name] == b.value
  {
    var i :| 0 <= i < |t| && t[i] == b && forall h :: i < h < |t| ==> t[h].name != b.name;
    var n := |t| - 1;
    if i == n {
    } else {
      assert t[..n][i] == b;
      LastWriteWins(t[..n], b);
      assert t[n].name != b.name;
    }
  }

  // ---------------------------------------------------------------------------------------------------
  // Every execution writes exactly the leaves
  // ---------------------------------------------------------------------------------------------------

  lemma {:induction false} EntryWritesLeaves(prefix: string, k: string, v: Json, inner: Plan, b: Binding)
    requires v.Object? ==> Complete(v, inner)
    ensures b in EntryWrites(prefix, k, v, inner) <==> EntryLeaf(prefix, k, v, b.name, b.value)
    decreases inner, 1
  {
    match v
    case Object(_) =>
      WritesLeaves(prefix + k, v, v.fields.Keys, inner, b);
    case Array(items) =>
      var t := EntryWrites(prefix, k, v, inner);
      if b in t {
        var i :| 0 <= i < |t| && t[i] == b;
        assert b.name == ItemName(prefix, k, i) && b.value == items[i];
      }
      if EntryLeaf(prefix, k, v, b.name, b.value) {
        var i: nat :| i < |items| && b.name == ItemName(prefix, k, i) && b.value == items[i];
        assert t[i] == b;
      }
    case Scalar(_) =>
  }

  lemma {:induction false} WritesLeaves(prefix: string, j: Json, todo: set<string>, plan: Plan, b: Binding)
    requires j.Object? && todo <= j.fields.Keys && Covers(j, todo, plan)
    ensures b in Writes(prefix, j, plan) <==>
            exists k :: k in todo && EntryLeaf(prefix, k, j.fields[k], b.name, b.value)
    decreases plan, 0
  {
    match plan
    case Stop =>
    case Visit(k, inner, rest) =>
      EntryWritesLeaves(prefix, k, j.fields[k], inner, b);
      WritesLeaves(prefix, j, todo - {k}, rest, b);
  }

  // ---------------------------------------------------------------------------------------------------
  // Building plans
  // ---------------------------------------------------------------------------------------------------

  // The plan that visits `k` after everything else.
  ghost function VisitLast(plan: Plan, k: string, inner: Plan): Plan {
    match plan
    case Stop => Visit(k, inner, Stop)
    case Visit(f, i, rest) => Visit(f, i, VisitLast(rest, k, inner))
  }

  lemma {:induction false} VisitLastCovers(prefix: string, j: Json, seen: set<string>, plan: Plan, k: string,
                                           inner: Plan)
    requires j.Object? && seen <= j.fields.Keys && k in j.fields && k !in seen && Covers(j, seen, plan)
    requires j.fields[k].Object? ==> Complete(j.fields[k], inner)
    ensures Covers(j, seen + {k}, VisitLast(plan, k, inner))
    ensures Writes(prefix, j, VisitLast(plan, k, inner))
         == Writes(prefix, j, plan) + EntryWrites(prefix, k, j.fields[k], inner)
    decreases plan
  {
    match plan
    case Stop =>
      assert seen + {k} - {k} == {};
    case Visit(f, i, rest) =>
      VisitLastCovers(prefix, j, seen - {f}, rest, k, inner);
      assert seen + {k} - {f} == seen - {f} + {k};
  }

  lemma {:induction false} SomePlan(j: Json, todo: set<string>) returns (plan: Plan)
    requires j.Object? && todo <= j.fields.Keys
    ensures Covers(j, todo, plan)
    decreases j, |todo|
  {
    if todo == {} {
      plan := Stop;
    } else {
      var k :| k in todo;
      var inner := SomeInner(j.fields[k]);
      var rest := SomePlan(j, todo - {k});
      plan := Visit(k, inner, rest);
    }
  }

  lemma {:induction false} SomeInner(v: Json) returns (plan: Plan)
    ensures v.Object? ==> Complete(v, plan)
    decreases v
  {
    plan := Stop;
    if v.Object? {
      plan := SomePlan(v, v.fields.Keys);
    }
  }

  // Every leaf can be the last to write its name: at each level the key that leads to it is visited last.
  lemma {:induction false} LeafCanWin(prefix: string, j: Json, b: Binding) returns (plan: Plan)
    requires j.Object? && Leaf(prefix, j, b.name, b.value)
    ensures Complete(j, plan) && LastWrite(Writes(prefix, j, plan), b)
    decreases j, 0
  {
    var k :| k in j.fields && EntryLeaf(prefix, k, j.fields[k], b.name, b.value);
    var others := j.fields.Keys - {k};
    var first := SomePlan(j, others);
    var inner := EntryCanWin(prefix, k, j.fields[k], b);
    VisitLastCovers(prefix, j, others, first, k, inner);
    assert others + {k} == j.fields.Keys;
    plan := VisitLast(first, k, inner);
    var u, e := Writes(prefix, j, first), EntryWrites(prefix, k, j.fields[k], inner);
    var i :| 0 <= i < |e| && e[i] == b && forall h :: i < h < |e| ==> e[h].name != b.name;
    assert (u + e)[|u| + i] == b;
  }

  lemma {:induction false} EntryCanWin(prefix: string, k: string, v: Json, b: Binding) returns (inner: Plan)
    requires EntryLeaf(prefix, k, v, b.name, b.value)
    ensures v.Object? ==> Complete(v, inner)
    ensures LastWrite(EntryWrites(prefix, k, v, inner), b)
    decreases v
  {
    inner := Stop;
    match v
    case Object(_) =>
      inner := LeafCanWin(prefix + k, v, b);
    case Array(items) =>
      var e := EntryWrites(prefix, k, v, inner);
      var i: nat :| i < |items| && b.name == ItemName(prefix, k, i) && b.value == items[i];
      assert e[i] == b;
      forall h | i < h < |e|
        ensures e[h].name != b.name
      {
        if e[h].name == b.name {
          ItemNameInjective(prefix, k, h, i);
        }
      }
    case Scalar(_) =>
      assert EntryWrites(prefix, k, v, inner)[0] == b;
  }

  lemma ItemNameInjective(prefix: string, k: string, h: nat, i: nat)
    requires ItemName(prefix, k, h) == ItemName(prefix, k, i)
    ensures h == i
  {
    var stem := prefix + Capitalize(k);
    assert Itoa(h) == (stem + Itoa(h))[|stem|..];
    assert Itoa(i) == (stem + Itoa(i))[|stem|..];
    ItoaInjective(h, i);
  }

  // ---------------------------------------------------------------------------------------------------
  // Main results
  // ---------------------------------------------------------------------------------------------------

  // Whatever the iteration order, the same names are produced, and every produced value is a leaf of its name.
  lemma SameNames(prefix: string, j: Json, plan: Plan, name: string)
    requires j.Object? && Complete(j, plan)
    ensures name in Produced(prefix, j, plan) <==> exists x :: Leaf(prefix, j, name, x)
    ensures name in Produced(prefix, j, plan) ==> Leaf(prefix, j, name, Produced(prefix, j, plan)[name])
  {
    var t := Writes(prefix, j, plan);
    if x :| Leaf(prefix, j, name, x) {
      WritesLeaves(prefix, j, j.fields.Keys, plan, Binding(name, x));
      WriteNames(t, Binding(name, x));
    }
    if name in Write(map[], t) {
      var b := Binding(name, Write(map[], t)[name]);
      WriteNames(t, b);
      WritesLeaves(prefix, j, j.fields.Keys, plan, b);
      assert Leaf(prefix, j, name, b.value);
    }
  }

  // Without collisions every execution writes the one map of leaves.
  lemma CollisionFreeGivesLeafMap(prefix: string, j: Json, plan: Plan)
    requires j.Object? && Complete(j, plan) && CollisionFree(prefix, j)
    ensures IsLeafMap(prefix, j, Produced(prefix, j, plan))
  {
    forall name, x
      ensures Leaf(prefix, j, name, x) <==>
              name in Produced(prefix, j, plan) && Produced(prefix, j, plan)[name] == x
    {
      SameNames(prefix, j, plan, name);
    }
  }

  lemma LeafMapUnique(prefix: string, j: Json, m: map<string, Json>, n: map<string, Json>)
    requires j.Object? && IsLeafMap(prefix, j, m) && IsLeafMap(prefix, j, n)
    ensures m == n
  {
    forall name
      ensures name in m <==> name in n
      ensures name in m && name in n ==> m[name] == n[name]
    {
      if name in m { assert Leaf(prefix, j, name, m[name]); }
      if name in n { assert Leaf(prefix, j, name, n[name]); }
    }
  }

  // The produced map is independent of every iteration order if and only if leaves that share a name agree.
  lemma Confluence(prefix: string, j: Json)
    requires j.Object?
    ensures OrderIndependent(prefix, j) <==> CollisionFree(prefix, j)
  {
    if CollisionFree(prefix, j) {
      forall p, q | Complete(j, p) && Complete(j, q)
        ensures Produced(prefix, j, p) == Produced(prefix, j, q)
      {
        CollisionFreeGivesLeafMap(prefix, j, p);
        CollisionFreeGivesLeafMap(prefix, j, q);
        LeafMapUnique(prefix, j, Produced(prefix, j, p), Produced(prefix, j, q));
      }
    }
    if OrderIndependent(prefix, j) {
      forall name, x, y | Leaf(prefix, j, name, x) && Leaf(prefix, j, name, y)
        ensures x == y
      {
        var p := LeafCanWin(prefix, j, Binding(name, x));
        var q := LeafCanWin(prefix, j, Binding(name, y));
        LastWriteWins(Writes(prefix, j, p), Binding(name, x));
        LastWriteWins(Writes(prefix, j, q), Binding(name, y));
        assert Produced(prefix, j, p) == Produced(prefix, j, q);
      }
    }
  }

  // Names produced under a prefix carry that prefix.
  lemma {:induction false} LeafNameHasPrefix(prefix: string, j: Json, name: string, x: Json)
    requires j.Object? && Leaf(prefix, j, name, x)
    ensures prefix <= name
    decreases j
  {
    var k :| k in j.fields && EntryLeaf(prefix, k, j.fields[k], name, x);
    if j.fields[k].Object? {
      LeafNameHasPrefix(prefix + k, j.fields[k], name, x);
    }
  }

  // The name of a scalar, byte by byte.
  lemma ScalarName(prefix: string, j: Json, plan: Plan, k: string)
    requires j.Object? && Complete(j, plan) && k in j.fields && j.fields[k].Scalar? && k != ""
    ensures var m, c, rest, v := Produced(prefix, j, plan), k[0], k[1..], j.fields[k];
            && ('a' <= c <= 'z' ==> Produces(prefix, j, m, prefix + ([c - 'a' + 'A'] + rest), v))
            && (c as int < 128 && !('a' <= c <= 'z') ==> Produces(prefix, j, m, prefix + k, v))
            && (c as int >= 128 ==> Produces(prefix, j, m, prefix + (['\U{EF}', '\U{BF}', '\U{BD}'] + rest), v))
  {
    assert k == [k[0]] + k[1..];
    assert EntryLeaf(prefix, k, j.fields[k], prefix + Capitalize(k), j.fields[k]);
    LeafIsProduced(prefix, j, plan, prefix + Capitalize(k), j.fields[k]);
  }

  // The names of the elements of an array: the name a scalar would have, followed by the index.
  lemma ItemNames(prefix: string, j: Json, plan: Plan, k: string, i: nat)
    requires j.Object? && Complete(j, plan) && k in j.fields && j.fields[k].Array? && k != ""
    requires i < |j.fields[k].items|
    ensures var m, c, rest, v := Produced(prefix, j, plan), k[0], k[1..], j.fields[k].items[i];
            && ('a' <= c <= 'z' ==> Produces(prefix, j, m, prefix + ([c - 'a' + 'A'] + rest) + Itoa(i), v))
            && (c as int < 128 && !('a' <= c <= 'z') ==> Produces(prefix, j, m, prefix + k + Itoa(i), v))
            && (c as int >= 128 ==>
                  Produces(prefix, j, m, prefix + (['\U{EF}', '\U{BF}', '\U{BD}'] + rest) + Itoa(i), v))
  {
    assert k == [k[0]] + k[1..];
    assert EntryLeaf(prefix, k, j.fields[k], ItemName(prefix, k, i), j.fields[k].items[i]);
    LeafIsProduced(prefix, j, plan, ItemName(prefix, k, i), j.fields[k].items[i]);
  }

  // The name is produced, with this value unless another leaf of that name took its place.
  ghost predicate Produces(prefix: string, j: Json, m: map<string, Json>, name: string, v: Json)
    requires j.Object?
  {
    name in m && (m[name] == v || !CollisionFree(prefix, j))
  }

  lemma LeafIsProduced(prefix: string, j: Json, plan: Plan, name: string, v: Json)
    requires j.Object? && Complete(j, plan) && Leaf(prefix, j, name, v)
    ensures Produces(prefix, j, Produced(prefix, j, plan), name, v)
  {
    WritesLeaves(prefix, j, j.fields.Keys, plan, Binding(name, v));
    WriteNames(Writes(prefix, j, plan), Binding(name, v));
    SameNames(prefix, j, plan, name);
    var x := Produced(prefix, j, plan)[name];
    if x != v {
      assert Leaf(prefix, j, name, x) && Leaf(prefix, j, name, v);
      assert !CollisionFree(prefix, j);
    }
  }

  // Two keys that differ only in the case of their first letter, or whose first letters are not ASCII and share all
  // bytes but the first, collide, so the produced map is a matter of chance.
  lemma KeyCollision(k: string, l: string, v: Json, u: Json)
    requires k != l && Capitalize(k) == Capitalize(l) && v.Scalar? && u.Scalar? && v != u
    ensures !OrderIndependent("spec", Object(map[k := v, l := u]))
  {
    var j := Object(map[k := v, l := u]);
    var name := "spec" + Capitalize(k);
    assert EntryLeaf("spec", k, j.fields[k], name, v);
    assert EntryLeaf("spec", l, j.fields[l], name, u);
    assert Leaf("spec", j, name, v) && Leaf("spec", j, name, u);
    Confluence("spec", j);
  }

  lemma SameButFirst(c: char, d: char, rest: string)
    requires Upper(c) == Upper(d) || (c as int >= 128 && d as int >= 128)
    ensures Capitalize([c] + rest) == Capitalize([d] + rest)
  {
    assert ([c] + rest)[1..] == rest == ([d] + rest)[1..];
  }

  // Following the keys `ks` through nested objects leads to the object `o`.
  ghost predicate Nested(j: Json, ks: seq<string>, o: Json) {
    j.Object? && if ks == [] then o == j else ks[0] in j.fields && Nested(j.fields[ks[0]], ks[1..], o)
  }

  // What the walk cannot name: an empty key in any object that it reaches.
  lemma {:induction false} NoEmptyKey(j: Json, ks: seq<string>, o: Json)
    requires WellKeyed(j) && Nested(j, ks, o)
    ensures o.Object? && "" !in o.fields
    decreases ks
  {
    if ks == [] {
    } else {
      NoEmptyKey(j.fields[ks[0]], ks[1..], o);
    }
  }

  lemma {:induction false} SomeEmptyKey(j: Json) returns (ks: seq<string>, o: Json)
    requires !WellKeyed(j)
    ensures Nested(j, ks, o) && o.Object? && "" in o.fields
    decreases j
  {
    if "" in j.fields {
      ks, o := [], j;
    } else {
      var k :| k in j.fields && !WellKeyed(j.fields[k]);
      var rest;
      rest, o := SomeEmptyKey(j.fields[k]);
      ks := [k] + rest;
      assert ks[1..] == rest;
    }
  }

  // The array case: one write per element, in index order.
  method FlattenItems(prefix: string, k: string, v: Json, into: map<string, Json>) returns (dst: map<string, Json>)
    requires v.Array?
    ensures dst == Write(into, EntryWrites(prefix, k, v, Stop))
  {
    dst := into;
    ghost var e := EntryWrites(prefix, k, v, Stop);
    for i := 0 to |v.items|
      invariant dst == Write(into, e[..i])
    {
      dst := dst[prefix + Capitalize(k) + Itoa(i) := v.items[i]];
      assert e[..i + 1][..i] == e[..i];
    }
    assert e[..|v.items|] == e;
  }

  // Visiting one more key.
  lemma VisitNext(prefix: string, src: Json, into: map<string, Json>, todo: set<string>, plan: Plan, k: string,
                  inner: Plan)
    requires src.Object? && todo <= src.fields.Keys && k in todo && Covers(src, src.fields.Keys - todo, plan)
    requires src.fields[k].Object? ==> Complete(src.fields[k], inner)
    ensures Covers(src, src.fields.Keys - (todo - {k}), VisitLast(plan, k, inner))
    ensures Write(into, Writes(prefix, src, VisitLast(plan, k, inner)))
            == Write(Write(into, Writes(prefix, src, plan)), EntryWrites(prefix, k, src.fields[k], inner))
  {
    WriteConcat(into, Writes(prefix, src, plan), EntryWrites(prefix, k, src.fields[k], inner));
    VisitLastCovers(prefix, src, src.fields.Keys - todo, plan, k, inner);
    assert src.fields.Keys - todo + {k} == src.fields.Keys - (todo - {k});
  }

  // `dst` is what some execution leaves in a map that held `into`.
  ghost predicate Walked(prefix: string, src: Json, into: map<string, Json>, dst: map<string, Json>)
    requires src.Object?
  {
    exists plan :: Complete(src, plan) && dst == Write(into, Writes(prefix, src, plan))
  }

  /** The walk itself. The destination map is threaded through the recursion; `plan` records the order taken. */
  method FlattenMap(prefix: string, src: Json, into: map<string, Json>) returns (dst: map<string, Json>)
    requires src.Object? && WellKeyed(src)
    ensures Walked(prefix, src, into, dst)
    decreases src
  {
    dst := into;
    ghost var plan := Stop;
    var todo := src.fields.Keys;
    while todo != {}
      invariant todo <= src.fields.Keys
      invariant Covers(src, src.fields.Keys - todo, plan)
      invariant dst == Write(into, Writes(prefix, src, plan))
      decreases todo
    {
      var k :| k in todo;
      var v := src.fields[k];
      ghost var inner, before := Stop, dst;
      match v {
        case Object(_) =>
          dst := FlattenMap(prefix + k, v, dst);
          inner :| Complete(v, inner) && dst == Write(before, Writes(prefix + k, v, inner));
        case Array(items) =>
          dst := FlattenItems(prefix, k, v, dst);
        case Scalar(_) =>
          dst := dst[prefix + Capitalize(k) := v];
      }
      VisitNext(prefix, src, into, todo, plan, k, inner);
      plan, todo := VisitLast(plan, k, inner), todo - {k};
    }
    assert src.fields.Keys - {} == src.fields.Keys;
  }
}
