/**
 * On flat artifact specs the parameter names lose nothing: an inverse of `flattenMap` recovers every scalar and
 * every array, element by element, from the produced map alone.
 */
module RoundTrip {
  import opened Decimal
  import opened Flatten

  // Digit-free keys with a lower-case initial.
  ghost predicate PlainKey(k: string) {
    && k != ""
    && 'a' <= k[0] <= 'z'
    && forall i :: 0 <= i < |k| ==> !IsDigit(k[i])
  }

  // No nested objects, no empty arrays.
  ghost predicate FlatSpec(j: Json) {
    && j.Object?
    && forall k :: k in j.fields ==>
        PlainKey(k) && (j.fields[k].Scalar? || (j.fields[k].Array? && j.fields[k].items != []))
  }

  // ---------------------------------------------------------------------------------------------------
  // The inverse
  // ---------------------------------------------------------------------------------------------------

  function DropDigits(s: string): string {
    if s != "" && IsDigit(s[|s| - 1]) then DropDigits(s[..|s| - 1]) else s
  }

  function Uncapitalize(s: string): string {
    if s != "" && 'A' <= s[0] <= 'Z' then [s[0] - 'A' + 'a'] + s[1..] else s
  }

  // The key a parameter name came from: cut the "spec" prefix and the index, undo the capital.
  function KeyOf(name: string): string {
    var stem := DropDigits(name);
    if |stem| < 4 then "" else Uncapitalize(stem[4..])
  }

  function Items(m: map<string, Json>, stem: string, i: nat): seq<Json>
    decreases |m|
  {
    var name := stem + Itoa(i);
    if name in m then
      assert |m.Keys - {name}| < |m.Keys|;
      assert (m - {name}).Keys == m.Keys - {name};
      [m[name]] + Items(m - {name}, stem, i + 1)
    else []
  }

  function Rebuild(m: map<string, Json>, k: string): Json {
    var stem := "spec" + Capitalize(k);
    if stem in m then m[stem] else Array(Items(m, stem, 0))
  }

  function Unflatten(m: map<string, Json>): map<string, Json> {
    map k | k in (set name | name in m :: KeyOf(name)) :: Rebuild(m, k)
  }

  // ---------------------------------------------------------------------------------------------------
  // Names determine keys
  // ---------------------------------------------------------------------------------------------------

  lemma {:induction false} DropDigitsSuffix(s: string, d: string)
    requires forall i :: 0 <= i < |d| ==> IsDigit(d[i])
    ensures DropDigits(s + d) == DropDigits(s)
    decreases |d|
  {
    if d == "" {
      assert s + d == s;
    } else {
      assert (s + d)[|s + d| - 1] == d[|d| - 1];
      assert (s + d)[..|s + d| - 1] == s + d[..|d| - 1];
      DropDigitsSuffix(s, d[..|d| - 1]);
    }
  }

  lemma PlainCapital(k: string)
    requires PlainKey(k)
    ensures var c := Capitalize(k); c != "" && !IsDigit(c[|c| - 1]) && Uncapitalize(c) == k
  {
    var c := Capitalize(k);
    assert c[0] == k[0] - 'a' + 'A' && c[1..] == k[1..];
    assert |k| > 1 ==> c[|c| - 1] == k[|k| - 1];
    assert k == [k[0]] + k[1..];
  }

  lemma KeyOfName(k: string, d: string)
    requires PlainKey(k) && forall i :: 0 <= i < |d| ==> IsDigit(d[i])
    ensures KeyOf("spec" + Capitalize(k) + d) == k
  {
    var stem := "spec" + Capitalize(k);
    DropDigitsSuffix(stem, d);
    PlainCapital(k);
    assert stem[|stem| - 1] == Capitalize(k)[|Capitalize(k)| - 1];
    assert stem[4..] == Capitalize(k);
  }

  // A name comes from one key only, and is a plain name or an indexed one according to that key's value.
  lemma LeafOrigin(j: Json, name: string, x: Json)
    requires FlatSpec(j) && Leaf("spec", j, name, x)
    ensures KeyOf(name) in j.fields
    ensures EntryLeaf("spec", KeyOf(name), j.fields[KeyOf(name)], name, x)
  {
    var k :| k in j.fields && EntryLeaf("spec", k, j.fields[k], name, x);
    if j.fields[k].Array? {
      var i: nat :| i < |j.fields[k].items| && name == ItemName("spec", k, i) && x == j.fields[k].items[i];
      KeyOfName(k, Itoa(i));
    } else {
      KeyOfName(k, "");
      assert "spec" + Capitalize(k) + "" == name;
    }
  }

  lemma FlatSpecCollisionFree(j: Json)
    requires FlatSpec(j)
    ensures CollisionFree("spec", j)
  {
    forall name, x, y | Leaf("spec", j, name, x) && Leaf("spec", j, name, y)
      ensures x == y
    {
      LeafOrigin(j, name, x);
      LeafOrigin(j, name, y);
      var k := KeyOf(name);
      if j.fields[k].Array? {
        var h: nat :| h < |j.fields[k].items| && name == ItemName("spec", k, h) && x == j.fields[k].items[h];
        var i: nat :| i < |j.fields[k].items| && name == ItemName("spec", k, i) && y == j.fields[k].items[i];
        ItemNameInjective("spec", k, h, i);
      }
    }
  }

  // ---------------------------------------------------------------------------------------------------
  // Recovery
  // ---------------------------------------------------------------------------------------------------

  lemma {:induction false} ItemsRecovered(m: map<string, Json>, k: string, items: seq<Json>, i: nat)
    requires i <= |items|
    requires forall h: nat :: i <= h ==> (ItemName("spec", k, h) in m <==> h < |items|)
    requires forall h: nat :: i <= h < |items| ==> m[ItemName("spec", k, h)] == items[h]
    ensures Items(m, "spec" + Capitalize(k), i) == items[i..]
    decreases |items| - i
  {
    var name := ItemName("spec", k, i);
    if i == |items| {
    } else {
      forall h: nat | i + 1 <= h
        ensures ItemName("spec", k, h) != name
      {
        if ItemName("spec", k, h) == name { ItemNameInjective("spec", k, h, i); }
      }
      ItemsRecovered(m - {name}, k, items, i + 1);
    }
  }

  lemma ScalarRecovered(j: Json, m: map<string, Json>, k: string)
    requires FlatSpec(j) && IsLeafMap("spec", j, m) && k in j.fields && j.fields[k].Scalar?
    ensures Rebuild(m, k) == j.fields[k]
    ensures exists name :: name in m && KeyOf(name) == k
  {
    var name := "spec" + Capitalize(k);
    assert EntryLeaf("spec", k, j.fields[k], name, j.fields[k]);
    assert Leaf("spec", j, name, j.fields[k]);
    LeafOrigin(j, name, j.fields[k]);
    KeyOfName(k, "");
    assert name + "" == name;
  }

  lemma ArrayRecovered(j: Json, m: map<string, Json>, k: string)
    requires FlatSpec(j) && IsLeafMap("spec", j, m) && k in j.fields && j.fields[k].Array?
    ensures Rebuild(m, k) == j.fields[k]
    ensures exists name :: name in m && KeyOf(name) == k
  {
    var items := j.fields[k].items;
    forall h: nat
      ensures ItemName("spec", k, h) in m <==> h < |items|
      ensures h < |items| ==> m[ItemName("spec", k, h)] == items[h]
      ensures KeyOf(ItemName("spec", k, h)) == k
    {
      var name := ItemName("spec", k, h);
      KeyOfName(k, Itoa(h));
      if h < |items| {
        assert EntryLeaf("spec", k, j.fields[k], name, items[h]);
        assert Leaf("spec", j, name, items[h]);
      }
      if name in m {
        assert Leaf("spec", j, name, m[name]);
        LeafOrigin(j, name, m[name]);
        var i: nat :| i < |items| && name == ItemName("spec", k, i);
        ItemNameInjective("spec", k, h, i);
      }
    }
    var stem := "spec" + Capitalize(k);
    KeyOfName(k, "");
    assert stem + "" == stem;
    assert forall i: nat :: |stem| < |ItemName("spec", k, i)|;
    assert forall x :: !EntryLeaf("spec", k, j.fields[k], stem, x);
    if stem in m {
      LeafOrigin(j, stem, m[stem]);
      assert false;
    }
    ItemsRecovered(m, k, items, 0);
    assert ItemName("spec", k, 0) in m;
  }

  // Flattening a flat spec, in whatever order, can be undone.
  lemma FlattenRoundTrip(j: Json, plan: Plan)
    requires FlatSpec(j) && Complete(j, plan)
    ensures Unflatten(Produced("spec", j, plan)) == j.fields
  {
    var m := Produced("spec", j, plan);
    FlatSpecCollisionFree(j);
    CollisionFreeGivesLeafMap("spec", j, plan);
    var u := Unflatten(m);
    forall k | k in j.fields
      ensures k in u && u[k] == j.fields[k]
    {
      if j.fields[k].Array? { ArrayRecovered(j, m, k); } else { ScalarRecovered(j, m, k); }
    }
    forall k | k in u
      ensures k in j.fields
    {
      var name :| name in m && KeyOf(name) == k;
      assert Leaf("spec", j, name, m[name]);
      LeafOrigin(j, name, m[name]);
    }
  }

  // So two flat specs with the same parameters are the same spec.
  lemma FlattenInjective(i: Json, p: Plan, j: Json, q: Plan)
    requires FlatSpec(i) && Complete(i, p) && FlatSpec(j) && Complete(j, q)
    requires Produced("spec", i, p) == Produced("spec", j, q)
    ensures i == j
  {
    FlattenRoundTrip(i, p);
    FlattenRoundTrip(j, q);
  }
}
