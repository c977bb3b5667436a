/**
 What the persisted registries share: exporting the active objects in order, and collapsing a list to the
 first spec of each key, which is what restoring does with duplicates.
 */
module FirstPerKey {
  import opened Common

  function Keys<S, K>(specs: seq<S>, key: S -> K): set<K>
  {
    set i | 0 <= i < |specs| :: key(specs[i])
  }

  function Firsts<S, K(==)>(specs: seq<S>, key: S -> K): seq<S>
  {
    if specs == [] then [] else
    var before, x := specs[..|specs| - 1], specs[|specs| - 1];
    var kept := Firsts(before, key);
    if key(x) in Keys(before, key) then kept else kept + [x]
  }

  /** The element-wise image of a list. */
  function Mapped<S, T>(specs: seq<S>, f: S -> T): (r: seq<T>)
    ensures |r| == |specs| && forall i :: 0 <= i < |r| ==> r[i] == f(specs[i])
  {
    seq(|specs|, i requires 0 <= i < |specs| => f(specs[i]))
  }

  lemma NoKeys<S, K>(key: S -> K)
    ensures Keys([], key) == {}
  {
  }

  lemma KeysSnoc<S, K>(specs: seq<S>, x: S, key: S -> K)
    ensures Keys(specs + [x], key) == Keys(specs, key) + {key(x)}
  {
    var all, some := Keys(specs + [x], key), Keys(specs, key);
    forall k | k in all ensures k in some + {key(x)} {
      var i :| 0 <= i < |specs + [x]| && k == key((specs + [x])[i]);
      if i < |specs| { assert k == key(specs[i]); }
    }
    forall k | k in some + {key(x)} ensures k in all {
      if k == key(x) {
        assert (specs + [x])[|specs|] == x;
      } else {
        var i :| 0 <= i < |specs| && k == key(specs[i]);
        assert k == key((specs + [x])[i]);
      }
    }
  }

  lemma FirstsSnoc<S, K>(specs: seq<S>, x: S, key: S -> K)
    ensures Firsts(specs + [x], key) ==
      if key(x) in Keys(specs, key) then Firsts(specs, key) else Firsts(specs, key) + [x]
  {
    assert (specs + [x])[..|specs|] == specs;
  }

  /** Every key keeps a spec. */
  lemma {:induction false} FirstsKeepKeys<S, K>(specs: seq<S>, key: S -> K)
    ensures Keys(Firsts(specs, key), key) == Keys(specs, key)
  {
    hide Keys;
    if specs == [] {
      assert Firsts(specs, key) == specs;
    } else {
      var before, x := specs[..|specs| - 1], specs[|specs| - 1];
      FirstsKeepKeys(before, key);
      assert specs == before + [x];
      KeysSnoc(before, x, key);
      KeysSnoc(Firsts(before, key), x, key);
    }
  }

  ghost predicate DistinctKeys<S, K(!new)>(specs: seq<S>, key: S -> K)
  {
    forall i, j :: 0 <= i < j < |specs| ==> key(specs[i]) != key(specs[j])
  }

  /** No key keeps two. */
  lemma {:induction false} FirstsAreDistinct<S, K(!new)>(specs: seq<S>, key: S -> K)
    ensures DistinctKeys(Firsts(specs, key), key)
  {
    if specs != [] {
      var before, x := specs[..|specs| - 1], specs[|specs| - 1];
      FirstsAreDistinct(before, key);
      FirstsKeepKeys(before, key);
      var kept := Firsts(before, key);
      if key(x) !in Keys(before, key) {
        forall i | 0 <= i < |kept| ensures key(kept[i]) != key(x) {
          assert key(kept[i]) in Keys(kept, key);
        }
      }
    }
  }

  /** The one that is kept is the earliest of its key. */
  lemma {:induction false} FirstsAreEarliest<S, K>(specs: seq<S>, key: S -> K, k: nat) returns (i: nat)
    requires k < |Firsts(specs, key)|
    ensures i < |specs| && Firsts(specs, key)[k] == specs[i] && key(specs[i]) !in Keys(specs[..i], key)
  {
    var before := specs[..|specs| - 1];
    if k < |Firsts(before, key)| {
      i := FirstsAreEarliest(before, key, k);
      assert before[..i] == specs[..i];
    } else {
      i := |specs| - 1;
    }
  }

  lemma FirstsAreSome<S, K>(specs: seq<S>, key: S -> K, k: nat)
    requires k < |Firsts(specs, key)|
    ensures Firsts(specs, key)[k] in specs
  {
    var i := FirstsAreEarliest(specs, key, k);
  }

  lemma {:induction false} DistinctStay<S, K(!new)>(specs: seq<S>, key: S -> K)
    requires DistinctKeys(specs, key)
    ensures Firsts(specs, key) == specs
  {
    if specs != [] {
      var before, x := specs[..|specs| - 1], specs[|specs| - 1];
      DistinctStay(before, key);
      assert key(x) !in Keys(before, key);
      assert before + [x] == specs;
    }
  }

  /** Collapsing twice is collapsing once. */
  lemma FirstsIdempotent<S, K(!new)>(specs: seq<S>, key: S -> K)
    ensures Firsts(Firsts(specs, key), key) == Firsts(specs, key)
  {
    FirstsAreDistinct(specs, key);
    DistinctStay(Firsts(specs, key), key);
  }

  lemma {:induction false} FirstsAreShorter<S, K>(specs: seq<S>, key: S -> K)
    ensures |Firsts(specs, key)| <= |specs|
  {
    if specs != [] { FirstsAreShorter(specs[..|specs| - 1], key); }
  }

  lemma NewestSpecs<S, T>(specs: seq<S>, f: S -> T, m: nat, out: seq<T>)
    requires |out| == if |specs| <= m then |specs| else m
    requires forall k :: 0 <= k < |out| ==> out[k] == f(specs[|specs| - |out| + k])
    ensures out == LastN(Mapped(specs, f), m)
  {
    hide Mapped;
    assert out == LastN(Mapped(specs, f), m);
  }

  lemma SameMembers(a: seq<string>, b: seq<string>)
    ensures (set x | x in a) == (set x | x in b) <==> forall x :: x in a <==> x in b
  {
    var s, t := set x | x in a, set x | x in b;
    assert forall x :: x in s <==> x in a;
    assert forall x :: x in t <==> x in b;
    if forall x :: x in a <==> x in b { assert s == t; }
  }

  lemma FirstOfTwoWins<S, K>(x: S, y: S, key: S -> K)
    requires key(x) == key(y)
    ensures Firsts([x, y], key) == [x]
  {
    hide Keys;
    NoKeys(key);
    KeysSnoc([], x, key);
    FirstsSnoc([], x, key);
    FirstsSnoc([x], y, key);
    assert [] + [x] == [x] && [x] + [y] == [x, y];
  }

  // ---------- Exporting ----------

  /** The specs of the active objects among `ids`, in that order. */
  function ActiveSpecs<A, S>(objects: map<nat, A>, ids: seq<nat>, active: A -> bool, specOf: A -> S): (out: seq<S>)
    ensures |out| <= |ids|
  {
    if ids == [] then [] else
    var before, id := ActiveSpecs(objects, ids[..|ids| - 1], active, specOf), ids[|ids| - 1];
    if id in objects && active(objects[id]) then before + [specOf(objects[id])] else before
  }

  /** Exporting goes id by id, and exports an object if and only if it is known and active. */
  lemma {:induction false} ExportGoesInOrder<A, S>(objects: map<nat, A>, a: seq<nat>, b: seq<nat>, active: A -> bool,
                                                  specOf: A -> S)
    ensures ActiveSpecs(objects, a + b, active, specOf) ==
      ActiveSpecs(objects, a, active, specOf) + ActiveSpecs(objects, b, active, specOf)
  {
    if b == [] {
      assert a + b == a;
    } else {
      assert (a + b)[..|a + b| - 1] == a + b[..|b| - 1];
      ExportGoesInOrder(objects, a, b[..|b| - 1], active, specOf);
    }
  }

  lemma ExportOfOne<A, S>(objects: map<nat, A>, id: nat, active: A -> bool, specOf: A -> S)
    ensures ActiveSpecs(objects, [id], active, specOf) ==
      if id in objects && active(objects[id]) then [specOf(objects[id])] else []
  {
    assert [id][..0] == [];
  }

  lemma {:induction false} ExportedIff<A, S>(objects: map<nat, A>, ids: seq<nat>, active: A -> bool,
                                             specOf: A -> S, x: S)
    ensures x in ActiveSpecs(objects, ids, active, specOf) <==>
      exists id :: id in ids && id in objects && active(objects[id]) && specOf(objects[id]) == x
  {
    if ids != [] {
      var before, last := ids[..|ids| - 1], ids[|ids| - 1];
      ExportedIff(objects, before, active, specOf, x);
      assert ids == before + [last];
    }
  }

  /** If all are active, all are exported. */
  lemma {:induction false} AllAreExported<A, S>(objects: map<nat, A>, ids: seq<nat>, active: A -> bool, specOf: A -> S)
    requires forall id :: id in ids ==> id in objects && active(objects[id])
    ensures var out := ActiveSpecs(objects, ids, active, specOf);
      |out| == |ids| && forall k :: 0 <= k < |ids| ==> out[k] == specOf(objects[ids[k]])
  {
    if ids != [] { AllAreExported(objects, ids[..|ids| - 1], active, specOf); }
  }

  /** What holds of every object's spec holds of every exported one. */
  lemma {:induction false} ExportedAreGood<A, S>(objects: map<nat, A>, ids: seq<nat>, active: A -> bool, specOf: A -> S,
                                                 good: S -> bool)
    requires forall id :: id in objects ==> good(specOf(objects[id]))
    ensures forall spec :: spec in ActiveSpecs(objects, ids, active, specOf) ==> good(spec)
  {
    if ids != [] {
      ExportedAreGood(objects, ids[..|ids| - 1], active, specOf, good);
    }
  }
}
