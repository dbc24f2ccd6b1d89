/** Attribute storage of a Python object: `setattr` into its `__dict__`. */
module Attributes {
  import opened Values

  type Dict = map<string, Value>

  /** One `setattr(target, name, value)` call, by its name and value. */
  type Pair = (string, Value)

  /** The names that a sequence of assignments sets. */
  function Names(pairs: seq<Pair>): set<string>
    decreases |pairs|
  {
    if pairs == [] then {} else Names(pairs[..|pairs| - 1]) + {pairs[|pairs| - 1].0}
  }

  /** The attribute dictionary after `setattr` of every pair, in order. */
  function Assign(d: Dict, pairs: seq<Pair>): (r: Dict)
    ensures r.Keys == d.Keys + Names(pairs)
    decreases |pairs|
  {
    if pairs == [] then d
    else
      var last := pairs[|pairs| - 1];
      Assign(d, pairs[..|pairs| - 1])[last.0 := last.1]
  }

  /** A name is set exactly when some pair carries it. */
  lemma {:induction false} NamesMembership(pairs: seq<Pair>, k: string)
    ensures k in Names(pairs) <==> exists i :: 0 <= i < |pairs| && pairs[i].0 == k
    decreases |pairs|
  {
    if pairs != [] {
      var p := pairs[..|pairs| - 1];
      NamesMembership(p, k);
      if k in Names(p) {
        var i :| 0 <= i < |p| && p[i].0 == k;
        assert pairs[i].0 == k;
      }
      if exists i :: 0 <= i < |pairs| && pairs[i].0 == k {
        var i :| 0 <= i < |pairs| && pairs[i].0 == k;
        if i < |p| {
          assert p[i].0 == k;
        }
      }
    }
  }

  /** The last pair with a given name decides its value: the last write wins. */
  lemma {:induction false} AssignLastWins(d: Dict, pairs: seq<Pair>, i: nat)
    requires i < |pairs|
    requires forall j :: i < j < |pairs| ==> pairs[j].0 != pairs[i].0
    ensures pairs[i].0 in Assign(d, pairs) && Assign(d, pairs)[pairs[i].0] == pairs[i].1
    decreases |pairs|
  {
    if i < |pairs| - 1 {
      var p := pairs[..|pairs| - 1];
      assert p[i] == pairs[i];
      forall j | i < j < |p| ensures p[j].0 != p[i].0 {
        assert p[j] == pairs[j];
      }
      AssignLastWins(d, p, i);
    }
  }

  /** A name that no pair carries keeps its previous value, or stays absent: loading merges. */
  lemma {:induction false} AssignKeepsOthers(d: Dict, pairs: seq<Pair>, k: string)
    requires forall j :: 0 <= j < |pairs| ==> pairs[j].0 != k
    ensures k in Assign(d, pairs) <==> k in d
    ensures k in d ==> Assign(d, pairs)[k] == d[k]
    decreases |pairs|
  {
    if pairs != [] {
      var p := pairs[..|pairs| - 1];
      forall j | 0 <= j < |p| ensures p[j].0 != k {
        assert p[j] == pairs[j];
      }
      AssignKeepsOthers(d, p, k);
    }
  }

  /** Two loads one after the other are one load of both sequences: the later load wins. */
  lemma {:induction false} AssignConcat(d: Dict, p: seq<Pair>, q: seq<Pair>)
    ensures Assign(d, p + q) == Assign(Assign(d, p), q)
    decreases |q|
  {
    if q == [] {
      assert p + q == p;
    } else {
      var q' := q[..|q| - 1];
      assert (p + q)[..|p + q| - 1] == p + q';
      AssignConcat(d, p, q');
    }
  }

  /** A Python object as far as its attributes go: its `__dict__`. */
  class Namespace {
    var dict: Dict

    /** A new object with no attributes. */
    constructor ()
      ensures dict == map[]
    {
      dict := map[];
    }
  }
}
