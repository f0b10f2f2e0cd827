/** The disjoint-set forest of mergeSessions: a parent slice rewritten in place, path halving in find, and no
    balancing in union. */
module UnionFind {
  /** The partition after the class of `gone` was absorbed by the class of `kept`. */
  function Absorb(rep: seq<nat>, kept: nat, gone: nat): (r: seq<nat>)
    ensures |r| == |rep|
  {
    seq(|rep|, k requires 0 <= k < |rep| => if rep[k] == gone then kept else rep[k])
  }

  /** Element `i` of a forest: its parent and root are elements, they agree on the root, a root is its own parent,
      and the rank grows from it to its parent, which is why following parents ends. */
  predicate Good(p: seq<nat>, rep: seq<nat>, rank: seq<nat>, top: nat, i: nat)
    requires |p| == |rep| == |rank| && i < |p|
  {
    && p[i] < |p| && rep[i] < |p| && rank[i] <= top
    && p[rep[i]] == rep[i] && rep[rep[i]] == rep[i]
    && rep[p[i]] == rep[i]
    && (if p[i] == i then rep[i] == i else rank[i] < rank[p[i]])
  }

  ghost predicate IsForest(p: seq<nat>, rep: seq<nat>, rank: seq<nat>, top: nat) {
    |p| == |rep| == |rank| && forall i: nat :: i < |p| ==> Good(p, rep, rank, top, i)
  }

  lemma HalvingKeepsForest(p: seq<nat>, rep: seq<nat>, rank: seq<nat>, top: nat, i: nat)
    requires IsForest(p, rep, rank, top) && i < |p| && p[i] != i
    ensures Good(p, rep, rank, top, i)
    ensures IsForest(p[i := p[p[i]]], rep, rank, top)
    ensures p[p[i]] < |p| && rank[i] < rank[p[p[i]]]
  {
    assert Good(p, rep, rank, top, i);
    assert Good(p, rep, rank, top, p[i]);
    var q := p[i := p[p[i]]];
    forall j: nat | j < |p| ensures Good(q, rep, rank, top, j) {
      assert Good(p, rep, rank, top, j);
    }
  }

  lemma LinkingKeepsForest(p: seq<nat>, rep: seq<nat>, rank: seq<nat>, top: nat, ra: nat, rb: nat)
    requires IsForest(p, rep, rank, top) && ra < |p| && rb < |p| && ra != rb && p[ra] == ra && p[rb] == rb
    ensures var higher := if rank[ra] <= rank[rb] then rank[ra := rank[rb] + 1] else rank;
            IsForest(p[rb := ra], Absorb(rep, ra, rb), higher, top + 1)
  {
    var higher := if rank[ra] <= rank[rb] then rank[ra := rank[rb] + 1] else rank;
    assert Good(p, rep, rank, top, ra) && Good(p, rep, rank, top, rb);
    var q, absorbed, above := p[rb := ra], Absorb(rep, ra, rb), top + 1;
    forall j: nat | j < |p| ensures Good(q, absorbed, higher, above, j) {
      assert Good(p, rep, rank, top, j);
    }
  }

  class Forest {
    const parent: array<nat>
    /** The root of each element's tree. */
    ghost var rep: seq<nat>
    ghost var rank: seq<nat>
    ghost var top: nat

    ghost predicate Valid()
      reads this, parent
    {
      IsForest(parent[..], rep, rank, top)
    }

    constructor (n: nat)
      ensures Valid() && fresh(parent) && parent.Length == n
      ensures rep == seq(n, i => i)
    {
      parent := new nat[n](i => i);
      rep := seq(n, i => i);
      rank := seq(n, i => 0);
      top := 0;
    }

    /** Returns the root of `i`; the path is halved on the way and the partition is untouched. */
    method Find(i: nat) returns (r: nat)
      requires Valid() && i < parent.Length
      modifies parent
      ensures Valid()
      ensures r == rep[i] && r < parent.Length && parent[r] == r
    {
      r := i;
      while parent[r] != r
        invariant Valid() && r < parent.Length && rep[r] == rep[i]
        decreases top - rank[r]
      {
        ghost var p := parent[..];
        HalvingKeepsForest(p, rep, rank, top, r);
        assert Good(p, rep, rank, top, p[r]) && Good(p, rep, rank, top, p[p[r]]);
        parent[r] := parent[parent[r]];
        assert parent[..] == p[r := p[p[r]]];
        r := parent[r];
      }
      assert Good(parent[..], rep, rank, top, r);
    }

    /** Joins the classes of `a` and `b`; the root of `a` stays. */
    method Union(a: nat, b: nat)
      requires Valid() && a < parent.Length && b < parent.Length
      modifies this, parent
      ensures Valid()
      ensures rep == Absorb(old(rep), old(rep)[a], old(rep)[b])
    {
      var ra := Find(a);
      var rb := Find(b);
      if ra != rb {
        ghost var p := parent[..];
        assert Good(p, rep, rank, top, a);
        LinkingKeepsForest(p, rep, rank, top, ra, rb);
        parent[rb] := ra;
        assert parent[..] == p[rb := ra];
        rank := if rank[ra] <= rank[rb] then rank[ra := rank[rb] + 1] else rank;
        top := top + 1;
        rep := Absorb(rep, ra, rb);
      } else {
        assert rep == Absorb(rep, ra, rb);
      }
    }
  }
}
