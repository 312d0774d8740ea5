/** Revision graphs and the ancestor relation on them. */
module Dag {
  import opened Core

  type Graph = map<RevisionId, Revision>

  /** Every revision is filed under its own id. */
  ghost predicate Keyed(g: Graph) {
    forall r :: r in g ==> g[r].id == r
  }

  /** Every parent is present and belongs to the same object. */
  ghost predicate Closed(g: Graph) {
    forall r, p :: r in g && p in g[r].Parents() ==> p in g && g[p].objectId == g[r].objectId
  }

  /** `g'` keeps everything `g` has. */
  ghost predicate Sub(g: Graph, g': Graph) {
    forall r :: r in g ==> r in g' && g'[r] == g[r]
  }

  /** Each entry is a parent of the next one. */
  ghost predicate IsChain(g: Graph, chain: seq<RevisionId>) {
    && chain != []
    && forall i :: 0 < i < |chain| ==> chain[i] in g && chain[i - 1] in g[chain[i]].Parents()
  }

  ghost predicate Links(g: Graph, chain: seq<RevisionId>, a: RevisionId, b: RevisionId) {
    IsChain(g, chain) && chain[0] == a && chain[|chain| - 1] == b
  }

  /** Ancestor-or-equal: the reflexive transitive closure of "is a parent of". */
  ghost predicate Ancestor(g: Graph, a: RevisionId, b: RevisionId) {
    exists chain :: Links(g, chain, a, b)
  }

  ghost predicate Covered(g: Graph, r: RevisionId, heads: set<RevisionId>) {
    exists h :: h in heads && Ancestor(g, r, h)
  }

  lemma AncestorRefl(g: Graph, a: RevisionId)
    ensures Ancestor(g, a, a)
  {
    assert Links(g, [a], a, a);
  }

  lemma ParentIsAncestor(g: Graph, a: RevisionId, b: RevisionId)
    requires b in g && a in g[b].Parents()
    ensures Ancestor(g, a, b)
  {
    assert Links(g, [a, b], a, b);
  }

  lemma AncestorTrans(g: Graph, a: RevisionId, b: RevisionId, c: RevisionId)
    requires Ancestor(g, a, b) && Ancestor(g, b, c)
    ensures Ancestor(g, a, c)
  {
    var up :| Links(g, up, a, b);
    var on :| Links(g, on, b, c);
    var chain := up + on[1..];
    forall i | 0 < i < |chain|
      ensures chain[i] in g && chain[i - 1] in g[chain[i]].Parents()
    {
      if i >= |up| {
        assert chain[i] == on[i - |up| + 1] && chain[i - 1] == on[i - |up|];
      }
    }
    assert Links(g, chain, a, c);
  }

  lemma AncestorStep(g: Graph, a: RevisionId, b: RevisionId, c: RevisionId)
    requires Ancestor(g, a, b) && c in g && b in g[c].Parents()
    ensures Ancestor(g, a, c)
  {
    ParentIsAncestor(g, b, c);
    AncestorTrans(g, a, b, c);
  }

  lemma AncestorMono(g: Graph, g': Graph, a: RevisionId, b: RevisionId)
    requires Sub(g, g') && Ancestor(g, a, b)
    ensures Ancestor(g', a, b)
  {
    var chain :| Links(g, chain, a, b);
    assert Links(g', chain, a, b);
  }

  lemma CoveredMono(g: Graph, g': Graph, r: RevisionId, heads: set<RevisionId>)
    requires Sub(g, g') && Covered(g, r, heads)
    ensures Covered(g', r, heads)
  {
    var h :| h in heads && Ancestor(g, r, h);
    AncestorMono(g, g', r, h);
  }

  /** Moving every head forward keeps whatever was covered covered. */
  lemma CoveredAdvance(g: Graph, r: RevisionId, heads: set<RevisionId>, heads': set<RevisionId>)
    requires Covered(g, r, heads)
    requires forall h :: h in heads ==> Covered(g, h, heads')
    ensures Covered(g, r, heads')
  {
    var h :| h in heads && Ancestor(g, r, h);
    var h' :| h' in heads' && Ancestor(g, h, h');
    AncestorTrans(g, r, h, h');
  }

  /** A proper ancestor is named as a parent by some revision of the graph. */
  lemma ProperAncestorIsNamed(g: Graph, a: RevisionId, b: RevisionId)
    requires Ancestor(g, a, b) && a != b
    ensures exists c :: c in g && a in g[c].Parents()
  {
    var chain :| Links(g, chain, a, b);
    assert chain[1] in g && chain[0] in g[chain[1]].Parents();
  }

  lemma {:induction false} ChainSameObject(g: Graph, chain: seq<RevisionId>)
    requires Closed(g) && IsChain(g, chain) && chain[|chain| - 1] in g
    ensures chain[0] in g && g[chain[0]].objectId == g[chain[|chain| - 1]].objectId
  {
    if |chain| > 1 {
      ChainSameObject(g, chain[1..]);
      assert chain[0] in g[chain[1]].Parents();
    }
  }

  /** Ancestors belong to the same object. */
  lemma AncestorSameObject(g: Graph, a: RevisionId, b: RevisionId)
    requires Closed(g) && b in g && Ancestor(g, a, b)
    ensures a in g && g[a].objectId == g[b].objectId
  {
    var chain :| Links(g, chain, a, b);
    ChainSameObject(g, chain);
  }

  lemma ChainCons(g: Graph, a: RevisionId, rest: seq<RevisionId>)
    requires IsChain(g, rest) && rest[0] in g && a in g[rest[0]].Parents()
    ensures IsChain(g, [a] + rest)
  {}

  /** Below a revision of `g`, a larger graph has no ancestors that `g` does not show. */
  lemma {:induction false} ChainStaysInside(g: Graph, g': Graph, chain: seq<RevisionId>)
    requires Closed(g) && Sub(g, g') && IsChain(g', chain) && chain[|chain| - 1] in g
    ensures chain[0] in g && IsChain(g, chain)
  {
    if |chain| > 1 {
      ChainStaysInside(g, g', chain[1..]);
      assert chain[0] in g'[chain[1]].Parents();
      ChainCons(g, chain[0], chain[1..]);
      assert chain == [chain[0]] + chain[1..];
    }
  }

  lemma AncestorInside(g: Graph, g': Graph, a: RevisionId, b: RevisionId)
    requires Closed(g) && Sub(g, g') && b in g
    ensures Ancestor(g', a, b) <==> Ancestor(g, a, b)
  {
    if Ancestor(g', a, b) {
      var chain :| Links(g', chain, a, b);
      ChainStaysInside(g, g', chain);
      assert Links(g, chain, a, b);
    }
    if Ancestor(g, a, b) {
      AncestorMono(g, g', a, b);
    }
  }
}
