/**
  The server's `object_heads` table.  It is maintained incrementally, one inserted revision
  at a time; this module shows that it always is the frontier of the stored graph.
 */
module HeadIndex {
  import opened Core
  import opened Dag

  type HeadTable = set<(ObjectId, RevisionId)>

  /** Delete the parents' rows of this object, then insert the new row. */
  function UpdateHeads(heads: HeadTable, objectId: ObjectId, parents: seq<RevisionId>, id: RevisionId): HeadTable {
    (set h | h in heads && !(h.0 == objectId && h.1 in parents)) + {(objectId, id)}
  }

  /** Some revision of `g` names `r` as a parent. */
  ghost predicate Named(g: Graph, r: RevisionId) {
    exists c :: c in g && r in g[c].Parents()
  }

  /** The definition the index has to agree with: revisions without known successors. */
  ghost function Frontier(g: Graph): HeadTable {
    set r | r in g && !Named(g, r) :: (g[r].objectId, r)
  }

  ghost function HeadsOf(heads: HeadTable, objectId: ObjectId): set<RevisionId> {
    set h | h in heads && h.0 == objectId :: h.1
  }

  /** `rev` may be stored on top of `g`: new id, distinct parents, all present, same object. */
  ghost predicate Extends(g: Graph, rev: Revision) {
    && rev.id !in g
    && NoDuplicates(rev.Parents())
    && forall p :: p in rev.Parents() ==> p in g && g[p].objectId == rev.objectId
  }

  ghost function Table(log: seq<Revision>): Graph {
    if log == [] then map[]
    else Table(log[..|log| - 1])[log[|log| - 1].id := log[|log| - 1]]
  }

  /** Insertion order in which every revision extends the ones before it. */
  ghost predicate Ordered(log: seq<Revision>) {
    log != [] ==>
      && Ordered(log[..|log| - 1])
      && Extends(Table(log[..|log| - 1]), log[|log| - 1])
  }

  /** The index after inserting `log` one revision after the other. */
  ghost function IndexOf(log: seq<Revision>): HeadTable {
    if log == [] then {}
    else
      var rev := log[|log| - 1];
      UpdateHeads(IndexOf(log[..|log| - 1]), rev.objectId, rev.Parents(), rev.id)
  }

  lemma Snoc(log: seq<Revision>, rev: Revision)
    ensures Table(log + [rev]) == Table(log)[rev.id := rev]
    ensures Ordered(log + [rev]) <==> Ordered(log) && Extends(Table(log), rev)
    ensures IndexOf(log + [rev]) == UpdateHeads(IndexOf(log), rev.objectId, rev.Parents(), rev.id)
  {
    assert (log + [rev])[..|log|] == log;
  }

  lemma {:induction false} TableFacts(log: seq<Revision>)
    ensures Keyed(Table(log))
    ensures forall r :: r in Table(log) <==> exists i :: 0 <= i < |log| && log[i].id == r
    ensures forall r :: r in Table(log) ==> Table(log)[r] in log
    ensures Ordered(log) ==> Closed(Table(log))
  {
    if log != [] {
      TableFacts(log[..|log| - 1]);
    }
  }

  /** Ids never repeat, and the table holds exactly the inserted revisions. */
  lemma {:induction false} OrderedIsDistinct(log: seq<Revision>)
    requires Ordered(log)
    ensures forall i, j :: 0 <= i < j < |log| ==> log[i].id != log[j].id
    ensures forall i :: 0 <= i < |log| ==> log[i].id in Table(log) && Table(log)[log[i].id] == log[i]
  {
    if log != [] {
      var init, last := log[..|log| - 1], log[|log| - 1];
      OrderedIsDistinct(init);
      forall i | 0 <= i < |init|
        ensures log[i].id != last.id && log[i].id in Table(log) && Table(log)[log[i].id] == log[i]
      {
        assert init[i] == log[i];
      }
    }
  }

  /** Every parent was stored strictly earlier and belongs to the same object. */
  lemma {:induction false} ParentsComeEarlier(log: seq<Revision>, i: nat, p: RevisionId)
    requires Ordered(log) && i < |log| && p in log[i].Parents()
    ensures exists j :: 0 <= j < i && log[j].id == p && log[j].objectId == log[i].objectId
    decreases |log|
  {
    var init := log[..|log| - 1];
    if i < |init| {
      ParentsComeEarlier(init, i, p);
      var j :| 0 <= j < i && init[j].id == p && init[j].objectId == init[i].objectId;
      assert log[j] == init[j];
    } else {
      TableFacts(init);
      var j :| 0 <= j < |init| && init[j] == Table(init)[p];
      assert log[j] == init[j];
    }
  }

  /** Storing `rev` names its parents, and nothing else that was not named before. */
  lemma NamedStep(g: Graph, rev: Revision, r: RevisionId)
    requires Extends(g, rev)
    ensures Named(g[rev.id := rev], r) <==> Named(g, r) || r in rev.Parents()
  {
    var g' := g[rev.id := rev];
    if Named(g, r) {
      var c :| c in g && r in g[c].Parents();
      assert c in g' && r in g'[c].Parents();
    }
    if r in rev.Parents() {
      assert rev.id in g' && r in g'[rev.id].Parents();
    }
  }

  lemma InFrontier(g: Graph, h: (ObjectId, RevisionId))
    ensures h in Frontier(g) <==> h.1 in g && !Named(g, h.1) && h.0 == g[h.1].objectId
  {
    if h.1 in g && !Named(g, h.1) && h.0 == g[h.1].objectId {
      assert h == (g[h.1].objectId, h.1);
    }
  }

  lemma NewIdIsUnnamed(g: Graph, rev: Revision)
    requires Closed(g) && Extends(g, rev)
    ensures !Named(g, rev.id) && rev.id !in rev.Parents()
  {}

  lemma FrontierStepAt(g: Graph, rev: Revision, h: (ObjectId, RevisionId))
    requires Extends(g, rev) && !Named(g, rev.id) && rev.id !in rev.Parents()
    ensures h in Frontier(g[rev.id := rev]) <==>
            h in UpdateHeads(Frontier(g), rev.objectId, rev.Parents(), rev.id)
  {
    InFrontier(g, h);
    InFrontier(g[rev.id := rev], h);
    NamedStep(g, rev, h.1);
  }

  /** One incremental step of the index is one step of the frontier. */
  lemma FrontierStep(g: Graph, rev: Revision)
    requires Closed(g) && Extends(g, rev)
    ensures Frontier(g[rev.id := rev]) == UpdateHeads(Frontier(g), rev.objectId, rev.Parents(), rev.id)
  {
    NewIdIsUnnamed(g, rev);
    forall h: (ObjectId, RevisionId)
      ensures h in Frontier(g[rev.id := rev]) <==>
              h in UpdateHeads(Frontier(g), rev.objectId, rev.Parents(), rev.id)
    {
      FrontierStepAt(g, rev, h);
    }
  }

  /** The incrementally maintained index is the frontier. */
  lemma {:induction false} IndexIsFrontier(log: seq<Revision>)
    requires Ordered(log)
    ensures IndexOf(log) == Frontier(Table(log))
  {
    if log != [] {
      var init := log[..|log| - 1];
      IndexIsFrontier(init);
      TableFacts(init);
      FrontierStep(Table(init), log[|log| - 1]);
    }
  }

  /** Every stored revision is an ancestor of some head of its own object. */
  lemma {:induction false} HeadsCover(log: seq<Revision>, r: RevisionId)
    requires Ordered(log) && r in Table(log)
    ensures Covered(Table(log), r, HeadsOf(IndexOf(log), Table(log)[r].objectId))
  {
    var init, last := log[..|log| - 1], log[|log| - 1];
    var g, g' := Table(init), Table(log);
    TableFacts(init);
    var o := g'[r].objectId;
    if r == last.id {
      AncestorRefl(g', r);
      assert (o, r) in IndexOf(log);
    } else {
      HeadsCover(init, r);
      var h :| h in HeadsOf(IndexOf(init), o) && Ancestor(g, r, h);
      AncestorMono(g, g', r, h);
      if h in last.Parents() {
        AncestorStep(g', r, h, last.id);
        AncestorSameObject(g, r, h);
        assert (o, last.id) in IndexOf(log);
      } else {
        assert (o, h) in IndexOf(log);
      }
    }
  }

  /** No head is a proper ancestor of another, whatever their objects. */
  lemma FrontierIsAntichain(g: Graph, a: (ObjectId, RevisionId), b: (ObjectId, RevisionId))
    requires a in Frontier(g) && b in Frontier(g) && a != b
    ensures !Ancestor(g, a.1, b.1)
  {
    if Ancestor(g, a.1, b.1) {
      ProperAncestorIsNamed(g, a.1, b.1);
    }
  }

  lemma TableWithin(log: seq<Revision>, log': seq<Revision>)
    requires Ordered(log) && Ordered(log') && forall rev :: rev in log ==> rev in log'
    ensures Sub(Table(log), Table(log'))
  {
    hide Ordered, Table, Closed;
    TableFacts(log);
    OrderedIsDistinct(log');
    forall r | r in Table(log)
      ensures r in Table(log') && Table(log')[r] == Table(log)[r]
    {
      var j :| 0 <= j < |log'| && log'[j] == Table(log)[r];
    }
  }

  /** Two insertion orders of the same revisions end with the same index. */
  lemma Confluence(log: seq<Revision>, log': seq<Revision>)
    requires Ordered(log) && Ordered(log')
    requires forall rev :: rev in log <==> rev in log'
    ensures IndexOf(log) == IndexOf(log')
  {
    hide Ordered, Table, IndexOf, Frontier;
    TableWithin(log, log');
    TableWithin(log', log);
    assert Table(log) == Table(log');
    IndexIsFrontier(log);
    IndexIsFrontier(log');
  }
}
