/**
  How the server lays a revision out as rows and reads it back: one row of columns, plus one
  positioned row per parent.  Positions are 16-bit, which bounds what survives the round trip.
 */
module Codec {
  import opened Core
  import opened Dag

  datatype RevisionRow = RevisionRow(
    id: RevisionId,
    objectId: ObjectId,
    objectType: string,
    deleted: bool,
    data: Option<Json>,
    createdAt: int,
    createdBy: ClientId)

  datatype ParentRow = ParentRow(revisionId: RevisionId, parentId: RevisionId, position: int)

  /** The largest number of parents whose order a signed 16-bit position can keep. */
  const MAX_PARENTS := 32768

  /** The cast of an index to a signed 16-bit integer. */
  function Wrap16(n: nat): (p: int)
    ensures -32768 <= p < 32768 && (n < MAX_PARENTS ==> p == n)
  {
    var m := n % 65536;
    if m < 32768 then m else m - 65536
  }

  function EncodeRow(rev: Revision): RevisionRow {
    match rev.content
    case Active(v) =>
      RevisionRow(rev.id, rev.objectId, rev.objectType, false, Some(v), rev.createdAt, rev.createdBy)
    case Deleted =>
      RevisionRow(rev.id, rev.objectId, rev.objectType, true, None, rev.createdAt, rev.createdBy)
  }

  function DecodeRow(row: RevisionRow, parents: seq<RevisionId>): Revision {
    var content :=
      if row.deleted then Deleted
      else Active(match row.data case Some(v) => v case None => Null);
    Revision(row.id, row.objectId, row.objectType, Lineage.FromParents(parents), row.createdAt, row.createdBy, content)
  }

  ghost function ParentRowsOf(rev: Revision): set<ParentRow> {
    set i | 0 <= i < |rev.Parents()| :: ParentRow(rev.id, rev.Parents()[i], Wrap16(i))
  }

  /** The parent table for a stored graph. */
  ghost function ParentTable(g: Graph): set<ParentRow> {
    set r, row | r in g && row in ParentRowsOf(g[r]) :: row
  }

  ghost function RowsOfRevision(table: set<ParentRow>, r: RevisionId): set<ParentRow> {
    set row | row in table && row.revisionId == r
  }

  ghost predicate Lists<T(!new)>(s: set<T>, result: seq<T>) {
    NoDuplicates(result) && forall x :: x in result <==> x in s
  }

  ghost predicate SortedByPosition(rows: seq<ParentRow>) {
    forall i, j :: 0 <= i < j < |rows| ==> rows[i].position <= rows[j].position
  }

  ghost predicate SortedByRevision(rows: seq<ParentRow>) {
    forall i, j :: 0 <= i < j < |rows| ==>
      rows[i].revisionId < rows[j].revisionId ||
      (rows[i].revisionId == rows[j].revisionId && rows[i].position <= rows[j].position)
  }

  /** Any answer of `... WHERE revision_id = r ORDER BY position`. */
  ghost predicate ParentsQuery(table: set<ParentRow>, r: RevisionId, result: seq<ParentRow>) {
    Lists(RowsOfRevision(table, r), result) && SortedByPosition(result)
  }

  /** Any answer of `... WHERE revision_id = ANY(ids) ORDER BY revision_id, position`. */
  ghost predicate BatchQuery(table: set<ParentRow>, ids: set<RevisionId>, result: seq<ParentRow>) {
    Lists((set row | row in table && row.revisionId in ids), result) && SortedByRevision(result)
  }

  function ParentIds(rows: seq<ParentRow>): (ids: seq<RevisionId>)
    ensures |ids| == |rows| && forall i :: 0 <= i < |rows| ==> ids[i] == rows[i].parentId
  {
    seq(|rows|, i requires 0 <= i < |rows| => rows[i].parentId)
  }

  // ---------------------------------------------------------------------------------------
  // The round trip and its bound

  lemma TableOfRevision(g: Graph, r: RevisionId)
    requires Keyed(g) && r in g
    ensures RowsOfRevision(ParentTable(g), r) == ParentRowsOf(g[r])
  {
    forall row
      ensures row in RowsOfRevision(ParentTable(g), r) <==> row in ParentRowsOf(g[r])
    {
      if row in RowsOfRevision(ParentTable(g), r) {
        var q :| q in g && row in ParentRowsOf(g[q]);
        assert q == r;
      }
    }
  }

  lemma RowAt(rev: Revision, i: nat)
    requires i < |rev.Parents()|
    ensures ParentRow(rev.id, rev.Parents()[i], Wrap16(i)) in ParentRowsOf(rev)
  {}

  /** With at most MAX_PARENTS parents the k-th row of any answer is the k-th parent. */
  lemma {:induction false} KthRow(rev: Revision, result: seq<ParentRow>, k: nat)
    requires |rev.Parents()| <= MAX_PARENTS && k <= |result|
    requires Lists(ParentRowsOf(rev), result) && SortedByPosition(result)
    ensures k <= |rev.Parents()|
    ensures forall j :: 0 <= j < k ==> result[j] == ParentRow(rev.id, rev.Parents()[j], j)
  {
    if k > 0 {
      KthRow(rev, result, k - 1);
      var row := result[k - 1];
      assert row in result;
      var i :| 0 <= i < |rev.Parents()| && row == ParentRow(rev.id, rev.Parents()[i], Wrap16(i));
      assert i < k - 1 ==> result[i] == row;
      var wanted := ParentRow(rev.id, rev.Parents()[k - 1], k - 1);
      RowAt(rev, k - 1);
      assert wanted in result;
      var m :| 0 <= m < |result| && result[m] == wanted;
      assert m >= k - 1;
      assert row.position <= wanted.position;
    }
  }

  lemma AllRows(rev: Revision, result: seq<ParentRow>)
    requires |rev.Parents()| <= MAX_PARENTS
    requires Lists(ParentRowsOf(rev), result) && SortedByPosition(result)
    ensures ParentIds(result) == rev.Parents()
  {
    KthRow(rev, result, |result|);
    assert forall row :: row in result ==> row.position < |result|;
    if |result| < |rev.Parents()| {
      RowAt(rev, |result|);
      assert false;
    }
  }

  /** Beyond the bound the wrapped positions sort first, so another parent comes first. */
  lemma WrappedRowsLead(rev: Revision, result: seq<ParentRow>)
    requires |rev.Parents()| > MAX_PARENTS && NoDuplicates(rev.Parents())
    requires Lists(ParentRowsOf(rev), result) && SortedByPosition(result)
    ensures ParentIds(result) != rev.Parents()
  {
    RowAt(rev, MAX_PARENTS);
    var low := ParentRow(rev.id, rev.Parents()[MAX_PARENTS], -32768);
    assert low in result;
    var m :| 0 <= m < |result| && result[m] == low;
    var first := result[0];
    assert first in result && first.position <= low.position;
    var i :| 0 <= i < |rev.Parents()| && first == ParentRow(rev.id, rev.Parents()[i], Wrap16(i));
    assert i != 0;
    assert ParentIds(result)[0] == rev.Parents()[i];
  }

  /**
    Storing a revision and reading it back gives the same revision, parent order and content
    included, exactly if it has at most 32768 parents; and this for every answer the ordered
    query may give.
   */
  lemma RevisionRoundTrip(g: Graph, r: RevisionId, result: seq<ParentRow>)
    requires Keyed(g) && r in g && NoDuplicates(g[r].Parents())
    requires ParentsQuery(ParentTable(g), r, result)
    ensures DecodeRow(EncodeRow(g[r]), ParentIds(result)) == g[r] <==> |g[r].Parents()| <= MAX_PARENTS
  {
    TableOfRevision(g, r);
    LineageRoundTrip(g[r].lineage);
    if |g[r].Parents()| <= MAX_PARENTS {
      AllRows(g[r], result);
    } else {
      WrappedRowsLead(g[r], result);
      assert DecodeRow(EncodeRow(g[r]), ParentIds(result)).Parents() == ParentIds(result);
    }
  }

  // ---------------------------------------------------------------------------------------
  // Grouping the batch query

  function RowsOf(rows: seq<ParentRow>, r: RevisionId): seq<ParentRow> {
    if rows == [] then []
    else
      var last := rows[|rows| - 1];
      RowsOf(rows[..|rows| - 1], r) + if last.revisionId == r then [last] else []
  }

  /** The map entry for `r`, or the empty default. */
  function ParentsIn(m: map<RevisionId, seq<RevisionId>>, r: RevisionId): seq<RevisionId> {
    if r in m then m[r] else []
  }

  lemma RowsOfSnoc(rows: seq<ParentRow>, row: ParentRow, r: RevisionId)
    ensures RowsOf(rows + [row], r) == if row.revisionId == r then RowsOf(rows, r) + [row] else RowsOf(rows, r)
  {
    assert (rows + [row])[..|rows|] == rows;
  }

  ghost predicate Groups(m: map<RevisionId, seq<RevisionId>>, rows: seq<ParentRow>) {
    forall r :: ParentsIn(m, r) == ParentIds(RowsOf(rows, r))
  }

  lemma GroupStep(m: map<RevisionId, seq<RevisionId>>, rows: seq<ParentRow>, row: ParentRow)
    requires Groups(m, rows)
    ensures Groups(m[row.revisionId := ParentsIn(m, row.revisionId) + [row.parentId]], rows + [row])
  {
    hide RowsOf;
    var m' := m[row.revisionId := ParentsIn(m, row.revisionId) + [row.parentId]];
    forall r
      ensures ParentsIn(m', r) == ParentIds(RowsOf(rows + [row], r))
    {
      RowsOfSnoc(rows, row, r);
      if r != row.revisionId {
        assert ParentsIn(m', r) == ParentsIn(m, r);
      }
    }
  }

  method GetParentsBatch(rows: seq<ParentRow>) returns (m: map<RevisionId, seq<RevisionId>>)
    ensures Groups(m, rows)
    ensures forall r :: r in m ==> m[r] != []
  {
    m := map[];
    for i := 0 to |rows|
      invariant Groups(m, rows[..i])
      invariant forall r :: r in m ==> m[r] != []
    {
      var row := rows[i];
      GroupStep(m, rows[..i], row);
      assert rows[..i + 1] == rows[..i] + [row];
      m := m[row.revisionId := ParentsIn(m, row.revisionId) + [row.parentId]];
    }
    assert rows[..|rows|] == rows;
  }

  ghost predicate Extracted(rows: seq<ParentRow>, r: RevisionId, part: seq<ParentRow>) {
    && (forall row :: row in part <==> row in rows && row.revisionId == r)
    && NoDuplicates(part)
    && SortedByPosition(part)
  }

  lemma ExtractedStep(init: seq<ParentRow>, last: ParentRow, r: RevisionId, part: seq<ParentRow>)
    requires SortedByRevision(init + [last]) && NoDuplicates(init + [last]) && Extracted(init, r, part)
    ensures Extracted(init + [last], r, if last.revisionId == r then part + [last] else part)
  {
    var rows := init + [last];
    assert rows[|init|] == last;
    if last.revisionId == r {
      forall j | 0 <= j < |part|
        ensures part[j] != last && part[j].position <= last.position
      {
        assert part[j] in part;
        var k :| 0 <= k < |init| && init[k] == part[j];
        assert rows[k] == init[k];
      }
    }
  }

  lemma {:induction false} RowsOfFacts(rows: seq<ParentRow>, r: RevisionId)
    requires SortedByRevision(rows) && NoDuplicates(rows)
    ensures Extracted(rows, r, RowsOf(rows, r))
  {
    if rows != [] {
      var init, last := rows[..|rows| - 1], rows[|rows| - 1];
      assert rows == init + [last];
      assert forall i :: 0 <= i < |init| ==> init[i] == rows[i];
      RowsOfFacts(init, r);
      RowsOfSnoc(init, last, r);
      ExtractedStep(init, last, r, RowsOf(init, r));
    }
  }

  /** The grouped batch answer is, for every requested id, an answer of the single query. */
  lemma BatchAgreesWithSingle(table: set<ParentRow>, ids: set<RevisionId>, rows: seq<ParentRow>, r: RevisionId)
    requires BatchQuery(table, ids, rows) && r in ids
    ensures ParentsQuery(table, r, RowsOf(rows, r))
  {
    RowsOfFacts(rows, r);
  }

  /** Reading many revisions at once gives each of them back. */
  lemma BatchRoundTrip(g: Graph, ids: set<RevisionId>, rows: seq<ParentRow>, r: RevisionId)
    requires Keyed(g) && r in g && r in ids && BatchQuery(ParentTable(g), ids, rows)
    requires NoDuplicates(g[r].Parents()) && |g[r].Parents()| <= MAX_PARENTS
    ensures DecodeRow(EncodeRow(g[r]), ParentIds(RowsOf(rows, r))) == g[r]
  {
    BatchAgreesWithSingle(ParentTable(g), ids, rows, r);
    RevisionRoundTrip(g, r, RowsOf(rows, r));
  }

  /**
    What a stored revision reads back as: all parents are there, each once, everything else is
    unchanged, and it is the stored revision exactly if its parents are within the bound.
   */
  ghost predicate ReadsAs(rev: Revision, rev': Revision) {
    && rev' == rev.(lineage := rev'.lineage)
    && NoDuplicates(rev'.Parents())
    && (forall p :: p in rev'.Parents() <==> p in rev.Parents())
    && (rev' == rev <==> |rev.Parents()| <= MAX_PARENTS)
  }

  lemma RowsListParents(rev: Revision, result: seq<ParentRow>)
    requires NoDuplicates(rev.Parents()) && Lists(ParentRowsOf(rev), result)
    ensures NoDuplicates(ParentIds(result))
    ensures forall p :: p in ParentIds(result) <==> p in rev.Parents()
  {
    var ids := ParentIds(result);
    forall i | 0 <= i < |result|
      ensures exists k :: 0 <= k < |rev.Parents()| && result[i] == ParentRow(rev.id, rev.Parents()[k], Wrap16(k))
    {
      assert result[i] in result;
    }
    forall p | p in rev.Parents()
      ensures p in ids
    {
      var k :| 0 <= k < |rev.Parents()| && rev.Parents()[k] == p;
      RowAt(rev, k);
      var i :| 0 <= i < |result| && result[i] == ParentRow(rev.id, p, Wrap16(k));
      assert ids[i] == p;
    }
  }

  /** Whatever the number of parents, reading back loses and invents none. */
  lemma BatchReadsAs(g: Graph, ids: set<RevisionId>, rows: seq<ParentRow>, r: RevisionId)
    requires Keyed(g) && r in g && r in ids && BatchQuery(ParentTable(g), ids, rows) && NoDuplicates(g[r].Parents())
    ensures ReadsAs(g[r], DecodeRow(EncodeRow(g[r]), ParentIds(RowsOf(rows, r))))
  {
    hide ParentTable, BatchQuery, NoDuplicates, SortedByPosition, ParentRowsOf;
    var part := RowsOf(rows, r);
    BatchAgreesWithSingle(ParentTable(g), ids, rows, r);
    RevisionRoundTrip(g, r, part);
    TableOfRevision(g, r);
    RowsListParents(g[r], part);
    assert DecodeRow(EncodeRow(g[r]), ParentIds(part)).Parents() == ParentIds(part);
  }
}
