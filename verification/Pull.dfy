/**
  The server's pull path.  A pull makes five separate reads: the watermark, the changed
  objects, their heads, the heads' rows and the rows' parents; pushes may commit between them.
 */
module Pull {
  import opened Core
  import opened Dag
  import opened HeadIndex
  import opened Push
  import opened ServerRuns
  import opened Codec
  import opened Filter

  // ---------------------------------------------------------------------------------------
  // The reads

  function MaxId(txns: seq<Txn>): nat {
    if txns == [] then 0
    else
      var m, id := MaxId(txns[..|txns| - 1]), txns[|txns| - 1].id;
      if m < id then id else m
  }

  /** `r` is listed by a transaction after `since`, up to `upTo`. */
  ghost predicate InWindow(txns: seq<Txn>, since: nat, upTo: nat, r: RevisionId) {
    exists i :: 0 <= i < |txns| && since < txns[i].id <= upTo && r in txns[i].revisions
  }

  /** Objects with a revision by another client in the window. */
  ghost function Changed(s: Server, client: ClientId, since: nat, upTo: nat): set<ObjectId> {
    set r | r in s.revs && InWindow(s.txns, since, upTo, r) && s.revs[r].createdBy != client :: s.revs[r].objectId
  }

  /** Somebody else's revision of `o` is listed by a transaction after `since`, up to `upTo`. */
  ghost predicate ForeignChange(s: Server, client: ClientId, since: nat, upTo: nat, o: ObjectId) {
    exists i, r :: 0 <= i < |s.txns| && since < s.txns[i].id <= upTo && r in s.txns[i].revisions
                   && r in s.revs && s.revs[r].createdBy != client && s.revs[r].objectId == o
  }

  type HeadRows = seq<(ObjectId, RevisionId)>

  ghost function HeadsIn(heads: HeadTable, objects: seq<ObjectId>): HeadTable {
    set h | h in heads && h.0 in objects
  }

  /** Head ids of one object in the order the rows came. */
  function HeadIdsOf(rows: HeadRows, o: ObjectId): seq<RevisionId> {
    if rows == [] then []
    else
      var last := rows[|rows| - 1];
      HeadIdsOf(rows[..|rows| - 1], o) + if last.0 == o then [last.1] else []
  }

  function RevIds(rows: HeadRows): set<RevisionId> {
    set i | 0 <= i < |rows| :: rows[i].1
  }

  ghost function RowsAt(g: Graph, ids: set<RevisionId>): map<RevisionId, RevisionRow> {
    map r | r in ids && r in g :: EncodeRow(g[r])
  }

  // ---------------------------------------------------------------------------------------
  // Assembling the answer

  /** The reference form: look the heads up in a graph. */
  function Lookup(g: Graph, ids: seq<RevisionId>): seq<Revision>
    requires forall r :: r in ids ==> r in g
  {
    seq(|ids|, i requires 0 <= i < |ids| => g[ids[i]])
  }

  function MakeUpdate(o: ObjectId, heads: seq<Revision>): ObjectUpdate {
    ObjectUpdate(o, if |heads| == 1 then Replace else Conflict, heads)
  }

  predicate AnyPasses(heads: seq<Revision>, f: PullFilter) {
    exists i :: 0 <= i < |heads| && Passes(heads[i], f)
  }

  ghost predicate Known(g: Graph, rows: HeadRows) {
    forall i :: 0 <= i < |rows| ==> rows[i].1 in g
  }

  lemma {:induction false} HeadIdsMember(rows: HeadRows, o: ObjectId, r: RevisionId)
    ensures r in HeadIdsOf(rows, o) <==> (o, r) in rows
  {
    if rows != [] {
      HeadIdsMember(rows[..|rows| - 1], o, r);
      assert rows == rows[..|rows| - 1] + [rows[|rows| - 1]];
    }
  }

  ghost function UpdateFor(o: ObjectId, rows: HeadRows, g: Graph, f: PullFilter): seq<ObjectUpdate>
    requires Known(g, rows)
  {
    var heads := HeadRevs(o, rows, g);
    if AnyPasses(heads, f) then [MakeUpdate(o, heads)] else []
  }

  ghost function HeadRevs(o: ObjectId, rows: HeadRows, g: Graph): seq<Revision>
    requires Known(g, rows)
  {
    assert forall r :: r in HeadIdsOf(rows, o) ==> r in g by {
      forall r | r in HeadIdsOf(rows, o)
        ensures r in g
      {
        HeadIdsMember(rows, o, r);
      }
    }
    Lookup(g, HeadIdsOf(rows, o))
  }

  ghost function Updates(objects: seq<ObjectId>, rows: HeadRows, g: Graph, f: PullFilter): seq<ObjectUpdate>
    requires Known(g, rows)
  {
    if objects == [] then []
    else Updates(objects[..|objects| - 1], rows, g, f) + UpdateFor(objects[|objects| - 1], rows, g, f)
  }

  lemma UpdatesSnoc(objects: seq<ObjectId>, o: ObjectId, rows: HeadRows, g: Graph, f: PullFilter)
    requires Known(g, rows)
    ensures var heads, updates := HeadRevs(o, rows, g), Updates(objects, rows, g, f);
            Updates(objects + [o], rows, g, f) ==
            if AnyPasses(heads, f) then updates + [MakeUpdate(o, heads)] else updates
  {
    assert (objects + [o])[..|objects|] == objects;
  }

  // ---------------------------------------------------------------------------------------
  // The loop over rows, which consumes the row table

  lemma HeadIdsSnoc(rows: HeadRows, h: (ObjectId, RevisionId), o: ObjectId)
    ensures HeadIdsOf(rows + [h], o) == if h.0 == o then HeadIdsOf(rows, o) + [h.1] else HeadIdsOf(rows, o)
  {
    assert (rows + [h])[..|rows|] == rows;
  }

  ghost predicate Grouped(byObject: map<ObjectId, seq<RevisionId>>, rows: HeadRows) {
    && (forall o :: o in byObject <==> HeadIdsOf(rows, o) != [])
    && (forall o :: o in byObject ==> byObject[o] == HeadIdsOf(rows, o))
  }

  lemma GroupedStep(byObject: map<ObjectId, seq<RevisionId>>, rows: HeadRows, h: (ObjectId, RevisionId))
    requires Grouped(byObject, rows)
    ensures Grouped(byObject[h.0 := (if h.0 in byObject then byObject[h.0] else []) + [h.1]], rows + [h])
  {
    hide HeadIdsOf;
    forall o { HeadIdsSnoc(rows, h, o); }
  }

  method GroupHeads(rows: HeadRows) returns (byObject: map<ObjectId, seq<RevisionId>>)
    ensures Grouped(byObject, rows)
  {
    byObject := map[];
    for i := 0 to |rows|
      invariant Grouped(byObject, rows[..i])
    {
      var (o, r) := rows[i];
      GroupedStep(byObject, rows[..i], rows[i]);
      assert rows[..i + 1] == rows[..i] + [rows[i]];
      byObject := byObject[o := (if o in byObject then byObject[o] else []) + [r]];
    }
    assert rows[..|rows|] == rows;
  }

  predicate PassesRow(row: RevisionRow, f: PullFilter) {
    && (f.objectTypes.Some? ==> row.objectType in f.objectTypes.value)
    && (f.createdAt.Some? ==> CreatedAtPasses(row.createdAt, f.createdAt.value))
    && (f.content.Some? && row.data.Some? ==> ContentPasses(row.data.value, f.content.value))
  }

  function Present(ids: seq<RevisionId>, byId: map<RevisionId, RevisionRow>): seq<RevisionRow> {
    if ids == [] then []
    else
      var last := ids[|ids| - 1];
      Present(ids[..|ids| - 1], byId) + if last in byId then [byId[last]] else []
  }

  function DecodeAll(rows: seq<RevisionRow>, parents: map<RevisionId, seq<RevisionId>>): seq<Revision> {
    seq(|rows|, i requires 0 <= i < |rows| => DecodeRow(rows[i], ParentsIn(parents, rows[i].id)))
  }

  predicate AnyRowPasses(rows: seq<RevisionRow>, f: PullFilter) {
    exists i :: 0 <= i < |rows| && PassesRow(rows[i], f)
  }

  function RowUpdate(o: ObjectId, rows: HeadRows, byId: map<RevisionId, RevisionRow>,
                     parents: map<RevisionId, seq<RevisionId>>, f: PullFilter): seq<ObjectUpdate>
  {
    var heads := Present(HeadIdsOf(rows, o), byId);
    if AnyRowPasses(heads, f) then [MakeUpdate(o, DecodeAll(heads, parents))] else []
  }

  function RowUpdates(objects: seq<ObjectId>, rows: HeadRows, byId: map<RevisionId, RevisionRow>,
                      parents: map<RevisionId, seq<RevisionId>>, f: PullFilter): seq<ObjectUpdate>
  {
    if objects == [] then []
    else
      RowUpdates(objects[..|objects| - 1], rows, byId, parents, f) +
      RowUpdate(objects[|objects| - 1], rows, byId, parents, f)
  }

  lemma RowUpdatesSnoc(objects: seq<ObjectId>, o: ObjectId, rows: HeadRows, byId: map<RevisionId, RevisionRow>,
                       parents: map<RevisionId, seq<RevisionId>>, f: PullFilter)
    ensures RowUpdates(objects + [o], rows, byId, parents, f) ==
            RowUpdates(objects, rows, byId, parents, f) + RowUpdate(o, rows, byId, parents, f)
  {
    assert (objects + [o])[..|objects|] == objects;
  }

  /** No revision is listed as a head twice. */
  predicate OnceEach(rows: HeadRows) {
    forall i, j :: 0 <= i < j < |rows| ==> rows[i].1 != rows[j].1
  }

  lemma {:induction false} HeadIdsOnce(rows: HeadRows, o: ObjectId)
    requires OnceEach(rows)
    ensures NoDuplicates(HeadIdsOf(rows, o))
  {
    if rows != [] {
      var init, last := rows[..|rows| - 1], rows[|rows| - 1];
      HeadIdsOnce(init, o);
      if last.0 == o {
        forall i | 0 <= i < |HeadIdsOf(init, o)|
          ensures HeadIdsOf(init, o)[i] != last.1
        {
          HeadIdsMember(init, o, HeadIdsOf(init, o)[i]);
          var k :| 0 <= k < |init| && init[k] == (o, HeadIdsOf(init, o)[i]);
          assert rows[k] == init[k];
        }
      }
    }
  }

  function SetOf(ids: seq<RevisionId>): set<RevisionId> {
    set r | r in ids
  }

  /** The ids agree on what is still in the table. */
  ghost predicate SameOn(ids: seq<RevisionId>, left: map<RevisionId, RevisionRow>, byId: map<RevisionId, RevisionRow>) {
    forall r :: r in ids ==> (r in left <==> r in byId) && (r in left ==> left[r] == byId[r])
  }

  /** Heads of one object: taking them out of the table finds each of them once. */
  method TakeHeads(ids: seq<RevisionId>, table: map<RevisionId, RevisionRow>,
                   parents: map<RevisionId, seq<RevisionId>>, f: PullFilter)
    returns (left: map<RevisionId, RevisionRow>, heads: seq<Revision>, passes: bool)
    requires NoDuplicates(ids)
    ensures left == table - SetOf(ids)
    ensures heads == DecodeAll(Present(ids, table), parents)
    ensures passes == AnyRowPasses(Present(ids, table), f)
  {
    left, heads, passes := table, [], false;
    for j := 0 to |ids|
      invariant left == table - SetOf(ids[..j])
      invariant heads == DecodeAll(Present(ids[..j], table), parents)
      invariant passes == AnyRowPasses(Present(ids[..j], table), f)
    {
      hide Present, DecodeAll, AnyRowPasses, PassesRow, SetOf, DecodeRow, ParentsIn, NoDuplicates;
      var r := ids[j];
      TakeStep(ids, table, j);
      ghost var before := Present(ids[..j], table);
      if r in left {
        var row := left[r];
        left := left - {r};
        if PassesRow(row, f) {
          passes := true;
        }
        heads := heads + [DecodeRow(row, ParentsIn(parents, row.id))];
        AnyRowSnoc(before, row, f);
        DecodeSnoc(before, row, parents);
      }
    }
    assert ids[..|ids|] == ids;
  }

  /** Ids seen so far do not hide the next one, and its row joins those found. */
  lemma TakeStep(ids: seq<RevisionId>, table: map<RevisionId, RevisionRow>, j: nat)
    requires NoDuplicates(ids) && j < |ids|
    ensures ids[j] !in SetOf(ids[..j]) && SetOf(ids[..j + 1]) == SetOf(ids[..j]) + {ids[j]}
    ensures var before := Present(ids[..j], table);
            Present(ids[..j + 1], table) == if ids[j] in table then before + [table[ids[j]]] else before
  {
    assert ids[..j + 1][..j] == ids[..j];
  }

  lemma DecodeSnoc(rows: seq<RevisionRow>, row: RevisionRow, parents: map<RevisionId, seq<RevisionId>>)
    ensures DecodeAll(rows + [row], parents) == DecodeAll(rows, parents) + [DecodeRow(row, ParentsIn(parents, row.id))]
  {}

  lemma AnyRowSnoc(rows: seq<RevisionRow>, row: RevisionRow, f: PullFilter)
    ensures AnyRowPasses(rows + [row], f) <==> AnyRowPasses(rows, f) || PassesRow(row, f)
  {
    if i :| 0 <= i < |rows| && PassesRow(rows[i], f) {
      assert (rows + [row])[i] == rows[i];
    }
    assert (rows + [row])[|rows|] == row;
  }

  /**
    Although the loop removes rows from the table as it goes, it computes for each object what
    a lookup in the untouched table would give.
   */
  method FetchObjectUpdates(objects: seq<ObjectId>, rows: HeadRows, byId: map<RevisionId, RevisionRow>,
                            parents: map<RevisionId, seq<RevisionId>>, f: PullFilter)
    returns (updates: seq<ObjectUpdate>)
    requires NoDuplicates(objects) && OnceEach(rows)
    ensures updates == RowUpdates(objects, rows, byId, parents, f)
  {
    var byObject := GroupHeads(rows);
    var left := byId;
    updates := [];
    for i := 0 to |objects|
      invariant updates == RowUpdates(objects[..i], rows, byId, parents, f)
      invariant forall k :: i <= k < |objects| ==> SameOn(HeadIdsOf(rows, objects[k]), left, byId)
    {
      var o := objects[i];
      assert objects[..i + 1] == objects[..i] + [o];
      RowUpdatesSnoc(objects[..i], o, rows, byId, parents, f);
      if o in byObject {
        var heads, passes;
        ghost var table := left;
        HeadIdsOnce(rows, o);
        left, heads, passes := TakeHeads(byObject[o], left, parents, f);
        PresentSame(HeadIdsOf(rows, o), table, byId);
        TakingIsLocal(objects, i, rows, table, byId);
        if passes {
          updates := updates + [MakeUpdate(o, heads)];
        }
      }
    }
    assert objects[..|objects|] == objects;
  }

  lemma {:induction false} PresentSame(ids: seq<RevisionId>, left: map<RevisionId, RevisionRow>,
                                       byId: map<RevisionId, RevisionRow>)
    requires SameOn(ids, left, byId)
    ensures Present(ids, left) == Present(ids, byId)
  {
    if ids != [] {
      PresentSame(ids[..|ids| - 1], left, byId);
    }
  }

  lemma TakingIsLocal(objects: seq<ObjectId>, i: nat, rows: HeadRows, left: map<RevisionId, RevisionRow>,
                      byId: map<RevisionId, RevisionRow>)
    requires i < |objects| && NoDuplicates(objects) && OnceEach(rows)
    requires forall k :: i <= k < |objects| ==> SameOn(HeadIdsOf(rows, objects[k]), left, byId)
    ensures forall k :: i < k < |objects| ==>
              SameOn(HeadIdsOf(rows, objects[k]), left - SetOf(HeadIdsOf(rows, objects[i])), byId)
  {
    forall k, r | i < k < |objects| && r in HeadIdsOf(rows, objects[k])
      ensures r !in HeadIdsOf(rows, objects[i])
    {
      HeadIdsMember(rows, objects[k], r);
      HeadIdsMember(rows, objects[i], r);
    }
  }

  /** The rows and parents read for the heads decode to the revisions of `g`. */
  ghost predicate Decodes(g: Graph, rows: HeadRows, byId: map<RevisionId, RevisionRow>,
                          parents: map<RevisionId, seq<RevisionId>>) {
    && Known(g, rows)
    && forall i :: 0 <= i < |rows| ==> DecodesTo(g[rows[i].1], rows[i].1, byId, parents)
  }

  ghost predicate DecodesTo(rev: Revision, r: RevisionId, byId: map<RevisionId, RevisionRow>,
                            parents: map<RevisionId, seq<RevisionId>>) {
    && r in byId
    && byId[r] == EncodeRow(rev)
    && DecodeRow(byId[r], ParentsIn(parents, byId[r].id)) == rev
  }

  lemma {:induction false} AllPresent(ids: seq<RevisionId>, byId: map<RevisionId, RevisionRow>)
    requires forall i :: 0 <= i < |ids| ==> ids[i] in byId
    ensures |Present(ids, byId)| == |ids|
    ensures forall i :: 0 <= i < |ids| ==> Present(ids, byId)[i] == byId[ids[i]]
  {
    if ids != [] {
      AllPresent(ids[..|ids| - 1], byId);
    }
  }

  /** Working on rows gives what the reference form gives on the revisions they encode. */
  lemma {:induction false} RowsRefine(objects: seq<ObjectId>, rows: HeadRows, g: Graph,
                                      byId: map<RevisionId, RevisionRow>,
                                      parents: map<RevisionId, seq<RevisionId>>, f: PullFilter)
    requires Decodes(g, rows, byId, parents)
    ensures RowUpdates(objects, rows, byId, parents, f) == Updates(objects, rows, g, f)
  {
    if objects != [] {
      var o := objects[|objects| - 1];
      RowsRefine(objects[..|objects| - 1], rows, g, byId, parents, f);
      RowUpdateRefines(o, rows, g, byId, parents, f);
    }
  }

  lemma RowUpdateRefines(o: ObjectId, rows: HeadRows, g: Graph, byId: map<RevisionId, RevisionRow>,
                         parents: map<RevisionId, seq<RevisionId>>, f: PullFilter)
    requires Decodes(g, rows, byId, parents)
    ensures RowUpdate(o, rows, byId, parents, f) == UpdateFor(o, rows, g, f)
  {
    var ids := HeadIdsOf(rows, o);
    forall r | r in ids
      ensures r in g && DecodesTo(g[r], r, byId, parents)
    {
      HeadIdsMember(rows, o, r);
    }
    forall i | 0 <= i < |ids|
      ensures ids[i] in g && DecodesTo(g[ids[i]], ids[i], byId, parents)
    {
      assert ids[i] in ids;
    }
    AllPresent(ids, byId);
    var heads, revs := Present(ids, byId), HeadRevs(o, rows, g);
    assert DecodeAll(heads, parents) == revs;
    forall i | 0 <= i < |ids|
      ensures PassesRow(heads[i], f) <==> Passes(revs[i], f)
    {
      assert heads[i] == EncodeRow(revs[i]);
    }
    assert AnyRowPasses(heads, f) <==> AnyPasses(revs, f);
  }

  // ---------------------------------------------------------------------------------------
  // What an answer means

  /** An update lists exactly the object's heads, each once, as stored. */
  ghost predicate ShowsHeads(s: Server, u: ObjectUpdate) {
    && Distinct(u.heads)
    && (forall rev :: rev in u.heads ==>
          rev.id in HeadsOf(s.heads, u.objectId) && rev.id in s.revs && s.revs[rev.id] == rev)
    && (forall h :: h in HeadsOf(s.heads, u.objectId) ==> h in s.revs && s.revs[h] in u.heads)
    && (u.action == Replace <==> |u.heads| == 1)
  }

  ghost predicate SomeHeadPasses(s: Server, o: ObjectId, f: PullFilter) {
    exists h :: h in HeadsOf(s.heads, o) && h in s.revs && Passes(s.revs[h], f)
  }

  ghost predicate Mentions(updates: seq<ObjectUpdate>, o: ObjectId) {
    exists i :: 0 <= i < |updates| && updates[i].objectId == o
  }

  /**
    One update for each changed object with a head that passes, showing all its heads.
   */
  ghost predicate Answers(s: Server, changed: set<ObjectId>, f: PullFilter, updates: seq<ObjectUpdate>) {
    && (forall i, j :: 0 <= i < j < |updates| ==> updates[i].objectId != updates[j].objectId)
    && (forall i :: 0 <= i < |updates| ==> ShowsHeads(s, updates[i]))
    && (forall o :: Mentions(updates, o) <==> o in changed && SomeHeadPasses(s, o, f))
  }

  lemma HeadsAreStored(s: Server)
    requires StoreOk(s)
    ensures forall h :: h in s.heads ==> h.1 in s.revs && s.revs[h.1].objectId == h.0
  {
    IndexIsFrontier(s.log);
  }

  lemma RowsOnceEach(s: Server, objects: seq<ObjectId>, rows: HeadRows)
    requires StoreOk(s) && Lists(HeadsIn(s.heads, objects), rows)
    ensures OnceEach(rows) && Known(s.revs, rows)
  {
    hide Ordered, Table, IndexOf;
    HeadsAreStored(s);
    forall i | 0 <= i < |rows|
      ensures rows[i] in s.heads && rows[i].1 in s.revs && rows[i].0 == s.revs[rows[i].1].objectId
    {
      assert rows[i] in rows;
    }
    forall i, j | 0 <= i < j < |rows|
      ensures rows[i].1 != rows[j].1
    {
      assert rows[i] != rows[j];
    }
  }

  /** The ids gathered for a listed object are exactly its heads, each once. */
  lemma HeadIdsAreHeads(s: Server, objects: seq<ObjectId>, rows: HeadRows, o: ObjectId)
    requires Lists(HeadsIn(s.heads, objects), rows) && OnceEach(rows) && o in objects
    ensures NoDuplicates(HeadIdsOf(rows, o))
    ensures forall h :: h in HeadIdsOf(rows, o) <==> h in HeadsOf(s.heads, o)
  {
    hide HeadIdsOf, OnceEach;
    HeadIdsOnce(rows, o);
    forall h
      ensures h in HeadIdsOf(rows, o) <==> h in HeadsOf(s.heads, o)
    {
      HeadIdsMember(rows, o, h);
      if h in HeadsOf(s.heads, o) {
        assert (o, h) in s.heads && (o, h) in HeadsIn(s.heads, objects);
      }
    }
  }

  /** A list of ids, looked up in the store, shows exactly the heads it lists. */
  lemma LookupShowsHeads(s: Server, o: ObjectId, ids: seq<RevisionId>, heads: seq<Revision>)
    requires Keyed(s.revs) && NoDuplicates(ids) && (forall h :: h in ids <==> h in HeadsOf(s.heads, o))
    requires |heads| == |ids| && forall i :: 0 <= i < |ids| ==> ids[i] in s.revs && heads[i] == s.revs[ids[i]]
    ensures ShowsHeads(s, MakeUpdate(o, heads))
  {
    hide HeadsOf;
    forall i | 0 <= i < |ids|
      ensures ids[i] in HeadsOf(s.heads, o) && heads[i].id == ids[i]
    {
      assert ids[i] in ids;
    }
    forall h | h in HeadsOf(s.heads, o)
      ensures h in s.revs && s.revs[h] in heads
    {
      var i :| 0 <= i < |ids| && ids[i] == h;
      assert heads[i] == s.revs[h];
    }
  }

  lemma LookupPasses(s: Server, o: ObjectId, ids: seq<RevisionId>, heads: seq<Revision>, f: PullFilter)
    requires forall h :: h in ids <==> h in HeadsOf(s.heads, o)
    requires |heads| == |ids| && forall i :: 0 <= i < |ids| ==> ids[i] in s.revs && heads[i] == s.revs[ids[i]]
    ensures AnyPasses(heads, f) <==> SomeHeadPasses(s, o, f)
  {
    hide HeadsOf, Passes;
    if i :| 0 <= i < |heads| && Passes(heads[i], f) {
      assert ids[i] in ids;
    }
    if h :| h in HeadsOf(s.heads, o) && h in s.revs && Passes(s.revs[h], f) {
      var i :| 0 <= i < |ids| && ids[i] == h;
      assert Passes(heads[i], f);
    }
  }

  lemma UpdateShowsHeads(s: Server, objects: seq<ObjectId>, rows: HeadRows, o: ObjectId, f: PullFilter)
    requires Keyed(s.revs) && Lists(HeadsIn(s.heads, objects), rows)
    requires Known(s.revs, rows) && OnceEach(rows) && o in objects
    ensures var heads := HeadRevs(o, rows, s.revs);
            ShowsHeads(s, MakeUpdate(o, heads)) && (AnyPasses(heads, f) <==> SomeHeadPasses(s, o, f))
  {
    hide HeadIdsOf, HeadsOf, Lists, OnceEach, ShowsHeads, SomeHeadPasses, AnyPasses, NoDuplicates;
    var ids, heads := HeadIdsOf(rows, o), HeadRevs(o, rows, s.revs);
    HeadIdsAreHeads(s, objects, rows, o);
    forall i | 0 <= i < |ids|
      ensures ids[i] in s.revs
    {
      HeadIdsMember(rows, o, ids[i]);
      assert ids[i] in ids;
    }
    LookupShowsHeads(s, o, ids, heads);
    LookupPasses(s, o, ids, heads, f);
  }

  lemma StoredByKey(s: Server)
    requires StoreOk(s)
    ensures Keyed(s.revs)
  {
    TableFacts(s.log);
  }

  ghost predicate AnswersFor(s: Server, objects: seq<ObjectId>, f: PullFilter, updates: seq<ObjectUpdate>) {
    Answers(s, (set o | o in objects), f, updates)
  }

  lemma AnswersStep(s: Server, objects: seq<ObjectId>, o: ObjectId, f: PullFilter, updates: seq<ObjectUpdate>,
                    heads: seq<Revision>)
    requires AnswersFor(s, objects, f, updates) && o !in objects
    requires ShowsHeads(s, MakeUpdate(o, heads))
    ensures SomeHeadPasses(s, o, f) ==> AnswersFor(s, objects + [o], f, updates + [MakeUpdate(o, heads)])
    ensures !SomeHeadPasses(s, o, f) ==> AnswersFor(s, objects + [o], f, updates)
  {
    hide ShowsHeads, SomeHeadPasses;
    if SomeHeadPasses(s, o, f) {
      var u := MakeUpdate(o, heads);
      var updates' := updates + [u];
      assert updates'[|updates|] == u;
      forall x
        ensures Mentions(updates', x) <==> x in objects + [o] && SomeHeadPasses(s, x, f)
      {
        assert Mentions(updates, x) ==> Mentions(updates', x) by {
          if i :| 0 <= i < |updates| && updates[i].objectId == x {
            assert updates'[i] == updates[i];
          }
        }
      }
      forall i | 0 <= i < |updates|
        ensures updates[i].objectId != o
      {
        assert Mentions(updates, updates[i].objectId);
      }
    }
  }

  lemma {:induction false} UpdatesAnswerPrefix(s: Server, objects: seq<ObjectId>, rows: HeadRows, f: PullFilter, n: nat)
    requires Keyed(s.revs) && NoDuplicates(objects) && n <= |objects|
    requires Lists(HeadsIn(s.heads, objects), rows) && Known(s.revs, rows) && OnceEach(rows)
    ensures AnswersFor(s, objects[..n], f, Updates(objects[..n], rows, s.revs, f))
  {
    hide Keyed, ShowsHeads, SomeHeadPasses, HeadRevs, Lists, OnceEach, AnyPasses;
    if n > 0 {
      hide AnswersFor, Updates;
      var o := objects[n - 1];
      assert o in objects && o !in objects[..n - 1];
      UpdatesAnswerPrefix(s, objects, rows, f, n - 1);
      UpdateShowsHeads(s, objects, rows, o, f);
      assert objects[..n] == objects[..n - 1] + [o];
      UpdatesSnoc(objects[..n - 1], o, rows, s.revs, f);
      AnswersStep(s, objects[..n - 1], o, f, Updates(objects[..n - 1], rows, s.revs, f), HeadRevs(o, rows, s.revs));
    }
  }

  /** The reference form computed from one state answers for that state. */
  lemma UpdatesAnswer(s: Server, changed: set<ObjectId>, objects: seq<ObjectId>, rows: HeadRows, f: PullFilter)
    requires StoreOk(s) && Lists(changed, objects) && Lists(HeadsIn(s.heads, objects), rows)
    ensures Known(s.revs, rows) && OnceEach(rows)
    ensures Answers(s, changed, f, Updates(objects, rows, s.revs, f))
  {
    hide Ordered, Table, IndexOf, ShowsHeads, SomeHeadPasses;
    RowsOnceEach(s, objects, rows);
    StoredByKey(s);
    KeyedAnswer(s, changed, objects, rows, f);
  }

  lemma KeyedAnswer(s: Server, changed: set<ObjectId>, objects: seq<ObjectId>, rows: HeadRows, f: PullFilter)
    requires Lists(changed, objects) && Lists(HeadsIn(s.heads, objects), rows)
    requires Keyed(s.revs) && Known(s.revs, rows) && OnceEach(rows)
    ensures Answers(s, changed, f, Updates(objects, rows, s.revs, f))
  {
    hide ShowsHeads, SomeHeadPasses, Keyed, OnceEach, HeadsIn;
    UpdatesAnswerPrefix(s, objects, rows, f, |objects|);
    assert objects[..|objects|] == objects;
    assert (set o | o in objects) == changed;
  }

  // ---------------------------------------------------------------------------------------
  // Torn reads

  lemma {:induction false} WatermarkBound(txns: seq<Txn>, sequence: nat)
    requires Numbered(txns, sequence)
    ensures MaxId(txns) <= sequence
    ensures forall i :: 0 <= i < |txns| ==> txns[i].id <= MaxId(txns)
  {
    if txns != [] {
      WatermarkBound(txns[..|txns| - 1], sequence);
    }
  }

  lemma WindowStable(s: Server, s': Server, since: nat, upTo: nat, r: RevisionId)
    requires Grows(s, s') && upTo <= s.sequence
    ensures InWindow(s.txns, since, upTo, r) <==> InWindow(s'.txns, since, upTo, r)
  {
    assert forall i :: 0 <= i < |s.txns| ==> s'.txns[i] == s.txns[i];
  }

  /** Later commits do not change what happened up to a watermark. */
  lemma ChangedStable(s: Server, s': Server, client: ClientId, since: nat, upTo: nat)
    requires TxnsOk(s) && Grows(s, s') && upTo <= s.sequence
    ensures Changed(s, client, since, upTo) == Changed(s', client, since, upTo)
  {
    hide Flatten;
    forall r
      ensures InWindow(s.txns, since, upTo, r) <==> InWindow(s'.txns, since, upTo, r)
      ensures InWindow(s.txns, since, upTo, r) ==> r in s.revs && r in s'.revs && s'.revs[r] == s.revs[r]
    {
      WindowStable(s, s', since, upTo, r);
      if i :| 0 <= i < |s.txns| && since < s.txns[i].id <= upTo && r in s.txns[i].revisions {
        assert Authored(s.revs, s.txns[i]);
      }
    }
  }

  /** Two consecutive pulls see together what one pull over both windows would see. */
  lemma ChangedSplits(s: Server, client: ClientId, since: nat, mid: nat, upTo: nat)
    requires since <= mid <= upTo
    ensures Changed(s, client, since, upTo) == Changed(s, client, since, mid) + Changed(s, client, mid, upTo)
  {
    forall r
      ensures InWindow(s.txns, since, upTo, r) <==> InWindow(s.txns, since, mid, r) || InWindow(s.txns, mid, upTo, r)
    {
    }
  }

  ghost predicate Small(g: Graph) {
    forall r :: r in g ==> |g[r].Parents()| <= MAX_PARENTS
  }

  /** `g'` is `g` with the revisions `ids` as they read back. */
  ghost predicate ReadBack(g: Graph, ids: set<RevisionId>, g': Graph) {
    && g'.Keys == g.Keys
    && forall r :: r in g ==> if r in ids then ReadsAs(g[r], g'[r]) else g'[r] == g[r]
  }

  ghost function Reading(g: Graph, ids: set<RevisionId>, m: map<RevisionId, seq<RevisionId>>): Graph {
    map r | r in g :: if r in ids then DecodeRow(EncodeRow(g[r]), ParentsIn(m, r)) else g[r]
  }

  /** The ids of the heads of some objects. */
  ghost function HeadIdsIn(heads: HeadTable, objects: set<ObjectId>): set<RevisionId> {
    set h | h in heads && h.0 in objects :: h.1
  }

  /** An answer for all stores: heads are shown as they read back. */
  ghost predicate AnswersReadBack(s: Server, changed: set<ObjectId>, f: PullFilter, updates: seq<ObjectUpdate>) {
    exists read :: ReadBack(s.revs, HeadIdsIn(s.heads, changed), read) && Answers(s.(revs := read), changed, f, updates)
  }

  lemma RowsAreHeadIds(heads: HeadTable, changed: set<ObjectId>, objects: seq<ObjectId>, rows: HeadRows)
    requires Lists(changed, objects) && Lists(HeadsIn(heads, objects), rows)
    ensures RevIds(rows) == HeadIdsIn(heads, changed)
  {
    forall r | r in HeadIdsIn(heads, changed)
      ensures r in RevIds(rows)
    {
      var h :| h in heads && h.0 in changed && h.1 == r;
      assert h in HeadsIn(heads, objects);
      var i :| 0 <= i < |rows| && rows[i] == h;
    }
    forall r | r in RevIds(rows)
      ensures r in HeadIdsIn(heads, changed)
    {
      var i :| 0 <= i < |rows| && rows[i].1 == r;
      assert rows[i] in rows;
    }
  }

  lemma ChangedIsForeign(s: Server, client: ClientId, since: nat, upTo: nat, o: ObjectId)
    ensures o in Changed(s, client, since, upTo) <==> ForeignChange(s, client, since, upTo, o)
  {
    if ForeignChange(s, client, since, upTo, o) {
      var i, r :| 0 <= i < |s.txns| && since < s.txns[i].id <= upTo && r in s.txns[i].revisions
                  && r in s.revs && s.revs[r].createdBy != client && s.revs[r].objectId == o;
      assert InWindow(s.txns, since, upTo, r);
    }
  }

  /**
    The answer mentions exactly the objects that others have changed, as `s0` knows, and that
    have a head in `s2` that passes the filter.
   */
  ghost predicate MentionsForeign(s0: Server, s2: Server, client: ClientId, since: nat, upTo: nat, f: PullFilter,
                                  updates: seq<ObjectUpdate>) {
    forall o: ObjectId :: Mentions(updates, o) <==>
      && ForeignChange(s0, client, since, upTo, o)
      && exists h :: (o, h) in s2.heads && h in s2.revs && Passes(s2.revs[h], f)
  }

  /** Reading back does not change which heads pass. */
  lemma ReadBackPasses(s: Server, ids: set<RevisionId>, read: Graph, o: ObjectId, f: PullFilter)
    requires ReadBack(s.revs, ids, read)
    ensures SomeHeadPasses(s.(revs := read), o, f) <==>
            exists h :: (o, h) in s.heads && h in s.revs && Passes(s.revs[h], f)
  {
    forall h | h in s.revs
      ensures h in read && (Passes(read[h], f) <==> Passes(s.revs[h], f))
    {
      assert read[h] == s.revs[h].(lineage := read[h].lineage);
    }
    hide Passes;
    if h :| (o, h) in s.heads && h in s.revs && Passes(s.revs[h], f) {
      assert h in HeadsOf(s.heads, o);
    }
  }

  /** Parents read later still are those of the revisions found by the heads query. */
  lemma LateReadsReadBack(s2: Server, s4: Server, ids: set<RevisionId>, prows: seq<ParentRow>,
                          m: map<RevisionId, seq<RevisionId>>)
    requires StoreOk(s2) && StoreOk(s4) && Sub(s2.revs, s4.revs)
    requires BatchQuery(ParentTable(s4.revs), ids, prows) && Groups(m, prows)
    ensures ReadBack(s2.revs, ids, Reading(s2.revs, ids, m))
  {
    hide Ordered, IndexOf, BatchQuery, ReadsAs, ParentTable;
    StoredByKey(s4);
    forall r | r in s2.revs && r in ids
      ensures ReadsAs(s2.revs[r], Reading(s2.revs, ids, m)[r])
    {
      StoredParentsDistinct(s2, r);
      BatchReadsAs(s4.revs, ids, prows, r);
    }
  }

  lemma SmallReadsExactly(g: Graph, ids: set<RevisionId>, g': Graph)
    requires ReadBack(g, ids, g') && Small(g)
    ensures g' == g
  {}

  lemma ReadBackKeyed(g: Graph, ids: set<RevisionId>, g': Graph)
    requires ReadBack(g, ids, g') && Keyed(g)
    ensures Keyed(g')
  {}

  /** Rows read later decode to what the revisions of the heads query read back as. */
  lemma LateRowsDecode(s2: Server, s3: Server, rows: HeadRows, m: map<RevisionId, seq<RevisionId>>)
    requires Keyed(s2.revs) && Sub(s2.revs, s3.revs) && Known(s2.revs, rows)
    ensures Decodes(Reading(s2.revs, RevIds(rows), m), rows, RowsAt(s3.revs, RevIds(rows)), m)
  {
    var g := Reading(s2.revs, RevIds(rows), m);
    forall i | 0 <= i < |rows|
      ensures rows[i].1 in g && DecodesTo(g[rows[i].1], rows[i].1, RowsAt(s3.revs, RevIds(rows)), m)
    {
      assert rows[i].1 in RevIds(rows);
    }
  }

  lemma StoredParentsDistinct(s: Server, r: RevisionId)
    requires StoreOk(s) && r in s.revs
    ensures NoDuplicates(s.revs[r].Parents())
  {
    TableFacts(s.log);
    LogParentsDistinct(s.log, s.revs[r]);
  }

  lemma {:induction false} LogParentsDistinct(log: seq<Revision>, rev: Revision)
    requires Ordered(log) && rev in log
    ensures NoDuplicates(rev.Parents())
  {
    var init, last := log[..|log| - 1], log[|log| - 1];
    if rev != last {
      assert rev in init by { assert log == init + [last]; }
      LogParentsDistinct(init, rev);
    }
  }

  /**
    A pull torn across its five reads, at any five points of any run, answers like one atomic
    read at the heads query, for the objects changed up to the watermark that was read first:
    exactly so while parents are within the bound, and otherwise up to the order of parents.
   */
  lemma TornPullIsAtomic(events: seq<ServerRuns.Event>, n0: nat, n1: nat, n2: nat, n3: nat, n4: nat,
                         client: ClientId, since: nat, objects: seq<ObjectId>, rows: HeadRows,
                         prows: seq<ParentRow>, m: map<RevisionId, seq<RevisionId>>, f: PullFilter)
    requires n0 <= n1 <= n2 <= n3 <= n4 <= |events|
    requires var upTo := MaxId(ServerRuns.After(events[..n0]).server.txns);
             Lists(Changed(ServerRuns.After(events[..n1]).server, client, since, upTo), objects)
    requires Lists(HeadsIn(ServerRuns.After(events[..n2]).server.heads, objects), rows)
    requires BatchQuery(ParentTable(ServerRuns.After(events[..n4]).server.revs), RevIds(rows), prows)
             && Groups(m, prows)
    ensures var upTo := MaxId(ServerRuns.After(events[..n0]).server.txns);
            var s0 := ServerRuns.After(events[..n0]).server;
            var changed := Changed(s0, client, since, upTo);
            var s2 := ServerRuns.After(events[..n2]).server;
            var byId := RowsAt(ServerRuns.After(events[..n3]).server.revs, RevIds(rows));
            var read := Reading(s2.revs, RevIds(rows), m);
            var updates := RowUpdates(objects, rows, byId, m, f);
            && ReadBack(s2.revs, RevIds(rows), read) && Known(read, rows)
            && updates == Updates(objects, rows, read, f)
            && Answers(s2.(revs := read), changed, f, updates)
            && (Small(s2.revs) ==> read == s2.revs && Answers(s2, changed, f, updates))
            && MentionsForeign(s0, s2, client, since, upTo, f, updates)
  {
    hide ServerRuns.After, Grows, Answers, RowUpdates, Updates, Groups, BatchQuery, ParentTable, Changed, Lists,
      ServerOk, ReadBack, Reading, RevIds, RowsAt;
    var s0, s1, s2 := ServerAt(events, n0), ServerAt(events, n1), ServerAt(events, n2);
    var s3, s4 := ServerAt(events, n3), ServerAt(events, n4);
    ServerRuns.RunGrows(events, n0, n1);
    ServerRuns.RunGrows(events, n1, n2);
    ServerRuns.RunGrows(events, n2, n3);
    ServerRuns.RunGrows(events, n3, n4);
    TornReads(s0, s1, s2, s3, s4, client, since, objects, rows, prows, m, f);
  }

  /** The server after the first `n` events of a run. */
  ghost function ServerAt(events: seq<ServerRuns.Event>, n: nat): (s: Server)
    requires n <= |events|
    ensures ServerOk(s)
  {
    ServerRuns.AfterInv(events[..n]);
    ServerRuns.After(events[..n]).server
  }

  lemma TornReads(s0: Server, s1: Server, s2: Server, s3: Server, s4: Server, client: ClientId, since: nat,
                  objects: seq<ObjectId>, rows: HeadRows, prows: seq<ParentRow>,
                  m: map<RevisionId, seq<RevisionId>>, f: PullFilter)
    requires ServerOk(s0) && ServerOk(s1) && ServerOk(s2) && ServerOk(s3) && ServerOk(s4)
    requires Grows(s0, s1) && Grows(s1, s2) && Grows(s2, s3) && Grows(s3, s4)
    requires Lists(Changed(s1, client, since, MaxId(s0.txns)), objects)
    requires Lists(HeadsIn(s2.heads, objects), rows)
    requires BatchQuery(ParentTable(s4.revs), RevIds(rows), prows) && Groups(m, prows)
    ensures var changed := Changed(s0, client, since, MaxId(s0.txns));
            var updates := RowUpdates(objects, rows, RowsAt(s3.revs, RevIds(rows)), m, f);
            var read := Reading(s2.revs, RevIds(rows), m);
            && ReadBack(s2.revs, RevIds(rows), read) && Known(read, rows)
            && updates == Updates(objects, rows, read, f)
            && Answers(s2.(revs := read), changed, f, updates)
            && (Small(s2.revs) ==> read == s2.revs && Answers(s2, changed, f, updates))
            && MentionsForeign(s0, s2, client, since, MaxId(s0.txns), f, updates)
  {
    hide Ordered, Table, IndexOf, Flatten, BatchQuery, Answers, RowUpdates, Updates, Groups, RowsAt, Reading, Lists,
      ParentTable, Decodes, ReadsAs, Changed, OnceEach;
    var upTo := MaxId(s0.txns);
    WatermarkBound(s0.txns, s0.sequence);
    ChangedStable(s0, s1, client, since, upTo);
    StoredByKey(s2);
    RowsOnceEach(s2, objects, rows);
    LateReadsReadBack(s2, s4, RevIds(rows), prows, m);
    LateRowsDecode(s2, s3, rows, m);
    var read := Reading(s2.revs, RevIds(rows), m);
    ReadBackKeyed(s2.revs, RevIds(rows), read);
    KeyedAnswer(s2.(revs := read), Changed(s1, client, since, upTo), objects, rows, f);
    RowsRefine(objects, rows, read, RowsAt(s3.revs, RevIds(rows)), m, f);
    if Small(s2.revs) {
      SmallReadsExactly(s2.revs, RevIds(rows), read);
    }
    AnswerMentions(s0, s2, RevIds(rows), read, client, since, upTo, f,
                   RowUpdates(objects, rows, RowsAt(s3.revs, RevIds(rows)), m, f));
  }

  lemma AnswerMentions(s0: Server, s2: Server, ids: set<RevisionId>, read: Graph, client: ClientId, since: nat,
                       upTo: nat, f: PullFilter, updates: seq<ObjectUpdate>)
    requires ReadBack(s2.revs, ids, read)
    requires Answers(s2.(revs := read), Changed(s0, client, since, upTo), f, updates)
    ensures MentionsForeign(s0, s2, client, since, upTo, f, updates)
  {
    hide Changed, ForeignChange, SomeHeadPasses, Mentions, ReadBack, Passes, ShowsHeads;
    forall o: ObjectId
      ensures Mentions(updates, o) <==>
              && ForeignChange(s0, client, since, upTo, o)
              && exists h :: (o, h) in s2.heads && h in s2.revs && Passes(s2.revs[h], f)
    {
      ChangedIsForeign(s0, client, since, upTo, o);
      ReadBackPasses(s2, ids, read, o, f);
    }
  }

  /** Nobody but `client` has pushed after `since`. */
  ghost predicate OnlyOwn(s: Server, client: ClientId, since: nat) {
    forall i :: 0 <= i < |s.txns| && since < s.txns[i].id ==> s.txns[i].client == client
  }

  /** A client that alone has pushed since its cursor gets an empty answer. */
  lemma OwnPushesAreNotEchoed(s0: Server, s2: Server, client: ClientId, since: nat, upTo: nat, f: PullFilter,
                              updates: seq<ObjectUpdate>)
    requires TxnsOk(s0) && OnlyOwn(s0, client, since)
    requires MentionsForeign(s0, s2, client, since, upTo, f, updates)
    ensures updates == []
  {
    hide Flatten, Passes;
    assert |updates| > 0 ==> Mentions(updates, updates[0].objectId);
    assert forall i :: 0 <= i < |s0.txns| ==> Authored(s0.revs, s0.txns[i]);
  }

  // ---------------------------------------------------------------------------------------
  // Filters

  ghost predicate Subsequence<T(!new)>(a: seq<T>, b: seq<T>) {
    a == [] ||
    (b != [] &&
     (Subsequence(a, b[..|b| - 1]) ||
      (a[|a| - 1] == b[|b| - 1] && Subsequence(a[..|a| - 1], b[..|b| - 1]))))
  }

  lemma SubsequenceSnoc<T(!new)>(a: seq<T>, b: seq<T>, x: T)
    requires Subsequence(a, b)
    ensures Subsequence(a, b + [x]) && Subsequence(a + [x], b + [x])
  {
    assert (b + [x])[..|b|] == b && (a + [x])[..|a|] == a;
  }

  /** A narrower filter only drops whole updates; those it keeps are the same in every detail. */
  lemma {:induction false} FilterIsMonotone(objects: seq<ObjectId>, rows: HeadRows, g: Graph, f: PullFilter,
                                            f': PullFilter)
    requires Known(g, rows) && Implies(f, f')
    ensures Subsequence(Updates(objects, rows, g, f), Updates(objects, rows, g, f'))
  {
    if objects != [] {
      var init, o := objects[..|objects| - 1], objects[|objects| - 1];
      assert objects == init + [o];
      FilterIsMonotone(init, rows, g, f, f');
      UpdatesSnoc(init, o, rows, g, f);
      UpdatesSnoc(init, o, rows, g, f');
      var heads := HeadRevs(o, rows, g);
      hide Subsequence, Updates, HeadRevs, Passes, Implies;
      SubsequenceSnoc(Updates(init, rows, g, f), Updates(init, rows, g, f'), MakeUpdate(o, heads));
      AnyPassesMono(heads, f, f');
    }
  }

  lemma AnyPassesMono(heads: seq<Revision>, f: PullFilter, f': PullFilter)
    requires Implies(f, f')
    ensures AnyPasses(heads, f) ==> AnyPasses(heads, f')
  {
    hide Passes;
    if i :| 0 <= i < |heads| && Passes(heads[i], f) {
      assert Passes(heads[i], f');
    }
  }

  /** A deleted head that meets the other criteria passes every content filter, and all heads are shown. */
  lemma TombstonesSurvive(o: ObjectId, rows: HeadRows, g: Graph, f: PullFilter, r: RevisionId)
    requires Known(g, rows) && (o, r) in rows && g[r].content.Deleted? && Passes(g[r], f.(content := None))
    ensures UpdateFor(o, rows, g, f) == [MakeUpdate(o, HeadRevs(o, rows, g))]
    ensures forall groups :: UpdateFor(o, rows, g, f.(content := groups)) == UpdateFor(o, rows, g, f)
  {
    HeadIdsMember(rows, o, r);
    var heads := HeadRevs(o, rows, g);
    var i :| 0 <= i < |HeadIdsOf(rows, o)| && HeadIdsOf(rows, o)[i] == r;
    assert heads[i] == g[r];
    assert Passes(heads[i], f);
    forall groups
      ensures AnyPasses(heads, f.(content := groups))
    {
      assert Passes(heads[i], f.(content := groups));
    }
  }
}
