/**
  The server's tables and the statements that work on them.  The class stores rows; its ghost
  state is the revision graph they encode, and every method is proved against the value model.
 */
module ServerDb {
  import opened Core
  import opened Dag
  import opened HeadIndex
  import opened Push
  import ServerRuns
  import opened Codec
  import opened Filter
  import opened Pull

  datatype PushResult = Rollback | Answer(response: PushResponse)

  datatype PullResult = OutOfRange | Pulled(upTo: nat, updates: seq<ObjectUpdate>)

  const I64_MAX := 0x7FFF_FFFF_FFFF_FFFF

  ghost function RowTable(g: Graph): map<RevisionId, RevisionRow> {
    map r | r in g :: EncodeRow(g[r])
  }

  /** The first `n` parent rows of a revision. */
  ghost function FirstParentRows(rev: Revision, n: nat): set<ParentRow>
    requires n <= |rev.Parents()|
  {
    set i | 0 <= i < n :: ParentRow(rev.id, rev.Parents()[i], Wrap16(i))
  }

  lemma FirstParentRowsStep(rev: Revision, n: nat)
    requires n < |rev.Parents()|
    ensures FirstParentRows(rev, n + 1) == FirstParentRows(rev, n) + {ParentRow(rev.id, rev.Parents()[n], Wrap16(n))}
  {}

  lemma NoRowsYet(rev: Revision)
    ensures FirstParentRows(rev, 0) == {} && NoDuplicates(rev.Parents()[..0])
  {}

  lemma AllParentRows(rev: Revision)
    ensures FirstParentRows(rev, |rev.Parents()|) == ParentRowsOf(rev)
  {}

  /** The pair key is taken exactly if the parent occurred before. */
  lemma PairTaken(table: set<ParentRow>, rev: Revision, n: nat)
    requires n < |rev.Parents()| && forall row :: row in table ==> row.revisionId != rev.id
    ensures (exists row :: row in table + FirstParentRows(rev, n) && row.revisionId == rev.id
                           && row.parentId == rev.Parents()[n]) <==>
            rev.Parents()[n] in rev.Parents()[..n]
  {
    if rev.Parents()[n] in rev.Parents()[..n] {
      var i :| 0 <= i < n && rev.Parents()[i] == rev.Parents()[n];
      assert ParentRow(rev.id, rev.Parents()[i], Wrap16(i)) in FirstParentRows(rev, n);
    }
  }

  lemma RepeatedParent(parents: seq<RevisionId>, n: nat)
    requires n < |parents| && NoDuplicates(parents[..n])
    ensures parents[n] in parents[..n] ==> !NoDuplicates(parents)
    ensures parents[n] !in parents[..n] ==> NoDuplicates(parents[..n + 1])
  {
    assert parents[..n + 1] == parents[..n] + [parents[n]];
    if parents[n] in parents[..n] {
      var i :| 0 <= i < n && parents[i] == parents[n];
    }
  }

  lemma ParentTableStep(g: Graph, rev: Revision)
    requires Keyed(g) && rev.id !in g
    ensures ParentTable(g[rev.id := rev]) == ParentTable(g) + ParentRowsOf(rev)
    ensures forall row :: row in ParentTable(g) ==> row.revisionId != rev.id
  {
    hide ParentRowsOf;
    var g' := g[rev.id := rev];
    forall row
      ensures row in ParentTable(g') <==> row in ParentTable(g) || row in ParentRowsOf(rev)
    {
      if row in ParentTable(g') {
        var r :| r in g' && row in ParentRowsOf(g'[r]);
        if r != rev.id {
          assert r in g && row in ParentRowsOf(g[r]);
        }
      }
      if row in ParentTable(g) {
        var r :| r in g && row in ParentRowsOf(g[r]);
        assert r in g' && row in ParentRowsOf(g'[r]);
      }
      if row in ParentRowsOf(rev) {
        assert rev.id in g' && row in ParentRowsOf(g'[rev.id]);
      }
    }
    forall row | row in ParentTable(g)
      ensures row.revisionId != rev.id
    {
      var r :| r in g && row in ParentRowsOf(g[r]);
      RowsBelong(g[r], row);
    }
  }

  lemma RowsBelong(rev: Revision, row: ParentRow)
    requires row in ParentRowsOf(rev)
    ensures row.revisionId == rev.id
  {}

  // ---------------------------------------------------------------------------------------
  // Bookkeeping of the validation loop

  /** The lists, the id set and the map the loop grows, for the verdicts reached so far. */
  ghost predicate Tracks(run: PushRun, accepted: seq<RevisionId>, rejected: seq<RejectedRevision>,
                         acceptedIds: set<RevisionId>, objects: map<RevisionId, ObjectId>)
  {
    && run.Valid()
    && accepted == Ids(run.AcceptedRevs())
    && rejected == run.RejectedRevs()
    && acceptedIds == IdSet(run.AcceptedRevs())
    && TracksObjects(run.AcceptedRevs(), objects)
  }

  ghost predicate TracksObjects(accepted: seq<Revision>, objects: map<RevisionId, ObjectId>) {
    forall p :: ObjectOf(accepted, p) == if p in objects then Some(objects[p]) else None
  }

  lemma TrackRejection(run: PushRun, reason: Reason, accepted: seq<RevisionId>, rejected: seq<RejectedRevision>,
                       acceptedIds: set<RevisionId>, objects: map<RevisionId, ObjectId>)
    requires Tracks(run, accepted, rejected, acceptedIds, objects) && !run.Done()
    ensures Tracks(run.Decide(Rejected(reason)), accepted,
                   rejected + [RejectedRevision(run.batch[|run.verdicts|].id, reason)], acceptedIds, objects)
  {
    hide AcceptedOf, RejectedOf;
    AcceptedStep(run, Rejected(reason));
  }

  lemma TrackAcceptance(run: PushRun, accepted: seq<RevisionId>, rejected: seq<RejectedRevision>,
                        acceptedIds: set<RevisionId>, objects: map<RevisionId, ObjectId>)
    requires Tracks(run, accepted, rejected, acceptedIds, objects) && !run.Done()
    ensures var rev := run.batch[|run.verdicts|];
            Tracks(run.Decide(Accepted), accepted + [rev.id], rejected, acceptedIds + {rev.id},
                   objects[rev.id := rev.objectId])
  {
    hide AcceptedOf, RejectedOf;
    var rev := run.batch[|run.verdicts|];
    var before := run.AcceptedRevs();
    AcceptedStep(run, Accepted);
    assert Ids(before + [rev]) == Ids(before) + [rev.id];
    IdSetSnoc(before, rev);
    forall p
      ensures ObjectOf(before + [rev], p) == if p == rev.id then Some(rev.objectId) else ObjectOf(before, p)
    {
      assert (before + [rev])[..|before|] == before;
    }
  }

  lemma IdSetSnoc(revs: seq<Revision>, rev: Revision)
    ensures IdSet(revs + [rev]) == IdSet(revs) + {rev.id}
  {
    forall r
      ensures r in IdSet(revs + [rev]) <==> r in IdSet(revs) || r == rev.id
    {
      if i :| 0 <= i < |revs| && revs[i].id == r {
        assert (revs + [rev])[i].id == r;
      }
      assert (revs + [rev])[|revs|].id == rev.id;
    }
  }

  /** Comparing the sizes of a list and of its set finds repetitions. */
  lemma {:induction false} SizesDiffer(s: seq<RevisionId>)
    ensures |SetOf(s)| <= |s|
    ensures |SetOf(s)| == |s| <==> NoDuplicates(s)
  {
    if s != [] {
      var init, last := s[..|s| - 1], s[|s| - 1];
      SizesDiffer(init);
      assert s == init + [last];
      assert SetOf(s) == SetOf(init) + {last};
      if last in init {
        assert SetOf(s) == SetOf(init);
        var i :| 0 <= i < |init| && init[i] == last;
        assert s[i] == s[|init|];
      } else {
        assert NoDuplicates(s) <==> NoDuplicates(init) by {
          assert forall i :: 0 <= i < |init| ==> s[i] == init[i];
        }
      }
    }
  }

  lemma SelectSnoc(batch: seq<Revision>, rev: Revision, ids: set<RevisionId>)
    ensures Select(batch + [rev], ids) == if rev.id in ids then Select(batch, ids) + [rev] else Select(batch, ids)
  {
    assert (batch + [rev])[..|batch|] == batch;
  }

  method SelectAccepted(batch: seq<Revision>, ids: set<RevisionId>) returns (selected: seq<Revision>)
    ensures selected == Select(batch, ids)
  {
    selected := [];
    for i := 0 to |batch|
      invariant selected == Select(batch[..i], ids)
    {
      assert batch[..i + 1] == batch[..i] + [batch[i]];
      SelectSnoc(batch[..i], batch[i], ids);
      if batch[i].id in ids {
        selected := selected + [batch[i]];
      }
    }
    assert batch[..|batch|] == batch;
  }

  // ---------------------------------------------------------------------------------------
  // Unordered and ordered query results

  method ListOf<T(==, !new)>(s: set<T>) returns (result: seq<T>)
    ensures Lists(s, result)
  {
    result := [];
    var left := s;
    while left != {}
      invariant NoDuplicates(result)
      invariant forall x :: x in s <==> x in result || x in left
      invariant forall x :: x in result ==> x !in left
      decreases |left|
    {
      var x :| x in left;
      left := left - {x};
      result := result + [x];
    }
  }

  predicate RowBefore(a: ParentRow, b: ParentRow) {
    a.revisionId < b.revisionId || (a.revisionId == b.revisionId && a.position <= b.position)
  }

  lemma {:induction false} FirstRowExists(s: set<ParentRow>)
    requires s != {}
    ensures exists row :: row in s && forall x :: x in s ==> RowBefore(row, x)
  {
    var a :| a in s;
    var rest := s - {a};
    assert forall x :: x in s ==> x == a || x in rest;
    if rest == {} {
      assert RowBefore(a, a);
    } else {
      FirstRowExists(rest);
      var b :| b in rest && forall x :: x in rest ==> RowBefore(b, x);
      if RowBefore(a, b) {
        assert forall x :: x in s ==> RowBefore(a, x);
      } else {
        assert RowBefore(b, a);
        assert b in s && forall x :: x in s ==> RowBefore(b, x);
      }
    }
  }

  method OrderRows(s: set<ParentRow>) returns (result: seq<ParentRow>)
    ensures Lists(s, result) && SortedByRevision(result)
  {
    result := [];
    var left := s;
    while left != {}
      invariant NoDuplicates(result) && SortedByRevision(result)
      invariant forall x :: x in s <==> x in result || x in left
      invariant forall x :: x in result ==> x !in left
      invariant forall i, x :: 0 <= i < |result| && x in left ==> RowBefore(result[i], x)
      decreases |left|
    {
      FirstRowExists(left);
      var row :| row in left && forall x :: x in left ==> RowBefore(row, x);
      left := left - {row};
      result := result + [row];
    }
  }

  // ---------------------------------------------------------------------------------------

  class Database {
    var rows: map<RevisionId, RevisionRow>
    var parentRows: set<ParentRow>
    var heads: HeadTable
    var txns: seq<Txn>
    var sequence: nat
    ghost var revs: Graph
    ghost var log: seq<Revision>

    ghost function State(): Server
      reads this
    {
      Server(revs, log, heads, txns, sequence)
    }

    ghost predicate Encodes()
      reads this
    {
      Keyed(revs) && rows == RowTable(revs) && parentRows == ParentTable(revs)
    }

    ghost predicate Valid()
      reads this
    {
      Encodes() && ServerOk(State())
    }

    constructor ()
      ensures Valid() && State() == EMPTY
    {
      rows, parentRows, heads, txns, sequence, revs, log := map[], {}, {}, [], 0, map[], [];
    }

    /** Row and parent rows of one revision; false on a violated constraint, for the caller to roll back. */
    method InsertRevision(rev: Revision) returns (ok: bool)
      requires Encodes()
      modifies this`rows, this`parentRows, this`revs, this`log
      ensures ok <==> Insert(old(State()), rev).Some?
      ensures ok ==> Encodes() && State() == Insert(old(State()), rev).value.(heads := old(heads))
      ensures !ok ==> State() == old(State())
    {
      ParentRowsFresh(rev);
      if rev.id in rows {
        return false;
      }
      hide ParentTable, ParentRowsOf, NoDuplicates;
      rows := rows[rev.id := EncodeRow(rev)];
      ok := InsertParents(rev);
      if ok {
        ParentTableStep(revs, rev);
        revs, log := revs[rev.id := rev], log + [rev];
      }
    }

    /** One positioned row per parent, each checked against the foreign key and the pair key. */
    method InsertParents(rev: Revision) returns (ok: bool)
      requires forall row :: row in parentRows ==> row.revisionId != rev.id
      modifies this`parentRows
      ensures ok <==> (forall p :: p in rev.Parents() ==> p in rows) && NoDuplicates(rev.Parents())
      ensures ok ==> parentRows == old(parentRows) + ParentRowsOf(rev)
    {
      hide ParentRowsOf, FirstParentRows, NoDuplicates;
      var parents := rev.Parents();
      NoRowsYet(rev);
      for pos := 0 to |parents|
        invariant parentRows == old(parentRows) + FirstParentRows(rev, pos)
        invariant forall i :: 0 <= i < pos ==> parents[i] in rows
        invariant NoDuplicates(parents[..pos])
      {
        var p := parents[pos];
        assert p in parents;
        PairTaken(old(parentRows), rev, pos);
        RepeatedParent(parents, pos);
        if p !in rows {
          return false;
        }
        if exists row :: row in parentRows && row.revisionId == rev.id && row.parentId == p {
          return false;
        }
        FirstParentRowsStep(rev, pos);
        parentRows := parentRows + {ParentRow(rev.id, p, Wrap16(pos))};
      }
      assert parents[..|parents|] == parents;
      AllParentRows(rev);
      return true;
    }

    lemma ParentRowsFresh(rev: Revision)
      requires Encodes()
      ensures rev.id !in revs ==> forall row :: row in parentRows ==> row.revisionId != rev.id
    {
      if rev.id !in revs {
        ParentTableStep(revs, rev);
      }
    }

    method UpdateObjectHeads(objectId: ObjectId, parents: seq<RevisionId>, id: RevisionId)
      modifies this`heads
      ensures heads == UpdateHeads(old(heads), objectId, parents, id)
    {
      if parents != [] {
        heads := set h | h in heads && !(h.0 == objectId && h.1 in parents);
      }
      heads := heads + {(objectId, id)};
    }

    /** A new id from the sequence, then one membership row per revision. */
    method InsertTransaction(client: ClientId, ids: seq<RevisionId>) returns (ok: bool, id: nat)
      requires Encodes()
      modifies this`txns, this`sequence
      ensures ok <==> CreateTransaction(old(State()), client, ids).Some?
      ensures ok ==> State() == CreateTransaction(old(State()), client, ids).value && id == sequence
      ensures !ok ==> txns == old(txns)
      ensures sequence == old(sequence) + 1
    {
      sequence := sequence + 1;
      id := sequence;
      var listed := [];
      for i := 0 to |ids|
        invariant listed == ids[..i] && NoDuplicates(listed)
        invariant forall j :: 0 <= j < i ==> ids[j] in rows
      {
        var r := ids[i];
        assert r in ids;
        if r !in rows {
          return false, id;
        }
        if r in listed {
          var j :| 0 <= j < |listed| && listed[j] == r;
          assert ids[j] == ids[i];
          return false, id;
        }
        listed := listed + [r];
      }
      assert listed == ids;
      txns := txns + [Txn(id, client, listed)];
      ok := true;
    }

    /** The validation loops of a push, with no commit in between. */
    method ValidateBatch(client: ClientId, batch: seq<Revision>)
      returns (accepted: seq<RevisionId>, rejected: seq<RejectedRevision>, acceptedIds: set<RevisionId>)
      requires Encodes()
      ensures var run := Validate(revs, Start(client, batch));
              accepted == Ids(run.AcceptedRevs()) && rejected == run.RejectedRevs()
              && acceptedIds == IdSet(run.AcceptedRevs())
    {
      accepted, rejected, acceptedIds := [], [], {};
      var objects: map<RevisionId, ObjectId> := map[];
      ghost var run := Start(client, batch);
      for i := 0 to |batch|
        invariant Tracks(run, accepted, rejected, acceptedIds, objects)
        invariant run.client == client && run.batch == batch && |run.verdicts| == i && run.checking.None?
        invariant Validate(revs, run) == Validate(revs, Start(client, batch))
      {
        var rev := batch[i];
        var parents := rev.Parents();
        SizesDiffer(parents);
        if rev.createdBy != client {
          TrackRejection(run, MalformedData, accepted, rejected, acceptedIds, objects);
          run := Query(revs, run);
          rejected := rejected + [RejectedRevision(rev.id, MalformedData)];
        } else if rev.id in rows {
          TrackRejection(run, DuplicateRevisionId, accepted, rejected, acceptedIds, objects);
          run := Query(revs, run);
          rejected := rejected + [RejectedRevision(rev.id, DuplicateRevisionId)];
        } else if |SetOf(parents)| != |parents| {
          TrackRejection(run, MalformedData, accepted, rejected, acceptedIds, objects);
          run := Query(revs, run);
          rejected := rejected + [RejectedRevision(rev.id, MalformedData)];
        } else {
          run := Query(revs, run);
          var reason := CheckParents(rev, objects, run);
          ghost var checked := Checked(revs, run);
          if reason.Some? {
            TrackRejection(run, reason.value, accepted, rejected, acceptedIds, objects);
            run := checked;
            rejected := rejected + [RejectedRevision(rev.id, reason.value)];
          } else {
            TrackAcceptance(run, accepted, rejected, acceptedIds, objects);
            run := checked;
            acceptedIds := acceptedIds + {rev.id};
            objects := objects[rev.id := rev.objectId];
            accepted := accepted + [rev.id];
          }
        }
      }
    }

    /** The inner loop over the parents of one revision. */
    method CheckParents(rev: Revision, objects: map<RevisionId, ObjectId>, ghost run: PushRun)
      returns (reason: Option<Reason>)
      requires Encodes() && run.Valid() && !run.Done() && run.checking == Some(0) && rev == run.batch[|run.verdicts|]
      requires TracksObjects(run.AcceptedRevs(), objects)
      ensures Checked(revs, run) == run.Decide(if reason.Some? then Rejected(reason.value) else Accepted)
      ensures Validate(revs, run) == Validate(revs, Checked(revs, run))
    {
      var parents := rev.Parents();
      ghost var at := run;
      for j := 0 to |parents|
        invariant at == run.(checking := Some(j))
        invariant Checked(revs, at) == Checked(revs, run) && Validate(revs, at) == Validate(revs, run)
      {
        var p := parents[j];
        assert ObjectOf(run.AcceptedRevs(), p) == if p in objects then Some(objects[p]) else None;
        var found := if p in objects then Some(objects[p]) else if p in rows then Some(rows[p].objectId) else None;
        assert found == LookupParent(revs, run.AcceptedRevs(), p);
        if found.None? {
          return Some(UnknownParent);
        }
        if found.value != rev.objectId {
          return Some(MalformedData);
        }
        at := Query(revs, at);
      }
      return None;
    }

    /** The transaction of a push: inserts, heads and membership, or everything rolled back. */
    method CommitBatch(client: ClientId, batch: seq<Revision>, accepted: seq<RevisionId>, acceptedIds: set<RevisionId>,
                       ghost run: PushRun)
      returns (ok: bool, id: nat)
      requires Encodes() && run.Valid() && run.Done() && run.batch == batch && run.client == client
      requires accepted == Ids(run.AcceptedRevs()) && acceptedIds == IdSet(run.AcceptedRevs())
      modifies this
      ensures Encodes()
      ensures ok <==> Commit(old(State()), run).Committed?
      ensures ok ==> Commit(old(State()), run) == Committed(State(), id)
      ensures !ok ==> State() == old(State()).(sequence := sequence) && sequence >= old(sequence)
    {
      id := 0;
      var selected := SelectAccepted(batch, acceptedIds);
      if selected == [] {
        return true, 0;
      }
      var rows0, parentRows0, heads0, txns0 := rows, parentRows, heads, txns;
      ghost var revs0, log0 := revs, log;
      ok := InsertSelected(selected);
      if ok {
        ok, id := InsertTransaction(client, accepted);
      }
      if !ok {
        rows, parentRows, heads, txns := rows0, parentRows0, heads0, txns0;
        revs, log := revs0, log0;
      }
    }

    method InsertSelected(selected: seq<Revision>) returns (ok: bool)
      requires Encodes()
      modifies this`rows, this`parentRows, this`heads, this`revs, this`log
      ensures ok <==> InsertAll(old(State()), selected).Some?
      ensures ok ==> Encodes() && State() == InsertAll(old(State()), selected).value
    {
      for i := 0 to |selected|
        invariant Encodes() && InsertAll(old(State()), selected[..i]) == Some(State())
      {
        var rev := selected[i];
        assert selected[..i + 1][..i] == selected[..i];
        ghost var before := State();
        ok := InsertRevision(rev);
        if !ok {
          assert InsertAll(old(State()), selected[..i + 1]).None?;
          InsertAllPrefixFails(old(State()), selected, i + 1);
          return;
        }
        UpdateObjectHeads(rev.objectId, rev.Parents(), rev.id);
        assert State() == Insert(before, rev).value;
      }
      assert selected[..|selected|] == selected;
      ok := true;
    }

    /** A push with no other commit in between validation and transaction. */
    method PushRevisions(client: ClientId, batch: seq<Revision>) returns (r: PushResult)
      requires Valid()
      modifies this
      ensures Valid()
      ensures var run := Validate(old(revs), Start(client, batch));
              match Commit(old(State()), run)
              case Failed => r == Rollback && State() == old(State()).(sequence := sequence)
                             && sequence >= old(sequence)
              case Committed(s', id) =>
                State() == s' && r == Answer(PushResponse(id, Ids(run.AcceptedRevs()), run.RejectedRevs()))
    {
      hide Validate, Commit, ServerOk, AcceptedOf, RejectedOf;
      ghost var run := Validate(revs, Start(client, batch));
      ghost var before := State();
      var accepted, rejected, acceptedIds := ValidateBatch(client, batch);
      var ok, id := CommitBatch(client, batch, accepted, acceptedIds, run);
      PushKeepsOk(before, client, batch);
      if ok {
        r := Answer(PushResponse(id, accepted, rejected));
      } else {
        SequenceMoves(before, sequence);
        r := Rollback;
      }
    }

    /** A pull with all reads at one moment. */
    method PullChanges(client: ClientId, since: Option<nat>, f: PullFilter) returns (r: PullResult)
      requires Valid()
      ensures r.OutOfRange? <==> since.Some? && since.value > I64_MAX
      ensures r.Pulled? ==> r.upTo == MaxId(txns)
      ensures r.Pulled? ==>
                var changed := Changed(State(), client, if since.Some? then since.value else 0, r.upTo);
                && AnswersReadBack(State(), changed, f, r.updates)
                && (Small(revs) ==> Answers(State(), changed, f, r.updates))
      ensures r.Pulled? ==>
                var from := if since.Some? then since.value else 0;
                && MentionsForeign(State(), State(), client, from, r.upTo, f, r.updates)
                && (OnlyOwn(State(), client, from) ==> r.updates == [])
    {
      hide ServerOk, Answers, AnswersReadBack, MentionsForeign, ForeignChange, OnlyOwn, Changed, Lists, BatchQuery,
        RowUpdates, Groups, Updates;
      if since.Some? && since.value > I64_MAX {
        return OutOfRange;
      }
      var sinceId := if since.Some? then since.value else 0;
      var upTo := LatestTransactionId();
      var objects := QueryChanged(client, sinceId, upTo);
      var headRows := ListOf(set h | h in heads && h.0 in objects);
      assert (set h | h in heads && h.0 in objects) == HeadsIn(heads, objects);
      HeadRowsUsable(State(), Changed(State(), client, sinceId, upTo), objects, headRows);
      var ids := RevIds(headRows);
      var byId := map x | x in ids && x in rows :: rows[x];
      assert byId == RowsAt(revs, ids);
      var ordered := OrderRows(set row | row in parentRows && row.revisionId in ids);
      assert BatchQuery(ParentTable(revs), ids, ordered) by { IsBatchQuery(parentRows, ids, ordered); }
      var parents := GetParentsBatch(ordered);
      var updates := FetchObjectUpdates(objects, headRows, byId, parents, f);
      QuietPull(State(), client, sinceId, objects, headRows, ordered, parents, f);
      return Pulled(upTo, updates);
    }

    method LatestTransactionId() returns (m: nat)
      ensures m == MaxId(txns)
      ensures forall i :: 0 <= i < |txns| ==> txns[i].id <= m
      ensures m == 0 || exists i :: 0 <= i < |txns| && txns[i].id == m
    {
      m := 0;
      for i := 0 to |txns|
        invariant m == MaxId(txns[..i])
        invariant forall j :: 0 <= j < i ==> txns[j].id <= m
        invariant m == 0 || exists j :: 0 <= j < i && txns[j].id == m
      {
        assert txns[..i + 1][..i] == txns[..i];
        if m < txns[i].id {
          m := txns[i].id;
        }
      }
      assert txns[..|txns|] == txns;
    }

    method QueryChanged(client: ClientId, since: nat, upTo: nat) returns (objects: seq<ObjectId>)
      requires Encodes()
      ensures Lists(Changed(State(), client, since, upTo), objects)
      ensures NoDuplicates(objects)
      ensures forall o :: o in objects <==> ForeignChange(State(), client, since, upTo, o)
    {
      var found := set i, r | 0 <= i < |txns| && r in txns[i].revisions && since < txns[i].id <= upTo
                              && r in rows && rows[r].createdBy != client :: rows[r].objectId;
      assert found == Changed(State(), client, since, upTo) by {
        assert forall r :: r in rows ==> rows[r].createdBy == revs[r].createdBy && rows[r].objectId == revs[r].objectId;
        forall o
          ensures o in found <==> o in Changed(State(), client, since, upTo)
        {
          if o in found {
            var i, r :| 0 <= i < |txns| && r in txns[i].revisions && since < txns[i].id <= upTo
                        && r in rows && rows[r].createdBy != client && o == rows[r].objectId;
            assert InWindow(txns, since, upTo, r);
          }
          if o in Changed(State(), client, since, upTo) {
            var r :| r in revs && InWindow(txns, since, upTo, r) && revs[r].createdBy != client
              && o == revs[r].objectId;
            var i :| 0 <= i < |txns| && since < txns[i].id <= upTo && r in txns[i].revisions;
            assert rows[r].objectId in found;
          }
        }
      }
      objects := ListOf(found);
      forall o
        ensures o in objects <==> ForeignChange(State(), client, since, upTo, o)
      {
        ChangedIsForeign(State(), client, since, upTo, o);
      }
    }
  }

  // ---------------------------------------------------------------------------------------

  /** The verdict on the revision whose parents are being checked. */
  ghost function Checked(g: Graph, run: PushRun): PushRun
    requires run.Valid() && !run.Done() && run.checking.Some?
    decreases run.Remaining()
  {
    var next := Query(g, run);
    if |next.verdicts| > |run.verdicts| then next else Checked(g, next)
  }

  lemma {:induction false} InsertAllPrefixFails(s: Server, revs: seq<Revision>, n: nat)
    requires n <= |revs| && InsertAll(s, revs[..n]).None?
    ensures InsertAll(s, revs).None?
    decreases |revs|
  {
    if n == |revs| {
      assert revs[..n] == revs;
    } else {
      assert revs[..|revs| - 1][..n] == revs[..n];
      InsertAllPrefixFails(s, revs[..|revs| - 1], n);
    }
  }

  lemma PushKeepsOk(s: Server, client: ClientId, batch: seq<Revision>)
    requires ServerOk(s)
    ensures var run := Validate(s.revs, Start(client, batch));
            Commit(s, run).Committed? ==> ServerOk(Commit(s, run).server)
  {
    hide Ordered, Table, IndexOf, Commit, TxnsOk;
    var run := Validate(s.revs, Start(client, batch));
    ValidateOk(s.revs, Start(client, batch));
    if Commit(s, run).Committed? {
      hide Validate;
      CommitExact(s, run);
    }
  }

  lemma SequenceMoves(s: Server, sequence: nat)
    requires ServerOk(s) && sequence >= s.sequence
    ensures ServerOk(s.(sequence := sequence))
  {
    hide Ordered, Table, IndexOf, Flatten;
  }

  lemma HeadRowsUsable(s: Server, changed: set<ObjectId>, objects: seq<ObjectId>, rows: HeadRows)
    requires ServerOk(s) && Lists(changed, objects) && Lists(HeadsIn(s.heads, objects), rows)
    ensures NoDuplicates(objects) && OnceEach(rows)
  {
    RowsOnceEach(s, objects, rows);
  }

  lemma IsBatchQuery(table: set<ParentRow>, ids: set<RevisionId>, rows: seq<ParentRow>)
    requires Lists((set row | row in table && row.revisionId in ids), rows) && SortedByRevision(rows)
    ensures BatchQuery(table, ids, rows)
  {}

  /** With nothing committed in between, the five reads are reads of one state. */
  lemma QuietPull(s: Server, client: ClientId, since: nat, objects: seq<ObjectId>, rows: HeadRows,
                  prows: seq<ParentRow>, m: map<RevisionId, seq<RevisionId>>, f: PullFilter)
    requires ServerOk(s)
    requires Lists(Changed(s, client, since, MaxId(s.txns)), objects) && Lists(HeadsIn(s.heads, objects), rows)
    requires BatchQuery(ParentTable(s.revs), RevIds(rows), prows) && Groups(m, prows)
    ensures var changed := Changed(s, client, since, MaxId(s.txns));
            var updates := RowUpdates(objects, rows, RowsAt(s.revs, RevIds(rows)), m, f);
            && AnswersReadBack(s, changed, f, updates)
            && (Small(s.revs) ==> Answers(s, changed, f, updates))
            && MentionsForeign(s, s, client, since, MaxId(s.txns), f, updates)
            && (OnlyOwn(s, client, since) ==> updates == [])
  {
    assert ServerRuns.Grows(s, s);
    hide ServerOk, Answers, Changed, Lists, BatchQuery, RowUpdates, Groups, Updates, ReadBack, RevIds, HeadIdsIn,
      MentionsForeign, OnlyOwn, TxnsOk;
    TornReads(s, s, s, s, s, client, since, objects, rows, prows, m, f);
    RowsAreHeadIds(s.heads, Changed(s, client, since, MaxId(s.txns)), objects, rows);
    if OnlyOwn(s, client, since) {
      assert TxnsOk(s) by { OkTxns(s); }
      OwnPushesAreNotEchoed(s, s, client, since, MaxId(s.txns), f,
                            RowUpdates(objects, rows, RowsAt(s.revs, RevIds(rows)), m, f));
    }
  }

  lemma OkTxns(s: Server)
    requires ServerOk(s)
    ensures TxnsOk(s)
  {}
}
