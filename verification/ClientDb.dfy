/**
  The client's local stores and the loops that work on them, proved against the value model.
  The network is not part of the class: answers of the server come in as arguments.
 */
module ClientDb {
  import opened Core
  import opened ClientModel

  /** Heads delivered by an answer. */
  function PulledCount(us: seq<ObjectUpdate>): nat {
    if us == [] then 0 else PulledCount(us[..|us| - 1]) + |us[|us| - 1].heads|
  }

  /** Objects that could not be replaced cleanly while the answer was applied. */
  function ConflictCount(c: Client, us: seq<ObjectUpdate>): nat {
    if us == [] then 0
    else
      var init := us[..|us| - 1];
      ConflictCount(c, init) + if Clean(ApplyUpdates(c, init).heads, us[|us| - 1]) then 0 else 1
  }

  /** Update `i` met a divergence or a conflict when its turn came. */
  ghost predicate Conflicts(c: Client, us: seq<ObjectUpdate>, i: nat) {
    i < |us| && !Clean(ApplyUpdates(c, us[..i]).heads, us[i])
  }

  ghost function Conflicting(c: Client, us: seq<ObjectUpdate>): set<nat> {
    set i: nat | i < |us| && Conflicts(c, us, i)
  }

  /** All delivered heads, by the position of their update and their position in it. */
  ghost function DeliveredHeads(us: seq<ObjectUpdate>): set<(nat, nat)> {
    set i: nat, j: nat | i < |us| && j < |us[i].heads| :: (i, j)
  }

  lemma ConflictsEarlier(c: Client, us: seq<ObjectUpdate>, n: nat, i: nat)
    requires i < n <= |us|
    ensures Conflicts(c, us[..n], i) <==> Conflicts(c, us, i)
  {
    hide Clean, ApplyUpdates;
    assert us[..n][..i] == us[..i];
  }

  lemma ConflictsLast(c: Client, us: seq<ObjectUpdate>)
    requires us != []
    ensures var n := |us| - 1;
            Conflicting(c, us) == Conflicting(c, us[..n]) + if Conflicts(c, us, n) then {n} else {}
  {
    hide Conflicts;
    var n := |us| - 1;
    forall i: nat | i < n
      ensures Conflicts(c, us[..n], i) <==> Conflicts(c, us, i)
    {
      ConflictsEarlier(c, us, n, i);
    }
  }

  lemma {:induction false} ConflictsAreCounted(c: Client, us: seq<ObjectUpdate>)
    ensures ConflictCount(c, us) == |Conflicting(c, us)|
  {
    if us == [] {
      assert Conflicting(c, us) == {};
    } else {
      hide Clean, ApplyUpdates;
      ConflictsAreCounted(c, us[..|us| - 1]);
      ConflictsLast(c, us);
    }
  }

  ghost function Numbered(n: nat, k: nat): set<(nat, nat)> {
    set j: nat | j < k :: (n, j)
  }

  lemma {:induction false} NumberedSize(n: nat, k: nat)
    ensures |Numbered(n, k)| == k
  {
    if k == 0 {
      assert Numbered(n, k) == {};
    } else {
      NumberedSize(n, k - 1);
      assert Numbered(n, k) == Numbered(n, k - 1) + {(n, k - 1)};
    }
  }

  lemma {:induction false} HeadsAreCounted(us: seq<ObjectUpdate>)
    ensures PulledCount(us) == |DeliveredHeads(us)|
  {
    if us == [] {
      assert DeliveredHeads(us) == {};
    } else {
      var n := |us| - 1;
      HeadsAreCounted(us[..n]);
      NumberedSize(n, |us[n].heads|);
      assert DeliveredHeads(us) == DeliveredHeads(us[..n]) + Numbered(n, |us[n].heads|);
      assert DeliveredHeads(us[..n]) !! Numbered(n, |us[n].heads|);
    }
  }

  /** What `get` shows of one head. */
  datatype ObjectVersion = ObjectVersion(objectId: ObjectId, revisionId: RevisionId, content: Content)

  /** Record keys are the ids of what they hold. */
  ghost predicate KeyedRecords(records: Records) {
    forall r :: r in records ==> records[r].rev.id == r
  }

  ghost predicate KeyedHeads(heads: HeadStore) {
    forall k :: k in heads ==> heads[k].objectId == k.0 && heads[k].revisionId == k.1
  }

  /** The heads of one object, in key order. */
  ghost predicate Scan(heads: HeadStore, o: ObjectId, result: seq<HeadRecord>) {
    && (forall i :: 0 <= i < |result| ==>
          (o, result[i].revisionId) in heads && heads[(o, result[i].revisionId)] == result[i])
    && (forall r :: r in LocalHeads(heads, o) ==> r in ScannedIds(result))
    && Ascending(result)
  }

  function ScannedIds(result: seq<HeadRecord>): set<RevisionId> {
    set i | 0 <= i < |result| :: result[i].revisionId
  }

  lemma ScanFacts(heads: HeadStore, o: ObjectId, result: seq<HeadRecord>)
    requires Scan(heads, o, result)
    ensures ScannedIds(result) == LocalHeads(heads, o)
    ensures |result| == |LocalHeads(heads, o)|
    ensures result != [] ==> LocalHeads(heads, o) != {} && ObjectTypeOf(heads, o) == result[0].objectType
  {
    forall r
      ensures r in ScannedIds(result) <==> r in LocalHeads(heads, o)
    {
      InLocalHeads(heads, o, r);
    }
    ScannedSize(result);
    if result != [] {
      assert result[0].revisionId in ScannedIds(result);
      var r := Least(LocalHeads(heads, o));
      var i :| 0 <= i < |result| && result[i].revisionId == r;
      assert i == 0;
    }
  }

  lemma ScannedSnoc(init: seq<HeadRecord>, last: HeadRecord)
    ensures ScannedIds(init + [last]) == ScannedIds(init) + {last.revisionId}
  {
    var all := init + [last];
    forall r
      ensures r in ScannedIds(all) <==> r in ScannedIds(init) || r == last.revisionId
    {
      if i :| 0 <= i < |init| && init[i].revisionId == r {
        assert all[i].revisionId == r;
      }
      assert all[|init|].revisionId == last.revisionId;
    }
  }

  ghost predicate Ascending(result: seq<HeadRecord>) {
    forall i, j :: 0 <= i < j < |result| ==> result[i].revisionId < result[j].revisionId
  }

  lemma {:induction false} ScannedSize(result: seq<HeadRecord>)
    requires Ascending(result)
    ensures |ScannedIds(result)| == |result|
  {
    if result != [] {
      var init, last := result[..|result| - 1], result[|result| - 1];
      ScannedSize(init);
      assert last.revisionId !in ScannedIds(init);
      assert result == init + [last];
      hide ScannedIds, Ascending;
      ScannedSnoc(init, last);
    }
  }

  /** A scan in progress: what is listed, in order, and what is left, all of it larger. */
  ghost predicate ScanUpTo(heads: HeadStore, o: ObjectId, result: seq<HeadRecord>, left: set<RevisionId>) {
    && left <= LocalHeads(heads, o)
    && Ascending(result)
    && (forall i :: 0 <= i < |result| ==>
          (o, result[i].revisionId) in heads && heads[(o, result[i].revisionId)] == result[i])
    && (forall r :: r in LocalHeads(heads, o) && r !in left ==> r in ScannedIds(result))
    && (forall i, r :: 0 <= i < |result| && r in left ==> result[i].revisionId < r)
  }

  lemma ScanStep(heads: HeadStore, o: ObjectId, result: seq<HeadRecord>, left: set<RevisionId>, r: RevisionId)
    requires KeyedHeads(heads) && ScanUpTo(heads, o, result, left)
    requires r in left && (forall x :: x in left ==> r <= x) && (o, r) in heads
    ensures ScanUpTo(heads, o, result + [heads[(o, r)]], left - {r})
  {
    hide ScannedIds;
    ScannedSnoc(result, heads[(o, r)]);
  }

  /** Pending records listed so far, in id order, and those left, all of them larger. */
  ghost predicate PendingUpTo(records: Records, batch: seq<Revision>, left: set<RevisionId>) {
    && (forall r :: r in left ==> r in records && records[r].status == Pending)
    && (forall i :: 0 <= i < |batch| ==>
          batch[i].id in records && records[batch[i].id] == Record(batch[i], Pending))
    && (forall r :: r in records && records[r].status == Pending && r !in left ==> records[r].rev in batch)
    && (forall i, j :: 0 <= i < j < |batch| ==> batch[i].id < batch[j].id)
    && (forall i, r :: 0 <= i < |batch| && r in left ==> batch[i].id < r)
  }

  lemma PendingStep(records: Records, batch: seq<Revision>, left: set<RevisionId>, r: RevisionId)
    requires KeyedRecords(records) && PendingUpTo(records, batch, left)
    requires r in left && forall x :: x in left ==> r <= x
    ensures PendingUpTo(records, batch + [records[r].rev], left - {r})
  {}

  ghost function DropKeys(heads: HeadStore, o: ObjectId, ids: set<RevisionId>): HeadStore {
    map k | k in heads && !(k.0 == o && k.1 in ids) :: heads[k]
  }

  lemma DropAll(heads: HeadStore, o: ObjectId)
    ensures DropKeys(heads, o, LocalHeads(heads, o)) == Without(heads, o)
  {
    forall k | k in heads && k.0 == o
      ensures k.1 in LocalHeads(heads, o)
    {
      InLocalHeads(heads, o, k.1);
    }
  }

  method LeastOf(s: set<RevisionId>) returns (r: RevisionId)
    requires s != {}
    ensures r in s && forall x :: x in s ==> r <= x
  {
    LeastExists(s);
    r :| r in s && forall x :: x in s ==> r <= x;
  }

  lemma ReplaceSnoc(heads: HeadStore, o: ObjectId, revs: seq<Revision>, rev: Revision)
    ensures ReplaceHeads(heads, o, revs + [rev]) == PutHead(ReplaceHeads(heads, o, revs), HeadRecordOf(o, rev))
  {
    assert (revs + [rev])[..|revs|] == revs;
  }

  lemma AddSnoc(heads: HeadStore, revs: seq<Revision>, rev: Revision)
    ensures AddHeads(heads, revs + [rev]) == PutHead(AddHeads(heads, revs), HeadRecordOf(rev.objectId, rev))
  {
    assert (revs + [rev])[..|revs|] == revs;
  }

  lemma PutSnoc(records: Records, revs: seq<Revision>, rev: Revision)
    ensures PutSynced(records, revs + [rev]) == PutSynced(records, revs)[rev.id := Record(rev, Synced)]
  {
    assert (revs + [rev])[..|revs|] == revs;
  }

  lemma MarkSnoc(records: Records, ids: seq<RevisionId>, r: RevisionId)
    ensures MarkSynced(records, ids + [r]) == SetStatus(MarkSynced(records, ids), r, Synced)
  {
    assert (ids + [r])[..|ids|] == ids;
  }

  lemma ErrorSnoc(records: Records, rejected: seq<RejectedRevision>, r: RejectedRevision)
    ensures MarkErrors(records, rejected + [r]) ==
            SetStatus(MarkErrors(records, rejected), r.revisionId, SyncError(r.reason))
  {
    assert (rejected + [r])[..|rejected|] == rejected;
  }

  lemma CountSnoc(c: Client, us: seq<ObjectUpdate>, u: ObjectUpdate)
    ensures PulledCount(us + [u]) == PulledCount(us) + |u.heads|
    ensures ConflictCount(c, us + [u]) == ConflictCount(c, us) + if Clean(ApplyUpdates(c, us).heads, u) then 0 else 1
  {
    assert (us + [u])[..|us|] == us;
  }

  lemma OneHead(heads: HeadStore, o: ObjectId, r: RevisionId)
    ensures LocalHeads(heads, o) == {r} <==> forall h :: (o, h) in heads <==> h == r
  {
    hide LocalHeads;
    forall h
      ensures h in LocalHeads(heads, o) <==> (o, h) in heads
    {
      InLocalHeads(heads, o, h);
    }
  }

  lemma AreHeads(heads: HeadStore, o: ObjectId, parents: seq<RevisionId>)
    ensures (forall p :: p in parents ==> p in LocalHeads(heads, o)) <==> forall p :: p in parents ==> (o, p) in heads
  {
    hide LocalHeads;
    forall p
      ensures p in LocalHeads(heads, o) <==> (o, p) in heads
    {
      InLocalHeads(heads, o, p);
    }
  }

  class Replica {
    const client: ClientId
    var records: Records
    var heads: HeadStore
    var cursor: Option<nat>

    ghost function State(): Client
      reads this
    {
      Client(records, heads, cursor)
    }

    ghost predicate Valid()
      reads this
    {
      KeyedRecords(records) && KeyedHeads(heads)
    }

    constructor (client: ClientId)
      ensures Valid() && State() == NEW_CLIENT && this.client == client
    {
      this.client := client;
      records, heads, cursor := map[], map[], None;
    }

    // -------------------------------------------------------------------------------------
    // Object heads

    /** The range scan over one object's keys. */
    method GetHeads(o: ObjectId) returns (result: seq<HeadRecord>)
      requires Valid()
      ensures Scan(heads, o, result)
    {
      result := [];
      var left := LocalHeads(heads, o);
      while left != {}
        invariant ScanUpTo(heads, o, result, left)
        decreases |left|
      {
        var r := LeastOf(left);
        InLocalHeads(heads, o, r);
        ScanStep(heads, o, result, left, r);
        left := left - {r};
        result := result + [heads[(o, r)]];
      }
    }

    /** Delete the keys a scan has found. */
    method ClearHeads(o: ObjectId)
      requires Valid()
      modifies this`heads
      ensures Valid() && heads == Without(old(heads), o)
    {
      var existing := GetHeads(o);
      ScanFacts(heads, o, existing);
      for i := 0 to |existing|
        invariant heads == DropKeys(old(heads), o, ScannedIds(existing[..i]))
      {
        assert existing[..i + 1] == existing[..i] + [existing[i]];
        ScannedSnoc(existing[..i], existing[i]);
        heads := heads - {(o, existing[i].revisionId)};
      }
      assert existing[..|existing|] == existing;
      DropAll(old(heads), o);
    }

    method ReplaceObjectHeads(o: ObjectId, revs: seq<Revision>)
      requires Valid()
      modifies this`heads
      ensures Valid() && heads == ReplaceHeads(old(heads), o, revs)
      ensures forall k :: k in heads <==> (k.0 == o && k.1 in Ids(revs)) || (k.0 != o && k in old(heads))
      ensures forall k :: k in old(heads) && k.0 != o ==> heads[k] == old(heads)[k]
      ensures forall i :: LastEntry(revs, i) ==>
                (o, revs[i].id) in heads && Displays(heads[(o, revs[i].id)], o, revs[i])
    {
      hide Displays, LastEntry;
      ClearHeads(o);
      for i := 0 to |revs|
        invariant Valid() && heads == ReplaceHeads(old(heads), o, revs[..i])
      {
        assert revs[..i + 1] == revs[..i] + [revs[i]];
        ReplaceSnoc(old(heads), o, revs[..i], revs[i]);
        heads := PutHead(heads, HeadRecordOf(o, revs[i]));
      }
      assert revs[..|revs|] == revs;
      ReplaceExactly(old(heads), o, revs);
    }

    method AddObjectHeads(revs: seq<Revision>)
      requires Valid()
      modifies this`heads
      ensures Valid() && heads == AddHeads(old(heads), revs)
      ensures forall k :: k in heads <==> k in old(heads) || exists rev :: rev in revs && k == (rev.objectId, rev.id)
      ensures forall k :: k in old(heads) && (forall rev :: rev in revs ==> k != (rev.objectId, rev.id)) ==>
                heads[k] == old(heads)[k]
      ensures forall i :: LastEntry(revs, i) ==>
                var k := (revs[i].objectId, revs[i].id); k in heads && Displays(heads[k], revs[i].objectId, revs[i])
    {
      hide Displays, LastEntry;
      for i := 0 to |revs|
        invariant Valid() && heads == AddHeads(old(heads), revs[..i])
      {
        assert revs[..i + 1] == revs[..i] + [revs[i]];
        AddSnoc(old(heads), revs[..i], revs[i]);
        heads := PutHead(heads, HeadRecordOf(revs[i].objectId, revs[i]));
      }
      assert revs[..|revs|] == revs;
      AddExactly(old(heads), revs);
    }

    /** `get`: one version per head, in key order, with the head's content. */
    method Get(o: ObjectId) returns (versions: seq<ObjectVersion>)
      requires Valid()
      ensures forall i, j :: 0 <= i < j < |versions| ==> versions[i].revisionId < versions[j].revisionId
      ensures forall i :: 0 <= i < |versions| ==>
                && versions[i].objectId == o && (o, versions[i].revisionId) in heads
                && versions[i].content == heads[(o, versions[i].revisionId)].content
      ensures forall h :: (o, h) in heads ==> exists i :: 0 <= i < |versions| && versions[i].revisionId == h
    {
      var scan := GetHeads(o);
      versions := [];
      for i := 0 to |scan|
        invariant |versions| == i
        invariant forall j :: 0 <= j < i ==> versions[j] == ObjectVersion(o, scan[j].revisionId, scan[j].content)
      {
        versions := versions + [ObjectVersion(o, scan[i].revisionId, scan[i].content)];
      }
      forall h | (o, h) in heads
        ensures exists i :: 0 <= i < |versions| && versions[i].revisionId == h
      {
        InLocalHeads(heads, o, h);
        var i :| 0 <= i < |scan| && scan[i].revisionId == h;
        assert versions[i].revisionId == h;
      }
    }

    // -------------------------------------------------------------------------------------
    // Revision records

    method PutRevision(rev: Revision, status: SyncStatus)
      modifies this`records
      ensures records == old(records)[rev.id := Record(rev, status)]
    {
      records := records[rev.id := Record(rev, status)];
    }

    /** Read, change the status, write back; ids without a record are ignored. */
    method MarkRevision(id: RevisionId, status: SyncStatus)
      modifies this`records
      ensures records == SetStatus(old(records), id, status)
    {
      if id in records {
        var record := records[id];
        records := records[id := record.(status := status)];
      }
    }

    /** The scan of the status index, which returns pending records in id order. */
    method GetPendingRevisions() returns (batch: seq<Revision>)
      requires Valid()
      ensures PendingBatch(records, batch)
    {
      batch := [];
      var left := set r | r in records && records[r].status == Pending;
      while left != {}
        invariant PendingUpTo(records, batch, left)
        decreases |left|
      {
        var r := LeastOf(left);
        PendingStep(records, batch, left, r);
        left := left - {r};
        batch := batch + [records[r].rev];
      }
    }

    /** What `push_pending` does with the server's answer. */
    method ApplyPushResponse(response: PushResponse) returns (pushed: nat)
      requires Valid()
      modifies this`records
      ensures Valid() && records == ApplyPushAnswer(old(records), response.accepted, response.rejected)
      ensures pushed == |response.accepted|
    {
      var accepted, rejected := response.accepted, response.rejected;
      for i := 0 to |accepted|
        invariant Valid() && records == MarkSynced(old(records), accepted[..i])
      {
        assert accepted[..i + 1] == accepted[..i] + [accepted[i]];
        MarkSnoc(old(records), accepted[..i], accepted[i]);
        MarkRevision(accepted[i], Synced);
      }
      assert accepted[..|accepted|] == accepted;
      ghost var marked := records;
      for i := 0 to |rejected|
        invariant Valid() && records == MarkErrors(marked, rejected[..i])
      {
        assert rejected[..i + 1] == rejected[..i] + [rejected[i]];
        ErrorSnoc(marked, rejected[..i], rejected[i]);
        MarkRevision(rejected[i].revisionId, SyncError(rejected[i].reason));
      }
      assert rejected[..|rejected|] == rejected;
      pushed := |accepted|;
    }

    // -------------------------------------------------------------------------------------
    // Edits

    /** Store the new revision as pending and make it the only head. */
    method PutEdit(rev: Revision)
      requires Valid()
      modifies this`records, this`heads
      ensures Valid() && State() == PutLocal(old(State()), rev)
      ensures records == old(records)[rev.id := Record(rev, Pending)] && cursor == old(cursor)
      ensures OnlyHead(old(heads), heads, rev)
    {
      hide OnlyHead, Displays;
      PutLocalExactly(State(), rev);
      PutRevision(rev, Pending);
      ReplaceObjectHeads(rev.objectId, [rev]);
    }

    method Save(o: ObjectId, objectType: string, data: Json, id: RevisionId, now: int)
      requires Valid()
      modifies this`records, this`heads
      ensures Valid() && State() == PutLocal(old(State()), NewObject(o, objectType, data, Stamp(client, id, now)))
      ensures var rev := Revision(id, o, objectType, Root, now, client, Active(data));
              && records == old(records)[id := Record(rev, Pending)] && cursor == old(cursor)
              && OnlyHead(old(heads), heads, rev)
    {
      PutEdit(Revision(id, o, objectType, Root, now, client, Active(data)));
    }

    method CheckParentsAreHeads(scan: seq<HeadRecord>, parents: seq<RevisionId>) returns (ok: bool)
      ensures ok <==> forall p :: p in parents ==> p in ScannedIds(scan)
    {
      var ids := ScannedIds(scan);
      for i := 0 to |parents|
        invariant forall j :: 0 <= j < i ==> parents[j] in ids
      {
        if parents[i] !in ids {
          assert parents[i] in parents;
          return false;
        }
      }
      return true;
    }

    /** `update` with active content, `delete` with deleted content. */
    method EditObject(o: ObjectId, parent: RevisionId, content: Content, id: RevisionId, now: int)
      returns (r: Result<RevisionId>)
      requires Valid()
      modifies this`records, this`heads
      ensures Valid()
      ensures match EditRevision(old(heads), o, parent, content, Stamp(client, id, now))
              case Err(e) => r == Err(e) && State() == old(State())
              case Ok(rev) => r == Ok(id) && State() == PutLocal(old(State()), rev)
      ensures r.Ok? <==> forall h :: (o, h) in old(heads) <==> h == parent
      ensures r.Ok? ==>
                var rev := Revision(id, o, old(heads)[(o, parent)].objectType, Update(parent), now, client, content);
                && records == old(records)[id := Record(rev, Pending)] && cursor == old(cursor)
                && OnlyHead(old(heads), heads, rev)
    {
      hide OnlyHead, PutLocal;
      EditOutcome(heads, o, parent, content, Stamp(client, id, now));
      OneHead(heads, o, parent);
      var scan := GetHeads(o);
      ScanFacts(heads, o, scan);
      if |scan| > 1 {
        return Err(ConflictExists);
      }
      var ok := CheckParentsAreHeads(scan, [parent]);
      assert ok <==> parent in ScannedIds(scan) by { assert parent in [parent]; }
      if !ok {
        return Err(StaleParent);
      }
      if scan == [] {
        return Err(NotCached);
      }
      PutEdit(Revision(id, o, scan[0].objectType, Update(parent), now, client, content));
      return Ok(id);
    }

    method ResolveConflict(o: ObjectId, parents: seq<RevisionId>, content: Content, id: RevisionId, now: int)
      returns (r: Result<RevisionId>)
      requires Valid()
      modifies this`records, this`heads
      ensures Valid()
      ensures match MergeRevision(old(heads), o, parents, content, Stamp(client, id, now))
              case Err(e) => r == Err(e) && State() == old(State())
              case Ok(rev) => r == Ok(id) && State() == PutLocal(old(State()), rev)
      ensures r.Ok? <==> |parents| >= 2 && forall p :: p in parents ==> (o, p) in old(heads)
      ensures r.Ok? ==>
                exists first :: && (o, first) in old(heads) && (forall h :: (o, h) in old(heads) ==> first <= h)
                                && var rev := Revision(id, o, old(heads)[(o, first)].objectType,
                                                       Merge(parents[0], parents[1], parents[2..]), now, client,
                                                       content);
                                   && records == old(records)[id := Record(rev, Pending)] && cursor == old(cursor)
                                   && OnlyHead(old(heads), heads, rev)
    {
      hide OnlyHead, PutLocal;
      MergeOutcome(heads, o, parents, content, Stamp(client, id, now));
      AreHeads(heads, o, parents);
      if |parents| < 2 {
        return Err(TooFewParents);
      }
      var scan := GetHeads(o);
      ScanFacts(heads, o, scan);
      var ok := CheckParentsAreHeads(scan, parents);
      if !ok {
        return Err(StaleParent);
      }
      if scan == [] {
        return Err(NotCached);
      }
      PutEdit(Revision(id, o, scan[0].objectType, Merge(parents[0], parents[1], parents[2..]), now, client, content));
      return Ok(id);
    }

    // -------------------------------------------------------------------------------------
    // Pulls

    method PutAllSynced(revs: seq<Revision>)
      requires Valid()
      modifies this`records
      ensures Valid() && records == PutSynced(old(records), revs)
    {
      for i := 0 to |revs|
        invariant Valid() && records == PutSynced(old(records), revs[..i])
      {
        assert revs[..i + 1] == revs[..i] + [revs[i]];
        PutSnoc(old(records), revs[..i], revs[i]);
        PutRevision(revs[i], Synced);
      }
      assert revs[..|revs|] == revs;
    }

    /** Does the local replica have a head that the incoming heads neither contain nor name as a parent? */
    method HasDiverged(u: ObjectUpdate) returns (diverged: bool)
      requires Valid()
      ensures diverged == Diverged(heads, u)
    {
      var existing := GetHeads(u.objectId);
      ScanFacts(heads, u.objectId, existing);
      diverged := exists i :: 0 <= i < |existing| &&
                    existing[i].revisionId !in Ids(u.heads) && !Supersedes(u.heads, existing[i].revisionId);
      if diverged {
        var i :| 0 <= i < |existing| && existing[i].revisionId !in Ids(u.heads)
          && !Supersedes(u.heads, existing[i].revisionId);
        assert existing[i].revisionId in ScannedIds(existing);
      } else {
        forall h | h in LocalHeads(heads, u.objectId)
          ensures h in Ids(u.heads) || Supersedes(u.heads, h)
        {
          var i :| 0 <= i < |existing| && existing[i].revisionId == h;
        }
      }
    }

    /** One object of an answer: records first, then heads. */
    method ApplyObjectUpdate(u: ObjectUpdate) returns (conflicted: bool)
      requires Valid()
      modifies this`records, this`heads
      ensures Valid() && State() == ApplyUpdate(old(State()), u)
      ensures conflicted <==> !Clean(old(heads), u)
    {
      PutAllSynced(u.heads);
      conflicted := true;
      match u.action
      case Replace =>
        var diverged := HasDiverged(u);
        if diverged {
          AddObjectHeads(u.heads);
        } else {
          ReplaceObjectHeads(u.objectId, u.heads);
          conflicted := false;
        }
      case Conflict =>
        AddObjectHeads(u.heads);
    }

    /** Apply a whole answer, object by object, and only then advance the cursor. */
    method PullUpdates(upTo: nat, updates: seq<ObjectUpdate>) returns (pulled: nat, conflicted: nat)
      requires Valid()
      modifies this`records, this`heads, this`cursor
      ensures Valid() && State() == ApplyUpdates(old(State()), updates).(cursor := Some(upTo))
      ensures pulled == |DeliveredHeads(updates)| && conflicted == |Conflicting(old(State()), updates)|
    {
      pulled, conflicted := 0, 0;
      for i := 0 to |updates|
        invariant Valid() && State() == ApplyUpdates(old(State()), updates[..i])
        invariant pulled == PulledCount(updates[..i]) && conflicted == ConflictCount(old(State()), updates[..i])
      {
        var u := updates[i];
        assert updates[..i + 1] == updates[..i] + [u];
        CountSnoc(old(State()), updates[..i], u);
        UpdatesSnoc(old(State()), updates[..i], u);
        pulled := pulled + |u.heads|;
        var c := ApplyObjectUpdate(u);
        if c {
          conflicted := conflicted + 1;
        }
      }
      assert updates[..|updates|] == updates;
      HeadsAreCounted(updates);
      ConflictsAreCounted(old(State()), updates);
      cursor := Some(upTo);
    }
  }
}
