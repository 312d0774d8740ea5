/**
  The client replica as values: local edits, the status of revision records, and the
  reconciliation of heads when a pull answer is applied.
 */
module ClientModel {
  import opened Core
  import opened Dag

  datatype SyncStatus = Pending | Synced | SyncError(reason: Reason)

  datatype Record = Record(rev: Revision, status: SyncStatus)

  datatype HeadRecord = HeadRecord(
    objectId: ObjectId,
    revisionId: RevisionId,
    objectType: string,
    content: Content,
    lineage: Lineage,
    data: Option<Json>)

  type Records = map<RevisionId, Record>

  /** Head records by their compound key. */
  type HeadStore = map<(ObjectId, RevisionId), HeadRecord>

  datatype Client = Client(records: Records, heads: HeadStore, cursor: Option<nat>)

  const NEW_CLIENT := Client(map[], map[], None)

  function HeadRecordOf(o: ObjectId, rev: Revision): HeadRecord {
    HeadRecord(o, rev.id, rev.objectType, rev.content, rev.lineage,
               match rev.content case Active(v) => Some(v) case Deleted => None)
  }

  function LocalHeads(heads: HeadStore, o: ObjectId): set<RevisionId> {
    set k | k in heads && k.0 == o :: k.1
  }

  lemma InLocalHeads(heads: HeadStore, o: ObjectId, r: RevisionId)
    ensures r in LocalHeads(heads, o) <==> (o, r) in heads
  {
    if (o, r) in heads {
      assert (o, r).0 == o;
    }
  }

  // ---------------------------------------------------------------------------------------
  // The head store

  function Without(heads: HeadStore, o: ObjectId): HeadStore {
    map k | k in heads && k.0 != o :: heads[k]
  }

  function PutHead(heads: HeadStore, h: HeadRecord): HeadStore {
    heads[(h.objectId, h.revisionId) := h]
  }

  function ReplaceHeads(heads: HeadStore, o: ObjectId, revs: seq<Revision>): HeadStore {
    if revs == [] then Without(heads, o)
    else PutHead(ReplaceHeads(heads, o, revs[..|revs| - 1]), HeadRecordOf(o, revs[|revs| - 1]))
  }

  function AddHeads(heads: HeadStore, revs: seq<Revision>): HeadStore {
    if revs == [] then heads
    else
      var rev := revs[|revs| - 1];
      PutHead(AddHeads(heads, revs[..|revs| - 1]), HeadRecordOf(rev.objectId, rev))
  }

  /** The entries that a list of heads of one object contributes. */
  ghost function Entries(o: ObjectId, revs: seq<Revision>): HeadStore {
    ReplaceHeads(map[], o, revs)
  }

  lemma {:induction false} ReplaceIsUnion(heads: HeadStore, o: ObjectId, revs: seq<Revision>)
    ensures ReplaceHeads(heads, o, revs) == Without(heads, o) + Entries(o, revs)
  {
    if revs == [] {
      assert Entries(o, revs) == map[];
    } else {
      ReplaceIsUnion(heads, o, revs[..|revs| - 1]);
    }
  }

  ghost predicate AllOf(o: ObjectId, revs: seq<Revision>) {
    forall rev :: rev in revs ==> rev.objectId == o
  }

  lemma {:induction false} AddIsUnion(heads: HeadStore, o: ObjectId, revs: seq<Revision>)
    requires AllOf(o, revs)
    ensures AddHeads(heads, revs) == heads + Entries(o, revs)
  {
    if revs == [] {
      assert Entries(o, revs) == map[];
    } else {
      AddIsUnion(heads, o, revs[..|revs| - 1]);
      assert revs[|revs| - 1] in revs;
    }
  }

  lemma {:induction false} EntryKeys(o: ObjectId, revs: seq<Revision>, k: (ObjectId, RevisionId))
    ensures k in Entries(o, revs) <==> k.0 == o && k.1 in Ids(revs)
    ensures k in Entries(o, revs) ==>
              exists rev :: rev in revs && rev.id == k.1 && Entries(o, revs)[k] == HeadRecordOf(o, rev)
  {
    if revs != [] {
      var init, last := revs[..|revs| - 1], revs[|revs| - 1];
      EntryKeys(o, init, k);
      assert Ids(revs) == Ids(init) + [last.id];
      if k in Entries(o, revs) && !(k.0 == o && k.1 == last.id) {
        var rev :| rev in init && rev.id == k.1 && Entries(o, init)[k] == HeadRecordOf(o, rev);
        assert rev in revs;
      }
    }
  }

  // ---------------------------------------------------------------------------------------
  // Local edits

  datatype EditError = NotCached | StaleParent | ConflictExists | TooFewParents

  datatype Result<+T> = Ok(value: T) | Err(error: EditError)

  /** Type of the first head in key order. */
  ghost function ObjectTypeOf(heads: HeadStore, o: ObjectId): string
    requires LocalHeads(heads, o) != {}
  {
    var r := Least(LocalHeads(heads, o));
    InLocalHeads(heads, o, r);
    heads[(o, r)].objectType
  }

  ghost function Least(s: set<RevisionId>): (r: RevisionId)
    requires s != {}
    ensures r in s && forall x :: x in s ==> r <= x
  {
    LeastExists(s);
    var r :| r in s && forall x :: x in s ==> r <= x;
    r
  }

  lemma {:induction false} LeastExists(s: set<RevisionId>)
    requires s != {}
    ensures exists r :: r in s && forall x :: x in s ==> r <= x
  {
    var a :| a in s;
    var rest := s - {a};
    if rest == {} {
      assert s == {a};
    } else {
      LeastExists(rest);
      var b :| b in rest && forall x :: x in rest ==> b <= x;
      var r := if a <= b then a else b;
      assert forall x :: x in s ==> x == a || x in rest;
      assert r in s && forall x :: x in s ==> r <= x;
    }
  }

  /** Identity, clock and random ids of one edit. */
  datatype Stamp = Stamp(client: ClientId, id: RevisionId, now: int)

  function NewObject(o: ObjectId, objectType: string, data: Json, stamp: Stamp): Revision {
    Revision(stamp.id, o, objectType, Root, stamp.now, stamp.client, Active(data))
  }

  /** `update` and `delete`: only on an object with exactly one head, which must be the parent. */
  ghost function EditRevision(heads: HeadStore, o: ObjectId, parent: RevisionId, content: Content,
                              stamp: Stamp): Result<Revision> {
    var ids := LocalHeads(heads, o);
    if |ids| > 1 then Err(ConflictExists)
    else if parent !in ids then Err(StaleParent)
    else if ids == {} then Err(NotCached)
    else Ok(Revision(stamp.id, o, ObjectTypeOf(heads, o), Update(parent), stamp.now, stamp.client, content))
  }

  ghost function MergeRevision(heads: HeadStore, o: ObjectId, parents: seq<RevisionId>, content: Content,
                               stamp: Stamp): Result<Revision> {
    var ids := LocalHeads(heads, o);
    if |parents| < 2 then Err(TooFewParents)
    else if exists p :: p in parents && p !in ids then Err(StaleParent)
    else if ids == {} then Err(NotCached)
    else Ok(Revision(stamp.id, o, ObjectTypeOf(heads, o), Merge(parents[0], parents[1], parents[2..]),
                     stamp.now, stamp.client, content))
  }

  /** Every edit stores its revision as pending and makes it the only head of its object. */
  function PutLocal(c: Client, rev: Revision): Client {
    c.(records := c.records[rev.id := Record(rev, Pending)], heads := ReplaceHeads(c.heads, rev.objectId, [rev]))
  }

  /**
    Exactly one of the errors, or a revision of the only head's type that succeeds it, with the
    given content and stamp.
   */
  lemma EditOutcome(heads: HeadStore, o: ObjectId, parent: RevisionId, content: Content, stamp: Stamp)
    ensures var r := EditRevision(heads, o, parent, content, stamp);
            && (r == Err(ConflictExists) <==> |LocalHeads(heads, o)| > 1)
            && (r == Err(StaleParent) <==> |LocalHeads(heads, o)| <= 1 && parent !in LocalHeads(heads, o))
            && r != Err(NotCached)
            && (r.Ok? <==> LocalHeads(heads, o) == {parent})
            && (r.Ok? ==>
                  && (o, parent) in heads
                  && r.value == Revision(stamp.id, o, heads[(o, parent)].objectType, Update(parent),
                                         stamp.now, stamp.client, content)
                  && r.value.Parents() == [parent])
  {
    var ids := LocalHeads(heads, o);
    InLocalHeads(heads, o, parent);
    if |ids| <= 1 && parent in ids {
      assert ids == {parent} by {
        assert |ids - {parent}| == 0;
      }
    }
  }

  /** The type of a resolution is that of the head that comes first in key order. */
  lemma MergeOutcome(heads: HeadStore, o: ObjectId, parents: seq<RevisionId>, content: Content, stamp: Stamp)
    ensures var r := MergeRevision(heads, o, parents, content, stamp);
            && (r == Err(TooFewParents) <==> |parents| < 2)
            && (r == Err(StaleParent) <==> |parents| >= 2 && exists p :: p in parents && p !in LocalHeads(heads, o))
            && r != Err(NotCached) && r != Err(ConflictExists)
            && (r.Ok? <==> |parents| >= 2 && forall p :: p in parents ==> p in LocalHeads(heads, o))
            && (r.Ok? ==>
                  && r.value.Parents() == parents && r.value.objectId == o && r.value.id == stamp.id
                  && r.value.createdAt == stamp.now && r.value.createdBy == stamp.client && r.value.content == content
                  && exists first :: (o, first) in heads && (forall h :: (o, h) in heads ==> first <= h)
                                     && r.value.objectType == heads[(o, first)].objectType)
  {
    var r := MergeRevision(heads, o, parents, content, stamp);
    if r.Ok? {
      FirstHead(heads, o);
    }
    if |parents| >= 2 {
      assert parents[0] in parents;
      assert Merge(parents[0], parents[1], parents[2..]).Parents() == parents;
    }
  }

  lemma FirstHead(heads: HeadStore, o: ObjectId)
    requires LocalHeads(heads, o) != {}
    ensures exists first :: (o, first) in heads && (forall h :: (o, h) in heads ==> first <= h)
                            && ObjectTypeOf(heads, o) == heads[(o, first)].objectType
  {
    hide LocalHeads;
    var first := Least(LocalHeads(heads, o));
    InLocalHeads(heads, o, first);
    forall h | (o, h) in heads
      ensures first <= h
    {
      InLocalHeads(heads, o, h);
    }
  }

  /** A head record shows a revision, field by field; data is there for active content only. */
  ghost predicate Displays(record: HeadRecord, o: ObjectId, rev: Revision) {
    && record.objectId == o && record.revisionId == rev.id
    && record.objectType == rev.objectType && record.content == rev.content && record.lineage == rev.lineage
    && forall v :: record.data == Some(v) <==> rev.content == Active(v)
  }

  /** `rev` has become the only head of its object, and nothing else has changed. */
  ghost predicate OnlyHead(before: HeadStore, now: HeadStore, rev: Revision) {
    && (forall k :: k in now <==> k == (rev.objectId, rev.id) || (k in before && k.0 != rev.objectId))
    && (forall k :: k in before && k.0 != rev.objectId ==> now[k] == before[k])
    && Displays(now[(rev.objectId, rev.id)], rev.objectId, rev)
  }

  /**
    An edit changes one record and one object: the new revision is recorded as pending, it is
    the only head of its object, and the next push sends it.
   */
  lemma PutLocalExactly(c: Client, rev: Revision)
    ensures var c' := PutLocal(c, rev);
            && (forall r :: r in c'.records <==> r == rev.id || r in c.records)
            && (forall r :: r in c.records && r != rev.id ==> c'.records[r] == c.records[r])
            && c'.records[rev.id].rev == rev && c'.records[rev.id].status == Pending
            && c'.cursor == c.cursor
            && OnlyHead(c.heads, c'.heads, rev)
            && forall batch :: PendingBatch(c'.records, batch) ==> rev in batch
  {
    hide Displays, HeadRecordOf;
    var c' := PutLocal(c, rev);
    HeadRecordDisplays(rev.objectId, rev);
    assert ReplaceHeads(c.heads, rev.objectId, [rev][..0]) == Without(c.heads, rev.objectId);
    assert c'.heads == PutHead(Without(c.heads, rev.objectId), HeadRecordOf(rev.objectId, rev));
    assert (HeadRecordOf(rev.objectId, rev).objectId, HeadRecordOf(rev.objectId, rev).revisionId)
           == (rev.objectId, rev.id);
  }

  lemma HeadRecordDisplays(o: ObjectId, rev: Revision)
    ensures Displays(HeadRecordOf(o, rev), o, rev)
    ensures HeadRecordOf(o, rev).objectId == o && HeadRecordOf(o, rev).revisionId == rev.id
  {}

  /** The last entry for an id decides what its head record shows. */
  ghost predicate LastEntry(revs: seq<Revision>, i: int) {
    0 <= i < |revs| && forall j :: i < j < |revs| ==> revs[j].id != revs[i].id
  }

  lemma {:induction false} EntriesDisplay(o: ObjectId, revs: seq<Revision>, i: int)
    requires LastEntry(revs, i)
    ensures (o, revs[i].id) in Entries(o, revs) && Displays(Entries(o, revs)[(o, revs[i].id)], o, revs[i])
  {
    hide Displays, HeadRecordOf;
    var n := |revs| - 1;
    HeadRecordDisplays(o, revs[n]);
    if i < n {
      EntriesDisplay(o, revs[..n], i);
    }
  }

  /** Replacing heads: exactly the given ones for this object, other objects untouched. */
  lemma ReplaceExactly(heads: HeadStore, o: ObjectId, revs: seq<Revision>)
    ensures var heads' := ReplaceHeads(heads, o, revs);
            && (forall k :: k in heads' <==> (k.0 == o && k.1 in Ids(revs)) || (k.0 != o && k in heads))
            && (forall k :: k in heads && k.0 != o ==> heads'[k] == heads[k])
            && (forall i :: LastEntry(revs, i) ==>
                 (o, revs[i].id) in heads' && Displays(heads'[(o, revs[i].id)], o, revs[i]))
  {
    hide Displays, Entries;
    ReplaceIsUnion(heads, o, revs);
    forall k
      ensures k in Entries(o, revs) <==> k.0 == o && k.1 in Ids(revs)
    {
      EntryKeys(o, revs, k);
    }
    forall i | LastEntry(revs, i)
      ensures (o, revs[i].id) in Entries(o, revs) && Displays(Entries(o, revs)[(o, revs[i].id)], o, revs[i])
    {
      EntriesDisplay(o, revs, i);
    }
  }

  /** Adding heads, each under its own object: no other key goes, comes or changes. */
  lemma {:induction false} AddExactly(heads: HeadStore, revs: seq<Revision>)
    ensures var heads' := AddHeads(heads, revs);
            && (forall k :: k in heads' <==> k in heads || exists rev :: rev in revs && k == (rev.objectId, rev.id))
            && (forall k :: k in heads && (forall rev :: rev in revs ==> k != (rev.objectId, rev.id)) ==>
                  heads'[k] == heads[k])
            && (forall i :: LastEntry(revs, i) ==>
                  var k := (revs[i].objectId, revs[i].id);
                  k in heads' && Displays(heads'[k], revs[i].objectId, revs[i]))
  {
    hide Displays, HeadRecordOf;
    if revs != [] {
      var n := |revs| - 1;
      HeadRecordDisplays(revs[n].objectId, revs[n]);
      AddExactly(heads, revs[..n]);
      assert revs == revs[..n] + [revs[n]];
      forall i | LastEntry(revs, i) && i < n
        ensures LastEntry(revs[..n], i)
      {}
    }
  }

  lemma PutLocalHeads(c: Client, rev: Revision, o: ObjectId)
    ensures LocalHeads(PutLocal(c, rev).heads, o) == if o == rev.objectId then {rev.id} else LocalHeads(c.heads, o)
  {
    var heads' := PutLocal(c, rev).heads;
    ReplaceIsUnion(c.heads, rev.objectId, [rev]);
    assert Ids([rev]) == [rev.id];
    forall r
      ensures r in LocalHeads(heads', o) <==>
              r in if o == rev.objectId then {rev.id} else LocalHeads(c.heads, o)
    {
      InLocalHeads(heads', o, r);
      InLocalHeads(c.heads, o, r);
      EntryKeys(rev.objectId, [rev], (o, r));
    }
  }

  // ---------------------------------------------------------------------------------------
  // Push answers

  /** Any answer of the scan of the status index: pending revisions, in id order. */
  ghost predicate PendingBatch(records: Records, batch: seq<Revision>) {
    && (forall i :: 0 <= i < |batch| ==> batch[i].id in records && records[batch[i].id] == Record(batch[i], Pending))
    && (forall r :: r in records && records[r].status == Pending ==> records[r].rev in batch)
    && (forall i, j :: 0 <= i < j < |batch| ==> batch[i].id < batch[j].id)
  }

  function SetStatus(records: Records, r: RevisionId, status: SyncStatus): Records {
    if r in records then records[r := records[r].(status := status)] else records
  }

  function MarkSynced(records: Records, ids: seq<RevisionId>): Records {
    if ids == [] then records
    else SetStatus(MarkSynced(records, ids[..|ids| - 1]), ids[|ids| - 1], Synced)
  }

  function MarkErrors(records: Records, rejected: seq<RejectedRevision>): Records {
    if rejected == [] then records
    else
      var last := rejected[|rejected| - 1];
      SetStatus(MarkErrors(records, rejected[..|rejected| - 1]), last.revisionId, SyncError(last.reason))
  }

  function ApplyPushAnswer(records: Records, accepted: seq<RevisionId>, rejected: seq<RejectedRevision>): Records {
    MarkErrors(MarkSynced(records, accepted), rejected)
  }

  ghost predicate SameRevisions(records: Records, records': Records) {
    records'.Keys == records.Keys && forall r :: r in records ==> records'[r].rev == records[r].rev
  }

  lemma {:induction false} MarkSyncedFacts(records: Records, ids: seq<RevisionId>)
    ensures SameRevisions(records, MarkSynced(records, ids))
    ensures forall r :: r in records ==>
              MarkSynced(records, ids)[r].status == if r in ids then Synced else records[r].status
  {
    if ids != [] {
      MarkSyncedFacts(records, ids[..|ids| - 1]);
      assert ids == ids[..|ids| - 1] + [ids[|ids| - 1]];
    }
  }

  /** The last entry for `r`; it decides the recorded reason. */
  ghost predicate LastRejection(rejected: seq<RejectedRevision>, r: RevisionId, i: int) {
    && 0 <= i < |rejected| && rejected[i].revisionId == r
    && forall j :: i < j < |rejected| ==> rejected[j].revisionId != r
  }

  ghost predicate RejectedIn(rejected: seq<RejectedRevision>, r: RevisionId) {
    exists i :: 0 <= i < |rejected| && rejected[i].revisionId == r
  }

  /** Records named by a rejection carry its reason, the others are untouched. */
  ghost predicate ErrorsMarked(records: Records, rejected: seq<RejectedRevision>, records': Records) {
    && SameRevisions(records, records')
    && (forall r, i :: r in records && LastRejection(rejected, r, i) ==>
         records'[r].status == SyncError(rejected[i].reason))
    && (forall r :: r in records && !RejectedIn(rejected, r) ==> records'[r].status == records[r].status)
  }

  lemma LastSnoc(init: seq<RejectedRevision>, last: RejectedRevision, r: RevisionId, i: int)
    ensures LastRejection(init + [last], r, i) <==>
            if r == last.revisionId then i == |init| else LastRejection(init, r, i)
    ensures RejectedIn(init + [last], r) <==> r == last.revisionId || RejectedIn(init, r)
  {
    var all := init + [last];
    assert all[|init|] == last;
    assert forall j :: 0 <= j < |init| ==> all[j] == init[j];
    if j :| 0 <= j < |init| && init[j].revisionId == r {
      assert all[j].revisionId == r;
    }
  }

  lemma {:induction false} MarkErrorsFacts(records: Records, rejected: seq<RejectedRevision>)
    ensures ErrorsMarked(records, rejected, MarkErrors(records, rejected))
  {
    if rejected != [] {
      var init, last := rejected[..|rejected| - 1], rejected[|rejected| - 1];
      assert rejected == init + [last];
      MarkErrorsFacts(records, init);
      hide LastRejection, RejectedIn;
      forall r, i
        ensures LastRejection(rejected, r, i) <==>
                if r == last.revisionId then i == |init| else LastRejection(init, r, i)
        ensures RejectedIn(rejected, r) <==> r == last.revisionId || RejectedIn(init, r)
      {
        LastSnoc(init, last, r, i);
      }
      forall r, i | r in records && LastRejection(rejected, r, i)
        ensures MarkErrors(records, rejected)[r].status == SyncError(rejected[i].reason)
      {
        LastIndex(rejected, r, i);
      }
    }
  }

  lemma LastIndex(rejected: seq<RejectedRevision>, r: RevisionId, i: int)
    requires LastRejection(rejected, r, i)
    ensures 0 <= i < |rejected| && rejected[i].revisionId == r
  {}

  /** After an answer, accepted records are synced, rejected ones in error, others untouched. */
  lemma PushAnswerFacts(records: Records, accepted: seq<RevisionId>, rejected: seq<RejectedRevision>)
    ensures var records' := ApplyPushAnswer(records, accepted, rejected);
            && SameRevisions(records, records')
            && (forall r, i :: r in records && LastRejection(rejected, r, i) ==>
                 records'[r].status == SyncError(rejected[i].reason))
            && (forall r :: r in records && !RejectedIn(rejected, r) ==>
                  records'[r].status == if r in accepted then Synced else records[r].status)
  {
    hide MarkSynced, MarkErrors, LastRejection, RejectedIn;
    MarkSyncedFacts(records, accepted);
    MarkErrorsFacts(MarkSynced(records, accepted), rejected);
  }

  lemma {:induction false} RejectedHasLast(rejected: seq<RejectedRevision>, r: RevisionId)
    requires RejectedIn(rejected, r)
    ensures exists i :: LastRejection(rejected, r, i)
  {
    var init, last := rejected[..|rejected| - 1], rejected[|rejected| - 1];
    assert rejected == init + [last];
    if last.revisionId == r {
      assert LastRejection(rejected, r, |init|);
    } else {
      LastSnoc(init, last, r, 0);
      RejectedHasLast(init, r);
      var i :| LastRejection(init, r, i);
      LastSnoc(init, last, r, i);
      assert LastRejection(rejected, r, i);
    }
  }

  // ---------------------------------------------------------------------------------------
  // Pull answers

  function PutSynced(records: Records, revs: seq<Revision>): Records {
    if revs == [] then records
    else PutSynced(records, revs[..|revs| - 1])[revs[|revs| - 1].id := Record(revs[|revs| - 1], Synced)]
  }

  /** Parents named by the incoming heads. */
  predicate Supersedes(revs: seq<Revision>, r: RevisionId) {
    exists i :: 0 <= i < |revs| && r in revs[i].Parents()
  }

  /** Some local head is neither incoming nor a direct parent of an incoming head. */
  predicate Diverged(heads: HeadStore, u: ObjectUpdate) {
    exists h :: h in LocalHeads(heads, u.objectId) && h !in Ids(u.heads) && !Supersedes(u.heads, h)
  }

  predicate Clean(heads: HeadStore, u: ObjectUpdate) {
    u.action.Replace? && !Diverged(heads, u)
  }

  function Reconcile(heads: HeadStore, u: ObjectUpdate): HeadStore {
    if Clean(heads, u) then ReplaceHeads(heads, u.objectId, u.heads) else AddHeads(heads, u.heads)
  }

  function ApplyUpdate(c: Client, u: ObjectUpdate): Client {
    c.(records := PutSynced(c.records, u.heads), heads := Reconcile(c.heads, u))
  }

  function ApplyUpdates(c: Client, us: seq<ObjectUpdate>): Client {
    if us == [] then c else ApplyUpdate(ApplyUpdates(c, us[..|us| - 1]), us[|us| - 1])
  }

  /** All heads of the update are revisions of its object, as the graph has them. */
  ghost predicate UpdateOf(g: Graph, u: ObjectUpdate) {
    forall rev :: rev in u.heads ==> rev.objectId == u.objectId && rev.id in g && g[rev.id] == rev
  }

  lemma ReconcileIsUnion(heads: HeadStore, u: ObjectUpdate)
    requires AllOf(u.objectId, u.heads)
    ensures Reconcile(heads, u) ==
            (if Clean(heads, u) then Without(heads, u.objectId) else heads) + Entries(u.objectId, u.heads)
  {
    ReplaceIsUnion(heads, u.objectId, u.heads);
    AddIsUnion(heads, u.objectId, u.heads);
  }

  /** The head ids of every object after reconciliation. */
  lemma ReconcileHeads(heads: HeadStore, u: ObjectUpdate, o: ObjectId)
    requires AllOf(u.objectId, u.heads)
    ensures LocalHeads(Reconcile(heads, u), o) ==
            if o != u.objectId then LocalHeads(heads, o)
            else if Clean(heads, u) then (set r | r in Ids(u.heads))
            else LocalHeads(heads, o) + (set r | r in Ids(u.heads))
  {
    hide Entries, Reconcile, LocalHeads, Clean;
    ReconcileIsUnion(heads, u);
    var heads' := Reconcile(heads, u);
    forall r
      ensures r in LocalHeads(heads', o) <==>
              if o != u.objectId then r in LocalHeads(heads, o)
              else if Clean(heads, u) then r in Ids(u.heads)
              else r in LocalHeads(heads, o) || r in Ids(u.heads)
    {
      InLocalHeads(heads', o, r);
      InLocalHeads(heads, o, r);
      EntryKeys(u.objectId, u.heads, (o, r));
    }
  }

  /**
    Reconciliation moves every local head forward: a head it drops is a direct parent of an
    incoming head, so whatever was covered stays covered, and the incoming heads are covered too.
   */
  lemma ReconcileCovers(g: Graph, heads: HeadStore, u: ObjectUpdate, h: RevisionId)
    requires UpdateOf(g, u)
    requires h in LocalHeads(heads, u.objectId) || h in Ids(u.heads)
    ensures Covered(g, h, LocalHeads(Reconcile(heads, u), u.objectId))
    ensures h !in LocalHeads(Reconcile(heads, u), u.objectId) ==> Supersedes(u.heads, h)
  {
    hide Reconcile, LocalHeads;
    ReconcileHeads(heads, u, u.objectId);
    var heads' := LocalHeads(Reconcile(heads, u), u.objectId);
    if h in heads' {
      AncestorRefl(g, h);
    } else {
      var i :| 0 <= i < |u.heads| && h in u.heads[i].Parents();
      assert u.heads[i] in u.heads && Ids(u.heads)[i] == u.heads[i].id;
      ParentIsAncestor(g, h, u.heads[i].id);
      assert u.heads[i].id in heads';
    }
  }

  /**
    A single incoming head that is, or directly succeeds, every local head becomes the only
    head; in every other case all local heads stay and the incoming ones join them.
   */
  lemma ReconcileOutcome(heads: HeadStore, u: ObjectUpdate)
    requires AllOf(u.objectId, u.heads)
    ensures var local, local' := LocalHeads(heads, u.objectId), LocalHeads(Reconcile(heads, u), u.objectId);
            if u.action == Replace && forall h :: h in local ==>
                                        exists rev :: rev in u.heads && (h == rev.id || h in rev.Parents())
            then forall r :: r in local' <==> exists rev :: rev in u.heads && rev.id == r
            else forall r :: r in local' <==> r in local || exists rev :: rev in u.heads && rev.id == r
  {
    hide LocalHeads, Reconcile;
    ReconcileHeads(heads, u, u.objectId);
    forall r
      ensures r in Ids(u.heads) <==> exists rev :: rev in u.heads && rev.id == r
    {
      IdsMember(u.heads, r);
    }
    forall h
      ensures h in Ids(u.heads) || Supersedes(u.heads, h) <==>
              exists rev :: rev in u.heads && (h == rev.id || h in rev.Parents())
    {
      if rev :| rev in u.heads && h in rev.Parents() {
        var i :| 0 <= i < |u.heads| && u.heads[i] == rev;
      }
    }
  }

  lemma IdsMember(revs: seq<Revision>, r: RevisionId)
    ensures r in Ids(revs) <==> exists rev :: rev in revs && rev.id == r
  {
    if rev :| rev in revs && rev.id == r {
      var i :| 0 <= i < |revs| && revs[i] == rev;
      assert Ids(revs)[i] == r;
    }
    if r in Ids(revs) {
      var i :| 0 <= i < |revs| && Ids(revs)[i] == r;
      assert revs[i] in revs;
    }
  }

  // ---------------------------------------------------------------------------------------
  // Replaying an interrupted pull

  lemma ReconcileTwice(heads: HeadStore, u: ObjectUpdate)
    requires AllOf(u.objectId, u.heads)
    ensures Reconcile(Reconcile(heads, u), u) == Reconcile(heads, u)
  {
    hide Entries, Reconcile, LocalHeads;
    var once := Reconcile(heads, u);
    ReconcileHeads(heads, u, u.objectId);
    ReconcileIsUnion(heads, u);
    ReconcileIsUnion(once, u);
    assert Clean(once, u) <==> Clean(heads, u);
    if Clean(heads, u) {
      assert Without(once, u.objectId) == Without(heads, u.objectId) by {
        forall k { EntryKeys(u.objectId, u.heads, k); }
      }
    }
  }

  lemma ReconcileCommutes(heads: HeadStore, u: ObjectUpdate, v: ObjectUpdate)
    requires AllOf(u.objectId, u.heads) && AllOf(v.objectId, v.heads) && u.objectId != v.objectId
    ensures Reconcile(Reconcile(heads, u), v) == Reconcile(Reconcile(heads, v), u)
  {
    hide Entries, Reconcile, LocalHeads;
    ReconcileHeads(heads, u, v.objectId);
    ReconcileHeads(heads, v, u.objectId);
    ReconcileIsUnion(heads, u);
    ReconcileIsUnion(heads, v);
    ReconcileIsUnion(Reconcile(heads, u), v);
    ReconcileIsUnion(Reconcile(heads, v), u);
    assert Clean(Reconcile(heads, u), v) <==> Clean(heads, v);
    assert Clean(Reconcile(heads, v), u) <==> Clean(heads, u);
    forall k
      ensures k in Entries(u.objectId, u.heads) ==> k.0 == u.objectId
      ensures k in Entries(v.objectId, v.heads) ==> k.0 == v.objectId
    {
      EntryKeys(u.objectId, u.heads, k);
      EntryKeys(v.objectId, v.heads, k);
    }
    MergesCommute(heads, u.objectId, Clean(heads, u), Entries(u.objectId, u.heads),
                  v.objectId, Clean(heads, v), Entries(v.objectId, v.heads));
  }

  /** Optionally clear one object, then add entries for it. */
  ghost function MergeIn(heads: HeadStore, o: ObjectId, clear: bool, entries: HeadStore): HeadStore {
    (if clear then Without(heads, o) else heads) + entries
  }

  lemma MergesCommute(heads: HeadStore, o: ObjectId, clear: bool, e: HeadStore, o': ObjectId, clear': bool,
                      e': HeadStore)
    requires o != o'
    requires (forall k :: k in e ==> k.0 == o) && (forall k :: k in e' ==> k.0 == o')
    ensures MergeIn(MergeIn(heads, o, clear, e), o', clear', e') == MergeIn(MergeIn(heads, o', clear', e'), o, clear, e)
  {
    hide MergeIn;
    var x, y := MergeIn(heads, o, clear, e), MergeIn(heads, o', clear', e');
    forall k
      ensures k in MergeIn(x, o', clear', e') <==> k in MergeIn(y, o, clear, e)
      ensures k in MergeIn(x, o', clear', e') ==> MergeIn(x, o', clear', e')[k] == MergeIn(y, o, clear, e)[k]
    {
      MergeInAt(heads, o, clear, e, k);
      MergeInAt(heads, o', clear', e', k);
      MergeInAt(x, o', clear', e', k);
      MergeInAt(y, o, clear, e, k);
    }
  }

  lemma MergeInAt(heads: HeadStore, o: ObjectId, clear: bool, e: HeadStore, k: (ObjectId, RevisionId))
    ensures k in MergeIn(heads, o, clear, e) <==> k in e || (k in heads && !(clear && k.0 == o))
    ensures k in MergeIn(heads, o, clear, e) ==> MergeIn(heads, o, clear, e)[k] == if k in e then e[k] else heads[k]
  {}

  lemma {:induction false} PutSyncedFacts(g: Graph, records: Records, revs: seq<Revision>)
    requires forall rev :: rev in revs ==> rev.id in g && g[rev.id] == rev
    ensures PutSynced(records, revs).Keys == records.Keys + (set r | r in Ids(revs))
    ensures forall r :: r in PutSynced(records, revs) ==>
              if r in Ids(revs) then r in g && PutSynced(records, revs)[r] == Record(g[r], Synced)
              else PutSynced(records, revs)[r] == records[r]
  {
    if revs != [] {
      var init, last := revs[..|revs| - 1], revs[|revs| - 1];
      PutSyncedFacts(g, records, init);
      assert Ids(revs) == Ids(init) + [last.id];
      assert last in revs;
    }
  }

  lemma ApplyTwice(g: Graph, c: Client, u: ObjectUpdate)
    requires UpdateOf(g, u)
    ensures ApplyUpdate(ApplyUpdate(c, u), u) == ApplyUpdate(c, u)
  {
    hide PutSynced, Reconcile;
    ReconcileTwice(c.heads, u);
    PutSyncedFacts(g, c.records, u.heads);
    PutSyncedFacts(g, PutSynced(c.records, u.heads), u.heads);
  }

  lemma RecordsCommute(g: Graph, records: Records, a: seq<Revision>, b: seq<Revision>)
    requires forall rev :: rev in a || rev in b ==> rev.id in g && g[rev.id] == rev
    ensures PutSynced(PutSynced(records, a), b) == PutSynced(PutSynced(records, b), a)
  {
    hide PutSynced, Ids;
    PutSyncedFacts(g, records, a);
    PutSyncedFacts(g, records, b);
    PutSyncedFacts(g, PutSynced(records, a), b);
    PutSyncedFacts(g, PutSynced(records, b), a);
  }

  lemma ApplyCommutes(g: Graph, c: Client, u: ObjectUpdate, v: ObjectUpdate)
    requires UpdateOf(g, u) && UpdateOf(g, v) && u.objectId != v.objectId
    ensures ApplyUpdate(ApplyUpdate(c, u), v) == ApplyUpdate(ApplyUpdate(c, v), u)
  {
    hide PutSynced, Reconcile;
    ReconcileCommutes(c.heads, u, v);
    RecordsCommute(g, c.records, u.heads, v.heads);
  }

  /** A well-formed answer: at most one update per object, all showing revisions of `g`. */
  ghost predicate AnswerOf(g: Graph, us: seq<ObjectUpdate>) {
    && (forall i :: 0 <= i < |us| ==> UpdateOf(g, us[i]))
    && (forall i, j :: 0 <= i < j < |us| ==> us[i].objectId != us[j].objectId)
  }

  /** An update of another object can be moved behind a list of updates. */
  lemma {:induction false} ApplyPast(g: Graph, c: Client, u: ObjectUpdate, us: seq<ObjectUpdate>)
    requires UpdateOf(g, u) && forall i :: 0 <= i < |us| ==> UpdateOf(g, us[i]) && us[i].objectId != u.objectId
    ensures ApplyUpdates(ApplyUpdate(c, u), us) == ApplyUpdate(ApplyUpdates(c, us), u)
  {
    if us != [] {
      var init, last := us[..|us| - 1], us[|us| - 1];
      ApplyPast(g, c, u, init);
      ApplyCommutes(g, ApplyUpdates(c, init), u, last);
    }
  }

  lemma UpdatesSnoc(c: Client, us: seq<ObjectUpdate>, u: ObjectUpdate)
    ensures ApplyUpdates(c, us + [u]) == ApplyUpdate(ApplyUpdates(c, us), u)
  {
    assert (us + [u])[..|us|] == us;
  }

  /** Applying one update of a list beforehand makes no difference. */
  lemma {:induction false} ApplyAbsorbs(g: Graph, c: Client, us: seq<ObjectUpdate>, i: nat)
    requires AnswerOf(g, us) && i < |us|
    ensures ApplyUpdates(ApplyUpdate(c, us[i]), us) == ApplyUpdates(c, us)
  {
    hide ApplyUpdate, UpdateOf;
    var init, last := us[..|us| - 1], us[|us| - 1];
    if i < |init| {
      ApplyAbsorbs(g, c, init, i);
    } else {
      ApplyPast(g, c, last, init);
      ApplyTwice(g, ApplyUpdates(c, init), last);
    }
  }

  /**
    A pull interrupted after any number of object updates can be replayed: applying the whole
    answer again gives the records and heads that applying it once would have given.
   */
  lemma {:induction false} InterruptedPullReplays(g: Graph, c: Client, us: seq<ObjectUpdate>, k: nat)
    requires AnswerOf(g, us) && k <= |us|
    ensures ApplyUpdates(ApplyUpdates(c, us[..k]), us) == ApplyUpdates(c, us)
  {
    hide ApplyUpdate, AnswerOf;
    if k > 0 {
      InterruptedPullReplays(g, c, us, k - 1);
      assert us[..k] == us[..k - 1] + [us[k - 1]];
      UpdatesSnoc(c, us[..k - 1], us[k - 1]);
      ApplyAbsorbs(g, ApplyUpdates(c, us[..k - 1]), us, k - 1);
    }
  }
}
