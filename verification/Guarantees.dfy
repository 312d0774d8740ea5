/** What every run of the whole system guarantees to its users. */
module Guarantees {
  import opened Core
  import opened Dag
  import opened HeadIndex
  import opened Push
  import PushLaws
  import ServerRuns
  import opened Pull
  import opened ClientModel
  import opened Network
  import opened NetworkInv
  import opened NetworkPulls

  /**
    No foreign update is ever missed: whatever is in a transaction up to the stored cursor is an
    ancestor-or-equal of a local head of its object.
   */
  lemma NothingIsMissed(events: seq<Event>, me: ClientId, i: nat, r: RevisionId)
    requires var s := After(events);
             && me in s.clients && s.clients[me].cursor.Some?
             && i < |s.net.server.txns| && r in s.net.server.txns[i].revisions
             && s.net.server.txns[i].id <= s.clients[me].cursor.value
    ensures var s := After(events);
            r in s.dag && Covered(s.dag, r, LocalHeads(s.clients[me].heads, s.dag[r].objectId))
  {
    hide After, Step;
    AfterInv(events);
    CursorIsCaught(After(events), me, i, r);
  }

  lemma CursorIsCaught(s: State, me: ClientId, i: nat, r: RevisionId)
    requires Inv(s) && me in s.clients && s.clients[me].cursor.Some?
    requires i < |s.net.server.txns| && r in s.net.server.txns[i].revisions
    requires s.net.server.txns[i].id <= s.clients[me].cursor.value
    ensures Kept(s.dag, s.clients[me], r)
  {
    hide Kept, StoreOk, Flatten, RecordsOk, HeadsOk, OwnOk, DagOk, PullOk, BatchOk, ServerRuns.CallOk;
    assert ClientOk(s.dag, s.net.server, me, s.clients[me]);
    assert InWindow(s.net.server.txns, 0, s.clients[me].cursor.value, r);
  }

  /**
    No local work is lost: each revision a client ever created is still recorded there and is an
    ancestor-or-equal of one of its current heads.
   */
  lemma NoLocalWorkIsLost(events: seq<Event>, r: RevisionId)
    requires r in After(events).dag
    ensures var s := After(events);
            var me := s.dag[r].createdBy;
            && me in s.clients && r in s.clients[me].records && s.clients[me].records[r].rev == s.dag[r]
            && Covered(s.dag, r, LocalHeads(s.clients[me].heads, s.dag[r].objectId))
  {
    hide After, Step;
    AfterInv(events);
    OwnIsKept(After(events), r);
  }

  lemma OwnIsKept(s: State, r: RevisionId)
    requires Inv(s) && r in s.dag
    ensures var me := s.dag[r].createdBy;
            me in s.clients && r in s.clients[me].records && s.clients[me].records[r].rev == s.dag[r]
            && Kept(s.dag, s.clients[me], r)
  {
    hide Kept, ServerRuns.Inv, HeadsOk, Caught, DagOk, PullOk, BatchOk;
    assert ClientOk(s.dag, s.net.server, s.dag[r].createdBy, s.clients[s.dag[r].createdBy]);
  }

  /**
    A head that applying an object update removes is a direct parent of an incoming head and is
    already stored on the server.
   */
  lemma RemovedHeadsAreStored(events: seq<Event>, k: nat, o: ObjectId, h: RevisionId)
    requires var s := After(events);
             && k in s.pulls && s.pulls[k].Applying? && s.pulls[k].applied < |s.pulls[k].updates|
             && s.pulls[k].client in s.clients
             && h in LocalHeads(s.clients[s.pulls[k].client].heads, o)
             && var s' := After(events + [ApplyNext(k)]);
                s.pulls[k].client in s'.clients && h !in LocalHeads(s'.clients[s.pulls[k].client].heads, o)
    ensures var s := After(events);
            Supersedes(s.pulls[k].updates[s.pulls[k].applied].heads, h) && h in s.net.server.revs
  {
    hide After, Inv, ApplyUpdate, LocalHeads;
    AfterInv(events);
    AfterSnoc(events, ApplyNext(k));
    RemovedHead(After(events), k, o, h);
  }

  lemma RemovedHead(s: State, k: nat, o: ObjectId, h: RevisionId)
    requires Inv(s) && k in s.pulls && s.pulls[k].Applying? && s.pulls[k].applied < |s.pulls[k].updates|
    requires h in LocalHeads(s.clients[s.pulls[k].client].heads, o)
    requires h !in LocalHeads(Applied(s, k).clients[s.pulls[k].client].heads, o)
    ensures Supersedes(s.pulls[k].updates[s.pulls[k].applied].heads, h) && h in s.net.server.revs
  {
    hide LocalHeads, Reconcile, ClientOk, DagOk, BatchOk, KeptOrComing, TxnsOk;
    var p := s.pulls[k];
    var u := p.updates[p.applied];
    var g := s.net.server.revs;
    assert PullOk(s.dag, s.net.server, s.clients[p.client], p);
    assert UpdateOf(g, u);
    if o != u.objectId {
      UpdateElsewhere(g, s.clients[p.client].heads, u, o);
    }
    ReconcileCovers(g, s.clients[p.client].heads, u, h);
    var i :| 0 <= i < |u.heads| && h in u.heads[i].Parents();
    assert u.heads[i] in u.heads;
    TableFacts(s.net.server.log);
  }

  /** Synced means stored, with equal fields; pending means created here. */
  lemma SyncedMeansStored(events: seq<Event>, me: ClientId, r: RevisionId)
    requires var s := After(events); me in s.clients && r in s.clients[me].records
    ensures var s := After(events);
            && (s.clients[me].records[r].status == Synced ==>
                  r in s.net.server.revs && s.net.server.revs[r] == s.clients[me].records[r].rev)
            && (s.clients[me].records[r].status == Pending ==> s.clients[me].records[r].rev.createdBy == me)
  {
    hide After, Step;
    AfterInv(events);
    SyncedIsStored(After(events), me, r);
  }

  lemma SyncedIsStored(s: State, me: ClientId, r: RevisionId)
    requires Inv(s) && me in s.clients && r in s.clients[me].records
    ensures s.clients[me].records[r].status == Synced ==>
              r in s.net.server.revs && s.net.server.revs[r] == s.clients[me].records[r].rev
    ensures s.clients[me].records[r].status == Pending ==> s.clients[me].records[r].rev.createdBy == me
  {
    hide ServerRuns.Inv, HeadsOk, Caught, DagOk, PullOk, BatchOk, OwnOk;
    assert ClientOk(s.dag, s.net.server, me, s.clients[me]);
  }

  /**
    Once a push has been answered and the answer applied, everything it sent is still recorded
    and none of it is still pending.
   */
  lemma AnsweredPushLeavesNothingPending(events: seq<Event>, k: nat, rev: Revision)
    requires var s := After(events); CanDeliver(s, k, 0, 0) && rev in s.net.calls[k].run.batch
    ensures var run := After(events).net.calls[k].run;
            var s' := After(events + [DeliverPush(k, |run.AcceptedRevs()|, |run.RejectedRevs()|)]);
            && run.client in s'.clients
            && var records := s'.clients[run.client].records;
               rev.id in records && records[rev.id].rev == rev && records[rev.id].status != Pending
  {
    hide After, Inv, ApplyPushAnswer, AcceptedOf, RejectedOf, Ids;
    var s := After(events);
    var run := s.net.calls[k].run;
    AfterInv(events);
    AfterSnoc(events, DeliverPush(k, |run.AcceptedRevs()|, |run.RejectedRevs()|));
    NothingPending(s, k, rev);
  }

  lemma SentIsRecorded(s: State, k: nat, rev: Revision)
    requires Inv(s) && k in s.net.calls && rev in s.net.calls[k].run.batch
    ensures var me := s.net.calls[k].run.client;
            me in s.clients && rev.id in s.clients[me].records && s.clients[me].records[rev.id].rev == rev
  {
    hide Kept, ServerRuns.Inv, HeadsOk, Caught, DagOk, PullOk;
    assert BatchOk(s.dag, s.net.calls[k].run.client, s.net.calls[k].run.batch);
    OwnIsKept(s, rev.id);
  }

  lemma NothingPending(s: State, k: nat, rev: Revision)
    requires Inv(s) && CanDeliver(s, k, 0, 0) && rev in s.net.calls[k].run.batch
    ensures var records := DeliveredFully(s, k).clients[s.net.calls[k].run.client].records;
            rev.id in records && records[rev.id].rev == rev && records[rev.id].status != Pending
  {
    hide ApplyPushAnswer, ClientOk, DagOk, BatchOk, PullOk, ServerOk, RejectedIn, Ids, AcceptedOf, RejectedOf;
    SentIsRecorded(s, k, rev);
    assert ServerRuns.CallOk(s.net.server, s.net.calls[k]);
    var run := s.net.calls[k].run;
    var records := s.clients[run.client].records;
    var accepted, rejected := Ids(run.AcceptedRevs()), run.RejectedRevs();
    SameLengthIds(run.AcceptedRevs());
    assert accepted[..|accepted|] == accepted && rejected[..|rejected|] == rejected;
    AcceptedOrRejected(run, rev);
    MarkedIsNotPending(records, run, rev.id);
  }

  lemma SameLengthIds(revs: seq<Revision>)
    ensures |Ids(revs)| == |revs|
  {}

  lemma MarkedIsNotPending(records: Records, run: PushRun, r: RevisionId)
    requires run.Valid() && r in records && (r in Ids(run.AcceptedRevs()) || RejectedIn(run.RejectedRevs(), r))
    ensures var records' := ApplyPushAnswer(records, Ids(run.AcceptedRevs()), run.RejectedRevs());
            && r in records' && records'[r].rev == records[r].rev && records'[r].status != Pending
            && (records'[r].status.SyncError? <==> RejectedIn(run.RejectedRevs(), r))
  {
    hide ApplyPushAnswer, RejectedIn, LastRejection, Ids, AcceptedOf, RejectedOf;
    var rejected := run.RejectedRevs();
    PushAnswerFacts(records, Ids(run.AcceptedRevs()), rejected);
    if RejectedIn(rejected, r) {
      RejectedHasLast(rejected, r);
      var i :| LastRejection(rejected, r, i);
      LastIndex(rejected, r, i);
    }
  }

  /**
    A push repeated after its answer was lost is harmless on the server, but the client records
    as rejected, although the server has them, exactly the revisions that were stored before; of
    the others it records exactly the stored ones as synced.
   */
  lemma RetriedPushIsMarkedError(s: Server, client: ClientId, records: Records, batch: seq<Revision>, rev: Revision)
    requires ServerOk(s) && PendingBatch(records, batch) && rev in batch
    ensures PushLaws.PushAll(s, client, batch).Committed?
    ensures var s' := PushLaws.PushAll(s, client, batch).server;
            var run := Validate(s.revs, Start(client, batch));
            var records' := ApplyPushAnswer(records, Ids(run.AcceptedRevs()), run.RejectedRevs());
            && rev.id in records' && records'[rev.id].status != Pending
            && (records'[rev.id].status.SyncError? && rev.id in s'.revs <==> rev.id in s.revs)
            && (rev.id !in s.revs ==> (records'[rev.id].status == Synced <==> rev.id in s'.revs))
  {
    hide ApplyPushAnswer, RejectedIn, Ids, AcceptedOf, RejectedOf, Validate, ServerOk, PushLaws.PushAll, PushLaws.Sound;
    var run := Validate(s.revs, Start(client, batch));
    assert Distinct(batch);
    PushLaws.PushSucceeds(s, client, batch);
    AcceptedOrRejected(run, rev);
    MarkedIsNotPending(records, run, rev.id);
    NotBoth(run, rev);
    StoredIffAccepted(s, client, batch, rev);
  }

  /** Without repeated ids, the answer calls a revision rejected exactly if it is not accepted. */
  lemma NotBoth(run: PushRun, rev: Revision)
    requires run.Valid() && run.Done() && Distinct(run.batch) && rev in run.batch
    ensures RejectedIn(run.RejectedRevs(), rev.id) <==> rev !in run.AcceptedRevs()
  {
    hide AcceptedOf, RejectedOf;
    AcceptedMember(run.batch, run.verdicts, rev);
    var i :| 0 <= i < |run.batch| && run.batch[i] == rev;
    if RejectedIn(run.RejectedRevs(), rev.id) {
      RejectedFrom(run.batch, run.verdicts, rev.id);
    }
    if run.verdicts[i].Rejected? {
      RejectedMember(run.batch, run.verdicts, i);
    }
  }

  lemma {:induction false} RejectedFrom(batch: seq<Revision>, verdicts: seq<Verdict>, r: RevisionId)
    requires |verdicts| <= |batch| && RejectedIn(RejectedOf(batch, verdicts), r)
    ensures exists i :: 0 <= i < |verdicts| && verdicts[i].Rejected? && batch[i].id == r
  {
    var n := |verdicts| - 1;
    var part, whole := RejectedOf(batch, verdicts[..n]), RejectedOf(batch, verdicts);
    var j :| 0 <= j < |whole| && whole[j].revisionId == r;
    if j < |part| {
      assert whole[j] == part[j];
      RejectedFrom(batch, verdicts[..n], r);
      var i :| 0 <= i < n && verdicts[..n][i].Rejected? && batch[i].id == r;
      assert verdicts[i].Rejected?;
    }
  }

  /** After an uninterrupted push exactly the old and the accepted revisions are stored. */
  lemma StoredIffAccepted(s: Server, client: ClientId, batch: seq<Revision>, rev: Revision)
    requires ServerOk(s) && Distinct(batch) && rev in batch && PushLaws.PushAll(s, client, batch).Committed?
    ensures var accepted := Validate(s.revs, Start(client, batch)).AcceptedRevs();
            && (rev.id in PushLaws.PushAll(s, client, batch).server.revs <==> rev.id in s.revs || rev in accepted)
            && (rev in accepted ==> rev.id !in s.revs)
  {
    hide Commit, Validate, AcceptedOf, Grounded, StoreOk, TxnsOk;
    var run := Validate(s.revs, Start(client, batch));
    PushLaws.StartOk(s.revs, client, batch);
    ValidateOk(s.revs, Start(client, batch));
    CommitExact(s, run);
    var accepted := run.AcceptedRevs();
    if rev.id in Ids(accepted) {
      var j :| 0 <= j < |accepted| && Ids(accepted)[j] == rev.id;
      assert accepted[j] in accepted;
      SameId(batch, accepted[j], rev);
    }
  }

  lemma SameId(batch: seq<Revision>, a: Revision, b: Revision)
    requires Distinct(batch) && a in batch && b in batch && a.id == b.id
    ensures a == b
  {
    var i :| 0 <= i < |batch| && batch[i] == a;
    var j :| 0 <= j < |batch| && batch[j] == b;
  }

  /** The answer of a finished push speaks of every revision that was sent. */
  lemma AcceptedOrRejected(run: PushRun, rev: Revision)
    requires run.Valid() && run.Done() && rev in run.batch
    ensures rev.id in Ids(run.AcceptedRevs()) || RejectedIn(run.RejectedRevs(), rev.id)
  {
    var accepted := run.AcceptedRevs();
    var i :| 0 <= i < |run.batch| && run.batch[i] == rev;
    if run.verdicts[i].Accepted? {
      AcceptedMember(run.batch, run.verdicts, rev);
      var j :| 0 <= j < |accepted| && accepted[j] == rev;
      assert Ids(accepted)[j] == rev.id;
    } else {
      RejectedMember(run.batch, run.verdicts, i);
    }
  }

  lemma {:induction false} RejectedMember(batch: seq<Revision>, verdicts: seq<Verdict>, i: nat)
    requires i < |verdicts| <= |batch| && verdicts[i].Rejected?
    ensures RejectedIn(RejectedOf(batch, verdicts), batch[i].id)
  {
    var n := |verdicts| - 1;
    var part, whole := RejectedOf(batch, verdicts[..n]), RejectedOf(batch, verdicts);
    if i < n {
      RejectedMember(batch, verdicts[..n], i);
      var j :| 0 <= j < |part| && part[j].revisionId == batch[i].id;
      assert whole[j] == part[j];
    } else {
      assert whole[|part|].revisionId == batch[i].id;
    }
  }

  /** The head records a client shows are the revisions as they were created. */
  lemma LocalHeadsAreRevisions(events: seq<Event>, me: ClientId, o: ObjectId, h: RevisionId)
    requires var s := After(events); me in s.clients && (o, h) in s.clients[me].heads
    ensures var s := After(events);
            && h in s.dag && s.dag[h].objectId == o
            && var record := s.clients[me].heads[(o, h)];
               && record.objectId == o && record.revisionId == h
               && record.objectType == s.dag[h].objectType
               && record.content == s.dag[h].content
               && record.lineage == s.dag[h].lineage
               && forall v :: record.data == Some(v) <==> s.dag[h].content == Active(v)
  {
    hide After, Step, Inv;
    AfterInv(events);
    ClientHeads(After(events), me);
    HeadIdIsKey(After(events), me, o, h);
  }

  lemma HeadIdIsKey(s: State, me: ClientId, o: ObjectId, h: RevisionId)
    requires Inv(s) && me in s.clients && (o, h) in s.clients[me].heads
    ensures h in s.dag && s.dag[h].id == h
  {
    hide ServerRuns.Inv, PullOk, BatchOk, RecordsOk, OwnOk, Caught;
    assert ClientOk(s.dag, s.net.server, me, s.clients[me]);
  }

  /** A client whose cursor has reached the latest transaction has everything the server has. */
  lemma CaughtUpMeansEverything(events: seq<Event>, me: ClientId, r: RevisionId)
    requires var s := After(events);
             && me in s.clients && s.clients[me].cursor.Some?
             && s.clients[me].cursor.value >= MaxId(s.net.server.txns) && r in s.net.server.revs
    ensures var s := After(events);
            r in s.dag && Covered(s.dag, r, LocalHeads(s.clients[me].heads, s.dag[r].objectId))
  {
    hide After, Step, Inv, MaxId;
    AfterInv(events);
    var s := After(events);
    var i := TransactionOf(s, r);
    NothingIsMissed(events, me, i, r);
  }

  lemma TransactionOf(s: State, r: RevisionId) returns (i: nat)
    requires Inv(s) && r in s.net.server.revs
    ensures i < |s.net.server.txns| && r in s.net.server.txns[i].revisions
    ensures s.net.server.txns[i].id <= MaxId(s.net.server.txns)
  {
    hide ClientOk, PullOk, DagOk, BatchOk, StoreOk, Flatten;
    ServerRuns.PartitionOf(s.net, r);
    WatermarkBound(s.net.server.txns, s.net.server.sequence);
    i :| 0 <= i < |s.net.server.txns| && r in s.net.server.txns[i].revisions;
  }

  /** `p` is sent by `batch`, in object `o` and with an id smaller than `r`. */
  ghost predicate SentBefore(batch: seq<Revision>, o: ObjectId, r: RevisionId, p: RevisionId) {
    p < r && exists k :: 0 <= k < |batch| && batch[k].id == p && batch[k].objectId == o
  }

  /** The pusher's own, new, with distinct parents, each stored or sent with a smaller id. */
  ghost predicate InOrder(g: Graph, client: ClientId, batch: seq<Revision>, rev: Revision) {
    && rev.createdBy == client && rev.id !in g && NoDuplicates(rev.Parents())
    && forall p :: p in rev.Parents() ==>
         (p in g && g[p].objectId == rev.objectId) || SentBefore(batch, rev.objectId, rev.id, p)
  }

  ghost predicate IdOrder(batch: seq<Revision>) {
    forall i, j :: 0 <= i < j < |batch| ==> batch[i].id < batch[j].id
  }

  /** In id order, what is known before position `i` is what is stored or sent with a smaller id. */
  lemma KnownByOrder(g: Graph, batch: seq<Revision>, i: nat, o: ObjectId, p: RevisionId)
    requires IdOrder(batch) && i < |batch| && forall rev :: rev in batch ==> rev.id !in g
    ensures PushLaws.KnownIn(g, batch[..i], o, p) <==>
            (p in g && g[p].objectId == o) || SentBefore(batch, o, batch[i].id, p)
  {
    assert forall j :: 0 <= j < i ==> batch[..i][j] == batch[j] && batch[j] in batch;
    if j :| PushLaws.IsLast(batch[..i], p, j) && batch[..i][j].objectId == o {
      assert batch[j].id == p && batch[j].objectId == o;
    }
    if SentBefore(batch, o, batch[i].id, p) {
      var k :| 0 <= k < |batch| && batch[k].id == p && batch[k].objectId == o;
      assert PushLaws.IsLast(batch[..i], p, k);
    }
  }

  lemma AcceptableByOrder(g: Graph, client: ClientId, batch: seq<Revision>, i: nat)
    requires IdOrder(batch) && i < |batch| && forall rev :: rev in batch ==> rev.id !in g
    ensures PushLaws.Acceptable(g, client, batch[..i], batch[i]) <==> InOrder(g, client, batch, batch[i])
  {
    hide PushLaws.KnownIn, SentBefore, NoDuplicates, IdOrder;
    forall p | p in batch[i].Parents()
      ensures PushLaws.KnownIn(g, batch[..i], batch[i].objectId, p) <==>
              (p in g && g[p].objectId == batch[i].objectId) || SentBefore(batch, batch[i].objectId, batch[i].id, p)
    {
      KnownByOrder(g, batch, i, batch[i].objectId, p);
    }
  }

  /**
    Pending revisions are pushed in id order, not in the order of their creation.  Such a batch
    is accepted in full if and only if every revision in it is the pusher's, new, without
    repeated parents, and each parent is stored in its object or sent along with a smaller id.
   */
  lemma PendingAcceptance(g: Graph, client: ClientId, records: Records, batch: seq<Revision>)
    requires PendingBatch(records, batch)
    ensures PushLaws.AllYes(PushLaws.JudgeAll(g, client, batch)) <==>
            forall rev :: rev in batch ==> InOrder(g, client, batch, rev)
  {
    hide PushLaws.JudgeAll, PushLaws.AllYes, PushLaws.KnownIn, SentBefore, NoDuplicates, PendingBatch;
    assert IdOrder(batch) by { PendingInOrder(records, batch); }
    PushLaws.FullAcceptance(g, client, batch);
    if forall rev :: rev in batch ==> rev.id !in g {
      forall i | 0 <= i < |batch|
        ensures PushLaws.Acceptable(g, client, batch[..i], batch[i]) <==> InOrder(g, client, batch, batch[i])
      {
        AcceptableByOrder(g, client, batch, i);
      }
      hide PushLaws.Acceptable, InOrder;
      assert forall i :: 0 <= i < |batch| ==> batch[i] in batch;
    } else {
      var rev :| rev in batch && rev.id in g;
      var i :| 0 <= i < |batch| && batch[i] == rev;
      assert !PushLaws.Acceptable(g, client, batch[..i], batch[i]);
    }
  }

  lemma PendingInOrder(records: Records, batch: seq<Revision>)
    requires PendingBatch(records, batch)
    ensures IdOrder(batch)
  {}

  /** A client that creates an object and edits it offline can have its edit rejected. */
  lemma PendingOrderCanReject(client: ClientId, root: Revision, edit: Revision)
    requires root.id == 2 && root.lineage == Root && root.createdBy == client
    requires edit.id == 1 && edit.lineage == Update(2) && edit.createdBy == client && edit.objectId == root.objectId
    ensures PendingBatch(map[2 := Record(root, Pending), 1 := Record(edit, Pending)], [edit, root])
    ensures !PushLaws.AllYes(PushLaws.JudgeAll(map[], client, [edit, root]))
  {
    var records := map[2 := Record(root, Pending), 1 := Record(edit, Pending)];
    var batch := [edit, root];
    assert edit.Parents() == [2];
    assert batch[1].id == 2;
    PendingAcceptance(map[], client, records, batch);
    assert edit in batch && 2 in edit.Parents() && !InOrder(map[], client, batch, edit);
  }

  /**
    The id order is not enough: an edit sent after its parent was rejected for good has a parent
    that is known nowhere, whatever the ids are.
   */
  lemma OrphanIsRejected(client: ClientId, stored: Revision, edit: Revision)
    requires stored.id == 9 && stored.objectId == edit.objectId
    requires edit.id == 5 && edit.lineage == Update(3) && edit.createdBy == client
    ensures PushLaws.JudgeAll(map[9 := stored], client, [edit]) == [Rejected(UnknownParent)]
  {
    assert [edit][..0] == [];
    assert edit.Parents() == [3];
  }
}
