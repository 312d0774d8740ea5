/**
  Rejection is final.  A client never sends a rejected revision again, so neither it nor
  anything built on it can reach the server, in any continuation of any run.
 */
module Rejection {
  import opened Core
  import opened Dag
  import opened HeadIndex
  import opened Push
  import ServerRuns
  import opened ClientModel
  import opened Network
  import opened NetworkInv
  import opened NetworkPulls
  import opened Guarantees

  /** `r` is among the revisions sent by call `k`. */
  ghost predicate SentBy(s: State, k: nat, r: RevisionId) {
    k in s.net.calls && exists rev :: rev in s.net.calls[k].run.batch && rev.id == r
  }

  ghost predicate ErrorIn(records: Records, r: RevisionId) {
    r in records && records[r].status.SyncError?
  }

  /** Its creator holds `r` as an error, the server does not have it and no call carries it. */
  ghost predicate Stranded(s: State, r: RevisionId) {
    && r in s.dag && s.dag[r].createdBy in s.clients
    && ErrorIn(s.clients[s.dag[r].createdBy].records, r)
    && r !in s.net.server.revs
    && forall k :: !SentBy(s, k, r)
  }

  // ---------------------------------------------------------------------------------------
  // Each kind of step keeps a stranded revision stranded

  /** Steps that leave the server alone and the record of `r` as it is. */
  lemma StaysByRecord(s: State, s': State, r: RevisionId)
    requires Stranded(s, r) && s'.net == s.net && Sub(s.dag, s'.dag)
    requires var me := s.dag[r].createdBy;
             me in s'.clients && r in s'.clients[me].records
             && s'.clients[me].records[r].status == s.clients[me].records[r].status
    ensures Stranded(s', r)
  {
    forall k
      ensures !SentBy(s', k, r)
    {
      assert !SentBy(s, k, r);
    }
  }

  lemma EditStays(s: State, me: ClientId, rev: Revision, r: RevisionId)
    requires Stranded(s, r) && me in s.clients && rev.id !in s.dag
    ensures Stranded(Create(s, me, rev), r)
  {
    hide SentBy;
    StaysByRecord(s, Create(s, me, rev), r);
  }

  lemma EditEventStays(s: State, e: Event, r: RevisionId)
    requires Stranded(s, r) && (e.Save? || e.Edit? || e.Resolve?)
    ensures Stranded(Step(s, e), r)
  {
    hide Stranded, EditRevision, MergeRevision, FullResolution, FreshObject, Create;
    var me := e.stamp.client;
    if me in s.clients && Step(s, e) != s {
      match e {
        case Save(stamp, o, t, data) => EditStays(s, me, NewObject(o, t, data, stamp), r);
        case Edit(stamp, o, parent, content) =>
          EditIdIsStamp(s.clients[me].heads, o, parent, content, stamp);
          EditStays(s, me, EditRevision(s.clients[me].heads, o, parent, content, stamp).value, r);
        case Resolve(stamp, o, parents, content) =>
          MergeOutcome(s.clients[me].heads, o, parents, content, stamp);
          EditStays(s, me, MergeRevision(s.clients[me].heads, o, parents, content, stamp).value, r);
      }
    }
  }

  lemma EditIdIsStamp(heads: HeadStore, o: ObjectId, parent: RevisionId, content: Content, stamp: Stamp)
    ensures var rev := EditRevision(heads, o, parent, content, stamp); rev.Ok? ==> rev.value.id == stamp.id
  {}

  /** Only the creator could send `r`, and only while it is pending. */
  lemma NotPending(s: State, c: ClientId, batch: seq<Revision>, r: RevisionId)
    requires Inv(s) && Stranded(s, r) && c in s.clients && PendingBatch(s.clients[c].records, batch)
    ensures forall rev :: rev in batch ==> rev.id != r
  {
    hide SentBy, ServerRuns.Inv, PullOk, DagOk, BatchOk, HeadsOk, OwnOk, Caught;
    assert ClientOk(s.dag, s.net.server, c, s.clients[c]);
    forall rev | rev in batch
      ensures rev.id != r
    {
      var i :| 0 <= i < |batch| && batch[i] == rev;
    }
  }

  /** Every call after a server step was there before with the same batch, unless just begun. */
  lemma BatchesFrom(s: ServerRuns.State, e: ServerRuns.Event, k: nat)
    requires k in ServerRuns.Step(s, e).calls
    ensures var batch := ServerRuns.Step(s, e).calls[k].run.batch;
            || (k in s.calls && s.calls[k].run.batch == batch)
            || (e.Begin? && e.call == k && e.batch == batch)
  {
    hide Commit, Query;
    if e == ServerRuns.Ask(k) && k in s.calls && s.calls[k].run.Valid() && !s.calls[k].run.Done() {
      QueryKeepsBatch(s.server.revs, s.calls[k].run);
    }
  }

  lemma ServerStays(s: State, e: ServerRuns.Event, r: RevisionId)
    requires Inv(s) && Stranded(s, r) && (e.Begin? ==> forall rev :: rev in e.batch ==> rev.id != r)
    ensures Stranded(s.(net := ServerRuns.Step(s.net, e)), r)
  {
    hide ServerRuns.Step, PullOk, DagOk, BatchOk, ClientOk, ServerRuns.Inv;
    var s' := s.(net := ServerRuns.Step(s.net, e));
    forall k
      ensures !SentBy(s', k, r)
    {
      if k in s'.net.calls {
        BatchesFrom(s.net, e, k);
        assert !SentBy(s, k, r);
      }
    }
    if r in s'.net.server.revs {
      assert !SentBy(s, if e.Finish? then e.call else 0, r);
      ServerRuns.NewRevisions(s.net, e, r);
      assert false;
    }
  }

  lemma PushStays(s: State, c: ClientId, k: nat, batch: seq<Revision>, r: RevisionId)
    requires Inv(s) && Stranded(s, r)
    ensures Stranded(PushPending(s, c, k, batch), r)
  {
    hide Inv, Stranded, PendingBatch, ServerRuns.Step;
    if c in s.clients && batch != [] && PendingBatch(s.clients[c].records, batch) {
      NotPending(s, c, batch, r);
      ServerStays(s, ServerRuns.Begin(k, c, batch), r);
    }
  }

  /** An answer only speaks of what was sent. */
  lemma AnswerSpares(run: PushRun, records: Records, synced: nat, errors: nat, r: RevisionId)
    requires run.Valid() && synced <= |run.AcceptedRevs()| && errors <= |run.RejectedRevs()|
    requires r in records && forall rev :: rev in run.batch ==> rev.id != r
    ensures var records' := ApplyPushAnswer(records, Ids(run.AcceptedRevs())[..synced], run.RejectedRevs()[..errors]);
            r in records' && records'[r].status == records[r].status
  {
    hide ApplyPushAnswer, AcceptedOf, RejectedOf, LastRejection;
    var accepted, rejected := Ids(run.AcceptedRevs())[..synced], run.RejectedRevs()[..errors];
    PushAnswerFacts(records, accepted, rejected);
    if r in accepted {
      var i :| 0 <= i < |accepted| && accepted[i] == r;
      AcceptedMember(run.batch, run.verdicts, run.AcceptedRevs()[i]);
      assert false;
    }
    if RejectedIn(rejected, r) {
      var i :| 0 <= i < |rejected| && rejected[i].revisionId == r;
      assert run.RejectedRevs()[i] == rejected[i];
      RejectedFrom(run.batch, run.verdicts, r);
      assert false;
    }
  }

  lemma DeliverStays(s: State, k: nat, synced: nat, errors: nat, r: RevisionId)
    requires Inv(s) && Stranded(s, r) && CanDeliver(s, k, synced, errors)
    ensures Stranded(Delivered(s, k, synced, errors), r)
  {
    hide Inv, ApplyPushAnswer, AcceptedOf, RejectedOf, Ids;
    var run := s.net.calls[k].run;
    assert !SentBy(s, k, r);
    var me := s.dag[r].createdBy;
    if run.client == me {
      AnswerSpares(run, s.clients[me].records, synced, errors, r);
    }
    forall l
      ensures !SentBy(Delivered(s, k, synced, errors), l, r)
    {
      assert !SentBy(s, l, r);
    }
  }

  /** A pull only brings what is stored. */
  lemma AppliedStays(s: State, k: nat, r: RevisionId)
    requires Inv(s) && Stranded(s, r) && k in s.pulls && s.pulls[k].Applying?
             && s.pulls[k].applied < |s.pulls[k].updates|
    ensures s.pulls[k].client in s.clients && Stranded(Applied(s, k), r)
  {
    hide SentBy, PutSynced, Reconcile, ServerRuns.Inv, DagOk, BatchOk, ClientOk, KeptOrComing;
    var p := s.pulls[k];
    var u := p.updates[p.applied];
    assert PullOk(s.dag, s.net.server, s.clients[p.client], p);
    assert UpdateOf(s.net.server.revs, u);
    PutSyncedFacts(s.net.server.revs, s.clients[p.client].records, u.heads);
    StaysByRecord(s, Applied(s, k), r);
  }

  lemma CursorStays(s: State, s': State, r: RevisionId)
    requires Stranded(s, r) && s'.net == s.net && s'.dag == s.dag
    requires forall c :: c in s.clients ==> c in s'.clients && s'.clients[c].records == s.clients[c].records
    ensures Stranded(s', r)
  {
    hide SentBy;
    StaysByRecord(s, s', r);
  }

  // ---------------------------------------------------------------------------------------
  // All steps, all continuations

  /** Joining, reopening and all reads of a pull leave records and server alone. */
  lemma OtherEventStays(s: State, e: Event, r: RevisionId)
    requires Stranded(s, r)
    requires !e.Save? && !e.Edit? && !e.Resolve? && !e.StartPush? && !e.ServerStep? && !e.DeliverPush? && !e.ApplyNext?
    ensures Stranded(Step(s, e), r)
  {
    hide Stranded;
    CursorStays(s, Step(s, e), r);
  }

  lemma StepStays(s: State, e: Event, r: RevisionId)
    requires Inv(s) && Stranded(s, r)
    ensures Stranded(Step(s, e), r)
  {
    hide Inv, Stranded, CanDeliver, Delivered, Applied, ServerRuns.Step, PushPending, CreateIf, EditRevision,
      MergeRevision, FullResolution, FreshObject;
    match e
    case Save(_, _, _, _) => EditEventStays(s, e, r);
    case Edit(_, _, _, _) => EditEventStays(s, e, r);
    case Resolve(_, _, _, _) => EditEventStays(s, e, r);
    case StartPush(c, k, batch) => PushStays(s, c, k, batch, r);
    case ServerStep(ev) =>
      if !ev.Begin? {
        ServerStays(s, ev, r);
      }
    case DeliverPush(k, synced, errors) =>
      if CanDeliver(s, k, synced, errors) {
        DeliverStays(s, k, synced, errors, r);
      }
    case ApplyNext(k) =>
      if k in s.pulls && s.pulls[k].Applying? && s.pulls[k].applied < |s.pulls[k].updates|
         && s.pulls[k].client in s.clients {
        AppliedStays(s, k, r);
      }
    case _ => OtherEventStays(s, e, r);
  }

  lemma {:induction false} RunStays(events: seq<Event>, more: seq<Event>, r: RevisionId)
    requires Stranded(After(events), r)
    ensures Stranded(After(events + more), r)
    decreases |more|
  {
    hide Stranded, Step, Inv;
    if more == [] {
      assert events + more == events;
    } else {
      var init, last := more[..|more| - 1], more[|more| - 1];
      RunStays(events, init, r);
      assert (events + more)[..|events + more| - 1] == events + init;
      AfterInv(events + init);
      StepStays(After(events + init), last, r);
    }
  }

  /**
    Once a revision is an error at its creator, unknown to the server and in nobody's push, it
    stays an error there, and neither it nor any descendant is stored in any continuation.
   */
  lemma RejectionIsFinal(events: seq<Event>, more: seq<Event>, r: RevisionId, d: RevisionId)
    requires Stranded(After(events), r) && Ancestor(After(events + more).dag, r, d)
    ensures d !in After(events + more).net.server.revs
    ensures Stranded(After(events + more), r)
  {
    hide Stranded, After, Inv;
    RunStays(events, more, r);
    AfterInv(events + more);
    NoDescendantStored(After(events + more), r, d);
  }

  lemma NoDescendantStored(s: State, r: RevisionId, d: RevisionId)
    requires Inv(s) && Stranded(s, r) && Ancestor(s.dag, r, d)
    ensures d !in s.net.server.revs
  {
    hide SentBy, PullOk, ClientOk, BatchOk, TxnsOk, ServerRuns.CallOk;
    if d in s.net.server.revs {
      TableFacts(s.net.server.log);
      AncestorInside(s.net.server.revs, s.dag, r, d);
      AncestorSameObject(s.net.server.revs, r, d);
      assert false;
    }
  }

  /** An applied rejection strands a revision that is not stored and in no other call. */
  lemma RejectionStrands(events: seq<Event>, k: nat, rev: Revision)
    requires var s := After(events);
             && CanDeliver(s, k, 0, 0) && rev in s.net.calls[k].run.batch
             && RejectedIn(s.net.calls[k].run.RejectedRevs(), rev.id)
             && rev.id !in s.net.server.revs && (forall l :: l != k ==> !SentBy(s, l, rev.id))
    ensures var run := After(events).net.calls[k].run;
            Stranded(After(events + [DeliverPush(k, |run.AcceptedRevs()|, |run.RejectedRevs()|)]), rev.id)
  {
    hide After, Inv, Stranded, ApplyPushAnswer, AcceptedOf, RejectedOf, Ids, SentBy, RejectedIn;
    var run := After(events).net.calls[k].run;
    AfterInv(events);
    AfterSnoc(events, DeliverPush(k, |run.AcceptedRevs()|, |run.RejectedRevs()|));
    DeliveryStrands(After(events), k, rev);
  }

  lemma DeliveryStrands(s: State, k: nat, rev: Revision)
    requires Inv(s) && CanDeliver(s, k, 0, 0) && rev in s.net.calls[k].run.batch
    requires RejectedIn(s.net.calls[k].run.RejectedRevs(), rev.id)
    requires rev.id !in s.net.server.revs && (forall l :: l != k ==> !SentBy(s, l, rev.id))
    ensures Stranded(DeliveredFully(s, k), rev.id)
  {
    hide ApplyPushAnswer, ClientOk, DagOk, PullOk, ServerRuns.Inv, RejectedIn, Ids, AcceptedOf, RejectedOf;
    SentIsRecorded(s, k, rev);
    var run := s.net.calls[k].run;
    var accepted, rejected := Ids(run.AcceptedRevs()), run.RejectedRevs();
    SameLengthIds(run.AcceptedRevs());
    assert accepted[..|accepted|] == accepted && rejected[..|rejected|] == rejected;
    MarkedIsNotPending(s.clients[run.client].records, run, rev.id);
    assert BatchOk(s.dag, run.client, run.batch);
    forall l
      ensures !SentBy(DeliveredFully(s, k), l, rev.id)
    {
      if l != k {
        assert !SentBy(s, l, rev.id);
      }
    }
  }
}
