/**
  What an edit does in a run, and how the status of a revision record moves: new work is
  pending, and stays so until an answer names it or a pull shows it.
 */
module LocalWork {
  import opened Core
  import opened Push
  import ServerRuns
  import opened Codec
  import opened ClientModel
  import opened Network
  import opened NetworkPulls

  // ---------------------------------------------------------------------------------------
  // Edits take effect

  /** `s'` is `s` after client `me` created `rev`: known, pending, and the only local head. */
  ghost predicate Created(s: State, s': State, me: ClientId, rev: Revision) {
    && me in s.clients && rev.id !in s.dag
    && s'.dag == s.dag[rev.id := rev] && s'.net == s.net && s'.pulls == s.pulls
    && s'.clients.Keys == s.clients.Keys && (forall c :: c in s.clients && c != me ==> s'.clients[c] == s.clients[c])
    && var c, c' := s.clients[me], s'.clients[me];
       && c'.records == c.records[rev.id := Record(rev, Pending)] && c'.cursor == c.cursor
       && OnlyHead(c.heads, c'.heads, rev)
       && LocalHeads(c'.heads, rev.objectId) == {rev.id}
       && forall batch :: PendingBatch(c'.records, batch) ==> rev in batch
  }

  lemma CreateEffect(s: State, me: ClientId, rev: Revision)
    requires me in s.clients && rev.id !in s.dag
    ensures Created(s, Create(s, me, rev), me, rev)
  {
    hide PutLocal, OnlyHead, PendingBatch, LocalHeads;
    var c, c' := s.clients[me], PutLocal(s.clients[me], rev);
    PutLocalExactly(c, rev);
    PutLocalHeads(c, rev, rev.objectId);
    assert c'.records == c.records[rev.id := Record(rev, Pending)];
  }

  lemma HeadType(s: State, me: ClientId, o: ObjectId, h: RevisionId)
    requires Inv(s) && me in s.clients && (o, h) in s.clients[me].heads
    ensures h in s.dag && s.clients[me].heads[(o, h)].objectType == s.dag[h].objectType
  {
    hide ServerRuns.Inv, PullOk, BatchOk, RecordsOk, OwnOk, Caught, DagOk;
    assert ClientOk(s.dag, s.net.server, me, s.clients[me]);
  }

  /**
    An edit with a new id succeeds in a run exactly if the parent is the only local head; it
    then creates the revision asked for, of the parent's type.  Otherwise nothing happens.
   */
  lemma EditTakesEffect(events: seq<Event>, stamp: Stamp, o: ObjectId, parent: RevisionId, content: Content)
    requires var s := After(events); stamp.client in s.clients && stamp.id !in s.dag
    ensures var s, s' := After(events), After(events + [Edit(stamp, o, parent, content)]);
            if LocalHeads(s.clients[stamp.client].heads, o) == {parent} then
              && parent in s.dag
              && Created(s, s', stamp.client,
                         Revision(stamp.id, o, s.dag[parent].objectType, Update(parent), stamp.now, stamp.client,
                                  content))
            else s' == s
  {
    hide After, Inv, EditRevision, Create, Created, LocalHeads;
    var s := After(events);
    var heads := s.clients[stamp.client].heads;
    AfterInv(events);
    AfterSnoc(events, Edit(stamp, o, parent, content));
    EditOutcome(heads, o, parent, content, stamp);
    var r := EditRevision(heads, o, parent, content, stamp);
    if r.Ok? {
      HeadType(s, stamp.client, o, parent);
      CreateEffect(s, stamp.client, r.value);
    }
  }

  /** A new object with a new id is a root revision with the given type and data. */
  lemma SaveTakesEffect(events: seq<Event>, stamp: Stamp, o: ObjectId, t: string, data: Json)
    requires var s := After(events);
             stamp.client in s.clients && stamp.id !in s.dag && forall r :: r in s.dag ==> s.dag[r].objectId != o
    ensures Created(After(events), After(events + [Save(stamp, o, t, data)]), stamp.client,
                    Revision(stamp.id, o, t, Root, stamp.now, stamp.client, Active(data)))
  {
    hide After, Create, Created;
    AfterSnoc(events, Save(stamp, o, t, data));
    CreateEffect(After(events), stamp.client, NewObject(o, t, data, stamp));
  }

  /**
    A resolution that names all heads, and only heads, creates the merge asked for, of the type
    of the first head; one that names something else, or fewer than two, does nothing.
   */
  lemma ResolveTakesEffect(events: seq<Event>, stamp: Stamp, o: ObjectId, parents: seq<RevisionId>, content: Content)
    requires var s := After(events);
             && stamp.client in s.clients && stamp.id !in s.dag && |parents| <= MAX_PARENTS
             && forall h :: h in LocalHeads(s.clients[stamp.client].heads, o) ==> h in parents
    ensures var s, s' := After(events), After(events + [Resolve(stamp, o, parents, content)]);
            var local := LocalHeads(s.clients[stamp.client].heads, o);
            if |parents| >= 2 && forall p :: p in parents ==> p in local then
              exists first :: && first in local && (forall h :: h in local ==> first <= h) && first in s.dag
                              && Created(s, s', stamp.client,
                                         Revision(stamp.id, o, s.dag[first].objectType,
                                                  Merge(parents[0], parents[1], parents[2..]),
                                                  stamp.now, stamp.client, content))
            else s' == s
  {
    hide After, Inv, MergeRevision, Create, Created, LocalHeads;
    var s := After(events);
    var heads := s.clients[stamp.client].heads;
    AfterInv(events);
    AfterSnoc(events, Resolve(stamp, o, parents, content));
    MergeOutcome(heads, o, parents, content, stamp);
    var r := MergeRevision(heads, o, parents, content, stamp);
    if r.Ok? {
      var first := MergeShape(s, o, parents, content, stamp);
      CreateEffect(s, stamp.client, r.value);
      assert Created(s, After(events + [Resolve(stamp, o, parents, content)]), stamp.client,
                     Revision(stamp.id, o, s.dag[first].objectType, Merge(parents[0], parents[1], parents[2..]),
                              stamp.now, stamp.client, content));
    }
  }

  lemma MergeShape(s: State, o: ObjectId, parents: seq<RevisionId>, content: Content, stamp: Stamp)
    returns (first: RevisionId)
    requires Inv(s) && stamp.client in s.clients
    requires MergeRevision(s.clients[stamp.client].heads, o, parents, content, stamp).Ok?
    ensures var heads := s.clients[stamp.client].heads;
            && first in LocalHeads(heads, o) && (forall h :: h in LocalHeads(heads, o) ==> first <= h)
            && first in s.dag && |parents| >= 2
            && MergeRevision(heads, o, parents, content, stamp) ==
               Ok(Revision(stamp.id, o, s.dag[first].objectType, Merge(parents[0], parents[1], parents[2..]),
                           stamp.now, stamp.client, content))
  {
    hide Inv, MergeRevision, LocalHeads;
    var heads := s.clients[stamp.client].heads;
    MergeOutcome(heads, o, parents, content, stamp);
    var rev := MergeRevision(heads, o, parents, content, stamp).value;
    first :| (o, first) in heads && (forall h :: (o, h) in heads ==> first <= h)
             && rev.objectType == heads[(o, first)].objectType;
    HeadType(s, stamp.client, o, first);
    forall h
      ensures h in LocalHeads(heads, o) <==> (o, h) in heads
    {
      InLocalHeads(heads, o, h);
    }
    MergeLineage(rev.lineage, parents);
  }

  lemma MergeLineage(l: Lineage, parents: seq<RevisionId>)
    requires l.Parents() == parents && |parents| >= 2
    ensures l == Merge(parents[0], parents[1], parents[2..])
  {
    LineageRoundTrip(l);
  }

  /** Opening a repository starts a client with empty stores, or forgets the cursor of an old one. */
  lemma OpeningTakesEffect(events: seq<Event>, c: ClientId)
    ensures var s, joined, reopened := After(events), After(events + [Join(c)]), After(events + [Reopen(c)]);
            && joined.dag == s.dag && joined.net == s.net && joined.pulls == s.pulls
            && joined.clients == (if c in s.clients then s.clients else s.clients[c := Client(map[], map[], None)])
            && reopened == (if c in s.clients then s.(clients := s.clients[c := s.clients[c].(cursor := None)]) else s)
  {
    hide After;
    AfterSnoc(events, Join(c));
    AfterSnoc(events, Reopen(c));
  }

  lemma LossSteps(s: State, k: nat)
    ensures Step(s, DropPull(k)) == s.(pulls := s.pulls - {k})
    ensures Step(s, ServerStep(ServerRuns.Forget(k))) == s.(net := s.net.(calls := s.net.calls - {k}))
    ensures Step(s, ServerStep(ServerRuns.SkipId)) ==
            s.(net := s.net.(server := s.net.server.(sequence := s.net.server.sequence + 1)))
  {}

  /** Any request or answer can be lost at any time, and ids can be skipped; nothing else happens then. */
  lemma LossTakesEffect(events: seq<Event>, k: nat)
    ensures var s := After(events);
            && After(events + [DropPull(k)]) == s.(pulls := s.pulls - {k})
            && After(events + [ServerStep(ServerRuns.Forget(k))]) == s.(net := s.net.(calls := s.net.calls - {k}))
            && After(events + [ServerStep(ServerRuns.SkipId)]) ==
               s.(net := s.net.(server := s.net.server.(sequence := s.net.server.sequence + 1)))
  {
    hide After, Step;
    AfterSnoc(events, DropPull(k));
    AfterSnoc(events, ServerStep(ServerRuns.Forget(k)));
    AfterSnoc(events, ServerStep(ServerRuns.SkipId));
    LossSteps(After(events), k);
  }

  // ---------------------------------------------------------------------------------------
  // The status of a record

  /** The event applies an answer naming `r`, or an update showing `r`, at client `me`. */
  ghost predicate Settles(s: State, e: Event, me: ClientId, r: RevisionId) {
    match e
    case DeliverPush(k, synced, errors) =>
      && CanDeliver(s, k, synced, errors) && s.net.calls[k].run.client == me
      && (r in Ids(s.net.calls[k].run.AcceptedRevs())[..synced]
          || RejectedIn(s.net.calls[k].run.RejectedRevs()[..errors], r))
    case ApplyNext(k) =>
      && k in s.pulls && s.pulls[k].Applying? && s.pulls[k].applied < |s.pulls[k].updates| && s.pulls[k].client == me
      && r in Ids(s.pulls[k].updates[s.pulls[k].applied].heads)
    case _ => false
  }

  /** The answer of call `k` calls `r` rejected in the part that is applied. */
  ghost predicate RejectsIn(s: State, e: Event, r: RevisionId) {
    e.DeliverPush? && CanDeliver(s, e.call, e.synced, e.errors)
    && RejectedIn(s.net.calls[e.call].run.RejectedRevs()[..e.errors], r)
  }

  /** What one event does to one record: the revision stays, the status moves only if settled. */
  ghost predicate StatusMoves(s: State, e: Event, s': State, me: ClientId, r: RevisionId)
    requires me in s.clients && r in s.clients[me].records
  {
    && me in s'.clients && r in s'.clients[me].records
    && var record, record' := s.clients[me].records[r], s'.clients[me].records[r];
       && record'.rev == record.rev
       && (!Settles(s, e, me, r) ==> record'.status == record.status)
       && (Settles(s, e, me, r) ==> if RejectsIn(s, e, r) then record'.status.SyncError? else record'.status == Synced)
  }

  lemma EditStatus(s: State, e: Event, me: ClientId, r: RevisionId)
    requires (e.Save? || e.Edit? || e.Resolve?) && me in s.clients && r in s.clients[me].records && r in s.dag
    ensures StatusMoves(s, e, Step(s, e), me, r)
  {
    hide EditRevision, MergeRevision, FullResolution, FreshObject, ReplaceHeads;
    var author := e.stamp.client;
    if author in s.clients && Step(s, e) != s {
      match e {
        case Save(_, _, _, _) =>
        case Edit(stamp, o, parent, content) => EditOutcome(s.clients[author].heads, o, parent, content, stamp);
        case Resolve(stamp, o, parents, content) => MergeOutcome(s.clients[author].heads, o, parents, content, stamp);
      }
    }
  }

  lemma DeliverStatus(s: State, k: nat, synced: nat, errors: nat, me: ClientId, r: RevisionId)
    requires me in s.clients && r in s.clients[me].records && CanDeliver(s, k, synced, errors)
    ensures StatusMoves(s, DeliverPush(k, synced, errors), Delivered(s, k, synced, errors), me, r)
  {
    hide ApplyPushAnswer, AcceptedOf, RejectedOf, LastRejection, RejectedIn, Ids;
    var run := s.net.calls[k].run;
    if run.client == me {
      var accepted, rejected := Ids(run.AcceptedRevs())[..synced], run.RejectedRevs()[..errors];
      PushAnswerFacts(s.clients[me].records, accepted, rejected);
      if RejectedIn(rejected, r) {
        RejectedHasLast(rejected, r);
        var i :| LastRejection(rejected, r, i);
        LastIndex(rejected, r, i);
      }
    }
  }

  lemma ApplyStatus(s: State, k: nat, me: ClientId, r: RevisionId)
    requires Inv(s) && me in s.clients && r in s.clients[me].records
    requires k in s.pulls && s.pulls[k].Applying? && s.pulls[k].applied < |s.pulls[k].updates|
    ensures s.pulls[k].client in s.clients && StatusMoves(s, ApplyNext(k), Applied(s, k), me, r)
  {
    hide PutSynced, Reconcile, Inv, Ids;
    ShownIsKnown(s, k);
    RecordIsKnown(s, me, r);
    var p := s.pulls[k];
    PutSyncedFacts(s.dag, s.clients[p.client].records, p.updates[p.applied].heads);
  }

  lemma ShownIsKnown(s: State, k: nat)
    requires Inv(s) && k in s.pulls && s.pulls[k].Applying? && s.pulls[k].applied < |s.pulls[k].updates|
    ensures s.pulls[k].client in s.clients
    ensures forall rev :: rev in s.pulls[k].updates[s.pulls[k].applied].heads ==>
              rev.id in s.dag && s.dag[rev.id] == rev
  {
    hide ServerRuns.Inv, DagOk, BatchOk, ClientOk, KeptOrComing;
    var p := s.pulls[k];
    assert PullOk(s.dag, s.net.server, s.clients[p.client], p);
    assert UpdateOf(s.net.server.revs, p.updates[p.applied]);
  }

  lemma OtherStatus(s: State, e: Event, me: ClientId, r: RevisionId)
    requires me in s.clients && r in s.clients[me].records
    requires !e.Save? && !e.Edit? && !e.Resolve? && !e.DeliverPush? && !e.ApplyNext?
    ensures StatusMoves(s, e, Step(s, e), me, r)
  {
    hide ServerRuns.Step, PendingBatch;
  }

  lemma RecordIsKnown(s: State, me: ClientId, r: RevisionId)
    requires Inv(s) && me in s.clients && r in s.clients[me].records
    ensures r in s.dag && s.clients[me].records[r].rev == s.dag[r]
  {
    hide ServerRuns.Inv, PullOk, BatchOk, HeadsOk, OwnOk, Caught, DagOk;
    assert ClientOk(s.dag, s.net.server, me, s.clients[me]);
  }

  /** The status machine, exactly, for every event in every state of every run. */
  lemma StatusStep(s: State, e: Event, me: ClientId, r: RevisionId)
    requires Inv(s) && me in s.clients && r in s.clients[me].records
    ensures StatusMoves(s, e, Step(s, e), me, r)
  {
    hide Inv, StatusMoves;
    RecordIsKnown(s, me, r);
    match e
    case Save(_, _, _, _) => EditStatus(s, e, me, r);
    case Edit(_, _, _, _) => EditStatus(s, e, me, r);
    case Resolve(_, _, _, _) => EditStatus(s, e, me, r);
    case DeliverPush(k, synced, errors) =>
      if CanDeliver(s, k, synced, errors) {
        DeliverStatus(s, k, synced, errors, me, r);
      } else {
        StandsStill(s, e, me, r);
      }
    case ApplyNext(k) =>
      if k in s.pulls && s.pulls[k].Applying? && s.pulls[k].applied < |s.pulls[k].updates| {
        ApplyStatus(s, k, me, r);
      } else {
        StandsStill(s, e, me, r);
      }
    case _ => OtherStatus(s, e, me, r);
  }

  lemma StandsStill(s: State, e: Event, me: ClientId, r: RevisionId)
    requires me in s.clients && r in s.clients[me].records && !Settles(s, e, me, r)
    ensures StatusMoves(s, e, s, me, r)
  {}

  ghost predicate PendingAt(s: State, me: ClientId, r: RevisionId) {
    me in s.clients && r in s.clients[me].records && s.clients[me].records[r].status == Pending
  }

  /** A pending revision stops being pending exactly when an event settles it. */
  lemma PendingStep(s: State, e: Event, me: ClientId, r: RevisionId)
    requires Inv(s) && PendingAt(s, me, r)
    ensures PendingAt(Step(s, e), me, r) <==> !Settles(s, e, me, r)
  {
    hide Inv, Settles, RejectsIn, Step;
    StatusStep(s, e, me, r);
  }

  /**
    Work is sent until it is settled: a pending revision is in every batch its client may push,
    at every later point of the run, up to the first answer that names it or update that shows it.
   */
  lemma {:induction false} PendingUntilSettled(events: seq<Event>, more: seq<Event>, me: ClientId, r: RevisionId)
    requires PendingAt(After(events), me, r)
    requires forall i :: 0 <= i < |more| ==> !Settles(After(events + more[..i]), more[i], me, r)
    ensures var s := After(events + more);
            && PendingAt(s, me, r) && r in s.dag
            && forall batch :: PendingBatch(s.clients[me].records, batch) ==> s.dag[r] in batch
    decreases |more|
  {
    hide Settles, Inv, Step, PendingBatch, PendingAt, After;
    if more == [] {
      assert events + more == events;
    } else {
      var n := |more| - 1;
      assert forall i :: 0 <= i < n ==> more[..n][..i] == more[..i] && more[..n][i] == more[i];
      PendingUntilSettled(events, more[..n], me, r);
      assert (events + more[..n]) + [more[n]] == events + more;
      AfterSnoc(events + more[..n], more[n]);
      AfterInv(events + more[..n]);
      PendingStep(After(events + more[..n]), more[n], me, r);
    }
    AfterInv(events + more);
    IsSent(After(events + more), me, r);
  }

  lemma IsSent(s: State, me: ClientId, r: RevisionId)
    requires Inv(s) && PendingAt(s, me, r)
    ensures r in s.dag && forall batch :: PendingBatch(s.clients[me].records, batch) ==> s.dag[r] in batch
  {
    RecordIsKnown(s, me, r);
    hide Inv;
  }
}
