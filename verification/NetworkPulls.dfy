/** The steps of a pull keep the invariant, and with them all runs do. */
module NetworkPulls {
  import opened Core
  import opened Dag
  import opened HeadIndex
  import opened Push
  import ServerRuns
  import opened Codec
  import opened Pull
  import opened Filter
  import opened ClientModel
  import opened Network
  import opened NetworkInv

  // ---------------------------------------------------------------------------------------
  // The server's reads

  /** Replacing one pull by another that is good keeps the invariant. */
  lemma ReplacePull(s: State, k: nat, call: PullCall)
    requires Inv(s) && call.client in s.clients && PullOk(s.dag, s.net.server, s.clients[call.client], call)
    ensures Inv(Advance(s, k, call))
  {
    hide PullOk, ClientOk, ServerRuns.Inv, DagOk, BatchOk;
  }

  lemma ListsEveryChange(s: Server, me: ClientId, since: nat, upTo: nat, objects: seq<ObjectId>)
    requires Lists(Changed(s, me, since, upTo), objects)
    ensures ListsChanges(s, me, since, upTo, objects)
  {
    hide InWindow;
    forall r | r in s.revs && InWindow(s.txns, since, upTo, r) && s.revs[r].createdBy != me
      ensures s.revs[r].objectId in objects
    {
      assert s.revs[r].objectId in Changed(s, me, since, upTo);
    }
  }

  lemma WindowSplits(txns: seq<Txn>, since: nat, upTo: nat, r: RevisionId)
    requires InWindow(txns, 0, upTo, r) && !InWindow(txns, 0, since, r)
    ensures InWindow(txns, since, upTo, r)
  {
    var i :| 0 <= i < |txns| && 0 < txns[i].id <= upTo && r in txns[i].revisions;
    assert !(0 < txns[i].id <= since);
  }

  /** A foreign revision in the window is an ancestor of one of the heads just read. */
  lemma ForeignIsOwed(g: Graph, s: Server, me: ClientId, since: nat, upTo: nat, objects: seq<ObjectId>, rows: HeadRows,
                      r: RevisionId)
    requires StoreOk(s) && Sub(s.revs, g) && r in s.revs && s.revs[r].createdBy != me
             && InWindow(s.txns, since, upTo, r)
    requires ListsChanges(s, me, since, upTo, objects) && Lists(HeadsIn(s.heads, objects), rows)
    ensures OwedBy(g, objects, rows, r)
  {
    hide InWindow;
    var o := s.revs[r].objectId;
    HeadsCover(s.log, r);
    hide Table, IndexOf, Ordered;
    var h :| h in HeadsOf(s.heads, o) && Ancestor(s.revs, r, h);
    AncestorMono(s.revs, g, r, h);
    assert (o, h) in s.heads;
    assert (o, h) in HeadsIn(s.heads, objects);
    assert (g[r].objectId, h) in rows;
  }

  lemma HeadsReadOwes(g: Graph, s: Server, me: ClientId, c: Client, since: nat, upTo: nat, objects: seq<ObjectId>,
                      rows: HeadRows)
    requires ServerOk(s) && Sub(s.revs, g) && OwnOk(g, me, c) && Caught(g, s, c, since) && upTo <= s.sequence
    requires ListsChanges(s, me, since, upTo, objects) && Lists(HeadsIn(s.heads, objects), rows)
    ensures KeptOrOwed(g, s, c, upTo, objects, rows)
  {
    hide InWindow, Kept, OwedBy, StoreOk, TxnsOk, ListsChanges, Lists;
    forall r | InWindow(s.txns, 0, upTo, r)
      ensures Kept(g, c, r) || OwedBy(g, objects, rows, r)
    {
      if !InWindow(s.txns, 0, since, r) {
        WindowSplits(s.txns, since, upTo, r);
        ListedIsStored(s, since, upTo, r);
        if s.revs[r].createdBy != me {
          ForeignIsOwed(g, s, me, since, upTo, objects, rows, r);
        }
      }
    }
  }

  lemma HeadRowsAreOk(s: Server, objects: seq<ObjectId>, rows: HeadRows)
    requires StoreOk(s) && Lists(HeadsIn(s.heads, objects), rows)
    ensures HeadRowsOk(s, rows)
  {
    RowsOnceEach(s, objects, rows);
    HeadsAreStored(s);
    hide StoreOk;
    forall i | 0 <= i < |rows|
      ensures rows[i].1 in s.revs && s.revs[rows[i].1].objectId == rows[i].0
    {
      assert rows[i] in rows;
    }
  }

  lemma RowsAreEncoded(s: Server, rows: HeadRows)
    requires HeadRowsOk(s, rows)
    ensures EncodesRows(s, rows, RowsAt(s.revs, RevIds(rows)))
  {
    forall i | 0 <= i < |rows|
      ensures rows[i].1 in RevIds(rows)
    {}
  }

  // ---------------------------------------------------------------------------------------
  // The answer

  lemma RowsDecode(s: Server, rows: HeadRows, byId: map<RevisionId, RevisionRow>, prows: seq<ParentRow>,
                   m: map<RevisionId, seq<RevisionId>>)
    requires StoreOk(s) && Small(s.revs) && HeadRowsOk(s, rows) && EncodesRows(s, rows, byId)
    requires BatchQuery(ParentTable(s.revs), RevIds(rows), prows) && Groups(m, prows)
    ensures Decodes(s.revs, rows, byId, m)
  {
    hide Ordered, IndexOf, BatchQuery, OnceEach;
    StoredByKey(s);
    forall i | 0 <= i < |rows|
      ensures DecodesTo(s.revs[rows[i].1], rows[i].1, byId, m)
    {
      var r := rows[i].1;
      assert r in RevIds(rows);
      StoredParentsDistinct(s, r);
      BatchRoundTrip(s.revs, RevIds(rows), prows, r);
    }
  }

  /** The unfiltered answer has one update per listed object that has heads, showing them. */
  ghost predicate ShowsAll(objects: seq<ObjectId>, rows: HeadRows, g: Graph, updates: seq<ObjectUpdate>)
    requires Known(g, rows)
  {
    && (forall i, j :: 0 <= i < j < |updates| ==> updates[i].objectId != updates[j].objectId)
    && (forall i :: 0 <= i < |updates| ==>
          updates[i].objectId in objects && updates[i].heads == HeadRevs(updates[i].objectId, rows, g))
    && (forall o :: o in objects && HeadIdsOf(rows, o) != [] ==> Mentions(updates, o))
  }

  lemma ShowsAllStep(objects: seq<ObjectId>, o: ObjectId, rows: HeadRows, g: Graph, updates: seq<ObjectUpdate>)
    requires Known(g, rows) && ShowsAll(objects, rows, g, updates) && o !in objects
    ensures ShowsAll(objects + [o], rows, g,
                     if AnyPasses(HeadRevs(o, rows, g), NO_FILTER) then updates + [MakeUpdate(o, HeadRevs(o, rows, g))]
                     else updates)
  {
    hide HeadIdsOf, HeadRevs;
    var heads := HeadRevs(o, rows, g);
    SameLength(o, rows, g);
    assert heads != [] ==> Passes(heads[0], NO_FILTER);
    if AnyPasses(heads, NO_FILTER) {
      var u := MakeUpdate(o, heads);
      var updates' := updates + [u];
      assert updates'[|updates|] == u;
      forall x | x in objects + [o] && HeadIdsOf(rows, x) != []
        ensures Mentions(updates', x)
      {
        if x != o {
          var i :| 0 <= i < |updates| && updates[i].objectId == x;
          assert updates'[i] == updates[i];
        }
      }
    }
  }

  lemma SameLength(o: ObjectId, rows: HeadRows, g: Graph)
    requires Known(g, rows)
    ensures |HeadRevs(o, rows, g)| == |HeadIdsOf(rows, o)|
  {}

  lemma {:induction false} UnfilteredShowsAll(objects: seq<ObjectId>, rows: HeadRows, g: Graph)
    requires Known(g, rows) && NoDuplicates(objects)
    ensures ShowsAll(objects, rows, g, Updates(objects, rows, g, NO_FILTER))
  {
    hide HeadIdsOf, HeadRevs, AnyPasses;
    if objects == [] {
      assert Updates(objects, rows, g, NO_FILTER) == [];
    } else {
      var init, o := objects[..|objects| - 1], objects[|objects| - 1];
      assert objects == init + [o];
      assert o !in init by {
        assert forall i :: 0 <= i < |init| ==> init[i] == objects[i];
      }
      hide ShowsAll, Updates;
      UnfilteredShowsAll(init, rows, g);
      Pull.UpdatesSnoc(init, o, rows, g, NO_FILTER);
      ShowsAllStep(init, o, rows, g, Updates(init, rows, g, NO_FILTER));
    }
  }

  lemma HeadRevsMember(o: ObjectId, rows: HeadRows, g: Graph, h: RevisionId)
    requires Known(g, rows) && (o, h) in rows
    ensures h in g && g[h] in HeadRevs(o, rows, g)
  {
    HeadIdsMember(rows, o, h);
    var i :| 0 <= i < |HeadIdsOf(rows, o)| && HeadIdsOf(rows, o)[i] == h;
    assert HeadRevs(o, rows, g)[i] == g[h];
  }

  lemma HeadRevsAreStored(s: Server, o: ObjectId, rows: HeadRows, rev: Revision)
    requires Keyed(s.revs) && HeadRowsOk(s, rows) && Known(s.revs, rows) && rev in HeadRevs(o, rows, s.revs)
    ensures rev.objectId == o && rev.id in s.revs && s.revs[rev.id] == rev
  {
    var heads, ids := HeadRevs(o, rows, s.revs), HeadIdsOf(rows, o);
    var i :| 0 <= i < |heads| && heads[i] == rev;
    assert ids[i] in ids;
    HeadIdsMember(rows, o, ids[i]);
  }

  lemma AnswerIsGood(s: Server, objects: seq<ObjectId>, rows: HeadRows, updates: seq<ObjectUpdate>)
    requires Keyed(s.revs) && HeadRowsOk(s, rows) && Known(s.revs, rows) && ShowsAll(objects, rows, s.revs, updates)
    ensures AnswerOf(s.revs, updates)
  {
    hide HeadRevs, HeadRowsOk;
    forall i | 0 <= i < |updates|
      ensures UpdateOf(s.revs, updates[i])
    {
      forall rev | rev in updates[i].heads
        ensures rev.objectId == updates[i].objectId && rev.id in s.revs && s.revs[rev.id] == rev
      {
        HeadRevsAreStored(s, updates[i].objectId, rows, rev);
      }
    }
  }

  lemma OwedIsComing(g: Graph, s: Server, objects: seq<ObjectId>, rows: HeadRows, updates: seq<ObjectUpdate>,
                     r: RevisionId)
    requires Keyed(s.revs) && Known(s.revs, rows) && ShowsAll(objects, rows, s.revs, updates)
             && OwedBy(g, objects, rows, r)
    ensures Owed(g, updates, 0, r)
  {
    hide HeadRevs, HeadIdsOf;
    var o := g[r].objectId;
    var h :| (o, h) in rows && Ancestor(g, r, h);
    HeadIdsMember(rows, o, h);
    HeadRevsMember(o, rows, s.revs, h);
    assert HeadIdsOf(rows, o) != [];
    var i :| 0 <= i < |updates| && updates[i].objectId == o;
    assert s.revs[h] in updates[i].heads && s.revs[h].id == h;
    assert CoveredByUpdate(g, r, updates[i]);
  }

  lemma AnswerCovers(g: Graph, s: Server, c: Client, upTo: nat, objects: seq<ObjectId>, rows: HeadRows,
                     updates: seq<ObjectUpdate>)
    requires Keyed(s.revs) && Known(s.revs, rows) && ShowsAll(objects, rows, s.revs, updates)
             && KeptOrOwed(g, s, c, upTo, objects, rows)
    ensures KeptOrComing(g, s, c, upTo, updates, 0)
  {
    hide InWindow, Kept, OwedBy, Owed, ShowsAll;
    forall r | InWindow(s.txns, 0, upTo, r)
      ensures Kept(g, c, r) || Owed(g, updates, 0, r)
    {
      if !Kept(g, c, r) {
        OwedIsComing(g, s, objects, rows, updates, r);
      }
    }
  }

  lemma ReadParentsOk(g: Graph, s: Server, c: Client, call: PullCall, prows: seq<ParentRow>,
                      m: map<RevisionId, seq<RevisionId>>)
    requires StoreOk(s) && Small(s.revs) && call.WithRows? && PullOk(g, s, c, call)
    requires BatchQuery(ParentTable(s.revs), RevIds(call.rows), prows) && Groups(m, prows)
    ensures PullOk(g, s, c,
                   Applying(call.client, call.upTo, RowUpdates(call.objects, call.rows, call.byId, m, NO_FILTER), 0))
  {
    hide BatchQuery, ParentTable, Groups, KeptOrOwed, KeptOrComing, AnswerOf, ShowsAll, RowUpdates, Updates, Ordered,
      Table, IndexOf;
    StoredByKey(s);
    RowsDecode(s, call.rows, call.byId, prows, m);
    RowsRefine(call.objects, call.rows, s.revs, call.byId, m, NO_FILTER);
    UnfilteredShowsAll(call.objects, call.rows, s.revs);
    var updates := Updates(call.objects, call.rows, s.revs, NO_FILTER);
    AnswerIsGood(s, call.objects, call.rows, updates);
    AnswerCovers(g, s, c, call.upTo, call.objects, call.rows, updates);
  }

  lemma RequestInv(s: State, c: ClientId, k: nat)
    requires Inv(s)
    ensures Inv(Request(s, c, k))
  {
    hide ServerRuns.Inv, DagOk, BatchOk, Caught, RecordsOk, HeadsOk, OwnOk;
    if c in s.clients && k !in s.pulls {
      assert ClientOk(s.dag, s.net.server, c, s.clients[c]);
      hide Inv;
      ReplacePull(s, k, Requested(c, CursorOf(s.clients[c])));
    }
  }

  lemma PullIsOk(s: State, k: nat)
    requires Inv(s) && k in s.pulls
    ensures s.pulls[k].client in s.clients && PullOk(s.dag, s.net.server, s.clients[s.pulls[k].client], s.pulls[k])
  {
    hide PullOk, ServerRuns.Inv, DagOk, BatchOk, ClientOk;
  }

  lemma ServerIsOk(s: State)
    requires Inv(s)
    ensures ServerOk(s.net.server) && Sub(s.net.server.revs, s.dag) && Small(s.net.server.revs)
  {
    hide PullOk, StoreOk, TxnsOk, BatchOk, ClientOk;
    SmallSub(s.net.server.revs, s.dag);
  }

  lemma WatermarkInv(s: State, k: nat)
    requires Inv(s)
    ensures Inv(Watermark(s, k))
  {
    hide Inv, Caught, StoreOk, Flatten, MaxId;
    if k in s.pulls && s.pulls[k].Requested? {
      PullIsOk(s, k);
      ServerIsOk(s);
      WatermarkBound(s.net.server.txns, s.net.server.sequence);
      ReplacePull(s, k, Watermark(s, k).pulls[k]);
    }
  }

  lemma ListChangesInv(s: State, k: nat, objects: seq<ObjectId>)
    requires Inv(s)
    ensures Inv(ListChanges(s, k, objects))
  {
    hide Inv, Caught, Changed, Lists, ListsChanges;
    var s' := ListChanges(s, k, objects);
    if s' != s {
      var p, srv := s.pulls[k], s.net.server;
      PullIsOk(s, k);
      ListsEveryChange(srv, p.client, p.since, p.upTo, objects);
      ListsDistinct(Changed(srv, p.client, p.since, p.upTo), objects);
      ReplacePull(s, k, s'.pulls[k]);
    }
  }

  lemma FetchHeadsInv(s: State, k: nat, rows: HeadRows)
    requires Inv(s)
    ensures Inv(FetchHeads(s, k, rows))
  {
    hide Inv, Caught, Lists, ListsChanges, StoreOk, TxnsOk, KeptOrOwed, HeadRowsOk, HeadsIn, OwnOk, Small;
    var s' := FetchHeads(s, k, rows);
    if s' != s {
      var p, srv := s.pulls[k], s.net.server;
      PullIsOk(s, k);
      ServerIsOk(s);
      HeadRowsAreOk(srv, p.objects, rows);
      ClientKeepsOwn(s, p.client);
      HeadsReadOwes(s.dag, srv, p.client, s.clients[p.client], p.since, p.upTo, p.objects, rows);
      ReplacePull(s, k, s'.pulls[k]);
    }
  }

  lemma ClientKeepsOwn(s: State, me: ClientId)
    requires Inv(s) && me in s.clients
    ensures OwnOk(s.dag, me, s.clients[me])
  {
    hide OwnOk;
    assert ClientOk(s.dag, s.net.server, me, s.clients[me]);
  }

  lemma FetchRowsInv(s: State, k: nat)
    requires Inv(s)
    ensures Inv(FetchRows(s, k))
  {
    hide Inv, KeptOrOwed, HeadRowsOk, EncodesRows, RowsAt;
    var s' := FetchRows(s, k);
    if s' != s {
      PullIsOk(s, k);
      RowsAreEncoded(s.net.server, s.pulls[k].rows);
      ReplacePull(s, k, s'.pulls[k]);
    }
  }

  lemma FetchParentsInv(s: State, k: nat, prows: seq<ParentRow>, m: map<RevisionId, seq<RevisionId>>)
    requires Inv(s)
    ensures Inv(FetchParents(s, k, prows, m))
  {
    hide Inv, PullOk, BatchQuery, ParentTable, Groups, RowUpdates, StoreOk, TxnsOk, Small;
    var s' := FetchParents(s, k, prows, m);
    if s' != s {
      PullIsOk(s, k);
      ServerIsOk(s);
      ReadParentsOk(s.dag, s.net.server, s.clients[s.pulls[k].client], s.pulls[k], prows, m);
      ReplacePull(s, k, s'.pulls[k]);
    }
  }

  lemma ListsDistinct<T(!new)>(items: set<T>, result: seq<T>)
    requires Lists(items, result)
    ensures NoDuplicates(result)
  {}

  lemma SmallSub(g: Graph, g': Graph)
    requires Sub(g, g') && Small(g')
    ensures Small(g)
  {}

  // ---------------------------------------------------------------------------------------
  // The client applies the answer

  lemma UpdateForward(g: Graph, c: Client, u: ObjectUpdate)
    requires UpdateOf(g, u)
    ensures Forward(g, c, ApplyUpdate(c, u))
  {
    hide LocalHeads, Reconcile, UpdateOf, Covered;
    var c' := ApplyUpdate(c, u);
    forall o, h | h in LocalHeads(c.heads, o)
      ensures Covered(g, h, LocalHeads(c'.heads, o))
    {
      if o == u.objectId {
        ReconcileCovers(g, c.heads, u, h);
      } else {
        UpdateElsewhere(g, c.heads, u, o);
        CoveredRefl(g, h, LocalHeads(c'.heads, o));
      }
    }
  }

  lemma CoveredRefl(g: Graph, h: RevisionId, heads: set<RevisionId>)
    requires h in heads
    ensures Covered(g, h, heads)
  {
    AncestorRefl(g, h);
  }

  lemma UpdateElsewhere(g: Graph, heads: HeadStore, u: ObjectUpdate, o: ObjectId)
    requires UpdateOf(g, u) && o != u.objectId
    ensures LocalHeads(Reconcile(heads, u), o) == LocalHeads(heads, o)
  {
    hide LocalHeads, Reconcile;
    ReconcileHeads(heads, u, o);
  }

  lemma UpdateHeadsOk(g: Graph, heads: HeadStore, u: ObjectUpdate)
    requires UpdateOf(g, u) && HeadsOk(g, heads)
    ensures HeadsOk(g, Reconcile(heads, u))
  {
    hide Reconcile, Entries, Clean;
    ReconcileIsUnion(heads, u);
    var heads' := Reconcile(heads, u);
    forall k | k in heads'
      ensures k.1 in g && g[k.1].objectId == k.0 && heads'[k] == HeadRecordOf(k.0, g[k.1])
    {
      EntryKeys(u.objectId, u.heads, k);
      if k in Entries(u.objectId, u.heads) {
        var rev :| rev in u.heads && rev.id == k.1 && Entries(u.objectId, u.heads)[k] == HeadRecordOf(u.objectId, rev);
      } else {
        assert k in heads && heads'[k] == heads[k];
      }
    }
  }

  lemma UpdateRecordsOk(g: Graph, s: Server, me: ClientId, records: Records, u: ObjectUpdate)
    requires UpdateOf(s.revs, u) && Sub(s.revs, g) && RecordsOk(g, s, me, records)
    ensures RecordsOk(g, s, me, PutSynced(records, u.heads)) && records.Keys <= PutSynced(records, u.heads).Keys
  {
    hide PutSynced;
    PutSyncedFacts(s.revs, records, u.heads);
  }

  lemma UpdateClientOk(g: Graph, s: Server, me: ClientId, c: Client, u: ObjectUpdate)
    requires Sub(s.revs, g) && UpdateOf(s.revs, u) && ClientOk(g, s, me, c)
    ensures ClientOk(g, s, me, ApplyUpdate(c, u)) && Forward(g, c, ApplyUpdate(c, u))
  {
    hide Reconcile, PutSynced, RecordsOk, HeadsOk, Forward, Kept, Caught;
    var c' := ApplyUpdate(c, u);
    assert UpdateOf(g, u);
    hide UpdateOf;
    UpdateForward(g, c, u);
    UpdateHeadsOk(g, c.heads, u);
    UpdateRecordsOk(g, s, me, c.records, u);
    assert ServerRuns.Grows(s, s);
    CaughtMono(g, g, s, s, c, c', CursorOf(c));
    forall r | r in g && g[r].createdBy == me
      ensures r in c'.records && Kept(g, c', r)
    {
      KeptMono(g, g, c, c', r);
    }
  }

  /** What the update owed is kept once it has been applied. */
  lemma UpdateKeeps(g: Graph, c: Client, u: ObjectUpdate, r: RevisionId)
    requires UpdateOf(g, u) && r in g && g[r].objectId == u.objectId && CoveredByUpdate(g, r, u)
    ensures Kept(g, ApplyUpdate(c, u), r)
  {
    hide LocalHeads, Reconcile;
    var rev :| rev in u.heads && Ancestor(g, r, rev.id);
    var i :| 0 <= i < |u.heads| && u.heads[i] == rev;
    assert Ids(u.heads)[i] == rev.id;
    ReconcileCovers(g, c.heads, u, rev.id);
    var heads' := LocalHeads(ApplyUpdate(c, u).heads, u.objectId);
    assert Covered(g, rev.id, heads');
    assert Covered(g, r, {rev.id});
    CoveredAdvance(g, r, {rev.id}, heads');
  }

  lemma ComingStep(g: Graph, s: Server, c: Client, upTo: nat, updates: seq<ObjectUpdate>, k: nat)
    requires k < |updates| && UpdateOf(g, updates[k]) && KeptOrComing(g, s, c, upTo, updates, k)
    ensures KeptOrComing(g, s, ApplyUpdate(c, updates[k]), upTo, updates, k + 1)
  {
    hide InWindow, Kept, Forward, ApplyUpdate, UpdateOf, CoveredByUpdate;
    var c' := ApplyUpdate(c, updates[k]);
    UpdateForward(g, c, updates[k]);
    forall r | InWindow(s.txns, 0, upTo, r)
      ensures Kept(g, c', r) || Owed(g, updates, k + 1, r)
    {
      if Kept(g, c, r) {
        KeptMono(g, g, c, c', r);
      } else {
        var i :| k <= i < |updates| && updates[i].objectId == g[r].objectId && CoveredByUpdate(g, r, updates[i]);
        if i == k {
          UpdateKeeps(g, c, updates[k], r);
        }
      }
    }
  }

  lemma AppliedInv(s: State, k: nat)
    requires Inv(s) && k in s.pulls && s.pulls[k].Applying? && s.pulls[k].applied < |s.pulls[k].updates|
    ensures Inv(Applied(s, k))
  {
    hide Inv, PullOk, ClientOk, ApplyUpdate, Forward, BatchOk;
    AppliedParts(s, k);
    var p := s.pulls[k];
    var c, u := s.clients[p.client], p.updates[p.applied];
    var s1 := s.(clients := s.clients[p.client := ApplyUpdate(c, u)]);
    ReplaceClient(s, p.client, ApplyUpdate(c, u));
    ReplacePull(s1, k, p.(applied := p.applied + 1));
    assert Applied(s, k) == Advance(s1, k, p.(applied := p.applied + 1));
  }

  lemma AppliedParts(s: State, k: nat)
    requires Inv(s) && k in s.pulls && s.pulls[k].Applying? && s.pulls[k].applied < |s.pulls[k].updates|
    ensures var p := s.pulls[k];
            && p.client in s.clients
            && var c, c' := s.clients[p.client], ApplyUpdate(s.clients[p.client], p.updates[p.applied]);
               ClientOk(s.dag, s.net.server, p.client, c') && Forward(s.dag, c, c')
               && PullOk(s.dag, s.net.server, c', p.(applied := p.applied + 1))
  {
    hide ClientOk, ServerRuns.Inv, DagOk, BatchOk, UpdateOf, KeptOrComing, ApplyUpdate, Forward;
    var p := s.pulls[k];
    var c, u := s.clients[p.client], p.updates[p.applied];
    assert PullOk(s.dag, s.net.server, c, p);
    assert UpdateOf(s.net.server.revs, u);
    UpdateOfMono(s.net.server.revs, s.dag, u);
    UpdateClientOk(s.dag, s.net.server, p.client, c, u);
    ComingStep(s.dag, s.net.server, c, p.upTo, p.updates, p.applied);
  }

  lemma UpdateOfMono(g: Graph, g': Graph, u: ObjectUpdate)
    requires Sub(g, g') && UpdateOf(g, u)
    ensures UpdateOf(g', u)
  {}

  lemma DropInv(s: State, k: nat)
    requires Inv(s)
    ensures Inv(s.(pulls := s.pulls - {k}))
  {
    hide PullOk, ClientOk, ServerRuns.Inv, DagOk, BatchOk;
  }

  /** A client may only move its cursor to where it has caught up. */
  lemma CursorInv(s: State, me: ClientId, cursor: Option<nat>)
    requires Inv(s) && me in s.clients
             && Caught(s.dag, s.net.server, s.clients[me], if cursor.Some? then cursor.value else 0)
    ensures Inv(s.(clients := s.clients[me := s.clients[me].(cursor := cursor)]))
  {
    hide Forward, ServerRuns.Inv, PullOk, DagOk, BatchOk, Kept, RecordsOk, HeadsOk, InWindow;
    var c := s.clients[me];
    var c' := c.(cursor := cursor);
    assert ClientOk(s.dag, s.net.server, me, c);
    assert OwnOk(s.dag, me, c') by {
      forall r | r in s.dag && s.dag[r].createdBy == me
        ensures r in c'.records && Kept(s.dag, c', r)
      {
        SameHeadsKeep(s.dag, c, c', r);
      }
    }
    assert Caught(s.dag, s.net.server, c', CursorOf(c')) by {
      forall r | InWindow(s.net.server.txns, 0, CursorOf(c'), r)
        ensures Kept(s.dag, c', r)
      {
        SameHeadsKeep(s.dag, c, c', r);
      }
    }
    ForwardRefl(s.dag, c, c');
    hide Inv;
    ReplaceClient(s, me, c');
  }

  lemma SameHeadsKeep(g: Graph, c: Client, c': Client, r: RevisionId)
    requires c'.heads == c.heads && Kept(g, c, r)
    ensures Kept(g, c', r)
  {}

  lemma FinishPullInv(s: State, k: nat)
    requires Inv(s)
    ensures Inv(StoreCursor(s, k))
  {
    hide Inv, Kept, InWindow, AnswerOf;
    var s' := StoreCursor(s, k);
    if s' != s {
      var p := s.pulls[k];
      PullIsOk(s, k);
      assert Caught(s.dag, s.net.server, s.clients[p.client], p.upTo);
      hide Caught, PullOk;
      CursorInv(s, p.client, Some(p.upTo));
      DropInv(s.(clients := s.clients[p.client := s.clients[p.client].(cursor := Some(p.upTo))]), k);
    }
  }

  lemma NewClientOk(g: Graph, s: Server, me: ClientId)
    requires forall r :: r in g ==> g[r].createdBy != me
    ensures ClientOk(g, s, me, NEW_CLIENT)
  {}

  lemma JoinInv(s: State, me: ClientId)
    requires Inv(s)
    ensures Inv(Step(s, Join(me)))
  {
    hide PullOk, ServerRuns.Inv, DagOk, BatchOk, ClientOk;
    if me !in s.clients {
      NewClientOk(s.dag, s.net.server, me);
    }
  }

  lemma ReopenInv(s: State, me: ClientId)
    requires Inv(s)
    ensures Inv(Step(s, Reopen(me)))
  {
    if me in s.clients {
      assert Caught(s.dag, s.net.server, s.clients[me], 0);
      hide Inv, Caught;
      CursorInv(s, me, None);
    }
  }

  // ---------------------------------------------------------------------------------------
  // All steps, all runs

  lemma StepInv(s: State, e: Event)
    requires Inv(s)
    ensures Inv(Step(s, e))
  {
    hide Inv, CanDeliver, Delivered, Applied, ServerRuns.Step, PushPending, Request, Watermark, ListChanges, FetchHeads,
      FetchRows, FetchParents, StoreCursor, CreateIf, EditRevision, MergeRevision, FullResolution, FreshObject;
    match e
    case Join(c) => JoinInv(s, c);
    case Reopen(c) => ReopenInv(s, c);
    case Save(_, _, _, _) => EditEvents(s, e);
    case Edit(_, _, _, _) => EditEvents(s, e);
    case Resolve(_, _, _, _) => EditEvents(s, e);
    case StartPush(c, k, batch) => StartPushInv(s, c, k, batch);
    case ServerStep(ev) => if !ev.Begin? { ServerMoves(s, ev); }
    case DeliverPush(k, synced, errors) =>
      if CanDeliver(s, k, synced, errors) {
        DeliverInv(s, k, synced, errors);
      }
    case StartPull(c, k) => RequestInv(s, c, k);
    case ReadWatermark(k) => WatermarkInv(s, k);
    case ReadChanged(k, objects) => ListChangesInv(s, k, objects);
    case ReadHeads(k, rows) => FetchHeadsInv(s, k, rows);
    case ReadRows(k) => FetchRowsInv(s, k);
    case ReadParents(k, prows, m) => FetchParentsInv(s, k, prows, m);
    case ApplyNext(k) =>
      if k in s.pulls && s.pulls[k].Applying? && s.pulls[k].applied < |s.pulls[k].updates|
         && s.pulls[k].client in s.clients {
        AppliedInv(s, k);
      }
    case FinishPull(k) => FinishPullInv(s, k);
    case DropPull(k) => DropInv(s, k);
  }

  lemma {:induction false} AfterInv(events: seq<Event>)
    ensures Inv(After(events))
  {
    if events == [] {
      InitialInv();
    } else {
      hide Inv, Step;
      AfterInv(events[..|events| - 1]);
      StepInv(After(events[..|events| - 1]), events[|events| - 1]);
    }
  }

  lemma InitialInv()
    ensures Inv(INITIAL)
  {}
}
