/** Every step of the network keeps the invariant. */
module NetworkInv {
  import opened Core
  import opened Dag
  import opened Push
  import ServerRuns
  import opened Codec
  import opened Pull
  import opened ClientModel
  import opened Network

  // ---------------------------------------------------------------------------------------
  // Growth: the graph and the server only grow, local heads only move forward

  /** Every head of `c` is covered by the heads of `c'`. */
  ghost predicate Forward(g: Graph, c: Client, c': Client) {
    forall o, h :: h in LocalHeads(c.heads, o) ==> Covered(g, h, LocalHeads(c'.heads, o))
  }

  lemma ForwardRefl(g: Graph, c: Client, c': Client)
    requires c'.heads == c.heads
    ensures Forward(g, c, c')
  {
    forall o, h | h in LocalHeads(c.heads, o)
      ensures Covered(g, h, LocalHeads(c'.heads, o))
    {
      AncestorRefl(g, h);
    }
  }

  lemma KeptMono(g: Graph, g': Graph, c: Client, c': Client, r: RevisionId)
    requires Sub(g, g') && Forward(g', c, c') && Kept(g, c, r)
    ensures Kept(g', c', r)
  {
    var o := g[r].objectId;
    CoveredMono(g, g', r, LocalHeads(c.heads, o));
    CoveredAdvance(g', r, LocalHeads(c.heads, o), LocalHeads(c'.heads, o));
  }

  lemma CaughtMono(g: Graph, g': Graph, s: Server, s': Server, c: Client, c': Client, k: nat)
    requires Sub(g, g') && ServerRuns.Grows(s, s') && Forward(g', c, c') && Caught(g, s, c, k)
    ensures Caught(g', s', c', k)
  {
    hide InWindow, Kept, Forward;
    forall r | InWindow(s'.txns, 0, k, r)
      ensures Kept(g', c', r)
    {
      WindowStable(s, s', 0, k, r);
      KeptMono(g, g', c, c', r);
    }
  }

  lemma OwedByMono(g: Graph, g': Graph, objects: seq<ObjectId>, rows: HeadRows, r: RevisionId)
    requires Sub(g, g') && OwedBy(g, objects, rows, r)
    ensures OwedBy(g', objects, rows, r)
  {
    var h :| (g[r].objectId, h) in rows && Ancestor(g, r, h);
    AncestorMono(g, g', r, h);
  }

  lemma KeptOrOwedMono(g: Graph, g': Graph, s: Server, s': Server, c: Client, c': Client, upTo: nat,
                       objects: seq<ObjectId>, rows: HeadRows)
    requires Sub(g, g') && ServerRuns.Grows(s, s') && Forward(g', c, c') && KeptOrOwed(g, s, c, upTo, objects, rows)
    ensures KeptOrOwed(g', s', c', upTo, objects, rows)
  {
    hide InWindow, Kept, Forward, OwedBy;
    forall r | InWindow(s'.txns, 0, upTo, r)
      ensures Kept(g', c', r) || OwedBy(g', objects, rows, r)
    {
      WindowStable(s, s', 0, upTo, r);
      if Kept(g, c, r) {
        KeptMono(g, g', c, c', r);
      } else {
        OwedByMono(g, g', objects, rows, r);
      }
    }
  }

  lemma OwedMono(g: Graph, g': Graph, updates: seq<ObjectUpdate>, from: nat, r: RevisionId)
    requires Sub(g, g') && Owed(g, updates, from, r)
    ensures Owed(g', updates, from, r)
  {
    var i :| from <= i < |updates| && updates[i].objectId == g[r].objectId && CoveredByUpdate(g, r, updates[i]);
    var rev :| rev in updates[i].heads && Ancestor(g, r, rev.id);
    AncestorMono(g, g', r, rev.id);
    assert CoveredByUpdate(g', r, updates[i]);
  }

  lemma KeptOrComingMono(g: Graph, g': Graph, s: Server, s': Server, c: Client, c': Client, upTo: nat,
                         updates: seq<ObjectUpdate>, from: nat)
    requires Sub(g, g') && ServerRuns.Grows(s, s') && Forward(g', c, c') && KeptOrComing(g, s, c, upTo, updates, from)
    ensures KeptOrComing(g', s', c', upTo, updates, from)
  {
    hide InWindow, Kept, Forward, Owed;
    forall r | InWindow(s'.txns, 0, upTo, r)
      ensures Kept(g', c', r) || Owed(g', updates, from, r)
    {
      WindowStable(s, s', 0, upTo, r);
      if Kept(g, c, r) {
        KeptMono(g, g', c, c', r);
      } else {
        OwedMono(g, g', updates, from, r);
      }
    }
  }

  lemma ListedIsStored(s: Server, since: nat, upTo: nat, r: RevisionId)
    requires TxnsOk(s) && InWindow(s.txns, since, upTo, r)
    ensures r in s.revs
  {
    hide Flatten;
    var i :| 0 <= i < |s.txns| && since < s.txns[i].id <= upTo && r in s.txns[i].revisions;
    assert Authored(s.revs, s.txns[i]);
  }

  lemma ListsChangesMono(s: Server, s': Server, me: ClientId, since: nat, upTo: nat, objects: seq<ObjectId>)
    requires TxnsOk(s) && ServerRuns.Grows(s, s') && upTo <= s.sequence && ListsChanges(s, me, since, upTo, objects)
    ensures ListsChanges(s', me, since, upTo, objects)
  {
    hide InWindow, TxnsOk;
    forall r | r in s'.revs && InWindow(s'.txns, since, upTo, r) && s'.revs[r].createdBy != me
      ensures s'.revs[r].objectId in objects
    {
      WindowStable(s, s', since, upTo, r);
      ListedIsStored(s, since, upTo, r);
    }
  }

  lemma AnswerMono(g: Graph, g': Graph, us: seq<ObjectUpdate>)
    requires Sub(g, g') && AnswerOf(g, us)
    ensures AnswerOf(g', us)
  {
    forall i | 0 <= i < |us|
      ensures UpdateOf(g', us[i])
    {
      assert UpdateOf(g, us[i]);
    }
  }

  /** A pull in progress survives whatever the other parties, and the client itself, do. */
  lemma PullOkMono(g: Graph, g': Graph, s: Server, s': Server, c: Client, c': Client, call: PullCall)
    requires Sub(g, g') && TxnsOk(s) && ServerRuns.Grows(s, s') && Forward(g', c, c') && PullOk(g, s, c, call)
    ensures PullOk(g', s', c', call)
  {
    hide Caught, KeptOrOwed, KeptOrComing, ListsChanges, AnswerOf, Forward, TxnsOk, OnceEach;
    match call
    case Requested(_, since) => CaughtMono(g, g', s, s', c, c', since);
    case Marked(_, since, upTo) => CaughtMono(g, g', s, s', c, c', since);
    case Listed(me, since, upTo, objects) =>
      CaughtMono(g, g', s, s', c, c', since);
      ListsChangesMono(s, s', me, since, upTo, objects);
    case WithHeads(_, upTo, objects, rows) => KeptOrOwedMono(g, g', s, s', c, c', upTo, objects, rows);
    case WithRows(_, upTo, objects, rows, byId) => KeptOrOwedMono(g, g', s, s', c, c', upTo, objects, rows);
    case Applying(_, upTo, updates, applied) =>
      KeptOrComingMono(g, g', s, s', c, c', upTo, updates, applied);
      AnswerMono(s.revs, s'.revs, updates);
  }

  /** A client that does nothing is not disturbed by others, if all new revisions are by others. */
  lemma ClientOkMono(g: Graph, g': Graph, s: Server, s': Server, me: ClientId, c: Client)
    requires Sub(g, g') && ServerRuns.Grows(s, s') && ClientOk(g, s, me, c)
    requires forall r :: r in g' && r !in g ==> g'[r].createdBy != me
    ensures ClientOk(g', s', me, c)
  {
    hide Caught, Kept, Forward;
    ForwardRefl(g', c, c);
    CaughtMono(g, g', s, s', c, c, CursorOf(c));
    forall r | r in g' && g'[r].createdBy == me
      ensures r in c.records && Kept(g', c, r)
    {
      KeptMono(g, g', c, c, r);
    }
  }

  // ---------------------------------------------------------------------------------------
  // Local edits

  /** The edit extends the graph and supersedes every head its object has on this client. */
  ghost predicate GoodEdit(g: Graph, me: ClientId, c: Client, rev: Revision) {
    && rev.id !in g && rev.createdBy == me && |rev.Parents()| <= MAX_PARENTS
    && (forall p :: p in rev.Parents() ==> p in g && g[p].objectId == rev.objectId)
    && (forall h :: h in LocalHeads(c.heads, rev.objectId) ==> h in rev.Parents())
  }

  lemma EditDag(g: Graph, me: ClientId, c: Client, rev: Revision)
    requires DagOk(g) && GoodEdit(g, me, c, rev)
    ensures DagOk(g[rev.id := rev]) && Sub(g, g[rev.id := rev])
  {
    var g' := g[rev.id := rev];
    forall r, p | r in g' && p in g'[r].Parents()
      ensures p in g' && g'[p].objectId == g'[r].objectId
    {
      if r != rev.id {
        assert p in g && g[p].objectId == g[r].objectId;
      }
    }
  }

  lemma EditForward(g: Graph, me: ClientId, c: Client, rev: Revision)
    requires GoodEdit(g, me, c, rev)
    ensures Forward(g[rev.id := rev], c, PutLocal(c, rev))
  {
    hide PutLocal, LocalHeads;
    var g', c' := g[rev.id := rev], PutLocal(c, rev);
    forall o, h | h in LocalHeads(c.heads, o)
      ensures Covered(g', h, LocalHeads(c'.heads, o))
    {
      PutLocalHeads(c, rev, o);
      if o == rev.objectId {
        ParentIsAncestor(g', h, rev.id);
        assert rev.id in LocalHeads(c'.heads, o);
      } else {
        AncestorRefl(g', h);
      }
    }
  }

  lemma EditHeadsOk(g: Graph, me: ClientId, c: Client, rev: Revision)
    requires GoodEdit(g, me, c, rev) && HeadsOk(g, c.heads)
    ensures HeadsOk(g[rev.id := rev], PutLocal(c, rev).heads)
  {
    var heads' := PutLocal(c, rev).heads;
    ReplaceIsUnion(c.heads, rev.objectId, [rev]);
    forall k | k in heads'
      ensures k in Entries(rev.objectId, [rev]) ==>
                k == (rev.objectId, rev.id) && heads'[k] == HeadRecordOf(rev.objectId, rev)
      ensures k !in Entries(rev.objectId, [rev]) ==> k in c.heads && heads'[k] == c.heads[k]
    {
      EntryKeys(rev.objectId, [rev], k);
    }
  }

  lemma EditClientOk(g: Graph, s: Server, me: ClientId, c: Client, rev: Revision)
    requires GoodEdit(g, me, c, rev) && Sub(g, g[rev.id := rev]) && ClientOk(g, s, me, c)
    ensures ClientOk(g[rev.id := rev], s, me, PutLocal(c, rev))
  {
    hide Caught, Kept, Forward, LocalHeads, HeadsOk, ReplaceHeads, GoodEdit;
    var g', c' := g[rev.id := rev], PutLocal(c, rev);
    EditForward(g, me, c, rev);
    EditHeadsOk(g, me, c, rev);
    assert ServerRuns.Grows(s, s);
    CaughtMono(g, g', s, s, c, c', CursorOf(c));
    EditKept(g, me, c, rev);
    forall r | r in g' && g'[r].createdBy == me
      ensures r in c'.records && Kept(g', c', r)
    {
      if r != rev.id {
        KeptMono(g, g', c, c', r);
      }
    }
    EditRecordsOk(g, s, me, c, rev);
  }

  lemma EditKept(g: Graph, me: ClientId, c: Client, rev: Revision)
    ensures Kept(g[rev.id := rev], PutLocal(c, rev), rev.id)
  {
    PutLocalHeads(c, rev, rev.objectId);
    AncestorRefl(g[rev.id := rev], rev.id);
  }

  lemma EditRecordsOk(g: Graph, s: Server, me: ClientId, c: Client, rev: Revision)
    requires GoodEdit(g, me, c, rev) && RecordsOk(g, s, me, c.records)
    ensures RecordsOk(g[rev.id := rev], s, me, PutLocal(c, rev).records)
  {}

  lemma SameClientPulls(s: State, s': State)
    requires Inv(s) && s'.pulls == s.pulls && s'.net.server == s.net.server && Sub(s.dag, s'.dag)
    requires forall c :: c in s.clients ==> c in s'.clients && Forward(s'.dag, s.clients[c], s'.clients[c])
    ensures forall k :: k in s'.pulls ==>
              s'.pulls[k].client in s'.clients
              && PullOk(s'.dag, s'.net.server, s'.clients[s'.pulls[k].client], s'.pulls[k])
  {
    hide PullOk, Forward, ClientOk, StoreOk, TxnsOk;
    forall k | k in s'.pulls
      ensures s'.pulls[k].client in s'.clients
              && PullOk(s'.dag, s'.net.server, s'.clients[s'.pulls[k].client], s'.pulls[k])
    {
      var c := s.pulls[k].client;
      PullOkMono(s.dag, s'.dag, s.net.server, s'.net.server, s.clients[c], s'.clients[c], s.pulls[k]);
    }
  }

  lemma CreateInv(s: State, me: ClientId, rev: Revision)
    requires Inv(s) && me in s.clients && GoodEdit(s.dag, me, s.clients[me], rev)
    ensures Inv(Create(s, me, rev))
  {
    hide PullOk, Forward, ClientOk, ServerRuns.Inv, PutLocal, DagOk;
    var s' := Create(s, me, rev);
    EditDag(s.dag, me, s.clients[me], rev);
    EditForward(s.dag, me, s.clients[me], rev);
    EditClientOk(s.dag, s.net.server, me, s.clients[me], rev);
    assert ServerRuns.Grows(s.net.server, s.net.server);
    forall c | c in s'.clients
      ensures ClientOk(s'.dag, s'.net.server, c, s'.clients[c])
      ensures Forward(s'.dag, s.clients[c], s'.clients[c])
    {
      if c != me {
        ClientOkMono(s.dag, s'.dag, s.net.server, s.net.server, c, s.clients[c]);
        ForwardRefl(s'.dag, s.clients[c], s'.clients[c]);
      }
    }
    SameClientPulls(s, s');
    forall k | k in s'.net.calls
      ensures BatchOk(s'.dag, s'.net.calls[k].run.client, s'.net.calls[k].run.batch)
    {
      assert BatchOk(s.dag, s.net.calls[k].run.client, s.net.calls[k].run.batch);
    }
  }

  lemma HeadInDag(g: Graph, heads: HeadStore, o: ObjectId, h: RevisionId)
    requires HeadsOk(g, heads) && h in LocalHeads(heads, o)
    ensures h in g && g[h].objectId == o
  {
    InLocalHeads(heads, o, h);
  }

  lemma SaveIsGood(g: Graph, c: Client, stamp: Stamp, o: ObjectId, t: string, data: Json)
    requires HeadsOk(g, c.heads) && FreshObject(g, o) && stamp.id !in g
    ensures GoodEdit(g, stamp.client, c, NewObject(o, t, data, stamp))
  {
    hide LocalHeads;
    forall h | h in LocalHeads(c.heads, o)
      ensures false
    {
      HeadInDag(g, c.heads, o, h);
    }
  }

  lemma EditIsGood(g: Graph, c: Client, stamp: Stamp, o: ObjectId, parent: RevisionId, content: Content)
    requires HeadsOk(g, c.heads) && stamp.id !in g && EditRevision(c.heads, o, parent, content, stamp).Ok?
    ensures GoodEdit(g, stamp.client, c, EditRevision(c.heads, o, parent, content, stamp).value)
  {
    hide LocalHeads, HeadsOk;
    EditOutcome(c.heads, o, parent, content, stamp);
    HeadInDag(g, c.heads, o, parent);
  }

  lemma MergeIsGood(g: Graph, c: Client, stamp: Stamp, o: ObjectId, parents: seq<RevisionId>, content: Content)
    requires HeadsOk(g, c.heads) && stamp.id !in g && FullResolution(c.heads, o, parents)
    requires MergeRevision(c.heads, o, parents, content, stamp).Ok?
    ensures GoodEdit(g, stamp.client, c, MergeRevision(c.heads, o, parents, content, stamp).value)
  {
    hide LocalHeads, HeadsOk;
    MergeOutcome(c.heads, o, parents, content, stamp);
    forall p | p in parents
      ensures p in g && g[p].objectId == o
    {
      HeadInDag(g, c.heads, o, p);
    }
  }

  lemma ClientHeads(s: State, me: ClientId)
    requires Inv(s) && me in s.clients
    ensures HeadsOk(s.dag, s.clients[me].heads)
  {
    assert ClientOk(s.dag, s.net.server, me, s.clients[me]);
  }

  lemma EditEvents(s: State, e: Event)
    requires Inv(s) && (e.Save? || e.Edit? || e.Resolve?)
    ensures Inv(Step(s, e))
  {
    hide Inv, HeadsOk, LocalHeads, GoodEdit, Create, EditRevision, MergeRevision;
    var me := e.stamp.client;
    if me in s.clients && Step(s, e) != s {
      ClientHeads(s, me);
      var c := s.clients[me];
      match e {
        case Save(stamp, o, t, data) =>
          SaveIsGood(s.dag, c, stamp, o, t, data);
          CreateInv(s, me, NewObject(o, t, data, stamp));
        case Edit(stamp, o, parent, content) =>
          EditIsGood(s.dag, c, stamp, o, parent, content);
          CreateInv(s, me, EditRevision(c.heads, o, parent, content, stamp).value);
        case Resolve(stamp, o, parents, content) =>
          MergeIsGood(s.dag, c, stamp, o, parents, content);
          CreateInv(s, me, MergeRevision(c.heads, o, parents, content, stamp).value);
      }
    }
  }

  // ---------------------------------------------------------------------------------------
  // Server steps

  lemma ServerRevsInDag(s: State, ev: ServerRuns.Event)
    requires Inv(s)
    ensures Sub(ServerRuns.Step(s.net, ev).server.revs, s.dag)
  {
    hide ClientOk, PullOk, ServerRuns.Inv, ServerRuns.Step, DagOk;
    ServerRuns.StepInv(s.net, ev);
    var net' := ServerRuns.Step(s.net, ev);
    forall r | r in net'.server.revs
      ensures r in s.dag && s.dag[r] == net'.server.revs[r]
    {
      if r !in s.net.server.revs {
        ServerRuns.NewRevisions(s.net, ev, r);
        var rev :| rev in s.net.calls[ev.call].run.batch && rev.id == r && net'.server.revs[r] == rev;
        assert BatchOk(s.dag, s.net.calls[ev.call].run.client, s.net.calls[ev.call].run.batch);
      }
    }
  }

  lemma ServerBatches(s: State, ev: ServerRuns.Event)
    requires forall k :: k in s.net.calls ==> BatchOk(s.dag, s.net.calls[k].run.client, s.net.calls[k].run.batch)
    requires ev.Begin? ==> BatchOk(s.dag, ev.client, ev.batch)
    ensures var calls := ServerRuns.Step(s.net, ev).calls;
            forall k :: k in calls ==> BatchOk(s.dag, calls[k].run.client, calls[k].run.batch)
  {
    hide BatchOk, Commit, Query;
    if ev.Ask? && ev.call in s.net.calls && s.net.calls[ev.call].Validating? && s.net.calls[ev.call].run.Valid()
       && !s.net.calls[ev.call].run.Done() {
      QueryKeepsBatch(s.net.server.revs, s.net.calls[ev.call].run);
    }
  }

  lemma QueryKeepsBatch(g: Graph, run: PushRun)
    requires run.Valid() && !run.Done()
    ensures Query(g, run).batch == run.batch && Query(g, run).client == run.client
  {}

  /** The server moves; clients and pulls in progress are undisturbed. */
  lemma ServerMoves(s: State, ev: ServerRuns.Event)
    requires Inv(s) && (ev.Begin? ==> BatchOk(s.dag, ev.client, ev.batch))
    ensures Inv(s.(net := ServerRuns.Step(s.net, ev)))
  {
    ServerRevsInDag(s, ev);
    ServerBatches(s, ev);
    ServerRuns.StepInv(s.net, ev);
    hide PullOk, ClientOk, BatchOk, ServerRuns.Step, DagOk, ServerRuns.Grows, StoreOk, TxnsOk;
    var net' := ServerRuns.Step(s.net, ev);
    forall c | c in s.clients
      ensures ClientOk(s.dag, net'.server, c, s.clients[c])
    {
      ClientOkMono(s.dag, s.dag, s.net.server, net'.server, c, s.clients[c]);
    }
    forall k | k in s.pulls
      ensures PullOk(s.dag, net'.server, s.clients[s.pulls[k].client], s.pulls[k])
    {
      var c := s.clients[s.pulls[k].client];
      ForwardRefl(s.dag, c, c);
      PullOkMono(s.dag, s.dag, s.net.server, net'.server, c, c, s.pulls[k]);
    }
  }

  lemma PendingBatchOk(g: Graph, s: Server, me: ClientId, records: Records, batch: seq<Revision>)
    requires RecordsOk(g, s, me, records) && PendingBatch(records, batch)
    ensures BatchOk(g, me, batch)
  {
    forall rev | rev in batch
      ensures rev.id in g && g[rev.id] == rev && rev.createdBy == me
    {
      var i :| 0 <= i < |batch| && batch[i] == rev;
    }
  }

  lemma StartPushInv(s: State, me: ClientId, call: nat, batch: seq<Revision>)
    requires Inv(s)
    ensures Inv(PushPending(s, me, call, batch))
  {
    if me in s.clients && batch != [] && PendingBatch(s.clients[me].records, batch) {
      assert ClientOk(s.dag, s.net.server, me, s.clients[me]);
      PendingBatchOk(s.dag, s.net.server, me, s.clients[me].records, batch);
      hide Inv, PendingBatch, ServerRuns.Step;
      ServerMoves(s, ServerRuns.Begin(call, me, batch));
    }
  }

  // ---------------------------------------------------------------------------------------
  // Push answers

  lemma AnswerRecordsOk(g: Graph, s: Server, me: ClientId, records: Records, accepted: seq<RevisionId>,
                        rejected: seq<RejectedRevision>)
    requires RecordsOk(g, s, me, records) && forall r :: r in accepted ==> r in s.revs
    ensures RecordsOk(g, s, me, ApplyPushAnswer(records, accepted, rejected))
  {
    hide ApplyPushAnswer, RejectedIn, LastRejection;
    PushAnswerFacts(records, accepted, rejected);
    forall r | r in records && RejectedIn(rejected, r)
      ensures ApplyPushAnswer(records, accepted, rejected)[r].status.SyncError?
    {
      RejectedHasLast(rejected, r);
      var i :| LastRejection(rejected, r, i);
      LastIndex(rejected, r, i);
    }
  }

  lemma AcceptedAreStored(s: Server, call: ServerRuns.Call)
    requires ServerRuns.CallOk(s, call) && call.Answered?
    ensures forall r :: r in Ids(call.run.AcceptedRevs()) ==> r in s.revs
  {
    var accepted := call.run.AcceptedRevs();
    forall r | r in Ids(accepted)
      ensures r in s.revs
    {
      var i :| 0 <= i < |accepted| && Ids(accepted)[i] == r;
      assert accepted[i] in accepted;
    }
  }

  /** A client whose heads and cursor stay, and whose records stay good, stays good. */
  lemma RecordsChange(g: Graph, s: Server, me: ClientId, c: Client, records: Records)
    requires ClientOk(g, s, me, c) && RecordsOk(g, s, me, records) && c.records.Keys <= records.Keys
    ensures ClientOk(g, s, me, c.(records := records))
  {}

  /** Replacing one client by one whose heads only moved forward. */
  lemma ReplaceClient(s: State, me: ClientId, c': Client)
    requires Inv(s) && me in s.clients && ClientOk(s.dag, s.net.server, me, c') && Forward(s.dag, s.clients[me], c')
    ensures Inv(s.(clients := s.clients[me := c']))
  {
    hide PullOk, Forward, ClientOk, ServerRuns.Inv, DagOk, BatchOk;
    var s' := s.(clients := s.clients[me := c']);
    forall c | c in s.clients
      ensures Forward(s.dag, s.clients[c], s'.clients[c])
    {
      if c != me {
        ForwardRefl(s.dag, s.clients[c], s'.clients[c]);
      }
    }
    SameClientPulls(s, s');
  }

  lemma DeliverInv(s: State, k: nat, synced: nat, errors: nat)
    requires Inv(s) && CanDeliver(s, k, synced, errors)
    ensures Inv(Delivered(s, k, synced, errors))
  {
    var run := s.net.calls[k].run;
    var c := s.clients[run.client];
    var accepted, rejected := Ids(run.AcceptedRevs())[..synced], run.RejectedRevs()[..errors];
    var records := ApplyPushAnswer(c.records, accepted, rejected);
    assert ServerRuns.CallOk(s.net.server, s.net.calls[k]);
    AcceptedAreStored(s.net.server, s.net.calls[k]);
    assert ClientOk(s.dag, s.net.server, run.client, c);
    AnswerRecordsOk(s.dag, s.net.server, run.client, c.records, accepted, rejected);
    PushAnswerFacts(c.records, accepted, rejected);
    hide Inv, ClientOk, Forward, RecordsOk, ServerRuns.CallOk, ApplyPushAnswer;
    RecordsChange(s.dag, s.net.server, run.client, c, records);
    ForwardRefl(s.dag, c, c.(records := records));
    ReplaceClient(s, run.client, c.(records := records));
    ServerMoves(s.(clients := s.clients[run.client := c.(records := records)]), ServerRuns.Forget(k));
  }
}
