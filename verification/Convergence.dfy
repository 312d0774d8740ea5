/**
  Conflict resolution: a merge of all heads makes server and client agree again; and the three
  ways in which the client can lose a head if that, or the atomicity of its steps, is not
  respected.
 */
module Convergence {
  import opened Core
  import opened Dag
  import opened HeadIndex
  import opened Push
  import opened PushLaws
  import opened ClientModel
  import ServerRuns
  import opened NetworkInv

  // ---------------------------------------------------------------------------------------
  // Resolving all heads converges

  lemma {:induction false} OtherObjectsUntouched(s: Server, revs: seq<Revision>, o: ObjectId)
    requires InsertAll(s, revs).Some? && forall rev :: rev in revs ==> rev.objectId != o
    ensures HeadsOf(InsertAll(s, revs).value.heads, o) == HeadsOf(s.heads, o)
  {
    if revs != [] {
      var init, last := revs[..|revs| - 1], revs[|revs| - 1];
      OtherObjectsUntouched(s, init, o);
      InsertHeads(InsertAll(s, init).value, last, o);
      assert last in revs;
    }
  }

  lemma InsertHeads(s: Server, rev: Revision, o: ObjectId)
    requires Insert(s, rev).Some?
    ensures rev.objectId != o ==> HeadsOf(Insert(s, rev).value.heads, o) == HeadsOf(s.heads, o)
    ensures rev.objectId == o && (forall h :: h in HeadsOf(s.heads, o) ==> h in rev.Parents()) ==>
              HeadsOf(Insert(s, rev).value.heads, o) == {rev.id}
  {
    var heads' := Insert(s, rev).value.heads;
    forall h
      ensures (o, h) in heads' <==> (o, h) in UpdateHeads(s.heads, rev.objectId, rev.Parents(), rev.id)
      ensures h in HeadsOf(heads', o) <==> (o, h) in heads'
      ensures h in HeadsOf(s.heads, o) <==> (o, h) in s.heads
    {
      InHeadsOf(heads', o, h);
      InHeadsOf(s.heads, o, h);
    }
  }

  lemma InHeadsOf(heads: HeadTable, o: ObjectId, h: RevisionId)
    ensures h in HeadsOf(heads, o) <==> (o, h) in heads
  {
    if (o, h) in heads {
      assert (o, h).0 == o;
    }
  }

  /** Storing a revision that names all heads of its object leaves it as the only head. */
  lemma {:induction false} MergeWins(s: Server, revs: seq<Revision>, m: Revision)
    requires InsertAll(s, revs).Some? && m in revs && Distinct(revs)
    requires forall rev :: rev in revs && rev.objectId == m.objectId ==> rev == m
    requires forall h :: h in HeadsOf(s.heads, m.objectId) ==> h in m.Parents()
    ensures HeadsOf(InsertAll(s, revs).value.heads, m.objectId) == {m.id}
  {
    var init, last := revs[..|revs| - 1], revs[|revs| - 1];
    assert revs == init + [last];
    InsertHeads(InsertAll(s, init).value, last, m.objectId);
    if last == m {
      forall rev | rev in init
        ensures rev.objectId != m.objectId
      {
        var i :| 0 <= i < |init| && init[i] == rev;
        assert revs[i] == rev;
        assert revs[i].id != revs[|revs| - 1].id;
      }
      OtherObjectsUntouched(s, init, m.objectId);
    } else {
      MergeWins(s, init, m);
    }
  }

  /** Parents that are stored are found in the store, whatever else is in the batch. */
  lemma StoredParentsPass(g: Graph, accepted: seq<Revision>, client: ClientId, rev: Revision)
    requires forall a :: a in accepted ==> a.id !in g
    requires rev.createdBy == client && rev.id !in g && NoDuplicates(rev.Parents())
    requires forall p :: p in rev.Parents() ==> p in g && g[p].objectId == rev.objectId
    ensures Judge(g, accepted, client, rev).Accepted?
  {
    CheckParentsAccepts(g, accepted, rev, 0);
    forall i | 0 <= i < |rev.Parents()|
      ensures LookupParent(g, accepted, rev.Parents()[i]) == Some(rev.objectId)
    {
      var p := rev.Parents()[i];
      assert p in rev.Parents();
      ObjectOfFound(accepted, p);
      assert forall j :: 0 <= j < |accepted| ==> accepted[j] in accepted;
    }
  }

  lemma MergeIsAccepted(s: Server, client: ClientId, batch: seq<Revision>, m: Revision)
    requires Distinct(batch) && m in batch && m.createdBy == client && m.id !in s.revs && NoDuplicates(m.Parents())
    requires forall p :: p in m.Parents() ==> p in s.revs && s.revs[p].objectId == m.objectId
    ensures m in AcceptedIn(s, client, batch)
  {
    var i :| 0 <= i < |batch| && batch[i] == m;
    JudgedAt(s.revs, client, batch, i);
    assert Distinct(batch[..i]);
    AcceptedAreSound(s.revs, client, batch[..i]);
    StoredParentsPass(s.revs, AcceptedOf(batch[..i], JudgeAll(s.revs, client, batch[..i])), client, m);
    ValidateIsJudge(s.revs, client, batch);
    AcceptedMember(batch, JudgeAll(s.revs, client, batch), m);
  }

  /**
    If the client's heads of an object include all of the server's and all are stored there,
    then resolving with all of them succeeds, an uninterrupted push of the merge is accepted, and
    server and client both end with the merge as the object's only head.
   */
  lemma UninterruptedResolution(s: Server, c: Client, o: ObjectId, parents: seq<RevisionId>, content: Content,
                            stamp: Stamp, batch: seq<Revision>)
    requires ServerOk(s) && stamp.id !in s.revs
    requires HeadsOf(s.heads, o) <= LocalHeads(c.heads, o)
    requires forall h :: h in LocalHeads(c.heads, o) ==> h in s.revs && s.revs[h].objectId == o
    requires |parents| >= 2 && NoDuplicates(parents) && (forall p :: p in parents <==> p in LocalHeads(c.heads, o))
    ensures var r := MergeRevision(c.heads, o, parents, content, stamp);
            && r.Ok?
            && LocalHeads(PutLocal(c, r.value).heads, o) == {stamp.id}
            && (r.value in batch && Distinct(batch)
                && (forall rev :: rev in batch && rev.objectId == o ==> rev == r.value) ==>
                  && r.value in AcceptedIn(s, stamp.client, batch)
                  && PushAll(s, stamp.client, batch).Committed?
                  && HeadsOf(PushAll(s, stamp.client, batch).server.heads, o) == {stamp.id})
  {
    MergeOutcome(c.heads, o, parents, content, stamp);
    var m := MergeRevision(c.heads, o, parents, content, stamp).value;
    PutLocalHeads(c, m, o);
    if m in batch && Distinct(batch) && forall rev :: rev in batch && rev.objectId == o ==> rev == m {
      hide LocalHeads, HeadsOf, StoreOk, TxnsOk, Validate, InsertAll, AcceptedIn;
      MergeIsAccepted(s, stamp.client, batch, m);
      PushSucceeds(s, stamp.client, batch);
      MergeWins(s, AcceptedIn(s, stamp.client, batch), m);
    }
  }

  // ---------------------------------------------------------------------------------------
  // Resolving while others commit

  /** `m` can be stored on top of `g`: all parents are there, in its object. */
  ghost predicate ParentsStored(g: Graph, m: Revision) {
    forall p :: p in m.Parents() ==> p in g && g[p].objectId == m.objectId
  }

  /**
    A validation that began when the store was `g` has not rejected `m`, and whatever it has
    accepted or is checking was not in `g`.
   */
  ghost predicate NotRejected(g: Graph, run: PushRun, m: Revision) {
    && run.Valid()
    && (forall rev :: rev in run.AcceptedRevs() ==> rev.id !in g)
    && (run.checking.Some? ==> run.batch[|run.verdicts|].id !in g)
    && (forall i :: 0 <= i < |run.verdicts| && run.batch[i] == m ==> run.verdicts[i].Accepted?)
  }

  /** A parent that was stored when validation began is found, whatever was accepted since. */
  lemma StoredParentFound(g: Graph, g': Graph, accepted: seq<Revision>, m: Revision, p: RevisionId)
    requires Sub(g, g') && ParentsStored(g, m) && p in m.Parents() && forall rev :: rev in accepted ==> rev.id !in g
    ensures LookupParent(g', accepted, p) == Some(m.objectId)
  {
    ObjectOfFound(accepted, p);
    assert forall j :: 0 <= j < |accepted| ==> accepted[j] in accepted;
  }

  lemma DecideKeeps(g: Graph, run: PushRun, m: Revision, v: Verdict)
    requires NotRejected(g, run, m) && !run.Done()
    requires run.batch[|run.verdicts|] == m ==> v.Accepted?
    requires v.Accepted? ==> run.checking.Some?
    ensures NotRejected(g, run.Decide(v), m)
  {
    hide AcceptedOf, RejectedOf;
    AcceptedStep(run, v);
  }

  /** No validation query rejects the merge while its parents stay stored and its id stays new. */
  lemma QueryKeepsMerge(g: Graph, g': Graph, run: PushRun, m: Revision)
    requires NotRejected(g, run, m) && !run.Done() && Sub(g, g') && ParentsStored(g, m)
    requires m.createdBy == run.client && m.id !in g' && NoDuplicates(m.Parents())
    ensures NotRejected(g, Query(g', run), m)
  {
    hide AcceptedOf, LookupParent, NoDuplicates;
    var rev, run' := run.batch[|run.verdicts|], Query(g', run);
    if rev == m && run.checking.Some? && run.checking.value < |m.Parents()| {
      StoredParentFound(g, g', run.AcceptedRevs(), m, m.Parents()[run.checking.value]);
    }
    if run'.checking.None? {
      DecideKeeps(g, run, m, run'.verdicts[|run.verdicts|]);
    }
  }

  /** Call `k` begins at position `n` of the run and is neither finished nor given up later. */
  ghost predicate Pushes(events: seq<ServerRuns.Event>, n: nat, k: nat, client: ClientId, batch: seq<Revision>) {
    && n < |events| && events[n] == ServerRuns.Begin(k, client, batch) && k !in ServerRuns.After(events[..n]).calls
    && forall i :: n < i < |events| ==> events[i] != ServerRuns.Finish(k) && events[i] != ServerRuns.Forget(k)
  }

  ghost predicate Underway(s: ServerRuns.State, g: Graph, k: nat, client: ClientId, batch: seq<Revision>, m: Revision) {
    && k in s.calls && s.calls[k].Validating? && s.calls[k].run.client == client && s.calls[k].run.batch == batch
    && NotRejected(g, s.calls[k].run, m)
  }

  lemma UnderwayStep(s: ServerRuns.State, e: ServerRuns.Event, g: Graph, k: nat, client: ClientId,
                     batch: seq<Revision>, m: Revision)
    requires Underway(s, g, k, client, batch, m) && e != ServerRuns.Finish(k) && e != ServerRuns.Forget(k)
    requires Sub(g, s.server.revs) && ParentsStored(g, m) && m.id !in s.server.revs
    requires m.createdBy == client && NoDuplicates(m.Parents())
    ensures Underway(ServerRuns.Step(s, e), g, k, client, batch, m)
  {
    hide NotRejected, Query, Commit, NoDuplicates, ParentsStored;
    if e == ServerRuns.Ask(k) && s.calls[k].run.Valid() && !s.calls[k].run.Done() {
      QueryKeepsMerge(g, s.server.revs, s.calls[k].run, m);
      QueryKeepsBatch(s.server.revs, s.calls[k].run);
    }
  }

  /** The merge is not rejected at any point of the run, whatever the other calls commit. */
  lemma {:induction false} MergeSurvives(events: seq<ServerRuns.Event>, n: nat, j: nat, k: nat, client: ClientId,
                                         batch: seq<Revision>, m: Revision)
    requires Pushes(events, n, k, client, batch) && n < j <= |events|
    requires ParentsStored(ServerRuns.After(events[..n]).server.revs, m)
    requires m.id !in ServerRuns.After(events).server.revs && m.createdBy == client && NoDuplicates(m.Parents())
    ensures Underway(ServerRuns.After(events[..j]), ServerRuns.After(events[..n]).server.revs, k, client, batch, m)
    decreases j
  {
    hide ServerRuns.After, ParentsStored, NoDuplicates;
    var g := ServerRuns.After(events[..n]).server.revs;
    ServerRuns.AfterNext(events, j - 1);
    if j == n + 1 {
      assert NotRejected(g, Start(client, batch), m);
    } else {
      hide ServerRuns.Step, Underway;
      MergeSurvives(events, n, j - 1, k, client, batch, m);
      ServerRuns.RunGrows(events, n, j - 1);
      ServerRuns.RunGrows(events, j - 1, |events|);
      assert events[..|events|] == events;
      UnderwayStep(ServerRuns.After(events[..j - 1]), events[j - 1], g, k, client, batch, m);
    }
  }

  /** What a commit does to the heads of the merge's object. */
  lemma MergeCommits(s: Server, run: PushRun, m: Revision)
    requires ServerOk(s) && RunOk(s.revs, run) && run.Done() && Distinct(run.batch) && m in run.AcceptedRevs()
    requires forall rev :: rev in run.batch && rev.objectId == m.objectId ==> rev == m
    requires forall h :: h in HeadsOf(s.heads, m.objectId) ==> h in m.Parents()
    ensures Commit(s, run) == Failed <==> exists rev :: rev in run.AcceptedRevs() && rev.id in s.revs
    ensures Commit(s, run).Committed? ==> HeadsOf(Commit(s, run).server.heads, m.objectId) == {m.id}
  {
    hide AcceptedOf, Select, InsertAll, Grounded, Commit, HeadsOf, StoreOk, TxnsOk, IdSet, NoDuplicates;
    var accepted := run.AcceptedRevs();
    CommitFailsExactly(s, run);
    SelectedDistinct(run.batch, IdSet(accepted));
    if Commit(s, run).Committed? {
      CommitExact(s, run);
      SelectionIsExact(run);
      InsertAllSucceeds(s, accepted);
      InsertAllShape(s, accepted);
      StoredIds(s, InsertAll(s, accepted).value, accepted);
      CommitSelected(s, run);
      MergeWins(s, accepted, m);
    }
  }

  /** A push of a merge whose parents were stored when it began, up to its commit. */
  lemma InterleavedMerge(events: seq<ServerRuns.Event>, n: nat, k: nat, client: ClientId, batch: seq<Revision>,
                         m: Revision)
    requires Pushes(events, n, k, client, batch) && ParentsStored(ServerRuns.After(events[..n]).server.revs, m)
    requires m in batch && Distinct(batch) && m.createdBy == client && NoDuplicates(m.Parents())
    requires forall rev :: rev in batch && rev.objectId == m.objectId ==> rev == m
    requires var s := ServerRuns.After(events);
             && m.id !in s.server.revs && (k in s.calls ==> s.calls[k].run.Done())
             && forall h :: h in HeadsOf(s.server.heads, m.objectId) ==> h in m.Parents()
    ensures var s, s' := ServerRuns.After(events), ServerRuns.After(events + [ServerRuns.Finish(k)]);
            && k in s.calls && s.calls[k].run.Valid()
            && var accepted := s.calls[k].run.AcceptedRevs();
               && m in accepted
               && (k in s'.calls <==> forall rev :: rev in accepted ==> rev.id !in s.server.revs)
               && (k !in s'.calls ==> s'.server == s.server)
               && (k in s'.calls ==> s'.calls[k].Answered? && HeadsOf(s'.server.heads, m.objectId) == {m.id})
  {
    hide HeadsOf, ServerRuns.After, AcceptedOf, NoDuplicates, Commit, ServerRuns.Inv, ParentsStored;
    var s := ServerRuns.After(events);
    assert events[..|events|] == events;
    MergeSurvives(events, n, |events|, k, client, batch, m);
    var i :| 0 <= i < |batch| && batch[i] == m;
    AcceptedMember(batch, s.calls[k].run.verdicts, m);
    ServerRuns.AfterInv(events);
    CallIsOk(s, k);
    hide ServerOk, RunOk, NotRejected;
    MergeCommits(s.server, s.calls[k].run, m);
    FinishNext(events, k);
  }

  /**
    Conflict resolution converges under interleaving.  The client resolves all its heads of an
    object and pushes the merge when these are stored; while that push is validated, query by
    query, other pushes commit.  If by its commit they have not given the object a head the merge
    does not name, then the merge is accepted, the commit fails only if another call has stored
    a revision of the same batch meanwhile, and otherwise server and client both end with the
    merge as the object's only head.
   */
  lemma ResolutionConverges(events: seq<ServerRuns.Event>, n: nat, k: nat, c: Client, o: ObjectId,
                            parents: seq<RevisionId>, content: Content, stamp: Stamp, batch: seq<Revision>)
    requires Pushes(events, n, k, stamp.client, batch)
    requires var s := ServerRuns.After(events[..n]).server;
             forall h :: h in LocalHeads(c.heads, o) ==> h in s.revs && s.revs[h].objectId == o
    requires |parents| >= 2 && NoDuplicates(parents) && (forall p :: p in parents <==> p in LocalHeads(c.heads, o))
    requires var s := ServerRuns.After(events);
             && stamp.id !in s.server.revs
             && HeadsOf(s.server.heads, o) <= LocalHeads(c.heads, o)
             && (k in s.calls ==> s.calls[k].run.Done())
    ensures var r := MergeRevision(c.heads, o, parents, content, stamp);
            var s, s' := ServerRuns.After(events), ServerRuns.After(events + [ServerRuns.Finish(k)]);
            && r.Ok?
            && LocalHeads(PutLocal(c, r.value).heads, o) == {stamp.id}
            && (r.value in batch && Distinct(batch)
                && (forall rev :: rev in batch && rev.objectId == o ==> rev == r.value) ==>
                  && k in s.calls && s.calls[k].run.Valid()
                  && var accepted := s.calls[k].run.AcceptedRevs();
                     && r.value in accepted
                     && (k in s'.calls <==> forall rev :: rev in accepted ==> rev.id !in s.server.revs)
                     && (k !in s'.calls ==> s'.server == s.server)
                     && (k in s'.calls ==> s'.calls[k].Answered? && HeadsOf(s'.server.heads, o) == {stamp.id}))
  {
    hide LocalHeads, HeadsOf, ServerRuns.After, AcceptedOf, NoDuplicates, Pushes;
    MergeOutcome(c.heads, o, parents, content, stamp);
    var m := MergeRevision(c.heads, o, parents, content, stamp).value;
    PutLocalHeads(c, m, o);
    if m in batch && Distinct(batch) && forall rev :: rev in batch && rev.objectId == o ==> rev == m {
      InterleavedMerge(events, n, k, stamp.client, batch, m);
    }
  }

  lemma CallIsOk(s: ServerRuns.State, k: nat)
    requires ServerRuns.Inv(s) && k in s.calls && s.calls[k].Validating?
    ensures ServerOk(s.server) && RunOk(s.server.revs, s.calls[k].run)
  {
    hide ServerOk, RunOk;
    assert ServerRuns.CallOk(s.server, s.calls[k]);
  }

  lemma FinishNext(events: seq<ServerRuns.Event>, k: nat)
    ensures ServerRuns.After(events + [ServerRuns.Finish(k)]) ==
            ServerRuns.Step(ServerRuns.After(events), ServerRuns.Finish(k))
  {
    hide ServerRuns.Step;
    assert (events + [ServerRuns.Finish(k)])[..|events|] == events;
  }

  // ---------------------------------------------------------------------------------------
  // Partial resolutions

  /** What is below a fresh revision is below one of its parents. */
  lemma BelowFresh(g: Graph, m: Revision, h: RevisionId)
    requires m.id in g && g[m.id] == m && h != m.id && Ancestor(g, h, m.id)
    ensures exists p :: p in m.Parents() && Ancestor(g, h, p)
  {
    var chain :| Links(g, chain, h, m.id);
    var n := |chain| - 1;
    assert Links(g, chain[..n], h, chain[n - 1]);
  }

  /** A revision that is alone at the top covers exactly what its parents cover, and itself. */
  lemma CoveredByOne(g: Graph, m: Revision, h: RevisionId)
    requires m.id in g && g[m.id] == m && h != m.id
    ensures Covered(g, h, {m.id}) <==> exists p :: p in m.Parents() && Ancestor(g, h, p)
  {
    if p :| p in m.Parents() && Ancestor(g, h, p) {
      AncestorStep(g, h, p, m.id);
      assert m.id in {m.id};
    }
    if Covered(g, h, {m.id}) {
      BelowFresh(g, m, h);
    }
  }

  /**
    The client accepts any two or more heads as parents but then drops all heads.  A head is
    still covered afterwards if and only if it is an ancestor-or-equal of a named parent.
   */
  lemma PartialResolutionLosesHeads(g: Graph, c: Client, m: Revision, h: RevisionId)
    requires m.id in g && g[m.id] == m && h in LocalHeads(c.heads, m.objectId) && h != m.id
    ensures Covered(g, h, LocalHeads(PutLocal(c, m).heads, m.objectId)) <==>
            exists p :: p in m.Parents() && Ancestor(g, h, p)
  {
    hide LocalHeads, PutLocal;
    PutLocalHeads(c, m, m.objectId);
    CoveredByOne(g, m, h);
  }

  /** With unrelated heads, nothing is lost if and only if every head was named. */
  lemma UnrelatedHeadsMustBeNamed(g: Graph, c: Client, m: Revision)
    requires m.id in g && g[m.id] == m && m.id !in LocalHeads(c.heads, m.objectId)
    requires forall p :: p in m.Parents() ==> p in LocalHeads(c.heads, m.objectId)
    requires forall a, b :: a in LocalHeads(c.heads, m.objectId) && b in LocalHeads(c.heads, m.objectId) && a != b ==>
               !Ancestor(g, a, b)
    ensures (forall h :: h in LocalHeads(c.heads, m.objectId) ==>
              Covered(g, h, LocalHeads(PutLocal(c, m).heads, m.objectId))) <==>
            (forall h :: h in LocalHeads(c.heads, m.objectId) ==> h in m.Parents())
  {
    hide LocalHeads, PutLocal;
    forall h | h in LocalHeads(c.heads, m.objectId)
      ensures Covered(g, h, LocalHeads(PutLocal(c, m).heads, m.objectId)) <==> h in m.Parents()
    {
      PartialResolutionLosesHeads(g, c, m, h);
      AncestorRefl(g, h);
    }
  }

  // ---------------------------------------------------------------------------------------
  // Client steps that are not atomic

  /** The heads after a reconciliation that decided on `seen` but wrote over `now`. */
  function TornReconcile(seen: HeadStore, now: HeadStore, u: ObjectUpdate): HeadStore {
    if Clean(seen, u) then ReplaceHeads(now, u.objectId, u.heads) else AddHeads(now, u.heads)
  }

  /**
    The client reads the heads and replaces them in two separate transactions.  An edit of the
    same object that slips in between and is not yet stored on the server survives if and only
    if the update was not going to replace the heads cleanly.
   */
  lemma EditDuringReconcile(g: Graph, stored: Graph, me: ClientId, c: Client, u: ObjectUpdate, rev: Revision)
    requires GoodEdit(g, me, c, rev) && rev.objectId == u.objectId
    requires Closed(stored) && Sub(stored, g) && UpdateOf(stored, u)
    ensures Covered(g[rev.id := rev], rev.id,
                    LocalHeads(TornReconcile(c.heads, PutLocal(c, rev).heads, u), rev.objectId)) <==>
            !Clean(c.heads, u)
  {
    hide LocalHeads, PutLocal, Clean, ReplaceHeads, AddHeads;
    var g', o := g[rev.id := rev], rev.objectId;
    var now := PutLocal(c, rev).heads;
    PutLocalHeads(c, rev, o);
    AncestorRefl(g', rev.id);
    if Clean(c.heads, u) {
      ReplacedHeads(now, u);
      forall h | h in Ids(u.heads)
        ensures !Ancestor(g', rev.id, h)
      {
        var i :| 0 <= i < |u.heads| && Ids(u.heads)[i] == h;
        assert u.heads[i] in u.heads;
        if Ancestor(g', rev.id, h) {
          var chain :| Links(g', chain, rev.id, h);
          ChainStaysInside(stored, g', chain);
          assert false;
        }
      }
    } else {
      AddedHeads(now, u, rev.id);
    }
  }

  lemma ReplacedHeads(heads: HeadStore, u: ObjectUpdate)
    ensures forall h :: h in LocalHeads(ReplaceHeads(heads, u.objectId, u.heads), u.objectId) ==> h in Ids(u.heads)
  {
    hide LocalHeads, ReplaceHeads, Entries;
    ReplaceIsUnion(heads, u.objectId, u.heads);
    forall h | h in LocalHeads(ReplaceHeads(heads, u.objectId, u.heads), u.objectId)
      ensures h in Ids(u.heads)
    {
      InLocalHeads(ReplaceHeads(heads, u.objectId, u.heads), u.objectId, h);
      EntryKeys(u.objectId, u.heads, (u.objectId, h));
    }
  }

  lemma AddedHeads(heads: HeadStore, u: ObjectUpdate, h: RevisionId)
    requires AllOf(u.objectId, u.heads) && h in LocalHeads(heads, u.objectId)
    ensures h in LocalHeads(AddHeads(heads, u.heads), u.objectId)
  {
    hide LocalHeads, AddHeads, Entries;
    AddIsUnion(heads, u.objectId, u.heads);
    InLocalHeads(heads, u.objectId, h);
    InLocalHeads(AddHeads(heads, u.heads), u.objectId, h);
  }

  /**
    The mirror image: an edit reads the heads and replaces them in two separate transactions.
    A head that an update of the same object brings in between stays covered if and only if it
    is an ancestor-or-equal of a parent of the edit, that is, of a head the edit had read.
   */
  lemma UpdateDuringEdit(g: Graph, me: ClientId, c: Client, u: ObjectUpdate, rev: Revision, h: RevisionId)
    requires Closed(g) && GoodEdit(g, me, c, rev) && UpdateOf(g, u) && rev.objectId == u.objectId && h in Ids(u.heads)
    ensures Covered(g[rev.id := rev], h, LocalHeads(PutLocal(ApplyUpdate(c, u), rev).heads, rev.objectId)) <==>
            exists p :: p in rev.Parents() && Ancestor(g, h, p)
  {
    hide LocalHeads, PutLocal, ApplyUpdate;
    var g' := g[rev.id := rev];
    PutLocalHeads(ApplyUpdate(c, u), rev, rev.objectId);
    IdsMember(u.heads, h);
    CoveredByOne(g', rev, h);
    forall p | p in rev.Parents()
      ensures Ancestor(g', h, p) <==> Ancestor(g, h, p)
    {
      AncestorInside(g, g', h, p);
    }
  }

  // ---------------------------------------------------------------------------------------
  // One input for each loss

  function Example(id: RevisionId, lineage: Lineage): Revision {
    Revision(id, 7, "trip", lineage, 0, 1, Deleted)
  }

  ghost function Holding(revs: seq<Revision>): Client {
    Client(map[], ReplaceHeads(map[], 7, revs), None)
  }

  lemma HeldHeads(revs: seq<Revision>)
    ensures LocalHeads(Holding(revs).heads, 7) == set r | r in Ids(revs)
  {
    hide LocalHeads;
    forall r
      ensures r in LocalHeads(Holding(revs).heads, 7) <==> r in Ids(revs)
    {
      InLocalHeads(Holding(revs).heads, 7, r);
      EntryKeys(7, revs, (7, r));
    }
  }

  /** Only a revision with parents has other ancestors than itself. */
  lemma AncestorNeedsParents(g: Graph, a: RevisionId, b: RevisionId)
    requires Ancestor(g, a, b) && a != b
    ensures b in g && g[b].Parents() != []
  {
    var chain :| Links(g, chain, a, b);
    assert chain[|chain| - 2] in g[b].Parents();
  }

  /** Three conflicting heads, two of them resolved: the third is gone. */
  lemma ThirdHeadIsLost()
    ensures var c := Holding([Example(1, Root), Example(2, Root), Example(3, Root)]);
            var r := MergeRevision(c.heads, 7, [1, 2], Deleted, Stamp(1, 4, 0));
            && r.Ok?
            && 3 in LocalHeads(c.heads, 7)
            && !Covered(map[1 := Example(1, Root), 2 := Example(2, Root), 3 := Example(3, Root), 4 := r.value],
                        3, LocalHeads(PutLocal(c, r.value).heads, 7))
  {
    hide LocalHeads, PutLocal, Ancestor, Holding;
    var revs := [Example(1, Root), Example(2, Root), Example(3, Root)];
    var c := Holding(revs);
    HeldHeads(revs);
    assert Ids(revs) == [1, 2, 3];
    MergeOutcome(c.heads, 7, [1, 2], Deleted, Stamp(1, 4, 0));
    var m := MergeRevision(c.heads, 7, [1, 2], Deleted, Stamp(1, 4, 0)).value;
    var g: Graph := map[1 := Example(1, Root), 2 := Example(2, Root), 3 := Example(3, Root), 4 := m];
    PartialResolutionLosesHeads(g, c, m, 3);
    forall p | p in m.Parents()
      ensures !Ancestor(g, 3, p)
    {
      if Ancestor(g, 3, p) {
        AncestorNeedsParents(g, 3, p);
      }
    }
  }

  const SHARED: Graph := map[1 := Example(1, Root), 3 := Example(3, Update(1))]

  const INCOMING := ObjectUpdate(7, Replace, [Example(3, Update(1))])

  /** A local edit of the only head. */
  ghost function LocalEdit(c: Client): Result<Revision> {
    EditRevision(c.heads, 7, 1, Deleted, Stamp(1, 2, 0))
  }

  lemma SharedSetting()
    ensures var c := Holding([Example(1, Root)]);
            && Closed(SHARED) && UpdateOf(SHARED, INCOMING) && Clean(c.heads, INCOMING)
            && LocalEdit(c).Ok? && LocalEdit(c).value.id == 2 && LocalEdit(c).value.objectId == 7
            && LocalEdit(c).value.Parents() == [1] && GoodEdit(SHARED, 1, c, LocalEdit(c).value)
  {
    hide LocalHeads, Holding;
    var c := Holding([Example(1, Root)]);
    HeldHeads([Example(1, Root)]);
    assert Ids([Example(1, Root)]) == [1];
    assert LocalHeads(c.heads, 7) == {1};
    EditOutcome(c.heads, 7, 1, Deleted, Stamp(1, 2, 0));
    assert Example(3, Update(1)).Parents() == [1] && INCOMING.heads[0] == Example(3, Update(1));
    assert Supersedes(INCOMING.heads, 1);
  }

  /** Both sides edited the same revision; the local edit falls into the reconciliation and is gone. */
  lemma LocalEditIsLost()
    ensures var c := Holding([Example(1, Root)]);
            && LocalEdit(c).Ok?
            && var rev := LocalEdit(c).value;
               !Covered(SHARED[2 := rev], 2, LocalHeads(TornReconcile(c.heads, PutLocal(c, rev).heads, INCOMING), 7))
  {
    SharedSetting();
    hide LocalHeads, Holding, GoodEdit, UpdateOf, Clean, LocalEdit;
    var c := Holding([Example(1, Root)]);
    EditDuringReconcile(SHARED, SHARED, 1, c, INCOMING, LocalEdit(c).value);
  }

  /** The same two edits; the update falls into the local edit and its head is gone. */
  lemma IncomingHeadIsLost()
    ensures var c := Holding([Example(1, Root)]);
            && LocalEdit(c).Ok?
            && var rev := LocalEdit(c).value;
               !Covered(SHARED[2 := rev], 3, LocalHeads(PutLocal(ApplyUpdate(c, INCOMING), rev).heads, 7))
  {
    SharedSetting();
    hide LocalHeads, Holding, GoodEdit, UpdateOf, Clean, Ancestor, LocalEdit;
    var c := Holding([Example(1, Root)]);
    assert Ids(INCOMING.heads) == [3];
    UpdateDuringEdit(SHARED, 1, c, INCOMING, LocalEdit(c).value, 3);
    if Ancestor(SHARED, 3, 1) {
      AncestorNeedsParents(SHARED, 3, 1);
    }
  }
}
