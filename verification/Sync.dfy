/**
  Undisturbed rounds.  From every reachable state, whatever is in flight, a client can push what
  is pending and pull what is new, and all clients together can catch up with one another.
 */
module Sync {
  import opened Core
  import opened Dag
  import opened Push
  import PushLaws
  import ServerRuns
  import opened Codec
  import opened Pull
  import opened Filter
  import opened ClientModel
  import ClientDb
  import ServerDb
  import opened Network
  import opened NetworkPulls
  import opened Guarantees

  // ---------------------------------------------------------------------------------------
  // Every query has an answer

  lemma {:induction false} Listing<T(!new)>(s: set<T>) returns (result: seq<T>)
    ensures Lists(s, result)
  {
    if s == {} {
      result := [];
    } else {
      var x :| x in s;
      var rest := Listing(s - {x});
      result := rest + [x];
    }
  }

  lemma {:induction false} OrderedListing(s: set<ParentRow>) returns (result: seq<ParentRow>)
    ensures Lists(s, result) && SortedByRevision(result)
  {
    if s == {} {
      result := [];
    } else {
      ServerDb.FirstRowExists(s);
      var row :| row in s && forall x :: x in s ==> ServerDb.RowBefore(row, x);
      var rest := OrderedListing(s - {row});
      result := [row] + rest;
      forall j | 0 <= j < |rest|
        ensures rest[j] in s && rest[j] != row
      {
        assert rest[j] in rest;
      }
    }
  }

  lemma {:induction false} Grouping(rows: seq<ParentRow>) returns (m: map<RevisionId, seq<RevisionId>>)
    ensures Groups(m, rows)
  {
    hide Groups;
    if rows == [] {
      m := map[];
      NoGroups();
    } else {
      var init, last := rows[..|rows| - 1], rows[|rows| - 1];
      var before := Grouping(init);
      GroupStep(before, init, last);
      assert init + [last] == rows;
      m := before[last.revisionId := ParentsIn(before, last.revisionId) + [last.parentId]];
    }
  }

  lemma NoGroups()
    ensures Groups(map[], [])
  {}

  lemma {:induction false} PendingListing(records: Records, batch: seq<Revision>, left: set<RevisionId>)
    returns (result: seq<Revision>)
    requires ClientDb.KeyedRecords(records) && ClientDb.PendingUpTo(records, batch, left)
    ensures PendingBatch(records, result)
    decreases |left|
  {
    hide ClientDb.PendingUpTo, PendingBatch;
    if left == {} {
      result := batch;
      PendingDone(records, batch);
    } else {
      PendingLeft(records, batch, left);
      LeastExists(left);
      var r :| r in left && forall x :: x in left ==> r <= x;
      ClientDb.PendingStep(records, batch, left, r);
      result := PendingListing(records, batch + [records[r].rev], left - {r});
    }
  }

  lemma PendingDone(records: Records, batch: seq<Revision>)
    requires ClientDb.PendingUpTo(records, batch, {})
    ensures PendingBatch(records, batch)
  {}

  lemma PendingLeft(records: Records, batch: seq<Revision>, left: set<RevisionId>)
    requires ClientDb.PendingUpTo(records, batch, left)
    ensures forall r :: r in left ==> r in records
  {}

  lemma {:induction false} FreshKey(keys: set<nat>) returns (k: nat)
    ensures k !in keys && forall x :: x in keys ==> x < k
  {
    if keys == {} {
      k := 0;
    } else {
      var x :| x in keys;
      var l := FreshKey(keys - {x});
      k := if l <= x then x + 1 else l;
      assert forall y :: y in keys ==> y == x || y in keys - {x};
    }
  }

  // ---------------------------------------------------------------------------------------
  // A push

  /** `s` with push call `k` in the given state. */
  ghost function Calling(s: State, k: nat, call: ServerRuns.Call): State {
    s.(net := s.net.(calls := s.net.calls[k := call]))
  }

  lemma AskStep(s: State, k: nat, run: PushRun)
    requires run.Valid() && !run.Done()
    ensures Step(Calling(s, k, ServerRuns.Validating(run)), ServerStep(ServerRuns.Ask(k))) ==
            Calling(s, k, ServerRuns.Validating(Query(s.net.server.revs, run)))
  {
    hide Query;
  }

  /** The server's queries, one after the other, validate the batch. */
  lemma {:induction false} ValidationRound(events: seq<Event>, s: State, k: nat, run: PushRun)
    returns (more: seq<Event>)
    requires run.Valid() && After(events) == Calling(s, k, ServerRuns.Validating(run))
    ensures After(events + more) == Calling(s, k, ServerRuns.Validating(Validate(s.net.server.revs, run)))
    decreases |run.batch| - |run.verdicts|, if run.Done() then 0 else run.Remaining()
  {
    hide After, Step, Calling;
    if run.Done() {
      more := [];
      assert events + more == events;
    } else {
      var ask := ServerStep(ServerRuns.Ask(k));
      AskStep(s, k, run);
      AfterSnoc(events, ask);
      var rest := ValidationRound(events + [ask], s, k, Query(s.net.server.revs, run));
      more := [ask] + rest;
      assert events + more == (events + [ask]) + rest;
    }
  }

  lemma BeginStep(s: State, me: ClientId, k: nat, batch: seq<Revision>)
    requires me in s.clients && k !in s.net.calls && batch != [] && PendingBatch(s.clients[me].records, batch)
    ensures Step(s, StartPush(me, k, batch)) == Calling(s, k, ServerRuns.Validating(Start(me, batch)))
  {
    hide PendingBatch;
  }

  lemma CommitStep(s: State, k: nat, run: PushRun)
    requires run.Valid() && run.Done() && Commit(s.net.server, run).Committed?
    ensures var Committed(server, id) := Commit(s.net.server, run);
            Step(Calling(s, k, ServerRuns.Validating(run)), ServerStep(ServerRuns.Finish(k))) ==
            Calling(s.(net := s.net.(server := server)), k, ServerRuns.Answered(run, id))
  {
    hide Commit;
  }

  /** The client's records after it has applied the whole answer of `run`. */
  ghost function Answered(c: Client, run: PushRun): Client
    requires run.Valid()
  {
    c.(records := ApplyPushAnswer(c.records, Ids(run.AcceptedRevs()), run.RejectedRevs()))
  }

  lemma DeliverStep(s: State, k: nat, run: PushRun, id: nat)
    requires run.Valid() && run.client in s.clients && k !in s.net.calls
    ensures Step(Calling(s, k, ServerRuns.Answered(run, id)),
                 DeliverPush(k, |run.AcceptedRevs()|, |run.RejectedRevs()|)) ==
            s.(clients := s.clients[run.client := Answered(s.clients[run.client], run)])
  {
    hide ApplyPushAnswer, AcceptedOf, RejectedOf, Ids;
    var accepted, rejected := Ids(run.AcceptedRevs()), run.RejectedRevs();
    SameLengthIds(run.AcceptedRevs());
    assert accepted[..|accepted|] == accepted && rejected[..|rejected|] == rejected;
    assert s.net.calls[k := ServerRuns.Answered(run, id)] - {k} == s.net.calls;
  }

  /** The state an undisturbed push of `batch` leads to. */
  ghost function Pushed(s: State, me: ClientId, batch: seq<Revision>): State
    requires me in s.clients && PushLaws.PushAll(s.net.server, me, batch).Committed?
  {
    s.(net := s.net.(server := PushLaws.PushAll(s.net.server, me, batch).server),
       clients := s.clients[me := Answered(s.clients[me], Validate(s.net.server.revs, Start(me, batch)))])
  }

  lemma PendingCommits(s: State, me: ClientId, batch: seq<Revision>)
    requires Inv(s) && me in s.clients && PendingBatch(s.clients[me].records, batch)
    ensures PushLaws.PushAll(s.net.server, me, batch).Committed?
  {
    hide Inv, PushLaws.PushAll;
    ServerIsOk(s);
    hide ServerOk;
    assert Distinct(batch);
    hide PendingBatch, PushLaws.Sound, InsertAll, PushLaws.WithTransaction;
    PushLaws.PushSucceeds(s.net.server, me, batch);
  }

  /** Nobody disturbing, a pending batch is validated, committed, answered and marked. */
  lemma PushRound(events: seq<Event>, me: ClientId, batch: seq<Revision>) returns (more: seq<Event>)
    requires var s := After(events); me in s.clients && batch != [] && PendingBatch(s.clients[me].records, batch)
    ensures var s := After(events);
            && PushLaws.PushAll(s.net.server, me, batch).Committed?
            && After(events + more) == Pushed(s, me, batch)
  {
    hide After, Step, Calling, PendingBatch, Validate, Commit, Inv, Answered, AcceptedOf, RejectedOf;
    var s := After(events);
    AfterInv(events);
    PendingCommits(s, me, batch);
    var k := FreshKey(s.net.calls.Keys);
    var start, run := Start(me, batch), Validate(s.net.server.revs, Start(me, batch));
    var Committed(server, id) := Commit(s.net.server, run);
    var begin := StartPush(me, k, batch);
    var finish := ServerStep(ServerRuns.Finish(k));
    var deliver := DeliverPush(k, |run.AcceptedRevs()|, |run.RejectedRevs()|);
    BeginStep(s, me, k, batch);
    AfterSnoc(events, begin);
    var asks := ValidationRound(events + [begin], s, k, start);
    CommitStep(s, k, run);
    AfterSnoc((events + [begin]) + asks, finish);
    DeliverStep(s.(net := s.net.(server := server)), k, run, id);
    AfterSnoc(((events + [begin]) + asks) + [finish], deliver);
    more := [begin] + asks + [finish, deliver];
    assert events + more == (((events + [begin]) + asks) + [finish]) + [deliver];
  }

  ghost predicate NothingPendingAt(c: Client) {
    forall r :: r in c.records ==> c.records[r].status != Pending
  }

  lemma AnswerSettles(c: Client, me: ClientId, g: Graph, batch: seq<Revision>)
    requires ClientDb.KeyedRecords(c.records) && PendingBatch(c.records, batch)
    ensures NothingPendingAt(Answered(c, Validate(g, Start(me, batch))))
  {
    hide ApplyPushAnswer, Validate, AcceptedOf, RejectedOf, Ids, RejectedIn, LastRejection;
    var run := Validate(g, Start(me, batch));
    PushAnswerFacts(c.records, Ids(run.AcceptedRevs()), run.RejectedRevs());
    forall r | r in c.records
      ensures Answered(c, run).records[r].status != Pending
    {
      if c.records[r].status == Pending {
        var rev := c.records[r].rev;
        AcceptedOrRejected(run, rev);
        MarkedIsNotPending(c.records, run, r);
      } else if RejectedIn(run.RejectedRevs(), r) {
        MarkedIsNotPending(c.records, run, r);
      }
    }
  }

  lemma RecordsAreKeyed(s: State, me: ClientId)
    requires Inv(s) && me in s.clients
    ensures ClientDb.KeyedRecords(s.clients[me].records)
  {
    hide ServerRuns.Inv, PullOk, BatchOk, HeadsOk, OwnOk, Caught;
    assert ClientOk(s.dag, s.net.server, me, s.clients[me]);
  }

  // ---------------------------------------------------------------------------------------
  // A pull

  lemma RequestStep(s: State, me: ClientId, k: nat)
    requires me in s.clients && k !in s.pulls
    ensures Step(s, StartPull(me, k)) == Advance(s, k, Requested(me, CursorOf(s.clients[me])))
  {}

  lemma MarkStep(s: State, me: ClientId, k: nat, since: nat)
    ensures Step(Advance(s, k, Requested(me, since)), ReadWatermark(k)) ==
            Advance(s, k, Marked(me, since, MaxId(s.net.server.txns)))
  {
    hide MaxId;
  }

  lemma ListStep(s: State, me: ClientId, k: nat, since: nat, upTo: nat, objects: seq<ObjectId>)
    requires Lists(Changed(s.net.server, me, since, upTo), objects)
    ensures Step(Advance(s, k, Marked(me, since, upTo)), ReadChanged(k, objects)) ==
            Advance(s, k, Listed(me, since, upTo, objects))
  {
    hide Lists, Changed;
  }

  lemma HeadsStep(s: State, me: ClientId, k: nat, since: nat, upTo: nat, objects: seq<ObjectId>, rows: HeadRows)
    requires Lists(HeadsIn(s.net.server.heads, objects), rows)
    ensures Step(Advance(s, k, Listed(me, since, upTo, objects)), ReadHeads(k, rows)) ==
            Advance(s, k, WithHeads(me, upTo, objects, rows))
  {
    hide Lists, HeadsIn;
  }

  lemma RowsStep(s: State, me: ClientId, k: nat, upTo: nat, objects: seq<ObjectId>, rows: HeadRows)
    ensures Step(Advance(s, k, WithHeads(me, upTo, objects, rows)), ReadRows(k)) ==
            Advance(s, k, WithRows(me, upTo, objects, rows, RowsAt(s.net.server.revs, RevIds(rows))))
  {
    hide RowsAt, RevIds;
  }

  lemma ParentsStep(s: State, me: ClientId, k: nat, upTo: nat, objects: seq<ObjectId>, rows: HeadRows,
                    byId: map<RevisionId, RevisionRow>, prows: seq<ParentRow>, m: map<RevisionId, seq<RevisionId>>)
    requires BatchQuery(ParentTable(s.net.server.revs), RevIds(rows), prows) && Groups(m, prows)
    ensures Step(Advance(s, k, WithRows(me, upTo, objects, rows, byId)), ReadParents(k, prows, m)) ==
            Advance(s, k, Applying(me, upTo, RowUpdates(objects, rows, byId, m, NO_FILTER), 0))
  {
    hide BatchQuery, ParentTable, RevIds, Groups, RowUpdates;
  }

  /** What the server's reads of an undisturbed pull may come to. */
  ghost predicate Readable(s: State, me: ClientId, updates: seq<ObjectUpdate>)
    requires me in s.clients
  {
    var server := s.net.server;
    MentionsForeign(server, server, me, CursorOf(s.clients[me]), MaxId(server.txns), NO_FILTER, updates)
  }

  lemma ReadRound(events: seq<Event>, me: ClientId, k: nat) returns (more: seq<Event>, updates: seq<ObjectUpdate>)
    requires var s := After(events); me in s.clients && k !in s.pulls
    ensures var s := After(events);
            && After(events + more) == Advance(s, k, Applying(me, MaxId(s.net.server.txns), updates, 0))
            && Readable(s, me, updates)
  {
    hide After, Step, Advance, Inv, Lists, Changed, HeadsIn, RowsAt, RevIds, BatchQuery, ParentTable, Groups,
      RowUpdates, MaxId, MentionsForeign, CursorOf;
    var s := After(events);
    var server := s.net.server;
    AfterInv(events);
    ServerIsOk(s);
    var since, upTo := CursorOf(s.clients[me]), MaxId(server.txns);
    var objects := Listing(Changed(server, me, since, upTo));
    var rows := Listing(HeadsIn(server.heads, objects));
    var prows := OrderedListing(set row | row in ParentTable(server.revs) && row.revisionId in RevIds(rows));
    ServerDb.IsBatchQuery(ParentTable(server.revs), RevIds(rows), prows);
    var m := Grouping(prows);
    var byId := RowsAt(server.revs, RevIds(rows));
    updates := RowUpdates(objects, rows, byId, m, NO_FILTER);
    ServerDb.QuietPull(server, me, since, objects, rows, prows, m, NO_FILTER);
    RequestStep(s, me, k);
    MarkStep(s, me, k, since);
    ListStep(s, me, k, since, upTo, objects);
    HeadsStep(s, me, k, since, upTo, objects, rows);
    RowsStep(s, me, k, upTo, objects, rows);
    ParentsStep(s, me, k, upTo, objects, rows, byId, prows, m);
    more := [StartPull(me, k), ReadWatermark(k), ReadChanged(k, objects), ReadHeads(k, rows), ReadRows(k),
             ReadParents(k, prows, m)];
    SixSteps(events, more);
  }

  lemma SixSteps(events: seq<Event>, more: seq<Event>)
    requires |more| == 6
    ensures After(events + more) ==
            Step(Step(Step(Step(Step(Step(After(events), more[0]), more[1]), more[2]), more[3]), more[4]), more[5])
  {
    hide After, Step;
    AfterSnoc(events, more[0]);
    AfterSnoc(events + [more[0]], more[1]);
    AfterSnoc(events + [more[0]] + [more[1]], more[2]);
    AfterSnoc(events + [more[0]] + [more[1]] + [more[2]], more[3]);
    AfterSnoc(events + [more[0]] + [more[1]] + [more[2]] + [more[3]], more[4]);
    AfterSnoc(events + [more[0]] + [more[1]] + [more[2]] + [more[3]] + [more[4]], more[5]);
    assert events + more == events + [more[0]] + [more[1]] + [more[2]] + [more[3]] + [more[4]] + [more[5]];
  }

  /** `s` with the first `n` updates applied by pull `k` of `me`. */
  ghost function Halfway(s: State, me: ClientId, k: nat, upTo: nat, updates: seq<ObjectUpdate>, n: nat): State
    requires me in s.clients && n <= |updates|
  {
    s.(clients := s.clients[me := ApplyUpdates(s.clients[me], updates[..n])],
       pulls := s.pulls[k := Applying(me, upTo, updates, n)])
  }

  lemma ApplyStep(s: State, me: ClientId, k: nat, upTo: nat, updates: seq<ObjectUpdate>, n: nat)
    requires me in s.clients && n < |updates|
    ensures Step(Halfway(s, me, k, upTo, updates, n), ApplyNext(k)) == Halfway(s, me, k, upTo, updates, n + 1)
  {
    hide ApplyUpdate, ApplyUpdates;
    assert updates[..n + 1] == updates[..n] + [updates[n]];
    ClientModel.UpdatesSnoc(s.clients[me], updates[..n], updates[n]);
  }

  lemma {:induction false} ApplyRound(events: seq<Event>, s: State, me: ClientId, k: nat, upTo: nat,
                                      updates: seq<ObjectUpdate>, n: nat) returns (more: seq<Event>)
    requires me in s.clients && n <= |updates| && After(events) == Halfway(s, me, k, upTo, updates, n)
    ensures After(events + more) == Halfway(s, me, k, upTo, updates, |updates|)
    decreases |updates| - n
  {
    hide After, Step, Halfway;
    if n == |updates| {
      more := [];
      assert events + more == events;
    } else {
      ApplyStep(s, me, k, upTo, updates, n);
      AfterSnoc(events, ApplyNext(k));
      var rest := ApplyRound(events + [ApplyNext(k)], s, me, k, upTo, updates, n + 1);
      more := [ApplyNext(k)] + rest;
      assert events + more == (events + [ApplyNext(k)]) + rest;
    }
  }

  /** The state an undisturbed pull leads to: all updates applied, the cursor at the watermark. */
  ghost function PulledState(s: State, me: ClientId, updates: seq<ObjectUpdate>): State
    requires me in s.clients
  {
    s.(clients := s.clients[me := ApplyUpdates(s.clients[me], updates).(cursor := Some(MaxId(s.net.server.txns)))])
  }

  lemma FirstHalf(s: State, me: ClientId, k: nat, upTo: nat, updates: seq<ObjectUpdate>)
    requires me in s.clients
    ensures Advance(s, k, Applying(me, upTo, updates, 0)) == Halfway(s, me, k, upTo, updates, 0)
  {
    assert updates[..0] == [];
    assert s.clients[me := s.clients[me]] == s.clients;
  }

  lemma CursorStep(s: State, me: ClientId, k: nat, updates: seq<ObjectUpdate>)
    requires me in s.clients && k !in s.pulls
    ensures Step(Halfway(s, me, k, MaxId(s.net.server.txns), updates, |updates|), FinishPull(k)) ==
            PulledState(s, me, updates)
  {
    hide ApplyUpdates, MaxId;
    assert updates[..|updates|] == updates;
    assert s.pulls[k := Applying(me, MaxId(s.net.server.txns), updates, |updates|)] - {k} == s.pulls;
  }

  lemma PullRound(events: seq<Event>, me: ClientId) returns (more: seq<Event>, updates: seq<ObjectUpdate>)
    requires me in After(events).clients
    ensures var s := After(events);
            && Readable(s, me, updates) && AnswerOf(s.net.server.revs, updates)
            && After(events + more) == PulledState(s, me, updates)
  {
    hide After, Step, Halfway, PulledState, Advance, Readable, AnswerOf, Inv, MaxId;
    var s := After(events);
    var upTo := MaxId(s.net.server.txns);
    var k := FreshKey(s.pulls.Keys);
    var queries;
    queries, updates := ReadRound(events, me, k);
    AfterInv(events + queries);
    AnswerIsSound(s, k, Applying(me, upTo, updates, 0));
    FirstHalf(s, me, k, upTo, updates);
    var applies := ApplyRound(events + queries, s, me, k, upTo, updates, 0);
    CursorStep(s, me, k, updates);
    AfterSnoc((events + queries) + applies, FinishPull(k));
    more := queries + applies + [FinishPull(k)];
    assert events + more == ((events + queries) + applies) + [FinishPull(k)];
  }

  lemma AnswerIsSound(s: State, k: nat, call: PullCall)
    requires call.Applying? && Inv(Advance(s, k, call))
    ensures AnswerOf(s.net.server.revs, call.updates)
  {
    hide ServerRuns.Inv, DagOk, BatchOk, ClientOk, KeptOrComing, AnswerOf;
    var s' := Advance(s, k, call);
    assert PullOk(s'.dag, s'.net.server, s'.clients[call.client], s'.pulls[k]);
  }

  // ---------------------------------------------------------------------------------------
  // What a pull leaves alone

  ghost predicate SameObject(heads: HeadStore, heads': HeadStore, o: ObjectId) {
    forall h: RevisionId ::
      && ((o, h) in heads' <==> (o, h) in heads)
      && ((o, h) in heads ==> heads'[(o, h)] == heads[(o, h)])
  }

  lemma ReconcileElsewhere(g: Graph, heads: HeadStore, u: ObjectUpdate, o: ObjectId)
    requires UpdateOf(g, u) && o != u.objectId
    ensures SameObject(heads, Reconcile(heads, u), o)
  {
    hide Reconcile, Entries, Clean;
    ReconcileIsUnion(heads, u);
    forall h: RevisionId
      ensures (o, h) !in Entries(u.objectId, u.heads)
    {
      EntryKeys(u.objectId, u.heads, (o, h));
    }
  }

  lemma {:induction false} UnmentionedStays(g: Graph, c: Client, us: seq<ObjectUpdate>, o: ObjectId)
    requires AnswerOf(g, us) && !Mentions(us, o)
    ensures SameObject(c.heads, ApplyUpdates(c, us).heads, o)
  {
    if us != [] {
      hide Reconcile, UpdateOf;
      var n := |us| - 1;
      assert forall i :: 0 <= i < n ==> us[..n][i] == us[i];
      UnmentionedStays(g, c, us[..n], o);
      ReconcileElsewhere(g, ApplyUpdates(c, us[..n]).heads, us[n], o);
    }
  }

  lemma {:induction false} ApplyKeepsSettled(g: Graph, c: Client, us: seq<ObjectUpdate>)
    requires AnswerOf(g, us) && NothingPendingAt(c)
    ensures NothingPendingAt(ApplyUpdates(c, us))
  {
    if us != [] {
      hide Reconcile, PutSynced;
      var n := |us| - 1;
      assert forall i :: 0 <= i < n ==> us[..n][i] == us[i];
      ApplyKeepsSettled(g, c, us[..n]);
      assert UpdateOf(g, us[n]);
      PutSyncedFacts(g, ApplyUpdates(c, us[..n]).records, us[n].heads);
    }
  }

  // ---------------------------------------------------------------------------------------
  // Rounds of one client and of all

  /** The client covers everything stored, and its cursor is at the latest transaction. */
  ghost predicate CaughtUp(s: State, me: ClientId) {
    && me in s.clients && s.clients[me].cursor == Some(MaxId(s.net.server.txns))
    && forall r :: r in s.net.server.revs ==>
         r in s.dag && Covered(s.dag, r, LocalHeads(s.clients[me].heads, s.dag[r].objectId))
  }

  /** Nothing but client `me` and the server has moved. */
  ghost predicate OthersStay(s: State, s': State, me: ClientId) {
    && s'.dag == s.dag && s'.pulls == s.pulls && s'.net.calls == s.net.calls && s'.clients.Keys == s.clients.Keys
    && forall c :: c in s.clients && c != me ==> s'.clients[c] == s.clients[c]
  }

  /**
    From every reachable state an undisturbed pull is possible, and it catches the client up.  It
    leaves alone every object that nobody else has changed since the client's cursor; if nobody
    else has pushed since, only the cursor moves.
   */
  lemma PullCatchesUp(events: seq<Event>, me: ClientId) returns (more: seq<Event>)
    requires me in After(events).clients
    ensures var s, s' := After(events), After(events + more);
            var since := CursorOf(s.clients[me]);
            && OthersStay(s, s', me) && s'.net.server == s.net.server && CaughtUp(s', me)
            && (NothingPendingAt(s.clients[me]) ==> NothingPendingAt(s'.clients[me]))
            && (forall o :: !ForeignChange(s.net.server, me, since, MaxId(s.net.server.txns), o) ==>
                  SameObject(s.clients[me].heads, s'.clients[me].heads, o))
            && (OnlyOwn(s.net.server, me, since) ==>
                  s'.clients[me] == s.clients[me].(cursor := Some(MaxId(s.net.server.txns))))
  {
    hide After, Inv, MaxId, AnswerOf, ForeignChange, OnlyOwn, SameObject, NothingPendingAt, ApplyUpdates, CursorOf,
      Covered;
    var updates;
    more, updates := PullRound(events, me);
    var s, s' := After(events), After(events + more);
    AfterInv(events);
    forall r | r in s'.net.server.revs
      ensures r in s'.dag && Covered(s'.dag, r, LocalHeads(s'.clients[me].heads, s'.dag[r].objectId))
    {
      CaughtUpMeansEverything(events + more, me, r);
    }
    forall o | !ForeignChange(s.net.server, me, CursorOf(s.clients[me]), MaxId(s.net.server.txns), o)
      ensures SameObject(s.clients[me].heads, s'.clients[me].heads, o)
    {
      UnmentionedStays(s.net.server.revs, s.clients[me], updates, o);
    }
    if NothingPendingAt(s.clients[me]) {
      ApplyKeepsSettled(s.net.server.revs, s.clients[me], updates);
      CursorIsNoRecord(ApplyUpdates(s.clients[me], updates), Some(MaxId(s.net.server.txns)));
    }
    if OnlyOwn(s.net.server, me, CursorOf(s.clients[me])) {
      NoUpdates(s, me, updates);
    }
  }

  lemma CursorIsNoRecord(c: Client, cursor: Option<nat>)
    requires NothingPendingAt(c)
    ensures NothingPendingAt(c.(cursor := cursor))
  {}

  lemma NoUpdates(s: State, me: ClientId, updates: seq<ObjectUpdate>)
    requires Inv(s) && me in s.clients && Readable(s, me, updates)
    requires OnlyOwn(s.net.server, me, CursorOf(s.clients[me]))
    ensures ApplyUpdates(s.clients[me], updates) == s.clients[me]
  {
    hide Inv, MentionsForeign, OnlyOwn, StoreOk, TxnsOk, Small;
    ServerIsOk(s);
    OwnPushesAreNotEchoed(s.net.server, s.net.server, me, CursorOf(s.clients[me]), MaxId(s.net.server.txns), NO_FILTER,
                          updates);
  }

  /** From every reachable state an undisturbed push is possible, after which nothing is pending. */
  lemma PushSettles(events: seq<Event>, me: ClientId) returns (more: seq<Event>)
    requires me in After(events).clients
    ensures var s, s' := After(events), After(events + more);
            OthersStay(s, s', me) && NothingPendingAt(s'.clients[me])
  {
    hide After, Inv, PendingBatch, NothingPendingAt, Answered, PushLaws.PushAll, Validate, ClientDb.KeyedRecords;
    var s := After(events);
    var records := s.clients[me].records;
    AfterInv(events);
    RecordsAreKeyed(s, me);
    var batch := AllPending(records);
    if batch == [] {
      more := [];
      assert events + more == events;
      NonePending(s.clients[me]);
    } else {
      more := PushRound(events, me, batch);
      AnswerSettles(s.clients[me], me, s.net.server.revs, batch);
    }
  }

  lemma AllPending(records: Records) returns (batch: seq<Revision>)
    requires ClientDb.KeyedRecords(records)
    ensures PendingBatch(records, batch)
  {
    var left := set r | r in records && records[r].status == Pending;
    assert ClientDb.PendingUpTo(records, [], left);
    batch := PendingListing(records, [], left);
  }

  lemma NonePending(c: Client)
    requires PendingBatch(c.records, [])
    ensures NothingPendingAt(c)
  {}

  lemma {:induction false} EverybodyPushes(events: seq<Event>, cs: seq<ClientId>) returns (more: seq<Event>)
    requires forall c :: c in cs ==> c in After(events).clients
    ensures var s, s' := After(events), After(events + more);
            && s'.dag == s.dag && s'.clients.Keys == s.clients.Keys
            && forall c :: c in cs ==> NothingPendingAt(s'.clients[c])
  {
    hide After, NothingPendingAt;
    if cs == [] {
      more := [];
      assert events + more == events;
    } else {
      var init, me := cs[..|cs| - 1], cs[|cs| - 1];
      var first := EverybodyPushes(events, init);
      var second := PushSettles(events + first, me);
      more := first + second;
      assert events + more == (events + first) + second;
      assert cs == init + [me];
    }
  }

  lemma StaysCaughtUp(s: State, s': State, me: ClientId, c: ClientId)
    requires OthersStay(s, s', me) && s'.net.server == s.net.server && CaughtUp(s, c) && c != me
    ensures CaughtUp(s', c)
  {
    hide Covered, MaxId;
  }

  lemma {:induction false} EverybodyPulls(events: seq<Event>, cs: seq<ClientId>) returns (more: seq<Event>)
    requires forall c :: c in cs ==> c in After(events).clients
    ensures var s, s' := After(events), After(events + more);
            && s'.dag == s.dag && s'.net.server == s.net.server && s'.clients.Keys == s.clients.Keys
            && (forall c :: c in s.clients && NothingPendingAt(s.clients[c]) ==> NothingPendingAt(s'.clients[c]))
            && forall c :: c in cs ==> CaughtUp(s', c)
  {
    hide After, NothingPendingAt, CaughtUp, ForeignChange, OnlyOwn, SameObject, MaxId, CursorOf;
    if cs == [] {
      more := [];
      assert events + more == events;
    } else {
      var init, me := cs[..|cs| - 1], cs[|cs| - 1];
      var first := EverybodyPulls(events, init);
      var second := PullCatchesUp(events + first, me);
      more := first + second;
      assert events + more == (events + first) + second;
      assert cs == init + [me];
      forall c | c in init
        ensures CaughtUp(After(events + more), c)
      {
        if c != me {
          StaysCaughtUp(After(events + first), After(events + more), me, c);
        }
      }
    }
  }

  /**
    From every reachable state, however tangled, all clients can reach agreement with the server:
    if each pushes and then each pulls, nothing is pending anywhere, and every client covers
    every revision that is stored.
   */
  lemma EverybodyCatchesUp(events: seq<Event>, cs: seq<ClientId>) returns (more: seq<Event>)
    requires forall c :: c in cs ==> c in After(events).clients
    ensures var s, s' := After(events), After(events + more);
            && s'.dag == s.dag
            && forall c :: c in cs ==> CaughtUp(s', c) && NothingPendingAt(s'.clients[c])
  {
    hide After, NothingPendingAt;
    var pushes := EverybodyPushes(events, cs);
    var pulls := EverybodyPulls(events + pushes, cs);
    more := pushes + pulls;
    assert events + more == (events + pushes) + pulls;
  }
}
