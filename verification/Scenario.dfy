/**
  Two runs in full: a client creates an object and pushes it, and another pulls it; or the answer
  to the push is lost and the client pushes again.  They show that the hypotheses of the
  guarantees can be met.
 */
module Scenario {
  import opened Core
  import opened HeadIndex
  import opened Push
  import PushLaws
  import ServerRuns
  import opened Codec
  import opened Pull
  import opened Filter
  import opened ClientModel
  import opened Network

  const REV := Revision(1, 7, "trip", Root, 0, 1, Active(Null))

  const STORED := Server(map[1 := REV], [REV], {(7, 1)}, [Txn(1, 1, [1])], 1)

  const AUTHOR := Client(map[1 := Record(REV, Pending)], map[(7, 1) := HeadRecordOf(7, REV)], None)

  const RUN := PushRun(1, [REV], [Accepted], None)

  const CALL := ServerRuns.Answered(RUN, 1)

  const UPDATE := ObjectUpdate(7, Replace, [REV])

  const READER := Client(map[1 := Record(REV, Synced)], map[(7, 1) := HeadRecordOf(7, REV)], None)

  /** The state while one push call and at most one pull are in progress. */
  ghost function At(server: Server, call: ServerRuns.Call, pulls: map<nat, PullCall>, reader: Client): State {
    State(map[1 := REV], ServerRuns.State(server, map[0 := call]), map[1 := AUTHOR, 2 := reader], pulls)
  }

  lemma Next(events: seq<Event>, s: State, e: Event, s': State)
    requires After(events) == s && Step(s, e) == s'
    ensures After(events + [e]) == s'
  {
    hide Step;
    assert (events + [e])[..|events|] == events;
  }

  // ---------------------------------------------------------------------------------------
  // The push

  lemma AuthorStore()
    ensures PutLocal(NEW_CLIENT, REV) == AUTHOR && PendingBatch(AUTHOR.records, [REV])
  {
    assert ReplaceHeads(map[], 7, [REV][..0]) == map[];
  }

  lemma Validation()
    ensures var run := Query(map[], Start(1, [REV]));
            run.Valid() && !run.Done() && Query(map[], run) == RUN
  {}

  lemma Transaction()
    ensures RUN.Valid() && RUN.Done() && Commit(EMPTY, RUN) == Committed(STORED, 1)
  {
    assert AcceptedOf([REV], [Accepted][..0]) == [];
    assert RUN.AcceptedRevs() == [REV];
    assert IdSet([REV]) == {1};
    assert Select([REV][..0], {1}) == [];
    assert Select([REV], {1}) == [REV];
    assert InsertAll(EMPTY, [REV][..0]) == Some(EMPTY);
    assert REV.Parents() == [];
    assert UpdateHeads({}, 7, [], 1) == {(7, 1)};
    assert InsertAll(EMPTY, [REV]) == Insert(EMPTY, REV);
    assert Ids([REV]) == [1];
  }

  const ONE := State(map[], ServerRuns.INITIAL, map[1 := NEW_CLIENT], map[])

  const TWO := State(map[], ServerRuns.INITIAL, map[1 := NEW_CLIENT, 2 := NEW_CLIENT], map[])

  const SAVED := State(map[1 := REV], ServerRuns.INITIAL, map[1 := AUTHOR, 2 := NEW_CLIENT], map[])

  lemma Joining()
    ensures Step(INITIAL, Join(1)) == ONE && Step(ONE, Join(2)) == TWO
  {}

  lemma Saving()
    ensures Step(TWO, Save(Stamp(1, 1, 0), 7, "trip", Null)) == SAVED
  {
    AuthorStore();
    hide PutLocal, PendingBatch;
  }

  lemma Sending()
    ensures Step(SAVED, StartPush(1, 0, [REV])) == At(EMPTY, ServerRuns.Validating(Start(1, [REV])), map[], NEW_CLIENT)
  {
    AuthorStore();
    hide PutLocal, PendingBatch;
  }

  lemma Serving(server: Server, call: ServerRuns.Call, e: ServerRuns.Event, server': Server, call': ServerRuns.Call)
    requires !e.Begin?
    requires ServerRuns.Step(ServerRuns.State(server, map[0 := call]), e) == ServerRuns.State(server', map[0 := call'])
    ensures Step(At(server, call, map[], NEW_CLIENT), ServerStep(e)) == At(server', call', map[], NEW_CLIENT)
  {
    hide ServerRuns.Step;
  }

  lemma EditRun() returns (events: seq<Event>)
    ensures After(events) == At(EMPTY, ServerRuns.Validating(Start(1, [REV])), map[], NEW_CLIENT)
  {
    hide Step;
    Joining();
    Saving();
    Sending();
    Next([], INITIAL, Join(1), ONE);
    events := [] + [Join(1)];
    Next(events, ONE, Join(2), TWO);
    events := events + [Join(2)];
    Next(events, TWO, Save(Stamp(1, 1, 0), 7, "trip", Null), SAVED);
    events := events + [Save(Stamp(1, 1, 0), 7, "trip", Null)];
    Next(events, SAVED, StartPush(1, 0, [REV]), At(EMPTY, ServerRuns.Validating(Start(1, [REV])), map[], NEW_CLIENT));
    events := events + [StartPush(1, 0, [REV])];
  }

  lemma Asking()
    ensures var next := Query(map[], Start(1, [REV]));
            && ServerRuns.Step(ServerRuns.State(EMPTY, map[0 := ServerRuns.Validating(Start(1, [REV]))]),
                               ServerRuns.Ask(0)) ==
               ServerRuns.State(EMPTY, map[0 := ServerRuns.Validating(next)])
            && ServerRuns.Step(ServerRuns.State(EMPTY, map[0 := ServerRuns.Validating(next)]), ServerRuns.Ask(0)) ==
               ServerRuns.State(EMPTY, map[0 := ServerRuns.Validating(RUN)])
  {
    Validation();
    hide Query;
  }

  lemma Finishing()
    ensures ServerRuns.Step(ServerRuns.State(EMPTY, map[0 := ServerRuns.Validating(RUN)]), ServerRuns.Finish(0)) ==
            ServerRuns.State(STORED, map[0 := CALL])
  {
    Transaction();
    hide Commit;
  }

  lemma CommitRun() returns (events: seq<Event>)
    ensures After(events) == At(STORED, CALL, map[], NEW_CLIENT)
  {
    hide Step, Query, ServerRuns.Step;
    Asking();
    Finishing();
    events := EditRun();
    var begun, asked, accepted :=
      ServerRuns.Validating(Start(1, [REV])), ServerRuns.Validating(Query(map[], Start(1, [REV]))),
      ServerRuns.Validating(RUN);
    Serving(EMPTY, begun, ServerRuns.Ask(0), EMPTY, asked);
    Next(events, At(EMPTY, begun, map[], NEW_CLIENT), ServerStep(ServerRuns.Ask(0)),
         At(EMPTY, asked, map[], NEW_CLIENT));
    events := events + [ServerStep(ServerRuns.Ask(0))];
    Serving(EMPTY, asked, ServerRuns.Ask(0), EMPTY, accepted);
    Next(events, At(EMPTY, asked, map[], NEW_CLIENT), ServerStep(ServerRuns.Ask(0)),
         At(EMPTY, accepted, map[], NEW_CLIENT));
    events := events + [ServerStep(ServerRuns.Ask(0))];
    Serving(EMPTY, accepted, ServerRuns.Finish(0), STORED, CALL);
    Next(events, At(EMPTY, accepted, map[], NEW_CLIENT), ServerStep(ServerRuns.Finish(0)),
         At(STORED, CALL, map[], NEW_CLIENT));
    events := events + [ServerStep(ServerRuns.Finish(0))];
  }

  // ---------------------------------------------------------------------------------------
  // The pull

  lemma Reads()
    ensures MaxId(STORED.txns) == 1
    ensures Lists(Changed(STORED, 2, 0, 1), [7])
    ensures Lists(HeadsIn(STORED.heads, [7]), [(7, 1)])
    ensures RowsAt(STORED.revs, RevIds([(7, 1)])) == map[1 := EncodeRow(REV)]
    ensures BatchQuery(ParentTable(STORED.revs), RevIds([(7, 1)]), []) && Groups(map[], [])
  {
    assert MaxId(STORED.txns[..0]) == 0;
    assert 1 in STORED.revs && InWindow(STORED.txns, 0, 1, 1) by {
      assert STORED.txns[0].revisions == [1];
    }
    assert 7 in Changed(STORED, 2, 0, 1);
    assert RevIds([(7, 1)]) == {1} by {
      assert [(7, 1)][0].1 == 1;
    }
    assert REV.Parents() == [];
    assert ParentRowsOf(REV) == {};
    assert ParentTable(STORED.revs) == {};
  }

  lemma Assembly()
    ensures RowUpdates([7], [(7, 1)], map[1 := EncodeRow(REV)], map[], NO_FILTER) == [UPDATE]
  {
    var rows: HeadRows := [(7, 1)];
    var byId: map<RevisionId, RevisionRow> := map[1 := EncodeRow(REV)];
    assert HeadIdsOf(rows[..0], 7) == [];
    assert HeadIdsOf(rows, 7) == [1];
    assert Present([1][..0], byId) == [];
    assert Present([1], byId) == [EncodeRow(REV)];
    assert PassesRow([EncodeRow(REV)][0], NO_FILTER);
    assert DecodeAll([EncodeRow(REV)], map[]) == [REV];
    assert RowUpdates([7][..0], rows, byId, map[], NO_FILTER) == [];
  }

  lemma Application()
    ensures ApplyUpdate(NEW_CLIENT, UPDATE) == READER
  {
    assert LocalHeads(map[], 7) == {};
    assert Clean(map[], UPDATE);
    assert ReplaceHeads(map[], 7, [REV][..0]) == map[];
    assert PutSynced(map[], [REV][..0]) == map[];
  }

  ghost function Pulling(p: PullCall): State {
    At(STORED, CALL, map[0 := p], NEW_CLIENT)
  }

  lemma Requesting()
    ensures Step(At(STORED, CALL, map[], NEW_CLIENT), StartPull(2, 0)) == Pulling(Requested(2, 0))
  {}

  lemma Marking()
    ensures Step(Pulling(Requested(2, 0)), ReadWatermark(0)) == Pulling(Marked(2, 0, 1))
  {
    Reads();
    hide Lists, Changed, HeadsIn, RowsAt, RevIds, BatchQuery, ParentTable, Groups, MaxId;
  }

  lemma Listing()
    ensures Step(Pulling(Marked(2, 0, 1)), ReadChanged(0, [7])) == Pulling(Listed(2, 0, 1, [7]))
  {
    Reads();
    hide Lists, Changed, HeadsIn, RowsAt, RevIds, BatchQuery, ParentTable, Groups, MaxId;
  }

  lemma ReadingHeads()
    ensures Step(Pulling(Listed(2, 0, 1, [7])), ReadHeads(0, [(7, 1)])) == Pulling(WithHeads(2, 1, [7], [(7, 1)]))
  {
    Reads();
    hide Lists, Changed, HeadsIn, RowsAt, RevIds, BatchQuery, ParentTable, Groups, MaxId;
  }

  lemma ReadingRows()
    ensures Step(Pulling(WithHeads(2, 1, [7], [(7, 1)])), ReadRows(0)) ==
            Pulling(WithRows(2, 1, [7], [(7, 1)], map[1 := EncodeRow(REV)]))
  {
    Reads();
    hide Lists, Changed, HeadsIn, RowsAt, RevIds, BatchQuery, ParentTable, Groups, MaxId;
  }

  lemma ReadingParents()
    ensures Step(Pulling(WithRows(2, 1, [7], [(7, 1)], map[1 := EncodeRow(REV)])), ReadParents(0, [], map[])) ==
            Pulling(Applying(2, 1, [UPDATE], 0))
  {
    Reads();
    Assembly();
    hide Lists, Changed, HeadsIn, RowsAt, RevIds, BatchQuery, ParentTable, Groups, RowUpdates, MaxId;
  }

  lemma ApplyingUpdate()
    ensures Step(Pulling(Applying(2, 1, [UPDATE], 0)), ApplyNext(0)) ==
            At(STORED, CALL, map[0 := Applying(2, 1, [UPDATE], 1)], READER)
  {
    Application();
    hide ApplyUpdate;
  }

  lemma StoringCursor()
    ensures Step(At(STORED, CALL, map[0 := Applying(2, 1, [UPDATE], 1)], READER), FinishPull(0)) ==
            At(STORED, CALL, map[], READER.(cursor := Some(1)))
  {}

  /** A run in which a client catches up with a revision another client created. */
  lemma ForeignUpdateArrives() returns (events: seq<Event>)
    ensures After(events) == At(STORED, CALL, map[], READER.(cursor := Some(1)))
  {
    hide Step, At;
    events := CommitRun();
    Requesting();
    Marking();
    Listing();
    ReadingHeads();
    Next(events, At(STORED, CALL, map[], NEW_CLIENT), StartPull(2, 0), Pulling(Requested(2, 0)));
    events := events + [StartPull(2, 0)];
    Next(events, Pulling(Requested(2, 0)), ReadWatermark(0), Pulling(Marked(2, 0, 1)));
    events := events + [ReadWatermark(0)];
    Next(events, Pulling(Marked(2, 0, 1)), ReadChanged(0, [7]), Pulling(Listed(2, 0, 1, [7])));
    events := events + [ReadChanged(0, [7])];
    Next(events, Pulling(Listed(2, 0, 1, [7])), ReadHeads(0, [(7, 1)]), Pulling(WithHeads(2, 1, [7], [(7, 1)])));
    events := events + [ReadHeads(0, [(7, 1)])];
    ReadingRows();
    ReadingParents();
    var withRows := Pulling(WithRows(2, 1, [7], [(7, 1)], map[1 := EncodeRow(REV)]));
    Next(events, Pulling(WithHeads(2, 1, [7], [(7, 1)])), ReadRows(0), withRows);
    events := events + [ReadRows(0)];
    Next(events, withRows, ReadParents(0, [], map[]), Pulling(Applying(2, 1, [UPDATE], 0)));
    events := events + [ReadParents(0, [], map[])];
    ApplyingUpdate();
    StoringCursor();
    var applied := At(STORED, CALL, map[0 := Applying(2, 1, [UPDATE], 1)], READER);
    Next(events, Pulling(Applying(2, 1, [UPDATE], 0)), ApplyNext(0), applied);
    events := events + [ApplyNext(0)];
    Next(events, applied, FinishPull(0), At(STORED, CALL, map[], READER.(cursor := Some(1))));
    events := events + [FinishPull(0)];
  }

  // ---------------------------------------------------------------------------------------
  // The answer to the push is lost

  const RETRY := PushRun(1, [REV], [Rejected(DuplicateRevisionId)], None)

  /** The state with no call in progress. */
  ghost function Idle(author: Client): State {
    State(map[1 := REV], ServerRuns.State(STORED, map[]), map[1 := author, 2 := NEW_CLIENT], map[])
  }

  lemma Losing()
    ensures Step(At(STORED, CALL, map[], NEW_CLIENT), ServerStep(ServerRuns.Forget(0))) == Idle(AUTHOR)
  {}

  lemma SendingAgain()
    ensures Step(Idle(AUTHOR), StartPush(1, 0, [REV])) ==
            At(STORED, ServerRuns.Validating(Start(1, [REV])), map[], NEW_CLIENT)
  {
    AuthorStore();
    hide PutLocal, PendingBatch;
  }

  lemma Refusing()
    ensures ServerRuns.Step(ServerRuns.State(STORED, map[0 := ServerRuns.Validating(Start(1, [REV]))]),
                            ServerRuns.Ask(0)) ==
            ServerRuns.State(STORED, map[0 := ServerRuns.Validating(RETRY)])
  {
    assert Query(STORED.revs, Start(1, [REV])) == RETRY;
    hide Query;
  }

  lemma NothingToCommit()
    ensures RETRY.Valid() && RETRY.Done() && Commit(STORED, RETRY) == Committed(STORED, 0)
  {
    RetryLists();
    PushLaws.EmptySelection(STORED, RETRY);
  }

  lemma Closing()
    ensures ServerRuns.Step(ServerRuns.State(STORED, map[0 := ServerRuns.Validating(RETRY)]), ServerRuns.Finish(0)) ==
            ServerRuns.State(STORED, map[0 := ServerRuns.Answered(RETRY, 0)])
  {
    NothingToCommit();
    hide Commit;
  }

  const MISLED := AUTHOR.(records := map[1 := Record(REV, SyncError(DuplicateRevisionId))])

  lemma RetryLists()
    ensures RETRY.AcceptedRevs() == [] && RETRY.RejectedRevs() == [RejectedRevision(1, DuplicateRevisionId)]
  {
    assert AcceptedOf([REV], RETRY.verdicts[..0]) == [];
    assert RejectedOf([REV], RETRY.verdicts[..0]) == [];
  }

  lemma RetryMarks()
    ensures ApplyPushAnswer(AUTHOR.records, [], [RejectedRevision(1, DuplicateRevisionId)]) == MISLED.records
  {
    var rejected := [RejectedRevision(1, DuplicateRevisionId)];
    assert MarkErrors(AUTHOR.records, rejected[..0]) == AUTHOR.records;
  }

  lemma Misleading()
    ensures Step(At(STORED, ServerRuns.Answered(RETRY, 0), map[], NEW_CLIENT), DeliverPush(0, 0, 1)) == Idle(MISLED)
  {
    RetryLists();
    RetryMarks();
    hide ApplyPushAnswer, AcceptedOf, RejectedOf, Ids;
    var s := At(STORED, ServerRuns.Answered(RETRY, 0), map[], NEW_CLIENT);
    assert Ids(RETRY.AcceptedRevs())[..0] == [] && RETRY.RejectedRevs()[..1] == RETRY.RejectedRevs();
    assert CanDeliver(s, 0, 0, 1);
    assert Delivered(s, 0, 0, 1) == Idle(MISLED);
  }

  /**
    A run in which the answer to a committed push is lost and the push is repeated: the author
    ends up with an error status on a revision that the server has.
   */
  lemma RetryAfterLostAnswer() returns (events: seq<Event>)
    ensures After(events) == Idle(MISLED)
  {
    hide Step, At, ServerRuns.Step, Idle;
    events := CommitRun();
    Losing();
    SendingAgain();
    Refusing();
    Closing();
    Misleading();
    var begun, refused, answered :=
      ServerRuns.Validating(Start(1, [REV])), ServerRuns.Validating(RETRY), ServerRuns.Answered(RETRY, 0);
    Next(events, At(STORED, CALL, map[], NEW_CLIENT), ServerStep(ServerRuns.Forget(0)), Idle(AUTHOR));
    events := events + [ServerStep(ServerRuns.Forget(0))];
    Next(events, Idle(AUTHOR), StartPush(1, 0, [REV]), At(STORED, begun, map[], NEW_CLIENT));
    events := events + [StartPush(1, 0, [REV])];
    Serving(STORED, begun, ServerRuns.Ask(0), STORED, refused);
    Next(events, At(STORED, begun, map[], NEW_CLIENT), ServerStep(ServerRuns.Ask(0)),
         At(STORED, refused, map[], NEW_CLIENT));
    events := events + [ServerStep(ServerRuns.Ask(0))];
    Serving(STORED, refused, ServerRuns.Finish(0), STORED, answered);
    Next(events, At(STORED, refused, map[], NEW_CLIENT), ServerStep(ServerRuns.Finish(0)),
         At(STORED, answered, map[], NEW_CLIENT));
    events := events + [ServerStep(ServerRuns.Finish(0))];
    Next(events, At(STORED, answered, map[], NEW_CLIENT), DeliverPush(0, 0, 1), Idle(MISLED));
    events := events + [DeliverPush(0, 0, 1)];
  }
}
