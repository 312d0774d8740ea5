/**
  All runs of the server under concurrent pushes.  Calls of any clients, with arbitrary
  batches, interleave at the granularity of single validation queries; a commit is one step.
 */
module ServerRuns {
  import opened Core
  import opened Dag
  import opened HeadIndex
  import opened Push

  datatype Call = Validating(run: PushRun) | Answered(run: PushRun, transactionId: nat)

  datatype State = State(server: Server, calls: map<nat, Call>)

  datatype Event =
    | Begin(call: nat, client: ClientId, batch: seq<Revision>)
    | Ask(call: nat)      // the next validation query of a call
    | Finish(call: nat)   // its transaction, committed or rolled back
    | Forget(call: nat)   // answer consumed, connection lost or request abandoned
    | SkipId              // the id sequence advanced without a committed transaction

  const INITIAL := State(EMPTY, map[])

  function Step(s: State, e: Event): State {
    match e
    case Begin(k, client, batch) =>
      if k in s.calls then s else s.(calls := s.calls[k := Validating(Start(client, batch))])
    case Ask(k) =>
      if k in s.calls && s.calls[k].Validating? && s.calls[k].run.Valid() && !s.calls[k].run.Done()
      then s.(calls := s.calls[k := Validating(Query(s.server.revs, s.calls[k].run))])
      else s
    case Finish(k) =>
      if k in s.calls && s.calls[k].Validating? && s.calls[k].run.Valid() && s.calls[k].run.Done() then
        match Commit(s.server, s.calls[k].run)
        case Failed => s.(calls := s.calls - {k})
        case Committed(server', id) => State(server', s.calls[k := Answered(s.calls[k].run, id)])
      else s
    case Forget(k) => s.(calls := s.calls - {k})
    case SkipId => s.(server := s.server.(sequence := s.server.sequence + 1))
  }

  function After(events: seq<Event>): State {
    if events == [] then INITIAL else Step(After(events[..|events| - 1]), events[|events| - 1])
  }

  /** History is only ever extended, and new transactions get new, larger ids. */
  ghost predicate Grows(s: Server, s': Server) {
    && Sub(s.revs, s'.revs)
    && s.log <= s'.log
    && s.txns <= s'.txns
    && s.sequence <= s'.sequence
    && forall i :: |s.txns| <= i < |s'.txns| ==> s'.txns[i].id > s.sequence
  }

  ghost predicate CallOk(s: Server, call: Call) {
    match call
    case Validating(run) => RunOk(s.revs, run)
    case Answered(run, id) =>
      && run.Valid() && run.Done()
      && (forall rev :: rev in run.AcceptedRevs() ==>
            rev in run.batch && rev.id in s.revs && s.revs[rev.id] == rev)
      && (id == 0 <==> run.AcceptedRevs() == [])
  }

  ghost predicate Inv(s: State) {
    && ServerOk(s.server)
    && forall k :: k in s.calls ==> CallOk(s.server, s.calls[k])
  }

  lemma CallOkMono(s: Server, s': Server, call: Call)
    requires Sub(s.revs, s'.revs) && CallOk(s, call)
    ensures CallOk(s', call)
  {
    if call.Validating? {
      RunOkMono(s.revs, s'.revs, call.run);
    }
  }

  /** A commit only extends history, and leaves its own call answered truthfully. */
  lemma FinishOk(s: Server, run: PushRun)
    requires ServerOk(s) && RunOk(s.revs, run) && run.Done() && Commit(s, run).Committed?
    ensures var Committed(s', id) := Commit(s, run);
            ServerOk(s') && Grows(s, s') && CallOk(s', Answered(run, id))
  {
    hide Ordered, Table, IndexOf, Grounded, Select, InsertAll, AcceptedOf, TxnsOk, Commit;
    CommitExact(s, run);
  }

  lemma FinishInv(s: State, k: nat)
    requires Inv(s)
    ensures Inv(Step(s, Finish(k))) && Grows(s.server, Step(s, Finish(k)).server)
  {
    hide ServerOk, Commit, RunOk;
    var s' := Step(s, Finish(k));
    if s'.server != s.server {
      var run := s.calls[k].run;
      assert CallOk(s.server, s.calls[k]);
      FinishOk(s.server, run);
      forall l | l in s'.calls
        ensures CallOk(s'.server, s'.calls[l])
      {
        if l != k {
          CallOkMono(s.server, s'.server, s.calls[l]);
        }
      }
    } else if k in s.calls && s.calls[k].Validating? && s.calls[k].run.Valid() && s.calls[k].run.Done() {
      assert CallOk(s.server, s.calls[k]);
      if Commit(s.server, s.calls[k].run).Committed? {
        FinishOk(s.server, s.calls[k].run);
      }
    }
  }

  lemma AskInv(s: State, k: nat)
    requires Inv(s)
    ensures Inv(Step(s, Ask(k))) && Grows(s.server, Step(s, Ask(k)).server)
  {
    hide Query, ServerOk, RunOk;
    if k in s.calls && s.calls[k].Validating? && s.calls[k].run.Valid() && !s.calls[k].run.Done() {
      assert CallOk(s.server, s.calls[k]);
      QueryOk(s.server.revs, s.calls[k].run);
    }
  }

  lemma BeginInv(s: State, k: nat, client: ClientId, batch: seq<Revision>)
    requires Inv(s)
    ensures Inv(Step(s, Begin(k, client, batch))) && Grows(s.server, Step(s, Begin(k, client, batch)).server)
  {
    assert RunOk(s.server.revs, Start(client, batch));
    hide ServerOk, RunOk;
  }

  lemma ForgetInv(s: State, k: nat)
    requires Inv(s)
    ensures Inv(Step(s, Forget(k))) && Grows(s.server, Step(s, Forget(k)).server)
  {
    hide ServerOk, CallOk;
  }

  lemma SkipIdInv(s: State)
    requires Inv(s)
    ensures Inv(Step(s, SkipId)) && Grows(s.server, Step(s, SkipId).server)
  {
    CallsIgnoreSequence(s);
    hide Ordered, Table, IndexOf, Flatten, CallOk;
  }

  /** Every step of every interleaving keeps the invariant and only extends history. */
  lemma StepInv(s: State, e: Event)
    requires Inv(s)
    ensures Inv(Step(s, e)) && Grows(s.server, Step(s, e).server)
  {
    hide Inv, Grows, Step;
    match e
    case Begin(k, client, batch) => BeginInv(s, k, client, batch);
    case Ask(k) => AskInv(s, k);
    case Finish(k) => FinishInv(s, k);
    case Forget(k) => ForgetInv(s, k);
    case SkipId => SkipIdInv(s);
  }

  /** A revision that a step stores comes from the batch of the call that commits. */
  lemma NewRevisions(s: State, e: Event, r: RevisionId)
    requires Inv(s) && r in Step(s, e).server.revs && r !in s.server.revs
    ensures e.Finish? && e.call in s.calls
    ensures exists rev :: rev in s.calls[e.call].run.batch && rev.id == r && Step(s, e).server.revs[r] == rev
  {
    hide Ordered, Table, IndexOf, Grounded, Select, InsertAll, AcceptedOf, TxnsOk, Commit;
    assert CallOk(s.server, s.calls[e.call]);
    var run := s.calls[e.call].run;
    CommitExact(s.server, run);
    var accepted := run.AcceptedRevs();
    var i :| 0 <= i < |accepted| && Ids(accepted)[i] == r;
    assert accepted[i] in accepted;
  }

  lemma CallsIgnoreSequence(s: State)
    requires Inv(s)
    ensures forall k :: k in s.calls ==> CallOk(Step(s, SkipId).server, s.calls[k])
  {
    hide ServerOk, RunOk;
    forall k | k in s.calls
      ensures CallOk(Step(s, SkipId).server, s.calls[k])
    {
      CallOkMono(s.server, Step(s, SkipId).server, s.calls[k]);
    }
  }

  lemma {:induction false} AfterInv(events: seq<Event>)
    ensures Inv(After(events))
  {
    if events != [] {
      AfterInv(events[..|events| - 1]);
      StepInv(After(events[..|events| - 1]), events[|events| - 1]);
    }
  }

  lemma GrowsTrans(a: Server, b: Server, c: Server)
    requires Grows(a, b) && Grows(b, c)
    ensures Grows(a, c)
  {
    assert forall i :: |a.txns| <= i < |b.txns| ==> c.txns[i] == b.txns[i];
  }

  lemma AfterNext(events: seq<Event>, n: nat)
    requires n < |events|
    ensures After(events[..n + 1]) == Step(After(events[..n]), events[n])
  {
    assert events[..n + 1][..n] == events[..n];
  }

  /** Later points of a run extend the history of earlier ones. */
  lemma {:induction false} RunGrows(events: seq<Event>, m: nat, n: nat)
    requires m <= n <= |events|
    ensures Grows(After(events[..m]).server, After(events[..n]).server)
    decreases n
  {
    hide Step, Inv;
    if m < n {
      RunGrows(events, m, n - 1);
      AfterNext(events, n - 1);
      AfterInv(events[..n - 1]);
      StepInv(After(events[..n - 1]), events[n - 1]);
      GrowsTrans(After(events[..m]).server, After(events[..n - 1]).server, After(events[..n]).server);
    } else {
      assert Grows(After(events[..m]).server, After(events[..m]).server);
    }
  }

  // ---------------------------------------------------------------------------------------
  // What holds in every reachable server state

  /** The head index is the frontier: exactly the revisions nobody names as a parent. */
  lemma HeadsAreFrontier(events: seq<Event>)
    ensures var s := After(events).server; s.heads == Frontier(s.revs)
  {
    hide Inv;
    AfterInv(events);
    ServerHeads(After(events));
  }

  lemma ServerHeads(s: State)
    requires Inv(s)
    ensures s.server.heads == Frontier(s.server.revs)
  {
    IndexIsFrontier(s.server.log);
  }

  /** Coverage and antichain, hence no object with a revision is ever without a head. */
  lemma HeadsCoverAndAreMinimal(events: seq<Event>)
    ensures var s := After(events).server;
            && (forall r :: r in s.revs ==>
                  HeadsOf(s.heads, s.revs[r].objectId) != {} &&
                  Covered(s.revs, r, HeadsOf(s.heads, s.revs[r].objectId)))
            && (forall a, b :: a in s.heads && b in s.heads && a != b ==> !Ancestor(s.revs, a.1, b.1))
  {
    hide Ordered, Table, IndexOf, TxnsOk, CallOk;
    AfterInv(events);
    CoverAndAntichain(After(events).server);
  }

  lemma CoverAndAntichain(s: Server)
    requires StoreOk(s)
    ensures forall r :: r in s.revs ==>
              HeadsOf(s.heads, s.revs[r].objectId) != {} &&
              Covered(s.revs, r, HeadsOf(s.heads, s.revs[r].objectId))
    ensures forall a, b :: a in s.heads && b in s.heads && a != b ==> !Ancestor(s.revs, a.1, b.1)
  {
    forall r | r in s.revs
      ensures HeadsOf(s.heads, s.revs[r].objectId) != {} &&
              Covered(s.revs, r, HeadsOf(s.heads, s.revs[r].objectId))
    {
      HeadsCover(s.log, r);
    }
    forall a, b | a in s.heads && b in s.heads && a != b
      ensures !Ancestor(s.revs, a.1, b.1)
    {
      IndexIsFrontier(s.log);
      FrontierIsAntichain(s.revs, a, b);
    }
  }

  /** Parents exist, are strictly older and of the same object; hence the graph has no cycle. */
  lemma GraphIsWellFounded(events: seq<Event>, i: nat, p: RevisionId)
    requires var s := After(events).server; i < |s.log| && p in s.log[i].Parents()
    ensures var s := After(events).server;
            && s.revs == Table(s.log)
            && Closed(s.revs)
            && exists j :: 0 <= j < i && s.log[j].id == p && s.log[j].objectId == s.log[i].objectId
  {
    AfterInv(events);
    TableFacts(After(events).server.log);
    ParentsComeEarlier(After(events).server.log, i, p);
  }

  /** Two runs that end up with the same revisions have the same heads, however they got there. */
  lemma RunsAreConfluent(events: seq<Event>, events': seq<Event>)
    requires forall rev :: rev in After(events).server.log <==> rev in After(events').server.log
    ensures After(events).server.heads == After(events').server.heads
  {
    AfterInv(events);
    AfterInv(events');
    Confluence(After(events).server.log, After(events').server.log);
  }

  // ---------------------------------------------------------------------------------------
  // Transactions partition history

  lemma {:induction false} FlattenMember(txns: seq<Txn>, i: nat, r: RevisionId)
    requires i < |txns| && r in txns[i].revisions
    ensures r in Flatten(txns)
  {
    if i < |txns| - 1 {
      FlattenMember(txns[..|txns| - 1], i, r);
    }
  }

  lemma {:induction false} FlattenListed(txns: seq<Txn>, r: RevisionId)
    requires r in Flatten(txns)
    ensures exists i :: 0 <= i < |txns| && r in txns[i].revisions
  {
    var init := txns[..|txns| - 1];
    if r in Flatten(init) {
      FlattenListed(init, r);
      var i :| 0 <= i < |init| && r in init[i].revisions;
      assert txns[i] == init[i];
    } else {
      assert r in txns[|txns| - 1].revisions;
    }
  }

  lemma NotInBoth(x: seq<RevisionId>, y: seq<RevisionId>)
    requires NoDuplicates(x + y)
    ensures forall r :: r in x ==> r !in y
  {
    forall a, b | 0 <= a < |x| && 0 <= b < |y|
      ensures x[a] != y[b]
    {
      assert (x + y)[a] == x[a] && (x + y)[|x| + b] == y[b];
    }
  }

  lemma {:induction false} ListedOnce(txns: seq<Txn>, i: nat, j: nat, r: RevisionId)
    requires NoDuplicates(Flatten(txns)) && i < j < |txns|
    ensures !(r in txns[i].revisions && r in txns[j].revisions)
  {
    var init, last := txns[..|txns| - 1], txns[|txns| - 1];
    var flat := Flatten(init);
    assert Flatten(txns) == flat + last.revisions;
    if j < |init| {
      assert forall k :: 0 <= k < |flat| ==> Flatten(txns)[k] == flat[k];
      ListedOnce(init, i, j, r);
    } else {
      NotInBoth(flat, last.revisions);
      if r in txns[i].revisions {
        FlattenMember(init, i, r);
      }
    }
  }

  /**
    Each stored revision is listed by exactly one transaction, whose client created it, and
    transaction ids strictly increase from 1.
   */
  lemma TransactionsPartition(events: seq<Event>, r: RevisionId)
    requires r in After(events).server.revs
    ensures Numbered(After(events).server.txns, After(events).server.sequence)
    ensures var s := After(events).server;
            exists i :: 0 <= i < |s.txns| && r in s.txns[i].revisions
                        && s.txns[i].client == s.revs[r].createdBy && 1 <= s.txns[i].id
                        && forall j :: 0 <= j < |s.txns| && r in s.txns[j].revisions ==> j == i
  {
    hide Inv, ServerOk;
    AfterInv(events);
    PartitionOf(After(events), r);
  }

  lemma LogIds(s: Server)
    requires StoreOk(s)
    ensures NoDuplicates(Ids(s.log))
    ensures forall r :: r in s.revs ==> r in Ids(s.log)
  {
    TableFacts(s.log);
    OrderedIsDistinct(s.log);
    forall r | r in s.revs
      ensures r in Ids(s.log)
    {
      var k :| 0 <= k < |s.log| && s.log[k].id == r;
      assert Ids(s.log)[k] == r;
    }
  }

  lemma PartitionOf(state: State, r: RevisionId)
    requires Inv(state) && r in state.server.revs
    ensures Numbered(state.server.txns, state.server.sequence)
    ensures var s := state.server;
            exists i :: 0 <= i < |s.txns| && r in s.txns[i].revisions
                        && s.txns[i].client == s.revs[r].createdBy && 1 <= s.txns[i].id
                        && forall j :: 0 <= j < |s.txns| && r in s.txns[j].revisions ==> j == i
  {
    hide Ordered, Table, IndexOf, Flatten, CallOk;
    var s := state.server;
    LogIds(s);
    FlattenListed(s.txns, r);
    var i :| 0 <= i < |s.txns| && r in s.txns[i].revisions;
    assert Authored(s.revs, s.txns[i]);
    forall j | 0 <= j < |s.txns| && r in s.txns[j].revisions
      ensures j == i
    {
      if j != i {
        ListedOnce(s.txns, if i < j then i else j, if i < j then j else i, r);
      }
    }
  }
}
