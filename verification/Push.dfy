/**
  The server's push path as values: the query-by-query validator, the constrained inserts
  of the commit transaction, and the transaction log.
 */
module Push {
  import opened Core
  import opened Dag
  import opened HeadIndex

  datatype Txn = Txn(id: nat, client: ClientId, revisions: seq<RevisionId>)

  /**
    Committed server state.  `revs` is the revisions table with its parents, `log` its rows in
    insertion order, `sequence` the last value handed out by the transaction id sequence.
   */
  datatype Server = Server(revs: Graph, log: seq<Revision>, heads: HeadTable, txns: seq<Txn>, sequence: nat)

  const EMPTY := Server(map[], [], {}, [], 0)

  // ---------------------------------------------------------------------------------------
  // Validation

  datatype Verdict = Accepted | Rejected(reason: Reason)

  /**
    A push being validated.  The next revision to judge is `batch[|verdicts|]`; `checking` is
    the number of its parents found valid so far, once the checks before the parents passed.
   */
  datatype PushRun = PushRun(client: ClientId, batch: seq<Revision>, verdicts: seq<Verdict>, checking: Option<nat>)
  {
    predicate Valid() {
      && |verdicts| <= |batch|
      && (checking.Some? ==> |verdicts| < |batch| && checking.value <= |batch[|verdicts|].Parents()|)
    }

    predicate Done() { |verdicts| == |batch| }

    function Decide(v: Verdict): PushRun {
      this.(verdicts := verdicts + [v], checking := None)
    }

    function AcceptedRevs(): seq<Revision>
      requires Valid()
    {
      AcceptedOf(batch, verdicts)
    }

    function RejectedRevs(): seq<RejectedRevision>
      requires Valid()
    {
      RejectedOf(batch, verdicts)
    }

    function Remaining(): nat
      requires Valid() && !Done()
    {
      var n := |batch[|verdicts|].Parents()|;
      if checking.Some? then n - checking.value else n + 1
    }
  }

  function Start(client: ClientId, batch: seq<Revision>): PushRun {
    PushRun(client, batch, [], None)
  }

  function AcceptedOf(batch: seq<Revision>, verdicts: seq<Verdict>): seq<Revision>
    requires |verdicts| <= |batch|
  {
    if verdicts == [] then []
    else
      var n := |verdicts| - 1;
      AcceptedOf(batch, verdicts[..n]) + if verdicts[n].Accepted? then [batch[n]] else []
  }

  function RejectedOf(batch: seq<Revision>, verdicts: seq<Verdict>): seq<RejectedRevision>
    requires |verdicts| <= |batch|
  {
    if verdicts == [] then []
    else
      var n := |verdicts| - 1;
      RejectedOf(batch, verdicts[..n]) +
      if verdicts[n].Rejected? then [RejectedRevision(batch[n].id, verdicts[n].reason)] else []
  }

  /** The object recorded for `id` by the revisions accepted so far; a later one overwrites. */
  function ObjectOf(accepted: seq<Revision>, id: RevisionId): Option<ObjectId> {
    if accepted == [] then None
    else
      var last := accepted[|accepted| - 1];
      if last.id == id then Some(last.objectId) else ObjectOf(accepted[..|accepted| - 1], id)
  }

  function LookupParent(g: Graph, accepted: seq<Revision>, p: RevisionId): Option<ObjectId> {
    match ObjectOf(accepted, p)
    case Some(o) => Some(o)
    case None => if p in g then Some(g[p].objectId) else None
  }

  /** One validation step; it looks at the committed state `g` at most once. */
  function Query(g: Graph, run: PushRun): (run': PushRun)
    requires run.Valid() && !run.Done()
    ensures run'.Valid() && run'.client == run.client && run'.batch == run.batch
    ensures |run'.verdicts| > |run.verdicts| ||
            (run'.verdicts == run.verdicts && run'.Remaining() < run.Remaining())
  {
    var rev := run.batch[|run.verdicts|];
    match run.checking
    case None =>
      if rev.createdBy != run.client then run.Decide(Rejected(MalformedData))
      else if rev.id in g then run.Decide(Rejected(DuplicateRevisionId))
      else if !NoDuplicates(rev.Parents()) then run.Decide(Rejected(MalformedData))
      else run.(checking := Some(0))
    case Some(j) =>
      if j == |rev.Parents()| then run.Decide(Accepted)
      else
        match LookupParent(g, run.AcceptedRevs(), rev.Parents()[j])
        case None => run.Decide(Rejected(UnknownParent))
        case Some(o) =>
          if o != rev.objectId then run.Decide(Rejected(MalformedData))
          else run.(checking := Some(j + 1))
  }

  /** Validation of the rest of the batch with no commit in between. */
  function Validate(g: Graph, run: PushRun): (run': PushRun)
    requires run.Valid()
    ensures run'.Valid() && run'.Done() && run'.client == run.client && run'.batch == run.batch
    decreases |run.batch| - |run.verdicts|, if run.Done() then 0 else run.Remaining()
  {
    if run.Done() then run else Validate(g, Query(g, run))
  }

  // ---------------------------------------------------------------------------------------
  // Commit

  /** Rows for one revision, under the tables' key and foreign-key constraints. */
  function Insert(s: Server, rev: Revision): Option<Server> {
    var g := s.revs[rev.id := rev];
    if rev.id in s.revs then None                                                 // primary key
    else if exists p :: p in rev.Parents() && p !in g then None                   // foreign key; its own row is there
    else if !NoDuplicates(rev.Parents()) then None                                // key of the parent rows
    else Some(s.(revs := g, log := s.log + [rev],
                 heads := UpdateHeads(s.heads, rev.objectId, rev.Parents(), rev.id)))
  }

  function InsertAll(s: Server, revs: seq<Revision>): Option<Server> {
    if revs == [] then Some(s)
    else
      match InsertAll(s, revs[..|revs| - 1])
      case None => None
      case Some(s') => Insert(s', revs[|revs| - 1])
  }

  function CreateTransaction(s: Server, client: ClientId, ids: seq<RevisionId>): Option<Server> {
    if (exists r :: r in ids && r !in s.revs) || !NoDuplicates(ids) then None
    else Some(s.(txns := s.txns + [Txn(s.sequence + 1, client, ids)], sequence := s.sequence + 1))
  }

  /** The revisions of the batch whose id is in the set; not necessarily the accepted ones. */
  function Select(batch: seq<Revision>, ids: set<RevisionId>): seq<Revision> {
    if batch == [] then []
    else
      var last := batch[|batch| - 1];
      Select(batch[..|batch| - 1], ids) + if last.id in ids then [last] else []
  }

  function IdSet(revs: seq<Revision>): set<RevisionId> {
    set i | 0 <= i < |revs| :: revs[i].id
  }

  datatype CommitResult = Failed | Committed(server: Server, transactionId: nat)

  function Commit(s: Server, run: PushRun): CommitResult
    requires run.Valid() && run.Done()
  {
    var accepted := run.AcceptedRevs();
    var selected := Select(run.batch, IdSet(accepted));
    if selected == [] then Committed(s, 0)
    else
      match InsertAll(s, selected)
      case None => Failed
      case Some(s') =>
        match CreateTransaction(s', run.client, Ids(accepted))
        case None => Failed
        case Some(s'') => Committed(s'', s''.sequence)
  }

  // ---------------------------------------------------------------------------------------
  // Invariants

  ghost predicate StoreOk(s: Server) {
    && Ordered(s.log)
    && s.revs == Table(s.log)
    && s.heads == IndexOf(s.log)
  }

  function Flatten(txns: seq<Txn>): seq<RevisionId> {
    if txns == [] then [] else Flatten(txns[..|txns| - 1]) + txns[|txns| - 1].revisions
  }

  /** Transaction ids strictly increase from 1 and stay within the sequence; gaps are possible. */
  ghost predicate Numbered(txns: seq<Txn>, sequence: nat) {
    && (forall i :: 0 <= i < |txns| ==> 1 <= txns[i].id <= sequence)
    && (forall i, j :: 0 <= i < j < |txns| ==> txns[i].id < txns[j].id)
  }

  /** Whatever a transaction lists is stored and was created by the client that pushed it. */
  ghost predicate Authored(g: Graph, t: Txn) {
    forall r :: r in t.revisions ==> r in g && g[r].createdBy == t.client
  }

  ghost predicate TxnsOk(s: Server) {
    && Numbered(s.txns, s.sequence)
    && (forall i :: 0 <= i < |s.txns| ==> Authored(s.revs, s.txns[i]))
    && Flatten(s.txns) == Ids(s.log)
  }

  ghost predicate ServerOk(s: Server) {
    StoreOk(s) && TxnsOk(s)
  }

  /** `p` is known, in object `o`, either to the store or to the revisions accepted earlier. */
  ghost predicate Grounds(g: Graph, earlier: seq<Revision>, o: ObjectId, p: RevisionId) {
    || (p in g && g[p].objectId == o)
    || exists j :: 0 <= j < |earlier| && earlier[j].id == p && earlier[j].objectId == o
  }

  ghost predicate AllGround(g: Graph, earlier: seq<Revision>, rev: Revision) {
    forall p :: p in rev.Parents() ==> Grounds(g, earlier, rev.objectId, p)
  }

  ghost predicate Grounded(g: Graph, revs: seq<Revision>) {
    revs != [] ==>
      && Grounded(g, revs[..|revs| - 1])
      && AllGround(g, revs[..|revs| - 1], revs[|revs| - 1])
  }

  /** What validation knows, whatever has been committed since: it only speaks of presence. */
  ghost predicate RunOk(g: Graph, run: PushRun) {
    && run.Valid()
    && Grounded(g, run.AcceptedRevs())
    && (forall rev :: rev in run.AcceptedRevs() ==>
          rev.createdBy == run.client && rev in run.batch && NoDuplicates(rev.Parents()))
    && (run.checking.Some? ==>
          var rev := run.batch[|run.verdicts|];
          && rev.createdBy == run.client && NoDuplicates(rev.Parents())
          && forall i :: 0 <= i < run.checking.value ==>
               Grounds(g, run.AcceptedRevs(), rev.objectId, rev.Parents()[i]))
  }

  lemma {:induction false} GroundedMono(g: Graph, g': Graph, revs: seq<Revision>)
    requires Sub(g, g') && Grounded(g, revs)
    ensures Grounded(g', revs)
  {
    if revs != [] {
      GroundedMono(g, g', revs[..|revs| - 1]);
    }
  }

  /** Other pushes may commit in the middle of a validation. */
  lemma RunOkMono(g: Graph, g': Graph, run: PushRun)
    requires Sub(g, g') && RunOk(g, run)
    ensures RunOk(g', run)
  {
    GroundedMono(g, g', run.AcceptedRevs());
  }

  lemma {:induction false} ObjectOfFound(accepted: seq<Revision>, id: RevisionId)
    ensures ObjectOf(accepted, id).Some? <==> exists j :: 0 <= j < |accepted| && accepted[j].id == id
    ensures ObjectOf(accepted, id).Some? ==>
              exists j :: 0 <= j < |accepted| && accepted[j].id == id
                          && accepted[j].objectId == ObjectOf(accepted, id).value
  {
    if accepted != [] && accepted[|accepted| - 1].id != id {
      var init := accepted[..|accepted| - 1];
      ObjectOfFound(init, id);
      if ObjectOf(accepted, id).Some? {
        var j :| 0 <= j < |init| && init[j].id == id && init[j].objectId == ObjectOf(init, id).value;
        assert accepted[j] == init[j];
      }
    }
  }

  lemma AcceptedStep(run: PushRun, v: Verdict)
    requires run.Valid() && !run.Done()
    ensures run.Decide(v).AcceptedRevs() ==
            if v.Accepted? then run.AcceptedRevs() + [run.batch[|run.verdicts|]] else run.AcceptedRevs()
    ensures run.Decide(v).RejectedRevs() ==
            if v.Accepted? then run.RejectedRevs()
            else run.RejectedRevs() + [RejectedRevision(run.batch[|run.verdicts|].id, v.reason)]
  {
    assert run.Decide(v).verdicts[..|run.verdicts|] == run.verdicts;
  }

  lemma RejectOk(g: Graph, run: PushRun, reason: Reason)
    requires RunOk(g, run) && !run.Done()
    ensures RunOk(g, run.Decide(Rejected(reason)))
  {
    hide AcceptedOf, RejectedOf, Grounded, Grounds, NoDuplicates;
    AcceptedStep(run, Rejected(reason));
  }

  lemma AcceptOk(g: Graph, run: PushRun)
    requires RunOk(g, run) && !run.Done() && run.checking == Some(|run.batch[|run.verdicts|].Parents()|)
    ensures RunOk(g, run.Decide(Accepted))
  {
    hide AcceptedOf, RejectedOf, Grounds, NoDuplicates;
    var rev, accepted := run.batch[|run.verdicts|], run.AcceptedRevs();
    AcceptedStep(run, Accepted);
    assert (accepted + [rev])[..|accepted|] == accepted;
    assert AllGround(g, accepted, rev);
  }

  lemma NextParentOk(g: Graph, run: PushRun, j: nat)
    requires RunOk(g, run) && !run.Done() && run.checking == Some(j) && j < |run.batch[|run.verdicts|].Parents()|
    requires var rev := run.batch[|run.verdicts|];
             LookupParent(g, run.AcceptedRevs(), rev.Parents()[j]) == Some(rev.objectId)
    ensures RunOk(g, run.(checking := Some(j + 1)))
  {
    hide AcceptedOf, Grounded, NoDuplicates, ObjectOf;
    ObjectOfFound(run.AcceptedRevs(), run.batch[|run.verdicts|].Parents()[j]);
  }

  lemma QueryOk(g: Graph, run: PushRun)
    requires RunOk(g, run) && !run.Done()
    ensures RunOk(g, Query(g, run))
  {
    hide AcceptedOf, Grounded, Grounds, LookupParent;
    var rev, run' := run.batch[|run.verdicts|], Query(g, run);
    if run'.checking.None? {
      var v := run'.verdicts[|run.verdicts|];
      if v.Accepted? {
        AcceptOk(g, run);
      } else {
        RejectOk(g, run, v.reason);
      }
    } else if run.checking.Some? {
      NextParentOk(g, run, run.checking.value);
    }
  }

  lemma {:induction false} ValidateOk(g: Graph, run: PushRun)
    requires RunOk(g, run)
    ensures RunOk(g, Validate(g, run))
    decreases |run.batch| - |run.verdicts|, if run.Done() then 0 else run.Remaining()
  {
    if !run.Done() {
      QueryOk(g, run);
      ValidateOk(g, Query(g, run));
    }
  }

  // ---------------------------------------------------------------------------------------
  // The commit stores exactly the accepted revisions

  /** `s'` is `s` with `revs` stored on top, and nothing else. */
  ghost predicate Stored(s: Server, s': Server, revs: seq<Revision>) {
    && s'.log == s.log + revs
    && Sub(s.revs, s'.revs)
    && (forall rev :: rev in revs ==> rev.id !in s.revs && rev.id in s'.revs && s'.revs[rev.id] == rev)
    && (forall r :: r in s'.revs ==> r in s.revs || r in Ids(revs))
  }

  lemma InsertShape(s: Server, s1: Server, revs: seq<Revision>, rev: Revision)
    requires Stored(s, s1, revs) && Distinct(revs) && Insert(s1, rev).Some?
    ensures Stored(s, Insert(s1, rev).value, revs + [rev])
    ensures Distinct(revs + [rev])
  {
    assert Ids(revs + [rev]) == Ids(revs) + [rev.id];
    forall i | 0 <= i < |revs|
      ensures revs[i].id != rev.id
    {
      assert revs[i] in revs;
    }
  }

  lemma {:induction false} InsertAllShape(s: Server, revs: seq<Revision>)
    requires InsertAll(s, revs).Some?
    ensures var s' := InsertAll(s, revs).value;
            Stored(s, s', revs) && Distinct(revs) && s'.txns == s.txns && s'.sequence == s.sequence
  {
    if revs == [] {
      assert Stored(s, s, []);
    } else {
      var init, last := revs[..|revs| - 1], revs[|revs| - 1];
      assert init + [last] == revs;
      var s1 := InsertAll(s, init).value;
      assert InsertAll(s, revs) == Insert(s1, last);
      InsertAllShape(s, init);
      InsertShape(s, s1, init, last);
    }
  }

  /** Grounded revisions that the constraints let through keep the store well formed. */
  lemma {:induction false} InsertAllOk(s: Server, revs: seq<Revision>)
    requires StoreOk(s) && Grounded(s.revs, revs) && InsertAll(s, revs).Some?
    ensures StoreOk(InsertAll(s, revs).value)
  {
    if revs != [] {
      var init, last := revs[..|revs| - 1], revs[|revs| - 1];
      InsertAllOk(s, init);
      InsertAllShape(s, init);
      var s1 := InsertAll(s, init).value;
      forall p | p in last.Parents()
        ensures p in s1.revs && s1.revs[p].objectId == last.objectId
      {
        assert Grounds(s.revs, init, last.objectId, p);
        if j :| 0 <= j < |init| && init[j].id == p && init[j].objectId == last.objectId {
          assert init[j] in init;
        }
      }
      assert Extends(s1.revs, last);
      Snoc(s1.log, last);
    }
  }

  lemma {:induction false} AcceptedMember(batch: seq<Revision>, verdicts: seq<Verdict>, rev: Revision)
    requires |verdicts| <= |batch|
    ensures rev in AcceptedOf(batch, verdicts) <==>
            exists i :: 0 <= i < |verdicts| && verdicts[i].Accepted? && batch[i] == rev
  {
    if verdicts != [] {
      var n := |verdicts| - 1;
      AcceptedMember(batch, verdicts[..n], rev);
    }
  }

  lemma InIdSet(revs: seq<Revision>, id: RevisionId)
    ensures id in IdSet(revs) <==> exists rev :: rev in revs && rev.id == id
  {
    if rev :| rev in revs && rev.id == id {
      var i :| 0 <= i < |revs| && revs[i] == rev;
    }
  }

  lemma {:induction false} SelectTwo(batch: seq<Revision>, ids: set<RevisionId>, i: nat, j: nat)
    requires i < j < |batch| && batch[i].id == batch[j].id && batch[i].id in ids
    ensures !Distinct(Select(batch, ids))
  {
    var init, last := batch[..|batch| - 1], batch[|batch| - 1];
    var part, whole := Select(init, ids), Select(batch, ids);
    if j < |init| {
      SelectTwo(init, ids, i, j);
      var k, l :| 0 <= k < l < |part| && part[k].id == part[l].id;
      assert whole[k] == part[k] && whole[l] == part[l];
    } else {
      SelectMember(init, ids, i);
      var k :| 0 <= k < |part| && part[k] == batch[i];
      assert whole[k] == part[k] && whole[|part|] == last;
    }
  }

  lemma {:induction false} SelectMember(batch: seq<Revision>, ids: set<RevisionId>, i: nat)
    requires i < |batch| && batch[i].id in ids
    ensures batch[i] in Select(batch, ids)
  {
    var init := batch[..|batch| - 1];
    if i < |init| {
      SelectMember(init, ids, i);
    }
  }

  lemma {:induction false} SelectIsAccepted(batch: seq<Revision>, verdicts: seq<Verdict>, ids: set<RevisionId>)
    requires |verdicts| == |batch|
    requires forall i :: 0 <= i < |batch| ==> (batch[i].id in ids <==> verdicts[i].Accepted?)
    ensures Select(batch, ids) == AcceptedOf(batch, verdicts)
  {
    if batch != [] {
      var n := |batch| - 1;
      SelectIsAccepted(batch[..n], verdicts[..n], ids);
      AcceptedPrefix(batch, verdicts[..n], n);
    }
  }

  lemma AcceptedSnoc(init: seq<Revision>, vs: seq<Verdict>, last: Revision, v: Verdict)
    requires |vs| == |init|
    ensures AcceptedOf(init + [last], vs + [v]) ==
            if v.Accepted? then AcceptedOf(init, vs) + [last] else AcceptedOf(init, vs)
    ensures RejectedOf(init + [last], vs + [v]) ==
            if v.Accepted? then RejectedOf(init, vs) else RejectedOf(init, vs) + [RejectedRevision(last.id, v.reason)]
  {
    assert (vs + [v])[..|vs|] == vs && (init + [last])[..|vs|] == init;
    AcceptedPrefix(init + [last], vs, |vs|);
  }

  lemma {:induction false} AcceptedPrefix(batch: seq<Revision>, verdicts: seq<Verdict>, n: nat)
    requires |verdicts| <= n <= |batch|
    ensures AcceptedOf(batch[..n], verdicts) == AcceptedOf(batch, verdicts)
    ensures RejectedOf(batch[..n], verdicts) == RejectedOf(batch, verdicts)
    decreases |verdicts|
  {
    if verdicts != [] {
      AcceptedPrefix(batch, verdicts[..|verdicts| - 1], n);
    }
  }

  /**
    The commit re-selects by id, so a repeated id drags rejected twins along; the primary key
    turns every such case into a failure, and what is left is exactly the accepted revisions.
   */
  lemma SelectionIsExact(run: PushRun)
    requires run.Valid() && run.Done()
    requires Distinct(Select(run.batch, IdSet(run.AcceptedRevs())))
    ensures Select(run.batch, IdSet(run.AcceptedRevs())) == run.AcceptedRevs()
  {
    var accepted := run.AcceptedRevs();
    var ids := IdSet(accepted);
    forall i | 0 <= i < |run.batch|
      ensures run.batch[i].id in ids <==> run.verdicts[i].Accepted?
    {
      if run.verdicts[i].Accepted? {
        AcceptedMember(run.batch, run.verdicts, run.batch[i]);
        InIdSet(accepted, run.batch[i].id);
      } else if run.batch[i].id in ids {
        InIdSet(accepted, run.batch[i].id);
        var rev :| rev in accepted && rev.id == run.batch[i].id;
        AcceptedMember(run.batch, run.verdicts, rev);
        var j :| 0 <= j < |run.batch| && run.verdicts[j].Accepted? && run.batch[j] == rev;
        SelectTwo(run.batch, ids, if i < j then i else j, if i < j then j else i);
      }
    }
    SelectIsAccepted(run.batch, run.verdicts, ids);
  }

  /** An accepted id that occurs twice in the batch makes the commit fail. */
  lemma RepeatedIdRollsBack(s: Server, run: PushRun, i: nat, j: nat)
    requires run.Valid() && run.Done()
    requires i < j < |run.batch| && run.batch[i].id == run.batch[j].id
    requires run.verdicts[i].Accepted? || run.verdicts[j].Accepted?
    ensures Commit(s, run) == Failed
  {
    var accepted := run.AcceptedRevs();
    var ids := IdSet(accepted);
    var k := if run.verdicts[i].Accepted? then i else j;
    AcceptedMember(run.batch, run.verdicts, run.batch[k]);
    InIdSet(accepted, run.batch[k].id);
    SelectTwo(run.batch, ids, i, j);
    var selected := Select(run.batch, ids);
    if InsertAll(s, selected).Some? {
      InsertAllShape(s, selected);
    }
  }

  lemma FlattenSnoc(txns: seq<Txn>, t: Txn)
    ensures Flatten(txns + [t]) == Flatten(txns) + t.revisions
  {
    assert (txns + [t])[..|txns|] == txns;
  }

  /** Appending a transaction for the revisions just stored keeps the log consistent. */
  lemma TransactionOk(s: Server, s1: Server, client: ClientId, revs: seq<Revision>)
    requires TxnsOk(s) && Stored(s, s1, revs) && s1.txns == s.txns && s1.sequence == s.sequence
    requires forall rev :: rev in revs ==> rev.createdBy == client
    requires CreateTransaction(s1, client, Ids(revs)).Some?
    ensures TxnsOk(CreateTransaction(s1, client, Ids(revs)).value)
  {
    hide Flatten;
    var s' := CreateTransaction(s1, client, Ids(revs)).value;
    FlattenSnoc(s.txns, Txn(s.sequence + 1, client, Ids(revs)));
    assert Ids(s'.log) == Ids(s.log) + Ids(revs);
    assert Numbered(s'.txns, s'.sequence);
  }

  /**
    A push either fails, or stores exactly the revisions it accepted, in batch order, under one
    new transaction that lists exactly them; with nothing accepted it changes nothing and
    answers with transaction 0, which no transaction ever has.
   */
  lemma CommitExact(s: Server, run: PushRun)
    requires ServerOk(s) && RunOk(s.revs, run) && run.Done() && Commit(s, run).Committed?
    ensures var accepted := run.AcceptedRevs();
            var Committed(s', id) := Commit(s, run);
            && ServerOk(s')
            && Stored(s, s', accepted)
            && Distinct(accepted)
            && (accepted == [] ==> s' == s && id == 0)
            && (accepted != [] ==>
                  && id > s.sequence && id == s'.sequence
                  && s'.txns == s.txns + [Txn(id, run.client, Ids(accepted))])
  {
    hide Ordered, Table, IndexOf, Grounded, Select, InsertAll, AcceptedOf, TxnsOk;
    var accepted := run.AcceptedRevs();
    var selected := Select(run.batch, IdSet(accepted));
    if selected == [] {
      SelectionIsExact(run);
    } else {
      InsertAllShape(s, selected);
      SelectionIsExact(run);
      InsertAllOk(s, selected);
      TransactionOk(s, InsertAll(s, selected).value, run.client, accepted);
    }
  }
}
