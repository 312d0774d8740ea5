/** Laws of whole pushes: conservation, completeness, idempotence and transparent batching. */
module PushLaws {
  import opened Core
  import opened Dag
  import opened Push

  // ---------------------------------------------------------------------------------------
  // A reference validator that judges one revision at a time

  function CheckParents(g: Graph, accepted: seq<Revision>, rev: Revision, j: nat): Verdict
    requires j <= |rev.Parents()|
    decreases |rev.Parents()| - j
  {
    if j == |rev.Parents()| then Accepted
    else
      match LookupParent(g, accepted, rev.Parents()[j])
      case None => Rejected(UnknownParent)
      case Some(o) =>
        if o != rev.objectId then Rejected(MalformedData) else CheckParents(g, accepted, rev, j + 1)
  }

  function Judge(g: Graph, accepted: seq<Revision>, client: ClientId, rev: Revision): Verdict {
    if rev.createdBy != client then Rejected(MalformedData)
    else if rev.id in g then Rejected(DuplicateRevisionId)
    else if !NoDuplicates(rev.Parents()) then Rejected(MalformedData)
    else CheckParents(g, accepted, rev, 0)
  }

  function JudgeAll(g: Graph, client: ClientId, batch: seq<Revision>): (vs: seq<Verdict>)
    ensures |vs| == |batch|
  {
    if batch == [] then []
    else
      var init := batch[..|batch| - 1];
      var vs := JudgeAll(g, client, init);
      vs + [Judge(g, AcceptedOf(init, vs), client, batch[|batch| - 1])]
  }

  lemma {:induction false} ParentChecksAgree(g: Graph, run: PushRun)
    requires run.Valid() && !run.Done() && run.checking.Some?
    ensures var rev := run.batch[|run.verdicts|];
            Validate(g, run) == Validate(g, run.Decide(CheckParents(g, run.AcceptedRevs(), rev, run.checking.value)))
    decreases run.Remaining()
  {
    var rev := run.batch[|run.verdicts|];
    var j := run.checking.value;
    if j < |rev.Parents()| && LookupParent(g, run.AcceptedRevs(), rev.Parents()[j]) == Some(rev.objectId) {
      ParentChecksAgree(g, Query(g, run));
    }
  }

  lemma QueriesAgree(g: Graph, run: PushRun)
    requires run.Valid() && !run.Done() && run.checking.None?
    ensures var rev := run.batch[|run.verdicts|];
            Validate(g, run) == Validate(g, run.Decide(Judge(g, run.AcceptedRevs(), run.client, rev)))
  {
    if Query(g, run).checking.Some? {
      ParentChecksAgree(g, Query(g, run));
    }
  }

  lemma JudgeSnoc(g: Graph, client: ClientId, init: seq<Revision>, last: Revision)
    ensures var vs := JudgeAll(g, client, init);
            JudgeAll(g, client, init + [last]) == vs + [Judge(g, AcceptedOf(init, vs), client, last)]
  {
    assert (init + [last])[..|init|] == init;
  }

  lemma {:induction false} ValidateFrom(g: Graph, client: ClientId, batch: seq<Revision>, n: nat)
    requires n <= |batch|
    ensures Validate(g, PushRun(client, batch, JudgeAll(g, client, batch[..n]), None)).verdicts ==
            JudgeAll(g, client, batch)
    decreases |batch| - n
  {
    var vs := JudgeAll(g, client, batch[..n]);
    if n == |batch| {
      assert batch[..n] == batch;
    } else {
      var run := PushRun(client, batch, vs, None);
      QueriesAgree(g, run);
      AcceptedPrefix(batch, vs, n);
      assert batch[..n + 1] == batch[..n] + [batch[n]];
      JudgeSnoc(g, client, batch[..n], batch[n]);
      ValidateFrom(g, client, batch, n + 1);
    }
  }

  /** The query-by-query validator computes the reference verdicts. */
  lemma ValidateIsJudge(g: Graph, client: ClientId, batch: seq<Revision>)
    ensures Validate(g, Start(client, batch)) == PushRun(client, batch, JudgeAll(g, client, batch), None)
  {
    ValidateFrom(g, client, batch, 0);
  }

  lemma {:induction false} JudgedAt(g: Graph, client: ClientId, batch: seq<Revision>, i: nat)
    requires i < |batch|
    ensures JudgeAll(g, client, batch)[i] ==
            Judge(g, AcceptedOf(batch[..i], JudgeAll(g, client, batch[..i])), client, batch[i])
  {
    var init, last := batch[..|batch| - 1], batch[|batch| - 1];
    assert batch == init + [last];
    JudgeSnoc(g, client, init, last);
    if i < |init| {
      JudgedAt(g, client, init, i);
      assert init[..i] == batch[..i];
    } else {
      assert init == batch[..i];
    }
  }

  // ---------------------------------------------------------------------------------------
  // Conservation

  function RejectedIds(rejected: seq<RejectedRevision>): seq<RevisionId> {
    seq(|rejected|, i requires 0 <= i < |rejected| => rejected[i].revisionId)
  }

  lemma IdsSnoc(revs: seq<Revision>, rev: Revision)
    ensures Ids(revs + [rev]) == Ids(revs) + [rev.id]
  {}

  lemma RejectedIdsSnoc(rejected: seq<RejectedRevision>, r: RejectedRevision)
    ensures RejectedIds(rejected + [r]) == RejectedIds(rejected) + [r.revisionId]
  {}

  /** Every pushed revision gives exactly one entry of the response, accepted or rejected. */
  lemma {:induction false} BatchIsConserved(batch: seq<Revision>, verdicts: seq<Verdict>)
    requires |verdicts| == |batch|
    ensures multiset(Ids(AcceptedOf(batch, verdicts))) + multiset(RejectedIds(RejectedOf(batch, verdicts))) ==
            multiset(Ids(batch))
  {
    if batch != [] {
      var n := |batch| - 1;
      var init, last, vs, v := batch[..n], batch[n], verdicts[..n], verdicts[n];
      assert batch == init + [last] && verdicts == vs + [v];
      BatchIsConserved(init, vs);
      AcceptedSnoc(init, vs, last, v);
      IdsSnoc(init, last);
      IdsSnoc(AcceptedOf(init, vs), last);
      if v.Rejected? {
        RejectedIdsSnoc(RejectedOf(init, vs), RejectedRevision(last.id, v.reason));
      }
    }
  }

  /** The response names exactly the rejected revisions, each with the reason of its verdict. */
  lemma {:induction false} RejectionsAreExact(batch: seq<Revision>, verdicts: seq<Verdict>, rejection: RejectedRevision)
    requires |verdicts| <= |batch|
    ensures rejection in RejectedOf(batch, verdicts) <==>
            exists i :: 0 <= i < |verdicts| && verdicts[i] == Rejected(rejection.reason)
                        && batch[i].id == rejection.revisionId
  {
    if verdicts != [] {
      var n := |verdicts| - 1;
      RejectionsAreExact(batch, verdicts[..n], rejection);
      if i :| 0 <= i < n && verdicts[..n][i] == Rejected(rejection.reason) && batch[i].id == rejection.revisionId {
        assert verdicts[i] == Rejected(rejection.reason);
      }
    }
  }

  /**
    The answer to an uninterrupted push, in terms of the store and the batch alone: what is
    accepted, and what is rejected for which reason.
   */
  lemma AnswerIsExact(g: Graph, client: ClientId, batch: seq<Revision>)
    ensures var run := Validate(g, Start(client, batch));
            && (forall rev :: rev in run.AcceptedRevs() <==>
                  exists i :: 0 <= i < |batch| && batch[i] == rev
                              && Acceptable(g, client, Before(g, client, batch, i), rev))
            && (forall x :: x in run.RejectedRevs() <==>
                  exists i :: 0 <= i < |batch| && batch[i].id == x.revisionId
                              && Judge(g, Before(g, client, batch, i), client, batch[i]) == Rejected(x.reason))
  {
    hide Acceptable, Judge, AcceptedOf, RejectedOf, JudgeAll, Before;
    var run := Validate(g, Start(client, batch));
    ValidateIsJudge(g, client, batch);
    forall i | 0 <= i < |batch|
      ensures run.verdicts[i] == Judge(g, Before(g, client, batch, i), client, batch[i])
      ensures run.verdicts[i].Accepted? <==> Acceptable(g, client, Before(g, client, batch, i), batch[i])
    {
      JudgedBefore(g, client, batch, i);
    }
    forall rev
      ensures rev in run.AcceptedRevs() <==>
              exists i :: 0 <= i < |batch| && run.verdicts[i].Accepted? && batch[i] == rev
    {
      AcceptedMember(batch, run.verdicts, rev);
    }
    forall x
      ensures x in run.RejectedRevs() <==>
              exists i :: 0 <= i < |batch| && run.verdicts[i] == Rejected(x.reason) && batch[i].id == x.revisionId
    {
      RejectionsAreExact(batch, run.verdicts, x);
    }
  }

  /** What was accepted of the batch before position `i`. */
  function Before(g: Graph, client: ClientId, batch: seq<Revision>, i: nat): seq<Revision>
    requires i <= |batch|
  {
    AcceptedOf(batch[..i], JudgeAll(g, client, batch[..i]))
  }

  lemma JudgedBefore(g: Graph, client: ClientId, batch: seq<Revision>, i: nat)
    requires i < |batch|
    ensures JudgeAll(g, client, batch)[i] == Judge(g, Before(g, client, batch, i), client, batch[i])
    ensures JudgeAll(g, client, batch)[i].Accepted? <==> Acceptable(g, client, Before(g, client, batch, i), batch[i])
  {
    hide Judge, Acceptable, JudgeAll, AcceptedOf;
    JudgedAt(g, client, batch, i);
    JudgeAccepts(g, Before(g, client, batch, i), client, batch[i]);
  }

  // ---------------------------------------------------------------------------------------
  // Completeness

  lemma {:induction false} CheckParentsAccepts(g: Graph, accepted: seq<Revision>, rev: Revision, j: nat)
    requires j <= |rev.Parents()|
    ensures CheckParents(g, accepted, rev, j).Accepted? <==>
            forall i :: j <= i < |rev.Parents()| ==> LookupParent(g, accepted, rev.Parents()[i]) == Some(rev.objectId)
    decreases |rev.Parents()| - j
  {
    if j < |rev.Parents()| {
      CheckParentsAccepts(g, accepted, rev, j + 1);
    }
  }

  /** The first parent that is not found in the revision's own object. */
  ghost predicate FirstBadParent(g: Graph, accepted: seq<Revision>, rev: Revision, i: int) {
    && 0 <= i < |rev.Parents()|
    && LookupParent(g, accepted, rev.Parents()[i]) != Some(rev.objectId)
    && forall k :: 0 <= k < i ==> LookupParent(g, accepted, rev.Parents()[k]) == Some(rev.objectId)
  }

  lemma {:induction false} CheckStopsAt(g: Graph, accepted: seq<Revision>, rev: Revision, j: nat, i: nat)
    requires FirstBadParent(g, accepted, rev, i) && j <= i
    ensures CheckParents(g, accepted, rev, j) ==
            Rejected(if LookupParent(g, accepted, rev.Parents()[i]).None? then UnknownParent else MalformedData)
    decreases i - j
  {
    if j < i {
      CheckStopsAt(g, accepted, rev, j + 1, i);
    }
  }

  /**
    Which reason is reported: a foreign author comes before a known id, which comes before
    repeated parents, which come before the first parent that is unknown or of another object.
   */
  lemma ReasonsAreExact(g: Graph, accepted: seq<Revision>, client: ClientId, rev: Revision)
    ensures var v := Judge(g, accepted, client, rev);
            && (v == Rejected(MalformedData) <==>
                  || rev.createdBy != client
                  || (rev.id !in g && !NoDuplicates(rev.Parents()))
                  || (rev.id !in g && exists i :: FirstBadParent(g, accepted, rev, i)
                                                  && LookupParent(g, accepted, rev.Parents()[i]).Some?))
            && (v == Rejected(DuplicateRevisionId) <==> rev.createdBy == client && rev.id in g)
            && (v == Rejected(UnknownParent) <==>
                  && rev.createdBy == client && rev.id !in g && NoDuplicates(rev.Parents())
                  && exists i :: FirstBadParent(g, accepted, rev, i)
                                 && LookupParent(g, accepted, rev.Parents()[i]).None?)
            && (v.Accepted? <==>
                  && rev.createdBy == client && rev.id !in g && NoDuplicates(rev.Parents())
                  && forall i :: !FirstBadParent(g, accepted, rev, i))
  {
    CheckParentsAccepts(g, accepted, rev, 0);
    if !CheckParents(g, accepted, rev, 0).Accepted? {
      BadParentExists(g, accepted, rev, |rev.Parents()|);
      var i :| FirstBadParent(g, accepted, rev, i);
      CheckStopsAt(g, accepted, rev, 0, i);
      assert forall k :: FirstBadParent(g, accepted, rev, k) ==> k == i;
    }
  }

  lemma {:induction false} BadParentExists(g: Graph, accepted: seq<Revision>, rev: Revision, n: nat)
    requires n <= |rev.Parents()|
    requires exists k :: 0 <= k < n && LookupParent(g, accepted, rev.Parents()[k]) != Some(rev.objectId)
    ensures exists i :: FirstBadParent(g, accepted, rev, i)
  {
    var k :| 0 <= k < n && LookupParent(g, accepted, rev.Parents()[k]) != Some(rev.objectId);
    if exists l :: 0 <= l < k && LookupParent(g, accepted, rev.Parents()[l]) != Some(rev.objectId) {
      BadParentExists(g, accepted, rev, k);
    } else {
      assert FirstBadParent(g, accepted, rev, k);
    }
  }

  /** `earlier[j]` is the last of `earlier` with id `p`. */
  ghost predicate IsLast(earlier: seq<Revision>, p: RevisionId, j: int) {
    0 <= j < |earlier| && earlier[j].id == p && forall l :: j < l < |earlier| ==> earlier[l].id != p
  }

  /** `p` is known in object `o`: by the last earlier revision with that id or else by the store. */
  ghost predicate KnownIn(g: Graph, earlier: seq<Revision>, o: ObjectId, p: RevisionId) {
    || (exists j :: IsLast(earlier, p, j) && earlier[j].objectId == o)
    || ((forall j :: 0 <= j < |earlier| ==> earlier[j].id != p) && p in g && g[p].objectId == o)
  }

  lemma {:induction false} ObjectOfIsLast(accepted: seq<Revision>, p: RevisionId)
    ensures ObjectOf(accepted, p).None? <==> forall j :: 0 <= j < |accepted| ==> accepted[j].id != p
    ensures forall o :: ObjectOf(accepted, p) == Some(o) <==>
              exists j :: IsLast(accepted, p, j) && accepted[j].objectId == o
  {
    if accepted != [] {
      var n := |accepted| - 1;
      var init := accepted[..n];
      ObjectOfIsLast(init, p);
      if accepted[n].id == p {
        assert IsLast(accepted, p, n);
      } else {
        assert forall j :: IsLast(accepted, p, j) <==> IsLast(init, p, j);
      }
    }
  }

  /** A parent lookup succeeds in `o` exactly if the parent is known there. */
  lemma LookupIsKnown(g: Graph, accepted: seq<Revision>, o: ObjectId, p: RevisionId)
    ensures LookupParent(g, accepted, p) == Some(o) <==> KnownIn(g, accepted, o, p)
  {
    ObjectOfIsLast(accepted, p);
  }

  lemma KnownIsGrounds(g: Graph, earlier: seq<Revision>, o: ObjectId, p: RevisionId)
    ensures KnownIn(g, earlier, o, p) ==> Grounds(g, earlier, o, p)
    ensures Distinct(earlier) && (forall rev :: rev in earlier ==> rev.id !in g) && Grounds(g, earlier, o, p) ==>
              KnownIn(g, earlier, o, p)
  {
    if Distinct(earlier) && (forall rev :: rev in earlier ==> rev.id !in g) {
      if j :| 0 <= j < |earlier| && earlier[j].id == p && earlier[j].objectId == o {
        assert IsLast(earlier, p, j);
      } else if p in g {
        assert forall j :: 0 <= j < |earlier| ==> earlier[j] in earlier;
      }
    }
  }

  /** What the protocol asks of one revision, on top of the store and the batch before it. */
  ghost predicate Acceptable(g: Graph, client: ClientId, earlier: seq<Revision>, rev: Revision) {
    && rev.createdBy == client
    && rev.id !in g
    && NoDuplicates(rev.Parents())
    && forall p :: p in rev.Parents() ==> KnownIn(g, earlier, rev.objectId, p)
  }

  lemma JudgeAccepts(g: Graph, accepted: seq<Revision>, client: ClientId, rev: Revision)
    ensures Judge(g, accepted, client, rev).Accepted? <==> Acceptable(g, client, accepted, rev)
  {
    hide KnownIn, LookupParent;
    CheckParentsAccepts(g, accepted, rev, 0);
    forall i | 0 <= i < |rev.Parents()|
      ensures LookupParent(g, accepted, rev.Parents()[i]) == Some(rev.objectId) <==>
              KnownIn(g, accepted, rev.objectId, rev.Parents()[i])
    {
      LookupIsKnown(g, accepted, rev.objectId, rev.Parents()[i]);
    }
  }

  lemma AcceptableGrounds(g: Graph, client: ClientId, earlier: seq<Revision>, rev: Revision)
    requires Acceptable(g, client, earlier, rev)
    ensures AllGround(g, earlier, rev)
  {
    hide KnownIn, Grounds;
    forall p | p in rev.Parents()
      ensures Grounds(g, earlier, rev.objectId, p)
    {
      KnownIsGrounds(g, earlier, rev.objectId, p);
    }
  }

  /** The accepted revisions of a batch without repeated ids are new and grounded. */
  ghost predicate Sound(g: Graph, batch: seq<Revision>, accepted: seq<Revision>) {
    && Distinct(accepted)
    && Grounded(g, accepted)
    && (forall rev :: rev in accepted ==> rev in batch && rev.id !in g && NoDuplicates(rev.Parents()))
  }

  lemma SoundStep(g: Graph, client: ClientId, init: seq<Revision>, accepted: seq<Revision>, last: Revision)
    requires Sound(g, init, accepted) && Distinct(init + [last])
    ensures Sound(g, init + [last], if Judge(g, accepted, client, last).Accepted? then accepted + [last] else accepted)
  {
    hide KnownIn, Grounds;
    JudgeAccepts(g, accepted, client, last);
    if Judge(g, accepted, client, last).Accepted? {
      AcceptableGrounds(g, client, accepted, last);
      DistinctSnoc(accepted, init, last);
      assert (accepted + [last])[..|accepted|] == accepted;
    }
  }

  lemma {:induction false} AcceptedAreSound(g: Graph, client: ClientId, batch: seq<Revision>)
    requires Distinct(batch)
    ensures Sound(g, batch, AcceptedOf(batch, JudgeAll(g, client, batch)))
  {
    if batch != [] {
      var init, last := batch[..|batch| - 1], batch[|batch| - 1];
      assert batch == init + [last];
      AcceptedAreSound(g, client, init);
      var vs := JudgeAll(g, client, init);
      JudgeSnoc(g, client, init, last);
      AcceptedSnoc(init, vs, last, Judge(g, AcceptedOf(init, vs), client, last));
      SoundStep(g, client, init, AcceptedOf(init, vs), last);
    }
  }

  /** A revision is accepted exactly if it is acceptable after the revisions accepted before it. */
  lemma {:induction false} VerdictsAreExact(g: Graph, client: ClientId, batch: seq<Revision>, i: nat)
    requires i < |batch|
    ensures JudgeAll(g, client, batch)[i].Accepted? <==>
            Acceptable(g, client, AcceptedOf(batch[..i], JudgeAll(g, client, batch[..i])), batch[i])
  {
    JudgedAt(g, client, batch, i);
    JudgeAccepts(g, AcceptedOf(batch[..i], JudgeAll(g, client, batch[..i])), client, batch[i]);
  }

  lemma DistinctInit(init: seq<Revision>, last: Revision)
    requires Distinct(init + [last])
    ensures Distinct(init)
  {
    assert forall i :: 0 <= i < |init| ==> (init + [last])[i] == init[i];
  }

  lemma DistinctSnoc(accepted: seq<Revision>, init: seq<Revision>, last: Revision)
    requires Distinct(accepted) && Distinct(init + [last])
    requires forall rev :: rev in accepted ==> rev in init
    ensures Distinct(accepted + [last])
  {
    forall i | 0 <= i < |accepted|
      ensures accepted[i].id != last.id
    {
      assert accepted[i] in init;
      var k :| 0 <= k < |init| && init[k] == accepted[i];
      assert (init + [last])[k] == init[k] && (init + [last])[|init|] == last;
    }
  }

  /** A batch is accepted in full iff every revision is acceptable after the ones before it. */
  ghost predicate WellFormedBatch(g: Graph, client: ClientId, batch: seq<Revision>) {
    forall i :: 0 <= i < |batch| ==> Acceptable(g, client, batch[..i], batch[i])
  }

  predicate AllYes(vs: seq<Verdict>) {
    forall i :: 0 <= i < |vs| ==> vs[i].Accepted?
  }

  lemma {:induction false} AllAccepted(batch: seq<Revision>, verdicts: seq<Verdict>)
    requires |verdicts| == |batch| && AllYes(verdicts)
    ensures AcceptedOf(batch, verdicts) == batch && RejectedOf(batch, verdicts) == []
  {
    if batch != [] {
      var n := |batch| - 1;
      AllAccepted(batch[..n], verdicts[..n]);
      assert batch == batch[..n] + [batch[n]] && verdicts == verdicts[..n] + [verdicts[n]];
      AcceptedSnoc(batch[..n], verdicts[..n], batch[n], verdicts[n]);
    }
  }

  lemma WellFormedSnoc(g: Graph, client: ClientId, init: seq<Revision>, last: Revision)
    ensures WellFormedBatch(g, client, init + [last]) <==>
            WellFormedBatch(g, client, init) && Acceptable(g, client, init, last)
  {
    var batch := init + [last];
    assert batch[..|init|] == init && batch[|init|] == last;
    assert forall i :: 0 <= i < |init| ==> batch[..i] == init[..i] && batch[i] == init[i];
  }

  /**
    Parent-before-child order is what full acceptance takes: all revisions are accepted if and
    only if each is acceptable on top of the store and all the revisions before it.
   */
  lemma {:induction false} FullAcceptance(g: Graph, client: ClientId, batch: seq<Revision>)
    ensures AllYes(JudgeAll(g, client, batch)) <==> WellFormedBatch(g, client, batch)
  {
    if batch != [] {
      var init, last := batch[..|batch| - 1], batch[|batch| - 1];
      assert batch == init + [last];
      FullAcceptance(g, client, init);
      WellFormedSnoc(g, client, init, last);
      FullStep(g, client, init, last);
    }
  }

  lemma FullStep(g: Graph, client: ClientId, init: seq<Revision>, last: Revision)
    ensures AllYes(JudgeAll(g, client, init + [last])) <==>
            AllYes(JudgeAll(g, client, init)) && Acceptable(g, client, init, last)
  {
    hide JudgeAll, Judge, AcceptedOf, Acceptable;
    var vs := JudgeAll(g, client, init);
    var v := Judge(g, AcceptedOf(init, vs), client, last);
    JudgeSnoc(g, client, init, last);
    if AllYes(vs) {
      AllAccepted(init, vs);
      JudgeAccepts(g, init, client, last);
      assert (vs + [v])[|vs|] == v;
    } else {
      var i :| 0 <= i < |vs| && !vs[i].Accepted?;
      assert (vs + [v])[i] == vs[i];
    }
  }

  // ---------------------------------------------------------------------------------------
  // Uninterrupted pushes

  lemma {:induction false} InsertAllSucceeds(s: Server, revs: seq<Revision>)
    requires Distinct(revs) && Grounded(s.revs, revs)
    requires forall rev :: rev in revs ==> rev.id !in s.revs && NoDuplicates(rev.Parents())
    ensures InsertAll(s, revs).Some?
  {
    if revs != [] {
      var init, last := revs[..|revs| - 1], revs[|revs| - 1];
      assert forall i :: 0 <= i < |init| ==> Ids(init)[i] == Ids(revs)[i];
      InsertAllSucceeds(s, init);
      InsertAllShape(s, init);
      var s1 := InsertAll(s, init).value;
      assert last.id !in s1.revs;
      forall p | p in last.Parents()
        ensures p in s1.revs
      {
        assert Grounds(s.revs, init, last.objectId, p);
        if j :| 0 <= j < |init| && init[j].id == p {
          assert init[j] in init;
        }
      }
    }
  }

  /** Validate and commit with no other commit in between. */
  function PushAll(s: Server, client: ClientId, batch: seq<Revision>): CommitResult {
    Commit(s, Validate(s.revs, Start(client, batch)))
  }

  function AcceptedIn(s: Server, client: ClientId, batch: seq<Revision>): seq<Revision> {
    Validate(s.revs, Start(client, batch)).AcceptedRevs()
  }

  lemma StartOk(g: Graph, client: ClientId, batch: seq<Revision>)
    ensures RunOk(g, Start(client, batch))
  {}

  lemma StoredIds(s: Server, s1: Server, revs: seq<Revision>)
    requires Stored(s, s1, revs)
    ensures forall r :: r in Ids(revs) ==> r in s1.revs
  {
    forall r | r in Ids(revs)
      ensures r in s1.revs
    {
      var i :| 0 <= i < |revs| && Ids(revs)[i] == r;
      assert revs[i] in revs;
    }
  }

  lemma EmptySelection(s: Server, run: PushRun)
    requires run.Valid() && run.Done() && run.AcceptedRevs() == []
    ensures Commit(s, run) == Committed(s, 0)
  {
    NothingSelected(run.batch);
  }

  /** `s` with `revs` inserted and listed by one new transaction. */
  function WithTransaction(s: Server, client: ClientId, revs: seq<Revision>): Server
    requires InsertAll(s, revs).Some?
  {
    if revs == [] then s
    else
      var s1 := InsertAll(s, revs).value;
      s1.(txns := s1.txns + [Txn(s1.sequence + 1, client, Ids(revs))], sequence := s1.sequence + 1)
  }

  /** Without repeated ids an uninterrupted push cannot fail. */
  lemma PushSucceeds(s: Server, client: ClientId, batch: seq<Revision>)
    requires ServerOk(s) && Distinct(batch)
    ensures var accepted := AcceptedIn(s, client, batch);
            && Sound(s.revs, batch, accepted)
            && InsertAll(s, accepted).Some?
            && PushAll(s, client, batch).Committed?
            && PushAll(s, client, batch).server == WithTransaction(s, client, accepted)
            && ServerOk(PushAll(s, client, batch).server)
  {
    var run := Validate(s.revs, Start(client, batch));
    ValidateIsJudge(s.revs, client, batch);
    AcceptedAreSound(s.revs, client, batch);
    StartOk(s.revs, client, batch);
    ValidateOk(s.revs, Start(client, batch));
    SoundCommits(s, run);
    CommitExact(s, run);
  }

  lemma SoundCommits(s: Server, run: PushRun)
    requires run.Valid() && run.Done() && Distinct(run.batch) && Sound(s.revs, run.batch, run.AcceptedRevs())
    ensures InsertAll(s, run.AcceptedRevs()).Some?
    ensures Commit(s, run).Committed? && Commit(s, run).server == WithTransaction(s, run.client, run.AcceptedRevs())
  {
    hide Select, AcceptedOf, Grounded, InsertAll, Stored, Commit, IdSet;
    var accepted := run.AcceptedRevs();
    InsertAllSucceeds(s, accepted);
    if accepted == [] {
      EmptySelection(s, run);
    } else {
      SelectedDistinct(run.batch, IdSet(accepted));
      SelectionIsExact(run);
      InsertAllShape(s, accepted);
      StoredIds(s, InsertAll(s, accepted).value, accepted);
      CommitSelected(s, run);
    }
  }

  lemma CommitSelected(s: Server, run: PushRun)
    requires run.Valid() && run.Done() && run.AcceptedRevs() != [] && Distinct(run.AcceptedRevs())
    requires Select(run.batch, IdSet(run.AcceptedRevs())) == run.AcceptedRevs()
    requires InsertAll(s, run.AcceptedRevs()).Some?
    requires forall r :: r in Ids(run.AcceptedRevs()) ==> r in InsertAll(s, run.AcceptedRevs()).value.revs
    ensures Commit(s, run).Committed? && Commit(s, run).server == WithTransaction(s, run.client, run.AcceptedRevs())
  {
    hide Select, AcceptedOf, InsertAll;
  }

  lemma {:induction false} SelectedDistinct(batch: seq<Revision>, ids: set<RevisionId>)
    requires Distinct(batch)
    ensures Distinct(Select(batch, ids))
    ensures forall rev :: rev in Select(batch, ids) ==> rev in batch
  {
    if batch != [] {
      var init, last := batch[..|batch| - 1], batch[|batch| - 1];
      SelectedDistinct(init, ids);
      assert init + [last] == batch;
      DistinctSnoc(Select(init, ids), init, last);
      if last.id !in ids {
        assert Select(batch, ids) == Select(init, ids);
      }
    }
  }

  lemma {:induction false} NoneAccepted(batch: seq<Revision>, verdicts: seq<Verdict>)
    requires |verdicts| <= |batch| && forall i :: 0 <= i < |verdicts| ==> verdicts[i].Rejected?
    ensures AcceptedOf(batch, verdicts) == []
  {
    if verdicts != [] {
      NoneAccepted(batch, verdicts[..|verdicts| - 1]);
    }
  }

  /**
    Under interleaving a commit fails for two reasons only: the selection by id repeats an id,
    or somebody else has stored an accepted id since it was looked up.
   */
  lemma CommitFailsExactly(s: Server, run: PushRun)
    requires RunOk(s.revs, run) && run.Done()
    ensures Commit(s, run) == Failed <==>
            || !Distinct(Select(run.batch, IdSet(run.AcceptedRevs())))
            || exists rev :: rev in run.AcceptedRevs() && rev.id in s.revs
  {
    hide AcceptedOf, Select, InsertAll, Grounded, Commit, IdSet, NoDuplicates, Stored;
    var accepted := run.AcceptedRevs();
    var selected := Select(run.batch, IdSet(accepted));
    if !Distinct(selected) {
      RepeatsFail(s, run);
    } else {
      SelectionIsExact(run);
      if rev :| rev in accepted && rev.id in s.revs {
        StoredFails(s, run, rev);
      } else if accepted == [] {
        EmptySelection(s, run);
      } else {
        InsertAllSucceeds(s, accepted);
        InsertAllShape(s, accepted);
        StoredIds(s, InsertAll(s, accepted).value, accepted);
        CommitSelected(s, run);
      }
    }
  }

  lemma RepeatsFail(s: Server, run: PushRun)
    requires run.Valid() && run.Done() && !Distinct(Select(run.batch, IdSet(run.AcceptedRevs())))
    ensures Commit(s, run) == Failed
  {
    hide AcceptedOf, Select, InsertAll, Stored;
    if InsertAll(s, Select(run.batch, IdSet(run.AcceptedRevs()))).Some? {
      InsertAllShape(s, Select(run.batch, IdSet(run.AcceptedRevs())));
    }
  }

  lemma StoredFails(s: Server, run: PushRun, rev: Revision)
    requires run.Valid() && run.Done() && Select(run.batch, IdSet(run.AcceptedRevs())) == run.AcceptedRevs()
    requires rev in run.AcceptedRevs() && rev.id in s.revs
    ensures Commit(s, run) == Failed
  {
    hide AcceptedOf, Select, InsertAll;
    if InsertAll(s, run.AcceptedRevs()).Some? {
      InsertAllShape(s, run.AcceptedRevs());
    }
  }

  /** Pushing again what is already stored accepts nothing: each own revision is a duplicate. */
  lemma RepushIsRejected(g: Graph, client: ClientId, batch: seq<Revision>)
    requires forall rev :: rev in batch ==> rev.id in g
    ensures AcceptedOf(batch, JudgeAll(g, client, batch)) == []
    ensures forall i :: 0 <= i < |batch| && batch[i].createdBy == client ==>
              JudgeAll(g, client, batch)[i] == Rejected(DuplicateRevisionId)
  {
    hide JudgeAll, AcceptedOf, CheckParents;
    var vs := JudgeAll(g, client, batch);
    forall i | 0 <= i < |batch|
      ensures vs[i] == Rejected(if batch[i].createdBy == client then DuplicateRevisionId else MalformedData)
    {
      JudgedAt(g, client, batch, i);
      assert batch[i] in batch;
    }
    NoneAccepted(batch, vs);
  }

  lemma RepushChangesNothing(s: Server, client: ClientId, batch: seq<Revision>)
    requires forall rev :: rev in batch ==> rev.id in s.revs
    ensures PushAll(s, client, batch) == Committed(s, 0)
  {
    ValidateIsJudge(s.revs, client, batch);
    RepushIsRejected(s.revs, client, batch);
    EmptySelection(s, Validate(s.revs, Start(client, batch)));
  }

  lemma {:induction false} NothingSelected(batch: seq<Revision>)
    ensures Select(batch, {}) == [] && IdSet([]) == {}
  {
    if batch != [] {
      NothingSelected(batch[..|batch| - 1]);
    }
  }

  // ---------------------------------------------------------------------------------------
  // Batching is transparent

  lemma {:induction false} ObjectOfConcat(a: seq<Revision>, b: seq<Revision>, id: RevisionId)
    ensures ObjectOf(a + b, id) == if ObjectOf(b, id).Some? then ObjectOf(b, id) else ObjectOf(a, id)
  {
    if b == [] {
      assert a + b == a;
    } else {
      assert (a + b)[..|a + b| - 1] == a + b[..|b| - 1];
      ObjectOfConcat(a, b[..|b| - 1], id);
    }
  }

  /** Looking a parent up in the store equals looking it up in the batch that was stored. */
  lemma LookupAfterStore(s: Server, s1: Server, a: seq<Revision>, b: seq<Revision>, p: RevisionId)
    requires Stored(s, s1, a) && Distinct(a)
    ensures LookupParent(s1.revs, b, p) == LookupParent(s.revs, a + b, p)
  {
    ObjectOfConcat(a, b, p);
    ObjectOfFound(a, p);
    if ObjectOf(b, p).None? {
      if p in Ids(a) {
        var i :| 0 <= i < |a| && Ids(a)[i] == p;
        assert a[i] in a;
        var j :| 0 <= j < |a| && a[j].id == p && a[j].objectId == ObjectOf(a, p).value;
        assert a[j] in a && s1.revs[p] == a[j];
      } else {
        assert forall j :: 0 <= j < |a| ==> Ids(a)[j] == a[j].id;
        assert ObjectOf(a, p).None?;
      }
    }
  }

  lemma {:induction false} ChecksAfterStore(s: Server, s1: Server, a: seq<Revision>, b: seq<Revision>, rev: Revision,
                                            j: nat)
    requires Stored(s, s1, a) && Distinct(a) && j <= |rev.Parents()|
    ensures CheckParents(s1.revs, b, rev, j) == CheckParents(s.revs, a + b, rev, j)
    decreases |rev.Parents()| - j
  {
    if j < |rev.Parents()| {
      LookupAfterStore(s, s1, a, b, rev.Parents()[j]);
      ChecksAfterStore(s, s1, a, b, rev, j + 1);
    }
  }

  lemma {:induction false} AcceptedConcat(a: seq<Revision>, va: seq<Verdict>, b: seq<Revision>, vb: seq<Verdict>)
    requires |va| == |a| && |vb| == |b|
    ensures AcceptedOf(a + b, va + vb) == AcceptedOf(a, va) + AcceptedOf(b, vb)
    ensures RejectedOf(a + b, va + vb) == RejectedOf(a, va) + RejectedOf(b, vb)
  {
    if b == [] {
      assert a + b == a && va + vb == va;
    } else {
      hide AcceptedOf, RejectedOf;
      var n := |b| - 1;
      var init, vs, rev, v := b[..n], vb[..n], b[n], vb[n];
      AcceptedConcat(a, va, init, vs);
      assert a + b == (a + init) + [rev] && va + vb == (va + vs) + [v];
      assert b == init + [rev] && vb == vs + [v];
      AcceptedSnoc(a + init, va + vs, rev, v);
      AcceptedSnoc(init, vs, rev, v);
      Assoc(AcceptedOf(a, va), AcceptedOf(init, vs), [rev]);
      if v.Rejected? {
        Assoc(RejectedOf(a, va), RejectedOf(init, vs), [RejectedRevision(rev.id, v.reason)]);
      }
    }
  }

  lemma Assoc<T>(x: seq<T>, y: seq<T>, z: seq<T>)
    ensures (x + y) + z == x + (y + z)
  {}

  /** An id of the rest of the batch is not among the revisions accepted from the prefix. */
  lemma NotStoredByPrefix(s: Server, s1: Server, a: seq<Revision>, accepted: seq<Revision>, rev: Revision)
    requires Stored(s, s1, accepted) && forall x :: x in accepted ==> x in a
    requires forall x :: x in a ==> x.id != rev.id
    ensures rev.id in s1.revs <==> rev.id in s.revs
  {}

  lemma JudgeAfterStore(s: Server, s1: Server, client: ClientId, a: seq<Revision>,
                        accA: seq<Revision>, accB: seq<Revision>, rev: Revision)
    requires Stored(s, s1, accA) && Distinct(accA) && forall x :: x in accA ==> x in a
    requires forall x :: x in a ==> x.id != rev.id
    ensures Judge(s1.revs, accB, client, rev) == Judge(s.revs, accA + accB, client, rev)
  {
    ChecksAfterStore(s, s1, accA, accB, rev, 0);
    NotStoredByPrefix(s, s1, a, accA, rev);
  }

  lemma LastIsOther(a: seq<Revision>, init: seq<Revision>, rev: Revision)
    requires Distinct((a + init) + [rev])
    ensures forall x :: x in a ==> x.id != rev.id
  {
    var all := (a + init) + [rev];
    assert all[|a| + |init|] == rev;
    assert forall i :: 0 <= i < |a| ==> all[i] == a[i];
  }

  lemma VerdictsConcatStep(s: Server, s1: Server, client: ClientId, a: seq<Revision>, init: seq<Revision>,
                           rev: Revision)
    requires Distinct((a + init) + [rev])
    requires var accA := AcceptedOf(a, JudgeAll(s.revs, client, a));
             Stored(s, s1, accA) && Distinct(accA) && forall x :: x in accA ==> x in a
    requires JudgeAll(s.revs, client, a + init) == JudgeAll(s.revs, client, a) + JudgeAll(s1.revs, client, init)
    ensures JudgeAll(s.revs, client, (a + init) + [rev]) ==
            JudgeAll(s.revs, client, a) + JudgeAll(s1.revs, client, init + [rev])
  {
    hide JudgeAll, Judge, AcceptedOf, Stored, Distinct;
    var va, vb := JudgeAll(s.revs, client, a), JudgeAll(s1.revs, client, init);
    LastIsOther(a, init, rev);
    AcceptedConcat(a, va, init, vb);
    JudgeSnoc(s.revs, client, a + init, rev);
    JudgeSnoc(s1.revs, client, init, rev);
    JudgeAfterStore(s, s1, client, a, AcceptedOf(a, va), AcceptedOf(init, vb), rev);
  }

  lemma {:induction false} VerdictsConcat(s: Server, s1: Server, client: ClientId, a: seq<Revision>, b: seq<Revision>)
    requires Distinct(a + b)
    requires var accA := AcceptedOf(a, JudgeAll(s.revs, client, a));
             Stored(s, s1, accA) && Distinct(accA) && forall x :: x in accA ==> x in a
    ensures JudgeAll(s.revs, client, a + b) == JudgeAll(s.revs, client, a) + JudgeAll(s1.revs, client, b)
    decreases |b|
  {
    if b == [] {
      assert a + b == a;
    } else {
      var init, rev := b[..|b| - 1], b[|b| - 1];
      assert a + b == (a + init) + [rev] && b == init + [rev];
      DistinctInit(a + init, rev);
      VerdictsConcat(s, s1, client, a, init);
      VerdictsConcatStep(s, s1, client, a, init, rev);
    }
  }

  lemma {:induction false} InsertAllConcat(s: Server, a: seq<Revision>, b: seq<Revision>)
    requires InsertAll(s, a).Some?
    ensures InsertAll(s, a + b) == InsertAll(InsertAll(s, a).value, b)
  {
    if b == [] {
      assert a + b == a;
    } else {
      assert (a + b)[..|a + b| - 1] == a + b[..|b| - 1];
      InsertAllConcat(s, a, b[..|b| - 1]);
    }
  }

  /** Inserts do not look at the transaction log. */
  lemma {:induction false} InsertAllFrame(s: Server, revs: seq<Revision>, txns: seq<Txn>, sequence: nat)
    ensures InsertAll(s.(txns := txns, sequence := sequence), revs) ==
            match InsertAll(s, revs)
            case None => None
            case Some(s') => Some(s'.(txns := txns, sequence := sequence))
  {
    if revs != [] {
      InsertAllFrame(s, revs[..|revs| - 1], txns, sequence);
    }
  }

  /** Two transactions insert what one transaction would. */
  lemma StoresAgree(s: Server, client: ClientId, a: seq<Revision>, b: seq<Revision>)
    requires InsertAll(s, a).Some? && InsertAll(s, a + b).Some?
    requires InsertAll(WithTransaction(s, client, a), b).Some?
    ensures var s2 := WithTransaction(WithTransaction(s, client, a), client, b);
            var s' := WithTransaction(s, client, a + b);
            s'.revs == s2.revs && s'.log == s2.log && s'.heads == s2.heads
  {
    hide InsertAll;
    var t, s1 := InsertAll(s, a).value, WithTransaction(s, client, a);
    InsertAllConcat(s, a, b);
    InsertNothing(s);
    assert s1 == t.(txns := s1.txns, sequence := s1.sequence);
    InsertAllFrame(t, b, s1.txns, s1.sequence);
    InsertNothing(s1);
  }

  lemma InsertNothing(s: Server)
    ensures InsertAll(s, []) == Some(s)
  {}

  lemma DistinctParts(a: seq<Revision>, b: seq<Revision>)
    requires Distinct(a + b)
    ensures Distinct(a) && Distinct(b)
  {
    assert forall i :: 0 <= i < |a| ==> a[i] == (a + b)[i];
    assert forall i :: 0 <= i < |b| ==> b[i] == (a + b)[|a| + i];
  }

  lemma ListsAgree(s: Server, client: ClientId, a: seq<Revision>, b: seq<Revision>)
    requires ServerOk(s) && Distinct(a + b) && PushAll(s, client, a).Committed?
    ensures var s1 := PushAll(s, client, a).server;
            var whole := Validate(s.revs, Start(client, a + b));
            var first := Validate(s.revs, Start(client, a));
            var second := Validate(s1.revs, Start(client, b));
            && whole.AcceptedRevs() == first.AcceptedRevs() + second.AcceptedRevs()
            && whole.RejectedRevs() == first.RejectedRevs() + second.RejectedRevs()
  {
    hide JudgeAll, InsertAll, Commit, AcceptedOf, RejectedOf, Validate, Stored, ServerOk, Distinct, Grounded;
    var s1 := PushAll(s, client, a).server;
    DistinctParts(a, b);
    PushSucceeds(s, client, a);
    ValidateIsJudge(s.revs, client, a);
    ValidateIsJudge(s.revs, client, a + b);
    ValidateIsJudge(s1.revs, client, b);
    InsertNothing(s);
    InsertAllShape(s, AcceptedIn(s, client, a));
    StoredSame(s, InsertAll(s, AcceptedIn(s, client, a)).value, s1, AcceptedIn(s, client, a));
    VerdictsConcat(s, s1, client, a, b);
    AcceptedConcat(a, JudgeAll(s.revs, client, a), b, JudgeAll(s1.revs, client, b));
  }

  /** Being stored does not depend on the transaction log. */
  lemma StoredSame(s: Server, s1: Server, s2: Server, revs: seq<Revision>)
    requires Stored(s, s1, revs) && s2.revs == s1.revs && s2.log == s1.log
    ensures Stored(s, s2, revs)
  {}

  /**
    Pushing a batch whole, or a prefix and then the rest, gives the same verdicts, the same
    accepted and rejected lists, the same revisions and the same heads.
   */
  lemma BatchingIsTransparent(s: Server, client: ClientId, a: seq<Revision>, b: seq<Revision>)
    requires ServerOk(s) && Distinct(a + b)
    ensures PushAll(s, client, a).Committed? && PushAll(s, client, a + b).Committed?
    ensures var s1 := PushAll(s, client, a).server;
            var whole := Validate(s.revs, Start(client, a + b));
            var first := Validate(s.revs, Start(client, a));
            var second := Validate(s1.revs, Start(client, b));
            && whole.AcceptedRevs() == first.AcceptedRevs() + second.AcceptedRevs()
            && whole.RejectedRevs() == first.RejectedRevs() + second.RejectedRevs()
            && PushAll(s1, client, b).Committed?
            && var s2, s' := PushAll(s1, client, b).server, PushAll(s, client, a + b).server;
               s'.revs == s2.revs && s'.log == s2.log && s'.heads == s2.heads
  {
    hide PushAll, InsertAll, AcceptedOf, RejectedOf, Validate, ServerOk, Distinct, WithTransaction, Sound;
    DistinctParts(a, b);
    PushSucceeds(s, client, a);
    PushSucceeds(s, client, a + b);
    PushSucceeds(PushAll(s, client, a).server, client, b);
    ListsAgree(s, client, a, b);
    StoresAgree(s, client, AcceptedIn(s, client, a), AcceptedIn(PushAll(s, client, a).server, client, b));
  }
}
