/**
  The shared vocabulary of client and server: identifiers, revisions, lineage and the
  push/pull protocol records.  UUIDs are natural numbers, so that they keep the order in
  which the databases on both sides sort them.
 */
module Core {

  type RevisionId = nat
  type ObjectId = nat
  type ClientId = nat

  datatype Option<+T> = None | Some(value: T)

  /** A JSON number keeps its exact token apart from the rank of its f64 approximation. */
  datatype Json =
    | Null
    | Bool(b: bool)
    | Number(token: int, rank: int)
    | String(s: string)
    | Array(items: seq<Json>)
    | Object(fields: map<string, Json>)

  datatype Content = Active(data: Json) | Deleted

  datatype Lineage =
    | Root
    | Update(parent: RevisionId)
    | Merge(first: RevisionId, second: RevisionId, rest: seq<RevisionId>)
  {
    function Parents(): (ps: seq<RevisionId>)
      ensures |ps| == match this case Root => 0 case Update(_) => 1 case Merge(_, _, rest) => 2 + |rest|
    {
      match this
      case Root => []
      case Update(p) => [p]
      case Merge(a, b, rest) => [a, b] + rest
    }

    /** The lineage the server rebuilds from an ordered parent list. */
    static function FromParents(ps: seq<RevisionId>): (l: Lineage)
      ensures l.Parents() == ps
    {
      if |ps| == 0 then Root
      else if |ps| == 1 then Update(ps[0])
      else Merge(ps[0], ps[1], ps[2..])
    }
  }

  /** A lineage is determined by its parent list. */
  lemma LineageRoundTrip(l: Lineage)
    ensures Lineage.FromParents(l.Parents()) == l
  {
    if l.Merge? {
      assert l.Parents()[2..] == l.rest;
    }
  }

  datatype Revision = Revision(
    id: RevisionId,
    objectId: ObjectId,
    objectType: string,
    lineage: Lineage,
    createdAt: int,
    createdBy: ClientId,
    content: Content)
  {
    function Parents(): seq<RevisionId> { lineage.Parents() }
  }

  datatype Reason = DuplicateRevisionId | UnknownParent | MalformedData

  datatype RejectedRevision = RejectedRevision(revisionId: RevisionId, reason: Reason)

  datatype PushResponse = PushResponse(
    transactionId: nat,
    accepted: seq<RevisionId>,
    rejected: seq<RejectedRevision>)

  datatype HeadAction = Replace | Conflict

  datatype ObjectUpdate = ObjectUpdate(objectId: ObjectId, action: HeadAction, heads: seq<Revision>)

  predicate NoDuplicates<T(==)>(s: seq<T>) {
    forall i, j :: 0 <= i < j < |s| ==> s[i] != s[j]
  }

  /** No id occurs twice. */
  predicate Distinct(revs: seq<Revision>) {
    forall i, j :: 0 <= i < j < |revs| ==> revs[i].id != revs[j].id
  }

  function Ids(revs: seq<Revision>): (ids: seq<RevisionId>)
    ensures |ids| == |revs| && forall i :: 0 <= i < |revs| ==> ids[i] == revs[i].id
  {
    seq(|revs|, i requires 0 <= i < |revs| => revs[i].id)
  }
}
