/**
  The whole system: one server and any number of clients that edit offline, push and pull.
  Every step of every party interleaves freely; requests and answers can be lost at any time.
 */
module Network {
  import opened Core
  import opened Dag
  import opened Push
  import ServerRuns
  import opened Codec
  import opened Pull
  import opened Filter
  import opened ClientModel

  /** How far a pull has come: what the server has read for it, or what the client has applied. */
  datatype PullCall =
    | Requested(client: ClientId, since: nat)
    | Marked(client: ClientId, since: nat, upTo: nat)
    | Listed(client: ClientId, since: nat, upTo: nat, objects: seq<ObjectId>)
    | WithHeads(client: ClientId, upTo: nat, objects: seq<ObjectId>, rows: HeadRows)
    | WithRows(client: ClientId, upTo: nat, objects: seq<ObjectId>, rows: HeadRows, byId: map<RevisionId, RevisionRow>)
    | Applying(client: ClientId, upTo: nat, updates: seq<ObjectUpdate>, applied: nat)

  /** `dag` records every revision any client ever created. */
  datatype State = State(
    dag: Graph,
    net: ServerRuns.State,
    clients: map<ClientId, Client>,
    pulls: map<nat, PullCall>)

  datatype Event =
    | Join(client: ClientId)
    | Reopen(client: ClientId)
    | Save(stamp: Stamp, objectId: ObjectId, objectType: string, data: Json)
    | Edit(stamp: Stamp, objectId: ObjectId, parent: RevisionId, content: Content)
    | Resolve(stamp: Stamp, objectId: ObjectId, parents: seq<RevisionId>, content: Content)
    | StartPush(client: ClientId, call: nat, batch: seq<Revision>)
    | ServerStep(event: ServerRuns.Event)
    | DeliverPush(call: nat, synced: nat, errors: nat)  // all statuses written, or a crash before
    | StartPull(client: ClientId, call: nat)
    | ReadWatermark(call: nat)
    | ReadChanged(call: nat, objects: seq<ObjectId>)
    | ReadHeads(call: nat, rows: HeadRows)
    | ReadRows(call: nat)
    | ReadParents(call: nat, parentRows: seq<ParentRow>, grouped: map<RevisionId, seq<RevisionId>>)
    | ApplyNext(call: nat)
    | FinishPull(call: nat)
    | DropPull(call: nat)

  const INITIAL := State(map[], ServerRuns.INITIAL, map[], map[])

  /** A client edit: recorded in the global graph, stored locally. */
  ghost function Create(s: State, client: ClientId, rev: Revision): State
    requires client in s.clients
  {
    s.(dag := s.dag[rev.id := rev], clients := s.clients[client := PutLocal(s.clients[client], rev)])
  }

  ghost function CreateIf(s: State, stamp: Stamp, r: Result<Revision>): State
    requires stamp.client in s.clients
  {
    if r.Ok? && stamp.id !in s.dag then Create(s, stamp.client, r.value) else s
  }

  ghost predicate FreshObject(g: Graph, o: ObjectId) {
    forall r :: r in g ==> g[r].objectId != o
  }

  /** The application resolves all conflicting heads at once, within the server's bound. */
  ghost predicate FullResolution(heads: HeadStore, o: ObjectId, parents: seq<RevisionId>) {
    |parents| <= MAX_PARENTS && forall h :: h in LocalHeads(heads, o) ==> h in parents
  }

  function CursorOf(c: Client): nat {
    match c.cursor case Some(k) => k case None => 0
  }

  ghost function Advance(s: State, k: nat, call: PullCall): State {
    s.(pulls := s.pulls[k := call])
  }

  ghost function Step(s: State, e: Event): State {
    match e
    case Join(c) =>
      if c in s.clients then s else s.(clients := s.clients[c := NEW_CLIENT])
    case Reopen(c) =>
      if c in s.clients then s.(clients := s.clients[c := s.clients[c].(cursor := None)]) else s
    case Save(stamp, o, t, data) =>
      if stamp.client in s.clients && FreshObject(s.dag, o)
      then CreateIf(s, stamp, Ok(NewObject(o, t, data, stamp))) else s
    case Edit(stamp, o, parent, content) =>
      if stamp.client in s.clients
      then CreateIf(s, stamp, EditRevision(s.clients[stamp.client].heads, o, parent, content, stamp)) else s
    case Resolve(stamp, o, parents, content) =>
      if stamp.client in s.clients && FullResolution(s.clients[stamp.client].heads, o, parents)
      then CreateIf(s, stamp, MergeRevision(s.clients[stamp.client].heads, o, parents, content, stamp)) else s
    case StartPush(c, k, batch) => PushPending(s, c, k, batch)
    case ServerStep(ev) =>
      if ev.Begin? then s else s.(net := ServerRuns.Step(s.net, ev))
    case DeliverPush(k, synced, errors) =>
      if CanDeliver(s, k, synced, errors) then Delivered(s, k, synced, errors) else s
    case StartPull(c, k) => Request(s, c, k)
    case ReadWatermark(k) => Watermark(s, k)
    case ReadChanged(k, objects) => ListChanges(s, k, objects)
    case ReadHeads(k, rows) => FetchHeads(s, k, rows)
    case ReadRows(k) => FetchRows(s, k)
    case ReadParents(k, prows, m) => FetchParents(s, k, prows, m)
    case ApplyNext(k) =>
      if k in s.pulls && s.pulls[k].Applying? && s.pulls[k].applied < |s.pulls[k].updates|
         && s.pulls[k].client in s.clients
      then Applied(s, k) else s
    case FinishPull(k) => StoreCursor(s, k)
    case DropPull(k) => s.(pulls := s.pulls - {k})
  }

  /** Push everything pending, in the order of the status index. */
  ghost function PushPending(s: State, c: ClientId, k: nat, batch: seq<Revision>): State {
    if c in s.clients && batch != [] && PendingBatch(s.clients[c].records, batch)
    then s.(net := ServerRuns.Step(s.net, ServerRuns.Begin(k, c, batch))) else s
  }

  /** A pull asks for everything after the stored cursor, unfiltered. */
  ghost function Request(s: State, c: ClientId, k: nat): State {
    if c in s.clients && k !in s.pulls then Advance(s, k, Requested(c, CursorOf(s.clients[c]))) else s
  }

  ghost function Watermark(s: State, k: nat): State {
    if k in s.pulls && s.pulls[k].Requested?
    then Advance(s, k, Marked(s.pulls[k].client, s.pulls[k].since, MaxId(s.net.server.txns))) else s
  }

  ghost function ListChanges(s: State, k: nat, objects: seq<ObjectId>): State {
    if k in s.pulls && s.pulls[k].Marked?
       && Lists(Changed(s.net.server, s.pulls[k].client, s.pulls[k].since, s.pulls[k].upTo), objects)
    then Advance(s, k, Listed(s.pulls[k].client, s.pulls[k].since, s.pulls[k].upTo, objects)) else s
  }

  ghost function FetchHeads(s: State, k: nat, rows: HeadRows): State {
    if k in s.pulls && s.pulls[k].Listed? && Lists(HeadsIn(s.net.server.heads, s.pulls[k].objects), rows)
    then Advance(s, k, WithHeads(s.pulls[k].client, s.pulls[k].upTo, s.pulls[k].objects, rows)) else s
  }

  ghost function FetchRows(s: State, k: nat): State {
    if k in s.pulls && s.pulls[k].WithHeads?
    then Advance(s, k, WithRows(s.pulls[k].client, s.pulls[k].upTo, s.pulls[k].objects, s.pulls[k].rows,
                                RowsAt(s.net.server.revs, RevIds(s.pulls[k].rows)))) else s
  }

  ghost function FetchParents(s: State, k: nat, prows: seq<ParentRow>, m: map<RevisionId, seq<RevisionId>>): State {
    if k in s.pulls && s.pulls[k].WithRows?
       && BatchQuery(ParentTable(s.net.server.revs), RevIds(s.pulls[k].rows), prows) && Groups(m, prows)
    then Advance(s, k, Applying(s.pulls[k].client, s.pulls[k].upTo,
                                RowUpdates(s.pulls[k].objects, s.pulls[k].rows, s.pulls[k].byId, m, NO_FILTER), 0))
    else s
  }

  /** After the last object update the cursor moves to the answer's watermark. */
  ghost function StoreCursor(s: State, k: nat): State {
    if k in s.pulls && s.pulls[k].Applying? && s.pulls[k].applied == |s.pulls[k].updates|
       && s.pulls[k].client in s.clients
    then var c := s.pulls[k].client;
         s.(clients := s.clients[c := s.clients[c].(cursor := Some(s.pulls[k].upTo))], pulls := s.pulls - {k}) else s
  }

  ghost predicate CanDeliver(s: State, k: nat, synced: nat, errors: nat) {
    && k in s.net.calls && s.net.calls[k].Answered? && s.net.calls[k].run.Valid()
    && s.net.calls[k].run.client in s.clients
    && synced <= |s.net.calls[k].run.AcceptedRevs()| && errors <= |s.net.calls[k].run.RejectedRevs()|
  }

  /** The client marks the records of an answered push, or only the first ones if it is stopped. */
  ghost function Delivered(s: State, k: nat, synced: nat, errors: nat): State
    requires CanDeliver(s, k, synced, errors)
  {
    var run := s.net.calls[k].run;
    var c := s.clients[run.client];
    var records := ApplyPushAnswer(c.records, Ids(run.AcceptedRevs())[..synced], run.RejectedRevs()[..errors]);
    s.(net := ServerRuns.Step(s.net, ServerRuns.Forget(k)), clients := s.clients[run.client := c.(records := records)])
  }

  /** The client marks all of them. */
  ghost function DeliveredFully(s: State, k: nat): State
    requires CanDeliver(s, k, 0, 0)
  {
    Delivered(s, k, |s.net.calls[k].run.AcceptedRevs()|, |s.net.calls[k].run.RejectedRevs()|)
  }

  /** The client applies the next object update of a pull answer. */
  ghost function Applied(s: State, k: nat): State
    requires k in s.pulls && s.pulls[k].Applying? && s.pulls[k].applied < |s.pulls[k].updates|
             && s.pulls[k].client in s.clients
  {
    var p := s.pulls[k];
    s.(clients := s.clients[p.client := ApplyUpdate(s.clients[p.client], p.updates[p.applied])],
       pulls := s.pulls[k := p.(applied := p.applied + 1)])
  }

  ghost function After(events: seq<Event>): State {
    if events == [] then INITIAL else Step(After(events[..|events| - 1]), events[|events| - 1])
  }

  lemma AfterSnoc(events: seq<Event>, e: Event)
    ensures After(events + [e]) == Step(After(events), e)
  {
    hide Step;
    assert (events + [e])[..|events|] == events;
  }

  // ---------------------------------------------------------------------------------------
  // Invariant

  ghost predicate DagOk(g: Graph) {
    Keyed(g) && Closed(g) && Small(g)
  }

  /** `r` is an ancestor-or-equal of a local head of its object. */
  ghost predicate Kept(g: Graph, c: Client, r: RevisionId) {
    r in g && Covered(g, r, LocalHeads(c.heads, g[r].objectId))
  }

  /** Everything in transactions up to `k` is kept by the client. */
  ghost predicate Caught(g: Graph, s: Server, c: Client, k: nat) {
    k <= s.sequence && forall r :: InWindow(s.txns, 0, k, r) ==> Kept(g, c, r)
  }

  ghost predicate RecordsOk(g: Graph, s: Server, me: ClientId, records: Records) {
    forall r :: r in records ==>
      && r in g && records[r].rev == g[r]
      && (records[r].status == Synced ==> r in s.revs)
      && (records[r].status == Pending ==> g[r].createdBy == me)
  }

  ghost predicate HeadsOk(g: Graph, heads: HeadStore) {
    forall k :: k in heads ==> k.1 in g && g[k.1].objectId == k.0 && heads[k] == HeadRecordOf(k.0, g[k.1])
  }

  /** Nothing the client ever created is lost to it. */
  ghost predicate OwnOk(g: Graph, me: ClientId, c: Client) {
    forall r :: r in g && g[r].createdBy == me ==> r in c.records && Kept(g, c, r)
  }

  ghost predicate ClientOk(g: Graph, s: Server, me: ClientId, c: Client) {
    && RecordsOk(g, s, me, c.records)
    && HeadsOk(g, c.heads)
    && OwnOk(g, me, c)
    && Caught(g, s, c, CursorOf(c))
  }

  /** `r` will be kept once the heads in `rows` have been applied. */
  ghost predicate OwedBy(g: Graph, objects: seq<ObjectId>, rows: HeadRows, r: RevisionId) {
    r in g && g[r].objectId in objects && exists h :: (g[r].objectId, h) in rows && Ancestor(g, r, h)
  }

  /** `r` will be kept once the updates from index `from` on have been applied. */
  ghost predicate Owed(g: Graph, updates: seq<ObjectUpdate>, from: nat, r: RevisionId) {
    r in g && exists i :: from <= i < |updates| && updates[i].objectId == g[r].objectId
                          && CoveredByUpdate(g, r, updates[i])
  }

  ghost predicate CoveredByUpdate(g: Graph, r: RevisionId, u: ObjectUpdate) {
    exists rev :: rev in u.heads && Ancestor(g, r, rev.id)
  }

  ghost predicate HeadRowsOk(s: Server, rows: HeadRows) {
    OnceEach(rows) && forall i :: 0 <= i < |rows| ==> rows[i].1 in s.revs && s.revs[rows[i].1].objectId == rows[i].0
  }

  ghost predicate KeptOrOwed(g: Graph, s: Server, c: Client, upTo: nat, objects: seq<ObjectId>, rows: HeadRows) {
    upTo <= s.sequence && forall r :: InWindow(s.txns, 0, upTo, r) ==> Kept(g, c, r) || OwedBy(g, objects, rows, r)
  }

  ghost predicate KeptOrComing(g: Graph, s: Server, c: Client, upTo: nat, updates: seq<ObjectUpdate>, from: nat) {
    upTo <= s.sequence && forall r :: InWindow(s.txns, 0, upTo, r) ==> Kept(g, c, r) || Owed(g, updates, from, r)
  }

  ghost predicate ListsChanges(s: Server, me: ClientId, since: nat, upTo: nat, objects: seq<ObjectId>) {
    forall r :: r in s.revs && InWindow(s.txns, since, upTo, r) && s.revs[r].createdBy != me ==>
      s.revs[r].objectId in objects
  }

  ghost predicate EncodesRows(s: Server, rows: HeadRows, byId: map<RevisionId, RevisionRow>) {
    forall i :: 0 <= i < |rows| ==>
      rows[i].1 in s.revs && rows[i].1 in byId && byId[rows[i].1] == EncodeRow(s.revs[rows[i].1])
  }

  ghost predicate PullOk(g: Graph, s: Server, c: Client, call: PullCall) {
    match call
    case Requested(_, since) => Caught(g, s, c, since)
    case Marked(_, since, upTo) => Caught(g, s, c, since) && upTo <= s.sequence
    case Listed(me, since, upTo, objects) =>
      Caught(g, s, c, since) && upTo <= s.sequence && NoDuplicates(objects) && ListsChanges(s, me, since, upTo, objects)
    case WithHeads(_, upTo, objects, rows) =>
      NoDuplicates(objects) && HeadRowsOk(s, rows) && KeptOrOwed(g, s, c, upTo, objects, rows)
    case WithRows(_, upTo, objects, rows, byId) =>
      NoDuplicates(objects) && HeadRowsOk(s, rows) && KeptOrOwed(g, s, c, upTo, objects, rows)
      && EncodesRows(s, rows, byId)
    case Applying(_, upTo, updates, applied) =>
      AnswerOf(s.revs, updates) && KeptOrComing(g, s, c, upTo, updates, applied)
  }

  /** Pushed batches consist of the pusher's own revisions as they were created. */
  ghost predicate BatchOk(g: Graph, me: ClientId, batch: seq<Revision>) {
    Distinct(batch) && forall rev :: rev in batch ==> rev.id in g && g[rev.id] == rev && rev.createdBy == me
  }

  ghost predicate Inv(s: State) {
    && DagOk(s.dag)
    && ServerRuns.Inv(s.net)
    && Sub(s.net.server.revs, s.dag)
    && (forall r :: r in s.dag ==> s.dag[r].createdBy in s.clients)
    && (forall k :: k in s.net.calls ==> BatchOk(s.dag, s.net.calls[k].run.client, s.net.calls[k].run.batch))
    && (forall c :: c in s.clients ==> ClientOk(s.dag, s.net.server, c, s.clients[c]))
    && (forall k :: k in s.pulls ==>
          s.pulls[k].client in s.clients && PullOk(s.dag, s.net.server, s.clients[s.pulls[k].client], s.pulls[k]))
  }
}
