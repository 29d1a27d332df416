/** The collaborative document store (packages/pipeline-control/service.ts): what one write does,
    first as a function of the stored state, then as the code that carries it out. */
module PipelineStore {
  import opened Wrappers
  import opened PipelineModel
  import opened Inspection
  import opened Collaboration
  import opened Documents

  /* ---------- stored state ---------- */

  datatype Record = Record(document: Document, graphRevision: nat, layoutRevision: nat, updatedAt: nat, updatedBy: Id)

  datatype Kind = CreateKind | SaveKind | PatchKind | LayoutKind | UndoKind | RedoKind

  datatype Entry = Entry(id: Id, kind: Kind, actor: Id, graphRevision: nat, layoutRevision: nat,
                         before: Option<Record>, undone: bool)

  datatype RedoEntry = RedoEntry(actor: Id, document: Document, undoneDocument: Document, target: Id)

  /** Everything stored about one pipeline. */
  datatype Pipeline = Pipeline(record: Record, history: seq<Entry>, redo: seq<RedoEntry>)

  datatype Key = Key(workspace: Id, pipeline: Id)

  datatype ReceiptKey = ReceiptKey(actor: Id, workspace: Id, idempotencyKey: Id)

  /** The command itself stands for its canonical fingerprint. */
  datatype Receipt = Receipt(command: Command, result: Record)

  datatype Database = Database(pipelines: map<Key, Pipeline>, receipts: map<ReceiptKey, Receipt>)

  datatype StoreError =
    | RevisionMismatch | InvalidPipeline | NotFound | AlreadyExists | IdentityMismatch | IdempotencyConflict
    | StoreLimit | NothingToUndo | NothingToRedo | DuplicateId | UnknownEdge | UnknownNodeId

  /* ---------- commands ---------- */

  datatype Edit =
    | Rename(name: string)
    | AddNode(node: Node, position: Option<Position>)
    | Connect(edge: Edge)
    | Disconnect(edgeId: Id)
    | RemoveNode(nodeId: Id)
    | UpdateNode(target: Id, title: Option<string>, config: Option<Config>, binding: Option<Option<Binding>>)

  datatype Command =
    | Create(document: Document)
    | Save(pipeline: Id, graphRevision: nat, layoutRevision: nat, graph: Option<Graph>, layout: Option<Layout>, mergeIndependent: bool)
    | Patch(pipeline: Id, graphRevision: nat, layoutRevision: nat, edits: seq<Edit>)
    | Arrange(pipeline: Id, graphRevision: nat, layoutRevision: nat, scope: Option<seq<Id>>)
    | Undo(pipeline: Id, graphRevision: nat, layoutRevision: nat)
    | Redo(pipeline: Id, graphRevision: nat, layoutRevision: nat)

  datatype Request = Request(actor: Id, workspace: Id, idempotencyKey: Id, requestId: Id, command: Command)

  function KindOf(c: Command): Kind {
    match c
    case Create(_) => CreateKind
    case Save(_, _, _, _, _, _) => SaveKind
    case Patch(_, _, _, _) => PatchKind
    case Arrange(_, _, _, _) => LayoutKind
    case Undo(_, _, _) => UndoKind
    case Redo(_, _, _) => RedoKind
  }

  predicate IsEdit(k: Kind) {
    k != UndoKind && k != RedoKind
  }

  function PipelineId(c: Command): Id {
    if c.Create? then c.document.graph.id else c.pipeline
  }

  function TargetKey(r: Request): Key {
    Key(r.workspace, PipelineId(r.command))
  }

  /* ---------- edits ---------- */

  function WithoutEdge(edges: seq<Edge>, id: Id): seq<Edge> {
    if edges == [] then []
    else if edges[0].id == id then WithoutEdge(edges[1..], id)
    else [edges[0]] + WithoutEdge(edges[1..], id)
  }

  function WithoutIncident(edges: seq<Edge>, id: Id): seq<Edge> {
    if edges == [] then []
    else if edges[0].from.node == id || edges[0].to.node == id then WithoutIncident(edges[1..], id)
    else [edges[0]] + WithoutIncident(edges[1..], id)
  }

  function ApplyEdit(d: Document, edit: Edit): Result<Document, StoreError> {
    var g := d.graph;
    match edit
    case Rename(name) => Success(d.(graph := g.(name := name)))
    case AddNode(node, position) =>
      if FindNode(g.nodes, node.id).Some? then Failure(DuplicateId)
      else
        var nodes := g.nodes + [node];
        var place := if position.Some? then position.value else Position(40.0, 80.0 + |nodes| as real * 180.0, None);
        Success(Document(g.(nodes := nodes), d.layout[node.id := place]))
    case Connect(edge) => Success(d.(graph := g.(edges := g.edges + [edge])))
    case Disconnect(edgeId) =>
      if exists e :: e in g.edges && e.id == edgeId then Success(d.(graph := g.(edges := WithoutEdge(g.edges, edgeId))))
      else Failure(UnknownEdge)
    case RemoveNode(id) =>
      if FindNode(g.nodes, id).None? then Failure(UnknownNodeId)
      else Success(Document(g.(nodes := WithoutNode(g.nodes, id), edges := WithoutIncident(g.edges, id)), d.layout - {id}))
    case UpdateNode(id, title, config, binding) =>
      match FindNode(g.nodes, id)
      case None => Failure(UnknownNodeId)
      case Some(n) =>
        var named := if title.Some? then n.(title := title.value) else n;
        var configured := if config.Some? then named.(config := named.config + config.value) else named;
        var bound := if binding.Some? then configured.(binding := binding.value) else configured;
        Success(d.(graph := g.(nodes := ReplaceOrAppend(g.nodes, bound))))
  }

  function ApplyEdits(d: Document, edits: seq<Edit>): Result<Document, StoreError>
    decreases |edits|
  {
    if edits == [] then Success(d)
    else
      match ApplyEdit(d, edits[0])
      case Failure(e) => Failure(e)
      case Success(next) => ApplyEdits(next, edits[1..])
  }

  predicate ChangesTopology(edits: seq<Edit>) {
    exists e :: e in edits && (e.AddNode? || e.RemoveNode?)
  }

  /* ---------- one command on one pipeline ---------- */

  /** The new document, with the history flags and the redo stack as undo or redo leave them. */
  datatype Change = Change(document: Document, history: seq<Entry>, redo: seq<RedoEntry>)

  predicate RevisionsMatch(r: Record, c: Command, graph: bool, layout: bool)
    requires !c.Create?
  {
    (graph ==> r.graphRevision == c.graphRevision) && (layout ==> r.layoutRevision == c.layoutRevision)
  }

  /** The newest own edit that is not undone, or -1. */
  function LastOwnEdit(history: seq<Entry>, actor: Id): (i: int)
    ensures -1 <= i < |history|
  {
    if history == [] then -1
    else
      var last := history[|history| - 1];
      if last.actor == actor && !last.undone && IsEdit(last.kind) then |history| - 1
      else LastOwnEdit(history[..|history| - 1], actor)
  }

  /** The newest own redo entry, or -1. */
  function LastOwnRedo(redo: seq<RedoEntry>, actor: Id): (i: int)
    ensures -1 <= i < |redo|
  {
    if redo == [] then -1
    else if redo[|redo| - 1].actor == actor then |redo| - 1
    else LastOwnRedo(redo[..|redo| - 1], actor)
  }

  function OwnRedoCount(redo: seq<RedoEntry>, actor: Id): nat {
    if redo == [] then 0
    else OwnRedoCount(redo[..|redo| - 1], actor) + (if redo[|redo| - 1].actor == actor then 1 else 0)
  }

  function WithoutFirstOwn(redo: seq<RedoEntry>, actor: Id): seq<RedoEntry> {
    if redo == [] then []
    else if redo[0].actor == actor then redo[1..]
    else [redo[0]] + WithoutFirstOwn(redo[1..], actor)
  }

  const REDO_LIMIT := 50

  /** Pushes onto the actor's redo stack, dropping its oldest entry when it is full. */
  function PushRedo(redo: seq<RedoEntry>, entry: RedoEntry): seq<RedoEntry> {
    (if OwnRedoCount(redo, entry.actor) >= REDO_LIMIT then WithoutFirstOwn(redo, entry.actor) else redo) + [entry]
  }

  /** The document as the history entry left it. */
  function After(p: Pipeline, i: nat): Document
    requires i < |p.history|
  {
    if i + 1 < |p.history| && p.history[i + 1].before.Some? then p.history[i + 1].before.value.document else p.record.document
  }

  ghost predicate IsOnly(history: seq<Entry>, id: Id, k: int) {
    && 0 <= k < |history| && history[k].id == id
    && forall j :: 0 <= j < |history| && history[j].id == id ==> j == k
  }

  /** The only entry with this id, or -1 when there is none or more than one. */
  ghost function OnlyEntry(history: seq<Entry>, id: Id): (i: int)
    ensures -1 <= i < |history|
    ensures i >= 0 ==> IsOnly(history, id, i)
    ensures forall k :: IsOnly(history, id, k) ==> i == k
  {
    if exists k :: IsOnly(history, id, k) then
      var k :| IsOnly(history, id, k);
      k
    else -1
  }

  function Baseline(history: seq<Entry>, graphRevision: nat): Option<Record> {
    if history == [] then None
    else
      var before := history[|history| - 1].before;
      if before.Some? && before.value.graphRevision == graphRevision then before
      else Baseline(history[..|history| - 1], graphRevision)
  }

  ghost function Validated(catalog: Catalog, d: Document): Result<Document, StoreError> {
    if Acceptable(catalog, d) then Success(d) else Failure(InvalidPipeline)
  }

  /** Applies only the difference between two snapshots to the current document. */
  ghost function MergeDocumentChange(catalog: Catalog, base: Document, incoming: Document, current: Document): Result<Document, StoreError> {
    match MergeDocuments(false, base, incoming, current)
    case None => Failure(RevisionMismatch)
    case Some(d) => Validated(catalog, d)
  }

  ghost function SavedGraph(p: Pipeline, c: Command): Result<Graph, StoreError>
    requires c.Save?
  {
    if c.graph.Some? && c.mergeIndependent && p.record.graphRevision != c.graphRevision then
      match Baseline(p.history, c.graphRevision)
      case None => Failure(RevisionMismatch)
      case Some(baseline) =>
        var merged := Merge(baseline.document.graph, c.graph.value, p.record.document.graph);
        if merged.Failure? || !RevisionsMatch(p.record, c, false, c.layout.Some?) then Failure(RevisionMismatch)
        else Success(merged.value)
    else if !RevisionsMatch(p.record, c, c.graph.Some?, c.layout.Some?) then Failure(RevisionMismatch)
    else Success(if c.graph.Some? then c.graph.value else p.record.document.graph)
  }

  ghost function SavedDocument(catalog: Catalog, p: Pipeline, c: Command): Result<Document, StoreError>
    requires c.Save?
  {
    match SavedGraph(p, c)
    case Failure(e) => Failure(e)
    case Success(graph) =>
      if c.graph.Some? && c.graph.value.id != p.record.document.graph.id then Failure(IdentityMismatch)
      else Validated(catalog, Document(graph, if c.layout.Some? then c.layout.value else p.record.document.layout))
  }

  ghost function Patched(catalog: Catalog, p: Pipeline, c: Command): Result<Document, StoreError>
    requires c.Patch?
  {
    if !RevisionsMatch(p.record, c, true, ChangesTopology(c.edits)) then Failure(RevisionMismatch)
    else
      match ApplyEdits(p.record.document, c.edits)
      case Failure(e) => Failure(e)
      case Success(d) => Validated(catalog, d)
  }

  ghost function Undone(catalog: Catalog, p: Pipeline, actor: Id): Result<Change, StoreError> {
    var i := LastOwnEdit(p.history, actor);
    if i < 0 || p.history[i].before.None? then Failure(NothingToUndo)
    else
      match MergeDocumentChange(catalog, After(p, i), p.history[i].before.value.document, p.record.document)
      case Failure(e) => Failure(e)
      case Success(d) =>
        Success(Change(d, p.history[i := p.history[i].(undone := true)],
                       PushRedo(p.redo, RedoEntry(actor, p.record.document, d, p.history[i].id))))
  }

  ghost function Redone(catalog: Catalog, p: Pipeline, actor: Id): Result<Change, StoreError> {
    var index := LastOwnRedo(p.redo, actor);
    if index < 0 then Failure(NothingToRedo)
    else
      var redo := p.redo[index];
      var t := OnlyEntry(p.history, redo.target);
      if t < 0 || !p.history[t].undone || p.history[t].actor != actor then Failure(NothingToRedo)
      else
        match MergeDocumentChange(catalog, redo.undoneDocument, redo.document, p.record.document)
        case Failure(e) => Failure(e)
        case Success(d) =>
          Success(Change(d, p.history[t := p.history[t].(undone := false)], p.redo[..index] + p.redo[index + 1..]))
  }

  /** The effect of a command on an existing pipeline; `arranged` is the layout computed before the transaction. */
  ghost function Changed(catalog: Catalog, p: Pipeline, actor: Id, c: Command, arranged: Document): Result<Change, StoreError>
    requires !c.Create?
  {
    match c
    case Save(_, _, _, _, _, _) => Edited(p, SavedDocument(catalog, p, c))
    case Patch(_, _, _, _) => Edited(p, Patched(catalog, p, c))
    case Arrange(_, _, _, _) =>
      if RevisionsMatch(p.record, c, true, true) then Edited(p, Success(arranged)) else Failure(RevisionMismatch)
    case Undo(_, _, _) =>
      if RevisionsMatch(p.record, c, true, true) then Undone(catalog, p, actor) else Failure(RevisionMismatch)
    case Redo(_, _, _) =>
      if RevisionsMatch(p.record, c, true, true) then Redone(catalog, p, actor) else Failure(RevisionMismatch)
  }

  function Edited(p: Pipeline, d: Result<Document, StoreError>): Result<Change, StoreError> {
    match d
    case Failure(e) => Failure(e)
    case Success(document) => Success(Change(document, p.history, p.redo))
  }

  /** Each half of the document has its own revision number. */
  function NextRecord(r: Record, d: Document, actor: Id, now: nat): Record {
    Record(d,
           r.graphRevision + (if r.document.graph != d.graph then 1 else 0),
           r.layoutRevision + (if r.document.layout != d.layout then 1 else 0),
           now, actor)
  }

  /** An effective edit empties the redo stack; every effective write is recorded with the record it replaced. */
  function Committed(p: Pipeline, change: Change, kind: Kind, requestId: Id, actor: Id, now: nat): Pipeline {
    var record := NextRecord(p.record, change.document, actor, now);
    if p.record.document == change.document then Pipeline(record, change.history, change.redo)
    else
      Pipeline(record,
               change.history + [Entry(requestId, kind, actor, record.graphRevision, record.layoutRevision, Some(p.record), false)],
               if IsEdit(kind) then [] else change.redo)
  }

  function Created(d: Document, requestId: Id, actor: Id, now: nat): Pipeline {
    Pipeline(Record(d, 1, 1, now, actor), [Entry(requestId, CreateKind, actor, 1, 1, None, false)], [])
  }

  /** One command on the stored state of its pipeline, if any. */
  ghost function Written(catalog: Catalog, stored: Option<Pipeline>, r: Request, arranged: Document, now: nat): Result<Pipeline, StoreError> {
    if r.command.Create? then
      match Validated(catalog, r.command.document)
      case Failure(e) => Failure(e)
      case Success(d) =>
        if stored.Some? then Failure(AlreadyExists) else Success(Created(d, r.requestId, r.actor, now))
    else if stored.None? then Failure(NotFound)
    else
      match Changed(catalog, stored.value, r.actor, r.command, arranged)
      case Failure(e) => Failure(e)
      case Success(change) => Success(Committed(stored.value, change, KindOf(r.command), r.requestId, r.actor, now))
  }

  /* ---------- one request on the database ---------- */

  datatype Limits = Limits(maxReceipts: nat, fits: Database -> bool)

  datatype Outcome = Outcome(data: Database, result: Result<Record, StoreError>)

  function Stored(data: Database, key: Key): Option<Pipeline> {
    if key in data.pipelines then Some(data.pipelines[key]) else None
  }

  ghost function Executed(catalog: Catalog, limits: Limits, data: Database, r: Request, arranged: Document, now: nat): Outcome {
    var receiptKey := ReceiptKey(r.actor, r.workspace, r.idempotencyKey);
    if receiptKey in data.receipts then
      var receipt := data.receipts[receiptKey];
      Outcome(data, if receipt.command == r.command then Success(receipt.result) else Failure(IdempotencyConflict))
    else if |data.receipts| >= limits.maxReceipts then Outcome(data, Failure(StoreLimit))
    else
      match Written(catalog, Stored(data, TargetKey(r)), r, arranged, now)
      case Failure(e) => Outcome(data, Failure(e))
      case Success(p) =>
        var next := Database(data.pipelines[TargetKey(r) := p], data.receipts[receiptKey := Receipt(r.command, p.record)]);
        if limits.fits(next) then Outcome(next, Success(p.record)) else Outcome(data, Failure(StoreLimit))
  }

  /** A write that is no retry, with room for its receipt. */
  predicate Fresh(limits: Limits, data: Database, r: Request) {
    ReceiptKey(r.actor, r.workspace, r.idempotencyKey) !in data.receipts && |data.receipts| < limits.maxReceipts
  }

  /** Nothing but the size of the store can refuse it. */
  predicate Permitted(result: Result<Record, StoreError>) {
    result.Success? || result == Failure(StoreLimit)
  }

  /** The answer is the record now stored. */
  predicate Answers(outcome: Outcome, key: Key) {
    key in outcome.data.pipelines && outcome.result == Success(outcome.data.pipelines[key].record)
  }
}
