/** The graph store (src/storage/graph_db.py) as an in-memory model of
    what its Cypher writes do to the database.

    Every labelled node kind becomes a finite map keyed by its unique
    property, every relationship kind a set or a map keyed by what its
    `MERGE` pattern matches on. A `SET n += props` overlays a property map
    (a null value removes the property), a `MATCH` that finds nothing makes
    the rest of the statement do nothing, and a `MERGE` on a key that exists
    updates the existing entry. The server clock is a parameter. */
module GraphDb {
  import opened Collections

  /** The dimension of the chunk embeddings (all-MiniLM-L6-v2). */
  const EmbedDim := 384

  datatype SchemaItem =
    | UniqueConstraint(name: string, nodeLabel: string, key: string)
    | VectorIndex(name: string, nodeLabel: string, key: string, dimensions: nat, similarity: string)

  /** The schema statements, in the order they are run. */
  const SchemaQueries: seq<SchemaItem> := [
    UniqueConstraint("doc_id", "Document", "id"),
    UniqueConstraint("chunk_id", "Chunk", "id"),
    UniqueConstraint("ind_id", "Indicator", "value"),
    UniqueConstraint("camp_id", "Campaign", "name"),
    UniqueConstraint("actor_id", "ThreatActor", "name"),
    VectorIndex("chunk_vec", "Chunk", "embedding", EmbedDim, "cosine")
  ]

  /** A property value as the driver passes it; `Null` is Python's None. */
  datatype Value = Null | Str(s: string) | Int(i: int) | Float(f: real) | FloatList(fs: seq<real>)

  type Props = map<string, Value>

  /** A node never stores a null property: setting one to null removes it. */
  predicate NoNulls(p: Props) {
    forall k :: k in p ==> p[k] != Null
  }

  /** `SET n += upd`: each key of `upd` with a value is set, each key of `upd`
      whose value is null is removed, every other property is kept. */
  function Overlay(p: Props, upd: Props): (r: Props)
    ensures forall k :: k in upd && upd[k] != Null ==> k in r && r[k] == upd[k]
    ensures forall k :: k in upd && upd[k] == Null ==> k !in r
    ensures forall k :: k !in upd ==> (k in r <==> k in p) && (k in p ==> r[k] == p[k])
  {
    map k | k in p.Keys + upd.Keys && (k in upd ==> upd[k] != Null) :: if k in upd then upd[k] else p[k]
  }

  /** Overlaying keeps a null-free map null-free. */
  lemma OverlayNoNulls(p: Props, upd: Props)
    requires NoNulls(p)
    ensures NoNulls(Overlay(p, upd))
  {
  }

  /** Overlaying the same properties twice is overlaying them once. */
  lemma OverlayIdempotent(p: Props, upd: Props)
    ensures Overlay(Overlay(p, upd), upd) == Overlay(p, upd)
  {
  }

  /** What an `Indicator` node stores besides its `value`; `Null` is an
      absent property. */
  datatype IndicatorProps = IndicatorProps(typ: string, firstSeen: Value, lastSeen: Value)

  /** A `MENTIONED_IN` relationship is merged on its endpoints and its
      `confidence`. */
  datatype MentionKey = MentionKey(value: string, docId: Value, confidence: real)

  /** The properties a `MENTIONED_IN` relationship carries. */
  datatype Mention = Mention(contextChunkId: Option<string>, ts: int)

  /** A relationship created by `relate`, of any type. */
  datatype Relation = Relation(from: string, relType: string, to: string)

  /** The database: the nodes of each label by their unique key and the
      relationships of each type. `partOf` holds (chunk id, document id),
      `inCampaign` holds (document id, campaign name). */
  datatype Snapshot = Snapshot(
    documents: map<Value, Props>,
    chunks: map<Value, Props>,
    indicators: map<string, IndicatorProps>,
    campaigns: set<string>,
    partOf: set<(Value, Value)>,
    inCampaign: set<(Value, string)>,
    mentions: map<MentionKey, Mention>,
    relations: set<Relation>)

  const Empty := Snapshot(map[], map[], map[], {}, {}, {}, map[], {})

  /** Every node of a table keyed by `id` stores its key as its `id`
      property: the `MERGE` creates it with that key and the overlaid
      properties carry the same `id`. */
  ghost predicate KeyedById(nodes: map<Value, Props>) {
    forall id :: id in nodes ==> "id" in nodes[id] && nodes[id]["id"] == id
  }

  /** Every relationship joins nodes that exist, no key is null, no node
      stores a null property and documents and chunks hold their key. */
  ghost predicate Consistent(s: Snapshot) {
    && (forall id :: id in s.documents ==> id != Null && NoNulls(s.documents[id]))
    && (forall id :: id in s.chunks ==> id != Null && NoNulls(s.chunks[id]))
    && KeyedById(s.documents)
    && KeyedById(s.chunks)
    && (forall e :: e in s.partOf ==> e.0 in s.chunks && e.1 in s.documents)
    && (forall e :: e in s.inCampaign ==> e.0 in s.documents && e.1 in s.campaigns)
    && (forall k :: k in s.mentions ==> k.value in s.indicators && k.docId in s.documents)
    && (forall r :: r in s.relations ==> r.from in s.indicators && r.to in s.indicators)
  }

  /** The `ind` dict `add_indicator` receives. */
  datatype IndicatorInput = IndicatorInput(
    value: string, typ: string, firstSeen: Value, lastSeen: Value, confidence: Option<real>)

  /** `ind.get("confidence", 0.9)`. */
  function ConfidenceOf(ind: IndicatorInput): real {
    ind.confidence.GetOr(0.9)
  }

  /** One write to the store. */
  datatype Op =
    | UpsertDocument(doc: Props)
    | AddChunk(docId: string, chunk: Props)
    | AddIndicator(ind: IndicatorInput, docId: string, contextChunkId: Option<string>, now: int)
    | Relate(a: string, b: string, relType: string)
    | MergeCampaign(name: string)
    | LinkCampaign(docId: string, name: string)

  /** `KeyError` raised by Python before the statement runs, or the
      database refusing to `MERGE` on a null key. */
  datatype StoreError = MissingKey(key: string) | NullMergeKey(nodeLabel: string)

  /** The error a write raises, if any. */
  function OpError(s: Snapshot, op: Op): Option<StoreError> {
    match op
    case UpsertDocument(doc) =>
      if "id" !in doc then Some(MissingKey("id"))
      else if doc["id"] == Null then Some(NullMergeKey("Document"))
      else None
    case AddChunk(docId, chunk) =>
      if "id" !in chunk then Some(MissingKey("id"))
      else if Str(docId) in s.documents && chunk["id"] == Null then Some(NullMergeKey("Chunk"))
      else None
    case _ => None
  }

  /** The node a `MERGE ... SET n += props` leaves: the existing one, or a
      new one holding only its key, with `props` overlaid. */
  function Merged(nodes: map<Value, Props>, id: Value, props: Props): Props {
    Overlay(if id in nodes then nodes[id] else map["id" := id], props)
  }

  /** `MERGE (i:Indicator {value:$value}) SET i.type=$type,
      i.firstSeen=coalesce(i.firstSeen,$firstSeen), i.lastSeen=$lastSeen`. */
  function MergedIndicator(s: Snapshot, ind: IndicatorInput): IndicatorProps {
    var firstSeen :=
      if ind.value in s.indicators && s.indicators[ind.value].firstSeen != Null
      then s.indicators[ind.value].firstSeen
      else ind.firstSeen;
    IndicatorProps(ind.typ, firstSeen, ind.lastSeen)
  }

  /** The store after `op`; a write that raises leaves it unchanged (the
      statement runs in its own transaction, or does not run at all). */
  function Apply(s: Snapshot, op: Op): Snapshot {
    if OpError(s, op).Some? then s
    else
      match op
      case UpsertDocument(doc) =>
        s.(documents := s.documents[doc["id"] := Merged(s.documents, doc["id"], doc)])
      case AddChunk(docId, chunk) =>
        if Str(docId) !in s.documents then s
        else
          var id := chunk["id"];
          s.(chunks := s.chunks[id := Merged(s.chunks, id, chunk)],
             partOf := s.partOf + {(id, Str(docId))})
      case AddIndicator(ind, docId, ctx, now) =>
        var s1 := s.(indicators := s.indicators[ind.value := MergedIndicator(s, ind)]);
        if Str(docId) !in s.documents then s1
        else s1.(mentions := s.mentions[MentionKey(ind.value, Str(docId), ConfidenceOf(ind)) := Mention(ctx, now)])
      case Relate(a, b, relType) =>
        if a in s.indicators && b in s.indicators then s.(relations := s.relations + {Relation(a, relType, b)})
        else s
      case MergeCampaign(name) =>
        s.(campaigns := s.campaigns + {name})
      case LinkCampaign(docId, name) =>
        if Str(docId) in s.documents && name in s.campaigns then s.(inCampaign := s.inCampaign + {(Str(docId), name)})
        else s
  }

  /** The store after the writes `ops`, in order; a write that raises
      changes nothing (the writes the pipeline issues never raise). */
  function ApplyAll(s: Snapshot, ops: seq<Op>): Snapshot
    decreases |ops|
  {
    if ops == [] then s
    else
      var t := ApplyAll(s, ops[..|ops| - 1]);
      Apply(t, ops[|ops| - 1])
  }

  /** No write removes a node, a relationship or a property key's owner:
      every key of every table is kept. */
  predicate Grows(s: Snapshot, t: Snapshot) {
    && s.documents.Keys <= t.documents.Keys
    && s.chunks.Keys <= t.chunks.Keys
    && s.indicators.Keys <= t.indicators.Keys
    && s.campaigns <= t.campaigns
    && s.partOf <= t.partOf
    && s.inCampaign <= t.inCampaign
    && s.mentions.Keys <= t.mentions.Keys
    && s.relations <= t.relations
  }

  // ---------------------------------------------------------------------
  // What each write does.

  /** After `upsert_document` the document exists, every supplied non-null
      property holds the supplied value, a supplied null removes the
      property, unsupplied properties and every other node are unchanged. */
  lemma UpsertDocumentEffect(s: Snapshot, doc: Props)
    requires "id" in doc && doc["id"] != Null
    ensures var t := Apply(s, UpsertDocument(doc));
      && doc["id"] in t.documents
      && (forall k :: k in doc && doc[k] != Null ==> k in t.documents[doc["id"]] && t.documents[doc["id"]][k] == doc[k])
      && (forall k :: k in doc && doc[k] == Null ==> k !in t.documents[doc["id"]])
      && (forall k :: k !in doc && doc["id"] in s.documents ==>
            (k in t.documents[doc["id"]] <==> k in s.documents[doc["id"]])
            && (k in s.documents[doc["id"]] ==> t.documents[doc["id"]][k] == s.documents[doc["id"]][k]))
      && (forall id :: id != doc["id"] ==> ((id in t.documents <==> id in s.documents)
            && (id in s.documents ==> t.documents[id] == s.documents[id])))
      && t == s.(documents := t.documents)
  {
  }

  /** `upsert_document` raises exactly when the dict has no `id` or its
      `id` is null, and then changes nothing. */
  lemma UpsertDocumentError(s: Snapshot, doc: Props)
    ensures OpError(s, UpsertDocument(doc)).Some? <==> "id" !in doc || doc["id"] == Null
    ensures OpError(s, UpsertDocument(doc)).Some? ==> Apply(s, UpsertDocument(doc)) == s
  {
  }

  /** Every write with the same arguments a second time changes nothing:
      upserts, chunk and indicator merges, relationship and campaign merges. */
  lemma ApplyIdempotent(s: Snapshot, op: Op)
    ensures Apply(Apply(s, op), op) == Apply(s, op)
  {
    match op
    case UpsertDocument(doc) =>
      if OpError(s, op).None? {
        UpsertIdempotent(s, doc);
      }
    case AddChunk(docId, chunk) =>
      if OpError(s, op).None? && Str(docId) in s.documents {
        AddChunkIdempotent(s, docId, chunk);
      }
    case AddIndicator(ind, docId, ctx, now) =>
      AddIndicatorIdempotent(s, ind, docId, ctx, now);
    case Relate(a, b, relType) =>
    case MergeCampaign(name) =>
    case LinkCampaign(docId, name) =>
  }

  lemma UpsertIdempotent(s: Snapshot, doc: Props)
    requires "id" in doc && doc["id"] != Null
    ensures Apply(Apply(s, UpsertDocument(doc)), UpsertDocument(doc)) == Apply(s, UpsertDocument(doc))
  {
    var id := doc["id"];
    var op := UpsertDocument(doc);
    var t := Apply(s, op);
    assert t.documents == s.documents[id := Merged(s.documents, id, doc)];
    OverlayIdempotent(if id in s.documents then s.documents[id] else map["id" := id], doc);
    assert Merged(t.documents, id, doc) == Merged(s.documents, id, doc);
    var u := Apply(t, op);
    assert u.documents == t.documents;
  }

  lemma AddChunkIdempotent(s: Snapshot, docId: string, chunk: Props)
    requires "id" in chunk && chunk["id"] != Null && Str(docId) in s.documents
    ensures Apply(Apply(s, AddChunk(docId, chunk)), AddChunk(docId, chunk)) == Apply(s, AddChunk(docId, chunk))
  {
    var id := chunk["id"];
    var op := AddChunk(docId, chunk);
    var t := Apply(s, op);
    assert t.chunks == s.chunks[id := Merged(s.chunks, id, chunk)];
    assert t.partOf == s.partOf + {(id, Str(docId))};
    OverlayIdempotent(if id in s.chunks then s.chunks[id] else map["id" := id], chunk);
    assert Merged(t.chunks, id, chunk) == Merged(s.chunks, id, chunk);
    var u := Apply(t, op);
    assert u.chunks == t.chunks;
    assert u.partOf == t.partOf;
  }

  lemma AddIndicatorIdempotent(s: Snapshot, ind: IndicatorInput, docId: string, ctx: Option<string>, now: int)
    ensures Apply(Apply(s, AddIndicator(ind, docId, ctx, now)), AddIndicator(ind, docId, ctx, now))
         == Apply(s, AddIndicator(ind, docId, ctx, now))
  {
    var op := AddIndicator(ind, docId, ctx, now);
    var k := MentionKey(ind.value, Str(docId), ConfidenceOf(ind));
    var t := Apply(s, op);
    assert t.indicators == s.indicators[ind.value := MergedIndicator(s, ind)];
    assert t.mentions == if Str(docId) in s.documents then s.mentions[k := Mention(ctx, now)] else s.mentions;
    assert MergedIndicator(t, ind) == MergedIndicator(s, ind);
    var u := Apply(t, op);
    assert u.indicators == t.indicators;
    assert u.mentions == t.mentions;
  }

  /** `add_chunk`: when the document exists the chunk is merged by id with
      its properties overlaid and linked to that document; earlier links
      are kept. When the document is missing nothing changes. */
  lemma AddChunkEffect(s: Snapshot, docId: string, chunk: Props)
    requires "id" in chunk
    ensures var t := Apply(s, AddChunk(docId, chunk));
      && (Str(docId) !in s.documents ==> t == s)
      && (Str(docId) in s.documents && chunk["id"] != Null ==>
            && chunk["id"] in t.chunks
            && t.chunks[chunk["id"]] == Merged(s.chunks, chunk["id"], chunk)
            && t.partOf == s.partOf + {(chunk["id"], Str(docId))}
            && t.chunks.Keys == s.chunks.Keys + {chunk["id"]}
            && (forall id :: id != chunk["id"] && id in s.chunks ==> t.chunks[id] == s.chunks[id])
            && t == s.(chunks := t.chunks, partOf := t.partOf))
      && (Str(docId) in s.documents && chunk["id"] == Null ==> t == s)
  {
  }

  /** `add_indicator` upserts the indicator whether or not the document
      exists: its type is set, `firstSeen` is set only when it was absent,
      `lastSeen` is overwritten (possibly with null). The mention is merged
      exactly when the document exists, keyed by the confidence (0.9 when
      none is supplied), and carries the given context chunk and time. */
  lemma AddIndicatorEffect(s: Snapshot, ind: IndicatorInput, docId: string, ctx: Option<string>, now: int)
    requires Consistent(s)
    ensures var t := Apply(s, AddIndicator(ind, docId, ctx, now));
      var key := MentionKey(ind.value, Str(docId), ConfidenceOf(ind));
      && ind.value in t.indicators
      && t.indicators[ind.value].typ == ind.typ
      && t.indicators[ind.value].lastSeen == ind.lastSeen
      && (ind.value in s.indicators && s.indicators[ind.value].firstSeen != Null ==>
            t.indicators[ind.value].firstSeen == s.indicators[ind.value].firstSeen)
      && ((ind.value !in s.indicators || s.indicators[ind.value].firstSeen == Null) ==>
            t.indicators[ind.value].firstSeen == ind.firstSeen)
      && (Str(docId) in s.documents <==> key in t.mentions && t.mentions[key] == Mention(ctx, now))
      && (forall k :: k != key ==> (k in t.mentions <==> k in s.mentions) && (k in s.mentions ==> t.mentions[k] == s.mentions[k]))
      && t.indicators.Keys == s.indicators.Keys + {ind.value}
      && (forall v :: v != ind.value && v in s.indicators ==> t.indicators[v] == s.indicators[v])
      && t == s.(indicators := t.indicators, mentions := t.mentions)
  {
    var t := Apply(s, AddIndicator(ind, docId, ctx, now));
    var key := MentionKey(ind.value, Str(docId), ConfidenceOf(ind));
    assert t.indicators == s.indicators[ind.value := MergedIndicator(s, ind)];
    assert t.mentions == if Str(docId) in s.documents then s.mentions[key := Mention(ctx, now)] else s.mentions;
  }

  /** Two mentions of one indicator in one document with different
      confidences are two relationships. */
  lemma MentionsKeyedByConfidence(s: Snapshot, ind: IndicatorInput, docId: string, ctx: Option<string>, now: int, c1: real, c2: real)
    requires Str(docId) in s.documents && c1 != c2
    ensures var t := Apply(Apply(s, AddIndicator(ind.(confidence := Some(c1)), docId, ctx, now)),
                           AddIndicator(ind.(confidence := Some(c2)), docId, ctx, now));
      && MentionKey(ind.value, Str(docId), c1) in t.mentions
      && MentionKey(ind.value, Str(docId), c2) in t.mentions
  {
  }

  /** `relate` adds the relationship exactly when both indicators exist. */
  lemma RelateEffect(s: Snapshot, a: string, b: string, relType: string)
    ensures var t := Apply(s, Relate(a, b, relType));
      && (Relation(a, relType, b) in t.relations <==> Relation(a, relType, b) in s.relations || (a in s.indicators && b in s.indicators))
      && t.relations - {Relation(a, relType, b)} == s.relations - {Relation(a, relType, b)}
      && t == s.(relations := t.relations)
  {
  }

  // ---------------------------------------------------------------------
  // What every sequence of writes keeps.

  lemma {:induction false} ApplyGrows(s: Snapshot, op: Op)
    ensures Grows(s, Apply(s, op))
  {
    match op
    case UpsertDocument(doc) => UpsertGrows(s, doc);
    case AddChunk(docId, chunk) => AddChunkGrows(s, docId, chunk);
    case AddIndicator(ind, docId, ctx, now) => AddIndicatorGrows(s, ind, docId, ctx, now);
    case Relate(a, b, relType) =>
    case MergeCampaign(name) =>
    case LinkCampaign(docId, name) =>
  }

  lemma UpsertGrows(s: Snapshot, doc: Props)
    ensures Grows(s, Apply(s, UpsertDocument(doc)))
  {
  }

  lemma AddChunkGrows(s: Snapshot, docId: string, chunk: Props)
    ensures Grows(s, Apply(s, AddChunk(docId, chunk)))
  {
  }

  lemma AddIndicatorGrows(s: Snapshot, ind: IndicatorInput, docId: string, ctx: Option<string>, now: int)
    ensures Grows(s, Apply(s, AddIndicator(ind, docId, ctx, now)))
  {
  }

  lemma {:induction false} GrowsTransitive(s: Snapshot, t: Snapshot, u: Snapshot)
    requires Grows(s, t) && Grows(t, u)
    ensures Grows(s, u)
  {
  }

  /** Nodes and relationships are never removed. */
  lemma {:induction false} ApplyAllGrows(s: Snapshot, ops: seq<Op>)
    ensures Grows(s, ApplyAll(s, ops))
    decreases |ops|
  {
    if ops != [] {
      var t := ApplyAll(s, ops[..|ops| - 1]);
      ApplyAllGrows(s, ops[..|ops| - 1]);
      ApplyGrows(t, ops[|ops| - 1]);
      GrowsTransitive(s, t, ApplyAll(s, ops));
    }
  }

  /** Every write keeps the store consistent. */
  lemma ApplyConsistent(s: Snapshot, op: Op)
    requires Consistent(s)
    ensures Consistent(Apply(s, op))
  {
    match op
    case UpsertDocument(doc) => UpsertConsistent(s, doc);
    case AddChunk(docId, chunk) => AddChunkConsistent(s, docId, chunk);
    case AddIndicator(ind, docId, ctx, now) => AddIndicatorConsistent(s, ind, docId, ctx, now);
    case Relate(a, b, relType) =>
    case MergeCampaign(name) =>
    case LinkCampaign(docId, name) =>
  }

  lemma AddIndicatorConsistent(s: Snapshot, ind: IndicatorInput, docId: string, ctx: Option<string>, now: int)
    requires Consistent(s)
    ensures Consistent(Apply(s, AddIndicator(ind, docId, ctx, now)))
  {
    var t := Apply(s, AddIndicator(ind, docId, ctx, now));
    assert t.indicators.Keys == s.indicators.Keys + {ind.value};
    assert t.documents == s.documents && t.relations == s.relations;
  }

  lemma UpsertConsistent(s: Snapshot, doc: Props)
    requires Consistent(s)
    ensures Consistent(Apply(s, UpsertDocument(doc)))
  {
    if OpError(s, UpsertDocument(doc)).None? {
      var id := doc["id"];
      OverlayNoNulls(if id in s.documents then s.documents[id] else map["id" := id], doc);
    }
  }

  lemma AddChunkConsistent(s: Snapshot, docId: string, chunk: Props)
    requires Consistent(s)
    ensures Consistent(Apply(s, AddChunk(docId, chunk)))
  {
    if OpError(s, AddChunk(docId, chunk)).None? && Str(docId) in s.documents {
      var id := chunk["id"];
      OverlayNoNulls(if id in s.chunks then s.chunks[id] else map["id" := id], chunk);
    }
  }

  lemma {:induction false} ApplyAllConsistent(s: Snapshot, ops: seq<Op>)
    requires Consistent(s)
    ensures Consistent(ApplyAll(s, ops))
    decreases |ops|
  {
    if ops != [] {
      ApplyAllConsistent(s, ops[..|ops| - 1]);
      ApplyConsistent(ApplyAll(s, ops[..|ops| - 1]), ops[|ops| - 1]);
    }
  }

  /** `firstSeen` is written once: a value once stored survives every later
      write. */
  lemma {:induction false} FirstSeenWriteOnce(s: Snapshot, ops: seq<Op>, v: string)
    requires v in s.indicators && s.indicators[v].firstSeen != Null
    ensures v in ApplyAll(s, ops).indicators
    ensures ApplyAll(s, ops).indicators[v].firstSeen == s.indicators[v].firstSeen
    decreases |ops|
  {
    if ops != [] {
      FirstSeenWriteOnce(s, ops[..|ops| - 1], v);
      FirstSeenKept(ApplyAll(s, ops[..|ops| - 1]), ops[|ops| - 1], v);
    }
  }

  lemma FirstSeenKept(s: Snapshot, op: Op, v: string)
    requires v in s.indicators && s.indicators[v].firstSeen != Null
    ensures v in Apply(s, op).indicators
    ensures Apply(s, op).indicators[v].firstSeen == s.indicators[v].firstSeen
  {
  }

  lemma {:induction false} ApplyAllAppend(s: Snapshot, ops: seq<Op>, more: seq<Op>)
    ensures ApplyAll(s, ops + more) == ApplyAll(ApplyAll(s, ops), more)
    decreases |more|
  {
    if more == [] {
      assert ops + more == ops;
    } else {
      assert (ops + more)[..|ops + more| - 1] == ops + more[..|more| - 1];
      ApplyAllAppend(s, ops, more[..|more| - 1]);
    }
  }

  lemma ApplyAllSnoc(s: Snapshot, ops: seq<Op>, op: Op)
    ensures ApplyAll(s, ops + [op]) == Apply(ApplyAll(s, ops), op)
  {
    assert (ops + [op])[..|ops|] == ops;
  }

  /** Writes other than `upsert_document` leave every document as it is. */
  lemma {:induction false} ApplyAllKeepsDocuments(s: Snapshot, ops: seq<Op>)
    requires forall i :: 0 <= i < |ops| ==> !ops[i].UpsertDocument?
    ensures ApplyAll(s, ops).documents == s.documents
    decreases |ops|
  {
    if ops != [] {
      ApplyAllKeepsDocuments(s, ops[..|ops| - 1]);
      ApplyKeepsDocuments(ApplyAll(s, ops[..|ops| - 1]), ops[|ops| - 1]);
    }
  }

  lemma ApplyKeepsDocuments(s: Snapshot, op: Op)
    requires !op.UpsertDocument?
    ensures Apply(s, op).documents == s.documents
  {
  }

  // ---------------------------------------------------------------------
  // The store object.

  function OutcomeOf(e: Option<StoreError>): Outcome<StoreError> {
    match e
    case None => Pass
    case Some(err) => Fail(err)
  }

  class Graph {
    var documents: map<Value, Props>
    var chunks: map<Value, Props>
    var indicators: map<string, IndicatorProps>
    var campaigns: set<string>
    var partOf: set<(Value, Value)>
    var inCampaign: set<(Value, string)>
    var mentions: map<MentionKey, Mention>
    var relations: set<Relation>
    var schema: set<SchemaItem>

    function Snap(): Snapshot
      reads this
    {
      Snapshot(documents, chunks, indicators, campaigns, partOf, inCampaign, mentions, relations)
    }

    /** A store with no nodes and no schema. */
    constructor ()
      ensures Snap() == Empty && schema == {}
    {
      documents, chunks, indicators, campaigns := map[], map[], map[], {};
      partOf, inCampaign, mentions, relations := {}, {}, map[], {};
      schema := {};
    }

    /** `init_schema`: every statement is `IF NOT EXISTS`, so running it
        again changes nothing. */
    method InitSchema()
      modifies this
      ensures schema == old(schema) + set i | 0 <= i < |SchemaQueries| :: SchemaQueries[i]
      ensures Snap() == old(Snap())
    {
      for i := 0 to |SchemaQueries|
        invariant schema == old(schema) + set j | 0 <= j < i :: SchemaQueries[j]
        invariant Snap() == old(Snap())
      {
        schema := schema + {SchemaQueries[i]};
      }
    }

    method UpsertDocument(doc: Props) returns (r: Outcome<StoreError>)
      modifies this
      ensures r == OutcomeOf(OpError(old(Snap()), Op.UpsertDocument(doc)))
      ensures Snap() == Apply(old(Snap()), Op.UpsertDocument(doc)) && schema == old(schema)
    {
      if "id" !in doc {
        return Fail(MissingKey("id"));
      }
      var id := doc["id"];
      if id == Null {
        return Fail(NullMergeKey("Document"));
      }
      var node := if id in documents then documents[id] else map["id" := id];
      documents := documents[id := Overlay(node, doc)];
      r := Pass;
    }

    method AddChunk(docId: string, chunk: Props) returns (r: Outcome<StoreError>)
      modifies this
      ensures r == OutcomeOf(OpError(old(Snap()), Op.AddChunk(docId, chunk)))
      ensures Snap() == Apply(old(Snap()), Op.AddChunk(docId, chunk)) && schema == old(schema)
    {
      if "id" !in chunk {
        return Fail(MissingKey("id"));
      }
      if Str(docId) !in documents {
        return Pass;
      }
      var id := chunk["id"];
      if id == Null {
        return Fail(NullMergeKey("Chunk"));
      }
      var node := if id in chunks then chunks[id] else map["id" := id];
      chunks := chunks[id := Overlay(node, chunk)];
      partOf := partOf + {(id, Str(docId))};
      r := Pass;
    }

    method AddIndicator(ind: IndicatorInput, docId: string, contextChunkId: Option<string>, now: int)
      modifies this
      ensures Snap() == Apply(old(Snap()), Op.AddIndicator(ind, docId, contextChunkId, now)) && schema == old(schema)
    {
      var firstSeen := ind.firstSeen;
      if ind.value in indicators && indicators[ind.value].firstSeen != Null {
        firstSeen := indicators[ind.value].firstSeen;
      }
      indicators := indicators[ind.value := IndicatorProps(ind.typ, firstSeen, ind.lastSeen)];
      if Str(docId) in documents {
        mentions := mentions[MentionKey(ind.value, Str(docId), ConfidenceOf(ind)) := Mention(contextChunkId, now)];
      }
    }

    method Relate(a: string, b: string, relType: string)
      modifies this
      ensures Snap() == Apply(old(Snap()), Op.Relate(a, b, relType)) && schema == old(schema)
    {
      if a in indicators && b in indicators {
        relations := relations + {Relation(a, relType, b)};
      }
    }

    /** `MERGE (c:Campaign {name:$n})`, issued by the pipeline. */
    method MergeCampaign(name: string)
      modifies this
      ensures Snap() == Apply(old(Snap()), Op.MergeCampaign(name)) && schema == old(schema)
    {
      campaigns := campaigns + {name};
    }

    /** `MATCH (d:Document {id:$id}),(c:Campaign {name:$n})
        MERGE (d)-[:PART_OF_CAMPAIGN]->(c)`, issued by the pipeline. */
    method LinkCampaign(docId: string, name: string)
      modifies this
      ensures Snap() == Apply(old(Snap()), Op.LinkCampaign(docId, name)) && schema == old(schema)
    {
      if Str(docId) in documents && name in campaigns {
        inCampaign := inCampaign + {(Str(docId), name)};
      }
    }
  }
}
