/** The read queries of the graph store (src/storage/graph_db.py): type
    lookup, mention context, bounded traversal, path materialisation and
    the two index searches.

    A query whose rows the database returns in no stated order is modelled
    as a set. The vector index is an oracle: the caller passes the scored
    candidates `queryNodes` yields. */
module GraphReads {
  import opened Collections
  import opened Text
  import opened GraphDb

  // ---------------------------------------------------------------------
  // indicator_lookup and context_for_indicator

  /** `indicator_lookup(typ)`: the values of the indicators of type `typ`. */
  function IndicatorLookup(s: Snapshot, typ: string): (r: set<string>)
    ensures forall v :: v in r <==> v in s.indicators && s.indicators[v].typ == typ
  {
    set v | v in s.indicators && s.indicators[v].typ == typ
  }

  /** Every indicator is found under its own type and under no other. */
  lemma IndicatorLookupPartition(s: Snapshot, v: string, t1: string, t2: string)
    requires v in IndicatorLookup(s, t1) && v in IndicatorLookup(s, t2)
    ensures t1 == t2
  {
  }

  /** `add_indicator` sets the indicator's type, so the indicator moves
      to the lookup of its new type and leaves every other type's lookup;
      no other indicator moves. */
  lemma IndicatorLookupAfterAdd(s: Snapshot, ind: IndicatorInput, docId: string, ctx: Option<string>, now: int, typ: string)
    ensures var t := Apply(s, AddIndicator(ind, docId, ctx, now));
      && (typ == ind.typ ==> IndicatorLookup(t, typ) == IndicatorLookup(s, typ) + {ind.value})
      && (typ != ind.typ ==> IndicatorLookup(t, typ) == IndicatorLookup(s, typ) - {ind.value})
  {
    var t := Apply(s, AddIndicator(ind, docId, ctx, now));
    assert t.indicators == s.indicators[ind.value := MergedIndicator(s, ind)];
  }

  /** One row of `context_for_indicator`. */
  datatype ContextRow = ContextRow(documentId: Value, chunkText: Value, confidence: real, ts: int)

  /** `OPTIONAL MATCH (c:Chunk {id:r.contextChunkId}) ... c.text`: the text
      of the chunk the mention names, or null when there is no such chunk or
      it has no text. */
  function ChunkTextOf(s: Snapshot, ctx: Option<string>): (r: Value)
    ensures r != Null ==> ctx.Some? && Str(ctx.value) in s.chunks && "text" in s.chunks[Str(ctx.value)]
  {
    if ctx.Some? && Str(ctx.value) in s.chunks && "text" in s.chunks[Str(ctx.value)]
    then s.chunks[Str(ctx.value)]["text"]
    else Null
  }

  function RowOf(s: Snapshot, k: MentionKey): ContextRow
    requires k in s.mentions
  {
    ContextRow(k.docId, ChunkTextOf(s, s.mentions[k].contextChunkId), k.confidence, s.mentions[k].ts)
  }

  /** `context_for_indicator(value)`: one row per `MENTIONED_IN` edge of
      the indicator. */
  function ContextForIndicator(s: Snapshot, v: string): set<ContextRow> {
    set k | k in s.mentions && k.value == v :: RowOf(s, k)
  }

  /** The rows are exactly the indicator's mention edges, one row per edge:
      distinct edges give distinct rows. */
  lemma ContextRowsAreMentions(s: Snapshot, v: string)
    ensures forall k :: k in s.mentions && k.value == v ==> RowOf(s, k) in ContextForIndicator(s, v)
    ensures forall row :: row in ContextForIndicator(s, v) ==>
      exists k :: k in s.mentions && k.value == v && RowOf(s, k) == row
    ensures forall k1, k2 ::
      (k1 in s.mentions && k2 in s.mentions && k1.value == v && k2.value == v && RowOf(s, k1) == RowOf(s, k2)) ==> k1 == k2
  {
  }

  /** A mention whose context chunk does not exist has a null chunk text. */
  lemma ContextMissingChunk(s: Snapshot, k: MentionKey)
    requires k in s.mentions
    requires s.mentions[k].contextChunkId.None? || Str(s.mentions[k].contextChunkId.value) !in s.chunks
    ensures RowOf(s, k).chunkText == Null
  {
  }

  // ---------------------------------------------------------------------
  // The graph as nodes and relationships

  /** A node, identified by its label and unique key. */
  datatype Node =
    | DocumentNode(id: Value)
    | ChunkNode(id: Value)
    | IndicatorNode(value: string)
    | CampaignNode(name: string)

  /** A relationship. */
  datatype Edge =
    | MentionEdge(key: MentionKey)
    | PartOfEdge(chunkId: Value, docId: Value)
    | CampaignEdge(docId: Value, campaign: string)
    | RelatedEdge(rel: Relation)

  /** The start and end node of a relationship. */
  function Ends(e: Edge): (Node, Node) {
    match e
    case MentionEdge(k) => (IndicatorNode(k.value), DocumentNode(k.docId))
    case PartOfEdge(c, d) => (ChunkNode(c), DocumentNode(d))
    case CampaignEdge(d, c) => (DocumentNode(d), CampaignNode(c))
    case RelatedEdge(r) => (IndicatorNode(r.from), IndicatorNode(r.to))
  }

  function EdgeType(e: Edge): string {
    match e
    case MentionEdge(_) => "MENTIONED_IN"
    case PartOfEdge(_, _) => "PART_OF"
    case CampaignEdge(_, _) => "PART_OF_CAMPAIGN"
    case RelatedEdge(r) => r.relType
  }

  predicate Touches(e: Edge, x: Node) {
    Ends(e).0 == x || Ends(e).1 == x
  }

  /** The node at the far end of `e` when it is crossed from `x`, in either
      direction (`x` itself for a loop). */
  function Other(e: Edge, x: Node): Node {
    if Ends(e).0 == x then Ends(e).1 else Ends(e).0
  }

  /** Every relationship in the store. */
  function Edges(s: Snapshot): set<Edge> {
    (set k | k in s.mentions :: MentionEdge(k))
    + (set p | p in s.partOf :: PartOfEdge(p.0, p.1))
    + (set p | p in s.inCampaign :: CampaignEdge(p.0, p.1))
    + (set r | r in s.relations :: RelatedEdge(r))
  }

  /** `steps` leads from `x` to `y`, crossing each relationship in either
      direction, using only relationships of `E` and none twice. */
  predicate TrailFrom(E: set<Edge>, x: Node, steps: seq<Edge>, y: Node)
    decreases |steps|
  {
    if steps == [] then x == y
    else steps[0] in E && Touches(steps[0], x) && TrailFrom(E - {steps[0]}, Other(steps[0], x), steps[1..], y)
  }

  /** `y` is at the end of a trail of 1 to `h` relationships of `E` from
      `x`: one relationship leads to `y`, or one leads to a node from which
      `y` can be reached without it in fewer steps. */
  predicate Reaches(E: set<Edge>, x: Node, y: Node, h: nat)
    decreases h
  {
    h > 0 && exists e :: e in E && Touches(e, x) && (Other(e, x) == y || Reaches(E - {e}, Other(e, x), y, h - 1))
  }

  /** The end of every trail of length 1 to `h` is reached. */
  lemma {:induction false} ReachComplete(E: set<Edge>, x: Node, steps: seq<Edge>, y: Node, h: nat)
    requires TrailFrom(E, x, steps, y) && 1 <= |steps| <= h
    ensures Reaches(E, x, y, h)
    decreases h
  {
    var e := steps[0];
    if |steps| > 1 {
      ReachComplete(E - {e}, Other(e, x), steps[1..], y, h - 1);
    }
  }

  /** Every reached node ends some trail of length 1 to `h`. */
  lemma {:induction false} ReachSound(E: set<Edge>, x: Node, y: Node, h: nat)
    requires Reaches(E, x, y, h)
    ensures exists steps :: 1 <= |steps| <= h && TrailFrom(E, x, steps, y)
    decreases h
  {
    var e :| e in E && Touches(e, x) && (Other(e, x) == y || Reaches(E - {e}, Other(e, x), y, h - 1));
    if Other(e, x) == y {
      assert TrailFrom(E - {e}, y, [], y);
      assert TrailFrom(E, x, [e], y);
    } else {
      ReachSound(E - {e}, Other(e, x), y, h - 1);
      var rest :| 1 <= |rest| <= h - 1 && TrailFrom(E - {e}, Other(e, x), rest, y);
      assert ([e] + rest)[1..] == rest;
      assert TrailFrom(E, x, [e] + rest, y);
    }
  }

  /** `relationships(value, hops)`: the values of the indicators at the end
      of a path of 1 to `hops` relationships from the seed. */
  function Relationships(s: Snapshot, v: string, hops: nat): set<string> {
    set w | w in s.indicators && Reaches(Edges(s), IndicatorNode(v), IndicatorNode(w), hops)
  }

  /** An indicator is returned exactly when a trail of 1 to `hops`
      relationships, crossed in any direction and none twice, joins it to
      the seed. */
  lemma RelationshipsSpec(s: Snapshot, v: string, hops: nat, w: string)
    ensures w in Relationships(s, v, hops) <==>
      w in s.indicators
      && exists steps :: 1 <= |steps| <= hops && TrailFrom(Edges(s), IndicatorNode(v), steps, IndicatorNode(w))
  {
    if w in Relationships(s, v, hops) {
      ReachSound(Edges(s), IndicatorNode(v), IndicatorNode(w), hops);
    }
    if w in s.indicators && exists steps :: 1 <= |steps| <= hops && TrailFrom(Edges(s), IndicatorNode(v), steps, IndicatorNode(w)) {
      var steps :| 1 <= |steps| <= hops && TrailFrom(Edges(s), IndicatorNode(v), steps, IndicatorNode(w));
      ReachComplete(Edges(s), IndicatorNode(v), steps, IndicatorNode(w), hops);
    }
  }

  /** A seed that is not an indicator of a consistent store yields nothing. */
  lemma RelationshipsUnknownSeed(s: Snapshot, v: string, hops: nat)
    requires Consistent(s) && v !in s.indicators
    ensures Relationships(s, v, hops) == {}
  {
    forall e | e in Edges(s) ensures !Touches(e, IndicatorNode(v)) {
      if e.MentionEdge? {
        assert e.key in s.mentions;
      } else if e.RelatedEdge? {
        assert e.rel in s.relations;
      }
    }
  }

  /** Allowing more hops never loses a result. */
  lemma RelationshipsMonotonic(s: Snapshot, v: string, h1: nat, h2: nat)
    requires h1 <= h2
    ensures Relationships(s, v, h1) <= Relationships(s, v, h2)
  {
    forall w | w in Relationships(s, v, h1) ensures w in Relationships(s, v, h2) {
      RelationshipsSpec(s, v, h1, w);
      RelationshipsSpec(s, v, h2, w);
    }
  }

  /** The seed itself is returned when it is related to itself. */
  lemma SeedReturnedThroughLoop(s: Snapshot, v: string, relType: string)
    requires v in s.indicators && Relation(v, relType, v) in s.relations
    ensures v in Relationships(s, v, 1)
  {
    var e := RelatedEdge(Relation(v, relType, v));
    assert e in Edges(s);
    assert TrailFrom(Edges(s) - {e}, IndicatorNode(v), [], IndicatorNode(v));
    ReachComplete(Edges(s), IndicatorNode(v), [e], IndicatorNode(v), 1);
  }

  /** The seed itself is returned within two hops when one document
      mentions it with two different confidences: the path goes out along
      one mention and back along the other. */
  lemma SeedReturnedThroughParallelMentions(s: Snapshot, v: string, d: Value, c1: real, c2: real)
    requires v in s.indicators && c1 != c2
    requires MentionKey(v, d, c1) in s.mentions && MentionKey(v, d, c2) in s.mentions
    ensures v in Relationships(s, v, 2)
  {
    var e1 := MentionEdge(MentionKey(v, d, c1));
    var e2 := MentionEdge(MentionKey(v, d, c2));
    assert e1 in Edges(s) && e2 in Edges(s);
    var E := Edges(s);
    assert TrailFrom(E - {e1} - {e2}, IndicatorNode(v), [], IndicatorNode(v));
    assert [e1, e2][1..] == [e2];
    assert TrailFrom(E - {e1}, DocumentNode(d), [e2], IndicatorNode(v));
    assert TrailFrom(E, IndicatorNode(v), [e1, e2], IndicatorNode(v));
    ReachComplete(E, IndicatorNode(v), [e1, e2], IndicatorNode(v), 2);
  }

  // ---------------------------------------------------------------------
  // network

  /** The most paths `network` consumes. */
  const PathLimit := 500

  /** A path the database returns: its first node and its relationships. */
  datatype Path = Path(start: Node, steps: seq<Edge>)

  /** The paths `MATCH p=(i:Indicator {value:$v})-[*1..hops]-(j:Indicator)`
      can return. */
  ghost predicate IsMatchedPath(s: Snapshot, v: string, hops: nat, p: Path) {
    && p.start == IndicatorNode(v)
    && 1 <= |p.steps| <= hops
    && exists w :: w in s.indicators && TrailFrom(Edges(s), p.start, p.steps, IndicatorNode(w))
  }

  /** The nodes of a path, from its start, one more than its relationships. */
  function WalkNodes(x: Node, steps: seq<Edge>): (r: seq<Node>)
    ensures |r| == |steps| + 1 && r[0] == x
    decreases |steps|
  {
    if steps == [] then [x] else [x] + WalkNodes(Other(steps[0], x), steps[1..])
  }

  function PathNodes(p: Path): seq<Node> {
    WalkNodes(p.start, p.steps)
  }

  datatype Link = Link(source: Node, target: Node, relType: string)

  /** A relationship as `network` lists it: stored direction, type. */
  function LinkOf(e: Edge): Link {
    Link(Ends(e).0, Ends(e).1, EdgeType(e))
  }

  function StepLinks(steps: seq<Edge>): (r: seq<Link>)
    ensures |r| == |steps|
    ensures forall i :: 0 <= i < |steps| ==> r[i] == LinkOf(steps[i])
  {
    seq(|steps|, i requires 0 <= i < |steps| => LinkOf(steps[i]))
  }

  function PathLinks(p: Path): (r: seq<Link>) {
    StepLinks(p.steps)
  }

  /** The nodes of `ps`, path after path, repeats included. */
  function AllNodes(ps: seq<Path>): seq<Node>
    decreases |ps|
  {
    if ps == [] then [] else AllNodes(ps[..|ps| - 1]) + PathNodes(ps[|ps| - 1])
  }

  /** The links of `ps`, path after path, repeats included. */
  function AllLinks(ps: seq<Path>): seq<Link>
    decreases |ps|
  {
    if ps == [] then [] else AllLinks(ps[..|ps| - 1]) + PathLinks(ps[|ps| - 1])
  }

  /** What `network` shows of a node. */
  datatype NodeView = NodeView(id: Node, value: Value, nodeLabel: string)

  datatype NetworkResult = NetworkResult(nodes: seq<NodeView>, links: seq<Link>)

  /** The properties a node holds in the store. */
  function NodeProps(s: Snapshot, n: Node): Props {
    match n
    case DocumentNode(id) => if id in s.documents then s.documents[id] else map["id" := id]
    case ChunkNode(id) => if id in s.chunks then s.chunks[id] else map["id" := id]
    case IndicatorNode(v) =>
      var p := map["value" := Str(v), "type" := Str(if v in s.indicators then s.indicators[v].typ else "")];
      if v in s.indicators then Overlay(p, map["firstSeen" := s.indicators[v].firstSeen, "lastSeen" := s.indicators[v].lastSeen])
      else p
    case CampaignNode(name) => map["name" := Str(name)]
  }

  function LabelOf(n: Node): string {
    match n
    case DocumentNode(_) => "Document"
    case ChunkNode(_) => "Chunk"
    case IndicatorNode(_) => "Indicator"
    case CampaignNode(_) => "Campaign"
  }

  /** `n.get("value", n.get("id"))`: the `value` property, else the `id`
      property, else null. */
  function DisplayValue(p: Props): (r: Value)
    ensures "value" in p ==> r == p["value"]
    ensures "value" !in p && "id" in p ==> r == p["id"]
    ensures "value" !in p && "id" !in p ==> r == Null
  {
    if "value" in p then p["value"] else if "id" in p then p["id"] else Null
  }

  function ViewOf(s: Snapshot, n: Node): NodeView {
    NodeView(n, DisplayValue(NodeProps(s, n)), LabelOf(n))
  }

  /** What the network shows as a node's value: an indicator shows its
      own value; a campaign shows null, since its name is stored under
      neither `value` nor `id`; a document or chunk shows its `value`
      property when it holds one and otherwise its key (in a consistent
      store a held node keeps its key as `id`). */
  lemma ViewValue(s: Snapshot, n: Node)
    ensures n.IndicatorNode? ==> ViewOf(s, n).value == Str(n.value)
    ensures n.CampaignNode? ==> ViewOf(s, n).value == Null
    ensures n.DocumentNode? && n.id in s.documents && "value" in s.documents[n.id] ==>
              ViewOf(s, n).value == s.documents[n.id]["value"]
    ensures n.DocumentNode? && n.id in s.documents && "value" !in s.documents[n.id] && Consistent(s) ==>
              ViewOf(s, n).value == n.id
    ensures n.ChunkNode? && n.id in s.chunks && "value" in s.chunks[n.id] ==>
              ViewOf(s, n).value == s.chunks[n.id]["value"]
    ensures n.ChunkNode? && n.id in s.chunks && "value" !in s.chunks[n.id] && Consistent(s) ==>
              ViewOf(s, n).value == n.id
    ensures n.DocumentNode? && n.id !in s.documents ==> ViewOf(s, n).value == n.id
    ensures n.ChunkNode? && n.id !in s.chunks ==> ViewOf(s, n).value == n.id
  {
  }

  /** `views` holds the view of exactly the nodes of `ids`. */
  ghost predicate ViewsOf(s: Snapshot, views: map<Node, NodeView>, ids: seq<Node>) {
    && (forall n :: n in views <==> n in ids)
    && (forall n :: n in views ==> views[n] == ViewOf(s, n))
  }

  /** The views of the nodes `ids`, in order. */
  function ViewsAt(s: Snapshot, ids: seq<Node>): (r: seq<NodeView>)
    ensures |r| == |ids| && forall i :: 0 <= i < |ids| ==> r[i] == ViewOf(s, ids[i])
  {
    seq(|ids|, i requires 0 <= i < |ids| => ViewOf(s, ids[i]))
  }

  /** What `network` returns for the paths `paths`. */
  function NetworkOf(s: Snapshot, paths: seq<Path>): NetworkResult {
    var ps := Take(paths, PathLimit);
    NetworkResult(ViewsAt(s, Dedup(AllNodes(ps))), AllLinks(ps))
  }

  /** `network`: the first 500 paths are walked; each node is recorded
      under its element id (a node seen again keeps its place) and each
      relationship of each path is appended to the links. */
  method Network(s: Snapshot, paths: seq<Path>) returns (r: NetworkResult)
    ensures r == NetworkOf(s, paths)
  {
    var ps := Take(paths, PathLimit);
    var order: seq<Node> := [];
    var views: map<Node, NodeView> := map[];
    var links: seq<Link> := [];
    for i := 0 to |ps|
      invariant order == Dedup(AllNodes(ps[..i]))
      invariant ViewsOf(s, views, order)
      invariant links == AllLinks(ps[..i])
    {
      PathsSnoc(ps, i);
      order, views := RecordNodes(s, order, views, PathNodes(ps[i]));
      links := AppendLinks(links, ps[i].steps);
    }
    assert ps[..|ps|] == ps;
    var nodes := NodeViews(s, views, order);
    r := NetworkResult(nodes, links);
  }

  /** `list(nodes.values())`: the recorded views in insertion order. */
  method NodeViews(s: Snapshot, views: map<Node, NodeView>, order: seq<Node>) returns (nodes: seq<NodeView>)
    requires ViewsOf(s, views, order)
    ensures nodes == ViewsAt(s, order)
  {
    nodes := seq(|order|, i requires 0 <= i < |order| && ViewsOf(s, views, order) => views[order[i]]);
    assert forall i :: 0 <= i < |order| ==> nodes[i] == ViewOf(s, order[i]);
  }

  /** Walking one more path appends its nodes and links. */
  lemma PathsSnoc(ps: seq<Path>, i: nat)
    requires i < |ps|
    ensures AllLinks(ps[..i + 1]) == AllLinks(ps[..i]) + PathLinks(ps[i])
    ensures Dedup(AllNodes(ps[..i + 1])) == AddNew(Dedup(AllNodes(ps[..i])), PathNodes(ps[i]))
  {
    assert ps[..i + 1][..i] == ps[..i];
    assert AllNodes(ps[..i + 1]) == AllNodes(ps[..i]) + PathNodes(ps[i]);
    AddNewAppend([], AllNodes(ps[..i]), PathNodes(ps[i]));
  }

  /** The inner loop over a path's nodes. */
  method RecordNodes(s: Snapshot, order: seq<Node>, views: map<Node, NodeView>, nodes: seq<Node>)
    returns (order': seq<Node>, views': map<Node, NodeView>)
    requires ViewsOf(s, views, order)
    ensures order' == AddNew(order, nodes)
    ensures ViewsOf(s, views', order')
  {
    order', views' := order, views;
    for j := 0 to |nodes|
      invariant order' == AddNew(order, nodes[..j])
      invariant ViewsOf(s, views', order')
    {
      assert nodes[..j + 1][..j] == nodes[..j];
      if nodes[j] !in views' {
        order' := order' + [nodes[j]];
      }
      views' := views'[nodes[j] := ViewOf(s, nodes[j])];
    }
    assert nodes[..|nodes|] == nodes;
  }

  /** The inner loop over a path's relationships. */
  method AppendLinks(links: seq<Link>, steps: seq<Edge>) returns (links': seq<Link>)
    ensures links' == links + StepLinks(steps)
  {
    links' := links;
    for j := 0 to |steps|
      invariant links' == links + StepLinks(steps[..j])
    {
      links' := links' + [LinkOf(steps[j])];
    }
    assert steps[..|steps|] == steps;
  }

  /** At most 500 paths are used, each node appears once, every node of
      every used path appears, and there is one link per relationship per
      used path. */
  lemma NetworkShape(s: Snapshot, paths: seq<Path>)
    ensures var r := NetworkOf(s, paths);
      && (forall i, j :: 0 <= i < j < |r.nodes| ==> r.nodes[i].id != r.nodes[j].id)
      && (forall k, n :: 0 <= k < |paths| && k < PathLimit && n in PathNodes(paths[k]) ==>
            exists i :: 0 <= i < |r.nodes| && r.nodes[i].id == n)
      && |r.links| == LinkCount(Take(paths, PathLimit))
      && (forall i :: 0 <= i < |r.nodes| ==>
            r.nodes[i] == ViewOf(s, r.nodes[i].id)
            && exists k :: 0 <= k < |paths| && k < PathLimit && r.nodes[i].id in PathNodes(paths[k]))
      && (forall k, i :: 0 <= k < |paths| && k < PathLimit && 0 <= i < |paths[k].steps| ==>
            LinkOf(paths[k].steps[i]) in r.links)
  {
    var ps := Take(paths, PathLimit);
    var ids := Dedup(AllNodes(ps));
    var r := NetworkOf(s, paths);
    AllLinksCount(ps);
    NetworkContents(s, paths);
    NetworkCoversPaths(s, paths);
  }

  lemma NetworkCoversPaths(s: Snapshot, paths: seq<Path>)
    ensures var r := NetworkOf(s, paths);
      forall k, n :: 0 <= k < |paths| && k < PathLimit && n in PathNodes(paths[k]) ==>
        exists i :: 0 <= i < |r.nodes| && r.nodes[i].id == n
  {
    var ps := Take(paths, PathLimit);
    var ids := Dedup(AllNodes(ps));
    var r := NetworkOf(s, paths);
    forall k, n | 0 <= k < |paths| && k < PathLimit && n in PathNodes(paths[k])
      ensures exists i :: 0 <= i < |r.nodes| && r.nodes[i].id == n
    {
      assert paths[k] == ps[k];
      AllNodesContains(ps, k, n);
      var t :| 0 <= t < |AllNodes(ps)| && AllNodes(ps)[t] == n;
      assert n in ids;
      var i :| 0 <= i < |ids| && ids[i] == n;
      assert r.nodes[i].id == n;
    }
  }

  /** Each network node is shown by its view and comes from a consumed
      path, and each relationship of each consumed path is linked. */
  lemma NetworkContents(s: Snapshot, paths: seq<Path>)
    ensures var r := NetworkOf(s, paths);
      && (forall i :: 0 <= i < |r.nodes| ==>
            r.nodes[i] == ViewOf(s, r.nodes[i].id)
            && exists k :: 0 <= k < |paths| && k < PathLimit && r.nodes[i].id in PathNodes(paths[k]))
      && (forall k, i :: 0 <= k < |paths| && k < PathLimit && 0 <= i < |paths[k].steps| ==>
            LinkOf(paths[k].steps[i]) in r.links)
  {
    var ps := Take(paths, PathLimit);
    var ids := Dedup(AllNodes(ps));
    var r := NetworkOf(s, paths);
    forall i | 0 <= i < |r.nodes|
      ensures exists k :: 0 <= k < |paths| && k < PathLimit && r.nodes[i].id in PathNodes(paths[k])
    {
      assert r.nodes[i].id == ids[i];
      NodesFromPaths(ps, ids[i]);
      var k :| 0 <= k < |ps| && ids[i] in PathNodes(ps[k]);
      assert paths[k] == ps[k];
    }
    forall k, i | 0 <= k < |paths| && k < PathLimit && 0 <= i < |paths[k].steps|
      ensures LinkOf(paths[k].steps[i]) in r.links
    {
      assert paths[k] == ps[k];
      AllLinksContains(ps, k, i);
    }
  }

  function LinkCount(ps: seq<Path>): nat
    decreases |ps|
  {
    if ps == [] then 0 else LinkCount(ps[..|ps| - 1]) + |ps[|ps| - 1].steps|
  }

  lemma {:induction false} AllLinksCount(ps: seq<Path>)
    ensures |AllLinks(ps)| == LinkCount(ps)
    decreases |ps|
  {
    if ps != [] {
      AllLinksCount(ps[..|ps| - 1]);
    }
  }

  lemma {:induction false} AllNodesContains(ps: seq<Path>, k: nat, n: Node)
    requires k < |ps| && n in PathNodes(ps[k])
    ensures n in AllNodes(ps)
    decreases |ps|
  {
    if k < |ps| - 1 {
      assert ps[..|ps| - 1][k] == ps[k];
      AllNodesContains(ps[..|ps| - 1], k, n);
    }
  }

  lemma {:induction false} NodesFromPaths(ps: seq<Path>, n: Node)
    requires n in AllNodes(ps)
    ensures exists k :: 0 <= k < |ps| && n in PathNodes(ps[k])
    decreases |ps|
  {
    var init := ps[..|ps| - 1];
    if n in AllNodes(init) {
      NodesFromPaths(init, n);
      var k :| 0 <= k < |init| && n in PathNodes(init[k]);
      assert ps[k] == init[k];
    }
  }

  lemma {:induction false} AllLinksContains(ps: seq<Path>, k: nat, i: nat)
    requires k < |ps| && i < |ps[k].steps|
    ensures LinkOf(ps[k].steps[i]) in AllLinks(ps)
    decreases |ps|
  {
    var init := ps[..|ps| - 1];
    if k < |ps| - 1 {
      assert init[k] == ps[k];
      AllLinksContains(init, k, i);
    } else {
      assert AllLinks(ps) == AllLinks(init) + PathLinks(ps[k]);
      assert PathLinks(ps[k])[i] == LinkOf(ps[k].steps[i]);
    }
  }

  /** When the paths are ones the query matches, every link is a
      relationship of the store. */
  lemma NetworkLinksAreEdges(s: Snapshot, v: string, hops: nat, paths: seq<Path>, l: Link)
    requires forall k :: 0 <= k < |paths| ==> IsMatchedPath(s, v, hops, paths[k])
    requires l in NetworkOf(s, paths).links
    ensures exists e :: e in Edges(s) && LinkOf(e) == l
  {
    var ps := Take(paths, PathLimit);
    LinksFromPaths(ps, l);
    var k, i :| 0 <= k < |ps| && 0 <= i < |ps[k].steps| && LinkOf(ps[k].steps[i]) == l;
    assert IsMatchedPath(s, v, hops, paths[k]);
    var w :| w in s.indicators && TrailFrom(Edges(s), ps[k].start, ps[k].steps, IndicatorNode(w));
    TrailEdgesIn(Edges(s), ps[k].start, ps[k].steps, IndicatorNode(w), i);
  }

  lemma {:induction false} LinksFromPaths(ps: seq<Path>, l: Link)
    requires l in AllLinks(ps)
    ensures exists k, i :: 0 <= k < |ps| && 0 <= i < |ps[k].steps| && LinkOf(ps[k].steps[i]) == l
    decreases |ps|
  {
    var init := ps[..|ps| - 1];
    if l in AllLinks(init) {
      LinksFromPaths(init, l);
      var k, i :| 0 <= k < |init| && 0 <= i < |init[k].steps| && LinkOf(init[k].steps[i]) == l;
      assert ps[k] == init[k];
    } else {
      var last := PathLinks(ps[|ps| - 1]);
      var i :| 0 <= i < |last| && last[i] == l;
      assert LinkOf(ps[|ps| - 1].steps[i]) == l;
    }
  }

  lemma {:induction false} TrailEdgesIn(E: set<Edge>, x: Node, steps: seq<Edge>, y: Node, i: nat)
    requires TrailFrom(E, x, steps, y) && i < |steps|
    ensures steps[i] in E
    decreases |steps|
  {
    if i > 0 {
      TrailEdgesIn(E - {steps[0]}, Other(steps[0], x), steps[1..], y, i - 1);
    }
  }

  // ---------------------------------------------------------------------
  // vector_search and hybrid_search

  /** A node `queryNodes` yields, with its similarity score. */
  datatype ScoredChunk = ScoredChunk(chunk: Props, score: real)

  /** The sort key of `ORDER BY score DESC`. */
  function NegScore(c: ScoredChunk): real {
    -c.score
  }

  /** `vector_search`: the index's candidates by descending score. */
  function VectorSearch(cands: seq<ScoredChunk>): (r: seq<ScoredChunk>)
    ensures forall i, j :: 0 <= i < j < |r| ==> r[i].score >= r[j].score
    ensures multiset(r) == multiset(cands)
  {
    var r := SortBy(cands, NegScore);
    assert forall i, j :: 0 <= i < j < |r| ==> NegScore(r[i]) <= NegScore(r[j]);
    r
  }

  /** `WHERE toLower(node.text) CONTAINS toLower($text) OR score >= 0`: a
      missing text makes the first test null, which only the second can
      rescue. */
  predicate PassesFilter(text: string, c: ScoredChunk) {
    c.score >= 0.0
    || ("text" in c.chunk && c.chunk["text"].Str? && Contains(Lower(c.chunk["text"].s), Lower(text)))
  }

  /** The candidates that pass the filter, in the order the index yields them. */
  function Filtered(text: string, cands: seq<ScoredChunk>): (r: seq<ScoredChunk>)
    ensures forall i :: 0 <= i < |r| ==> PassesFilter(text, r[i]) && r[i] in cands
    ensures forall i :: 0 <= i < |cands| && PassesFilter(text, cands[i]) ==> cands[i] in r
    ensures multiset(r) <= multiset(cands)
  {
    Filter(cands, c => PassesFilter(text, c))
  }

  /** The filter keeps every passing candidate as often as it occurs, and
      nothing else. */
  lemma FilteredCount(text: string, cands: seq<ScoredChunk>, x: ScoredChunk)
    ensures multiset(Filtered(text, cands))[x] == if PassesFilter(text, x) then multiset(cands)[x] else 0
  {
    FilterCount(cands, c => PassesFilter(text, c), x);
  }

  /** `hybrid_search(text, vec, k)` over the candidates `cands` the index
      yields. */
  function HybridSearch(text: string, cands: seq<ScoredChunk>, k: nat): seq<ScoredChunk> {
    Take(SortBy(Filtered(text, cands), NegScore), k)
  }

  /** At most `k` results, by descending score, each a candidate that
      passes the filter. */
  lemma HybridSearchSpec(text: string, cands: seq<ScoredChunk>, k: nat)
    ensures var r := HybridSearch(text, cands, k);
      && |r| == Min(k, |Filtered(text, cands)|)
      && (forall i, j :: 0 <= i < j < |r| ==> r[i].score >= r[j].score)
      && (forall i :: 0 <= i < |r| ==> r[i] in cands && PassesFilter(text, r[i]))
  {
    var f := Filtered(text, cands);
    var sorted := SortBy(f, NegScore);
    var r := HybridSearch(text, cands, k);
    forall i | 0 <= i < |r| ensures r[i] in cands && PassesFilter(text, r[i]) {
      assert r[i] == sorted[i];
      assert r[i] in multiset(sorted);
      assert r[i] in multiset(f);
    }
    forall i, j | 0 <= i < j < |r| ensures r[i].score >= r[j].score {
      assert NegScore(sorted[i]) <= NegScore(sorted[j]);
    }
  }

  /** The results are the best of the passing candidates: the passing
      candidates left out can follow them in descending order. */
  lemma HybridSearchTop(text: string, cands: seq<ScoredChunk>, k: nat) returns (rest: seq<ScoredChunk>)
    ensures |HybridSearch(text, cands, k)| == Min(k, |Filtered(text, cands)|)
    ensures multiset(HybridSearch(text, cands, k) + rest) == multiset(Filtered(text, cands))
    ensures forall i, j :: 0 <= i < |HybridSearch(text, cands, k)| && 0 <= j < |rest| ==>
      HybridSearch(text, cands, k)[i].score >= rest[j].score
  {
    var sorted := SortBy(Filtered(text, cands), NegScore);
    var r := Take(sorted, k);
    assert r == HybridSearch(text, cands, k);
    rest := sorted[|r|..];
    TakeSplit(sorted, NegScore, k);
    forall i, j | 0 <= i < |r| && 0 <= j < |rest| ensures r[i].score >= rest[j].score {
      assert NegScore(r[i]) <= NegScore(rest[j]);
    }
  }

  /** Every passing candidate is returned when there are at most `k` of them. */
  lemma HybridSearchAllWhenFew(text: string, cands: seq<ScoredChunk>, k: nat)
    requires |Filtered(text, cands)| <= k
    ensures multiset(HybridSearch(text, cands, k)) == multiset(Filtered(text, cands))
  {
  }

  /** When every candidate scores at least zero the query text plays no
      part in the result. */
  lemma HybridSearchIgnoresTextOnNonNegativeScores(t1: string, t2: string, cands: seq<ScoredChunk>, k: nat)
    requires forall i :: 0 <= i < |cands| ==> cands[i].score >= 0.0
    ensures HybridSearch(t1, cands, k) == HybridSearch(t2, cands, k)
  {
    FilteredAll(t1, cands);
    FilteredAll(t2, cands);
  }

  lemma FilteredAll(text: string, cands: seq<ScoredChunk>)
    requires forall i :: 0 <= i < |cands| ==> cands[i].score >= 0.0
    ensures Filtered(text, cands) == cands
  {
    FilterAll(cands, c => PassesFilter(text, c));
  }
}
