/** The query library (src/queries.py): two-hop neighbourhood, co-mention
    clusters of social accounts, indicators spanning campaigns and the
    mention timeline of one indicator. Each is a read-only query over a
    store snapshot.

    Rows the database returns without an `ORDER BY`, and rows that tie on
    the sort key, come in an order no one states; the model fixes some
    enumeration of them (`SeqOfSet`), so the queries that sort are ghost. */
module Queries {
  import opened Collections
  import opened Text
  import opened GraphDb
  import opened GraphReads

  // ---------------------------------------------------------------------
  // graph_two_hop

  /** `graph_two_hop(value)`: the indicators joined to `v` by a trail of one
      or two relationships, crossed in any direction. */
  function GraphTwoHop(s: Snapshot, v: string): (r: set<string>)
    ensures forall w :: w in r <==>
      w in s.indicators
      && exists steps :: 1 <= |steps| <= 2 && TrailFrom(Edges(s), IndicatorNode(v), steps, IndicatorNode(w))
  {
    var r := Relationships(s, v, 2);
    forall w ensures w in r <==>
      w in s.indicators
      && exists steps :: 1 <= |steps| <= 2 && TrailFrom(Edges(s), IndicatorNode(v), steps, IndicatorNode(w))
    {
      RelationshipsSpec(s, v, 2, w);
    }
    r
  }

  // ---------------------------------------------------------------------
  // clusters_by_handle

  /** An indicator node whose `type` starts with `social:`. */
  predicate IsSocial(s: Snapshot, v: string) {
    v in s.indicators && StartsWith(s.indicators[v].typ, "social:")
  }

  /** The matches of `(i)-[:MENTIONED_IN]->(d:Document)<-[:MENTIONED_IN]-(j)`
      for `i.value == a` and `j.value == b`: pairs of mention edges, one of
      each indicator, that end at the same document. */
  function CoMentions(s: Snapshot, a: string, b: string): (r: set<(MentionKey, MentionKey)>)
    ensures forall p :: p in r <==>
      p.0 in s.mentions && p.1 in s.mentions && p.0.value == a && p.1.value == b
      && p.0.docId == p.1.docId && p.0.docId in s.documents
  {
    set k1, k2 | k1 in s.mentions && k2 in s.mentions && k1.value == a && k2.value == b
      && k1.docId == k2.docId && k1.docId in s.documents :: (k1, k2)
  }

  /** Co-mentions are counted the same from either side. */
  lemma CoMentionsSymmetric(s: Snapshot, a: string, b: string)
    ensures |CoMentions(s, a, b)| == |CoMentions(s, b, a)|
  {
    assert CoMentions(s, b, a) == Swapped(CoMentions(s, a, b));
    SwappedCard(CoMentions(s, a, b));
  }

  /** The mention edges of `v` that end at the document `d`. */
  function MentionsIn(s: Snapshot, v: string, d: Value): set<MentionKey> {
    set k | k in s.mentions && k.value == v && k.docId == d
  }

  /** The sum, over the documents `docs`, of the number of mentions of `a`
      times the number of mentions of `b` in each. */
  function PairCount(s: Snapshot, a: string, b: string, docs: seq<Value>): nat
    decreases |docs|
  {
    if docs == [] then 0
    else
      var d := docs[|docs| - 1];
      PairCount(s, a, b, docs[..|docs| - 1]) + |MentionsIn(s, a, d)| * |MentionsIn(s, b, d)|
  }

  /** The co-mentions through the documents `docs`. */
  function CoMentionsWithin(s: Snapshot, a: string, b: string, docs: seq<Value>): set<(MentionKey, MentionKey)> {
    set p | p in CoMentions(s, a, b) && p.0.docId in docs
  }

  /** `count(*)` of the co-mention pattern: every document contributes
      each mention of `a` in it paired with each mention of `b` in it. */
  lemma CoMentionsCount(s: Snapshot, a: string, b: string, docs: seq<Value>)
    requires Distinct(docs) && forall d :: d in docs <==> d in s.documents
    ensures |CoMentions(s, a, b)| == PairCount(s, a, b, docs)
  {
    CoMentionsWithinCount(s, a, b, docs);
    assert CoMentionsWithin(s, a, b, docs) == CoMentions(s, a, b);
  }

  lemma {:induction false} CoMentionsWithinCount(s: Snapshot, a: string, b: string, docs: seq<Value>)
    requires Distinct(docs) && forall d :: d in docs ==> d in s.documents
    ensures |CoMentionsWithin(s, a, b, docs)| == PairCount(s, a, b, docs)
    decreases |docs|
  {
    if docs == [] {
      assert CoMentionsWithin(s, a, b, docs) == {};
    } else {
      var init, d := docs[..|docs| - 1], docs[|docs| - 1];
      var before, here := CoMentionsWithin(s, a, b, init), Product(MentionsIn(s, a, d), MentionsIn(s, b, d));
      DistinctInit(docs);
      CoMentionsWithinCount(s, a, b, init);
      ProductCard(MentionsIn(s, a, d), MentionsIn(s, b, d));
      CoMentionsWithinSnoc(s, a, b, docs);
      assert before * here == {};
      assert |before + here| == |before| + |here|;
    }
  }

  /** One more document adds its own co-mentions. */
  lemma CoMentionsWithinSnoc(s: Snapshot, a: string, b: string, docs: seq<Value>)
    requires docs != [] && docs[|docs| - 1] in s.documents
    ensures var d := docs[|docs| - 1];
      CoMentionsWithin(s, a, b, docs)
      == CoMentionsWithin(s, a, b, docs[..|docs| - 1]) + Product(MentionsIn(s, a, d), MentionsIn(s, b, d))
  {
  }

  /** A row `{a, b, w}` of `clusters_by_handle`. */
  datatype ClusterRow = ClusterRow(a: string, b: string, w: nat)

  /** Every row the query groups before `ORDER BY` and `LIMIT`: one per
      ordered pair of distinct social indicators mentioned in a common
      document, weighted by `count(*)`. */
  function ClusterRows(s: Snapshot): (r: set<ClusterRow>)
    ensures forall row :: row in r <==>
      && IsSocial(s, row.a) && IsSocial(s, row.b) && row.a != row.b
      && CoMentions(s, row.a, row.b) != {}
      && row.w == |CoMentions(s, row.a, row.b)|
  {
    set a, b | a in s.indicators && b in s.indicators && a != b && IsSocial(s, a) && IsSocial(s, b)
      && CoMentions(s, a, b) != {} :: ClusterRow(a, b, |CoMentions(s, a, b)|)
  }

  /** Both orientations of a pair appear, with the same weight. */
  lemma ClusterRowsSymmetric(s: Snapshot, a: string, b: string, w: nat)
    ensures ClusterRow(a, b, w) in ClusterRows(s) <==> ClusterRow(b, a, w) in ClusterRows(s)
  {
    CoMentionsSymmetric(s, a, b);
    if CoMentions(s, a, b) != {} {
      var p :| p in CoMentions(s, a, b);
      assert (p.1, p.0) in CoMentions(s, b, a);
    }
    if CoMentions(s, b, a) != {} {
      var p :| p in CoMentions(s, b, a);
      assert (p.1, p.0) in CoMentions(s, a, b);
    }
  }

  function NegWeight(row: ClusterRow): real {
    -(row.w as real)
  }

  /** `ORDER BY w DESC LIMIT n` over the rows `rows`. */
  ghost function HeaviestFirst(rows: set<ClusterRow>, n: nat): (r: seq<ClusterRow>)
    ensures |r| == Min(n, |rows|)
    ensures forall i, j :: 0 <= i < j < |r| ==> r[i].w >= r[j].w
    ensures forall i :: 0 <= i < |r| ==> r[i] in rows
    ensures Distinct(r)
  {
    var r := TopBy(rows, NegWeight, n);
    forall i, j | 0 <= i < j < |r| ensures r[i].w >= r[j].w {
      assert NegWeight(r[i]) <= NegWeight(r[j]);
    }
    r
  }

  /** A row the limit cuts weighs no more than any row kept. */
  lemma HeaviestFirstCut(rows: set<ClusterRow>, n: nat, row: ClusterRow)
    requires row in rows && row !in HeaviestFirst(rows, n)
    ensures |rows| > n
    ensures forall i :: 0 <= i < |HeaviestFirst(rows, n)| ==> row.w <= HeaviestFirst(rows, n)[i].w
  {
    var r := HeaviestFirst(rows, n);
    TopByCut(rows, NegWeight, n, row);
    forall i | 0 <= i < |r| ensures row.w <= r[i].w {
      assert NegWeight(r[i]) <= NegWeight(row);
    }
  }

  /** `clusters_by_handle()`: at most 100 rows, heaviest first, each row
      once. */
  ghost function ClustersByHandle(s: Snapshot): (r: seq<ClusterRow>)
    ensures |r| == Min(100, |ClusterRows(s)|)
    ensures forall i, j :: 0 <= i < j < |r| ==> r[i].w >= r[j].w
    ensures forall i :: 0 <= i < |r| ==> r[i] in ClusterRows(s)
    ensures Distinct(r)
  {
    HeaviestFirst(ClusterRows(s), 100)
  }

  /** The rows cut by `LIMIT 100` weigh no more than any row kept, and
      nothing is cut when there are at most 100 rows. */
  lemma ClustersByHandleTop(s: Snapshot, row: ClusterRow)
    requires row in ClusterRows(s) && row !in ClustersByHandle(s)
    ensures |ClusterRows(s)| > 100
    ensures forall i :: 0 <= i < |ClustersByHandle(s)| ==> row.w <= ClustersByHandle(s)[i].w
  {
    HeaviestFirstCut(ClusterRows(s), 100, row);
  }

  // ---------------------------------------------------------------------
  // across_campaigns

  /** `collect(DISTINCT c.name)` for the indicator `v`: the campaigns of
      the documents `v` is mentioned in. */
  function CampaignsOf(s: Snapshot, v: string): (r: set<string>)
    ensures forall c :: c in r <==>
      v in s.indicators && c in s.campaigns
      && exists k :: k in s.mentions && k.value == v && k.docId in s.documents && (k.docId, c) in s.inCampaign
  {
    set e, k | e in s.inCampaign && k in s.mentions && v in s.indicators && k.value == v
      && k.docId == e.0 && k.docId in s.documents && e.1 in s.campaigns :: e.1
  }

  /** `across_campaigns()`: each indicator with its campaigns, for the
      indicators that belong to more than one campaign. */
  function AcrossCampaigns(s: Snapshot): (r: map<string, set<string>>)
    ensures forall v :: v in r <==> |CampaignsOf(s, v)| > 1
    ensures forall v :: v in r ==> r[v] == CampaignsOf(s, v) && r[v] <= s.campaigns
  {
    map v | v in s.indicators && |CampaignsOf(s, v)| > 1 :: CampaignsOf(s, v)
  }

  /** Linking a document to a campaign adds that campaign to exactly the
      indicators mentioned in the document. */
  lemma LinkCampaignAddsCampaign(s: Snapshot, docId: string, name: string, v: string)
    requires Str(docId) in s.documents && name in s.campaigns
    ensures CampaignsOf(Apply(s, LinkCampaign(docId, name)), v) ==
      CampaignsOf(s, v)
      + (if v in s.indicators && exists c :: c in s.mentions && c.value == v && c.docId == Str(docId)
         then {name} else {})
  {
    var t := Apply(s, LinkCampaign(docId, name));
    assert t.inCampaign == s.inCampaign + {(Str(docId), name)};
    if v in s.indicators && exists c :: c in s.mentions && c.value == v && c.docId == Str(docId) {
      var c :| c in s.mentions && c.value == v && c.docId == Str(docId);
      assert name in CampaignsOf(t, v);
    }
  }

  /** The writes never take a campaign away from an indicator. */
  lemma CampaignsOfGrows(s: Snapshot, t: Snapshot, v: string)
    requires Grows(s, t)
    ensures CampaignsOf(s, v) <= CampaignsOf(t, v)
  {
    forall c | c in CampaignsOf(s, v) ensures c in CampaignsOf(t, v) {
      var k :| k in s.mentions && k.value == v && k.docId in s.documents && (k.docId, c) in s.inCampaign;
      assert k in t.mentions && k.docId in t.documents;
    }
  }

  /** Once an indicator spans several campaigns it keeps doing so after
      any further writes, with at least the same campaigns. */
  lemma AcrossCampaignsGrows(s: Snapshot, ops: seq<Op>, v: string)
    requires v in AcrossCampaigns(s)
    ensures var t := ApplyAll(s, ops);
      v in AcrossCampaigns(t) && AcrossCampaigns(s)[v] <= AcrossCampaigns(t)[v]
  {
    var t := ApplyAll(s, ops);
    ApplyAllGrows(s, ops);
    CampaignsOfGrows(s, t, v);
    SubsetCard(CampaignsOf(s, v), CampaignsOf(t, v));
  }

  // ---------------------------------------------------------------------
  // timeline

  /** A row `{documentId, ts}` of `timeline`. */
  datatype TimelineRow = TimelineRow(documentId: Value, ts: int)

  function TsKey(row: TimelineRow): real {
    row.ts as real
  }

  /** The mention edges `(i:Indicator {value: v})-[r:MENTIONED_IN]->(d:Document)`. */
  function MentionsOf(s: Snapshot, v: string): (r: set<MentionKey>)
    ensures forall k :: k in r <==> k in s.mentions && k.value == v && v in s.indicators && k.docId in s.documents
  {
    set k | k in s.mentions && k.value == v && v in s.indicators && k.docId in s.documents
  }

  function TimelineRowOf(s: Snapshot, k: MentionKey): TimelineRow
    requires k in s.mentions
  {
    TimelineRow(k.docId, s.mentions[k].ts)
  }

  /** The key `ORDER BY r.ts` sorts the mention edges by. */
  function MentionTs(s: Snapshot): MentionKey -> real {
    k => if k in s.mentions then s.mentions[k].ts as real else 0.0
  }

  /** The rows of the mention edges `ks`, in the same order. */
  function RowsOf(s: Snapshot, ks: seq<MentionKey>): (r: seq<TimelineRow>)
    requires forall i :: 0 <= i < |ks| ==> ks[i] in s.mentions
    ensures |r| == |ks|
    ensures forall i :: 0 <= i < |ks| ==> r[i] == TimelineRowOf(s, ks[i])
  {
    seq(|ks|, i requires 0 <= i < |ks| => TimelineRowOf(s, ks[i]))
  }

  /** Edges sorted by timestamp give rows sorted by `ts`. */
  lemma RowsSorted(s: Snapshot, ks: seq<MentionKey>)
    requires forall i :: 0 <= i < |ks| ==> ks[i] in s.mentions
    requires SortedBy(ks, MentionTs(s))
    ensures forall i, j :: 0 <= i < j < |ks| ==> RowsOf(s, ks)[i].ts <= RowsOf(s, ks)[j].ts
  {
    var r := RowsOf(s, ks);
    forall i, j | 0 <= i < j < |ks| ensures r[i].ts <= r[j].ts {
      assert MentionTs(s)(ks[i]) <= MentionTs(s)(ks[j]);
    }
  }

  /** Every listed edge has its row. */
  lemma RowsCover(s: Snapshot, ks: seq<MentionKey>, k: MentionKey)
    requires forall i :: 0 <= i < |ks| ==> ks[i] in s.mentions
    requires k in ks
    ensures k in s.mentions && TimelineRowOf(s, k) in RowsOf(s, ks)
  {
    var m :| 0 <= m < |ks| && ks[m] == k;
    assert RowsOf(s, ks)[m] == TimelineRowOf(s, k);
  }

  /** The mention edges of `v` in the order `ORDER BY r.ts` lists them:
      each edge once, oldest first. */
  ghost function TimelineKeys(s: Snapshot, v: string): (r: seq<MentionKey>)
    ensures Distinct(r) && |r| == |MentionsOf(s, v)|
    ensures forall k :: k in r <==> k in MentionsOf(s, v)
    ensures forall i :: 0 <= i < |r| ==> r[i] in s.mentions
    ensures SortedBy(r, MentionTs(s))
  {
    var edges := MentionsOf(s, v);
    var ks := TopBy(edges, MentionTs(s), |edges|);
    forall k | k in edges ensures k in ks {
      TopByAll(edges, MentionTs(s), k);
    }
    ks
  }

  /** `timeline(value)`: one row per mention edge of `v`, oldest first. */
  ghost function Timeline(s: Snapshot, v: string): (r: seq<TimelineRow>)
    ensures |r| == |MentionsOf(s, v)|
    ensures forall i, j :: 0 <= i < j < |r| ==> r[i].ts <= r[j].ts
    ensures forall i :: 0 <= i < |r| ==> exists k :: k in MentionsOf(s, v) && k in s.mentions && r[i] == TimelineRowOf(s, k)
    ensures forall k :: k in MentionsOf(s, v) ==> k in s.mentions && TimelineRowOf(s, k) in r
    ensures r == RowsOf(s, TimelineKeys(s, v))
  {
    var ks := TimelineKeys(s, v);
    KeyedRows(s, v, ks);
    RowsOf(s, ks)
  }

  /** The rows of the ordered mention edges are the timeline's rows. */
  lemma KeyedRows(s: Snapshot, v: string, ks: seq<MentionKey>)
    requires Distinct(ks) && |ks| == |MentionsOf(s, v)|
    requires forall k :: k in ks <==> k in MentionsOf(s, v)
    requires forall i :: 0 <= i < |ks| ==> ks[i] in s.mentions
    requires SortedBy(ks, MentionTs(s))
    ensures var r := RowsOf(s, ks);
      && |r| == |MentionsOf(s, v)|
      && (forall i, j :: 0 <= i < j < |r| ==> r[i].ts <= r[j].ts)
      && (forall i :: 0 <= i < |r| ==> exists k :: k in MentionsOf(s, v) && k in s.mentions && r[i] == TimelineRowOf(s, k))
      && (forall k :: k in MentionsOf(s, v) ==> k in s.mentions && TimelineRowOf(s, k) in r)
  {
    RowsSorted(s, ks);
    forall k | k in MentionsOf(s, v) ensures TimelineRowOf(s, k) in RowsOf(s, ks) {
      RowsCover(s, ks, k);
    }
  }

  /** A mention written by `add_indicator` shows in the timeline, which
      grows by one row unless the edge already existed. */
  lemma TimelineAfterMention(s: Snapshot, ind: IndicatorInput, docId: string, ctx: Option<string>, now: int)
    requires Consistent(s) && Str(docId) in s.documents
    ensures var t := Apply(s, AddIndicator(ind, docId, ctx, now));
      var k := MentionKey(ind.value, Str(docId), ConfidenceOf(ind));
      && TimelineRow(Str(docId), now) in Timeline(t, ind.value)
      && |Timeline(t, ind.value)| == |Timeline(s, ind.value)| + (if k in s.mentions then 0 else 1)
  {
    var t := Apply(s, AddIndicator(ind, docId, ctx, now));
    var k := MentionKey(ind.value, Str(docId), ConfidenceOf(ind));
    MentionsAfterMention(s, ind, docId, ctx, now);
    TimelineAddsEdge(s, t, ind.value, k);
  }

  /** The timeline once the edge `k` of `v` is added to the edges of `s`. */
  lemma TimelineAddsEdge(s: Snapshot, t: Snapshot, v: string, k: MentionKey)
    requires k in t.mentions && MentionsOf(t, v) == MentionsOf(s, v) + {k}
    requires k in s.mentions ==> k in MentionsOf(s, v)
    ensures TimelineRowOf(t, k) in Timeline(t, v)
    ensures |Timeline(t, v)| == |Timeline(s, v)| + (if k in s.mentions then 0 else 1)
  {
    var before := MentionsOf(s, v);
    assert k in before <==> k in s.mentions;
    AddOneCard(before, MentionsOf(t, v), k);
  }

  lemma MentionsAfterMention(s: Snapshot, ind: IndicatorInput, docId: string, ctx: Option<string>, now: int)
    requires Consistent(s) && Str(docId) in s.documents
    ensures var t := Apply(s, AddIndicator(ind, docId, ctx, now));
      var k := MentionKey(ind.value, Str(docId), ConfidenceOf(ind));
      && k in t.mentions && t.mentions[k] == Mention(ctx, now)
      && MentionsOf(t, ind.value) == MentionsOf(s, ind.value) + {k}
      && (k in s.mentions ==> k in MentionsOf(s, ind.value))
  {
    var t := Apply(s, AddIndicator(ind, docId, ctx, now));
    var k := MentionKey(ind.value, Str(docId), ConfidenceOf(ind));
    assert t.mentions == s.mentions[k := Mention(ctx, now)];
    assert t.documents == s.documents;
    forall m | m in s.mentions && m.value == ind.value ensures ind.value in s.indicators {
    }
  }
}
