/** The ingestion pipeline (src/pipeline.py): inferring a campaign name
    from a file name, and the order of the store writes that loading one
    PDF, or a directory listing of them, issues.

    Reading a PDF, splitting it into chunks and embedding the chunk texts
    are oracles the caller passes in (`Loader`, `Embedder`); so is the
    regex engine the indicator extraction uses. */
module Pipeline {
  import opened Collections
  import opened Text
  import opened Indicators
  import opened GraphDb

  // ---------------------------------------------------------------------
  // File names (posixpath)

  /** `os.path.basename(path)`: what follows the last `/`. */
  function Basename(path: string): (r: string)
    ensures |r| <= |path| && r == path[|path| - |r|..]
    ensures forall k :: 0 <= k < |r| ==> r[k] != '/'
    ensures |r| < |path| ==> path[|path| - |r| - 1] == '/'
  {
    path[LastIndexOf(path, '/') + 1..]
  }

  predicate IsDot(c: char) { c == '.' }

  /** `os.path.splitext(name)[0]` for a name without `/`: the name up to
      its last `.`, unless only dots precede that `.` (a leading-dot name
      such as `.pdf` has no extension). */
  function Root(name: string): (r: string)
    ensures |r| <= |name| && r == name[..|r|]
  {
    var d := LastIndexOf(name, '.');
    if d >= 0 && LeadingCount(name[..d], IsDot) < d then name[..d] else name
  }

  /** What `Root` cuts is an extension: a last `.` and what follows, with
      something other than dots before it; and a name it leaves whole has
      no such `.`. */
  lemma RootSpec(name: string)
    ensures var r := Root(name);
      r != name ==>
        && name[|r|] == '.'
        && (forall k :: |r| < k < |name| ==> name[k] != '.')
        && exists k :: 0 <= k < |r| && name[k] != '.'
    ensures var r := Root(name);
      r == name ==> forall d :: 0 <= d < |name| && name[d] == '.' ==>
        (exists k :: d < k < |name| && name[k] == '.') || forall k :: 0 <= k < d ==> name[k] == '.'
  {
    var d := LastIndexOf(name, '.');
    if d >= 0 && LeadingCount(name[..d], IsDot) < d {
      assert name[..d][LeadingCount(name[..d], IsDot)] != '.';
    } else {
      assert forall k :: 0 <= k < d ==> name[..d][k] == name[k];
    }
  }

  /** `base.replace("_", " ").replace("-", " ")`. */
  function Unseparate(base: string): (r: string)
    ensures |r| == |base|
    ensures forall k :: 0 <= k < |r| ==> r[k] == if base[k] == '_' || base[k] == '-' then ' ' else base[k]
  {
    ReplaceAllChar(base, '_', ' ');
    var b := ReplaceAll(base, "_", " ");
    ReplaceAllChar(b, '-', ' ');
    ReplaceAll(b, "-", " ")
  }

  // ---------------------------------------------------------------------
  // The keyword search `(storm[-\s]?\d+|doppelganger|secondaryops)`,
  // case-insensitive, run on the lower-cased name.

  /** The class `[-\s]`. */
  predicate IsSep(c: char) { c == '-' || IsSpace(c) }

  /** Every character of `s[i..j]` is a digit. */
  predicate DigitsBetween(s: string, i: nat, j: nat)
    requires i <= j <= |s|
  {
    forall k :: i <= k < j ==> IsDigit(s[k])
  }

  /** `storm[-\s]?\d+` matches `s[p..p + n]` and cannot be extended. */
  predicate StormMatch(s: string, p: nat, n: nat)
    requires p + n <= |s|
  {
    && StartsWith(s[p..], "storm") && n > 5
    && ((IsDigit(s[p + 5]) && DigitsBetween(s, p + 5, p + n))
        || (n > 6 && IsSep(s[p + 5]) && DigitsBetween(s, p + 6, p + n)))
    && (p + n == |s| || !IsDigit(s[p + n]))
  }

  /** The length of the match of the keyword pattern that starts at `p` in
      the lower-cased `s`, or 0 when none does. At most one alternative
      can match at `p`: `doppelganger` begins with another letter than the
      other two, and `storm` and `secondaryops` differ in their second
      letter. `\d+` takes every digit that follows, and `[-\s]?` gives
      way when no digit comes after it. */
  function KeywordAt(s: string, p: nat): (n: nat)
    requires p <= |s|
    ensures p + n <= |s|
    ensures n == 0 ==>
      && !StartsWith(s[p..], "doppelganger") && !StartsWith(s[p..], "secondaryops")
      && forall m :: p + m <= |s| ==> !StormMatch(s, p, m)
    ensures n > 0 ==> s[p..p + n] == "doppelganger" || s[p..p + n] == "secondaryops" || StormMatch(s, p, n)
  {
    var t := s[p..];
    if StartsWith(t, "storm") then
      if 5 < |t| && IsDigit(t[5]) then
        StormDigits(s, p, p + 5);
        5 + LeadingCount(t[5..], IsDigit)
      else if 6 < |t| && IsSep(t[5]) && IsDigit(t[6]) then
        StormDigits(s, p, p + 6);
        6 + LeadingCount(t[6..], IsDigit)
      else
        StormWithoutDigits(s, p);
        0
    else if StartsWith(t, "doppelganger") then
      assert s[p..p + 12] == t[..12];
      12
    else if StartsWith(t, "secondaryops") then
      assert s[p..p + 12] == t[..12];
      12
    else
      0
  }

  /** `storm`, an optional separator ending at `q`, then the digits that
      follow `q`: the storm alternative matches. */
  lemma StormDigits(s: string, p: nat, q: nat)
    requires p + 5 <= q < |s| && StartsWith(s[p..], "storm") && IsDigit(s[q])
    requires q == p + 5 || (q == p + 6 && IsSep(s[p + 5]))
    ensures StormMatch(s, p, q - p + LeadingCount(s[p..][q - p..], IsDigit))
  {
    var d := LeadingCount(s[p..][q - p..], IsDigit);
    assert s[p..][q - p..] == s[q..];
    assert forall k :: q <= k < q + d ==> s[k] == s[q..][k - q];
  }

  /** `storm` followed by neither a digit nor a separator and a digit: no
      keyword starts here. */
  lemma StormWithoutDigits(s: string, p: nat)
    requires p <= |s| && StartsWith(s[p..], "storm")
    requires !(p + 5 < |s| && IsDigit(s[p + 5]))
    requires !(p + 6 < |s| && IsSep(s[p + 5]) && IsDigit(s[p + 6]))
    ensures !StartsWith(s[p..], "doppelganger") && !StartsWith(s[p..], "secondaryops")
    ensures forall m :: p + m <= |s| ==> !StormMatch(s, p, m)
  {
    var t := s[p..];
    assert t[0] == t[..5][0] == 's' && t[1] == t[..5][1] == 't';
  }

  /** `re.search`: the leftmost start at or after `from` where the pattern
      matches, with the length of that match. */
  function FindKeyword(s: string, from: nat): (r: Option<(nat, nat)>)
    requires from <= |s|
    ensures r.Some? ==> from <= r.value.0 <= |s| && r.value.1 == KeywordAt(s, r.value.0) > 0
    ensures r.Some? ==> forall q :: from <= q < r.value.0 ==> KeywordAt(s, q) == 0
    ensures r.None? ==> forall q :: from <= q <= |s| ==> KeywordAt(s, q) == 0
    decreases |s| - from
  {
    if KeywordAt(s, from) > 0 then Some((from, KeywordAt(s, from)))
    else if from == |s| then None
    else FindKeyword(s, from + 1)
  }

  /** `clean_campaign_name(filename)`. `None` is the `IndexError` a name
      without any word raises. */
  function CleanCampaignName(filename: string): Option<string> {
    CampaignFromBase(Unseparate(Root(Basename(filename))))
  }

  /** The campaign named by a base name whose separators are spaces: the
      leftmost keyword, or else the last word. */
  function CampaignFromBase(base: string): Option<string> {
    match FindKeyword(Lower(base), 0)
    case Some((p, n)) => Some(KeywordName(base, p, n))
    case None => LastWordName(base)
  }

  /** `m.group(1).replace(" ", "-").capitalize()` for the match `base[p..p + n]`. */
  function KeywordName(base: string, p: nat, n: nat): string
    requires p + n <= |base|
  {
    Capitalize(ReplaceAll(base[p..p + n], " ", "-"))
  }

  /** `base.split()[-1].capitalize()`. */
  function LastWordName(base: string): Option<string> {
    match LastWord(base)
    case Some(w) => Some(Capitalize(w))
    case None => None
  }

  /** A name that holds a keyword yields the leftmost one: its lower-cased
      form is the lower-cased match with spaces as `-`. */
  lemma KeywordNameSpec(base: string, p: nat, n: nat)
    requires p + n <= |base|
    ensures |KeywordName(base, p, n)| == n
    ensures forall k :: 0 <= k < n ==>
      Lower(KeywordName(base, p, n))[k] == if base[p + k] == ' ' then '-' else LowerChar(base[p + k])
  {
    var w := base[p..p + n];
    ReplaceAllChar(w, ' ', '-');
    var r := KeywordName(base, p, n);
    forall k | 0 <= k < n
      ensures Lower(r)[k] == if base[p + k] == ' ' then '-' else LowerChar(base[p + k])
    {
      assert Lower(r)[k] == LowerChar(ReplaceAll(w, " ", "-")[k]);
      assert w[k] == base[p + k];
    }
  }

  /** Without a keyword the name is the last word, which has no whitespace;
      the call fails exactly when the name has no word. */
  lemma LastWordNameSpec(base: string)
    ensures LastWordName(base).None? <==> forall k :: 0 <= k < |base| ==> IsSpace(base[k])
    ensures LastWordName(base).Some? ==>
      && LastWord(base).Some?
      && Lower(LastWordName(base).value) == Lower(LastWord(base).value)
      && forall k :: 0 <= k < |LastWordName(base).value| ==> !IsSpace(LastWordName(base).value[k])
  {
    match LastWord(base)
    case Some(w) =>
      assert LastWordName(base) == Some(Capitalize(w));
      CapitalizeKeepsWord(w);
    case None =>
  }

  /** Capitalising a word without whitespace leaves none in it. */
  lemma CapitalizeKeepsWord(w: string)
    requires forall k :: 0 <= k < |w| ==> !IsSpace(w[k])
    ensures forall k :: 0 <= k < |Capitalize(w)| ==> !IsSpace(Capitalize(w)[k])
  {
    var r := Capitalize(w);
    forall k | 0 <= k < |r| ensures !IsSpace(r[k]) {
      assert r[k] == w[k] || IsUpper(r[k]) || IsLower(r[k]);
    }
  }

  /** `_`, `-` and space are interchangeable in a file name. */
  lemma CleanCampaignNameSeparators(f1: string, f2: string)
    requires Unseparate(Root(Basename(f1))) == Unseparate(Root(Basename(f2)))
    ensures CleanCampaignName(f1) == CleanCampaignName(f2)
  {
  }

  /** A name always comes out capitalised: upper-case or caseless first,
      no upper-case letter after. */
  lemma CleanCampaignNameCapitalised(filename: string)
    requires CleanCampaignName(filename).Some?
    ensures var r := CleanCampaignName(filename).value;
      && (|r| > 0 ==> !IsLower(r[0]))
      && forall k :: 0 < k < |r| ==> !IsUpper(r[k])
  {
  }

  // ---------------------------------------------------------------------
  // process_pdf: the writes loading one PDF issues

  /** A chunk as the splitter yields it. */
  datatype Chunk = Chunk(id: string, text: string)

  /** The Document properties `{"id": doc_id, "path": filepath}`. */
  function DocumentProps(docId: string, path: string): Props {
    map["id" := Str(docId), "path" := Str(path)]
  }

  /** The Chunk properties `{"id", "text", "embedding"}`. */
  function ChunkProps(c: Chunk, vec: seq<real>): Props {
    map["id" := Str(c.id), "text" := Str(c.text), "embedding" := FloatList(vec)]
  }

  /** An extracted indicator as `add_indicator` reads it: the dict has no
      `firstSeen` or `lastSeen` key. */
  function InputOf(c: Candidate): IndicatorInput {
    IndicatorInput(c.value, c.typ, Null, Null, Some(c.confidence))
  }

  /** `if campaign:` — a campaign is linked only when it is a non-empty
      string. */
  function CampaignOps(docId: string, campaign: Option<string>): seq<Op> {
    if campaign.Some? && campaign.value != "" then
      [MergeCampaign(campaign.value), LinkCampaign(docId, campaign.value)]
    else []
  }

  /** One `add_indicator` per extracted indicator, each naming the chunk. */
  function MentionOps(docId: string, chunkId: string, inds: seq<Candidate>, now: int): (r: seq<Op>)
    ensures |r| == |inds|
    ensures forall i :: 0 <= i < |r| ==> r[i] == AddIndicator(InputOf(inds[i]), docId, Some(chunkId), now)
    decreases |inds|
  {
    if inds == [] then []
    else MentionOps(docId, chunkId, inds[..|inds| - 1], now) + [AddIndicator(InputOf(inds[|inds| - 1]), docId, Some(chunkId), now)]
  }

  /** The writes for one (chunk, vector) pair whose text yields `inds`. */
  function ChunkOps(docId: string, c: Chunk, vec: seq<real>, inds: seq<Candidate>, now: int): seq<Op> {
    [AddChunk(docId, ChunkProps(c, vec))] + MentionOps(docId, c.id, inds, now)
  }

  /** A function from a chunk text to the indicators found in it. */
  type Extractor = string -> seq<Candidate>

  /** `extract_indicators` with the regex engine `engine`. The writes below
      are stated for any extractor, so that reasoning about them never
      unfolds the extraction itself. */
  function Extraction(engine: Engine): (f: Extractor)
    ensures forall text :: f(text) == Extract(text, engine)
  {
    text => Extract(text, engine)
  }

  /** The indicators extracted from each chunk's text. */
  function ExtractAll(chunks: seq<Chunk>, extract: Extractor): (r: seq<seq<Candidate>>)
    ensures |r| == |chunks|
    ensures forall i :: 0 <= i < |r| ==> r[i] == extract(chunks[i].text)
  {
    seq(|chunks|, i requires 0 <= i < |chunks| => extract(chunks[i].text))
  }

  /** The writes for the first `n` pairs of `zip(chunks, vecs)`; the loop
      never writes a Document. */
  function LoadOps(docId: string, chunks: seq<Chunk>, vecs: seq<seq<real>>, inds: seq<seq<Candidate>>, n: nat, now: int): (r: seq<Op>)
    requires n <= |chunks| && n <= |vecs| && n <= |inds|
    ensures forall i :: 0 <= i < |r| ==> !r[i].UpsertDocument?
  {
    if n == 0 then []
    else LoadOps(docId, chunks, vecs, inds, n - 1, now) + ChunkOps(docId, chunks[n - 1], vecs[n - 1], inds[n - 1], now)
  }

  /** Every write `process_pdf` issues, in order: the Document, the
      Campaign and its link, then per pair of `zip(chunks, vecs)` the Chunk
      and its indicators. */
  function PdfOps(path: string, docId: string, chunks: seq<Chunk>, vecs: seq<seq<real>>,
                  extract: Extractor, campaign: Option<string>, now: int): seq<Op> {
    [UpsertDocument(DocumentProps(docId, path))] + CampaignOps(docId, campaign)
      + LoadOps(docId, chunks, vecs, ExtractAll(chunks, extract), Min(|chunks|, |vecs|), now)
  }

  /** `process_pdf`, with the chunks and their vectors already computed and
      the server clock reading `now`: issues `PdfOps` against the store and
      returns the number of chunks, paired with a vector or not. */
  method ProcessPdf(g: Graph, path: string, docId: string, chunks: seq<Chunk>, vecs: seq<seq<real>>,
                    engine: Engine, campaign: Option<string>, now: int) returns (stats: nat)
    modifies g
    ensures g.Snap() == ApplyAll(old(g.Snap()), PdfOps(path, docId, chunks, vecs, Extraction(engine), campaign, now))
    ensures g.schema == old(g.schema)
    ensures stats == |chunks|
  {
    ghost var s0 := g.Snap();
    StoreDocument(g, path, docId, campaign);
    var n := if |chunks| <= |vecs| then |chunks| else |vecs|;
    StoreChunks(g, docId, chunks, vecs, n, engine, now);
    ApplyAllAppend(s0, [UpsertDocument(DocumentProps(docId, path))] + CampaignOps(docId, campaign),
      LoadOps(docId, chunks, vecs, ExtractAll(chunks, Extraction(engine)), n, now));
    stats := |chunks|;
  }

  /** The loop over the first `n` pairs of `zip(chunks, vecs)`. */
  method StoreChunks(g: Graph, docId: string, chunks: seq<Chunk>, vecs: seq<seq<real>>, n: nat, engine: Engine, now: int)
    requires n <= |chunks| && n <= |vecs|
    modifies g
    ensures g.Snap() == ApplyAll(old(g.Snap()), LoadOps(docId, chunks, vecs, ExtractAll(chunks, Extraction(engine)), n, now))
    ensures g.schema == old(g.schema)
  {
    ghost var s0 := g.Snap();
    ghost var inds := ExtractAll(chunks, Extraction(engine));
    for i := 0 to n
      invariant g.Snap() == ApplyAll(s0, LoadOps(docId, chunks, vecs, inds, i, now))
      invariant g.schema == old(g.schema)
    {
      StoreChunk(g, docId, chunks[i], vecs[i], engine, now);
      ApplyAllAppend(s0, LoadOps(docId, chunks, vecs, inds, i, now), ChunkOps(docId, chunks[i], vecs[i], inds[i], now));
    }
  }

  /** The Document, then the Campaign and its link when one is given. */
  method StoreDocument(g: Graph, path: string, docId: string, campaign: Option<string>)
    modifies g
    ensures g.Snap() == ApplyAll(old(g.Snap()), [UpsertDocument(DocumentProps(docId, path))] + CampaignOps(docId, campaign))
    ensures g.schema == old(g.schema)
  {
    ghost var s0 := g.Snap();
    ghost var head := [UpsertDocument(DocumentProps(docId, path))];
    var doc := g.UpsertDocument(DocumentProps(docId, path));
    ApplyAllSnoc(s0, [], head[0]);
    assert [] + [head[0]] == head;
    if campaign.Some? && campaign.value != "" {
      g.MergeCampaign(campaign.value);
      ApplyAllSnoc(s0, head, MergeCampaign(campaign.value));
      g.LinkCampaign(docId, campaign.value);
      ApplyAllSnoc(s0, head + [MergeCampaign(campaign.value)], LinkCampaign(docId, campaign.value));
      assert head + [MergeCampaign(campaign.value)] + [LinkCampaign(docId, campaign.value)]
        == head + CampaignOps(docId, campaign);
    } else {
      assert head + CampaignOps(docId, campaign) == head;
    }
  }

  /** One pass of the chunk loop: the Chunk, then each indicator extracted
      from its text. */
  method StoreChunk(g: Graph, docId: string, c: Chunk, vec: seq<real>, engine: Engine, now: int)
    modifies g
    ensures g.Snap() == ApplyAll(old(g.Snap()), ChunkOps(docId, c, vec, Extract(c.text, engine), now))
    ensures g.schema == old(g.schema)
  {
    ghost var s0 := g.Snap();
    var added := g.AddChunk(docId, ChunkProps(c, vec));
    ghost var first := [AddChunk(docId, ChunkProps(c, vec))];
    ApplyAllSnoc(s0, [], first[0]);
    assert [] + [first[0]] == first;
    var inds := ExtractIndicators(c.text, engine);
    StoreMentions(g, docId, c.id, inds, now);
    ApplyAllAppend(s0, first, MentionOps(docId, c.id, inds, now));
  }

  /** The inner loop: one `add_indicator` per extracted indicator. */
  method StoreMentions(g: Graph, docId: string, chunkId: string, inds: seq<Candidate>, now: int)
    modifies g
    ensures g.Snap() == ApplyAll(old(g.Snap()), MentionOps(docId, chunkId, inds, now))
    ensures g.schema == old(g.schema)
  {
    ghost var s0 := g.Snap();
    for j := 0 to |inds|
      invariant g.Snap() == ApplyAll(s0, MentionOps(docId, chunkId, inds[..j], now))
      invariant g.schema == old(g.schema)
    {
      g.AddIndicator(InputOf(inds[j]), docId, Some(chunkId), now);
      ApplyAllSnoc(s0, MentionOps(docId, chunkId, inds[..j], now), AddIndicator(InputOf(inds[j]), docId, Some(chunkId), now));
      assert inds[..j + 1][..j] == inds[..j];
    }
    assert inds[..|inds|] == inds;
  }

  // ---------------------------------------------------------------------
  // What loading a PDF leaves in the store

  /** The chunk node exists and is `PART_OF` the document. */
  predicate ChunkLinked(t: Snapshot, docId: string, c: Chunk) {
    Str(c.id) in t.chunks && (Str(c.id), Str(docId)) in t.partOf
  }

  /** The indicator node exists and is `MENTIONED_IN` the document with the
      indicator's confidence. */
  predicate Mentioned(t: Snapshot, docId: string, c: Candidate) {
    c.value in t.indicators && MentionKey(c.value, Str(docId), c.confidence) in t.mentions
  }

  lemma {:induction false} MentionOpsEffect(s: Snapshot, docId: string, chunkId: string, inds: seq<Candidate>, now: int)
    requires Str(docId) in s.documents
    ensures forall j :: 0 <= j < |inds| ==> Mentioned(ApplyAll(s, MentionOps(docId, chunkId, inds, now)), docId, inds[j])
    decreases |inds|
  {
    if inds != [] {
      var init := inds[..|inds| - 1];
      var last := inds[|inds| - 1];
      var ops := MentionOps(docId, chunkId, init, now);
      var op := AddIndicator(InputOf(last), docId, Some(chunkId), now);
      assert MentionOps(docId, chunkId, inds, now) == ops + [op];
      MentionOpsEffect(s, docId, chunkId, init, now);
      ApplyAllKeepsDocuments(s, ops);
      ApplyAllSnoc(s, ops, op);
      MentionStep(ApplyAll(s, ops), docId, chunkId, init, last, now);
      assert inds == init + [last];
    }
  }

  /** One more `add_indicator` keeps the earlier mentions and adds its own. */
  lemma MentionStep(t0: Snapshot, docId: string, chunkId: string, init: seq<Candidate>, c: Candidate, now: int)
    requires Str(docId) in t0.documents
    requires forall j :: 0 <= j < |init| ==> Mentioned(t0, docId, init[j])
    ensures var t := Apply(t0, AddIndicator(InputOf(c), docId, Some(chunkId), now));
      forall j :: 0 <= j < |init + [c]| ==> Mentioned(t, docId, (init + [c])[j])
  {
    ApplyGrows(t0, AddIndicator(InputOf(c), docId, Some(chunkId), now));
  }

  /** The chunk is stored and linked to the document, and every indicator
      in `inds` is mentioned in the document. */
  predicate Loaded(t: Snapshot, docId: string, c: Chunk, inds: seq<Candidate>) {
    && ChunkLinked(t, docId, c)
    && forall j :: 0 <= j < |inds| ==> Mentioned(t, docId, inds[j])
  }

  lemma LoadedKept(t0: Snapshot, t: Snapshot, docId: string, c: Chunk, inds: seq<Candidate>)
    requires Grows(t0, t) && Loaded(t0, docId, c, inds)
    ensures Loaded(t, docId, c, inds)
  {
  }

  /** The indicator's mention in the document names the chunk `chunkId`
      as its context and carries the time `now`. */
  predicate MentionedFrom(t: Snapshot, docId: string, chunkId: string, c: Candidate, now: int) {
    var key := MentionKey(c.value, Str(docId), c.confidence);
    key in t.mentions && t.mentions[key] == Mention(Some(chunkId), now)
  }

  /** The indicator writes of one chunk leave the chunks alone and give
      each indicator's mention that chunk as context. */
  lemma {:induction false} MentionOpsContext(s: Snapshot, docId: string, chunkId: string, inds: seq<Candidate>, now: int)
    requires Str(docId) in s.documents
    ensures var t := ApplyAll(s, MentionOps(docId, chunkId, inds, now));
      && t.chunks == s.chunks && t.documents == s.documents
      && forall j :: 0 <= j < |inds| ==> MentionedFrom(t, docId, chunkId, inds[j], now)
    decreases |inds|
  {
    if inds != [] {
      var init := inds[..|inds| - 1];
      var last := inds[|inds| - 1];
      var ops := MentionOps(docId, chunkId, init, now);
      var op := AddIndicator(InputOf(last), docId, Some(chunkId), now);
      assert MentionOps(docId, chunkId, inds, now) == ops + [op];
      MentionOpsContext(s, docId, chunkId, init, now);
      ApplyAllSnoc(s, ops, op);
      ContextStep(ApplyAll(s, ops), docId, chunkId, init, last, now);
      assert inds == init + [last];
    }
  }

  /** One more `add_indicator` from the same chunk keeps the earlier
      mentions' context and sets its own. */
  lemma ContextStep(t0: Snapshot, docId: string, chunkId: string, init: seq<Candidate>, c: Candidate, now: int)
    requires Str(docId) in t0.documents
    requires forall j :: 0 <= j < |init| ==> MentionedFrom(t0, docId, chunkId, init[j], now)
    ensures var t := Apply(t0, AddIndicator(InputOf(c), docId, Some(chunkId), now));
      && t.chunks == t0.chunks && t.documents == t0.documents
      && forall j :: 0 <= j < |init + [c]| ==> MentionedFrom(t, docId, chunkId, (init + [c])[j], now)
  {
    var t := Apply(t0, AddIndicator(InputOf(c), docId, Some(chunkId), now));
    assert t.mentions == t0.mentions[MentionKey(c.value, Str(docId), c.confidence) := Mention(Some(chunkId), now)];
  }

  /** After one pair's writes the chunk is stored with its text and linked
      to the document, and every indicator of the chunk is mentioned in
      the document with that chunk as context. */
  lemma ChunkOpsEffect(s: Snapshot, docId: string, c: Chunk, vec: seq<real>, inds: seq<Candidate>, now: int)
    requires Str(docId) in s.documents
    ensures var t := ApplyAll(s, ChunkOps(docId, c, vec, inds, now));
      && Loaded(t, docId, c, inds)
      && "text" in t.chunks[Str(c.id)] && t.chunks[Str(c.id)]["text"] == Str(c.text)
      && forall j :: 0 <= j < |inds| ==> MentionedFrom(t, docId, c.id, inds[j], now)
  {
    ChunkOpsLoaded(s, docId, c, vec, inds, now);
    ChunkOpsContext(s, docId, c, vec, inds, now);
  }

  lemma ChunkOpsLoaded(s: Snapshot, docId: string, c: Chunk, vec: seq<real>, inds: seq<Candidate>, now: int)
    requires Str(docId) in s.documents
    ensures Loaded(ApplyAll(s, ChunkOps(docId, c, vec, inds, now)), docId, c, inds)
  {
    var a := AddChunk(docId, ChunkProps(c, vec));
    var ms := MentionOps(docId, c.id, inds, now);
    ApplyAllSnoc(s, [], a);
    assert [] + [a] == [a];
    var t1 := Apply(s, a);
    assert ChunkLinked(t1, docId, c);
    ApplyAllAppend(s, [a], ms);
    MentionOpsEffect(t1, docId, c.id, inds, now);
    ApplyAllGrows(t1, ms);
  }

  lemma ChunkOpsContext(s: Snapshot, docId: string, c: Chunk, vec: seq<real>, inds: seq<Candidate>, now: int)
    requires Str(docId) in s.documents
    ensures var t := ApplyAll(s, ChunkOps(docId, c, vec, inds, now));
      && Str(c.id) in t.chunks && "text" in t.chunks[Str(c.id)] && t.chunks[Str(c.id)]["text"] == Str(c.text)
      && forall j :: 0 <= j < |inds| ==> MentionedFrom(t, docId, c.id, inds[j], now)
  {
    var props := ChunkProps(c, vec);
    var a := AddChunk(docId, props);
    var ms := MentionOps(docId, c.id, inds, now);
    ApplyAllSnoc(s, [], a);
    assert [] + [a] == [a];
    var t1 := Apply(s, a);
    assert "text" in props && props["text"] == Str(c.text);
    assert t1.chunks == s.chunks[Str(c.id) := Merged(s.chunks, Str(c.id), props)];
    assert t1.documents == s.documents;
    assert ChunkOps(docId, c, vec, inds, now) == [a] + ms;
    ApplyAllAppend(s, [a], ms);
    MentionOpsContext(t1, docId, c.id, inds, now);
  }

  /** Every chunk of the first `n` pairs is loaded. */
  lemma {:induction false} LoadOpsEffect(s: Snapshot, docId: string, chunks: seq<Chunk>, vecs: seq<seq<real>>,
                                         inds: seq<seq<Candidate>>, n: nat, now: int, i: nat)
    requires i < n <= |chunks| && n <= |vecs| && n <= |inds|
    requires Str(docId) in s.documents
    ensures Loaded(ApplyAll(s, LoadOps(docId, chunks, vecs, inds, n, now)), docId, chunks[i], inds[i])
  {
    if i == n - 1 {
      LoadOpsLast(s, docId, chunks, vecs, inds, n, now);
    } else {
      var prev := LoadOps(docId, chunks, vecs, inds, n - 1, now);
      var cur := ChunkOps(docId, chunks[n - 1], vecs[n - 1], inds[n - 1], now);
      assert LoadOps(docId, chunks, vecs, inds, n, now) == prev + cur;
      LoadOpsEffect(s, docId, chunks, vecs, inds, n - 1, now, i);
      LoadedThrough(s, prev, cur, docId, chunks[i], inds[i]);
    }
  }

  /** A load survives the writes appended after it. */
  lemma LoadedThrough(s: Snapshot, prev: seq<Op>, cur: seq<Op>, docId: string, c: Chunk, inds: seq<Candidate>)
    requires Loaded(ApplyAll(s, prev), docId, c, inds)
    ensures Loaded(ApplyAll(s, prev + cur), docId, c, inds)
  {
    ApplyAllAppend(s, prev, cur);
    LoadedAfter(ApplyAll(s, prev), cur, docId, c, inds);
  }

  /** The `n`-th pair is loaded once its writes are applied. */
  lemma LoadOpsLast(s: Snapshot, docId: string, chunks: seq<Chunk>, vecs: seq<seq<real>>,
                    inds: seq<seq<Candidate>>, n: nat, now: int)
    requires 0 < n <= |chunks| && n <= |vecs| && n <= |inds|
    requires Str(docId) in s.documents
    ensures Loaded(ApplyAll(s, LoadOps(docId, chunks, vecs, inds, n, now)), docId, chunks[n - 1], inds[n - 1])
  {
    var t0 := LoadOpsStep(s, docId, chunks, vecs, inds, n, now);
    var c, ci := chunks[n - 1], inds[n - 1];
    ChunkOpsEffect(t0, docId, c, vecs[n - 1], ci, now);
  }

  /** Later writes never undo a load. */
  lemma LoadedAfter(t0: Snapshot, ops: seq<Op>, docId: string, c: Chunk, inds: seq<Candidate>)
    requires Loaded(t0, docId, c, inds)
    ensures Loaded(ApplyAll(t0, ops), docId, c, inds)
  {
    ApplyAllGrows(t0, ops);
    LoadedKept(t0, ApplyAll(t0, ops), docId, c, inds);
  }

  /** The state after the first `n - 1` pairs, from which the `n`-th pair's
      writes lead to the state after `n`. */
  lemma LoadOpsStep(s: Snapshot, docId: string, chunks: seq<Chunk>, vecs: seq<seq<real>>,
                    inds: seq<seq<Candidate>>, n: nat, now: int) returns (t0: Snapshot)
    requires 0 < n <= |chunks| && n <= |vecs| && n <= |inds|
    ensures t0 == ApplyAll(s, LoadOps(docId, chunks, vecs, inds, n - 1, now))
    ensures t0.documents == s.documents
    ensures ApplyAll(s, LoadOps(docId, chunks, vecs, inds, n, now))
      == ApplyAll(t0, ChunkOps(docId, chunks[n - 1], vecs[n - 1], inds[n - 1], now))
  {
    var prev := LoadOps(docId, chunks, vecs, inds, n - 1, now);
    t0 := ApplyAll(s, prev);
    ApplyAllAppend(s, prev, ChunkOps(docId, chunks[n - 1], vecs[n - 1], inds[n - 1], now));
    ApplyAllKeepsDocuments(s, prev);
  }

  /** What `process_pdf` leaves in the store, whatever it held before: the
      Document with its path, its Campaign link when a campaign is given,
      and every chunk paired with a vector loaded. */
  lemma ProcessPdfEffect(s: Snapshot, path: string, docId: string, chunks: seq<Chunk>, vecs: seq<seq<real>>,
                         extract: Extractor, campaign: Option<string>, now: int)
    ensures var t := ApplyAll(s, PdfOps(path, docId, chunks, vecs, extract, campaign, now));
      && Str(docId) in t.documents
      && "path" in t.documents[Str(docId)] && t.documents[Str(docId)]["path"] == Str(path)
      && (campaign.Some? && campaign.value != "" ==> (Str(docId), campaign.value) in t.inCampaign)
      && forall i :: 0 <= i < |chunks| && i < |vecs| ==> Loaded(t, docId, chunks[i], extract(chunks[i].text))
  {
    var u := UpsertDocument(DocumentProps(docId, path));
    var cs := CampaignOps(docId, campaign);
    var n := Min(|chunks|, |vecs|);
    var inds := ExtractAll(chunks, extract);
    var ls := LoadOps(docId, chunks, vecs, inds, n, now);
    var t2 := DocumentEffect(s, path, docId, campaign);
    ApplyAllAppend(s, [u] + cs, ls);
    ApplyAllKeepsDocuments(t2, ls);
    ApplyAllGrows(t2, ls);
    forall i | 0 <= i < |chunks| && i < |vecs|
      ensures Loaded(ApplyAll(t2, ls), docId, chunks[i], extract(chunks[i].text))
    {
      LoadOpsEffect(t2, docId, chunks, vecs, inds, n, now, i);
    }
  }

  /** The state after the Document and Campaign writes. */
  lemma DocumentEffect(s: Snapshot, path: string, docId: string, campaign: Option<string>) returns (t2: Snapshot)
    ensures t2 == ApplyAll(s, [UpsertDocument(DocumentProps(docId, path))] + CampaignOps(docId, campaign))
    ensures Str(docId) in t2.documents
    ensures "path" in t2.documents[Str(docId)] && t2.documents[Str(docId)]["path"] == Str(path)
    ensures campaign.Some? && campaign.value != "" ==> (Str(docId), campaign.value) in t2.inCampaign
  {
    var u := UpsertDocument(DocumentProps(docId, path));
    var cs := CampaignOps(docId, campaign);
    ApplyAllSnoc(s, [], u);
    assert [] + [u] == [u];
    var t1 := Apply(s, u);
    assert Str(docId) in t1.documents && t1.documents[Str(docId)]["path"] == Str(path);
    ApplyAllAppend(s, [u], cs);
    t2 := ApplyAll(t1, cs);
    ApplyAllKeepsDocuments(t1, cs);
    if campaign.Some? && campaign.value != "" {
      CampaignLinked(t1, docId, campaign.value);
    }
  }

  /** Merging a campaign and linking the document to it records the link. */
  lemma CampaignLinked(t1: Snapshot, docId: string, name: string)
    requires Str(docId) in t1.documents && name != ""
    ensures (Str(docId), name) in ApplyAll(t1, CampaignOps(docId, Some(name))).inCampaign
  {
    var m, l := MergeCampaign(name), LinkCampaign(docId, name);
    ApplyAllSnoc(t1, [m], l);
    ApplyAllSnoc(t1, [], m);
    assert [] + [m] == [m];
    assert [m] + [l] == CampaignOps(docId, Some(name));
  }

  // ---------------------------------------------------------------------
  // process_pdfs

  /** Reading the PDF at a path and splitting it into chunks. */
  type Loader = string -> seq<Chunk>

  /** The sentence embedder: one vector per text. */
  type Embedder = seq<string> -> seq<seq<real>>

  /** The texts of the chunks, in order. */
  function Texts(chunks: seq<Chunk>): (r: seq<string>)
    ensures |r| == |chunks| && forall i :: 0 <= i < |r| ==> r[i] == chunks[i].text
  {
    seq(|chunks|, i requires 0 <= i < |chunks| => chunks[i].text)
  }

  /** `os.path.join(dir, name)` for two components (posixpath). */
  function JoinPath(dir: string, name: string): (r: string)
    ensures EndsWith(r, name)
    ensures StartsWith(name, "/") ==> r == name
    ensures !StartsWith(name, "/") ==> StartsWith(r, dir) && |dir| + |name| <= |r| <= |dir| + |name| + 1
    ensures !StartsWith(name, "/") ==> (|r| == |dir| + |name| + 1 <==> dir != [] && dir[|dir| - 1] != '/')
    ensures !StartsWith(name, "/") && |r| == |dir| + |name| + 1 ==> r[|dir|] == '/'
  {
    if StartsWith(name, "/") then name
    else if dir == [] || dir[|dir| - 1] == '/' then dir + name
    else dir + "/" + name
  }

  /** The names `process_pdfs` loads: those ending in `.pdf` in any case. */
  predicate IsPdf(name: string) {
    EndsWith(Lower(name), ".pdf")
  }

  /** The document id of a file: its base name without the extension. */
  function DocIdOf(name: string): string {
    Root(Basename(name))
  }

  /** The campaign name of a file name, or `None` when it cannot be
      inferred; `process_pdfs` uses `CleanCampaignName`. */
  type Namer = string -> Option<string>

  /** Why a run stops: `clean_campaign_name` raised on a file name with
      no word. */
  datatype PipelineError = NoCampaignWord(name: string)

  /** The names loaded so far, in order, the `stats` dict (document id to
      chunk count) and the error that ended the run, if any. */
  datatype Run = Run(loaded: seq<string>, stats: map<string, nat>, error: Option<PipelineError>)

  /** What `process_pdfs` does with the listing `names`: each `.pdf` name in
      turn gets a campaign name and is loaded from `dir`; the first name
      without a campaign word ends the run, after the files before it. */
  function PdfsRun(dir: string, names: seq<string>, load: Loader, namer: Namer): Run
    decreases |names|
  {
    if names == [] then Run([], map[], None)
    else PdfStep(PdfsRun(dir, names[..|names| - 1], load, namer), dir, names[|names| - 1], load, namer)
  }

  /** One pass of the loop of `process_pdfs`. */
  function PdfStep(prev: Run, dir: string, name: string, load: Loader, namer: Namer): Run {
    if prev.error.Some? || !IsPdf(name) then prev
    else if namer(name).None? then Run(prev.loaded, prev.stats, Some(NoCampaignWord(name)))
    else Run(prev.loaded + [name], prev.stats[DocIdOf(name) := |load(JoinPath(dir, name))|], None)
  }

  /** The writes `process_pdf` issues for the file `name` of `dir`. */
  function FileOps(dir: string, name: string, load: Loader, namer: Namer, embed: Embedder, extract: Extractor, now: int): seq<Op> {
    var path := JoinPath(dir, name);
    var chunks := load(path);
    PdfOps(path, DocIdOf(name), chunks, embed(Texts(chunks)), extract, namer(name), now)
  }

  /** The writes of loading the files `loaded` one after the other. */
  function RunOps(dir: string, loaded: seq<string>, load: Loader, namer: Namer, embed: Embedder, extract: Extractor, now: int): seq<Op>
    decreases |loaded|
  {
    if loaded == [] then []
    else
      RunOps(dir, loaded[..|loaded| - 1], load, namer, embed, extract, now)
      + FileOps(dir, loaded[|loaded| - 1], load, namer, embed, extract, now)
  }

  /** `process_pdfs(graph, names, embedder)` over the data directory `dir`:
      loads the files `PdfsRun` lists and returns its `stats`, or the error
      that stopped it. */
  method ProcessPdfs(g: Graph, dir: string, names: seq<string>, load: Loader, embed: Embedder, engine: Engine, now: int)
    returns (stats: map<string, nat>, r: Outcome<PipelineError>)
    modifies g
    ensures g.Snap() == ApplyAll(old(g.Snap()),
      RunOps(dir, PdfsRun(dir, names, load, CleanCampaignName).loaded, load, CleanCampaignName, embed, Extraction(engine), now))
    ensures g.schema == old(g.schema)
    ensures stats == PdfsRun(dir, names, load, CleanCampaignName).stats
    ensures r.Pass? <==> PdfsRun(dir, names, load, CleanCampaignName).error.None?
    ensures r.Fail? ==> PdfsRun(dir, names, load, CleanCampaignName).error == Some(r.error)
  {
    stats, r := LoadListing(g, dir, names, load, CleanCampaignName, embed, engine, now);
  }

  /** The loop of `process_pdfs`, for the campaign namer `namer`. */
  method LoadListing(g: Graph, dir: string, names: seq<string>, load: Loader, namer: Namer, embed: Embedder,
                     engine: Engine, now: int)
    returns (stats: map<string, nat>, r: Outcome<PipelineError>)
    modifies g
    ensures g.Snap() == ApplyAll(old(g.Snap()), RunOps(dir, PdfsRun(dir, names, load, namer).loaded, load, namer, embed, Extraction(engine), now))
    ensures g.schema == old(g.schema)
    ensures stats == PdfsRun(dir, names, load, namer).stats
    ensures r.Pass? <==> PdfsRun(dir, names, load, namer).error.None?
    ensures r.Fail? ==> PdfsRun(dir, names, load, namer).error == Some(r.error)
  {
    ghost var s0 := g.Snap();
    ghost var extract := Extraction(engine);
    stats := map[];
    r := Pass;
    var i := 0;
    while i < |names| && r.Pass?
      invariant 0 <= i <= |names|
      invariant var run := PdfsRun(dir, names[..i], load, namer);
        && g.Snap() == ApplyAll(s0, RunOps(dir, run.loaded, load, namer, embed, extract, now)) && stats == run.stats
        && (r.Pass? <==> run.error.None?) && (r.Fail? ==> run.error == Some(r.error))
      invariant g.schema == old(g.schema)
      decreases |names| - i
    {
      ghost var prev := PdfsRun(dir, names[..i], load, namer);
      PdfsRunSnoc(dir, names, load, namer, i);
      stats, r := ListingStep(g, dir, names[i], load, namer, embed, engine, now, s0, prev, stats);
      i := i + 1;
    }
    if r.Fail? {
      PdfsRunStopped(dir, names, load, namer, i, |names|);
    }
    assert names[..|names|] == names;
  }

  /** The run over one more name is one more step. */
  lemma PdfsRunSnoc(dir: string, names: seq<string>, load: Loader, namer: Namer, i: nat)
    requires i < |names|
    ensures PdfsRun(dir, names[..i + 1], load, namer) == PdfStep(PdfsRun(dir, names[..i], load, namer), dir, names[i], load, namer)
  {
    assert names[..i + 1][..i] == names[..i];
  }

  /** One pass of the loop, on the name `name`, after the run `prev`. */
  method ListingStep(g: Graph, dir: string, name: string, load: Loader, namer: Namer, embed: Embedder,
                     engine: Engine, now: int, ghost s0: Snapshot, ghost prev: Run, stats: map<string, nat>)
    returns (stats': map<string, nat>, r: Outcome<PipelineError>)
    requires prev.error.None? && stats == prev.stats
    requires g.Snap() == ApplyAll(s0, RunOps(dir, prev.loaded, load, namer, embed, Extraction(engine), now))
    modifies g
    ensures var run := PdfStep(prev, dir, name, load, namer);
      && g.Snap() == ApplyAll(s0, RunOps(dir, run.loaded, load, namer, embed, Extraction(engine), now))
      && stats' == run.stats
      && (r.Pass? <==> run.error.None?) && (r.Fail? ==> run.error == Some(r.error))
    ensures g.schema == old(g.schema)
  {
    stats', r := stats, Pass;
    if IsPdf(name) {
      if namer(name).None? {
        r := Fail(NoCampaignWord(name));
      } else {
        var n := ProcessFile(g, dir, name, load, namer, embed, engine, now);
        RunOpsSnoc(s0, dir, prev.loaded, name, load, namer, embed, Extraction(engine), now);
        stats' := stats[DocIdOf(name) := n];
      }
    }
  }

  /** Loading one more file applies its writes after the earlier ones. */
  lemma RunOpsSnoc(s: Snapshot, dir: string, loaded: seq<string>, name: string, load: Loader, namer: Namer, embed: Embedder,
                   extract: Extractor, now: int)
    ensures ApplyAll(s, RunOps(dir, loaded + [name], load, namer, embed, extract, now))
      == ApplyAll(ApplyAll(s, RunOps(dir, loaded, load, namer, embed, extract, now)), FileOps(dir, name, load, namer, embed, extract, now))
  {
    assert (loaded + [name])[..|loaded|] == loaded;
    ApplyAllAppend(s, RunOps(dir, loaded, load, namer, embed, extract, now), FileOps(dir, name, load, namer, embed, extract, now));
  }

  /** One iteration's `process_pdf` call: the path, the campaign, the
      chunks and their vectors, then the writes. */
  method ProcessFile(g: Graph, dir: string, name: string, load: Loader, namer: Namer, embed: Embedder, engine: Engine, now: int)
    returns (n: nat)
    modifies g
    ensures g.Snap() == ApplyAll(old(g.Snap()), FileOps(dir, name, load, namer, embed, Extraction(engine), now))
    ensures g.schema == old(g.schema)
    ensures n == |load(JoinPath(dir, name))|
  {
    var path := JoinPath(dir, name);
    var docId := DocIdOf(name);
    var campaign := namer(name);
    var chunks := load(path);
    var vecs := embed(Texts(chunks));
    n := ProcessPdf(g, path, docId, chunks, vecs, engine, campaign, now);
  }

  /** Once a prefix of the listing has failed, later names change nothing. */
  lemma {:induction false} PdfsRunStopped(dir: string, names: seq<string>, load: Loader, namer: Namer, i: nat, j: nat)
    requires i <= j <= |names|
    requires PdfsRun(dir, names[..i], load, namer).error.Some?
    ensures PdfsRun(dir, names[..j], load, namer) == PdfsRun(dir, names[..i], load, namer)
    decreases j
  {
    if j > i {
      PdfsRunStopped(dir, names, load, namer, i, j - 1);
      assert names[..j][..j - 1] == names[..j - 1];
    }
  }

  /** Every key of `stats` is the document id of a loaded name. */
  lemma {:induction false} PdfsRunStatsKeys(dir: string, names: seq<string>, load: Loader, namer: Namer, k: string) returns (name: string)
    requires k in PdfsRun(dir, names, load, namer).stats
    ensures name in PdfsRun(dir, names, load, namer).loaded && DocIdOf(name) == k
    decreases |names|
  {
    var init := names[..|names| - 1];
    var last := names[|names| - 1];
    var prev := PdfsRun(dir, init, load, namer);
    var run := PdfStep(prev, dir, last, load, namer);
    assert run == PdfsRun(dir, names, load, namer);
    if k in prev.stats {
      name := PdfsRunStatsKeys(dir, init, load, namer, k);
      assert run.loaded == prev.loaded || run.loaded == prev.loaded + [last];
    } else {
      name := last;
      assert run.loaded == prev.loaded + [last];
    }
  }

  /** A run that ends without error loads exactly the `.pdf` names of the
      listing, in order; a failed run loads those before the failing one. */
  lemma {:induction false} PdfsRunLoaded(dir: string, names: seq<string>, load: Loader, namer: Namer)
    ensures var run := PdfsRun(dir, names, load, namer);
      run.error.None? ==> run.loaded == OnlyPdfs(names)
    ensures forall name :: name in PdfsRun(dir, names, load, namer).loaded ==> name in names && IsPdf(name)
    decreases |names|
  {
    if names != [] {
      var init := names[..|names| - 1];
      PdfsRunLoaded(dir, init, load, namer);
      assert forall name :: name in init ==> name in names;
    }
  }

  /** A run that ends without error counts every `.pdf` name. */
  lemma {:induction false} PdfsRunComplete(dir: string, names: seq<string>, load: Loader, namer: Namer, i: nat)
    requires i < |names| && IsPdf(names[i])
    requires PdfsRun(dir, names, load, namer).error.None?
    ensures DocIdOf(names[i]) in PdfsRun(dir, names, load, namer).stats
    decreases |names|
  {
    var init := names[..|names| - 1];
    var prev := PdfsRun(dir, init, load, namer);
    assert prev.error.None?;
    if i < |init| {
      assert init[i] == names[i];
      PdfsRunComplete(dir, init, load, namer, i);
    }
  }

  /** A `.pdf` name that has no campaign word. */
  predicate Unnamed(name: string, namer: Namer) {
    IsPdf(name) && namer(name).None?
  }

  /** The run ends without error exactly when no `.pdf` name lacks a
      campaign word. */
  lemma {:induction false} PdfsRunSucceeds(dir: string, names: seq<string>, load: Loader, namer: Namer)
    ensures PdfsRun(dir, names, load, namer).error.None? <==> forall j :: 0 <= j < |names| ==> !Unnamed(names[j], namer)
    decreases |names|
  {
    if names != [] {
      PdfsRunLast(dir, names, load, namer);
      PdfsRunSucceeds(dir, names[..|names| - 1], load, namer);
      NamedSnoc(names, names[..|names| - 1], namer);
    }
  }

  /** The last name of a listing decides whether a run that has not yet
      failed fails. */
  lemma PdfsRunLast(dir: string, names: seq<string>, load: Loader, namer: Namer)
    requires names != []
    ensures PdfsRun(dir, names, load, namer).error.None? <==>
      PdfsRun(dir, names[..|names| - 1], load, namer).error.None? && !Unnamed(names[|names| - 1], namer)
  {
    var prev := PdfsRun(dir, names[..|names| - 1], load, namer);
    assert PdfsRun(dir, names, load, namer) == PdfStep(prev, dir, names[|names| - 1], load, namer);
    PdfStepError(prev, dir, names[|names| - 1], load, namer);
  }

  /** Every name is named exactly when every name but the last is and the
      last is. */
  lemma NamedSnoc(names: seq<string>, init: seq<string>, namer: Namer)
    requires names != [] && init == names[..|names| - 1]
    ensures (forall j :: 0 <= j < |names| ==> !Unnamed(names[j], namer)) <==>
      (forall j :: 0 <= j < |init| ==> !Unnamed(init[j], namer)) && !Unnamed(names[|names| - 1], namer)
  {
    assert forall j :: 0 <= j < |init| ==> init[j] == names[j];
  }

  /** One pass ends the run in error exactly when the run had already
      failed or the name is an unnamed `.pdf` name. */
  lemma PdfStepError(prev: Run, dir: string, name: string, load: Loader, namer: Namer)
    ensures PdfStep(prev, dir, name, load, namer).error.None? <==> prev.error.None? && !Unnamed(name, namer)
  {
  }

  /** A failed run names the first `.pdf` name without a campaign word. */
  lemma {:induction false} PdfsRunFailsAt(dir: string, names: seq<string>, load: Loader, namer: Namer) returns (i: nat)
    requires PdfsRun(dir, names, load, namer).error.Some?
    ensures i < |names| && Unnamed(names[i], namer) && forall j :: 0 <= j < i ==> !Unnamed(names[j], namer)
    ensures PdfsRun(dir, names, load, namer).error.value == NoCampaignWord(names[i])
    decreases |names|
  {
    var init := names[..|names| - 1];
    var last := names[|names| - 1];
    var prev := PdfsRun(dir, init, load, namer);
    assert PdfStep(prev, dir, last, load, namer) == PdfsRun(dir, names, load, namer);
    assert forall j :: 0 <= j < |init| ==> init[j] == names[j];
    if prev.error.Some? {
      i := PdfsRunFailsAt(dir, init, load, namer);
    } else {
      PdfsRunSucceeds(dir, init, load, namer);
      i := |names| - 1;
    }
  }

  /** The names of the listing that end in `.pdf`, in order. */
  function OnlyPdfs(names: seq<string>): (r: seq<string>)
    ensures forall name :: name in r <==> name in names && IsPdf(name)
    ensures |r| <= |names|
    decreases |names|
  {
    if names == [] then []
    else
      var init := OnlyPdfs(names[..|names| - 1]);
      if IsPdf(names[|names| - 1]) then init + [names[|names| - 1]] else init
  }

  /** Names that do not end in `.pdf` neither load nor count: the run over
      the listing is the run over its `.pdf` names alone. */
  lemma {:induction false} PdfsRunOnlyPdfs(dir: string, names: seq<string>, load: Loader, namer: Namer)
    ensures PdfsRun(dir, names, load, namer) == PdfsRun(dir, OnlyPdfs(names), load, namer)
    decreases |names|
  {
    if names != [] {
      var init := names[..|names| - 1];
      var last := names[|names| - 1];
      PdfsRunOnlyPdfs(dir, init, load, namer);
      if IsPdf(last) {
        var ps := OnlyPdfs(init) + [last];
        assert ps[..|ps| - 1] == OnlyPdfs(init);
      }
    }
  }

  /** After loading a list of files, each has its Document. */
  lemma {:induction false} RunOpsDocuments(s: Snapshot, dir: string, loaded: seq<string>, load: Loader, namer: Namer,
                                           embed: Embedder, extract: Extractor, now: int, i: nat)
    requires i < |loaded|
    ensures Str(DocIdOf(loaded[i])) in ApplyAll(s, RunOps(dir, loaded, load, namer, embed, extract, now)).documents
    decreases |loaded|
  {
    if i == |loaded| - 1 {
      RunOpsLast(s, dir, loaded, load, namer, embed, extract, now);
    } else {
      var init := loaded[..|loaded| - 1];
      var t0 := RunOpsStep(s, dir, loaded, load, namer, embed, extract, now);
      var id := DocIdOf(init[i]);
      RunOpsDocuments(s, dir, init, load, namer, embed, extract, now, i);
      DocumentKept(t0, FileOps(dir, loaded[|loaded| - 1], load, namer, embed, extract, now), id);
    }
  }

  /** The state after all files but the last, from which the last file's
      writes lead to the state after all. */
  lemma RunOpsStep(s: Snapshot, dir: string, loaded: seq<string>, load: Loader, namer: Namer,
                   embed: Embedder, extract: Extractor, now: int) returns (t0: Snapshot)
    requires loaded != []
    ensures t0 == ApplyAll(s, RunOps(dir, loaded[..|loaded| - 1], load, namer, embed, extract, now))
    ensures ApplyAll(s, RunOps(dir, loaded, load, namer, embed, extract, now))
      == ApplyAll(t0, FileOps(dir, loaded[|loaded| - 1], load, namer, embed, extract, now))
  {
    var init := loaded[..|loaded| - 1];
    assert init + [loaded[|loaded| - 1]] == loaded;
    RunOpsSnoc(s, dir, init, loaded[|loaded| - 1], load, namer, embed, extract, now);
    t0 := ApplyAll(s, RunOps(dir, init, load, namer, embed, extract, now));
  }

  /** The last file loaded has its Document. */
  lemma RunOpsLast(s: Snapshot, dir: string, loaded: seq<string>, load: Loader, namer: Namer,
                   embed: Embedder, extract: Extractor, now: int)
    requires loaded != []
    ensures Str(DocIdOf(loaded[|loaded| - 1])) in ApplyAll(s, RunOps(dir, loaded, load, namer, embed, extract, now)).documents
  {
    var t0 := RunOpsStep(s, dir, loaded, load, namer, embed, extract, now);
    var last := loaded[|loaded| - 1];
    FileDocument(t0, dir, last, load, namer, embed, extract, now);
  }

  /** After a run without error, every `.pdf` name of the listing has its
      Document. */
  lemma PdfsRunDocuments(s: Snapshot, dir: string, names: seq<string>, load: Loader, namer: Namer,
                         embed: Embedder, extract: Extractor, now: int, i: nat)
    requires i < |names| && IsPdf(names[i])
    requires PdfsRun(dir, names, load, namer).error.None?
    ensures var loaded := PdfsRun(dir, names, load, namer).loaded;
      Str(DocIdOf(names[i])) in ApplyAll(s, RunOps(dir, loaded, load, namer, embed, extract, now)).documents
  {
    var loaded := PdfsRun(dir, names, load, namer).loaded;
    PdfsRunLoaded(dir, names, load, namer);
    assert names[i] in loaded;
    var j :| 0 <= j < |loaded| && loaded[j] == names[i];
    RunOpsDocuments(s, dir, loaded, load, namer, embed, extract, now, j);
  }

  /** Later writes never remove a Document. */
  lemma DocumentKept(t0: Snapshot, ops: seq<Op>, id: string)
    requires Str(id) in t0.documents
    ensures Str(id) in ApplyAll(t0, ops).documents
  {
    ApplyAllGrows(t0, ops);
  }

  /** Loading a file leaves its Document in the store. */
  lemma FileDocument(s: Snapshot, dir: string, name: string, load: Loader, namer: Namer, embed: Embedder, extract: Extractor, now: int)
    ensures Str(DocIdOf(name)) in ApplyAll(s, FileOps(dir, name, load, namer, embed, extract, now)).documents
  {
    var path := JoinPath(dir, name);
    var chunks := load(path);
    ProcessPdfEffect(s, path, DocIdOf(name), chunks, embed(Texts(chunks)), extract, namer(name), now);
  }
}
