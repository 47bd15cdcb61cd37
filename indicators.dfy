/** Indicator extraction (src/extraction/indicators.py): a fixed, ordered
    registry of (type tag, pattern) pairs, one normaliser per type, and an
    extraction that runs every pattern over the text, normalises every raw
    match and keeps one candidate per (type, value) key.

    The regular-expression engine is not modelled: it is the parameter
    `engine`, which maps a pattern and a text to the raw matches that a
    case-insensitive `finditer` would yield, in order. */
module Indicators {
  import opened Text
  import opened Collections

  const DomainPattern := @"(?:(?:[a-zA-Z0-9-]+\.)+[a-zA-Z]{2,})"
  const UrlPattern := @"https?://[^\s)]+"
  const Ipv4Pattern := @"\b(?:(?:25[0-5]|2[0-4]\d|1?\d?\d)(?:\.(?!$)|$)){4}\b"
  const EmailPattern := @"[A-Za-z0-9._%+-]+@" + DomainPattern
  const PhonePattern := @"\+?\d[\d\s().-]{7,}\d"
  const GaPattern := @"\bUA-\d{4,}-\d+\b"
  const AdsensePattern := @"\bpub-\d{16}\b"

  /** The social platforms the registry knows. */
  datatype Platform =
    | Twitter | Facebook | Instagram | YouTube | LinkedIn
    | TikTok | Telegram | Reddit | VK | TruthSocial

  /** The platform's key in the source's platform table. */
  function PlatformName(p: Platform): (r: string)
    ensures |r| > 0
  {
    match p
    case Twitter => "twitter"
    case Facebook => "facebook"
    case Instagram => "instagram"
    case YouTube => "youtube"
    case LinkedIn => "linkedin"
    case TikTok => "tiktok"
    case Telegram => "telegram"
    case Reddit => "reddit"
    case VK => "vk"
    case TruthSocial => "truthsocial"
  }

  /** The handle pattern of each platform, as written in the source (the
      YouTube character class reads `A-Zaz`, not `A-Za-z`). */
  function PlatformPattern(p: Platform): string {
    match p
    case Twitter => @"(?:https?://)?(?:www\.)?twitter\.com/([A-Za-z0-9_]{1,15})"
    case Facebook => @"(?:https?://)?(?:www\.)?facebook\.com/([A-Za-z0-9_.-]+)"
    case Instagram => @"(?:https?://)?(?:www\.)?instagram\.com/([A-Za-z0-9_.-]+)"
    case YouTube => @"(?:https?://)?(?:www\.)?youtube\.com/(?:c/|channel/|@)?([A-Zaz0-9_.-]+)"
    case LinkedIn => @"(?:https?://)?(?:[\w.]*linkedin\.com)/in/([A-Za-z0-9_.-]+)"
    case TikTok => @"(?:https?://)?(?:www\.)?tiktok\.com/@([A-Za-z0-9_.-]+)"
    case Telegram => @"(?:https?://)?t\.me/([A-Za-z0-9_]+)"
    case Reddit => @"(?:https?://)?(?:www\.)?reddit\.com/(?:u|user)/([A-Za-z0-9_-]+)"
    case VK => @"(?:https?://)?vk\.com/([A-Za-z0-9_.-]+)"
    case TruthSocial => @"(?:https?://)?truthsocial\.com/@([A-Za-z0-9_.-]+)"
  }

  /** Distinct platforms have distinct names. */
  lemma PlatformNameInjective(p: Platform, q: Platform)
    requires PlatformName(p) == PlatformName(q)
    ensures p == q
  {
  }

  /** The type of an indicator: the seven fixed kinds and one social kind
      per platform. */
  datatype IndicatorType =
    | Url | Ipv4 | Email | Domain | Phone | GoogleAnalytics | AdSense
    | SocialHandle(platform: Platform)

  /** The type tag stored with every candidate. */
  function TypeName(t: IndicatorType): string {
    match t
    case Url => "url"
    case Ipv4 => "ipv4"
    case Email => "email"
    case Domain => "domain"
    case Phone => "phone"
    case GoogleAnalytics => "ga"
    case AdSense => "adsense"
    case SocialHandle(p) => "social:" + PlatformName(p)
  }

  /** Each tag names one type, so a table keyed by tag is a table keyed by type. */
  lemma TypeNameInjective(t: IndicatorType, u: IndicatorType)
    requires TypeName(t) == TypeName(u)
    ensures t == u
  {
    if t.SocialHandle? && u.SocialHandle? {
      assert PlatformName(t.platform) == TypeName(t)[7..];
      PlatformNameInjective(t.platform, u.platform);
    }
  }

  /** The pattern the registry pairs with each type. */
  function PatternOf(t: IndicatorType): string {
    match t
    case Url => UrlPattern
    case Ipv4 => Ipv4Pattern
    case Email => EmailPattern
    case Domain => DomainPattern
    case Phone => PhonePattern
    case GoogleAnalytics => GaPattern
    case AdSense => AdsensePattern
    case SocialHandle(p) => PlatformPattern(p)
  }

  /** The registry, in the order the patterns are run: the seven fixed
      types, then the platforms in the order the source declares them. */
  const Registry: seq<IndicatorType> := [
    Url, Ipv4, Email, Domain, Phone, GoogleAnalytics, AdSense,
    SocialHandle(Twitter), SocialHandle(Facebook), SocialHandle(Instagram),
    SocialHandle(YouTube), SocialHandle(LinkedIn), SocialHandle(TikTok),
    SocialHandle(Telegram), SocialHandle(Reddit), SocialHandle(VK),
    SocialHandle(TruthSocial)
  ]

  /** The registry lists every type exactly once, so its 17 tags are
      pairwise distinct. */
  lemma RegistryShape()
    ensures |Registry| == 17
    ensures forall t :: t in Registry
    ensures forall i, j :: 0 <= i < j < |Registry| ==> TypeName(Registry[i]) != TypeName(Registry[j])
  {
    RegistryComplete();
    RegistryTagsDistinct();
  }

  lemma RegistryComplete()
    ensures forall t :: t in Registry
  {
    forall t ensures t in Registry {
      if t.SocialHandle? {
        match t.platform
        case Twitter => assert Registry[7] == t;
        case Facebook => assert Registry[8] == t;
        case Instagram => assert Registry[9] == t;
        case YouTube => assert Registry[10] == t;
        case LinkedIn => assert Registry[11] == t;
        case TikTok => assert Registry[12] == t;
        case Telegram => assert Registry[13] == t;
        case Reddit => assert Registry[14] == t;
        case VK => assert Registry[15] == t;
        case TruthSocial => assert Registry[16] == t;
      }
    }
  }

  lemma RegistryTagsDistinct()
    ensures forall i, j :: 0 <= i < j < |Registry| ==> TypeName(Registry[i]) != TypeName(Registry[j])
  {
    forall i, j | 0 <= i < j < |Registry| ensures TypeName(Registry[i]) != TypeName(Registry[j]) {
      if TypeName(Registry[i]) == TypeName(Registry[j]) {
        TypeNameInjective(Registry[i], Registry[j]);
      }
    }
  }

  /** The kinds of normaliser the source's table holds. */
  datatype Normalizer =
    | LowerTrimPunctuation   // domain
    | TrimBrackets           // url
    | Unchanged              // ipv4, ga, adsense
    | LowerOnly              // email
    | PhoneChars             // phone
    | DropAtLower            // every social:<platform>

  const DomainTrim: set<char> := {'(', ')', '.', ',', ';', '\n', ' ', '\t'}
  const UrlTrim: set<char> := {'(', ')', '\n', ' ', '\t'}

  /** The normaliser table, keyed by type (TypeNameInjective makes this the
      same table as one keyed by tag). */
  function NormalizerOf(t: IndicatorType): Normalizer {
    match t
    case Domain => LowerTrimPunctuation
    case Url => TrimBrackets
    case Ipv4 => Unchanged
    case Email => LowerOnly
    case Phone => PhoneChars
    case GoogleAnalytics => Unchanged
    case AdSense => Unchanged
    case SocialHandle(_) => DropAtLower
  }

  predicate IsPhoneChar(c: char) {
    c == '+' || IsDigit(c)
  }

  /** `r` can be obtained from `s` by deleting characters. */
  predicate IsSubsequence(r: string, s: string)
    decreases |s|
  {
    if r == [] then true
    else if s == [] then false
    else if r[0] == s[0] then IsSubsequence(r[1..], s[1..])
    else IsSubsequence(r, s[1..])
  }

  /** Removing every character other than `+` and the digits: exactly the
      `+` and digit characters of `s`, each as often as in `s`, in their
      original order. */
  function KeepPhoneChars(s: string): (r: string)
    ensures forall k :: 0 <= k < |r| ==> IsPhoneChar(r[k])
    ensures forall c :: IsPhoneChar(c) ==> multiset(r)[c] == multiset(s)[c]
    ensures IsSubsequence(r, s)
  {
    if s == [] then []
    else
      var rest := KeepPhoneChars(s[1..]);
      assert s == [s[0]] + s[1..];
      if IsPhoneChar(s[0]) then [s[0]] + rest else rest
  }

  function ApplyNormalizer(n: Normalizer, x: string): string {
    match n
    case LowerTrimPunctuation => StripChars(Lower(x), DomainTrim)
    case TrimBrackets => StripChars(x, UrlTrim)
    case Unchanged => x
    case LowerOnly => Lower(x)
    case PhoneChars => KeepPhoneChars(x)
    case DropAtLower => Lower(LStripChars(x, {'@'}))
  }

  function Normalize(t: IndicatorType, raw: string): string {
    ApplyNormalizer(NormalizerOf(t), raw)
  }

  /** A social match keeps every character, lower-cased, unless it begins
      with `@`: a match that begins with `https://` keeps its scheme and
      host, so the stored handle is the whole profile address. */
  lemma SocialKeepsPrefix(p: Platform, raw: string)
    requires raw == [] || raw[0] != '@'
    ensures Normalize(SocialHandle(p), raw) == Lower(raw)
  {
    assert NormalizerOf(SocialHandle(p)) == DropAtLower;
    assert Normalize(SocialHandle(p), raw) == ApplyNormalizer(DropAtLower, raw) == Lower(LStripChars(raw, {'@'}));
    LStripCharsFixed(raw, {'@'});
  }

  /** A normalised domain is lower case and neither begins nor ends with
      trimmed punctuation or whitespace. */
  lemma DomainNormalForm(raw: string)
    ensures var v := Normalize(Domain, raw);
      (forall k :: 0 <= k < |v| ==> !IsUpper(v[k]))
      && (|v| > 0 ==> v[0] !in DomainTrim && v[|v| - 1] !in DomainTrim)
  {
    assert NormalizerOf(Domain) == LowerTrimPunctuation;
    assert Normalize(Domain, raw) == ApplyNormalizer(LowerTrimPunctuation, raw);
    LowerTrimForm(raw);
  }

  /** Lower-casing then trimming leaves no upper-case letter and no
      trimmed character at either end. */
  lemma LowerTrimForm(x: string)
    ensures var v := StripChars(Lower(x), DomainTrim);
      (forall k :: 0 <= k < |v| ==> !IsUpper(v[k]))
      && (|v| > 0 ==> v[0] !in DomainTrim && v[|v| - 1] !in DomainTrim)
  {
    StripLowerNoUpper(x, DomainTrim);
  }

  /** Trimming a lower-cased string leaves it without upper-case letters. */
  lemma StripLowerNoUpper(x: string, chars: set<char>)
    ensures forall k :: 0 <= k < |StripChars(Lower(x), chars)| ==> !IsUpper(StripChars(Lower(x), chars)[k])
  {
    var l := Lower(x);
    var v := StripChars(l, chars);
    var i := LeadingCount(l, InSet(chars));
    assert v == l[i..][..|v|];
    NoUpperSlice(l, i, |v|);
  }

  /** A slice of a string without upper-case letters has none. */
  lemma NoUpperSlice(l: string, i: nat, n: nat)
    requires i + n <= |l| && forall k :: 0 <= k < |l| ==> !IsUpper(l[k])
    ensures forall k :: 0 <= k < n ==> !IsUpper(l[i..][..n][k])
  {
    forall k | 0 <= k < n ensures !IsUpper(l[i..][..n][k]) {
      assert l[i..][..n][k] == l[i + k];
    }
  }

  /** Removing non-phone characters from a string that has none changes nothing. */
  lemma {:induction false} KeepPhoneCharsFixed(s: string)
    requires forall k :: 0 <= k < |s| ==> IsPhoneChar(s[k])
    ensures KeepPhoneChars(s) == s
  {
    if s != [] {
      KeepPhoneCharsFixed(s[1..]);
    }
  }

  /** Every normaliser is idempotent: a stored value is already in normal form. */
  lemma NormalizeIdempotent(t: IndicatorType, raw: string)
    ensures Normalize(t, Normalize(t, raw)) == Normalize(t, raw)
  {
    var n := NormalizerOf(t);
    assert Normalize(t, raw) == ApplyNormalizer(n, raw);
    assert Normalize(t, Normalize(t, raw)) == ApplyNormalizer(n, ApplyNormalizer(n, raw));
    NormalizerIdempotent(n, raw);
  }

  /** Each normaliser, applied twice, is applied once. */
  lemma NormalizerIdempotent(n: Normalizer, x: string)
    ensures ApplyNormalizer(n, ApplyNormalizer(n, x)) == ApplyNormalizer(n, x)
  {
    var v := ApplyNormalizer(n, x);
    match n
    case LowerTrimPunctuation =>
      LowerTrimForm(x);
      LowerFixed(v);
      StripCharsFixed(v, DomainTrim);
    case TrimBrackets =>
      StripCharsFixed(v, UrlTrim);
    case Unchanged =>
    case LowerOnly =>
      LowerFixed(v);
    case PhoneChars =>
      KeepPhoneCharsFixed(v);
    case DropAtLower =>
      LowerFixed(v);
      LStripCharsFixed(v, {'@'});
  }

  datatype Candidate = Candidate(typ: string, value: string, confidence: real)

  type Key = (string, string)

  function KeyOf(c: Candidate): Key {
    (c.typ, c.value)
  }

  /** What a case-insensitive `finditer` of a pattern over a text yields:
      the whole match of each hit, in order. */
  type Engine = (string, string) -> seq<string>

  /** The candidate recorded for one raw match of type `t`. */
  function CandidateFor(t: IndicatorType, raw: string): Candidate {
    Candidate(TypeName(t), Normalize(t, raw), 0.9)
  }

  /** The candidates appended for the raw matches of one pattern. */
  function MatchCandidates(t: IndicatorType, raws: seq<string>): (r: seq<Candidate>)
    ensures |r| == |raws|
    ensures forall m :: 0 <= m < |raws| ==> r[m] == CandidateFor(t, raws[m])
  {
    seq(|raws|, m requires 0 <= m < |raws| => CandidateFor(t, raws[m]))
  }

  /** One more raw match appends its candidate. */
  lemma MatchCandidatesSnoc(t: IndicatorType, raws: seq<string>, m: nat)
    requires m < |raws|
    ensures MatchCandidates(t, raws[..m + 1]) == MatchCandidates(t, raws[..m]) + [CandidateFor(t, raws[m])]
  {
    var a, b := MatchCandidates(t, raws[..m + 1]), MatchCandidates(t, raws[..m]);
    forall i | 0 <= i < m ensures a[i] == b[i] {
      assert raws[..m + 1][i] == raws[..m][i];
    }
  }

  /** The `found` list once the registry entries `reg` have been run. */
  function FoundIn(reg: seq<IndicatorType>, text: string, engine: Engine): seq<Candidate>
    decreases |reg|
  {
    if reg == [] then []
    else
      var t := reg[|reg| - 1];
      FoundIn(reg[..|reg| - 1], text, engine) + MatchCandidates(t, engine(PatternOf(t), text))
  }

  /** A Python dict keyed by (type, value): its keys in insertion order and
      its entries. */
  datatype Dict = Dict(order: seq<Key>, entries: map<Key, Candidate>)

  ghost predicate DictWf(d: Dict) {
    && (forall i, j :: 0 <= i < j < |d.order| ==> d.order[i] != d.order[j])
    && (forall k :: k in d.entries <==> k in d.order)
    && (forall k :: k in d.entries ==> KeyOf(d.entries[k]) == k)
  }

  /** `d[KeyOf(c)] = c`: a new key goes to the end, an old key keeps its
      place and takes the new value. */
  function Put(d: Dict, c: Candidate): Dict {
    Dict(if KeyOf(c) in d.entries then d.order else d.order + [KeyOf(c)],
         d.entries[KeyOf(c) := c])
  }

  /** The dict comprehension over `found`, keyed by (type, value). */
  function DictOf(found: seq<Candidate>): (d: Dict)
    ensures DictWf(d)
    ensures forall k :: k in d.entries <==> exists i :: 0 <= i < |found| && KeyOf(found[i]) == k
    decreases |found|
  {
    if found == [] then Dict([], map[])
    else Put(DictOf(found[..|found| - 1]), found[|found| - 1])
  }

  /** The dict's values in key order. */
  function Values(d: Dict): (r: seq<Candidate>)
    requires DictWf(d)
    ensures |r| == |d.order|
    ensures forall i :: 0 <= i < |r| ==> r[i] == d.entries[d.order[i]]
  {
    seq(|d.order|, i requires 0 <= i < |d.order| && DictWf(d) => d.entries[d.order[i]])
  }

  /** What extraction returns for `text`. */
  function Extract(text: string, engine: Engine): seq<Candidate> {
    Values(DictOf(FoundIn(Registry, text, engine)))
  }

  /** The extraction itself: the two nested loops fill `found`, then the
      dict comprehension keeps one entry per key, the last one seen, at
      the place its key first appeared. */
  method ExtractIndicators(text: string, engine: Engine) returns (r: seq<Candidate>)
    ensures r == Extract(text, engine)
  {
    var found := FindAll(Registry, text, engine);
    r := Deduplicate(found);
  }

  /** The outer loop: every entry of `reg` in turn appends its matches. */
  method FindAll(reg: seq<IndicatorType>, text: string, engine: Engine) returns (found: seq<Candidate>)
    ensures found == FoundIn(reg, text, engine)
  {
    found := [];
    for p := 0 to |reg|
      invariant found == FoundIn(reg[..p], text, engine)
    {
      var t := reg[p];
      var more := CandidatesOf(t, engine(PatternOf(t), text));
      found := found + more;
      assert reg[..p + 1][..p] == reg[..p];
    }
    assert reg[..|reg|] == reg;
  }

  /** The inner loop: one candidate per raw match, in order. */
  method CandidatesOf(t: IndicatorType, raws: seq<string>) returns (cs: seq<Candidate>)
    ensures cs == MatchCandidates(t, raws)
  {
    cs := [];
    for m := 0 to |raws|
      invariant cs == MatchCandidates(t, raws[..m])
    {
      MatchCandidatesSnoc(t, raws, m);
      cs := cs + [CandidateFor(t, raws[m])];
    }
    assert raws[..|raws|] == raws;
  }

  /** The dict comprehension, then `list(key.values())`. */
  method Deduplicate(found: seq<Candidate>) returns (r: seq<Candidate>)
    ensures r == Values(DictOf(found))
  {
    var order: seq<Key> := [];
    var entries: map<Key, Candidate> := map[];
    for i := 0 to |found|
      invariant Dict(order, entries) == DictOf(found[..i])
    {
      var c := found[i];
      if KeyOf(c) !in entries {
        order := order + [KeyOf(c)];
      }
      entries := entries[KeyOf(c) := c];
      assert found[..i + 1][..i] == found[..i];
    }
    assert found[..|found|] == found;
    r := seq(|order|, j requires 0 <= j < |order| && DictWf(Dict(order, entries)) => entries[order[j]]);
  }

  // ---------------------------------------------------------------------
  // What the extraction promises.

  /** `c` is the candidate for raw match `m` of entry `j` of `reg`. */
  predicate MatchedIn(reg: seq<IndicatorType>, text: string, engine: Engine, j: int, m: int, c: Candidate) {
    && 0 <= j < |reg|
    && 0 <= m < |engine(PatternOf(reg[j]), text)|
    && c == CandidateFor(reg[j], engine(PatternOf(reg[j]), text)[m])
  }

  /** `c` is the candidate for raw match `m` of registry entry `j`. */
  predicate MatchedBy(text: string, engine: Engine, j: int, m: int, c: Candidate) {
    MatchedIn(Registry, text, engine, j, m, c)
  }

  lemma {:induction false} FoundInHasMatch(reg: seq<IndicatorType>, text: string, engine: Engine, j: nat, m: nat)
    requires j < |reg| && m < |engine(PatternOf(reg[j]), text)|
    ensures CandidateFor(reg[j], engine(PatternOf(reg[j]), text)[m]) in FoundIn(reg, text, engine)
    decreases |reg|
  {
    var last := |reg| - 1;
    var prev := FoundIn(reg[..last], text, engine);
    var tail := MatchCandidates(reg[last], engine(PatternOf(reg[last]), text));
    var c := CandidateFor(reg[j], engine(PatternOf(reg[j]), text)[m]);
    assert FoundIn(reg, text, engine) == prev + tail;
    if j < last {
      assert reg[..last][j] == reg[j];
      FoundInHasMatch(reg[..last], text, engine, j, m);
      assert c in prev;
    } else {
      assert tail[m] == c;
    }
  }

  lemma {:induction false} FoundInFromMatch(reg: seq<IndicatorType>, text: string, engine: Engine, c: Candidate)
    returns (j: nat, m: nat)
    requires c in FoundIn(reg, text, engine)
    ensures MatchedIn(reg, text, engine, j, m, c)
    decreases |reg|
  {
    var last := |reg| - 1;
    var prev := FoundIn(reg[..last], text, engine);
    var tail := MatchCandidates(reg[last], engine(PatternOf(reg[last]), text));
    assert FoundIn(reg, text, engine) == prev + tail;
    if c in prev {
      j, m := FoundInFromMatch(reg[..last], text, engine, c);
      assert reg[..last][j] == reg[j];
    } else {
      assert c in tail;
      m :| 0 <= m < |tail| && tail[m] == c;
      j := last;
    }
  }

  /** No two results share a (type, value) key. */
  lemma ExtractKeysDistinct(text: string, engine: Engine)
    ensures forall i, j :: 0 <= i < j < |Extract(text, engine)| ==>
      KeyOf(Extract(text, engine)[i]) != KeyOf(Extract(text, engine)[j])
  {
    var d := DictOf(FoundIn(Registry, text, engine));
    assert forall i :: 0 <= i < |d.order| ==> KeyOf(Extract(text, engine)[i]) == d.order[i];
  }

  /** Every raw match of every registry pattern yields a result with its
      (type, normalised match) key: a span that several patterns match
      appears once per type. */
  lemma ExtractComplete(text: string, engine: Engine, j: nat, m: nat)
    requires j < |Registry| && m < |engine(PatternOf(Registry[j]), text)|
    ensures exists i :: (0 <= i < |Extract(text, engine)|
      && KeyOf(Extract(text, engine)[i]) == KeyOf(CandidateFor(Registry[j], engine(PatternOf(Registry[j]), text)[m])))
  {
    var found := FoundIn(Registry, text, engine);
    var c := CandidateFor(Registry[j], engine(PatternOf(Registry[j]), text)[m]);
    FoundInHasMatch(Registry, text, engine, j, m);
    var t :| 0 <= t < |found| && found[t] == c;
    var d := DictOf(found);
    assert KeyOf(c) in d.entries;
    var i :| 0 <= i < |d.order| && d.order[i] == KeyOf(c);
    assert KeyOf(Extract(text, engine)[i]) == KeyOf(c);
  }

  /** Every result is the candidate for some raw match of some registry
      pattern: its type is a registry tag, its value that match normalised
      and its confidence 0.9. */
  lemma ExtractSound(text: string, engine: Engine, i: nat)
    requires i < |Extract(text, engine)|
    ensures exists j, m :: MatchedBy(text, engine, j, m, Extract(text, engine)[i])
    ensures Extract(text, engine)[i].confidence == 0.9
  {
    var found := FoundIn(Registry, text, engine);
    var d := DictOf(found);
    var c := d.entries[d.order[i]];
    assert c == Extract(text, engine)[i];
    DictEntriesFromFound(found);
    var j, m := FoundInFromMatch(Registry, text, engine, c);
    assert MatchedBy(text, engine, j, m, Extract(text, engine)[i]);
  }

  lemma {:induction false} DictEntriesFromFound(found: seq<Candidate>)
    ensures forall k :: k in DictOf(found).entries ==> DictOf(found).entries[k] in found
    decreases |found|
  {
    if found != [] {
      DictEntriesFromFound(found[..|found| - 1]);
    }
  }

  /** The index of the first candidate with key `k`, or -1. */
  function FirstIndex(s: seq<Candidate>, k: Key): (r: int)
    ensures -1 <= r < |s|
    ensures r >= 0 ==> KeyOf(s[r]) == k
    ensures forall i :: 0 <= i < |s| && (r == -1 || i < r) ==> KeyOf(s[i]) != k
  {
    if s == [] then -1
    else if KeyOf(s[0]) == k then 0
    else
      var r := FirstIndex(s[1..], k);
      if r < 0 then -1 else r + 1
  }

  lemma FirstIndexAppend(s: seq<Candidate>, c: Candidate, k: Key)
    ensures FirstIndex(s, k) >= 0 ==> FirstIndex(s + [c], k) == FirstIndex(s, k)
    ensures FirstIndex(s, k) < 0 && KeyOf(c) == k ==> FirstIndex(s + [c], k) == |s|
  {
    var r := FirstIndex(s + [c], k);
    var r0 := FirstIndex(s, k);
    if r0 >= 0 {
      assert (s + [c])[r0] == s[r0];
    } else if KeyOf(c) == k {
      assert (s + [c])[|s|] == c;
    }
  }

  /** Every key of `order` occurs in `found`, and the keys come in the order
      of their first occurrence. */
  predicate OrderedByFirstOccurrence(found: seq<Candidate>, order: seq<Key>) {
    && (forall a :: 0 <= a < |order| ==> FirstIndex(found, order[a]) >= 0)
    && (forall a, b :: 0 <= a < b < |order| ==> FirstIndex(found, order[a]) < FirstIndex(found, order[b]))
  }

  /** The dict's keys are ordered by where each key first occurs in `found`. */
  lemma {:induction false} DictOfOrder(found: seq<Candidate>)
    ensures OrderedByFirstOccurrence(found, DictOf(found).order)
    decreases |found|
  {
    if found != [] {
      var init := found[..|found| - 1];
      var c := found[|found| - 1];
      assert found == init + [c];
      DictOfOrder(init);
      DictOfOrderStep(init, c);
    }
  }

  lemma DictOfSnoc(init: seq<Candidate>, c: Candidate)
    ensures DictOf(init + [c]) == Put(DictOf(init), c)
  {
    assert (init + [c])[..|init|] == init;
  }

  lemma DictOfOrderStep(init: seq<Candidate>, c: Candidate)
    requires OrderedByFirstOccurrence(init, DictOf(init).order)
    ensures OrderedByFirstOccurrence(init + [c], DictOf(init + [c]).order)
  {
    DictOfSnoc(init, c);
    PutOrder(init, DictOf(init), c);
  }

  lemma PutOrder(init: seq<Candidate>, prev: Dict, c: Candidate)
    requires DictWf(prev) && OrderedByFirstOccurrence(init, prev.order)
    requires forall k :: k in prev.entries <==> FirstIndex(init, k) >= 0
    ensures OrderedByFirstOccurrence(init + [c], Put(prev, c).order)
  {
    var found := init + [c];
    forall a | 0 <= a < |prev.order|
      ensures FirstIndex(found, prev.order[a]) == FirstIndex(init, prev.order[a])
    {
      FirstIndexAppend(init, c, prev.order[a]);
    }
    assert OrderedByFirstOccurrence(found, prev.order);
    if KeyOf(c) !in prev.entries {
      FirstIndexAppend(init, c, KeyOf(c));
      OrderedSnoc(found, prev.order, KeyOf(c));
    }
  }

  /** A key that first occurs after every key of `order` may follow them. */
  lemma OrderedSnoc(found: seq<Candidate>, order: seq<Key>, k: Key)
    requires OrderedByFirstOccurrence(found, order)
    requires FirstIndex(found, k) >= 0
    requires forall a :: 0 <= a < |order| ==> FirstIndex(found, order[a]) < FirstIndex(found, k)
    ensures OrderedByFirstOccurrence(found, order + [k])
  {
    var order' := order + [k];
    forall a, b | 0 <= a < b < |order'|
      ensures FirstIndex(found, order'[a]) < FirstIndex(found, order'[b])
    {
      assert order'[a] == order[a];
      if b < |order| {
        assert order'[b] == order[b];
      }
    }
  }

  /** The results come in the order in which their keys first appear among
      the raw matches: registry order first, then match order. */
  lemma ExtractFirstAppearanceOrder(text: string, engine: Engine, a: nat, b: nat)
    requires a < b < |Extract(text, engine)|
    ensures 0 <= FirstIndex(FoundIn(Registry, text, engine), KeyOf(Extract(text, engine)[a]))
              < FirstIndex(FoundIn(Registry, text, engine), KeyOf(Extract(text, engine)[b]))
  {
    var found := FoundIn(Registry, text, engine);
    DictOfOrder(found);
    var d := DictOf(found);
    assert KeyOf(Extract(text, engine)[a]) == d.order[a];
    assert KeyOf(Extract(text, engine)[b]) == d.order[b];
  }

  /** The result depends only on what the registry's patterns match in the
      text: two engines that agree there give the same list. */
  lemma ExtractDependsOnlyOnMatches(text: string, e1: Engine, e2: Engine)
    requires forall t :: e1(PatternOf(t), text) == e2(PatternOf(t), text)
    ensures Extract(text, e1) == Extract(text, e2)
  {
    FoundInAgree(Registry, text, e1, e2);
  }

  lemma {:induction false} FoundInAgree(reg: seq<IndicatorType>, text: string, e1: Engine, e2: Engine)
    requires forall t :: e1(PatternOf(t), text) == e2(PatternOf(t), text)
    ensures FoundIn(reg, text, e1) == FoundIn(reg, text, e2)
    decreases |reg|
  {
    if reg != [] {
      FoundInAgree(reg[..|reg| - 1], text, e1, e2);
    }
  }
}
